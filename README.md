# Gatehouse backend: record store and lifecycle engine

This project models the core of a facility gatehouse ("portaria") backend. The backend is a
FastAPI service over MongoDB. It records three kinds of records and aggregates them:

- Visitors: entry registration and checkout.
- Fleet trips: departure, and return with its derived distance.
- Visit schedules: pending, then completed or deleted.

It builds a daily report with a free-text observation per date. It serves dashboard
counters. It exports the day as Excel and PDF. It keeps an admin-only user list.

The store is the class `Store.Gatehouse`. It holds one field per collection: `visitors`,
`schedules`, `trips`, `users` as sequences in insertion order, `observations` as a map keyed by
date. Every state-changing endpoint is a method of that class. Its contract states the new
state in terms of the old one, the HTTP error it raises (404, 400, 403) and when, and that
nothing else changes. The read endpoints are functions over the collections in `Queries`
and `Users`. Lemmas in `Queries`, `Lifecycle`, `Users` and `Export` state what those reads
return and how the writes move them.

Modelling choices:

- `update_one`, `delete_one` and `find_one` act on the first matching document in insertion
  order (`Seqs.FirstIndex`). No id-uniqueness precondition is needed.
- A date filter (`{"$regex": "^" + date}`) is a string-prefix test, `date <= s`.
- Sorting on a string field uses code-point lexicographic order (`Strings.StrLe`). It is a
  stable insertion sort (`Sorting.SortOn`). `to_list(1000)` keeps the first 1000
  (`Seqs.Cap`); the dashboard's `count_documents` is uncapped (`Seqs.Count`).
- The clock, fresh uuid4 ids and bcrypt hashes are parameters (`now`, `today`, `id`,
  `passwordHash`). The caller's resolved token is a `Records.Caller`.
- Kilometres are `real`. The distance is `arrival_km - departure_km`, neither rounded nor
  clamped, so it can be negative.

Behaviour of the code worth knowing:

- Visitor and trip listings are newest first; schedules are sorted by `visit_date` only.
- A second checkout gets 404 ("not found or already left"). A second return gets 400.
- Names, documents and kilometres are not validated.
- Nothing enforces that `exit_time` is after `entry_time`, and the client may supply
  `entry_time`.
- The trip status is stored, not derived from the kilometre fields.
- The daily report also lists the day's schedules.

## Model

| member | source | states |
|---|---|---|
| Seqs.Filter | backend/server.py:239 | a find with a filter keeps exactly the matching documents, each from the collection |
| Seqs.FirstIndex | backend/server.py:246-250 | the document an `update_one`/`delete_one` filter matches is the first match, and there is none exactly when no document matches |
| Seqs.FilterExt | backend/server.py:567-571 | two filters that agree on every document select the same documents |
| Seqs.CountUpdate | backend/server.py:567-571 | replacing one document changes a count only by what the old and new document contribute |
| Seqs.CountRemove | backend/server.py:299 | deleting one document lowers a count by what it contributed |
| Seqs.CappedFilterSpec | backend/server.py:355-357 | `find(filter).to_list(1000)` keeps only matching documents: min(count, 1000) of them, the first 1000 in store order (the matches of a prefix of the collection) when more match, all of them otherwise, none more often than stored |
| Seqs.FilterPrefixOf | backend/server.py:285 | the first `n` results of a filter are exactly the matches of some prefix of the collection, so a capped find keeps the earliest matches in store order |
| Seqs.CountAppend | backend/server.py:228 | inserting a document raises a count by one exactly when it matches |
| Strings.StrLeTotal | backend/server.py:239 | the string order the store sorts by is total |
| Strings.StrLeTrans | backend/server.py:239 | the string order the store sorts by is transitive |
| Strings.Truncate | backend/server.py:510 | Python's `s[:n]` is the prefix of `s` whose length is the smaller of its own length and `n` |
| Strings.ReplaceChar | backend/server.py:424 | `replace` changes every occurrence of one character and nothing else |
| Sorting.SortOn | backend/server.py:239 | sorting keeps the same documents (a permutation) |
| Sorting.SortSorted | backend/server.py:239 | the sort result is ordered on its key, ascending or descending |
| Sorting.SortCapSpec | backend/server.py:239 | sorting then `to_list(1000)` keeps min(n, 1000) documents in order; what is cut comes no earlier in the order than anything kept |
| Sorting.SortedListSpec | backend/server.py:330 | filter, sort and cap give min(count, 1000) matching documents, each no more often than in the store, in order, all of them when at most 1000 match |
| Queries.ListVisitorsSpec | backend/server.py:231-240 | the visitor listing `ListVisitors`: open-only when `active`, entry prefix when `date`, newest entry first, capped at 1000, no visitor listed more often than stored, only older visitors left out |
| Queries.ListTripsSpec | backend/server.py:322-331 | the trip listing `ListTrips`: `em_viagem` only when `active`, creation prefix when `date`, newest first, capped at 1000, no trip listed more often than stored |
| Queries.ListSchedulesSpec | backend/server.py:272-279 | the schedule listing `ListSchedules`: exact `visit_date` when given, ascending by visit date, capped at 1000, no schedule listed more often than stored |
| Queries.TodaySchedulesSpec | backend/server.py:281-286 | today's schedules (`TodaySchedules`) are pending ones dated today, a completed schedule never: the first 1000 in store order (the matches of a prefix of the collection) when more match, all of them otherwise, none more often than stored |
| Queries.DashboardAgreesWithListings | backend/server.py:563-578 | each counter of `Dashboard` is the length of the matching listing before the 1000 cap |
| Queries.DayVisitorsSpec | backend/server.py:355 | the day's visitors are visitors whose entry time starts with the date: the first 1000 in store order (the matches of a prefix of the collection) when more match, all of them otherwise, none more often than stored |
| Queries.DayTripsSpec | backend/server.py:356 | the day's trips are trips whose creation time starts with the date: the first 1000 in store order (the matches of a prefix of the collection) when more match, all of them otherwise, none more often than stored |
| Queries.DaySchedulesSpec | backend/server.py:357 | the day's schedules are those dated exactly that day, pending or completed: the first 1000 in store order (the matches of a prefix of the collection) when more match, all of them otherwise, none more often than stored |
| Queries.BuildReportSpec | backend/server.py:350-366 | the report `BuildReport` for a date (today by default) lists that day's visitors, trips and schedules, each at most 1000 long and the first 1000 in store order (the matches of a prefix of the collection) when more match, all of them otherwise, none more often than stored, with the saved observation and porter or "" |
| Queries.EmptyDayReport | backend/server.py:350-366 | a day with no records and no observation gives empty lists and "" without error |
| Queries.ReportAfterSave | backend/server.py:368-378 | after saving an observation for a date, that date's report carries exactly the saved pair and every other report is unchanged |
| Lifecycle.RegisterVisitorCounts | backend/server.py:214-229 | a new open visitor adds one active visitor, and one today's visitor exactly when it entered today |
| Lifecycle.CheckoutCounts | backend/server.py:242-252 | checkout removes exactly one active visitor and leaves every date count unchanged |
| Lifecycle.CheckoutListings | backend/server.py:242-252 | after checkout the visitor leaves the active listing and stays, with its exit time, in its day's listing when the day's listing holds at most 1000 visitors |
| Lifecycle.SecondCheckoutRefused | backend/server.py:246-251 | a repeated checkout is refused with 404 exactly when no other open visitor has the id |
| Lifecycle.CompleteIdempotent | backend/server.py:288-294 | completing finds the same schedule again and a second completion changes nothing |
| Lifecycle.CompleteTodayCount | backend/server.py:288-294 | completion lowers today's pending count by one exactly when the schedule was pending for today |
| Lifecycle.CreateScheduleTodayCount | backend/server.py:256-270 | a new pending schedule adds one to today's count exactly when dated today |
| Lifecycle.DeleteTodayCount | backend/server.py:296-302 | deleting a schedule lowers today's count by what it contributed |
| Lifecycle.RegisterTripCounts | backend/server.py:306-320 | a new trip adds one active trip, and one today's trip exactly when created today |
| Lifecycle.ReturnCounts | backend/server.py:333-346 | a return leaves the trip consistent with distance exactly arrival minus departure and removes one active trip |
| Lifecycle.SecondReturnRefused | backend/server.py:336-340 | after a return the same id finds the returned trip, so a second return is a 400 |
| Users.ListUsers | backend/server.py:152-158 | 403 unless admin; else the first 1000 users in order, without passwords |
| Users.CreateKeepsUsernamesUnique | backend/server.py:165-176 | creation only adds a free username, so unique usernames stay unique |
| Users.UpdateCanDuplicateUsername | backend/server.py:184-195 | an update does not re-check username uniqueness and can make two users share one |
| Users.ApplyUpdateSpec | backend/server.py:184-195 | an update (`ApplyUpdate`) keeps id and creation time, sets every non-empty given username, name and role and the new hash for a given password, changes no other field, and changes nothing without one |
| Store.Gatehouse.SeedAdmin | backend/server.py:117-129 | startup inserts the default admin only when no user is named `admin` |
| Store.Gatehouse.CreateVisitor | backend/server.py:214-229 | a new visitor is open, entry time supplied or now, plate, company and observation default to "", appended and nothing else changes |
| Store.Gatehouse.CheckoutVisitor | backend/server.py:242-252 | sets only the exit time of the first open visitor with the id; 404 and no change otherwise |
| Store.Gatehouse.CreateSchedule | backend/server.py:256-270 | a new schedule is pending with company and notes defaulting to "", appended |
| Store.Gatehouse.CompleteSchedule | backend/server.py:288-294 | sets the status to completed whatever it was; 404 only for an unknown id |
| Store.Gatehouse.DeleteSchedule | backend/server.py:296-302 | removes the first schedule with the id whatever its status; 404 for an unknown id |
| Store.Gatehouse.CreateFleetTrip | backend/server.py:306-320 | a new trip is `em_viagem` with no arrival and no distance, appended; trips stay consistent |
| Store.Gatehouse.ReturnFleetTrip | backend/server.py:333-346 | 404 for an unknown id, 400 when not travelling, both without change; else sets arrival, the unrounded distance and `retornado` |
| Store.Gatehouse.SaveReportObservation | backend/server.py:368-378 | upserts the observation and porter of the date (today by default); other dates keep theirs |
| Store.Gatehouse.CreateUser | backend/server.py:160-177 | 403 unless admin, 400 for a taken username, else appends the user with role defaulting to `porteiro` |
| Store.Gatehouse.UpdateUser | backend/server.py:179-198 | 403 unless admin, 400 with no field given, 404 for an unknown id, else sets only the given fields |
| Store.Gatehouse.DeleteUser | backend/server.py:200-210 | 403 unless admin, 400 for deleting oneself, 404 for an unknown id, else removes that user |
| Export.FormatTime | backend/server.py:424-425 | a time cell (`FormatTime`) is the first 16 characters (all of a shorter string) with each `T` turned into a space and every other character kept |
| Export.FormatIsoTime | backend/server.py:424 | an ISO timestamp shows as its date, a space and its time to the minute |
| Export.ExitTextSpec | backend/server.py:425 | an open visit shows "Em andamento", a closed one its formatted exit time |
| Export.StatusTextSpec | backend/server.py:448 | the status text is "Retornado" exactly for returned trips, else "Em viagem" |
| Export.PdfObservationCut | backend/server.py:510 | the PDF observation cell is the first 30 characters of the observation, or all of a shorter one |
| Export.OpenTripCells | backend/server.py:449 | an open trip's stored `None` gives an empty Excel cell and a "None" PDF cell, never the dash |
| Export.ReturnedTripCells | backend/server.py:449 | a returned trip's Excel and PDF rows show its arrival and its distance, arrival minus departure |
| Export.StoredTripCells | backend/server.py:449 | in a valid store, whose trips keep status and kilometres consistent, every open trip exports empty arrival and distance cells and every returned trip its arrival and arrival minus departure |
| Export.PdfVisitorTableSpec | backend/server.py:504-512 | the PDF visitors table is the headings row, then one row per visitor in order, or the single placeholder row when there is none |
| Export.PdfFleetTableSpec | backend/server.py:525-532 | the PDF fleet table is the headings row, then one row per trip in order, or the single placeholder row when there is none |
| Export.PdfExportOfReport | backend/server.py:484-551 | the PDF (`PdfExport`) tabulates exactly the daily report's visitors and trips under the report date's title |
| Export.ExcelLayoutRows | backend/server.py:402-468 | the Excel row counter puts visitor i on row 5+i, trip j on row 8+n+j and the porter on the last row, 12+n+m |
| Export.ExcelSheetLayout | backend/server.py:402-468 | the Excel sheet (`ExcelSheet`) is the layout of the daily report's own date, visitors and trips |
| Export.ExportObservationVersusReport | backend/server.py:464-468 | the exports show the saved observation and porter, or "Nenhuma observação" and "—" where the report gives "" |

## Left out

- Authentication is not modelled: login, token verification, `get_current_user` and its 401. JWT and bcrypt are foreign libraries. The caller's resolved `{user_id, role}` is an input, and a bcrypt hash is a `passwordHash` parameter.
- MongoDB and async I/O are not modelled: the motor client, index creation at startup, `client.close`. Collections are in-memory sequences and a map.
- CORS, logging, routing and the root message endpoint carry no logic.
- The date is pasted into a regular expression unescaped. The model treats it as a literal prefix, so dates holding regex metacharacters are not modelled.
- Sort ties are unspecified in MongoDB. The model breaks them by insertion order. Natural order is taken to be insertion order.
- The clock is a parameter. `create_visitor` reads it twice (default entry time and `created_at`); the model uses one `now` for both.
- Kilometres are reals, so IEEE float rounding is not modelled.
- The PDF renders numbers with Python's `str`. That rendering is left abstract (`Export.Cell.Number`).
- `return_fleet_trip` reads, then writes, without atomicity. Operations are modelled as sequential.
- The export's rendering is left out: openpyxl styles, merged cells and column widths, the reportlab layout and markup, file names and the streamed response. Only the row values and their order are modelled.
- The response messages of acknowledging endpoints (for example "Saída registrada") are collapsed into `Done`.
- Pydantic's 422 for a missing required field cannot arise: the request datatypes always carry their required fields.
- The frontend files are presentation only, and `backend_test.py` is a network script.
