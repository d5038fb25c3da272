/**
 * The values that go into the rows of the Excel and PDF daily exports: the formatted
 * times, the status text, the truncated PDF observation, the placeholder rows of empty PDF
 * sections, and where each row lands on the Excel sheet. Styles, widths, merged cells
 * and the document bytes are not modelled.
 */
module Export {
  import opened Wrappers
  import opened Records
  import opened Strings
  import opened Seqs
  import opened Queries
  import Store

  /** A cell value: text, a number (rendered by Python's `str` in the PDF), or an empty cell. */
  datatype Cell = Text(text: string) | Number(value: real) | Blank

  const VisitorHeadingsExcel: seq<string> := ["Nome", "Documento", "Entrada", "Saída", "Placa", "Empresa", "Observação"]
  const VisitorHeadingsPdf: seq<string> := ["Nome", "Documento", "Entrada", "Saída", "Placa", "Empresa", "Obs."]
  const FleetHeadings: seq<string> := ["Motorista", "Veículo", "KM Saída", "KM Entrada", "Distância (KM)", "Status"]
  const NoVisitorsRow: seq<Cell> := [Text("Nenhum visitante registrado"), Text(""), Text(""), Text(""), Text(""), Text(""), Text("")]
  const NoTripsRow: seq<Cell> := [Text("Nenhum registro"), Text(""), Text(""), Text(""), Text(""), Text("")]
  const OpenVisitText := "Em andamento"
  const NoObservationText := "Nenhuma observação"
  const NoPorterText := "—"

  function TextRow(s: seq<string>): (r: seq<Cell>)
    ensures |r| == |s| && forall i :: 0 <= i < |s| ==> r[i] == Text(s[i])
  {
    seq(|s|, i requires 0 <= i < |s| => Text(s[i]))
  }

  function Title(date: string): string {
    "RELATÓRIO DIÁRIO - PORTARIA - " + date
  }

  /** `s[:16].replace("T", " ")`: an ISO timestamp cut to minutes, with a space for the `T`. */
  function FormatTime(s: string): (r: string)
    ensures |r| == Min(|s|, 16) && 'T' !in r
    ensures forall i :: 0 <= i < |r| ==> r[i] == if s[i] == 'T' then ' ' else s[i]
  {
    ReplaceChar(Truncate(s, 16), 'T', ' ')
  }

  /** The entry column: the formatted entry time, or "" when there is none. */
  function EntryText(v: Visitor): string {
    if v.entryTime == "" then "" else FormatTime(v.entryTime)
  }

  /** The exit column: the formatted exit time, or "Em andamento" while there is none. */
  function ExitText(v: Visitor): string {
    match v.exitTime
    case Some(t) => if t == "" then OpenVisitText else FormatTime(t)
    case None => OpenVisitText
  }

  /** The status column: "Retornado" for a returned trip, "Em viagem" for anything else. */
  function StatusText(t: FleetTrip): string {
    if t.status == Retornado then "Retornado" else "Em viagem"
  }

  function ExcelVisitorRow(v: Visitor): seq<Cell> {
    [Text(v.name), Text(v.document), Text(EntryText(v)), Text(ExitText(v)),
     Text(v.vehiclePlate), Text(v.company), Text(v.observation)]
  }

  /** As in Excel, but the observation is cut to 30 characters. */
  function PdfVisitorRow(v: Visitor): seq<Cell> {
    [Text(v.name), Text(v.document), Text(EntryText(v)), Text(ExitText(v)),
     Text(v.vehiclePlate), Text(v.company), Text(Truncate(v.observation, 30))]
  }

  /** A stored `None` written to a sheet cell leaves it empty. */
  function ExcelValue(x: Option<real>): Cell {
    match x
    case Some(n) => Number(n)
    case None => Blank
  }

  /** `str(x)` of a stored value: `None` prints as "None". */
  function PdfValue(x: Option<real>): Cell {
    match x
    case Some(n) => Number(n)
    case None => Text("None")
  }

  /**
   * `f.get("arrival_km", "—")` finds the key, holding `None`, on an open trip, so the dash
   * default is never used: the Excel cell is empty and the PDF cell reads "None".
   */
  function ExcelFleetRow(t: FleetTrip): seq<Cell> {
    [Text(t.driverName), Text(t.vehicle), Number(t.departureKm), ExcelValue(t.arrivalKm),
     ExcelValue(t.distance), Text(StatusText(t))]
  }

  function PdfFleetRow(t: FleetTrip): seq<Cell> {
    [Text(t.driverName), Text(t.vehicle), Number(t.departureKm), PdfValue(t.arrivalKm),
     PdfValue(t.distance), Text(StatusText(t))]
  }

  /** The observations section: the saved text, or "Nenhuma observação" when nothing was saved. */
  function ObservationText(obs: map<string, Observation>, date: string): string {
    if date in obs then obs[date].observation else NoObservationText
  }

  /** The porter line: the saved name, or "—" when nothing was saved. */
  function PorterText(obs: map<string, Observation>, date: string): string {
    if date in obs then obs[date].porterName else NoPorterText
  }

  function VisitorRowsExcel(vs: seq<Visitor>): (r: seq<seq<Cell>>)
    ensures |r| == |vs| && forall i :: 0 <= i < |vs| ==> r[i] == ExcelVisitorRow(vs[i])
  {
    seq(|vs|, i requires 0 <= i < |vs| => ExcelVisitorRow(vs[i]))
  }

  function FleetRowsExcel(ts: seq<FleetTrip>): (r: seq<seq<Cell>>)
    ensures |r| == |ts| && forall i :: 0 <= i < |ts| ==> r[i] == ExcelFleetRow(ts[i])
  {
    seq(|ts|, i requires 0 <= i < |ts| => ExcelFleetRow(ts[i]))
  }

  /**
   * The Excel sheet, one entry per sheet row in order (entry `i` is row `i + 1`), an empty
   * entry for a row the export skips: title, blank, visitors section, blank, fleet
   * section, blank, observation, blank, porter.
   */
  function ExcelSheet(vs: seq<Visitor>, ts: seq<FleetTrip>, obs: map<string, Observation>,
                      date: string, today: string): seq<seq<Cell>>
  {
    var d := EffectiveDate(date, today);
    ExcelLayout(d, DayVisitors(vs, d), DayTrips(ts, d), obs)
  }

  function ExcelLayout(d: string, rv: seq<Visitor>, rt: seq<FleetTrip>, obs: map<string, Observation>): seq<seq<Cell>> {
    ExcelHead(d) + VisitorRowsExcel(rv) + ExcelMiddle() + FleetRowsExcel(rt) + ExcelTail(obs, d)
  }

  function ExcelHead(d: string): seq<seq<Cell>> {
    [[Text(Title(d))], [], [Text("VISITANTES")], TextRow(VisitorHeadingsExcel)]
  }

  function ExcelMiddle(): seq<seq<Cell>> {
    [[], [Text("CONTROLE DE FROTA")], TextRow(FleetHeadings)]
  }

  function ExcelTail(obs: map<string, Observation>, d: string): seq<seq<Cell>> {
    [[], [Text("OBSERVAÇÕES DO DIA")], [Text(ObservationText(obs, d))], [],
     [Text("Porteiro responsável:"), Text(PorterText(obs, d))]]
  }

  /** The PDF visitors table: headings, then one row per visitor or the placeholder row. */
  function PdfVisitorTable(vs: seq<Visitor>): seq<seq<Cell>> {
    [TextRow(VisitorHeadingsPdf)]
    + if vs == [] then [NoVisitorsRow] else seq(|vs|, i requires 0 <= i < |vs| => PdfVisitorRow(vs[i]))
  }

  /** The PDF fleet table: headings, then one row per trip or the placeholder row. */
  function PdfFleetTable(ts: seq<FleetTrip>): seq<seq<Cell>> {
    [TextRow(FleetHeadings)]
    + if ts == [] then [NoTripsRow] else seq(|ts|, i requires 0 <= i < |ts| => PdfFleetRow(ts[i]))
  }

  datatype PdfReport = PdfReport(
    title: string,
    visitorTable: seq<seq<Cell>>,
    fleetTable: seq<seq<Cell>>,
    observation: string,
    porterLine: string)

  function PdfExport(vs: seq<Visitor>, ts: seq<FleetTrip>, obs: map<string, Observation>,
                     date: string, today: string): PdfReport
  {
    var d := EffectiveDate(date, today);
    PdfReport(Title(d), PdfVisitorTable(DayVisitors(vs, d)), PdfFleetTable(DayTrips(ts, d)),
              ObservationText(obs, d), "<b>Porteiro responsável:</b> " + PorterText(obs, d))
  }

  // ─── What the rows promise ──────────────────────────────────────────

  /**
   * A timestamp in ISO form (`YYYY-MM-DDTHH:MM...`) shows as its date, a space and its
   * time to the minute.
   */
  lemma FormatIsoTime(s: string)
    requires |s| >= 16 && s[10] == 'T'
    requires forall i :: 0 <= i < 16 && i != 10 ==> s[i] != 'T'
    ensures FormatTime(s) == s[..10] + " " + s[11..16]
  {
    var r := FormatTime(s);
    var e := s[..10] + " " + s[11..16];
    assert |r| == 16 == |e|;
    forall i | 0 <= i < 16 ensures r[i] == e[i] {
      if i < 10 {
        assert e[i] == s[i];
      } else if i > 10 {
        assert e[i] == s[11..16][i - 11] == s[i];
      }
    }
  }

  /** An open visit shows "Em andamento"; a closed one its formatted exit time. */
  lemma ExitTextSpec(v: Visitor)
    ensures v.exitTime.None? ==> ExitText(v) == "Em andamento"
    ensures v.exitTime.Some? && v.exitTime.value != "" ==> ExitText(v) == FormatTime(v.exitTime.value)
  {
  }

  /** The status text is "Retornado" exactly for returned trips, "Em viagem" otherwise. */
  lemma StatusTextSpec(t: FleetTrip)
    ensures StatusText(t) == "Retornado" <==> t.status == Retornado
    ensures StatusText(t) == "Em viagem" <==> t.status != Retornado
  {
    assert "Retornado"[0] != "Em viagem"[0];
  }

  /** The PDF observation cell holds the first 30 characters of the observation, or all of a shorter one. */
  lemma PdfObservationCut(v: Visitor)
    ensures var c := PdfVisitorRow(v)[6];
      c.Text? && c.text == v.observation[..Min(|v.observation|, 30)]
  {
  }

  /** An open trip gets an empty Excel cell and a "None" PDF cell for arrival and distance. */
  lemma OpenTripCells(t: FleetTrip)
    requires TripConsistent(t) && t.status == EmViagem
    ensures ExcelFleetRow(t)[3] == Blank && ExcelFleetRow(t)[4] == Blank
    ensures PdfFleetRow(t)[3] == Text("None") && PdfFleetRow(t)[4] == Text("None")
    ensures ExcelFleetRow(t)[5] == Text("Em viagem")
  {
  }

  /** A returned trip shows its arrival and its distance, arrival minus departure. */
  lemma ReturnedTripCells(t: FleetTrip)
    requires TripConsistent(t) && t.status == Retornado
    ensures ExcelFleetRow(t)[3] == Number(t.arrivalKm.value)
    ensures ExcelFleetRow(t)[4] == Number(t.arrivalKm.value - t.departureKm)
    ensures PdfFleetRow(t)[3] == Number(t.arrivalKm.value)
    ensures PdfFleetRow(t)[4] == ExcelFleetRow(t)[4]
    ensures ExcelFleetRow(t)[5] == Text("Retornado")
  {
  }

  /**
   * Every trip of a valid store exports as `OpenTripCells` or `ReturnedTripCells` state:
   * an open trip with empty arrival and distance cells, a returned one with its arrival
   * and its distance.
   */
  lemma StoredTripCells(g: Store.Gatehouse, k: int)
    requires g.Valid() && 0 <= k < |g.trips|
    ensures var t := g.trips[k];
      && (t.status == EmViagem ==> ExcelFleetRow(t)[3] == Blank && ExcelFleetRow(t)[4] == Blank)
      && (t.status == Retornado ==>
            && ExcelFleetRow(t)[3] == Number(t.arrivalKm.value)
            && ExcelFleetRow(t)[4] == Number(t.arrivalKm.value - t.departureKm))
  {
    var t := g.trips[k];
    assert TripConsistent(t);
    if t.status == EmViagem {
      OpenTripCells(t);
    } else {
      ReturnedTripCells(t);
    }
  }

  /** The PDF visitors table: headings, then the visitors in order, or the placeholder row. */
  lemma {:induction false} PdfVisitorTableSpec(rv: seq<Visitor>)
    ensures var t := PdfVisitorTable(rv);
      && |t| == 1 + (if rv == [] then 1 else |rv|)
      && t[0] == TextRow(VisitorHeadingsPdf)
      && (rv == [] ==> t[1] == NoVisitorsRow)
      && (forall i :: 0 <= i < |rv| ==> t[i + 1] == PdfVisitorRow(rv[i]))
  {
    var t := PdfVisitorTable(rv);
    if rv != [] {
      var rows := seq(|rv|, i requires 0 <= i < |rv| => PdfVisitorRow(rv[i]));
      assert t == [TextRow(VisitorHeadingsPdf)] + rows;
      forall i | 0 <= i < |rv| ensures t[i + 1] == PdfVisitorRow(rv[i]) {
        assert t[i + 1] == rows[i];
      }
    }
  }

  /** The PDF fleet table: headings, then the trips in order, or the placeholder row. */
  lemma {:induction false} PdfFleetTableSpec(rt: seq<FleetTrip>)
    ensures var t := PdfFleetTable(rt);
      && |t| == 1 + (if rt == [] then 1 else |rt|)
      && t[0] == TextRow(FleetHeadings)
      && (rt == [] ==> t[1] == NoTripsRow)
      && (forall j :: 0 <= j < |rt| ==> t[j + 1] == PdfFleetRow(rt[j]))
  {
    var t := PdfFleetTable(rt);
    if rt != [] {
      var rows := seq(|rt|, j requires 0 <= j < |rt| => PdfFleetRow(rt[j]));
      assert t == [TextRow(FleetHeadings)] + rows;
      forall j | 0 <= j < |rt| ensures t[j + 1] == PdfFleetRow(rt[j]) {
        assert t[j + 1] == rows[j];
      }
    }
  }

  /**
   * The PDF export tabulates exactly the daily report's visitors and trips, under the
   * report's title, with the exports' observation and porter texts.
   */
  lemma PdfExportOfReport(vs: seq<Visitor>, ts: seq<FleetTrip>, ss: seq<Schedule>,
                          obs: map<string, Observation>, date: string, today: string)
    ensures var p, rep := PdfExport(vs, ts, obs, date, today), BuildReport(vs, ts, ss, obs, date, today);
      && p.title == Title(rep.date)
      && p.visitorTable == PdfVisitorTable(rep.visitors)
      && p.fleetTable == PdfFleetTable(rep.fleet)
      && p.observation == ObservationText(obs, rep.date)
      && p.porterLine == "<b>Porteiro responsável:</b> " + PorterText(obs, rep.date)
  {
  }

  /**
   * Where the Excel rows land as the export advances its row counter, with `n` visitors and
   * `m` trips: visitor `i` on sheet row `5 + i`, the fleet headings on row `7 + n`, trip `j`
   * on row `8 + n + j`, the observation on row `10 + n + m` and the porter on row
   * `12 + n + m`, the last row. (Entry `r - 1` of the sequence is row `r`.)
   */
  lemma {:induction false} ExcelLayoutRows(d: string, rv: seq<Visitor>, rt: seq<FleetTrip>, obs: map<string, Observation>)
    ensures var sheet, n, m := ExcelLayout(d, rv, rt, obs), |rv|, |rt|;
      && |sheet| == 12 + n + m
      && sheet[0] == [Text(Title(d))]
      && sheet[3] == TextRow(VisitorHeadingsExcel)
      && (forall i :: 0 <= i < n ==> sheet[4 + i] == ExcelVisitorRow(rv[i]))
      && sheet[6 + n] == TextRow(FleetHeadings)
      && (forall j :: 0 <= j < m ==> sheet[7 + n + j] == ExcelFleetRow(rt[j]))
      && sheet[9 + n + m] == [Text(ObservationText(obs, d))]
      && sheet[11 + n + m] == [Text("Porteiro responsável:"), Text(PorterText(obs, d))]
  {
    var n, m := |rv|, |rt|;
    var a := ExcelHead(d) + VisitorRowsExcel(rv);
    var b := a + ExcelMiddle();
    var c := b + FleetRowsExcel(rt);
    var sheet := c + ExcelTail(obs, d);
    assert |a| == 4 + n && |b| == 7 + n && |c| == 7 + n + m;
    assert sheet[0] == a[0] && sheet[3] == a[3];
    forall i | 0 <= i < n ensures sheet[4 + i] == ExcelVisitorRow(rv[i]) {
      assert sheet[4 + i] == a[4 + i];
    }
    assert sheet[6 + n] == b[6 + n];
    forall j | 0 <= j < m ensures sheet[7 + n + j] == ExcelFleetRow(rt[j]) {
      assert sheet[7 + n + j] == c[7 + n + j];
    }
  }

  /**
   * The Excel sheet is the layout of the daily report's own date, visitors and trips;
   * `ExcelLayoutRows` gives where each of its rows lands.
   */
  lemma ExcelSheetLayout(vs: seq<Visitor>, ts: seq<FleetTrip>, ss: seq<Schedule>,
                         obs: map<string, Observation>, date: string, today: string)
    ensures var rep := BuildReport(vs, ts, ss, obs, date, today);
      ExcelSheet(vs, ts, obs, date, today) == ExcelLayout(rep.date, rep.visitors, rep.fleet, obs)
  {
  }

  /**
   * The exports show the report's observation and porter when one was saved for the date;
   * without one the report gives "" while the exports print "Nenhuma observação" and "—".
   */
  lemma ExportObservationVersusReport(vs: seq<Visitor>, ts: seq<FleetTrip>, ss: seq<Schedule>,
                                      obs: map<string, Observation>, date: string, today: string)
    ensures var rep := BuildReport(vs, ts, ss, obs, date, today);
      && (rep.date in obs ==> ObservationText(obs, rep.date) == rep.observation && PorterText(obs, rep.date) == rep.porterName)
      && (rep.date !in obs ==>
            && ObservationText(obs, rep.date) == "Nenhuma observação" && PorterText(obs, rep.date) == "—"
            && rep.observation == "" && rep.porterName == "")
  {
  }
}
