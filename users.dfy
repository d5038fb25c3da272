/**
 * The rules of user management: every operation is for the `admin` role only, creation
 * refuses a taken username, an update sets only the fields given, a deletion cannot
 * remove the caller.
 */
module Users {
  import opened Wrappers
  import opened Records
  import opened Seqs

  predicate IsAdmin(c: Caller) {
    c.role == "admin"
  }

  function UserWithId(id: string): User -> bool {
    (u: User) => u.id == id
  }

  function UserNamed(username: string): User -> bool {
    (u: User) => u.username == username
  }

  /** The user `update_one` / `delete_one` with filter `{id}` acts on. */
  function FindUser(us: seq<User>, id: string): Option<nat> {
    FirstIndex(us, UserWithId(id))
  }

  /** The `find_one({username})` of user creation and of the startup seed. */
  function FindUsername(us: seq<User>, username: string): Option<nat> {
    FirstIndex(us, UserNamed(username))
  }

  function Listing(u: User): UserListing {
    UserListing(u.id, u.username, u.name, u.role, u.createdAt)
  }

  /**
   * The user listing: refused with 403 to anyone but an admin; otherwise the first 1000
   * users in store order, each shown without its password.
   */
  function ListUsers(us: seq<User>, caller: Caller): (r: Result<seq<UserListing>>)
    ensures !IsAdmin(caller) ==> r == Err(Forbidden)
    ensures IsAdmin(caller) ==> r.Ok? && |r.value| == Min(|us|, MaxList)
    ensures r.Ok? ==> forall i :: 0 <= i < |r.value| ==>
      r.value[i].id == us[i].id && r.value[i].username == us[i].username &&
      r.value[i].name == us[i].name && r.value[i].role == us[i].role &&
      r.value[i].createdAt == us[i].createdAt
  {
    if !IsAdmin(caller) then Err(Forbidden)
    else
      var n := Min(|us|, MaxList);
      Ok(seq(n, i requires 0 <= i < n => Listing(us[i])))
  }

  /** The request carries at least one non-empty field. */
  predicate HasUpdate(req: UserUpdate) {
    Truthy(req.username) || Truthy(req.password) || Truthy(req.name) || Truthy(req.role)
  }

  /** The `$set` of an update; `passwordHash` stands for the hash of `req.password`. */
  function ApplyUpdate(u: User, req: UserUpdate, passwordHash: string): User {
    u.(username := if Truthy(req.username) then req.username.value else u.username,
       passwordHash := if Truthy(req.password) then passwordHash else u.passwordHash,
       name := if Truthy(req.name) then req.name.value else u.name,
       role := if Truthy(req.role) then req.role.value else u.role)
  }

  predicate UniqueUsernames(us: seq<User>) {
    forall i, j :: 0 <= i < j < |us| ==> us[i].username != us[j].username
  }

  /** Creation only adds a user whose username is free, so usernames stay unique. */
  lemma CreateKeepsUsernamesUnique(us: seq<User>, u: User)
    requires UniqueUsernames(us) && FindUsername(us, u.username).None?
    ensures UniqueUsernames(us + [u])
  {
    var us' := us + [u];
    forall i, j | 0 <= i < j < |us'| ensures us'[i].username != us'[j].username {
      if j == |us| {
        assert !UserNamed(u.username)(us[i]);
      } else {
        assert us'[i] == us[i] && us'[j] == us[j];
      }
    }
  }

  /** An update does not check that a new username is free: it can make two users share one. */
  lemma UpdateCanDuplicateUsername()
    ensures var us := [User("1", "ana", "h1", "Ana", "admin", "t"), User("2", "bia", "h2", "Bia", "porteiro", "t")];
      var req := UserUpdate(Some("ana"), None, None, None);
      && UniqueUsernames(us)
      && FindUser(us, "2") == Some(1)
      && HasUpdate(req)
      && !UniqueUsernames(us[1 := ApplyUpdate(us[1], req, "")])
  {
    var us := [User("1", "ana", "h1", "Ana", "admin", "t"), User("2", "bia", "h2", "Bia", "porteiro", "t")];
    var req := UserUpdate(Some("ana"), None, None, None);
    assert us[0].username != us[1].username by {
      assert us[0].username[0] == 'a' && us[1].username[0] == 'b';
    }
    assert us[0].id != "2" by {
      assert us[0].id[0] == '1';
    }
    assert !UserWithId("2")(us[0]) && UserWithId("2")(us[1]);
    var us' := us[1 := ApplyUpdate(us[1], req, "")];
    assert us'[0].username == us'[1].username;
  }

  /**
   * An update keeps the user's id and creation time, sets every field given with a
   * non-empty value (the password as its new hash), changes no other field, and with no
   * such field changes nothing.
   */
  lemma ApplyUpdateSpec(u: User, req: UserUpdate, passwordHash: string)
    ensures var u' := ApplyUpdate(u, req, passwordHash);
      && u'.id == u.id && u'.createdAt == u.createdAt
      && (u'.username != u.username ==> Truthy(req.username) && u'.username == req.username.value)
      && (u'.name != u.name ==> Truthy(req.name) && u'.name == req.name.value)
      && (u'.role != u.role ==> Truthy(req.role) && u'.role == req.role.value)
      && (u'.passwordHash != u.passwordHash ==> Truthy(req.password))
      && (Truthy(req.username) ==> u'.username == req.username.value)
      && (Truthy(req.name) ==> u'.name == req.name.value)
      && (Truthy(req.role) ==> u'.role == req.role.value)
      && (Truthy(req.password) ==> u'.passwordHash == passwordHash)
      && (!HasUpdate(req) ==> u' == u)
  {
  }
}
