/** The later version of the identity store's `login` and `register`, which
    read list results (`.limit(1)`) where the first version asked for exactly
    one row (`.single()`). Both act on the same store state; their contracts
    are those of the first version, so the two versions are proved to agree. */
module PatchedAuthStore {
  import opened Types
  import opened Remote
  import opened AuthStore

  /** The row list `users.eq('username', name).limit(1)` returns. */
  function FirstNamed(users: seq<UserRow>, name: string): (r: seq<UserRow>)
    ensures |r| <= 1
    ensures r == [] <==> UsernameFree(users, name)
    ensures r != [] ==> r[0] == UsersNamed(users, name)[0]
  {
    Limit(UsersNamed(users, name), 1)
  }

  /** The first row of the list lookup is the row the single-row lookup
      yields, and the list is empty exactly when that lookup yields nothing. */
  lemma FirstNamedIsSignInRow(users: seq<UserRow>, name: string)
    ensures FirstNamed(users, name) == [] <==> SignInRow(users, name).None?
    ensures FirstNamed(users, name) != [] ==> FirstNamed(users, name)[0] == SignInRow(users, name).value
  {
  }

  /** `login`: fails on a lookup error or an empty list, otherwise checks the
      passcode against the first row only and signs in with it. */
  method Login(store: AuthStore, username: string, passcode: string, verify: (string, Digest) -> bool,
               lookupFails: bool, presenceFails: bool)
    returns (ok: bool)
    modifies store`user, store`isAuthenticated, store`isLoading, store.db`tables
    ensures !store.isLoading
    ensures var found := SignInAccepts(old(store.db.tables.users), username, passcode, verify);
      && (ok <==> !lookupFails && found.Some?)
      && (!ok ==> store.user == old(store.user) && store.isAuthenticated == old(store.isAuthenticated)
                  && store.db.tables == old(store.db.tables))
      && (ok ==>
            && store.user == Some(found.value.profile.(isOnline := true))
            && store.isAuthenticated
            && store.db.tables == old(store.db.tables).(users :=
                 if presenceFails then old(store.db.tables.users)
                 else SetPresence(old(store.db.tables.users), found.value.profile.id, true, store.db.clock)))
  {
    store.isLoading := true;
    var users := FirstNamed(store.db.tables.users, username);
    FirstNamedIsSignInRow(store.db.tables.users, username);
    if lookupFails || users == [] {
      store.isLoading := false;
      return false;
    }
    var row := users[0];
    if !verify(passcode, row.passcodeHash) {
      store.isLoading := false;
      return false;
    }
    if !presenceFails {
      store.db.tables := store.db.tables.(users := SetPresence(store.db.tables.users, row.profile.id, true, store.db.clock));
    }
    store.user := Some(row.profile.(isOnline := true));
    store.isAuthenticated := true;
    store.isLoading := false;
    ok := true;
  }

  /** The rows the insert of `register` hands back through `.limit(1)`. */
  function Returned(reply: InsertReply, row: UserRow): (r: seq<UserRow>)
    ensures r == [] <==> reply != InsertedReturned
    ensures r != [] ==> r[0] == row
  {
    if reply == InsertedReturned then [row] else []
  }

  /** `register`: a check error is only logged, so a failed check counts as
      free; an empty list back from the insert is a failure; on success the
      first returned row becomes the user. */
  method Register(store: AuthStore, username: string, passcode: string, hash: string -> Digest,
                  checkFails: bool, reply: InsertReply)
    returns (ok: bool)
    modifies store`user, store`isAuthenticated, store`isLoading, store.db`tables, store.db`nextId
    ensures !store.isLoading
    ensures var taken := !checkFails && !UsernameFree(old(store.db.tables.users), username);
      var row := NewUserRow(old(store.db.nextId), username, hash(passcode), store.db.clock);
      && (ok <==> !taken && reply == InsertedReturned)
      && (taken || reply == InsertRejected ==>
            store.db.tables == old(store.db.tables) && store.db.nextId == old(store.db.nextId))
      && (!taken && reply != InsertRejected ==>
            store.db.tables == old(store.db.tables).(users := old(store.db.tables.users) + [row])
            && store.db.nextId == old(store.db.nextId) + 1)
      && (ok ==> store.user == Some(row.profile) && store.isAuthenticated)
      && (!ok ==> store.user == old(store.user) && store.isAuthenticated == old(store.isAuthenticated))
    ensures UniqueUsernames(old(store.db.tables.users)) && !checkFails ==> UniqueUsernames(store.db.tables.users)
  {
    store.isLoading := true;
    var existing := if checkFails then [] else FirstNamed(store.db.tables.users, username);
    if existing != [] {
      store.isLoading := false;
      return false;
    }
    var digest := hash(passcode);
    if reply == InsertRejected {
      store.isLoading := false;
      return false;
    }
    var id := store.db.NewId();
    var row := NewUserRow(id, username, digest, store.db.clock);
    if UniqueUsernames(store.db.tables.users) && !checkFails {
      RegisterKeepsUsernamesUnique(store.db.tables.users, row);
    }
    store.db.tables := store.db.tables.(users := store.db.tables.users + [row]);
    var newUser := Returned(reply, row);
    if newUser == [] {
      store.isLoading := false;
      return false;
    }
    store.user := Some(newUser[0].profile);
    store.isAuthenticated := true;
    store.isLoading := false;
    ok := true;
  }
}
