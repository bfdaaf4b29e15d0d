/** The identity store: sign-in, registration, sign-out and the signed-in
    user's profile fields. Passcode hashing is abstract: `hash` stands for
    hashing a passcode and `verify` for comparing a passcode with a stored
    digest; both are parameters of the operations that use them. */
module AuthStore {
  import opened Types
  import opened Seqs
  import opened Remote

  // ---------------------------------------------------------------------
  // Lookups and rows
  // ---------------------------------------------------------------------

  /** The row `users.eq('username', name).limit(1).single()` yields: the first
      row with that username, or nothing when there is none. */
  function SignInRow(users: seq<UserRow>, name: string): (r: Option<UserRow>)
    ensures r.Some? <==> exists u :: u in users && u.profile.username == name
    ensures r.Some? ==> r.value in users && r.value.profile.username == name
    ensures r.Some? ==> r.value == UsersNamed(users, name)[0]
  {
    SingleOfFirst(UsersNamed(users, name));
    match Classify(Limit(UsersNamed(users, name), 1))
    case OneRow(row) => Some(row)
    case NoRow => None
    case ManyRows => assert false; None
  }

  /** The row a sign-in accepts: the looked-up row, when the passcode matches
      its digest. */
  function SignInAccepts(users: seq<UserRow>, name: string, passcode: string,
                         verify: (string, Digest) -> bool): (r: Option<UserRow>)
    ensures r.Some? <==> SignInRow(users, name).Some? && verify(passcode, SignInRow(users, name).value.passcodeHash)
    ensures r.Some? ==> r.value in users && r.value.profile.username == name && verify(passcode, r.value.passcodeHash)
  {
    match SignInRow(users, name)
    case Some(row) => if verify(passcode, row.passcodeHash) then Some(row) else None
    case None => None
  }

  /** With unique usernames, the row a sign-in looks at is the only row with
      that username. */
  lemma SignInRowIsTheUser(users: seq<UserRow>, u: UserRow)
    requires UniqueUsernames(users)
    requires u in users
    ensures SignInRow(users, u.profile.username) == Some(u)
  {
  }

  /** The row `register` inserts for a new account: online, seen now, no status. */
  function NewUserRow(id: Id, name: string, digest: Digest, at: Timestamp): (r: UserRow)
    ensures r.profile.id == id && r.profile.username == name && r.passcodeHash == digest
    ensures r.profile.isOnline && r.profile.lastSeen == at && r.profile.status == None
  {
    UserRow(User(id, name, None, true, at, at), digest)
  }

  /** The username of a row being registered is free in `users`. */
  predicate UsernameFree(users: seq<UserRow>, name: string)
  {
    UsersNamed(users, name) == []
  }

  /** Registering a free username keeps usernames unique. */
  lemma RegisterKeepsUsernamesUnique(users: seq<UserRow>, row: UserRow)
    requires UniqueUsernames(users)
    requires UsernameFree(users, row.profile.username)
    ensures UniqueUsernames(users + [row])
  {
  }

  /** A registered account can sign in: after appending the row for a free
      username, signing in with the same passcode accepts exactly that row,
      provided `verify` recognises `hash`'s digests. */
  lemma RegisterThenSignIn(users: seq<UserRow>, id: Id, name: string, passcode: string, at: Timestamp,
                           hash: string -> Digest, verify: (string, Digest) -> bool)
    requires UsernameFree(users, name)
    requires verify(passcode, hash(passcode))
    ensures SignInAccepts(users + [NewUserRow(id, name, hash(passcode), at)], name, passcode, verify) ==
            Some(NewUserRow(id, name, hash(passcode), at))
  {
  }

  /** The users table after `update({ is_online, last_seen }).eq('id', id)`. */
  function SetPresence(users: seq<UserRow>, id: Id, online: bool, at: Timestamp): (r: seq<UserRow>)
    ensures |r| == |users|
    ensures forall i :: 0 <= i < |r| ==>
      r[i] == if users[i].profile.id == id
              then users[i].(profile := users[i].profile.(isOnline := online, lastSeen := at))
              else users[i]
  {
    seq(|users|, i requires 0 <= i < |users| =>
      if users[i].profile.id == id
      then users[i].(profile := users[i].profile.(isOnline := online, lastSeen := at))
      else users[i])
  }

  /** The users table after `update({ status }).eq('id', id)`. */
  function SetStatusText(users: seq<UserRow>, id: Id, status: string): (r: seq<UserRow>)
    ensures |r| == |users|
    ensures forall i :: 0 <= i < |r| ==>
      r[i] == if users[i].profile.id == id
              then users[i].(profile := users[i].profile.(status := Some(status)))
              else users[i]
  {
    seq(|users|, i requires 0 <= i < |users| =>
      if users[i].profile.id == id
      then users[i].(profile := users[i].profile.(status := Some(status)))
      else users[i])
  }

  /** Profile updates never touch usernames, so they keep usernames unique. */
  lemma ProfileUpdatesKeepUsernamesUnique(users: seq<UserRow>, id: Id, online: bool, at: Timestamp, status: string)
    requires UniqueUsernames(users)
    ensures UniqueUsernames(SetPresence(users, id, online, at))
    ensures UniqueUsernames(SetStatusText(users, id, status))
  {
  }

  // ---------------------------------------------------------------------
  // The store
  // ---------------------------------------------------------------------

  class AuthStore {
    const db: Database
    var user: Option<User>
    var isAuthenticated: bool
    var isLoading: bool

    constructor (db: Database)
      ensures this.db == db
      ensures user == None && !isAuthenticated && !isLoading
    {
      this.db := db;
      user := None;
      isAuthenticated := false;
      isLoading := false;
    }

    /** `login`: looks the username up, checks the passcode against the
        looked-up row, marks that row online (an error there is ignored) and
        signs in with the looked-up profile, flagged online. On any failure
        the session is unchanged. */
    method Login(username: string, passcode: string, verify: (string, Digest) -> bool,
                 lookupFails: bool, presenceFails: bool)
      returns (ok: bool)
      modifies this`user, this`isAuthenticated, this`isLoading, db`tables
      ensures !isLoading
      ensures var found := SignInAccepts(old(db.tables.users), username, passcode, verify);
        && (ok <==> !lookupFails && found.Some?)
        && (!ok ==> user == old(user) && isAuthenticated == old(isAuthenticated) && db.tables == old(db.tables))
        && (ok ==>
              && user == Some(found.value.profile.(isOnline := true))
              && isAuthenticated
              && db.tables == old(db.tables).(users :=
                   if presenceFails then old(db.tables.users)
                   else SetPresence(old(db.tables.users), found.value.profile.id, true, db.clock)))
    {
      isLoading := true;
      if lookupFails {
        isLoading := false;
        return false;
      }
      SingleOfFirst(UsersNamed(db.tables.users, username));
      var lookup := Classify(Limit(UsersNamed(db.tables.users, username), 1));
      if !lookup.OneRow? {
        isLoading := false;
        return false;
      }
      var row := lookup.row;
      if !verify(passcode, row.passcodeHash) {
        isLoading := false;
        return false;
      }
      if !presenceFails {
        db.tables := db.tables.(users := SetPresence(db.tables.users, row.profile.id, true, db.clock));
      }
      user := Some(row.profile.(isOnline := true));
      isAuthenticated := true;
      isLoading := false;
      ok := true;
    }

    /** `register`: refuses a username the check finds taken (a failed check
        counts as free), otherwise inserts an online row with the passcode's
        digest and signs in with the returned row. */
    method Register(username: string, passcode: string, hash: string -> Digest,
                    checkFails: bool, reply: InsertReply)
      returns (ok: bool)
      modifies this`user, this`isAuthenticated, this`isLoading, db`tables, db`nextId
      ensures !isLoading
      ensures var taken := !checkFails && !UsernameFree(old(db.tables.users), username);
        var row := NewUserRow(old(db.nextId), username, hash(passcode), db.clock);
        && (ok <==> !taken && reply == InsertedReturned)
        && (taken || reply == InsertRejected ==>
              db.tables == old(db.tables) && db.nextId == old(db.nextId))
        && (!taken && reply != InsertRejected ==>
              db.tables == old(db.tables).(users := old(db.tables.users) + [row])
              && db.nextId == old(db.nextId) + 1)
        && (ok ==> user == Some(row.profile) && isAuthenticated)
        && (!ok ==> user == old(user) && isAuthenticated == old(isAuthenticated))
      ensures UniqueUsernames(old(db.tables.users)) && !checkFails ==> UniqueUsernames(db.tables.users)
    {
      isLoading := true;
      if !checkFails && Limit(UsersNamed(db.tables.users, username), 1) != [] {
        isLoading := false;
        return false;
      }
      var digest := hash(passcode);
      if reply == InsertRejected {
        isLoading := false;
        return false;
      }
      var id := db.NewId();
      var row := NewUserRow(id, username, digest, db.clock);
      if UniqueUsernames(db.tables.users) && !checkFails {
        RegisterKeepsUsernamesUnique(db.tables.users, row);
      }
      db.tables := db.tables.(users := db.tables.users + [row]);
      if reply == InsertedHidden {
        isLoading := false;
        return false;
      }
      user := Some(row.profile);
      isAuthenticated := true;
      isLoading := false;
      ok := true;
    }

    /** `logout`: signs out whatever happens to the offline write. That write
        is built only when someone is signed in and is neither awaited nor
        chained, so it may never be sent; `presenceFails` stands for "not
        sent, or failed". */
    method Logout(presenceFails: bool)
      modifies this`user, this`isAuthenticated, db`tables
      ensures user == None && !isAuthenticated
      ensures db.tables == old(db.tables).(users :=
        if old(user).None? || presenceFails then old(db.tables.users)
        else SetPresence(old(db.tables.users), old(user).value.id, false, db.clock))
    {
      if user.Some? && !presenceFails {
        db.tables := db.tables.(users := SetPresence(db.tables.users, user.value.id, false, db.clock));
      }
      user := None;
      isAuthenticated := false;
    }

    /** `updateStatus`: without a user nothing happens; otherwise the row's
        status is written and, on success, mirrored into `user`. */
    method UpdateStatus(status: string, updateFails: bool)
      modifies this`user, db`tables
      ensures old(user).None? || updateFails ==> user == old(user) && db.tables == old(db.tables)
      ensures old(user).Some? && !updateFails ==>
        && user == Some(old(user).value.(status := Some(status)))
        && db.tables == old(db.tables).(users := SetStatusText(old(db.tables.users), old(user).value.id, status))
    {
      if user.None? || updateFails {
        return;
      }
      db.tables := db.tables.(users := SetStatusText(db.tables.users, user.value.id, status));
      user := Some(user.value.(status := Some(status)));
    }

    /** `updateOnlineStatus`: without a user nothing happens; otherwise the
        row's online flag and last-seen time are written and, on success, the
        online flag is mirrored into `user`. */
    method UpdateOnlineStatus(isOnline: bool, updateFails: bool)
      modifies this`user, db`tables
      ensures old(user).None? || updateFails ==> user == old(user) && db.tables == old(db.tables)
      ensures old(user).Some? && !updateFails ==>
        && user == Some(old(user).value.(isOnline := isOnline))
        && db.tables == old(db.tables).(users := SetPresence(old(db.tables.users), old(user).value.id, isOnline, db.clock))
    {
      if user.None? || updateFails {
        return;
      }
      db.tables := db.tables.(users := SetPresence(db.tables.users, user.value.id, isOnline, db.clock));
      user := Some(user.value.(isOnline := isOnline));
    }
  }
}
