/** The relationship engine: friend requests, friendships and blocks, as the
    client-side friend store drives them against the shared tables, together
    with the store's cached lists. */
module FriendStore {
  import opened Types
  import opened Seqs
  import opened Remote

  // ---------------------------------------------------------------------
  // Projections and filters
  // ---------------------------------------------------------------------

  predicate Touches(f: Friendship, u: Id)
  {
    f.user1Id == u || f.user2Id == u
  }

  /** The endpoint of `f` that is not `u` (the second one when `u` is the first). */
  function OtherEnd(f: Friendship, u: Id): Id
  {
    if f.user1Id == u then f.user2Id else f.user1Id
  }

  /** The profile joined to a user id through a foreign key, if that user is visible. */
  function ProfileById(users: seq<UserRow>, id: Id): (r: Option<User>)
    ensures r.Some? ==> r.value.id == id && exists row :: row in users && row.profile == r.value
    ensures r.None? ==> forall row :: row in users ==> row.profile.id != id
  {
    if users == [] then None
    else if users[0].profile.id == id then Some(users[0].profile)
    else ProfileById(users[1..], id)
  }

  /** The friend list of `u`: for each friendship row touching `u`, the joined
      profile of its other endpoint; rows whose joined user is missing are
      dropped. Each row contributes its own entry, so a pair stored twice
      lists the friend twice. */
  function FriendsOf(u: Id, fs: seq<Friendship>, users: seq<UserRow>): (r: seq<User>)
    ensures |r| <= |fs|
    ensures forall x :: x in r <==>
      exists f :: f in fs && Touches(f, u) && ProfileById(users, OtherEnd(f, u)) == Some(x)
    ensures forall x :: (multiset(r)[x] ==
      Count(fs, (f: Friendship) => Touches(f, u) && ProfileById(users, OtherEnd(f, u)) == Some(x)))
  {
    if fs == [] then []
    else
      var joined := ProfileById(users, OtherEnd(fs[0], u));
      var rest := FriendsOf(u, fs[1..], users);
      assert forall f :: f in fs <==> f == fs[0] || f in fs[1..];
      (if Touches(fs[0], u) && joined.Some? then [joined.value] else []) + rest
  }

  /** The pending inbox of `u`. */
  function Incoming(u: Id, reqs: seq<FriendRequest>): (r: seq<FriendRequest>)
    ensures forall x :: x in r <==> x in reqs && x.receiverId == u && x.status == Pending
  {
    Filter(reqs, (x: FriendRequest) => x.receiverId == u && x.status == Pending)
  }

  /** The pending outbox of `u`. */
  function Outgoing(u: Id, reqs: seq<FriendRequest>): (r: seq<FriendRequest>)
    ensures forall x :: x in r <==> x in reqs && x.senderId == u && x.status == Pending
  {
    Filter(reqs, (x: FriendRequest) => x.senderId == u && x.status == Pending)
  }

  /** The cached request list without the entries carrying `id`. */
  function WithoutRequest(reqs: seq<FriendRequest>, id: Id): (r: seq<FriendRequest>)
    ensures forall x :: x in r <==> x in reqs && x.id != id
  {
    Filter(reqs, RequestIdIsNot(id))
  }

  function RequestIdIsNot(id: Id): FriendRequest -> bool
  {
    (x: FriendRequest) => x.id != id
  }

  /** A cached user list without the entries carrying `id`. */
  function WithoutUser(us: seq<User>, id: Id): (r: seq<User>)
    ensures forall x :: x in r <==> x in us && x.id != id
  {
    Filter(us, UserIdIsNot(id))
  }

  function UserIdIsNot(id: Id): User -> bool
  {
    (x: User) => x.id != id
  }

  /** Declining removes exactly the declined entry from the inbox and keeps the
      other entries in their order. */
  lemma RemoveOneKeepsOrder(a: seq<FriendRequest>, x: FriendRequest, b: seq<FriendRequest>)
    requires forall y :: y in a ==> y.id != x.id
    requires forall y :: y in b ==> y.id != x.id
    ensures WithoutRequest(a + [x] + b, x.id) == a + b
  {
    var p := RequestIdIsNot(x.id);
    forall i | 0 <= i < |a| ensures p(a[i]) { assert a[i] in a; }
    forall i | 0 <= i < |b| ensures p(b[i]) { assert b[i] in b; }
    FilterKeepsAll(a, p);
    FilterKeepsAll(b, p);
    assert Filter([x], p) == [];
    calc {
      WithoutRequest(a + [x] + b, x.id);
      Filter(a + [x] + b, p);
      { FilterConcat(a + [x], b, p); }
      Filter(a + [x], p) + Filter(b, p);
      { FilterConcat(a, [x], p); }
      Filter(a, p) + Filter([x], p) + Filter(b, p);
      { assert a + [] == a; }
      a + b;
    }
  }

  // ---------------------------------------------------------------------
  // Requests between a pair
  // ---------------------------------------------------------------------

  /** `r` was sent from `a` to `b` or from `b` to `a`. */
  predicate Connects(r: FriendRequest, a: Id, b: Id)
  {
    (r.senderId == a && r.receiverId == b) || (r.senderId == b && r.receiverId == a)
  }

  /** The request rows between `a` and `b`, whatever their direction and status. */
  function Between(reqs: seq<FriendRequest>, a: Id, b: Id): (r: seq<FriendRequest>)
    ensures forall x :: x in r <==> x in reqs && Connects(x, a, b)
  {
    Filter(reqs, ConnectsPair(a, b))
  }

  function ConnectsPair(a: Id, b: Id): FriendRequest -> bool
  {
    (x: FriendRequest) => Connects(x, a, b)
  }

  /** At most one request row per unordered pair of users. */
  ghost predicate OneRequestPerPair(reqs: seq<FriendRequest>)
  {
    forall i, j :: 0 <= i < j < |reqs| ==> !Connects(reqs[j], reqs[i].senderId, reqs[i].receiverId)
  }

  /** Under the one-row-per-pair invariant a pair has at most one row. */
  lemma {:induction false} AtMostOneBetween(reqs: seq<FriendRequest>, a: Id, b: Id)
    requires OneRequestPerPair(reqs)
    ensures |Between(reqs, a, b)| <= 1
  {
    if reqs != [] {
      var p := ConnectsPair(a, b);
      assert reqs == [reqs[0]] + reqs[1..];
      FilterConcat([reqs[0]], reqs[1..], p);
      assert OneRequestPerPair(reqs[1..]) by {
        forall i, j | 0 <= i < j < |reqs[1..]|
          ensures !Connects(reqs[1..][j], reqs[1..][i].senderId, reqs[1..][i].receiverId)
        {
          assert reqs[1..][i] == reqs[i + 1] && reqs[1..][j] == reqs[j + 1];
        }
      }
      if Connects(reqs[0], a, b) {
        forall x | x in reqs[1..] ensures !Connects(x, a, b) {
          var j :| 0 <= j < |reqs[1..]| && reqs[1..][j] == x;
          assert reqs[j + 1] == x;
        }
        FilterNone(reqs[1..], p);
      } else {
        AtMostOneBetween(reqs[1..], a, b);
      }
    }
  }

  /** Whether the duplicate check of `sendFriendRequest` stops the request: its
      result is read only when the query succeeded and found exactly one row
      (an error, or more than one row, leaves the data empty and lets the
      request through). */
  predicate DuplicateFound(reqs: seq<FriendRequest>, a: Id, b: Id, checkFails: bool)
  {
    !checkFails && Classify(Between(reqs, a, b)).OneRow?
  }

  /** While the invariant holds and the check succeeds, the duplicate check blocks
      exactly when some request of ANY status exists between the pair, in
      either direction. */
  lemma DuplicateCheckAnyStatus(reqs: seq<FriendRequest>, a: Id, b: Id)
    requires OneRequestPerPair(reqs)
    ensures DuplicateFound(reqs, a, b, false) <==> exists x :: x in reqs && Connects(x, a, b)
  {
    AtMostOneBetween(reqs, a, b);
    var bs := Between(reqs, a, b);
    if exists x :: x in reqs && Connects(x, a, b) {
      var x :| x in reqs && Connects(x, a, b);
      assert x in bs;
    }
  }

  /** Appending a request for a pair that had no row keeps the invariant. */
  lemma AppendKeepsOneRequestPerPair(reqs: seq<FriendRequest>, r: FriendRequest)
    requires OneRequestPerPair(reqs)
    requires forall x :: x in reqs ==> !Connects(x, r.senderId, r.receiverId)
    ensures OneRequestPerPair(reqs + [r])
  {
    var s := reqs + [r];
    forall i, j | 0 <= i < j < |s| ensures !Connects(s[j], s[i].senderId, s[i].receiverId) {
      if j == |reqs| {
        assert s[i] in reqs;
      }
    }
  }

  /** The request table after setting the status of the rows with `id`. */
  function SetStatus(reqs: seq<FriendRequest>, id: Id, st: RequestStatus): (r: seq<FriendRequest>)
    ensures |r| == |reqs|
    ensures forall i :: 0 <= i < |r| ==> r[i] == if reqs[i].id == id then reqs[i].(status := st) else reqs[i]
  {
    seq(|reqs|, i requires 0 <= i < |reqs| => if reqs[i].id == id then reqs[i].(status := st) else reqs[i])
  }

  /** Accepting or declining never changes who a request is between, so the
      one-row-per-pair invariant survives every status update. */
  lemma SetStatusKeepsOneRequestPerPair(reqs: seq<FriendRequest>, id: Id, st: RequestStatus)
    requires OneRequestPerPair(reqs)
    ensures OneRequestPerPair(SetStatus(reqs, id, st))
  {
  }

  /** The request rows carrying `id` (`.eq('id', requestId)`). */
  function RequestsWithId(reqs: seq<FriendRequest>, id: Id): (r: seq<FriendRequest>)
    ensures forall x :: x in r <==> x in reqs && x.id == id
  {
    Filter(reqs, (x: FriendRequest) => x.id == id)
  }

  // ---------------------------------------------------------------------
  // Friendship and block rows
  // ---------------------------------------------------------------------

  /** The friendship table without the rows for the pair, in both orientations. */
  function WithoutPair(fs: seq<Friendship>, a: Id, b: Id): (r: seq<Friendship>)
    ensures forall f :: f in r <==> (f in fs && !Joins(f, a, b))
  {
    Filter(fs, NotJoining(a, b))
  }

  /** `f` is the friendship row of `a` and `b`, in either orientation. */
  predicate Joins(f: Friendship, a: Id, b: Id)
  {
    (f.user1Id == a && f.user2Id == b) || (f.user1Id == b && f.user2Id == a)
  }

  function NotJoining(a: Id, b: Id): Friendship -> bool
  {
    (f: Friendship) => !Joins(f, a, b)
  }

  /** Removing a friend twice has the same effect as removing them once, on the
      table and on the cached list. */
  lemma RemoveFriendIdempotent(fs: seq<Friendship>, friends: seq<User>, a: Id, b: Id)
    ensures WithoutPair(WithoutPair(fs, a, b), a, b) == WithoutPair(fs, a, b)
    ensures WithoutUser(WithoutUser(friends, b), b) == WithoutUser(friends, b)
  {
    FilterIdempotent(fs, NotJoining(a, b));
    FilterIdempotent(friends, UserIdIsNot(b));
  }

  /** The block table without the rows in which `blocker` blocks `blocked`. */
  function WithoutBlock(bs: seq<BlockedUser>, blocker: Id, blocked: Id): (r: seq<BlockedUser>)
    ensures forall x :: x in r <==> x in bs && !(x.blockerId == blocker && x.blockedId == blocked)
  {
    Filter(bs, (x: BlockedUser) => !(x.blockerId == blocker && x.blockedId == blocked))
  }

  /** The user id the username lookup of `sendFriendRequest` resolves to:
      `.maybeSingle()` yields a row only when exactly one user has the name. */
  function ResolveUsername(users: seq<UserRow>, name: string): (r: Option<Id>)
    ensures r.Some? <==> |UsersNamed(users, name)| == 1
    ensures r.Some? ==> exists u :: u in users && u.profile.username == name && u.profile.id == r.value
  {
    match Classify(UsersNamed(users, name))
    case OneRow(u) => assert u in UsersNamed(users, name); Some(u.profile.id)
    case _ => None
  }

  // ---------------------------------------------------------------------
  // The store
  // ---------------------------------------------------------------------

  class FriendStore {
    const db: Database
    var friends: seq<User>
    var friendRequests: seq<FriendRequest>
    var sentRequests: seq<FriendRequest>
    var blockedUsers: seq<User>
    var isLoading: bool

    constructor (db: Database)
      ensures this.db == db
      ensures friends == [] && friendRequests == [] && sentRequests == [] && blockedUsers == []
      ensures !isLoading
    {
      this.db := db;
      friends, friendRequests, sentRequests, blockedUsers := [], [], [], [];
      isLoading := false;
    }

    /** `fetchFriends`: replaces the friend list unless the query fails; loading ends either way. */
    method FetchFriends(userId: Id, queryFails: bool)
      modifies this
      ensures !isLoading
      ensures friends == if queryFails then old(friends)
                         else FriendsOf(userId, db.tables.friendships, db.tables.users)
      ensures friendRequests == old(friendRequests) && sentRequests == old(sentRequests)
      ensures blockedUsers == old(blockedUsers)
    {
      isLoading := true;
      if queryFails {
        isLoading := false;
        return;
      }
      friends := FriendsOf(userId, db.tables.friendships, db.tables.users);
      isLoading := false;
    }

    /** `fetchFriendRequests`: replaces both pending lists when both queries succeed. */
    method FetchFriendRequests(userId: Id, receivedFails: bool, sentFails: bool)
      modifies this`friendRequests, this`sentRequests
      ensures receivedFails || sentFails ==>
        friendRequests == old(friendRequests) && sentRequests == old(sentRequests)
      ensures !receivedFails && !sentFails ==>
        friendRequests == Incoming(userId, db.tables.friendRequests) &&
        sentRequests == Outgoing(userId, db.tables.friendRequests)
    {
      if receivedFails || sentFails {
        return;
      }
      friendRequests := Incoming(userId, db.tables.friendRequests);
      sentRequests := Outgoing(userId, db.tables.friendRequests);
    }

    /** `sendFriendRequest`: resolves the username, runs the duplicate check and
        inserts one pending request from the current user. */
    method SendFriendRequest(current: Option<Id>, username: string,
                             lookupFails: bool, checkFails: bool, insertFails: bool)
      returns (ok: bool)
      modifies db`tables, db`nextId
      ensures var target := ResolveUsername(old(db.tables.users), username);
        ok <==> current.Some? && !lookupFails && target.Some?
                && !DuplicateFound(old(db.tables.friendRequests), current.value, target.value, checkFails)
                && !insertFails
      ensures !ok ==> db.tables == old(db.tables) && db.nextId == old(db.nextId)
      ensures ok ==>
        var target := ResolveUsername(old(db.tables.users), username);
        && db.nextId == old(db.nextId) + 1
        && db.tables == old(db.tables).(friendRequests := old(db.tables.friendRequests) +
             [FriendRequest(old(db.nextId), current.value, target.value, Pending, db.clock)])
      ensures ok && !checkFails && OneRequestPerPair(old(db.tables.friendRequests)) ==>
        OneRequestPerPair(db.tables.friendRequests)
    {
      if current.None? {
        return false;
      }
      var target := ResolveUsername(db.tables.users, username);
      if lookupFails || target.None? {
        return false;
      }
      var reqs := db.tables.friendRequests;
      if DuplicateFound(reqs, current.value, target.value, checkFails) {
        return false;
      }
      if insertFails {
        return false;
      }
      var id := db.NewId();
      var r := FriendRequest(id, current.value, target.value, Pending, db.clock);
      if !checkFails && OneRequestPerPair(reqs) {
        DuplicateCheckAnyStatus(reqs, current.value, target.value);
        AppendKeepsOneRequestPerPair(reqs, r);
      }
      db.tables := db.tables.(friendRequests := reqs + [r]);
      ok := true;
    }

    /** `acceptFriendRequest`: looks the request up by id, inserts the friendship
        and only then marks the request accepted; the status is not checked,
        and a failure between the two writes leaves the first one in place. */
    method AcceptFriendRequest(requestId: Id, lookupFails: bool, insertFails: bool, updateFails: bool)
      modifies db`tables, db`nextId
      ensures var rows := RequestsWithId(old(db.tables.friendRequests), requestId);
        lookupFails || |rows| != 1 || insertFails ==>
          db.tables == old(db.tables) && db.nextId == old(db.nextId)
      ensures var rows := RequestsWithId(old(db.tables.friendRequests), requestId);
        !lookupFails && |rows| == 1 && !insertFails ==>
          && db.nextId == old(db.nextId) + 1
          && db.tables == old(db.tables).(
               friendships := old(db.tables.friendships) +
                 [Friendship(old(db.nextId), rows[0].senderId, rows[0].receiverId, db.clock)],
               friendRequests := if updateFails then old(db.tables.friendRequests)
                                 else SetStatus(old(db.tables.friendRequests), requestId, Accepted))
    {
      var rows := RequestsWithId(db.tables.friendRequests, requestId);
      if lookupFails || !Classify(rows).OneRow? {
        return;
      }
      var request := rows[0];
      if insertFails {
        return;
      }
      var id := db.NewId();
      db.tables := db.tables.(friendships := db.tables.friendships +
        [Friendship(id, request.senderId, request.receiverId, db.clock)]);
      if updateFails {
        return;
      }
      db.tables := db.tables.(friendRequests := SetStatus(db.tables.friendRequests, requestId, Accepted));
    }

    /** `declineFriendRequest`: marks the request declined and, only if that
        succeeded, drops it from the cached inbox. */
    method DeclineFriendRequest(requestId: Id, updateFails: bool)
      modifies this`friendRequests, db`tables
      ensures updateFails ==> friendRequests == old(friendRequests) && db.tables == old(db.tables)
      ensures !updateFails ==>
        && friendRequests == WithoutRequest(old(friendRequests), requestId)
        && db.tables == old(db.tables).(friendRequests :=
             SetStatus(old(db.tables.friendRequests), requestId, Declined))
    {
      if updateFails {
        return;
      }
      db.tables := db.tables.(friendRequests := SetStatus(db.tables.friendRequests, requestId, Declined));
      friendRequests := WithoutRequest(friendRequests, requestId);
    }

    /** `removeFriend`: deletes the friendship rows of the pair in both
        orientations and drops the friend from the cached list. Without a current
        user the delete filter names no existing id and deletes nothing. */
    method RemoveFriend(current: Option<Id>, friendId: Id, deleteFails: bool)
      modifies this`friends, db`tables
      ensures deleteFails ==> friends == old(friends) && db.tables == old(db.tables)
      ensures !deleteFails ==>
        && friends == WithoutUser(old(friends), friendId)
        && db.tables == old(db.tables).(friendships :=
             if current.Some? then WithoutPair(old(db.tables.friendships), current.value, friendId)
             else old(db.tables.friendships))
    {
      if deleteFails {
        return;
      }
      if current.Some? {
        db.tables := db.tables.(friendships := WithoutPair(db.tables.friendships, current.value, friendId));
      }
      friends := WithoutUser(friends, friendId);
    }

    /** `blockUser`: inserts the block row and, only if that succeeded, removes
        the friendship. The cached block list is not touched. */
    method BlockUser(current: Option<Id>, userId: Id, insertFails: bool, deleteFails: bool)
      modifies this`friends, db`tables, db`nextId
      ensures blockedUsers == old(blockedUsers)
      ensures current.None? || insertFails ==>
        friends == old(friends) && db.tables == old(db.tables) && db.nextId == old(db.nextId)
      ensures current.Some? && !insertFails ==>
        var blocked := old(db.tables.blockedUsers) +
          [BlockedUser(old(db.nextId), current.value, userId, db.clock)];
        && db.nextId == old(db.nextId) + 1
        && (deleteFails ==>
              friends == old(friends) && db.tables == old(db.tables).(blockedUsers := blocked))
        && (!deleteFails ==>
              && friends == WithoutUser(old(friends), userId)
              && db.tables == old(db.tables).(blockedUsers := blocked,
                   friendships := WithoutPair(old(db.tables.friendships), current.value, userId)))
    {
      if current.None? || insertFails {
        return;
      }
      var id := db.NewId();
      db.tables := db.tables.(blockedUsers := db.tables.blockedUsers +
        [BlockedUser(id, current.value, userId, db.clock)]);
      RemoveFriend(current, userId, deleteFails);
    }

    /** `unblockUser`: deletes only the rows in which the current user blocks
        `userId`, and drops `userId` from the cached block list. */
    method UnblockUser(current: Option<Id>, userId: Id, deleteFails: bool)
      modifies this`blockedUsers, db`tables
      ensures deleteFails ==> blockedUsers == old(blockedUsers) && db.tables == old(db.tables)
      ensures !deleteFails ==>
        && blockedUsers == WithoutUser(old(blockedUsers), userId)
        && db.tables == old(db.tables).(blockedUsers :=
             if current.Some? then WithoutBlock(old(db.tables.blockedUsers), current.value, userId)
             else old(db.tables.blockedUsers))
    {
      if deleteFails {
        return;
      }
      if current.Some? {
        db.tables := db.tables.(blockedUsers := WithoutBlock(db.tables.blockedUsers, current.value, userId));
      }
      blockedUsers := WithoutUser(blockedUsers, userId);
    }

    /** `searchUsers`: at most ten users whose name is exactly `username`, in
        table order; nothing on a query error. */
    method SearchUsers(username: string, queryFails: bool) returns (found: seq<User>)
      ensures queryFails ==> found == []
      ensures |found| <= 10
      ensures forall u :: u in found ==> u.username == username
      ensures !queryFails ==>
        var named := UsersNamed(db.tables.users, username);
        |found| == (if |named| < 10 then |named| else 10) &&
        forall i :: 0 <= i < |found| ==> found[i] == named[i].profile
    {
      if queryFails {
        return [];
      }
      var rows := Limit(UsersNamed(db.tables.users, username), 10);
      found := seq(|rows|, i requires 0 <= i < |rows| => rows[i].profile);
      assert forall i :: 0 <= i < |rows| ==> rows[i] in UsersNamed(db.tables.users, username);
    }
  }
}
