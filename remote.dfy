/** The shared relational store, abstracted to in-memory tables.
    Each store action reads and writes these tables as one atomic sequential
    step; whether a remote call fails is decided by the caller of the model
    through explicit flags, since transport failures are outside the model. */
module Remote {
  import opened Types
  import opened Seqs

  /** The eight tables, each a sequence of rows in storage order. */
  datatype Tables = Tables(
    users: seq<UserRow>,
    friendRequests: seq<FriendRequest>,
    friendships: seq<Friendship>,
    blockedUsers: seq<BlockedUser>,
    chats: seq<Chat>,
    chatParticipants: seq<ChatParticipant>,
    messages: seq<Message>,
    messageReactions: seq<MessageReaction>)

  /** What `.single()` and `.maybeSingle()` see in a result set:
      `.single()` fails unless there is exactly one row; `.maybeSingle()`
      yields no data for zero rows and fails for more than one. */
  datatype Lookup<T> = NoRow | OneRow(row: T) | ManyRows

  function Classify<T>(rows: seq<T>): (r: Lookup<T>)
    ensures r.NoRow? <==> |rows| == 0
    ensures r.OneRow? <==> |rows| == 1
    ensures r.OneRow? ==> r.row == rows[0]
  {
    if |rows| == 0 then NoRow else if |rows| == 1 then OneRow(rows[0]) else ManyRows
  }

  /** `.limit(n)`: the first `n` rows. */
  function Limit<T>(rows: seq<T>, n: nat): (r: seq<T>)
    ensures |r| <= n && r <= rows
    ensures |rows| <= n ==> r == rows
  {
    if |rows| <= n then rows else rows[..n]
  }

  /** `.limit(1).single()` accepts exactly when `.limit(1)` returned a row, and
      then yields that row: the two lookups of the two versions of the
      identity store agree. */
  lemma SingleOfFirst<T>(rows: seq<T>)
    ensures Classify(Limit(rows, 1)) == if |rows| == 0 then NoRow else OneRow(rows[0])
  {
  }

  /** What `insert(...).select().single()` reports: the insert refused, the row
      stored but not handed back (the call then fails), or the row stored and
      handed back. */
  datatype InsertReply = InsertRejected | InsertedHidden | InsertedReturned

  function NamedAs(name: string): UserRow -> bool
  {
    (u: UserRow) => u.profile.username == name
  }

  /** `users.eq('username', name)`: usernames match exactly, case-sensitively. */
  function UsersNamed(users: seq<UserRow>, name: string): (r: seq<UserRow>)
    ensures forall u :: u in r <==> u in users && u.profile.username == name
  {
    Filter(users, NamedAs(name))
  }

  /** Every username occurs in at most one row. */
  ghost predicate UniqueUsernames(users: seq<UserRow>)
  {
    forall i, j :: 0 <= i < j < |users| ==> users[i].profile.username != users[j].profile.username
  }

  /** The database: its tables, the next free row id and the current time. */
  class Database {
    var tables: Tables
    var nextId: Id
    var clock: Timestamp

    constructor ()
      ensures tables == Tables([], [], [], [], [], [], [], [])
      ensures nextId == 0 && clock == 0
    {
      tables := Tables([], [], [], [], [], [], [], []);
      nextId := 0;
      clock := 0;
    }

    /** A fresh row id, as the database assigns one on insert. */
    method NewId() returns (id: Id)
      modifies this`nextId
      ensures id == old(nextId) && nextId == id + 1
    {
      id := nextId;
      nextId := nextId + 1;
    }
  }
}
