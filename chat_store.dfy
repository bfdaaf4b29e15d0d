/** The conversation store and reaction ledger: chats, participants, messages
    and reactions, as the client-side chat store drives them against the shared
    tables, together with its cached chat list, current chat and message list. */
module ChatStore {
  import opened Types
  import opened Seqs
  import opened Ordering
  import opened Remote

  // ---------------------------------------------------------------------
  // Chat list
  // ---------------------------------------------------------------------

  /** The chat ids of `u`'s participant rows, in table order. */
  function ChatIdsOf(u: Id, parts: seq<ChatParticipant>): (r: seq<Id>)
    ensures forall c :: c in r <==> exists p :: p in parts && p.userId == u && p.chatId == c
  {
    if parts == [] then []
    else
      assert forall p :: p in parts <==> p == parts[0] || p in parts[1..];
      (if parts[0].userId == u then [parts[0].chatId] else []) + ChatIdsOf(u, parts[1..])
  }

  /** Most recently updated first. */
  predicate NewestFirst(cs: seq<Chat>)
  {
    forall i, j :: 0 <= i < j < |cs| ==> cs[i].updatedAt >= cs[j].updatedAt
  }

  function ChatIn(ids: seq<Id>): Chat -> bool
  {
    (c: Chat) => c.id in ids
  }

  function NewestKey(): Chat -> int
  {
    (c: Chat) => 0 - (c.updatedAt as int)
  }

  /** The chat list of `u`: the chats named by `u`'s participant rows, newest first. */
  function ChatsFor(u: Id, parts: seq<ChatParticipant>, chats: seq<Chat>): (r: seq<Chat>)
    ensures NewestFirst(r)
    ensures multiset(r) == multiset(Filter(chats, ChatIn(ChatIdsOf(u, parts))))
    ensures forall c :: c in r <==> c in chats && exists p :: p in parts && p.userId == u && p.chatId == c.id
  {
    var mine := Filter(chats, ChatIn(ChatIdsOf(u, parts)));
    var r := Sort(mine, NewestKey());
    assert forall c :: c in r <==> c in multiset(mine);
    r
  }

  /** A user without participant rows has no chats: the early return of
      `fetchChats` agrees with the general query. */
  lemma NoParticipationNoChats(u: Id, parts: seq<ChatParticipant>, chats: seq<Chat>)
    requires ChatIdsOf(u, parts) == []
    ensures ChatsFor(u, parts, chats) == []
  {
  }

  // ---------------------------------------------------------------------
  // Chat creation
  // ---------------------------------------------------------------------

  /** The participant rows `createChat` inserts: one per id, in order, with row
      ids from `firstRowId` on; only the first participant is an admin. */
  function ParticipantRows(chatId: Id, ids: seq<Id>, firstRowId: Id, at: Timestamp): (r: seq<ChatParticipant>)
    ensures |r| == |ids|
    ensures forall i :: 0 <= i < |r| ==>
      r[i].chatId == chatId && r[i].userId == ids[i] && r[i].id == firstRowId + i
    ensures forall i :: 0 <= i < |r| ==> (r[i].isAdmin <==> i == 0) && r[i].joinedAt == at
  {
    seq(|ids|, i requires 0 <= i < |ids| => ChatParticipant(firstRowId + i, chatId, ids[i], at, i == 0))
  }

  /** The user ids of the admin rows, in order. */
  function AdminIds(rows: seq<ChatParticipant>): seq<Id>
  {
    if rows == [] then [] else (if rows[0].isAdmin then [rows[0].userId] else []) + AdminIds(rows[1..])
  }

  lemma {:induction false} NoAdmins(rows: seq<ChatParticipant>)
    requires forall i :: 0 <= i < |rows| ==> !rows[i].isAdmin
    ensures AdminIds(rows) == []
  {
    if rows != [] {
      NoAdmins(rows[1..]);
    }
  }

  /** A new chat has exactly one admin, its first participant, who is also
      recorded as its creator; an empty participant list gives no admin and no
      creator. */
  lemma CreatorIsSoleAdmin(chatId: Id, ids: seq<Id>, firstRowId: Id, at: Timestamp)
    ensures AdminIds(ParticipantRows(chatId, ids, firstRowId, at)) ==
            (if ids == [] then [] else [ids[0]])
    ensures AdminIds(ParticipantRows(chatId, ids, firstRowId, at)) ==
            (match CreatorOf(ids) case Some(c) => [c] case None => [])
  {
    var rows := ParticipantRows(chatId, ids, firstRowId, at);
    if rows != [] {
      NoAdmins(rows[1..]);
    }
  }

  /** `created_by` of a new chat: the first participant id, absent for an empty list. */
  function CreatorOf(ids: seq<Id>): (r: Option<Id>)
    ensures r.Some? <==> |ids| > 0
  {
    if |ids| > 0 then Some(ids[0]) else None
  }

  /** The name a new chat is stored with: only group chats keep their name. */
  function StoredName(isGroup: bool, name: Option<string>): (r: Option<string>)
    ensures !isGroup ==> r == None
    ensures isGroup ==> r == name
  {
    if isGroup then name else None
  }

  // ---------------------------------------------------------------------
  // Messages
  // ---------------------------------------------------------------------

  function InChat(chatId: Id): Message -> bool
  {
    (m: Message) => m.chatId == chatId
  }

  function CreatedKey(): Message -> int
  {
    (m: Message) => m.createdAt
  }

  /** The messages of a chat, oldest first. */
  function MessagesIn(chatId: Id, msgs: seq<Message>): (r: seq<Message>)
    ensures forall i, j :: 0 <= i < j < |r| ==> r[i].createdAt <= r[j].createdAt
    ensures forall m :: m in r ==> m.chatId == chatId
    ensures multiset(r) == multiset(Filter(msgs, InChat(chatId)))
  {
    var mine := Filter(msgs, InChat(chatId));
    var r := Sort(mine, CreatedKey());
    assert forall m :: m in r ==> m in multiset(mine);
    r
  }

  /** The row `sendMessage` inserts: the argument goes to the text column for a
      text message and to the image column for an image message. */
  function Compose(id: Id, chatId: Id, sender: Id, content: string, t: MessageType, at: Timestamp): (m: Message)
    ensures WellFormed(m) && Body(m) == content
    ensures m.id == id && m.chatId == chatId && m.senderId == sender && m.messageType == t
    ensures m.createdAt == at && m.editedAt == None
  {
    Message(id, chatId, sender,
            if t == Text then Some(content) else None,
            if t == Image then Some(content) else None,
            t, at, None)
  }

  /** Every stored message has exactly one of its two payload columns set. */
  ghost predicate AllWellFormed(msgs: seq<Message>)
  {
    forall m :: m in msgs ==> WellFormed(m)
  }

  // ---------------------------------------------------------------------
  // Reactions
  // ---------------------------------------------------------------------

  /** `x` is the reaction `(messageId, userId, emoji)`. */
  predicate IsReaction(x: MessageReaction, messageId: Id, userId: Id, emoji: string)
  {
    x.messageId == messageId && x.userId == userId && x.emoji == emoji
  }

  function ReactionIs(messageId: Id, userId: Id, emoji: string): MessageReaction -> bool
  {
    (x: MessageReaction) => IsReaction(x, messageId, userId, emoji)
  }

  function ReactionIsNot(messageId: Id, userId: Id, emoji: string): MessageReaction -> bool
  {
    (x: MessageReaction) => !IsReaction(x, messageId, userId, emoji)
  }

  /** How many rows record the reaction `(messageId, userId, emoji)`. */
  function ReactionCount(rs: seq<MessageReaction>, messageId: Id, userId: Id, emoji: string): nat
  {
    Count(rs, ReactionIs(messageId, userId, emoji))
  }

  /** The reaction table without the rows of the triple. */
  function WithoutReaction(rs: seq<MessageReaction>, messageId: Id, userId: Id, emoji: string): (r: seq<MessageReaction>)
    ensures forall x :: x in r <==> x in rs && !IsReaction(x, messageId, userId, emoji)
  {
    Filter(rs, ReactionIsNot(messageId, userId, emoji))
  }

  /** Adding a reaction is not deduplicated: every add of the same triple adds a row. */
  lemma AddReactionAddsRow(rs: seq<MessageReaction>, x: MessageReaction)
    ensures ReactionCount(rs + [x], x.messageId, x.userId, x.emoji) ==
            ReactionCount(rs, x.messageId, x.userId, x.emoji) + 1
  {
    var p := ReactionIs(x.messageId, x.userId, x.emoji);
    FilterConcat(rs, [x], p);
    assert Filter([x], p) == [x];
  }

  /** Removing a reaction removes every row of the triple and no other row. */
  lemma RemoveReactionClearsTriple(rs: seq<MessageReaction>, messageId: Id, userId: Id, emoji: string)
    ensures ReactionCount(WithoutReaction(rs, messageId, userId, emoji), messageId, userId, emoji) == 0
    ensures forall x :: x in rs && !IsReaction(x, messageId, userId, emoji) ==>
      x in WithoutReaction(rs, messageId, userId, emoji)
  {
    var r := WithoutReaction(rs, messageId, userId, emoji);
    FilterNone(r, ReactionIs(messageId, userId, emoji));
  }

  // ---------------------------------------------------------------------
  // The store
  // ---------------------------------------------------------------------

  class ChatStore {
    const db: Database
    var chats: seq<Chat>
    var currentChat: Option<Chat>
    var messages: seq<Message>
    var isLoading: bool

    constructor (db: Database)
      ensures this.db == db
      ensures chats == [] && currentChat == None && messages == [] && !isLoading
    {
      this.db := db;
      chats, currentChat, messages := [], None, [];
      isLoading := false;
    }

    /** `fetchChats`: replaces the chat list with the user's chats, newest first;
        an empty list when the user has no participant rows; unchanged when a
        query fails. Loading ends on every path. */
    method FetchChats(userId: Id, participantsFail: bool, chatsFail: bool)
      modifies this`chats, this`isLoading
      ensures !isLoading
      ensures var ids := ChatIdsOf(userId, db.tables.chatParticipants);
        chats == if participantsFail || (ids != [] && chatsFail) then old(chats)
                 else ChatsFor(userId, db.tables.chatParticipants, db.tables.chats)
    {
      isLoading := true;
      if participantsFail {
        isLoading := false;
        return;
      }
      var ids := ChatIdsOf(userId, db.tables.chatParticipants);
      if ids == [] {
        NoParticipationNoChats(userId, db.tables.chatParticipants, db.tables.chats);
        chats := [];
        isLoading := false;
        return;
      }
      if chatsFail {
        isLoading := false;
        return;
      }
      chats := ChatsFor(userId, db.tables.chatParticipants, db.tables.chats);
      isLoading := false;
    }

    /** `createChat`: inserts the chat, then one participant row per id, and
        returns the new chat's id; it returns nothing on any error. A chat row
        that was stored but not handed back, or whose participant insert
        failed, stays in place. */
    method CreateChat(participantIds: seq<Id>, isGroup: bool, name: Option<string>,
                      chatReply: InsertReply, participantsFail: bool)
      returns (chatId: Option<Id>)
      modifies db`tables, db`nextId
      ensures chatReply == InsertRejected ==>
        chatId == None && db.tables == old(db.tables) && db.nextId == old(db.nextId)
      ensures chatReply != InsertRejected ==>
        var chat := Chat(old(db.nextId), StoredName(isGroup, name), isGroup, CreatorOf(participantIds),
                         db.clock, db.clock);
        var joined := chatReply == InsertedReturned && !participantsFail;
        && chatId == (if joined then Some(chat.id) else None)
        && db.tables.chats == old(db.tables.chats) + [chat]
        && db.tables.chatParticipants == old(db.tables.chatParticipants) +
             (if joined then ParticipantRows(chat.id, participantIds, chat.id + 1, db.clock) else [])
        && db.tables == old(db.tables).(chats := db.tables.chats,
                                        chatParticipants := db.tables.chatParticipants)
        && db.nextId == old(db.nextId) + 1 + (if joined then |participantIds| else 0)
    {
      if chatReply == InsertRejected {
        return None;
      }
      var id := db.NewId();
      var chat := Chat(id, StoredName(isGroup, name), isGroup, CreatorOf(participantIds), db.clock, db.clock);
      db.tables := db.tables.(chats := db.tables.chats + [chat]);
      if chatReply == InsertedHidden || participantsFail {
        return None;
      }
      var rows := ParticipantRows(id, participantIds, db.nextId, db.clock);
      db.nextId := db.nextId + |participantIds|;
      db.tables := db.tables.(chatParticipants := db.tables.chatParticipants + rows);
      chatId := Some(id);
    }

    /** `setCurrentChat`: selects a chat and empties the message list. */
    method SetCurrentChat(chat: Option<Chat>)
      modifies this`currentChat, this`messages
      ensures currentChat == chat && messages == []
    {
      currentChat := chat;
      messages := [];
    }

    /** `fetchMessages`: replaces the message list with the chat's messages,
        oldest first, unless the query fails. */
    method FetchMessages(chatId: Id, queryFails: bool)
      modifies this`messages
      ensures messages == if queryFails then old(messages) else MessagesIn(chatId, db.tables.messages)
    {
      if !queryFails {
        messages := MessagesIn(chatId, db.tables.messages);
      }
    }

    /** `sendMessage`: without a current user nothing happens; otherwise one
        message row is inserted and, when the row is handed back, appended to
        the message list. */
    method SendMessage(current: Option<Id>, chatId: Id, content: string, messageType: MessageType,
                       reply: InsertReply)
      modifies this`messages, db`tables, db`nextId
      ensures current.None? || reply == InsertRejected ==>
        messages == old(messages) && db.tables == old(db.tables) && db.nextId == old(db.nextId)
      ensures current.Some? && reply != InsertRejected ==>
        var m := Compose(old(db.nextId), chatId, current.value, content, messageType, db.clock);
        && messages == (if reply == InsertedReturned then old(messages) + [m] else old(messages))
        && db.tables == old(db.tables).(messages := old(db.tables.messages) + [m])
        && db.nextId == old(db.nextId) + 1
      ensures AllWellFormed(old(db.tables.messages)) ==> AllWellFormed(db.tables.messages)
    {
      if current.None? || reply == InsertRejected {
        return;
      }
      var id := db.NewId();
      var m := Compose(id, chatId, current.value, content, messageType, db.clock);
      db.tables := db.tables.(messages := db.tables.messages + [m]);
      if reply == InsertedReturned {
        messages := messages + [m];
      }
    }

    /** `addReaction`: inserts one reaction row, with no duplicate check, and on
        success refetches the current chat's messages. Without a current user
        the row has no user and the insert is rejected. */
    method AddReaction(current: Option<Id>, messageId: Id, emoji: string,
                       insertFails: bool, refetchFails: bool)
      modifies this`messages, db`tables, db`nextId
      ensures current.None? || insertFails ==>
        messages == old(messages) && db.tables == old(db.tables) && db.nextId == old(db.nextId)
      ensures current.Some? && !insertFails ==>
        && db.tables == old(db.tables).(messageReactions := old(db.tables.messageReactions) +
             [MessageReaction(old(db.nextId), messageId, current.value, emoji, db.clock)])
        && db.nextId == old(db.nextId) + 1
        && messages == if currentChat.Some? && !refetchFails
                       then MessagesIn(currentChat.value.id, db.tables.messages) else old(messages)
    {
      if current.None? || insertFails {
        return;
      }
      var id := db.NewId();
      db.tables := db.tables.(messageReactions := db.tables.messageReactions +
        [MessageReaction(id, messageId, current.value, emoji, db.clock)]);
      if currentChat.Some? {
        FetchMessages(currentChat.value.id, refetchFails);
      }
    }

    /** `removeReaction`: deletes the rows matching all three of message, user
        and emoji, and on success refetches the current chat's messages. Without
        a current user the filter names no user and deletes nothing. */
    method RemoveReaction(current: Option<Id>, messageId: Id, emoji: string,
                          deleteFails: bool, refetchFails: bool)
      modifies this`messages, db`tables
      ensures deleteFails ==> messages == old(messages) && db.tables == old(db.tables)
      ensures !deleteFails ==>
        && db.tables == old(db.tables).(messageReactions :=
             if current.Some? then WithoutReaction(old(db.tables.messageReactions), messageId, current.value, emoji)
             else old(db.tables.messageReactions))
        && messages == if currentChat.Some? && !refetchFails
                       then MessagesIn(currentChat.value.id, db.tables.messages) else old(messages)
    {
      if deleteFails {
        return;
      }
      if current.Some? {
        db.tables := db.tables.(messageReactions :=
          WithoutReaction(db.tables.messageReactions, messageId, current.value, emoji));
      }
      if currentChat.Some? {
        FetchMessages(currentChat.value.id, refetchFails);
      }
    }
  }
}
