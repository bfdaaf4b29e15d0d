/** The records of the messaging application's data model.
    Identifiers are opaque in the application (UUID strings); they are modelled
    as naturals so that the database can hand out fresh ones. Timestamps are
    abstract naturals. */
module Types {

  type Id = nat
  type Timestamp = nat
  type Digest = string

  datatype Option<+T> = None | Some(value: T)

  /** A friend request's status is exactly one of these three. */
  datatype RequestStatus = Pending | Accepted | Declined

  /** A message is either a text or an image message. */
  datatype MessageType = Text | Image

  /** The public profile of a user. */
  datatype User = User(
    id: Id,
    username: string,
    status: Option<string>,
    isOnline: bool,
    lastSeen: Timestamp,
    createdAt: Timestamp)

  /** A row of the users table: the profile plus the credential digest. */
  datatype UserRow = UserRow(profile: User, passcodeHash: Digest)

  datatype FriendRequest = FriendRequest(
    id: Id,
    senderId: Id,
    receiverId: Id,
    status: RequestStatus,
    createdAt: Timestamp)

  /** An (unordered in meaning, ordered in storage) pair of friends. */
  datatype Friendship = Friendship(id: Id, user1Id: Id, user2Id: Id, createdAt: Timestamp)

  /** `createdBy` is absent when a chat was created from an empty participant list. */
  datatype Chat = Chat(
    id: Id,
    name: Option<string>,
    isGroup: bool,
    createdBy: Option<Id>,
    createdAt: Timestamp,
    updatedAt: Timestamp)

  datatype ChatParticipant = ChatParticipant(
    id: Id,
    chatId: Id,
    userId: Id,
    joinedAt: Timestamp,
    isAdmin: bool)

  datatype Message = Message(
    id: Id,
    chatId: Id,
    senderId: Id,
    content: Option<string>,
    imageUrl: Option<string>,
    messageType: MessageType,
    createdAt: Timestamp,
    editedAt: Option<Timestamp>)

  /** A reaction is identified by its (message, user, emoji) triple. */
  datatype MessageReaction = MessageReaction(
    id: Id,
    messageId: Id,
    userId: Id,
    emoji: string,
    createdAt: Timestamp)

  datatype BlockedUser = BlockedUser(id: Id, blockerId: Id, blockedId: Id, createdAt: Timestamp)

  /** Exactly one of content and image URL is set, and it is the one the type names. */
  predicate WellFormed(m: Message)
  {
    && (m.messageType == Text <==> m.content.Some?)
    && (m.messageType == Image <==> m.imageUrl.Some?)
  }

  /** The payload of a well-formed message: its text or its image URL. */
  function Body(m: Message): string
    requires WellFormed(m)
  {
    if m.messageType == Text then m.content.value else m.imageUrl.value
  }
}
