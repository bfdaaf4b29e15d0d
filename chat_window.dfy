/** The conversation screen: how the message list is laid out (whose bubble
    is whose, which bubble shows an avatar) and the composer, whose text and
    emoji-picker flag the send, emoji and key handlers update. */
module ChatWindow {
  import opened Types
  import opened Text
  import opened Remote
  import opened ChatStore

  // ---------------------------------------------------------------------
  // Layout of the message list
  // ---------------------------------------------------------------------

  /** A message is the viewer's own when its sender is the signed-in user;
      with nobody signed in no message is. */
  predicate IsOwn(m: Message, viewer: Option<Id>)
  {
    viewer.Some? && m.senderId == viewer.value
  }

  /** A bubble shows its sender's avatar when it opens the list or follows a
      message from someone else. */
  predicate ShowAvatar(ms: seq<Message>, i: int)
    requires 0 <= i < |ms|
  {
    i == 0 || ms[i - 1].senderId != ms[i].senderId
  }

  /** Every message belongs to a run of messages from the same sender that
      starts with a bubble showing an avatar. */
  lemma {:induction false} AvatarStartsRun(ms: seq<Message>, i: int)
    requires 0 <= i < |ms|
    ensures exists j :: 0 <= j <= i && ShowAvatar(ms, j) &&
                        (forall k :: j <= k <= i ==> ms[k].senderId == ms[i].senderId)
  {
    if !ShowAvatar(ms, i) {
      AvatarStartsRun(ms, i - 1);
      var j :| 0 <= j <= i - 1 && ShowAvatar(ms, j) &&
               (forall k :: j <= k <= i - 1 ==> ms[k].senderId == ms[i - 1].senderId);
      assert forall k :: j <= k <= i ==> ms[k].senderId == ms[i].senderId;
    }
  }

  /** One rendered message. */
  datatype Bubble = Bubble(message: Message, isOwn: bool, showAvatar: bool)

  /** The bubbles of the message list, one per message, in order. */
  function Bubbles(ms: seq<Message>, viewer: Option<Id>): (r: seq<Bubble>)
    ensures |r| == |ms|
    ensures forall i {:trigger r[i]} :: 0 <= i < |r| ==> r[i] == Bubble(ms[i], IsOwn(ms[i], viewer), ShowAvatar(ms, i))
  {
    seq(|ms|, i requires 0 <= i < |ms| => Bubble(ms[i], IsOwn(ms[i], viewer), ShowAvatar(ms, i)))
  }

  /** Appending a message leaves every earlier bubble as it was; the new one
      shows an avatar exactly when its sender differs from the last one's. */
  lemma AppendKeepsBubbles(ms: seq<Message>, m: Message, viewer: Option<Id>)
    ensures Bubbles(ms + [m], viewer) ==
      Bubbles(ms, viewer) + [Bubble(m, IsOwn(m, viewer), ms == [] || ms[|ms| - 1].senderId != m.senderId)]
  {
  }

  /** What the screen shows. */
  datatype View = Nothing | LoadingPlaceholder | Conversation(chat: Chat, bubbles: seq<Bubble>)

  /** The first version renders nothing until a chat is selected. */
  function Screen(currentChat: Option<Chat>, ms: seq<Message>, viewer: Option<Id>): (v: View)
    ensures currentChat.None? <==> v == Nothing
    ensures currentChat.Some? ==> v == Conversation(currentChat.value, Bubbles(ms, viewer))
  {
    match currentChat
    case None => Nothing
    case Some(c) => Conversation(c, Bubbles(ms, viewer))
  }

  // ---------------------------------------------------------------------
  // Composer
  // ---------------------------------------------------------------------

  /** A send goes out only for non-blank text with a chat open. */
  predicate WillSend(text: string, currentChat: Option<Chat>)
  {
    !IsBlank(text) && currentChat.Some?
  }

  /** The text a send passes on is the trimmed input, non-empty and with no
      whitespace left at either end. */
  lemma SentTextIsTrimmed(text: string)
    requires !IsBlank(text)
    ensures Trim(text) != [] && Trim(Trim(text)) == Trim(text)
  {
  }

  /** The composer of the first version, bound to the chat store it sends through. */
  class Composer {
    const chats: ChatStore
    var messageText: string
    var showEmojiPicker: bool

    constructor (chats: ChatStore)
      ensures this.chats == chats
      ensures messageText == [] && !showEmojiPicker
    {
      this.chats := chats;
      messageText := [];
      showEmojiPicker := false;
    }

    /** The effect of one send: nothing without text or chat; otherwise the
        store's `sendMessage` with the trimmed text as a text message, after
        which the text is cleared and the picker closed, whatever the store
        did (the store reports no failure). */
    twostate predicate SendEffect(current: Option<Id>, reply: InsertReply)
      reads this, chats, chats.db
    {
      if !WillSend(old(messageText), old(chats.currentChat)) then
        && messageText == old(messageText) && showEmojiPicker == old(showEmojiPicker)
        && chats.messages == old(chats.messages)
        && chats.db.tables == old(chats.db.tables) && chats.db.nextId == old(chats.db.nextId)
      else
        && messageText == [] && !showEmojiPicker
        && (current.None? || reply == InsertRejected ==>
              chats.messages == old(chats.messages)
              && chats.db.tables == old(chats.db.tables) && chats.db.nextId == old(chats.db.nextId))
        && (current.Some? && reply != InsertRejected ==>
              var m := Compose(old(chats.db.nextId), old(chats.currentChat).value.id, current.value,
                               Trim(old(messageText)), Text, chats.db.clock);
              && chats.messages == (if reply == InsertedReturned then old(chats.messages) + [m] else old(chats.messages))
              && chats.db.tables == old(chats.db.tables).(messages := old(chats.db.tables.messages) + [m])
              && chats.db.nextId == old(chats.db.nextId) + 1)
    }

    /** `handleSendMessage`. A message that reaches the list is the sender's
        own text message and carries the trimmed input. */
    method HandleSendMessage(current: Option<Id>, reply: InsertReply)
      modifies this`messageText, this`showEmojiPicker, chats`messages, chats.db`tables, chats.db`nextId
      ensures SendEffect(current, reply)
      ensures |chats.messages| > |old(chats.messages)| ==>
        var m := chats.messages[|chats.messages| - 1];
        && IsOwn(m, current) && m.messageType == Text && WellFormed(m)
        && Body(m) == Trim(old(messageText)) && Body(m) != []
    {
      if IsBlank(messageText) || chats.currentChat.None? {
        return;
      }
      SentTextIsTrimmed(messageText);
      chats.SendMessage(current, chats.currentChat.value.id, Trim(messageText), Text, reply);
      messageText := [];
      showEmojiPicker := false;
    }

    /** `handleEmojiSelect`: the emoji goes to the end of the text and the
        picker closes. */
    method HandleEmojiSelect(emoji: string)
      modifies this`messageText, this`showEmojiPicker
      ensures messageText == old(messageText) + emoji && !showEmojiPicker
      ensures messageText[..|old(messageText)|] == old(messageText)
    {
      messageText := messageText + emoji;
      showEmojiPicker := false;
    }

    /** `handleKeyPress`: Enter without Shift sends; any other key, and
        Shift+Enter, leaves everything as it was. */
    method HandleKeyPress(key: string, shiftKey: bool, current: Option<Id>, reply: InsertReply)
      modifies this`messageText, this`showEmojiPicker, chats`messages, chats.db`tables, chats.db`nextId
      ensures key == "Enter" && !shiftKey ==> SendEffect(current, reply)
      ensures key != "Enter" || shiftKey ==>
        && messageText == old(messageText) && showEmojiPicker == old(showEmojiPicker)
        && chats.messages == old(chats.messages)
        && chats.db.tables == old(chats.db.tables) && chats.db.nextId == old(chats.db.nextId)
    {
      if key == "Enter" && !shiftKey {
        HandleSendMessage(current, reply);
      }
    }

    /** The smile button: opens or closes the picker. */
    method ToggleEmojiPicker()
      modifies this`showEmojiPicker
      ensures showEmojiPicker == !old(showEmojiPicker)
    {
      showEmojiPicker := !showEmojiPicker;
    }
  }
}
