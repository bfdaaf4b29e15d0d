/** The later version of the conversation screen. It lays the message list out
    by the same rules as the first version, shows a loading placeholder until a
    chat is selected, and clears the composer only after a send that did not
    throw. Its send goes to a store with a two-argument `sendMessage` that is
    not part of this model, so a send is modelled as the call it makes plus
    whether that call threw. */
module PatchedChatWindow {
  import opened Types
  import opened Text
  import opened ChatWindow

  /** The later version shows a loading placeholder until a chat is selected. */
  function Screen(currentChat: Option<Chat>, ms: seq<Message>, viewer: Option<Id>): (v: View)
    ensures currentChat.None? <==> v == LoadingPlaceholder
    ensures currentChat.Some? ==> v == ChatWindow.Screen(currentChat, ms, viewer)
  {
    match currentChat
    case None => LoadingPlaceholder
    case Some(c) => Conversation(c, Bubbles(ms, viewer))
  }

  /** The call `sendMessage(chatId, content)` the composer makes. */
  datatype SendCall = SendCall(chatId: Id, content: string)

  /** The composer of the later version. */
  class Composer {
    var messageText: string
    var showEmojiPicker: bool

    constructor ()
      ensures messageText == [] && !showEmojiPicker
    {
      messageText := [];
      showEmojiPicker := false;
    }

    /** The effect of one send: no call without text or chat; otherwise the
        call with the open chat and the trimmed text, after which the text is
        cleared and the picker closed unless the call threw. */
    twostate predicate SendEffect(currentChat: Option<Chat>, sendThrows: bool, new call: Option<SendCall>)
      reads this
    {
      && (call.Some? <==> WillSend(old(messageText), currentChat))
      && (call.Some? ==> call.value == SendCall(currentChat.value.id, Trim(old(messageText))))
      && (if call.Some? && !sendThrows then messageText == [] && !showEmojiPicker
          else messageText == old(messageText) && showEmojiPicker == old(showEmojiPicker))
    }

    /** `handleSendMessage`: a call that goes out carries non-empty, trimmed
        text; a call that throws leaves the typed text in place. */
    method HandleSendMessage(currentChat: Option<Chat>, sendThrows: bool) returns (call: Option<SendCall>)
      modifies this
      ensures SendEffect(currentChat, sendThrows, call)
      ensures call.Some? ==> call.value.content != [] && Trim(call.value.content) == call.value.content
    {
      if IsBlank(messageText) || currentChat.None? {
        return None;
      }
      SentTextIsTrimmed(messageText);
      call := Some(SendCall(currentChat.value.id, Trim(messageText)));
      if !sendThrows {
        messageText := [];
        showEmojiPicker := false;
      }
    }

    /** `handleKeyPress`: Enter without Shift sends; any other key, and
        Shift+Enter, makes no call and changes nothing. */
    method HandleKeyPress(key: string, shiftKey: bool, currentChat: Option<Chat>, sendThrows: bool)
      returns (call: Option<SendCall>)
      modifies this
      ensures key == "Enter" && !shiftKey ==> SendEffect(currentChat, sendThrows, call)
      ensures key != "Enter" || shiftKey ==>
        call == None && messageText == old(messageText) && showEmojiPicker == old(showEmojiPicker)
    {
      call := None;
      if key == "Enter" && !shiftKey {
        call := HandleSendMessage(currentChat, sendThrows);
      }
    }

    /** `handleEmojiSelect`: the emoji goes to the end of the text and the
        picker closes. */
    method HandleEmojiSelect(emoji: string)
      modifies this
      ensures messageText == old(messageText) + emoji && !showEmojiPicker
      ensures messageText[..|old(messageText)|] == old(messageText)
    {
      messageText := messageText + emoji;
      showEmojiPicker := false;
    }
  }
}
