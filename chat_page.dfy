/**
 * The chat page (frontend/src/scripts/chat.js): who the partner is, the title, the message list
 * rebuilt from the server's answer, and sending the trimmed text of the input field. The server's
 * answers and the usernames it reports are inputs.
 */
module ChatPage {
  import opened Util
  import opened Tables
  import opened Roles
  import opened JsText

  /** The user the page names in its title: the other participant, for a logged-in participant. */
  function Partner(chat: Chat, currentUserId: Option<int>): (r: Option<int>)
    ensures r.Some? <==> !Falsy(currentUserId) && (currentUserId.value == chat.user1 || currentUserId.value == chat.user2)
    ensures r.Some? && currentUserId.value == chat.user1 ==> r.value == chat.user2
    ensures r.Some? && currentUserId.value != chat.user1 ==> r.value == chat.user1
  {
    if Falsy(currentUserId) then None
    else if !(currentUserId.value == chat.user1 || currentUserId.value == chat.user2) then None
    else Some(if currentUserId.value == chat.user1 then chat.user2 else chat.user1)
  }

  /** In a chat between two different users, each sees the other as the partner, and an outsider sees none. */
  lemma PartnersSeeEachOther(chat: Chat, outsider: int)
    requires chat.user1 != chat.user2 && chat.user1 != 0 && chat.user2 != 0
    requires outsider != chat.user1 && outsider != chat.user2
    ensures Partner(chat, Some(chat.user1)) == Some(chat.user2)
    ensures Partner(chat, Some(chat.user2)) == Some(chat.user1)
    ensures Partner(chat, Some(outsider)) == None
  {
  }

  /** One rendered message: " - ", the sender's name and ": ", then the text. */
  datatype Line = Line(sender: string, text: string)

  function LineOf(m: ChatMessage, usernameOf: int -> string): Line
  {
    Line(" - " + usernameOf(m.sentBy) + ": ", m.message)
  }

  /** The list `loadMessages` renders for the server's messages, one line per message in order. */
  function Lines(messages: seq<ChatMessage>, usernameOf: int -> string): (r: seq<Line>)
    ensures |r| == |messages|
    ensures forall k :: 0 <= k < |r| ==> r[k] == LineOf(messages[k], usernameOf)
  {
    seq(|messages|, k requires 0 <= k < |messages| => LineOf(messages[k], usernameOf))
  }

  /** A message the store appended to the chat is rendered as the last line, after all earlier ones. */
  lemma SentMessageShownLast(before: seq<ChatMessage>, m: ChatMessage, usernameOf: int -> string)
    ensures Lines(before + [m], usernameOf) == Lines(before, usernameOf) + [LineOf(m, usernameOf)]
  {
    assert (before + [m])[|before|] == m;
  }

  /** The body `sendMessage` posts: the id the page believes is logged in, and the message. */
  datatype MessageBody = MessageBody(userId: Option<int>, message: string)

  class ChatView {
    var title: Option<string>
    var sendBound: bool
    var lines: seq<Line>
    var input: string

    constructor ()
      ensures title.None? && !sendBound && lines == [] && input == ""
    {
      title, sendBound, lines, input := None, false, [], "";
    }

    /** `loadMessages`: the list is cleared, then one line per message is appended in order. */
    method LoadMessages(messages: seq<ChatMessage>, usernameOf: int -> string)
      modifies this`lines
      ensures lines == Lines(messages, usernameOf)
    {
      lines := [];
      var i := 0;
      while i < |messages|
        invariant 0 <= i <= |messages|
        invariant |lines| == i
        invariant forall k :: 0 <= k < i ==> lines[k] == LineOf(messages[k], usernameOf)
      {
        lines := lines + [LineOf(messages[i], usernameOf)];
        i := i + 1;
      }
    }

    /**
     * `initialize`, once the chat was fetched: a missing chat makes the script throw; a visitor
     * who is not logged in or not a participant gets the bare page; a participant gets the title
     * naming the partner, the send button bound and the messages listed.
     */
    method Initialize(chat: Option<Chat>, currentUserId: Option<int>, usernameOf: int -> string,
                      messages: seq<ChatMessage>) returns (shown: bool)
      modifies this`title, this`sendBound, this`lines
      ensures shown <==> chat.Some? && Partner(chat.value, currentUserId).Some?
      ensures !shown ==> title == old(title) && sendBound == old(sendBound) && lines == old(lines)
      ensures shown ==> title == Some("Chat mit " + usernameOf(Partner(chat.value, currentUserId).value))
      ensures shown ==> sendBound && lines == Lines(messages, usernameOf)
    {
      if chat.None? {
        return false;
      }
      var user1Id := chat.value.user1;
      var user2Id := chat.value.user2;
      if Falsy(currentUserId) {
        return false;
      }
      if !(currentUserId.value == user1Id || currentUserId.value == user2Id) {
        return false;
      }
      var partnerId := if currentUserId.value == user1Id then user2Id else user1Id;
      title := Some("Chat mit " + usernameOf(partnerId));
      sendBound := true;
      LoadMessages(messages, usernameOf);
      shown := true;
    }

    /**
     * `sendMessage`: posts the trimmed input with the current user's id, reloads the list from the
     * server's answer `messages` and clears the input field.
     */
    method SendMessage(currentUserId: Option<int>, messages: seq<ChatMessage>, usernameOf: int -> string)
      returns (body: MessageBody)
      modifies this`lines, this`input
      ensures body == MessageBody(currentUserId, Trim(old(input)))
      ensures lines == Lines(messages, usernameOf) && input == ""
    {
      var message := Trim(input);
      body := MessageBody(currentUserId, message);
      LoadMessages(messages, usernameOf);
      input := "";
    }
  }
}
