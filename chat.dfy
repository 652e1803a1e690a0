/** The Erica chat screen: the message history, the text being typed and
    the typing indicator. A send appends the user's message, two later
    steps mark it delivered and then read, and a last one appends the
    assistant's reply. */
module Chat {
  import opened Types

  /** The characters `String.prototype.trim` removes: ECMAScript's
      WhiteSpace and LineTerminator code points. */
  predicate IsWhitespace(c: char) {
    c == '\t' || c == '\n' || c == '\U{000B}' || c == '\U{000C}' || c == '\r' || c == ' '
    || c == '\U{00A0}' || c == '\U{1680}' || ('\U{2000}' <= c <= '\U{200A}')
    || c == '\U{2028}' || c == '\U{2029}' || c == '\U{202F}' || c == '\U{205F}'
    || c == '\U{3000}' || c == '\U{FEFF}'
  }

  predicate Blank(s: string) {
    forall i :: 0 <= i < |s| ==> IsWhitespace(s[i])
  }

  /** `s` without its leading whitespace. */
  function TrimStart(s: string): (r: string)
    ensures |r| <= |s| && r == s[|s| - |r|..]
    ensures r != [] ==> !IsWhitespace(r[0])
    ensures forall i :: 0 <= i < |s| - |r| ==> IsWhitespace(s[i])
    decreases |s|
  {
    if s != [] && IsWhitespace(s[0]) then TrimStart(s[1..]) else s
  }

  /** `s` without its trailing whitespace. */
  function TrimEnd(s: string): (r: string)
    ensures |r| <= |s| && r == s[..|r|]
    ensures r != [] ==> !IsWhitespace(r[|r| - 1])
    ensures forall i :: |r| <= i < |s| ==> IsWhitespace(s[i])
    decreases |s|
  {
    if s != [] && IsWhitespace(s[|s| - 1]) then TrimEnd(s[..|s| - 1]) else s
  }

  /** `s.trim()`. */
  function Trim(s: string): string {
    TrimEnd(TrimStart(s))
  }

  /** `!input.trim()` holds exactly for input made of whitespace only,
      the empty input included. */
  lemma TrimmedEmptyIffBlank(s: string)
    ensures Trim(s) == "" <==> Blank(s)
  {
  }

  /** The history when no saved one exists: the assistant's greeting. */
  function InitialHistory(): (ms: seq<ChatMessage>)
    ensures |ms| == 1 && ms[0].sender == Erica && ms[0].status.None?
  {
    [ChatMessage("1", "Hello! I'm Erica, your virtual assistant. How can I help you today?",
                 Erica, "9:00 AM", None)]
  }

  /** The message a send appends. */
  function UserMessage(id: string, text: string, timestamp: string): ChatMessage {
    ChatMessage(id, text, User, timestamp, Some(Sending))
  }

  /** The assistant's reply: no status. */
  function ReplyMessage(id: string, text: string, timestamp: string): ChatMessage {
    ChatMessage(id, text, Erica, timestamp, None)
  }

  /** `prev.map(m => m.id === id ? { ...m, status } : m)`. */
  function WithStatus(ms: seq<ChatMessage>, id: string, st: MessageStatus): (r: seq<ChatMessage>)
    ensures |r| == |ms|
    ensures forall i :: 0 <= i < |ms| ==>
      r[i].id == ms[i].id && r[i].text == ms[i].text &&
      r[i].sender == ms[i].sender && r[i].timestamp == ms[i].timestamp
    ensures forall i :: 0 <= i < |ms| && ms[i].id == id ==> r[i].status == Some(st)
    ensures forall i :: 0 <= i < |ms| && ms[i].id != id ==> r[i] == ms[i]
  {
    seq(|ms|, i requires 0 <= i < |ms| => if ms[i].id == id then ms[i].(status := Some(st)) else ms[i])
  }

  /** `after` still holds every message of `before`, at the same place,
      with the same id, text, sender and time; only statuses may differ. */
  predicate Keeps(before: seq<ChatMessage>, after: seq<ChatMessage>) {
    |before| <= |after| &&
    forall i :: 0 <= i < |before| ==>
      after[i].id == before[i].id && after[i].text == before[i].text &&
      after[i].sender == before[i].sender && after[i].timestamp == before[i].timestamp
  }

  /** Messages are never removed: appending and status updates both keep
      the history. */
  lemma StepsKeepHistory(ms: seq<ChatMessage>, m: ChatMessage, id: string, st: MessageStatus)
    ensures Keeps(ms, ms + [m])
    ensures Keeps(ms, WithStatus(ms, id, st))
  {
  }

  predicate HasId(ms: seq<ChatMessage>, id: string) {
    exists i :: 0 <= i < |ms| && ms[i].id == id
  }

  /** A status update for an id no message carries changes nothing. */
  lemma WithStatusOfAbsentId(ms: seq<ChatMessage>, id: string, st: MessageStatus)
    requires !HasId(ms, id)
    ensures WithStatus(ms, id, st) == ms
  {
  }

  /** One exchange from a history that does not yet use the new message's
      id: send, delivered, read, reply leaves the old history as it was,
      then the user's message marked read, then the reply. */
  lemma {:induction false} OneExchange(ms: seq<ChatMessage>, userId: string, text: string, ts: string,
                                       replyId: string, reply: string, replyTs: string)
    requires !HasId(ms, userId)
    ensures WithStatus(WithStatus(ms + [UserMessage(userId, text, ts)], userId, Delivered), userId, Read)
              + [ReplyMessage(replyId, reply, replyTs)]
            == ms + [UserMessage(userId, text, ts).(status := Some(Read)),
                     ReplyMessage(replyId, reply, replyTs)]
  {
  }

  /** The chat screen's state. */
  class EricaChat {
    var messages: seq<ChatMessage>
    var input: string
    var isTyping: bool

    /** Opening the screen with no saved history. */
    constructor()
      ensures messages == InitialHistory() && input == "" && !isTyping
    {
      messages := InitialHistory();
      input := "";
      isTyping := false;
    }

    /** Typing in the text box. */
    method SetInput(text: string)
      modifies this`input
      ensures input == text
    {
      input := text;
    }

    /** `handleSend`: ignores blank input; otherwise appends the user's
        message, marked sending, and clears the box. `sent` is the text the
        later steps pass to the assistant. */
    method HandleSend(userMsgId: string, timestamp: string) returns (sent: Option<string>)
      modifies this`messages, this`input
      ensures Blank(old(input)) ==>
        sent.None? && messages == old(messages) && input == old(input)
      ensures !Blank(old(input)) ==>
        sent == Some(old(input)) && input == "" &&
        messages == old(messages) + [UserMessage(userMsgId, old(input), timestamp)]
    {
      TrimmedEmptyIffBlank(input);
      if Trim(input) == "" {
        return None;
      }
      sent := Some(input);
      messages := messages + [UserMessage(userMsgId, input, timestamp)];
      input := "";
    }

    /** The first timer: the message with that id is delivered. */
    method MarkDelivered(userMsgId: string)
      modifies this`messages
      ensures messages == WithStatus(old(messages), userMsgId, Delivered)
    {
      messages := WithStatus(messages, userMsgId, Delivered);
    }

    /** The second timer, before the assistant is asked: the message is
        read and the typing indicator shows. */
    method StartReply(userMsgId: string)
      modifies this`messages, this`isTyping
      ensures messages == WithStatus(old(messages), userMsgId, Read) && isTyping
    {
      messages := WithStatus(messages, userMsgId, Read);
      isTyping := true;
    }

    /** The assistant's answer arrives: the indicator goes and the reply is
        appended. */
    method FinishReply(replyId: string, response: string, timestamp: string)
      modifies this`messages, this`isTyping
      ensures !isTyping && messages == old(messages) + [ReplyMessage(replyId, response, timestamp)]
    {
      isTyping := false;
      messages := messages + [ReplyMessage(replyId, response, timestamp)];
    }
  }
}
