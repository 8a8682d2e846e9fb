/** Chat messages and the conversion of a chat history into a Gemini chat
    session (GeminiLLMWrapper.chat in backend/agent.py). */
module Conversation {
  import opened Values

  datatype Role = SystemRole | UserRole | AssistantRole

  /** `llm.ChatMessage.content`: a list of text segments, or a plain string. */
  datatype Content = Parts(parts: seq<string>) | Text(text: string)

  datatype Message = Message(role: Role, content: Content)

  /** A message as the agent appends it: one text segment. */
  function Said(role: Role, text: string): Message {
    Message(role, Parts([text]))
  }

  /** The two roles a Gemini chat turn may carry, "user" and "model". */
  datatype GeminiRole = GeminiUser | GeminiModel

  datatype GeminiTurn = GeminiTurn(role: GeminiRole, part: string)

  /** What is handed to Gemini: the session's prior turns, and the message sent. */
  datatype Request = Request(context: seq<GeminiTurn>, sent: string)

  /** The text a message contributes: `content[0]` of a list, the string
      itself otherwise.  An empty list makes Python raise `IndexError`: `None`. */
  function FirstText(c: Content): (r: Option<string>)
    ensures r.None? <==> c.Parts? && c.parts == []
  {
    match c
    case Parts(parts) => if parts == [] then None else Some(parts[0])
    case Text(text) => Some(text)
  }

  /** Every message of the history has a text to contribute. */
  predicate Convertible(history: seq<Message>) {
    forall i :: 0 <= i < |history| ==> FirstText(history[i].content).Some?
  }

  /** "user" stays "user"; every other role, the system role included, becomes "model". */
  function GeminiRoleOf(role: Role): GeminiRole {
    if role == UserRole then GeminiUser else GeminiModel
  }

  /** The Gemini rendering of one message. */
  predicate Renders(m: Message, t: GeminiTurn) {
    && (t.role == GeminiUser <==> m.role == UserRole)
    && Some(t.part) == FirstText(m.content)
  }

  /** The loop building `gemini_history`: one turn per message, in order, or
      the error of the first message without text. */
  function ToGemini(history: seq<Message>): (r: Option<seq<GeminiTurn>>)
    ensures r.Some? <==> Convertible(history)
    ensures r.Some? ==>
      && |r.value| == |history|
      && forall i :: 0 <= i < |history| ==> Renders(history[i], r.value[i])
  {
    if history == [] then
      Some([])
    else
      match FirstText(history[0].content)
      case None => None
      case Some(text) =>
        match ToGemini(history[1..])
        case None =>
          assert forall i :: 1 <= i < |history| ==> history[i] == history[1..][i - 1];
          None
        case Some(rest) =>
          assert forall i :: 1 <= i < |history| ==> history[i] == history[1..][i - 1];
          Some([GeminiTurn(GeminiRoleOf(history[0].role), text)] + rest)
  }

  /** Lines 101-111 of `chat`: all messages but the last become the session's
      context, the last one's text is sent, and an empty history sends the
      welcome message instead. */
  function BuildRequest(history: seq<Message>, welcome: string): (r: Option<Request>)
    ensures r.Some? <==> Convertible(history)
    ensures r.Some? && history == [] ==> r.value == Request([], welcome)
    ensures r.Some? && history != [] ==>
      && |r.value.context| == |history| - 1
      && (forall i :: 0 <= i < |history| - 1 ==> Renders(history[i], r.value.context[i]))
      && Some(r.value.sent) == FirstText(history[|history| - 1].content)
  {
    match ToGemini(history)
    case None => None
    case Some(turns) =>
      var context := if turns == [] then [] else turns[..|turns| - 1];
      var sent := if turns == [] then welcome else turns[|turns| - 1].part;
      Some(Request(context, sent))
  }
}
