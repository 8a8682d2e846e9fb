/** One session of the voice agent (backend/agent.py): the seeded history and
    `handle_user_speech`, the handling of one committed user utterance.

    The Gemini reply is the list of text parts the provider delivered before
    its stream ended, normally or by an error that `_generate_chunks`
    swallowed; the speaker is a trace of what the session was asked to say. */
module Agent {
  import opened Values
  import opened Api
  import opened ChatStream
  import opened Conversation
  import opened Directive
  import Prompts

  /** The canned reply to a negative utterance (line 171). */
  const NO_VIN_REPLY: string :=
    "No worries! We can look up your vehicle using your license plate number and state. Could you provide those details?"

  /** What the user hears when the turn raised. */
  const APOLOGY: string := "Sorry, something went wrong."

  /** The fixed texts a session uses: the instructions and welcome that seed
      it, the lookup hint, and the canned reply to a negative utterance.  The
      logic only ever sends, appends or speaks them, so it is stated for any
      texts; `SCRIPT` holds the ones the agent ships with. */
  datatype Script = Script(instructions: string, welcome: string, lookupHint: string, declined: string)

  const SCRIPT: Script := Script(Prompts.INSTRUCTIONS, Prompts.WELCOME_MESSAGE, Prompts.LOOKUP_VIN_MESSAGE, NO_VIN_REPLY)

  /** What the session is asked to speak: `session.say`, `response.delta`
      during streaming, and `response.message` at the end of a turn. */
  datatype Speech = Say(text: string) | Delta(text: string) | Final(text: string)

  /** The outcome of one turn: the history, the assistant's state, what was
      spoken, and the request handed to Gemini (`None` when none was). */
  datatype Turn = Turn(history: seq<Message>, assistant: Assistant, spoken: seq<Speech>, request: Option<Request>)

  /** The history as `entrypoint` seeds it, with the welcome spoken. */
  datatype Session = Session(history: seq<Message>, assistant: Assistant, spoken: seq<Speech>)

  /** Every message holds exactly one text segment, as the agent appends them. */
  predicate WellFormed(history: seq<Message>) {
    forall i :: 0 <= i < |history| ==> history[i].content.Parts? && |history[i].content.parts| == 1
  }

  /** Lines 151-157 of `entrypoint`: the instructions and the welcome message
      seed the history, the welcome is spoken, and no car is loaded. */
  function StartSession(script: Script): (s: Session)
    ensures WellFormed(s.history) && |s.history| == 2
    ensures s.history[0].role == SystemRole && FirstText(s.history[0].content) == Some(script.instructions)
    ensures s.history[1].role == AssistantRole && FirstText(s.history[1].content) == Some(script.welcome)
    ensures s.spoken == [Say(script.welcome)]
    ensures !HasCar(s.assistant)
  {
    Session([Said(SystemRole, script.instructions), Said(AssistantRole, script.welcome)],
            NewAssistant(), [Say(script.welcome)])
  }

  /** The characters `str.isspace()` accepts, which `str.strip()` removes. */
  predicate IsSpace(c: char) {
    || c == ' '
    || '\t' <= c <= '\r'
    || '\U{1C}' <= c <= '\U{1F}'
    || c == '\U{85}' || c == '\U{A0}' || c == '\U{1680}'
    || '\U{2000}' <= c <= '\U{200A}'
    || c == '\U{2028}' || c == '\U{2029}' || c == '\U{202F}' || c == '\U{205F}' || c == '\U{3000}'
  }

  function LowerChar(c: char): char {
    if 'A' <= c <= 'Z' then (c as int - 'A' as int + 'a' as int) as char else c
  }

  /** `str.lower()` on ASCII letters; other characters are kept. */
  function Lower(t: string): (r: string)
    ensures |r| == |t|
    ensures forall k :: 0 <= k < |r| ==> r[k] == LowerChar(t[k])
    ensures forall k :: 0 <= k < |r| ==> !('A' <= r[k] <= 'Z')
  {
    seq(|t|, k requires 0 <= k < |t| => LowerChar(t[k]))
  }

  /** Leading whitespace removed: the longest all-space prefix is dropped. */
  function TrimStart(t: string): (r: string)
    ensures |r| <= |t| && r == t[|t| - |r|..]
    ensures forall k :: 0 <= k < |t| - |r| ==> IsSpace(t[k])
    ensures r == [] || !IsSpace(r[0])
  {
    if t != [] && IsSpace(t[0]) then TrimStart(t[1..]) else t
  }

  /** Trailing whitespace removed: the longest all-space suffix is dropped. */
  function TrimEnd(t: string): (r: string)
    ensures |r| <= |t| && r == t[..|r|]
    ensures forall k :: |r| <= k < |t| ==> IsSpace(t[k])
    ensures r == [] || !IsSpace(r[|r| - 1])
  {
    if t != [] && IsSpace(t[|t| - 1]) then TrimEnd(t[..|t| - 1]) else t
  }

  /** `str.strip()`. */
  function Strip(t: string): string {
    TrimEnd(TrimStart(t))
  }

  /** A string with no upper-case ASCII letter is its own lower-casing. */
  lemma LowerFixed(t: string)
    requires NoUpper(t)
    ensures Lower(t) == t
  {
  }

  /** A string with no whitespace at either end is its own stripping. */
  lemma StripFixed(t: string)
    requires t == [] || (!IsSpace(t[0]) && !IsSpace(t[|t| - 1]))
    ensures Strip(t) == t
  {
  }

  /** No upper-case ASCII letter occurs in `t`. */
  predicate NoUpper(t: string) {
    forall k :: 0 <= k < |t| ==> !('A' <= t[k] <= 'Z')
  }

  /** A slice keeps only characters of the whole. */
  lemma SliceKeepsLower(t: string, a: nat, b: nat)
    requires NoUpper(t) && a <= b <= |t|
    ensures NoUpper(t[a..b])
  {
    assert forall k :: 0 <= k < b - a ==> t[a..b][k] == t[a + k];
  }

  /** So stripping keeps only characters of the input. */
  lemma StripKeepsLower(t: string)
    requires NoUpper(t)
    ensures NoUpper(Strip(t))
  {
    var l := TrimStart(t);
    SliceKeepsLower(t, |t| - |l|, |t|);
    assert l == t[|t| - |l|..|t|];
    SliceKeepsLower(l, 0, |TrimEnd(l)|);
    assert TrimEnd(l) == l[0..|TrimEnd(l)|];
  }

  /** A stripped string has no whitespace at either end. */
  lemma StrippedEnds(t: string)
    ensures Strip(t) == [] || (!IsSpace(Strip(t)[0]) && !IsSpace(Strip(t)[|Strip(t)| - 1]))
  {
    var s := TrimStart(t);
    var n := TrimEnd(s);
    if n != [] {
      assert n[0] == s[0];
    }
  }

  /** Normalising a spoken utterance (lower-casing, then stripping) a second
      time changes nothing. */
  lemma NormalizeIdempotent(t: string)
    ensures Strip(Lower(Strip(Lower(t)))) == Strip(Lower(t))
  {
    var n := Strip(Lower(t));
    StripKeepsLower(Lower(t));
    LowerFixed(n);
    StrippedEnds(Lower(t));
    StripFixed(n);
  }

  /** Line 165: `content[0]` of a list, used as is; a plain string is
      lower-cased and stripped.  An empty list raises `IndexError` before the
      `try`: `None`. */
  function UserInput(content: Content): (r: Option<string>)
    ensures content.Parts? ==> r == FirstText(content)
    ensures content.Text? ==> r.Some? && r.value == Strip(Lower(content.text))
  {
    match content
    case Parts(parts) => if parts == [] then None else Some(parts[0])
    case Text(text) => Some(Strip(Lower(text)))
  }

  /** The utterances that trigger the canned license-plate reply. */
  predicate IsNegative(u: string) {
    u == "no" || u == "n" || u == "nope" || u == "don't have it"
  }

  /** The history just before the model is asked: the user's message, then,
      while no car is loaded, the lookup hint as a system message. */
  function Prepared(history: seq<Message>, u: string, a: Assistant, hint: string): seq<Message> {
    history + [Said(UserRole, u)] + (if HasCar(a) then [] else [Said(SystemRole, hint)])
  }

  function Concat(chunks: seq<string>): string {
    if chunks == [] then "" else chunks[0] + Concat(chunks[1..])
  }

  function Deltas(chunks: seq<string>): (r: seq<Speech>)
    ensures |r| == |chunks| && forall k :: 0 <= k < |r| ==> r[k] == Delta(chunks[k])
  {
    seq(|chunks|, k requires 0 <= k < |chunks| => Delta(chunks[k]))
  }

  lemma {:induction false} NonEmptyIdempotent(parts: seq<string>)
    ensures NonEmpty(NonEmpty(parts)) == NonEmpty(parts)
    decreases |parts|
  {
    if parts != [] {
      NonEmptyIdempotent(parts[1..]);
      var head := if parts[0] != "" then [parts[0]] else [];
      var x := NonEmpty(parts);
      assert x == head + NonEmpty(parts[1..]);
      if parts[0] != "" {
        assert x[0] == parts[0] && x[1..] == NonEmpty(parts[1..]);
      } else {
        assert x == NonEmpty(parts[1..]);
      }
    }
  }

  /** Lines 182-190: the stream is started, the consumer enters its loop and
      waits, the producer pushes each part and then ends the stream, and
      leaving the `async with` block ends it again.  The chunks the loop body
      sees (each spoken as a delta and appended to `full_response`) are every
      non-empty part, in order; the exit finds the stream already ended, with
      its one sentinel taken. */
  lemma StreamReplyDelivers(parts: seq<string>)
    ensures var start := Drain(Fresh, AtCheck);
      var pulled := Converse(start.stream, start.phase, parts, true);
      && start == Pulled([], Fresh, InGet)
      && Converse(start.stream, start.phase, parts, false) == pulled
      && NonEmpty(pulled.items) == NonEmpty(parts)
      && pulled.phase == Finished
      && Exit(pulled.stream) == pulled.stream
      && Sentinels(pulled.stream.log) == 1 && Queue(pulled.stream) == []
  {
    FreshStart();
    ConverseAsWrittenAgrees(Fresh, parts);
    ConverseDelivers(Fresh, parts);
    NonEmptyIdempotent(parts);
    var pulled := Converse(Fresh, InGet, parts, true);
    assert Valid(pulled.stream) by {
      assert pulled.stream.log == Fresh.log + AsEntries(NonEmpty(parts)) + [None];
    }
    SentinelAtMostOnce(pulled.stream);
  }

  /** How a turn that reached the model ends: the history, the assistant's
      state, and the final message spoken. */
  datatype Conclusion = Conclusion(history: seq<Message>, assistant: Assistant, final: string)

  /** Lines 193-207: a parsed, non-empty directive is executed and its result
      is the final message; otherwise the streamed text is.  Either is the one
      assistant message appended, unless executing raised, in which case only
      the apology is spoken. */
  function Conclude(prepared: seq<Message>, assistant: Assistant, full: string,
                    decode: string -> Option<map<string, Value>>): (c: Conclusion)
    ensures || c.history == prepared + [Said(AssistantRole, c.final)]
            || (c.history == prepared && c.final == APOLOGY && c.assistant == assistant)
    ensures ParseFunctionCall(full, decode).None? ==>
      c == Conclusion(prepared + [Said(AssistantRole, full)], assistant, full)
    ensures c.history == prepared ==>
      && ParseFunctionCall(full, decode).Some?
      && ExecuteFunctionCall(ParseFunctionCall(full, decode).value, assistant).Raised?
    ensures c.assistant != assistant ==> ParseFunctionCall(full, decode).Some?
    ensures HasCar(assistant) ==> HasCar(c.assistant)
    // A non-empty directive is executed: its result is the final message and
    // the one assistant message, and the state it leaves is kept; if it
    // raises, only the apology is spoken and nothing is appended.
    ensures ParseFunctionCall(full, decode).Some? && ParseFunctionCall(full, decode).value != map[] ==>
      match ExecuteFunctionCall(ParseFunctionCall(full, decode).value, assistant)
      case Returned(reply) => c == Conclusion(prepared + [Said(AssistantRole, reply.text)], reply.after, reply.text)
      case Raised => c == Conclusion(prepared, assistant, APOLOGY)
    // An empty object is no directive: the streamed text is concluded as it is.
    ensures ParseFunctionCall(full, decode) == Some(map[]) ==>
      c == Conclusion(prepared + [Said(AssistantRole, full)], assistant, full)
  {
    var call := ParseFunctionCall(full, decode);
    // `if function_call:` -- an empty dict counts as no directive
    if call.Some? && call.value != map[] then
      match ExecuteFunctionCall(call.value, assistant)
      case Returned(reply) => Conclusion(prepared + [Said(AssistantRole, reply.text)], reply.after, reply.text)
      case Raised => Conclusion(prepared, assistant, APOLOGY)
    else
      Conclusion(prepared + [Said(AssistantRole, full)], assistant, full)
  }

  /** Lines 176-207, the `try` block once the history is prepared: Gemini is
      asked, its reply streamed and concluded.  `chatFails` says whether
      `model.chat` raises while starting the Gemini chat; `parts` is the text
      the provider delivers; `decode` stands for `json.loads`.  Whatever raises
      leaves the prepared history and only the apology spoken. */
  function Respond(script: Script, prepared: seq<Message>, assistant: Assistant, chatFails: bool,
                   parts: seq<string>, decode: string -> Option<map<string, Value>>): (t: Turn)
    // Gemini is asked exactly when starting the chat does not raise, with the
    // whole prepared history.
    ensures t.request.Some? <==> !chatFails && Convertible(prepared)
    ensures t.request.Some? ==> t.request == BuildRequest(prepared, script.welcome)
    // The turn ends with a final message, and at most that message is appended
    // to the history, as an assistant message.
    ensures |t.spoken| > 0 && t.spoken[|t.spoken| - 1].Final?
    ensures || t.history == prepared + [Said(AssistantRole, t.spoken[|t.spoken| - 1].text)]
            || (t.history == prepared && t.spoken[|t.spoken| - 1] == Final(APOLOGY) && t.assistant == assistant)
    ensures t.request.None? ==> t == Turn(prepared, assistant, [Final(APOLOGY)], None)
    // When Gemini is asked, every non-empty part is spoken as a delta, in order,
    // and the concatenated reply is concluded.
    ensures t.request.Some? ==>
      var c := Conclude(prepared, assistant, Concat(NonEmpty(parts)), decode);
      && t.spoken == Deltas(NonEmpty(parts)) + [Final(c.final)]
      && t.history == c.history && t.assistant == c.assistant
    ensures HasCar(assistant) ==> HasCar(t.assistant)
  {
    var request := BuildRequest(prepared, script.welcome);
    if chatFails || request.None? then
      Turn(prepared, assistant, [Final(APOLOGY)], None)
    else
      // the chunks the consumer loop sees (StreamReplyDelivers)
      var chunks := NonEmpty(parts);
      var c := Conclude(prepared, assistant, Concat(chunks), decode);
      Turn(c.history, c.assistant, Deltas(chunks) + [Final(c.final)], request)
  }

  /** `handle_user_speech`: one committed user utterance. */
  function HandleUserSpeech(script: Script, history: seq<Message>, msg: Message, assistant: Assistant,
                            chatFails: bool, parts: seq<string>,
                            decode: string -> Option<map<string, Value>>): (t: Turn)
    // An empty list as content raises before anything happens.
    ensures UserInput(msg.content).None? ==> t == Turn(history, assistant, [], None)
    // A negative utterance gets the canned reply; the model is not asked.
    ensures UserInput(msg.content).Some? && IsNegative(UserInput(msg.content).value) ==>
      t == Turn(history + [Said(UserRole, UserInput(msg.content).value), Said(AssistantRole, script.declined)],
                assistant, [Say(script.declined)], None)
    // Otherwise the user's message (and, with no car loaded, the hint) is kept
    // whatever happens next.
    ensures UserInput(msg.content).Some? && !IsNegative(UserInput(msg.content).value) ==>
      t == Respond(script, Prepared(history, UserInput(msg.content).value, assistant, script.lookupHint),
                   assistant, chatFails, parts, decode)
  {
    match UserInput(msg.content)
    case None => Turn(history, assistant, [], None)
    case Some(u) =>
      if IsNegative(u) then
        Turn(history + [Said(UserRole, u), Said(AssistantRole, script.declined)], assistant,
             [Say(script.declined)], None)
      else
        Respond(script, Prepared(history, u, assistant, script.lookupHint), assistant, chatFails, parts, decode)
  }

  /** A history the agent built holds a text in every message, so building
      the Gemini request never raises on it. */
  lemma WellFormedConverts(history: seq<Message>)
    requires WellFormed(history)
    ensures Convertible(history)
  {
  }

  /** `after` is `history` with the user's message appended, then at most two
      more messages, none from the user: at most one assistant message, and,
      when there are two, a system message before it.  An agent-built history
      stays one segment per message. */
  predicate AppendsOnly(history: seq<Message>, u: string, after: seq<Message>) {
    && |history| < |after| <= |history| + 3
    && after[..|history| + 1] == history + [Said(UserRole, u)]
    && (forall i :: |history| < i < |after| ==> after[i].role != UserRole)
    && (forall i :: |history| + 1 < i < |after| ==> after[i].role == AssistantRole)
    && (|after| == |history| + 3 ==> after[|history| + 1].role == SystemRole)
    && (forall i, j :: |history| < i < j < |after| && after[i].role == AssistantRole ==> after[j].role != AssistantRole)
    && (WellFormed(history) ==> WellFormed(after))
  }

  lemma AppendedShape(history: seq<Message>, u: string, extra: seq<Message>)
    requires |extra| <= 2
    requires forall i :: 0 <= i < |extra| ==>
      extra[i].role != UserRole && extra[i].content.Parts? && |extra[i].content.parts| == 1
    requires forall i :: 1 <= i < |extra| ==> extra[i].role == AssistantRole
    requires |extra| == 2 ==> extra[0].role == SystemRole
    ensures AppendsOnly(history, u, history + [Said(UserRole, u)] + extra)
  {
    var after := history + [Said(UserRole, u)] + extra;
    assert forall i :: |history| < i < |after| ==> after[i] == extra[i - |history| - 1];
    assert after[..|history| + 1] == history + [Said(UserRole, u)];
  }

  /** The histories a turn can leave: the canned exchange, the prepared
      history alone, or the prepared history and one assistant message. */
  lemma TurnShapes(history: seq<Message>, u: string, a: Assistant, hint: string, declined: string, reply: string)
    ensures AppendsOnly(history, u, history + [Said(UserRole, u), Said(AssistantRole, declined)])
    ensures AppendsOnly(history, u, Prepared(history, u, a, hint))
    ensures AppendsOnly(history, u, Prepared(history, u, a, hint) + [Said(AssistantRole, reply)])
  {
    var hinted := if HasCar(a) then [] else [Said(SystemRole, hint)];
    AppendedShape(history, u, [Said(AssistantRole, declined)]);
    assert history + [Said(UserRole, u), Said(AssistantRole, declined)]
        == history + [Said(UserRole, u)] + [Said(AssistantRole, declined)];
    AppendedShape(history, u, hinted);
    AppendedShape(history, u, hinted + [Said(AssistantRole, reply)]);
    assert Prepared(history, u, a, hint) + [Said(AssistantRole, reply)]
        == history + [Said(UserRole, u)] + (hinted + [Said(AssistantRole, reply)]);
  }

  /** Across a turn the history is only appended to: first the user's message,
      then no other user message, the hint only right after it, at most one
      assistant message; every message appended holds one segment. */
  lemma TurnAppendsOnly(script: Script, history: seq<Message>, msg: Message, assistant: Assistant,
                        chatFails: bool, parts: seq<string>, decode: string -> Option<map<string, Value>>)
    requires UserInput(msg.content).Some?
    ensures AppendsOnly(history, UserInput(msg.content).value,
                        HandleUserSpeech(script, history, msg, assistant, chatFails, parts, decode).history)
  {
    var t := HandleUserSpeech(script, history, msg, assistant, chatFails, parts, decode);
    TurnShapes(history, UserInput(msg.content).value, assistant, script.lookupHint, script.declined,
               t.spoken[|t.spoken| - 1].text);
  }

  /** A loaded car stays loaded: no turn clears it. */
  lemma TurnKeepsCar(script: Script, history: seq<Message>, msg: Message, assistant: Assistant,
                     chatFails: bool, parts: seq<string>, decode: string -> Option<map<string, Value>>)
    requires HasCar(assistant)
    ensures HasCar(HandleUserSpeech(script, history, msg, assistant, chatFails, parts, decode).assistant)
  {
  }

  /** What Gemini is asked: the prior history as context and, while no car is
      loaded, the lookup hint as the message sent, with the user's words as
      the last context turn; once a car is loaded, the user's words are sent. */
  lemma ModelSeesHintWithoutCar(script: Script, history: seq<Message>, msg: Message, assistant: Assistant,
                                chatFails: bool, parts: seq<string>, decode: string -> Option<map<string, Value>>)
    requires UserInput(msg.content).Some?
    ensures var t := HandleUserSpeech(script, history, msg, assistant, chatFails, parts, decode);
      var u := UserInput(msg.content).value;
      t.request.Some? ==>
        && (HasCar(assistant) ==> |t.request.value.context| == |history| && t.request.value.sent == u)
        && (!HasCar(assistant) ==>
              && |t.request.value.context| == |history| + 1
              && t.request.value.context[|history|] == GeminiTurn(GeminiUser, u)
              && t.request.value.sent == script.lookupHint)
  {
    var t := HandleUserSpeech(script, history, msg, assistant, chatFails, parts, decode);
    var u := UserInput(msg.content).value;
    var prepared := Prepared(history, u, assistant, script.lookupHint);
    if t.request.Some? {
      assert !IsNegative(u) && t.request == BuildRequest(prepared, script.welcome);
      var r := t.request.value;
      assert prepared[|history|] == Said(UserRole, u);
      if !HasCar(assistant) {
        assert Renders(prepared[|history|], r.context[|history|]);
      }
    }
  }

  /** The directive of the instructions, as a reply on its own. */
  const LOOKUP_REPLY: string := "{" + KEY + " \"lookup_car\", \"arguments\": {\"vin\": \"ABC123\"}}"

  /** A reply that is a directive on its own is decoded whole. */
  lemma WholeReplyIsTheMatch(reply: string)
    requires |reply| >= |KEY| + 2 && reply[0] == '{' && reply[|reply| - 1] == '}' && KeyAt(reply, 1)
    ensures FirstMatch(reply, 0, |reply|)
  {
  }

  /** A one-part reply is streamed as that one chunk. */
  lemma OneChunk(x: string)
    requires x != ""
    ensures NonEmpty([x]) == [x] && Concat([x]) == x
    ensures forall last :: Deltas([x]) + [Final(last)] == [Delta(x), Final(last)]
  {
    assert [x][1..] == [];
  }

  /** The lookup directive, decoded as the instructions intend, is concluded
      by loading the stored car and answering with its description. */
  lemma LookupDirectiveConcludes(prepared: seq<Message>, fields: string, decode: string -> Option<map<string, Value>>)
    requires decode(LOOKUP_REPLY) ==
      Some(map["function" := Str("lookup_car"), "arguments" := Object(map["vin" := Str("ABC123")], fields)])
    ensures Conclude(prepared, NewAssistant(), LOOKUP_REPLY, decode)
      == Conclusion(prepared + [Said(AssistantRole, "Found: 2022 Toyota Camry (VIN: ABC123)")],
                    Assistant(Some(STORED_CAR)), "Found: 2022 Toyota Camry (VIN: ABC123)")
  {
    assert LOOKUP_REPLY[1..1 + |KEY|] == KEY;
    WholeReplyIsTheMatch(LOOKUP_REPLY);
    assert LOOKUP_REPLY[0..|LOOKUP_REPLY|] == LOOKUP_REPLY;
    var call := map["function" := Str("lookup_car"), "arguments" := Object(map["vin" := Str("ABC123")], fields)];
    assert ParseFunctionCall(LOOKUP_REPLY, decode) == Some(call);
    assert ExecuteFunctionCall(call, NewAssistant())
      == Returned(Reply(Assistant(Some(STORED_CAR)), "Found: 2022 Toyota Camry (VIN: ABC123)"));
  }

  /** The messages a turn prepares hold one segment each, as the agent's do. */
  lemma PreparedWellFormed(history: seq<Message>, u: string, a: Assistant, hint: string)
    requires WellFormed(history)
    ensures WellFormed(Prepared(history, u, a, hint))
  {
  }

  /** Once the chat starts on an agent-built history, the turn is the
      streamed deltas followed by the conclusion of their concatenation. */
  lemma Answered(script: Script, prepared: seq<Message>, a: Assistant, parts: seq<string>,
                 decode: string -> Option<map<string, Value>>)
    requires WellFormed(prepared)
    ensures var c := Conclude(prepared, a, Concat(NonEmpty(parts)), decode);
      Respond(script, prepared, a, false, parts, decode)
        == Turn(c.history, c.assistant, Deltas(NonEmpty(parts)) + [Final(c.final)], BuildRequest(prepared, script.welcome))
  {
    WellFormedConverts(prepared);
  }

  /** A reply delivered as one non-empty part is spoken as one delta and
      concluded as it is. */
  lemma OnePartResponds(script: Script, prepared: seq<Message>, a: Assistant, x: string,
                        decode: string -> Option<map<string, Value>>, c: Conclusion)
    requires WellFormed(prepared) && x != ""
    requires Conclude(prepared, a, x, decode) == c
    ensures Respond(script, prepared, a, false, [x], decode)
      == Turn(c.history, c.assistant, [Delta(x), Final(c.final)], BuildRequest(prepared, script.welcome))
  {
    Answered(script, prepared, a, [x], decode);
    OneChunk(x);
  }

  /** A customer with no car loaded gives the stored VIN and the model answers
      with the lookup directive: the raw directive is streamed, the lookup's
      result is the final message and the one assistant message, and the
      stored car becomes current. */
  lemma LookupDirectiveTurn(script: Script, history: seq<Message>, fields: string,
                            decode: string -> Option<map<string, Value>>)
    requires WellFormed(history)
    requires decode(LOOKUP_REPLY) ==
      Some(map["function" := Str("lookup_car"), "arguments" := Object(map["vin" := Str("ABC123")], fields)])
    ensures var t := HandleUserSpeech(script, history, Message(UserRole, Parts(["ABC123"])), NewAssistant(), false,
                                      [LOOKUP_REPLY], decode);
      && t.spoken == [Delta(LOOKUP_REPLY), Final("Found: 2022 Toyota Camry (VIN: ABC123)")]
      && t.assistant == Assistant(Some(STORED_CAR))
      && t.history == Prepared(history, "ABC123", NewAssistant(), script.lookupHint)
                      + [Said(AssistantRole, "Found: 2022 Toyota Camry (VIN: ABC123)")]
  {
    var prepared := Prepared(history, "ABC123", NewAssistant(), script.lookupHint);
    var found := "Found: 2022 Toyota Camry (VIN: ABC123)";
    PreparedWellFormed(history, "ABC123", NewAssistant(), script.lookupHint);
    LookupDirectiveConcludes(prepared, fields, decode);
    OnePartResponds(script, prepared, NewAssistant(), LOOKUP_REPLY, decode,
                    Conclusion(prepared + [Said(AssistantRole, found)], Assistant(Some(STORED_CAR)), found));
  }

  /** An empty part between two non-empty ones is skipped. */
  lemma TwoChunks(x: string, y: string, last: string)
    requires x != "" && y != ""
    ensures NonEmpty([x, "", y]) == [x, y] && Concat([x, y]) == x + y
    ensures Deltas([x, y]) + [Final(last)] == [Delta(x), Delta(y), Final(last)]
  {
    OneChunk(y);
    assert [x, "", y][1..] == ["", y] && ["", y][1..] == [y];
    assert [x, y][1..] == [y];
  }

  /** A reply delivered as two non-empty parts with an empty one between them
      is spoken as two deltas and concluded as their concatenation. */
  lemma TwoPartsResponds(script: Script, prepared: seq<Message>, a: Assistant, x: string, y: string,
                         decode: string -> Option<map<string, Value>>, c: Conclusion)
    requires WellFormed(prepared) && x != "" && y != ""
    requires Conclude(prepared, a, x + y, decode) == c
    ensures Respond(script, prepared, a, false, [x, "", y], decode)
      == Turn(c.history, c.assistant, [Delta(x), Delta(y), Final(c.final)], BuildRequest(prepared, script.welcome))
  {
    Answered(script, prepared, a, [x, "", y], decode);
    TwoChunks(x, y, c.final);
  }

  /** A reply without a closing brace holds no directive, so it is the final
      message and the one assistant message as it is. */
  lemma PlainAnswerConcludes(prepared: seq<Message>, assistant: Assistant, full: string,
                             decode: string -> Option<map<string, Value>>)
    requires forall k :: 0 <= k < |full| ==> full[k] != '}'
    ensures Conclude(prepared, assistant, full, decode)
      == Conclusion(prepared + [Said(AssistantRole, full)], assistant, full)
  {
  }

  /** A turn whose streamed reply has no closing brace: every non-empty part
      is spoken as it arrives, and the whole text is the final message and
      the one assistant message; the state is unchanged. */
  lemma PlainAnswerTurn(script: Script, history: seq<Message>, msg: Message, assistant: Assistant,
                        parts: seq<string>, decode: string -> Option<map<string, Value>>)
    requires WellFormed(history)
    requires UserInput(msg.content).Some? && !IsNegative(UserInput(msg.content).value)
    requires forall k :: 0 <= k < |Concat(NonEmpty(parts))| ==> Concat(NonEmpty(parts))[k] != '}'
    ensures var t := HandleUserSpeech(script, history, msg, assistant, false, parts, decode);
      var full := Concat(NonEmpty(parts));
      && t.spoken == Deltas(NonEmpty(parts)) + [Final(full)]
      && t.assistant == assistant
      && t.history == Prepared(history, UserInput(msg.content).value, assistant, script.lookupHint)
                      + [Said(AssistantRole, full)]
  {
    var u := UserInput(msg.content).value;
    var prepared := Prepared(history, u, assistant, script.lookupHint);
    PreparedWellFormed(history, u, assistant, script.lookupHint);
    PlainAnswerConcludes(prepared, assistant, Concat(NonEmpty(parts)), decode);
    Answered(script, prepared, assistant, parts, decode);
  }

  /** An instance: "Found vehicle." streamed as two parts with an empty one
      between them is spoken part by part, then whole, and appended once. */
  lemma PlainAnswerInParts(script: Script, history: seq<Message>, assistant: Assistant,
                           decode: string -> Option<map<string, Value>>)
    requires WellFormed(history)
    ensures var t := HandleUserSpeech(script, history, Message(UserRole, Parts(["ABC123"])), assistant, false,
                                      ["Found ", "", "vehicle."], decode);
      && t.spoken == [Delta("Found "), Delta("vehicle."), Final("Found vehicle.")]
      && t.assistant == assistant
      && t.history == Prepared(history, "ABC123", assistant, script.lookupHint) + [Said(AssistantRole, "Found vehicle.")]
  {
    var prepared := Prepared(history, "ABC123", assistant, script.lookupHint);
    var full := "Found vehicle.";
    assert "Found " + "vehicle." == full;
    assert forall k :: 0 <= k < |full| ==> full[k] != '}';
    PreparedWellFormed(history, "ABC123", assistant, script.lookupHint);
    PlainAnswerConcludes(prepared, assistant, "Found " + "vehicle.", decode);
    TwoPartsResponds(script, prepared, assistant, "Found ", "vehicle.", decode,
                     Conclusion(prepared + [Said(AssistantRole, "Found vehicle.")], assistant, "Found vehicle."));
  }

  lemma LowerNo()
    ensures Lower(" No\n") == " no\n"
  {
    var l := Lower(" No\n");
    assert l[0] == ' ' && l[1] == 'n' && l[2] == 'o' && l[3] == '\n';
  }

  /** One space on each side of a word is stripped, and nothing else. */
  lemma StripSurrounded(w: string, before: char, after: char)
    requires IsSpace(before) && IsSpace(after)
    requires w != [] && !IsSpace(w[0]) && !IsSpace(w[|w| - 1])
    ensures Strip([before] + w + [after]) == w
  {
    var t := [before] + w + [after];
    assert t[1..] == w + [after];
    assert TrimStart(w + [after]) == w + [after];
    assert (w + [after])[..|w|] == w;
  }

  /** A spoken "No" arrives as a plain string and is lower-cased and stripped
      into a negative utterance; the same words as the first list segment are
      used as they are, so they are not negative. */
  lemma SpokenNoIsNegative()
    ensures UserInput(Text(" No\n")) == Some("no") && IsNegative("no")
    ensures UserInput(Parts([" No\n"])) == Some(" No\n") && !IsNegative(" No\n")
  {
    LowerNo();
    StripSurrounded("no", ' ', '\n');
    assert " no\n" == [' '] + "no" + ['\n'];
  }

  /** So a spoken "No" is answered with the canned reply, without asking the model. */
  lemma SpokenNoTurn(script: Script, history: seq<Message>, assistant: Assistant, chatFails: bool,
                     parts: seq<string>, decode: string -> Option<map<string, Value>>)
    ensures HandleUserSpeech(script, history, Message(UserRole, Text(" No\n")), assistant, chatFails, parts, decode)
      == Turn(history + [Said(UserRole, "no"), Said(AssistantRole, script.declined)], assistant,
              [Say(script.declined)], None)
  {
    SpokenNoIsNegative();
  }
}
