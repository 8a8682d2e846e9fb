# Car-service voice agent, modelled in Dafny

This project models the core of a voice assistant for a car-service centre.
Each committed user utterance goes into a chat history. Gemini is asked for a
reply, which is streamed back through a hand-made chat stream and spoken. A
JSON "function call" directive embedded in the reply is run against a
per-session vehicle state. The modelled parts are:

- `values.dfy` (`Values`): decoded JSON values as Python holds them, `dict.get`, and `str()` of a value, including the decimal rendering of integers.
- `api.dfy` (`Api`): the `Car` record, the mock `DatabaseDriver`, and the `AssistantFnc` actions with their one "current car" per session (backend/api.py).
- `chat_stream.dfy` (`ChatStream`): `CustomChatStream`, `ChatStreamContext.__aexit__`, and the producer `_generate_chunks`, as a sequential state machine. The state keeps everything ever enqueued plus a cursor, so the asyncio queue is the untaken suffix.
- `conversation.dfy` (`Conversation`): chat messages and `GeminiLLMWrapper.chat`'s conversion of the history into Gemini context turns and one message to send.
- `directive.dfy` (`Directive`): `parse_function_call` and `execute_function_call`.
  - The regular expression `\{.*"function":.*\}` under DOTALL is defined declaratively (`MatchAt`, `FirstMatch`: leftmost start, then longest).
  - `Search` is proved to report exactly that match.
- `agent.dfy` (`Agent`): the seeded session of `entrypoint` and `handle_user_speech`, one turn at a time.
  - The turn's outcome is a `Turn`: the new history, the assistant state, what was spoken, and the request handed to Gemini.
  - The session's fixed texts are a `Script` parameter: instructions, welcome message, lookup hint and canned "no" reply. `Agent.SCRIPT` holds the shipped texts (`prompts.dfy`).

External effects are parameters:
- whether starting the Gemini chat raises (`chatFails`);
- the text parts the provider delivers before its stream ends, normally or by a swallowed error (`parts`);
- `json.loads` (`decode`, which gives `None` for a decode error).

The model follows the code as written; in particular:
- `execute_function_call` can raise. The three action names with an `arguments` value that is not an object make `args.get` fail. The turn then ends with the apology.
- An unknown action name is not an error. It produces the text `Unknown function: <name>`, which is spoken and appended like any result.
- A provider error in the middle of a stream does not produce the apology. `_generate_chunks` swallows it and ends the stream, so the turn concludes on the text received so far.
- The system role, like the assistant role, becomes Gemini's "model" role. Only "user" stays "user".
- Argument types are not checked. Whatever value the directive holds is stored in the `Car` and rendered with `str()`.

## Model

| member | source | states |
|---|---|---|
| Values.IntToDecimal | backend/api.py:101 | `str()` of an integer: a minus sign exactly for negatives, then decimal digits with no leading zero ("0" alone for zero) that read back as its absolute value |
| Values.NatToDecimalRoundTrip | backend/api.py:114 | reading back the digits of `str(n)` gives `n`, so the rendered year loses nothing |
| Api.GetCarByVin | backend/api.py:25-28 | the mock store has a record exactly for the string "ABC123": the stored Toyota Camry 2022, whose VIN is the one asked for |
| Api.NewAssistant | backend/api.py:36-37 | a new session holds no car |
| Api.StoredCarFound | backend/api.py:96-101 | the stored record is described as "Found: 2022 Toyota Camry (VIN: ABC123)" |
| Api.LookupCar | backend/api.py:96-101 | a VIN other than "ABC123" leaves the state alone and answers "No car found with that VIN"; "ABC123" makes the stored car current and answers with its description; a loaded car is never lost |
| Api.CreateCarProfile | backend/api.py:103-106 | the car the mock store's `create_car` echoes (`Api.CreateCar`, backend/api.py lines 30-31) becomes current, holding exactly the given four values; the answer names year, make and model in that order |
| Api.LookupCarByLicensePlate | backend/api.py:39-43 | the state is unchanged and the answer is the fixed Honda Accord text, whatever the plate and state |
| Api.GetCarInfo | backend/api.py:108-114 | the "No car profile loaded" notice is given exactly when no car is loaded (`Api.HasCar`, the `has_car` of lines 108-109, is false); otherwise the text starts with "VIN: " |
| Api.CreatedProfileIsReported | backend/api.py:103-114 | after a profile is created, the info text reports exactly the values given to it |
| Api.LookedUpCarIsReported | backend/api.py:96-114 | after a successful VIN lookup, the info text reports the stored record |
| ChatStream.PushDelta | backend/agent.py:42-47 | a delta is appended while the stream is open and is dropped once it has ended; reachable states stay reachable |
| ChatStream.EndStream | backend/agent.py:49-55 | ending sets the flag; the first call alone enqueues a sentinel, so a valid stream ends holding exactly one |
| ChatStream.EndStreamIdempotent | backend/agent.py:49-55 | ending an ended stream changes nothing |
| ChatStream.SentinelAtMostOnce | backend/agent.py:46-55 | in every reachable state the sentinel has been enqueued once if the stream has ended and never otherwise |
| ChatStream.Exit | backend/agent.py:78-79 | leaving the `async with` block ends the stream, and is a no-op if the producer already ended it |
| ChatStream.DrainQueue | backend/agent.py:57-65 | the sentinel-driven consumer takes entries up to the first sentinel and yields every delta before it, in order; it finishes exactly when a sentinel is queued |
| ChatStream.PullQueue | backend/agent.py:57-65 | the loop as written yields deltas in order and takes no entry past a sentinel; once the flag is set it stops after at most one entry |
| ChatStream.Pull | backend/agent.py:57-65 | the as-written consumer only advances the cursor; at the loop check with the flag set it stops at once |
| ChatStream.Drain | backend/agent.py:57-65 | the draining consumer only advances the cursor and never rests at the loop check |
| ChatStream.PullOpenIsDrain | backend/agent.py:61-65 | while the producer has not ended, the loop as written is the sentinel-driven consumer |
| ChatStream.PullIsPrefixOfDrain | backend/agent.py:61-65 | the loop as written never yields more than the draining consumer, and what it yields is a prefix of that |
| ChatStream.FreshStart | backend/agent.py:38-40 | a new stream is valid, and a consumer entering its loop over it waits in `get` with nothing taken |
| ChatStream.DrainEndedStream | backend/agent.py:49-65 | once the producer has ended, the draining consumer yields every delta still queued and takes the sentinel |
| ChatStream.PullAgreesWithDrainOneAtATime | backend/agent.py:42-65 | when at most one entry is queued, the loop as written and the draining consumer behave identically |
| ChatStream.PullDropsQueuedDelta | backend/agent.py:61-65 | with two deltas and the sentinel queued after the end, the loop as written yields only the first delta, while the draining consumer yields both |
| ChatStream.Converse | backend/agent.py:117-131 | the producer pushes each non-empty part and ends the stream, alternating with consumer runs; the cursor stays within the log |
| ChatStream.ConverseDelivers | backend/agent.py:117-131 | a consumer waiting on an emptied open stream receives every non-empty part in order and finishes on the sentinel; the log ends with those deltas and one sentinel, all taken |
| ChatStream.ConverseAsWrittenAgrees | backend/agent.py:117-131 | under that schedule the loop as written delivers exactly what the draining consumer does |
| Conversation.FirstText | backend/agent.py:104 | a message's text is missing exactly when its content is an empty list |
| Conversation.ToGemini | backend/agent.py:100-105 | the conversion succeeds exactly when every message has a text; it then gives one turn per message, in order, "user" exactly for user messages |
| Conversation.BuildRequest | backend/agent.py:100-111 | all messages but the last become the context and the last one's text is sent; an empty history sends the welcome message |
| Directive.Search | backend/agent.py:212 | the reported span is the leftmost, then longest, match of the pattern, and it ends at the last closing brace; no span means no match exists |
| Directive.ParseFunctionCall | backend/agent.py:210-217 | no match gives no directive; otherwise the result is the decoding of exactly the match `re.search` reports |
| Directive.ExecuteFunctionCall | backend/agent.py:219-238 | raises exactly for an action name whose arguments are not an object; an unknown name gives "Unknown function: <name>"; `lookup_car`, `create_car_profile` and `lookup_car_by_license_plate` each run on the directive's own arguments, "" (0 for the year) standing in for a missing one; a loaded car stays loaded |
| Directive.MissingArgumentsDefault | backend/agent.py:221-236 | with no arguments each action runs on the defaults: no car for the empty VIN, a profile of empty strings and year 0 |
| Directive.MissingNameIsUnknown | backend/agent.py:219-238 | a directive without a name is answered "Unknown function: None" |
| Agent.StartSession | backend/agent.py:150-157 | the history starts as the instructions (system), then the welcome (assistant), one segment each; the welcome is spoken; no car is loaded |
| Agent.UserInput | backend/agent.py:165 | list content is taken as its first segment unchanged; a plain string is lower-cased and stripped; an empty list gives no input |
| Agent.NormalizeIdempotent | backend/agent.py:165 | lower-casing and stripping a second time changes nothing |
| Agent.SpokenNoIsNegative | backend/agent.py:165-170 | a spoken " No" with a newline is normalised into the negative "no"; the same words as a list segment are kept as they are and are not negative |
| Agent.StreamReplyDelivers | backend/agent.py:181-190 | the consumer loop, as written and in its draining form alike, sees every non-empty part in order and finishes; the exit finds the stream already ended with its one sentinel taken |
| Agent.Conclude | backend/agent.py:192-207 | with no directive, or an empty object, the streamed text is the final message and the one assistant message; a non-empty directive's result is the final and the appended message, and the state it leaves is kept; an execution that raises, and only that, appends nothing and speaks the apology |
| Agent.Respond | backend/agent.py:176-207 | Gemini is asked exactly when the chat starts and the history converts, with the prepared history; each non-empty part is spoken, then a final message; at most one assistant message is appended; a failure speaks only the apology |
| Agent.Answered | backend/agent.py:181-202 | once the chat has started, an agent-built history always converts, so the turn is the deltas followed by the conclusion of their concatenation |
| Agent.HandleUserSpeech | backend/agent.py:164-207 | an empty list does nothing; a negative utterance (`Agent.IsNegative`, the four words of line 170) gets the canned reply without asking Gemini; otherwise the history is `Agent.Prepared` (lines 167 and 176-178: the user's message and, with no car loaded, the hint as a system message) before Gemini is asked |
| Agent.WellFormedConverts | backend/agent.py:100-105 | a history of one-segment messages always converts |
| Agent.TurnAppendsOnly | backend/agent.py:164-207 | a turn only appends: the user's message first, then no user message, at most one assistant message, and a system message before it when two follow; one-segment messages stay one-segment |
| Agent.TurnKeepsCar | backend/agent.py:164-207 | no turn unloads a loaded car |
| Agent.ModelSeesHintWithoutCar | backend/agent.py:176-182 | without a car, Gemini receives the hint as the message sent and the user's words as the last context turn; with a car, it receives the user's words |
| Agent.LookupDirectiveConcludes | backend/agent.py:193-199 | the lookup directive for "ABC123" is concluded by loading the stored car and answering with its description |
| Agent.LookupDirectiveTurn | backend/agent.py:164-207 | a whole turn in which the model answers with the lookup directive: the raw directive is streamed, the lookup result is the final and appended message, and the stored car is loaded |
| Agent.PlainAnswerConcludes | backend/agent.py:200-202 | any reply with no closing brace holds no directive and is concluded verbatim: it is the final message and the one assistant message, and the state is unchanged |
| Agent.PlainAnswerTurn | backend/agent.py:181-202 | for any non-negative utterance on an agent-built history, a streamed reply whose text has no closing brace is spoken part by part (empty parts skipped), then whole as the final message; it is appended once after the prepared history, and the state is unchanged |
| Agent.PlainAnswerInParts | backend/agent.py:181-202 | the instance "Found ", "", "vehicle." for the message "ABC123": two deltas, then "Found vehicle." as the final and appended message |
| Agent.SpokenNoTurn | backend/agent.py:165-174 | a spoken "No" is answered with the canned reply, Gemini is not asked, and the car state is unchanged |

## Left out

- Audio rooms, the `AgentSession`, speech-to-text and text-to-speech are left out. The session's speaking is recorded as a trace (`Speech`). `session.say` and `session.response.*` are assumed not to raise.
- `asyncio` scheduling is not modelled. A `create_task(queue.put(...))` is treated as an immediate append. The turn runs the consumer after every put, the one-at-a-time schedule. Interleavings where several puts land before the consumer runs appear only in `ChatStream.PullDropsQueuedDelta`.
- Several turns running at once on the shared history are not modelled. Every `on_user_speech_committed` handler is a separate task, but turns are taken one at a time.
- The Gemini SDK is a parameter, both starting a chat and the streamed response. So is `json.loads`: the model does not parse JSON, it takes the decoding as the `decode` function.
- The `get_messages` fallback of `chat` (lines 93-98) is left out. `handle_user_speech` always passes a non-empty history.
- `print` and logging are left out, as are `get_functions` and the `CarDetails` enum. No modelled operation uses them.
- backend/db_driver.py is not part of this model. The mock `DatabaseDriver` in backend/api.py is the store that is used.
- The prompt texts are carried verbatim in `prompts.dfy`, but the turn logic is stated for any `Script`.
- `str.lower()` is modelled for ASCII letters only. That is exact for the comparison with the negative utterances, whose words are ASCII. `str.strip()` uses Python's whitespace set.
- Directive.ParseFunctionCall: `decode` either gives an object or fails with a JSON decoding error, which is caught. `json.loads` can also raise other exceptions on a matched span: `RecursionError` on very deep nesting, or `ValueError` on an integer longer than the interpreter's digit limit. Those escape `parse_function_call` and end the turn with the apology, appending nothing. They depend on interpreter limits rather than on this code, so the model does not include them.
- Floats, lists and other decoded JSON values are carried with their `str()` text, not their structure.
- No timeout: the provider's stream is a finite list of parts.
- Respond: takes the chunks the consumer loop sees as `NonEmpty(parts)`. The stream protocol that delivers them is proved separately, in `Agent.StreamReplyDelivers`.
- ChatStream.Pull: its own contract only says it advances the cursor. What it yields is stated on `ChatStream.PullQueue`.
- ChatStream.Drain: its own contract only says it advances the cursor. What it yields is stated on `ChatStream.DrainQueue` and `ChatStream.DrainEndedStream`.
- ChatStream.Converse: its own contract only keeps the cursor in range. What it delivers is stated by `ChatStream.ConverseDelivers`.
- Api.GetCarInfo: states the "VIN: " prefix for a loaded car, not the whole text. The whole text is stated by `Api.CreatedProfileIsReported` and `Api.LookedUpCarIsReported`.

## Findings

| source | as written | input that shows it | evidently intended | confidence | as-written member | corrected member |
|---|---|---|---|---|---|---|
| backend/agent.py:61-65 | the consumer loop re-checks `self._ended` after each delta and stops once the producer has ended, even with deltas still queued ahead of the sentinel | queue `["a", "b", None]`, flag set, consumer waiting in `queue.get()`: it yields "a" only | drain the queue up to the sentinel, so every pushed delta is yielded ("a", then "b") | medium, not executed; depends on the consumer falling behind the producer by more than one entry | ChatStream.PullDropsQueuedDelta | ChatStream.DrainEndedStream |

The turn model uses the draining consumer (`ChatStream.DrainQueue`).
`ChatStream.ConverseAsWrittenAgrees` shows that both consumers deliver the
same chunks under the one-at-a-time schedule the turn assumes.
