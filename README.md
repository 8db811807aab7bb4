# Retell custom-LLM agent: a Dafny model of its core

This project models the two language-model clients of a voice agent that
answers Retell's `response_required` requests. Both clients turn a call
transcript into chat messages for a streamed completion and turn the
streamed chunks back into `ResponseResponse` items.

- `app/llm.py` passes every text delta on and ends each turn with an empty
  complete response.
- `app/llm_with_func_calling.py` (class `LlmClient`) is a German-speaking
  receptionist. It lets the model call one tool per turn against the
  Cal.com API: check availability, book, reschedule, cancel and list
  bookings. It ends the turn with the tool's reply, or with an apology when
  the tool raised. It also normalises caller phone numbers to `+49…`.

Modules, one per concern:

| module | file | what it holds |
|---|---|---|
| `Types` | types.dfy | `Option`, `Result`, the request and response records, the "well-formed turn" predicate, the begin message |
| `JsonValues` | json_values.dfy | JSON values as Python sees them; truthiness; `d.get`, `d[k]` and `v.get(k, default)` with the exceptions they raise |
| `Phone` | phone.dfy | `_normalize_phone`, with `str.strip` (Python's exact whitespace set) and `str.replace` |
| `Prompt` | prompt.dfy | transcript conversion and prompt assembly shared by both clients (loops) |
| `Stream` | stream.dfy | chunks, and a declarative account of what the assembly loop reads and extracts |
| `CalCom` | calcom.dfy | the HTTP requests each tool sends, the booking payload, the summaries, and `_execute_tool` as a function |
| `FuncCalling` | llm_with_func_calling.dfy | class `LlmClient`: `Book` updating the attendee dict in place, `ExecuteTool`, `PreparePrompt`, `DraftResponse` proved equal to `DraftSpec`, and the `ReadStream` loop proved against `FirstCall`, `ArgumentText` and `ContentResponses` of the chunks it reads |
| `SimpleAgent` | llm.dfy | the `app/llm.py` client: prompt and the delta-forwarding loop |

Parts of the environment the clients cannot see into are parameters
(`FuncCalling.Env`):
- `json.loads` of the argument text (`None` when it raises);
- the HTTP round trip of a Cal.com request (the response body, or the text
  of a network, status or decoding failure);
- `str()` of a JSON value;
- `str()` of an exception.

The completion stream is an input `seq<Chunk>`. The clock string is an
input to `PreparePrompt`.

Facts about the code as written, which the model follows:
- The booking fills the operator email only when the attendee has none. It
  does not overwrite an email the model gave.
- `_normalize_phone` has no special case for a `00` prefix. `"0049 176"`
  becomes `"+49049176"`.
- No time value is converted to UTC. Start and end times go to Cal.com as
  the model wrote them.
- `json.loads` of the argument text runs before the `try`. Text that is not
  JSON ends the generator with an exception, after the partial responses and
  without any complete response (`DraftSpec`'s `raised`).
- A second tool delta with an id stops the reading of the stream. That
  chunk's text and everything after it are dropped (`SecondCallEndsTurn`).
- `_normalize_phone` is idempotent on numbers whose only whitespace is plain
  spaces (`NormalizeIdempotent`). It is not idempotent in general:
  `"1\t-"` becomes `"+491\t"`, because the tab is hidden behind the dash
  when `strip` runs. A second pass gives `"+491"`
  (`TabBeforeDashNotIdempotent`).

## Model

| member | source | states |
|---|---|---|
| Types.BeginMessage | app/llm.py:25-32 | a begin message has id 0 and the given sentence as content, is complete and does not end the call; it is a well-formed turn on its own |
| SimpleAgent.DraftBeginMessage | app/llm.py:25-32 | the therapist's greeting is a complete turn of its own with id 0 |
| FuncCalling.LlmClient.DraftBeginMessage | app/llm_with_func_calling.py:120-127 | the receptionist's greeting is a complete turn of its own with id 0 |
| Phone.TrimStartSpec | app/llm_with_func_calling.py:76 | `lstrip` keeps a suffix, every character it drops is whitespace, and what it keeps does not start with whitespace |
| Phone.TrimEndSpec | app/llm_with_func_calling.py:76 | `rstrip` keeps a prefix, every character it drops is whitespace, and what it keeps does not end with whitespace |
| Phone.RemoveSpec | app/llm_with_func_calling.py:76 | `replace(c, "")` leaves no `c`, adds no character, and is the identity when `c` is absent |
| Phone.Strip | app/llm_with_func_calling.py:76 | `strip` leaves no whitespace at either end, adds no character, and changes nothing when the ends are not whitespace |
| Phone.Clean | app/llm_with_func_calling.py:76 | the cleaned digits contain no space and no dash and only characters of the stripped input |
| Phone.Prefixed | app/llm_with_func_calling.py:77-83 | the result always starts with `+49`; a `+49` number is kept; one leading `0` is dropped before prefixing; `0+49…` loses only the `0`; any other number is prefixed whole; no character is invented |
| Phone.Normalize | app/llm_with_func_calling.py:73-83 | `None` and `""` come back unchanged; any other input becomes a `+49` number without spaces or dashes, the prefixing of its cleaned form |
| Phone.RemoveAppend | app/llm_with_func_calling.py:76 | removing a character commutes with concatenation |
| Phone.CanonicalIsFixed | app/llm_with_func_calling.py:77-78 | a `+49` number without whitespace or dashes is a fixed point |
| Phone.NormalizeIdempotent | app/llm_with_func_calling.py:73-83 | normalising twice equals normalising once for every input whose only whitespace is plain spaces |
| Phone.TabBeforeDashNotIdempotent | app/llm_with_func_calling.py:76-83 | `"1\t-"` normalises to `"+491\t"`, which normalises again to `"+491"`: not idempotent on all strings |
| Phone.DashHidesTab | app/llm_with_func_calling.py:76-83 | `"1\t-"` normalises to `"+491\t"`: the trailing tab survives because the dash still follows it when `strip` runs |
| Phone.SecondPassStripsTab | app/llm_with_func_calling.py:76-83 | `"+491\t"` normalises to `"+491"` |
| Phone.RemoveKeepsHead | app/llm_with_func_calling.py:76 | `replace(c, "")` keeps a first character other than `c` in first place |
| Phone.RemoveAll | app/llm_with_func_calling.py:76 | removing a character from a string made only of that character leaves nothing |
| Phone.StripThenRemoveSpaces | app/llm_with_func_calling.py:76 | when plain spaces are the only whitespace in a number, stripping it first changes nothing once the spaces are removed |
| Phone.NationalNumber | app/llm_with_func_calling.py:79-83 | a national number of digits, spaces and dashes starting with `0` (trailing spaces included) becomes `+49` followed by its digits after the `0`, in order |
| Prompt.RoleOf | app/llm_with_func_calling.py:132-135 | the role is the assistant exactly when the utterance's role is `agent`, else the user |
| Prompt.ConvertTranscript | app/llm_with_func_calling.py:129-136 | one message per utterance, same length, same order, same content, role mapped by `RoleOf` (app/llm.py:34-41 is the same conversion) |
| Prompt.BuildPrompt | app/llm_with_func_calling.py:153-172 | the system message first, then the converted transcript in order, then one user reminder exactly when the interaction type is `reminder_required`; length 1 + transcript (+1) |
| FuncCalling.PhoneStatus | app/llm_with_func_calling.py:142-146 | "BEREITS BEKANNT" exactly when the remembered phone is non-empty and not "Nicht verfügbar", else "NICHT BEKANNT" |
| FuncCalling.LlmClient.PreparePrompt | app/llm_with_func_calling.py:138-172 | the prompt is the receptionist system message carrying the clock, the phone status and the event type (or the missing marker), then the transcript, then the German reminder iff required |
| FuncCalling.LlmClient.constructor | app/llm_with_func_calling.py:110-118 | the client keeps the configured Cal.com key and event type and starts with no known caller phone |
| SimpleAgent.PreparePrompt | app/llm.py:43-64 | the voice-agent system message, then the transcript, then the English reminder iff required |
| Stream.ContentResponses | app/llm_with_func_calling.py:389-396 | every response is incomplete, does not end the call and carries the request's id; one at most per chunk; none has empty content in the receptionist |
| Stream.CutFromSpec | app/llm_with_func_calling.py:376-381 | scanning from any point with the right "call seen" flag reads at most one call-opening chunk and stops only at a second one |
| Stream.CutSpec | app/llm_with_func_calling.py:376-381 | the loop reads a prefix with at most one call-opening chunk, and stops before the end only at a chunk opening a second call |
| Stream.ReadOneMore | app/llm_with_func_calling.py:372-396 | reading one more chunk records its call only if none was recorded, appends its fragment and appends its response when its text is non-empty |
| Stream.CountStartsSnoc | app/llm_with_func_calling.py:378 | one more chunk adds one to the count of opened calls exactly when it carries an id |
| Stream.CountStartsMono | app/llm_with_func_calling.py:378-380 | a longer prefix opens at least as many calls |
| Stream.CountStartsPrefix | app/llm_with_func_calling.py:378-380 | a prefix opens no more calls than the whole stream |
| Stream.SingleCallReadsWholeStream | app/llm_with_func_calling.py:372-381 | a stream opening at most one call is read to its end |
| Stream.CutAt | app/llm_with_func_calling.py:378-380 | the loop stops exactly at a call-opening chunk preceded by exactly one other |
| Stream.FirstCallSome | app/llm_with_func_calling.py:378-385 | a call is recorded exactly when some chunk opens one |
| Stream.FirstCallExtends | app/llm_with_func_calling.py:379-385 | once recorded, the call is never replaced by later chunks |
| Stream.ProcessedKeepsFirstCall | app/llm_with_func_calling.py:376-385 | the call the loop keeps is the first call of the whole stream |
| Stream.FirstCallIsEarliest | app/llm_with_func_calling.py:378-385 | the recorded call is the id and name (or `""`) of the earliest chunk carrying a non-empty id |
| Stream.NoStartsNoCall | app/llm_with_func_calling.py:376-385 | a stream in which no chunk carries an id records no call |
| Stream.ArgumentTextAppend | app/llm_with_func_calling.py:386-387 | the argument text is the in-order concatenation of the fragments, including those before the first id |
| Stream.ContentResponsesAppend | app/llm_with_func_calling.py:389-396 | the text responses of a stream are those of its parts, in arrival order |
| Stream.FirstCallAppend | app/llm_with_func_calling.py:378-385 | the first call of two streams read one after the other is the first one's, else the second one's |
| Stream.InsertNoChoicesCall | app/llm_with_func_calling.py:373-374 | a chunk without choices does not change the recorded call |
| Stream.InsertNoChoicesArguments | app/llm_with_func_calling.py:373-374 | a chunk without choices adds no argument text |
| Stream.InsertNoChoicesResponses | app/llm_with_func_calling.py:373-374 | a chunk without choices yields no response |
| Stream.CutFromShift | app/llm_with_func_calling.py:372-374 | past an inserted empty chunk, the stopping point moves by exactly one |
| Stream.CutFromSkip | app/llm_with_func_calling.py:372-374 | an inserted empty chunk moves the stopping point by one only when the stop falls after it |
| Stream.NoChoicesSkipped | app/llm_with_func_calling.py:373-374 | inserting a chunk without choices anywhere changes neither the call kept, nor the argument text, nor the responses of what is read |
| FuncCalling.DraftSpec | app/llm_with_func_calling.py:360-425 | a turn that does not raise is the text responses followed by exactly one complete response; it raises exactly when a call was opened and its argument text is not JSON; at most one request is sent, and none in a turn that raises; without a call the final response is empty and nothing is sent. Its value is `TurnOf` (the branch after the loop, :398-425) of the chunks read before the second call-opening chunk |
| FuncCalling.NoCallReadsWholeStream | app/llm_with_func_calling.py:372-387 | a stream that opens no call is read to its end |
| FuncCalling.DraftRunsFirstCall | app/llm_with_func_calling.py:398-417 | the tool that runs is the stream's first call with the parsed argument text, and the final response is its reply or the apology for its exception |
| FuncCalling.SecondCallEndsTurn | app/llm_with_func_calling.py:378-380 | whatever follows a second call-opening chunk, the turn is that of the stream before it |
| FuncCalling.NoChoicesChangeNothing | app/llm_with_func_calling.py:373-374 | a chunk without choices, inserted anywhere, leaves the turn unchanged |
| FuncCalling.ReadStream | app/llm_with_func_calling.py:372-396 | the loop returns the stream's first call, the argument text and the text responses of exactly the chunks before the second call-opening chunk |
| FuncCalling.LlmClient.DraftResponse | app/llm_with_func_calling.py:360-425 | the prompt is the receptionist prompt, and the turn (text responses, then the final response after the tool or the parse failure) is `DraftSpec` of the stream |
| FuncCalling.LlmClient.Book | app/llm_with_func_calling.py:308-327 | the payload is `BookPayload` of the attendee as it came in; on success the attendee dict now holds exactly the attendee sent; when the phone raises, the dict is unchanged |
| FuncCalling.LlmClient.ExecuteTool | app/llm_with_func_calling.py:427-480 | running the tool, with the booking's in-place attendee update, gives exactly the result and requests of `RunTool` |
| JsonValues.Get | app/llm_with_func_calling.py:311 | `d.get(k)` is the stored value, or `None` when the key is absent |
| JsonValues.Lookup | app/llm_with_func_calling.py:433-435 | `v[k]` succeeds exactly on a dict holding the key; otherwise KeyError, or TypeError for a non-dict |
| JsonValues.GetOrDefault | app/llm_with_func_calling.py:455 | `d.get(k, default)` is the stored value even when it is `None`, else the default |
| JsonValues.GetOr | app/llm_with_func_calling.py:447-448 | `v.get(k, default)` succeeds exactly on a dict; a non-dict has no `get` |
| CalCom.Headers | app/llm_with_func_calling.py:291-295 | exactly two headers: the bearer credential and the pinned API version |
| CalCom.CheckAvailabilityRequest | app/llm_with_func_calling.py:297-304 | a GET of the slots endpoint with exactly the event type, start and end as query |
| CalCom.WithPhoneFallback | app/llm_with_func_calling.py:310-314 | a falsy attendee phone is replaced by the remembered one when that is known; otherwise, and for every other key, the attendee is unchanged |
| CalCom.WithDefaultEmail | app/llm_with_func_calling.py:318-320 | a falsy email becomes the operator's address; a present one and every other key are kept |
| CalCom.NormalizedPhone | app/llm_with_func_calling.py:316 | a falsy phone passes unchanged; a non-empty string becomes its `+49` normalisation; any other value raises for lack of `strip` |
| CalCom.BookPayload | app/llm_with_func_calling.py:308-326 | the payload succeeds exactly when the phone is falsy or a string; it has exactly the event type, start, the filled attendee and `metadata.phone` holding the normalised phone |
| CalCom.BookPayloadAttendee | app/llm_with_func_calling.py:310-326 | the attendee sent keeps the model's fields, keeps a given phone raw, takes the remembered phone when none was given, keeps a given email, and takes the operator email when none was given |
| CalCom.RescheduleRequest | app/llm_with_func_calling.py:332-335 | a POST to the booking's reschedule URL with exactly the new start and the reason |
| CalCom.CancelRequest | app/llm_with_func_calling.py:339-342 | a POST to the booking's cancel URL with exactly the reason |
| CalCom.BookingsQuery | app/llm_with_func_calling.py:346-355 | the query holds the window and status, and holds the event type exactly when it is truthy |
| CalCom.ToolNamed | app/llm_with_func_calling.py:431-469 | each of the five function names selects its tool, and only that name does |
| CalCom.PlanRequest | app/llm_with_func_calling.py:431-476 | non-dict arguments raise; a request is built only when every required argument of the tool is present; with its required keys present each tool builds its request: availability a GET of the slots with event type, start and end; booking a POST of the payload built from the attendee dict (a non-dict attendee raises AttributeError, a missing one KeyError, and a payload that raises raises the same); rescheduling and cancelling a POST whose reason is the given one or "Reschedule" / "Stornierung"; listing a GET whose status is the given one or "accepted" and whose event type is the given one or `None` (then left out of the query) |
| CalCom.MissingKeyRaises | app/llm_with_func_calling.py:431-476 | a tool whose arguments lack a required key raises KeyError for the first one missing, in the order the tool subscripts them (and so sends nothing) |
| CalCom.BookingOf | app/llm_with_func_calling.py:447-448 | `data.get("booking", {})`: the booking when present, else an empty dict |
| CalCom.Summary | app/llm_with_func_calling.py:438-478 | the availability reply embeds the body; cancelling always answers "Termin storniert."; the other tools raise on a non-dict body; booking and rescheduling raise on a `booking` that is not a dict, otherwise report its `uid` and `start` ("Termin gebucht. UID: …, Start: …") or its `start` ("Termin verschoben auf …"), with `None` for what is missing; listing reports `data`, else `bookings`, else `[]`, whichever is truthy first |
| CalCom.RunTool | app/llm_with_func_calling.py:427-480 | an unknown name answers "Ich habe kein passendes Tool gefunden." with no request; a known one sends at most one request, exactly when its arguments were read without error; an error while reading them is the tool's result; a failed request is the tool's failure; a successful one gives the tool's `Summary` of the body |
| SimpleAgent.DraftResponse | app/llm.py:66-96 | the prompt is the voice-agent prompt; one incomplete response per chunk whose content is present, empty or not, in order, then exactly one empty complete response, last |
| SimpleAgent.PlainStreamKeepsEveryDelta | app/llm.py:80 | on chunks whose text is never empty, passing on present text and passing on non-empty text agree |
| SimpleAgent.AgreesWithReceptionist | app/llm.py:79-96 | on a stream without tool calls or empty deltas, both clients answer with the same responses |

## Left out

- Provider selection, API keys and environment loading in `__init__`: the constructor takes the two Cal.com settings as parameters.
- Setting `user_phone` from outside the class: it is a public field, and the model lets any caller assign it.
- The completion calls to the model provider: the stream they return is an input.
- The HTTP calls, `raise_for_status` and `r.json()`: `Env.send` stands for them. The model checks the request built and follows the body or the failure it returns.
- `asyncio.to_thread` and the async generators: no effect on the values computed. Yields are collected into a sequence.
- `datetime.now()` and its formatting: the formatted clock is a parameter.
- The static text of both system prompts and the `prepare_functions` tool schema: `SystemPrompt` keeps only what the client substitutes into it.
- `str()` of JSON values and of exceptions in the f-strings: opaque functions in `Env`.
- `Env.parse` is unconstrained, so the model admits a turn that raises for a call with no argument text. The source cannot produce one, because `json.loads("{}")` never fails.
- JSON numbers are integers only. Floats are not modelled.
- Dict key order and dict identity: the request body holds the attendee as a value, equal to the dict's final contents.
- A tool delta whose `function` is `None` raises AttributeError in the source. The model reads a missing name or missing arguments as `""` and does not model that exception.
- `requests` drops query parameters whose value is `None`. The model keeps them in `params`.
- An exception thrown into the generator at the final `yield` inside the `try` is not modelled.
- SimpleAgent.DraftResponse: requires every chunk to carry a choice. The source reads `choices[0]` unguarded, and the IndexError a chunk without choices would raise is not modelled.
- `print` logging and test_cal_connection.py, a manual connectivity script.
- app/custom_types.py is not part of this model. `Request` and `Response` carry the fields the clients use.
