/** The receptionist client of app/llm_with_func_calling.py: it builds the
    prompt, assembles the streamed completion into partial responses and at
    most one function call, runs that call against Cal.com and ends the
    turn with one complete response. */
module FuncCalling {
  import opened Types
  import opened JsonValues
  import opened Prompt
  import opened Stream
  import opened CalCom

  const BeginSentence := "Hallo, ich bin Kim, die KI Assistentin von KI Empfang. Kann ich Ihnen mit einer Terminbuchung für eine Demo oder anderweitig weiterhelfen?"
  const ReminderText := "(Der Anrufer war still; leite eine kurze Erinnerung ein.)"
  const MissingEventType := "[EVENT_TYPE_ID_MISSING]"

  /** What the client cannot see into: `json.loads` of the argument text
      (None when it raises), the HTTP round trip of a Cal.com request (its
      JSON body, or the text of the failure), `str()` of a JSON value, and
      `str()` of an exception. */
  datatype Env = Env(
    parse: string -> Option<Json>,
    send: HttpRequest -> Result<Json, string>,
    render: Json -> string,
    describe: Error -> string)

  /** What `draft_response` yields, the requests it sent, and whether the
      generator ended by raising (the argument text was not JSON). */
  datatype Turn = Turn(responses: seq<Response>, sent: seq<HttpRequest>, raised: bool)

  /** The phone-status placeholder: known exactly when a real number is remembered. */
  function PhoneStatus(userPhone: string): (status: string)
    ensures status == "BEREITS BEKANNT" <==> PhoneKnown(userPhone)
    ensures status == "NICHT BEKANNT" <==> !PhoneKnown(userPhone)
  {
    if PhoneKnown(userPhone) then "BEREITS BEKANNT" else "NICHT BEKANNT"
  }

  /** The event-type placeholder: the configured id, or a marker when none is. */
  function EventTypeText(eventTypeId: string): string {
    if eventTypeId != "" then eventTypeId else MissingEventType
  }

  /** The complete response that tells the caller a tool raised. */
  function Apology(detail: string): string {
    "Entschuldigung, das hat nicht geklappt (" + detail + "). Sollen wir es erneut versuchen?"
  }

  /** The content of the final response after a tool ran. */
  function Reply(result: Result<string, Error>, describe: Error -> string): string {
    match result
    case Success(text) => text
    case Failure(e) => Apology(describe(e))
  }

  /** The text handed to `json.loads`: no argument text means an empty object. */
  function ArgumentsSource(text: string): string {
    if text == "" then "{}" else text
  }

  /** The turn built from the chunks the loop read: their text deltas, then,
      when they opened a call, the tool's reply (or the apology for its
      exception), else an empty complete response. When the argument text
      is not JSON the generator raises before any final response. */
  function TurnOf(rid: int, read: seq<Chunk>, userPhone: string, apiKey: string, env: Env): Turn {
    var partial := ContentResponses(rid, read, false);
    match FirstCall(read)
    case None => Turn(partial + [Response(rid, "", true, false)], [], false)
    case Some(call) =>
      match env.parse(ArgumentsSource(ArgumentText(read)))
      case None => Turn(partial, [], true)
      case Some(args) =>
        var run := RunTool(call.name, args, userPhone, apiKey, env.send, env.render);
        Turn(partial + [Response(rid, Reply(run.result, env.describe), true, false)], run.sent, false)
  }

  /** The turn `draft_response` produces for a stream: the one of the chunks
      before the second call-opening chunk, if any. Every turn that does not
      raise is well formed; the call that runs is the stream's first. */
  function DraftSpec(rid: int, stream: seq<Chunk>, userPhone: string, apiKey: string, env: Env): (t: Turn)
    ensures !t.raised ==> WellFormedTurn(rid, t.responses)
    ensures t.raised ==> Partial(rid, t.responses)
    ensures |t.sent| <= 1
    ensures t.raised ==> t.sent == []
    ensures t.raised <==>
              FirstCall(stream).Some? && env.parse(ArgumentsSource(ArgumentText(stream[..Cut(stream)]))).None?
    ensures t.responses[..|t.responses| - (if t.raised then 0 else 1)]
            == ContentResponses(rid, stream[..Cut(stream)], false)
    ensures FirstCall(stream).None? ==>
              t == Turn(ContentResponses(rid, stream, false) + [Response(rid, "", true, false)], [], false)
  {
    ProcessedKeepsFirstCall(stream);
    NoCallReadsWholeStream(stream);
    TurnOf(rid, stream[..Cut(stream)], userPhone, apiKey, env)
  }

  lemma NoCallReadsWholeStream(s: seq<Chunk>)
    ensures FirstCall(s).None? ==> s[..Cut(s)] == s
  {
    if FirstCall(s).None? {
      FirstCallSome(s);
      SingleCallReadsWholeStream(s);
    }
  }

  /** The tool that runs is the first call of the stream, with the argument
      text of every chunk up to the second call, and its reply ends the turn. */
  lemma DraftRunsFirstCall(rid: int, stream: seq<Chunk>, userPhone: string, apiKey: string, env: Env)
    requires FirstCall(stream).Some?
    requires env.parse(ArgumentsSource(ArgumentText(stream[..Cut(stream)]))).Some?
    ensures var t := DraftSpec(rid, stream, userPhone, apiKey, env);
      var run := RunTool(FirstCall(stream).value.name,
                         env.parse(ArgumentsSource(ArgumentText(stream[..Cut(stream)]))).value,
                         userPhone, apiKey, env.send, env.render);
      && t.sent == run.sent
      && t.responses[|t.responses| - 1].content == Reply(run.result, env.describe)
  {
    ProcessedKeepsFirstCall(stream);
  }

  /** A chunk that opens a second call ends the reading: whatever follows it,
      the turn is the one of the stream up to it. */
  lemma SecondCallEndsTurn(rid: int, p: seq<Chunk>, c: Chunk, q: seq<Chunk>,
                           userPhone: string, apiKey: string, env: Env)
    requires CountStarts(p) == 1 && StartsCall(c)
    ensures DraftSpec(rid, p + [c] + q, userPhone, apiKey, env) == DraftSpec(rid, p, userPhone, apiKey, env)
  {
    var s := p + [c] + q;
    assert s[..|p|] == p;
    CutAt(s, |p|);
    SingleCallReadsWholeStream(p);
    assert s[..Cut(s)] == p[..Cut(p)];
  }

  /** A chunk without choices is skipped: it changes nothing in the turn. */
  lemma NoChoicesChangeNothing(rid: int, p: seq<Chunk>, q: seq<Chunk>, userPhone: string, apiKey: string, env: Env)
    ensures DraftSpec(rid, p + [NoChoices] + q, userPhone, apiKey, env) == DraftSpec(rid, p + q, userPhone, apiKey, env)
  {
    NoChoicesSkipped(rid, p, q, false);
  }

  /** A Python dict the client updates in place. */
  class JsonDict {
    var entries: map<string, Json>

    constructor(entries: map<string, Json>)
      ensures this.entries == entries
    {
      this.entries := entries;
    }
  }

  class LlmClient {
    /** The caller's number, set by the transport once known. */
    var userPhone: string
    const calApiKey: string
    const calEventTypeId: string

    /** The keys come from the environment ("" when unset); no number is
        known yet. */
    constructor(calApiKey: string, calEventTypeId: string)
      ensures this.calApiKey == calApiKey && this.calEventTypeId == calEventTypeId
      ensures userPhone == NoPhone && !PhoneKnown(userPhone)
    {
      this.calApiKey := calApiKey;
      this.calEventTypeId := calEventTypeId;
      userPhone := NoPhone;
    }

    /** `draft_begin_message`: the receptionist's greeting opens the call. */
    function DraftBeginMessage(): (r: Response)
      ensures WellFormedTurn(0, [r]) && r.content == BeginSentence
    {
      BeginMessage(BeginSentence)
    }

    /** `prepare_prompt`: the receptionist instructions with the clock, the
        phone status and the event type filled in, then the transcript, then
        the silence reminder when one is required. */
    method PreparePrompt(request: Request, currentTime: string) returns (prompt: seq<Message>)
      ensures IsPrompt(prompt, Receptionist(currentTime, PhoneStatus(userPhone), EventTypeText(calEventTypeId)),
                       request.transcript, request.interactionType, ReminderText)
    {
      prompt := BuildPrompt(Receptionist(currentTime, PhoneStatus(userPhone), EventTypeText(calEventTypeId)),
                            request.transcript, request.interactionType, ReminderText);
    }

    /** `_book`'s work before the POST: fills the attendee dict in place (the
        remembered phone when it has none, then the operator email when it
        has none) and builds the payload, or raises on a phone that is not a
        string. The dict sent is the one updated. */
    method Book(eventTypeId: Json, start: Json, attendee: JsonDict) returns (payload: Result<map<string, Json>, Error>)
      modifies attendee
      ensures payload == BookPayload(eventTypeId, start, old(attendee.entries), userPhone)
      ensures payload.Success? ==> payload.value["attendee"] == JObj(attendee.entries)
      ensures payload.Failure? ==> attendee.entries == old(attendee.entries)
    {
      ghost var given := attendee.entries;
      var phone := Get(attendee.entries, "phoneNumber");
      if !Truthy(phone) && PhoneKnown(userPhone) {
        phone := JStr(userPhone);
        attendee.entries := attendee.entries["phoneNumber" := phone];
      }
      assert attendee.entries == WithPhoneFallback(given, userPhone);
      assert phone == CallerPhone(given, userPhone);
      var normPhone := NormalizedPhone(phone);
      if normPhone.Failure? {
        assert BookPayload(eventTypeId, start, given, userPhone) == Failure(normPhone.error);
        return Failure(normPhone.error);
      }
      if !Truthy(Get(attendee.entries, "email")) {
        attendee.entries := attendee.entries["email" := JStr(OperatorEmail)];
      }
      assert attendee.entries == WithDefaultEmail(WithPhoneFallback(given, userPhone));
      payload := Success(map[
        "eventTypeId" := eventTypeId,
        "start" := start,
        "attendee" := JObj(attendee.entries),
        "metadata" := JObj(map["phone" := normPhone.value])]);
    }

    /** `_execute_tool`: reads the arguments, sends the tool's request and
        summarises the response; the booking goes through `Book` on a dict
        of its own. */
    method ExecuteTool(call: FuncCall, args: Json, env: Env) returns (run: ToolRun)
      ensures run == RunTool(call.name, args, userPhone, calApiKey, env.send, env.render)
    {
      var tool := ToolNamed(call.name);
      if tool.None? {
        return ToolRun(Success(NoToolMessage), []);
      }
      var request: HttpRequest;
      if tool.value == BookAppointment {
        var eventTypeId := Lookup(args, "eventTypeId");
        var start := Lookup(args, "start");
        var attendee := Lookup(args, "attendee");
        if eventTypeId.Failure? {
          return ToolRun(Failure(eventTypeId.error), []);
        } else if start.Failure? {
          return ToolRun(Failure(start.error), []);
        } else if attendee.Failure? {
          return ToolRun(Failure(attendee.error), []);
        } else if !attendee.value.JObj? {
          return ToolRun(Failure(NoAttribute(attendee.value, "get")), []);
        }
        var dict := new JsonDict(attendee.value.fields);
        var payload := Book(eventTypeId.value, start.value, dict);
        if payload.Failure? {
          return ToolRun(Failure(payload.error), []);
        }
        request := PostRequest(BookingsUrl, payload.value, calApiKey);
      } else {
        var planned := PlanRequest(tool.value, args, userPhone, calApiKey, env.render);
        if planned.Failure? {
          return ToolRun(Failure(planned.error), []);
        }
        request := planned.value;
      }
      var response := env.send(request);
      if response.Failure? {
        run := ToolRun(Failure(RequestFailed(response.error)), [request]);
      } else {
        run := ToolRun(Summary(tool.value, response.value, env.render), [request]);
      }
    }

    /** `draft_response`: the prompt sent to the model, and the turn built from
        the stream it answers with. */
    method DraftResponse(request: Request, currentTime: string, stream: seq<Chunk>, env: Env)
      returns (prompt: seq<Message>, turn: Turn)
      ensures IsPrompt(prompt, Receptionist(currentTime, PhoneStatus(userPhone), EventTypeText(calEventTypeId)),
                       request.transcript, request.interactionType, ReminderText)
      ensures turn == DraftSpec(request.responseId, stream, userPhone, calApiKey, env)
    {
      prompt := PreparePrompt(request, currentTime);
      var rid := request.responseId;
      var funcCall, funcArguments, out := ReadStream(rid, stream);
      if funcCall.Some? {
        var parsed := env.parse(ArgumentsSource(funcArguments));
        if parsed.None? {
          turn := Turn(out, [], true);
        } else {
          var run := ExecuteTool(funcCall.value, parsed.value, env);
          turn := Turn(out + [Response(rid, Reply(run.result, env.describe), true, false)], run.sent, false);
        }
      } else {
        turn := Turn(out + [Response(rid, "", true, false)], [], false);
      }
    }
  }

  /** The `async for` loop of `draft_response`: it skips chunks without
      choices, records the first call, stops at a second one, accumulates
      the argument fragments, and passes non-empty text on at once. What it
      returns is the call, the argument text and the responses of the chunks
      before the stop. */
  method ReadStream(rid: int, stream: seq<Chunk>)
    returns (funcCall: Option<FuncCall>, funcArguments: string, out: seq<Response>)
    ensures funcCall == FirstCall(stream[..Cut(stream)])
    ensures funcArguments == ArgumentText(stream[..Cut(stream)])
    ensures out == ContentResponses(rid, stream[..Cut(stream)], false)
  {
    funcCall := None;
    funcArguments := "";
    out := [];
    var i := 0;
    assert stream[..0] == [];
    while i < |stream|
      invariant i <= |stream|
      invariant CountStarts(stream[..i]) <= 1
      invariant funcCall.Some? <==> CountStarts(stream[..i]) == 1
      invariant funcCall == FirstCall(stream[..i])
      invariant funcArguments == ArgumentText(stream[..i])
      invariant out == ContentResponses(rid, stream[..i], false)
      invariant Cut(stream) == CutFrom(stream, i, funcCall.Some?)
    {
      var chunk := stream[i];
      ReadOneMore(rid, stream, i);
      CountStartsSnoc(stream, i);
      if chunk.Choice? {
        var delta := chunk.delta;
        if delta.toolCall.Some? {
          var toolCall := delta.toolCall.value;
          if toolCall.id.Some? && toolCall.id.value != "" {
            if funcCall.Some? {
              assert Cut(stream) == i;
              break;
            }
            funcCall := Some(FuncCall(toolCall.id.value, OrEmpty(toolCall.name)));
          } else {
            funcArguments := funcArguments + OrEmpty(toolCall.arguments);
          }
        }
        if delta.content.Some? && delta.content.value != "" {
          out := out + [Response(rid, delta.content.value, false, false)];
        }
      }
      i := i + 1;
    }
    assert i == Cut(stream);
  }
}
