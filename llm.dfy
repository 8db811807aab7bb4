/** The plain conversational client of app/llm.py: no tools; every text
    delta of the completion is passed on, then an empty complete response
    ends the turn. */
module SimpleAgent {
  import opened Types
  import opened Prompt
  import opened Stream
  import FuncCalling

  const BeginSentence := "Hallo, ich bin Ihr persönlicher KI-Therapeut. Wie kann ich Ihnen helfen?"
  const ReminderText := "(Now the user has not responded in a while, you would say:)"

  /** `draft_begin_message`: the therapist's greeting opens the call. */
  function DraftBeginMessage(): (r: Response)
    ensures WellFormedTurn(0, [r]) && r.content == BeginSentence
  {
    BeginMessage(BeginSentence)
  }

  /** `prepare_prompt`: the voice-agent guidelines with the therapist role,
      then the transcript, then the silence reminder when one is required. */
  method PreparePrompt(request: Request) returns (prompt: seq<Message>)
    ensures IsPrompt(prompt, VoiceAgentGuidelines, request.transcript, request.interactionType, ReminderText)
  {
    prompt := BuildPrompt(VoiceAgentGuidelines, request.transcript, request.interactionType, ReminderText);
  }

  /** `draft_response`: the prompt sent to the model, then one incomplete
      response per chunk whose content is present (even when empty), then
      the empty complete response. The source reads the first choice of
      every chunk without checking that there is one. */
  method DraftResponse(request: Request, stream: seq<Chunk>) returns (prompt: seq<Message>, responses: seq<Response>)
    requires forall i :: 0 <= i < |stream| ==> stream[i].Choice?
    ensures IsPrompt(prompt, VoiceAgentGuidelines, request.transcript, request.interactionType, ReminderText)
    ensures responses == ContentResponses(request.responseId, stream, true) + [Response(request.responseId, "", true, false)]
    ensures WellFormedTurn(request.responseId, responses)
  {
    prompt := PreparePrompt(request);
    var rid := request.responseId;
    responses := [];
    for i := 0 to |stream|
      invariant responses == ContentResponses(rid, stream[..i], true)
    {
      assert stream[..i + 1][..i] == stream[..i];
      var content := stream[i].delta.content;
      if content.Some? {
        responses := responses + [Response(rid, content.value, false, false)];
      }
    }
    assert stream[..|stream|] == stream;
    responses := responses + [Response(rid, "", true, false)];
  }

  /** A chunk that opens no call and whose text is not empty when present. */
  predicate PlainChunk(c: Chunk) {
    c.Choice? && c.delta.toolCall.None? && (c.delta.content.None? || c.delta.content.value != "")
  }

  lemma {:induction false} PlainStreamKeepsEveryDelta(rid: int, s: seq<Chunk>)
    requires forall i :: 0 <= i < |s| ==> PlainChunk(s[i])
    ensures ContentResponses(rid, s, true) == ContentResponses(rid, s, false)
  {
    if s != [] {
      PlainStreamKeepsEveryDelta(rid, s[..|s| - 1]);
    }
  }

  /** On a stream without tool calls or empty deltas, both clients answer
      with the same responses; they differ only in that this one also passes
      on empty deltas. */
  lemma AgreesWithReceptionist(rid: int, s: seq<Chunk>, userPhone: string, apiKey: string, env: FuncCalling.Env)
    requires forall i :: 0 <= i < |s| ==> PlainChunk(s[i])
    ensures FuncCalling.DraftSpec(rid, s, userPhone, apiKey, env).responses
            == ContentResponses(rid, s, true) + [Response(rid, "", true, false)]
  {
    NoStartsNoCall(s);
    PlainStreamKeepsEveryDelta(rid, s);
  }
}
