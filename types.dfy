/** Values exchanged with the voice-call transport: transcript utterances,
    the per-turn request and the responses streamed back for it. */
module Types {

  datatype Option<+T> = None | Some(value: T)

  /** Failure-compatible result, so that `:-` propagates the first error. */
  datatype Result<+T, +E> = Success(value: T) | Failure(error: E) {
    predicate IsFailure() { Failure? }
    function PropagateFailure<U>(): Result<U, E> requires Failure? { Failure(error) }
    function Extract(): T requires Success? { value }
  }

  /** Python's `x or ""` on an optional string. */
  function OrEmpty(o: Option<string>): (r: string)
    ensures o.Some? ==> r == o.value
    ensures o.None? ==> r == ""
  {
    if o.Some? then o.value else ""
  }

  /** One line of the conversation; the transport uses the roles "agent" and "user". */
  datatype Utterance = Utterance(role: string, content: string)

  /** A turn request: `interactionType` is "response_required" or "reminder_required". */
  datatype Request = Request(responseId: int, transcript: seq<Utterance>, interactionType: string)

  datatype Response = Response(responseId: int, content: string, contentComplete: bool, endCall: bool)

  /** Responses that belong to turn `rid`, none of them the completing one, none ending the call. */
  predicate Partial(rid: int, rs: seq<Response>) {
    forall i :: 0 <= i < |rs| ==> rs[i].responseId == rid && !rs[i].contentComplete && !rs[i].endCall
  }

  /** A finished turn: partial responses followed by exactly one completing response, which is last. */
  predicate WellFormedTurn(rid: int, rs: seq<Response>) {
    && |rs| > 0
    && Partial(rid, rs[..|rs| - 1])
    && rs[|rs| - 1].responseId == rid
    && rs[|rs| - 1].contentComplete
    && !rs[|rs| - 1].endCall
  }

  /** The greeting sent before any transcript exists: a whole turn of its own, with id 0. */
  function BeginMessage(sentence: string): (r: Response)
    ensures WellFormedTurn(0, [r])
    ensures r.content == sentence
  {
    Response(0, sentence, true, false)
  }
}
