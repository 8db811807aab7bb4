/** The streamed completion as the client sees it, and a declarative account
    of what the assembly loop of `draft_response` extracts from it: the
    first function call, its argument text, the text deltas, and where the
    loop stops. */
module Stream {
  import opened Types

  /** `delta.tool_calls[0]`: the id and function name arrive with the first
      fragment of a call, the JSON argument text in pieces after it. */
  datatype ToolCallDelta = ToolCallDelta(id: Option<string>, name: Option<string>, arguments: Option<string>)

  /** `choices[0].delta`; `toolCall` is None when `tool_calls` is None or empty. */
  datatype Delta = Delta(toolCall: Option<ToolCallDelta>, content: Option<string>)

  /** A chunk with an empty `choices` list, or the delta of its first choice. */
  datatype Chunk = NoChoices | Choice(delta: Delta)

  /** The `func_call` record: only the id and name; arguments come later. */
  datatype FuncCall = FuncCall(id: string, name: string)

  /** The chunk carries a tool delta with a non-empty id: it opens a call. */
  predicate StartsCall(c: Chunk) {
    && c.Choice?
    && c.delta.toolCall.Some?
    && c.delta.toolCall.value.id.Some?
    && c.delta.toolCall.value.id.value != ""
  }

  function CallOf(c: Chunk): FuncCall
    requires StartsCall(c)
  {
    FuncCall(c.delta.toolCall.value.id.value, OrEmpty(c.delta.toolCall.value.name))
  }

  /** The argument text a chunk contributes: that of a tool delta without an
      id (None counting as ""); an id-carrying delta contributes nothing. */
  function Fragment(c: Chunk): string {
    if c.Choice? && c.delta.toolCall.Some? && !StartsCall(c)
    then OrEmpty(c.delta.toolCall.value.arguments)
    else ""
  }

  /** The chunk's text is passed on: it is present, and non-empty unless
      `keepEmpty`. */
  predicate Emits(c: Chunk, keepEmpty: bool) {
    c.Choice? && c.delta.content.Some? && (keepEmpty || c.delta.content.value != "")
  }

  function CountStarts(s: seq<Chunk>): nat {
    if s == [] then 0 else CountStarts(s[..|s| - 1]) + (if StartsCall(s[|s| - 1]) then 1 else 0)
  }

  /** The call opened by the earliest chunk that opens one. */
  function FirstCall(s: seq<Chunk>): Option<FuncCall> {
    if s == [] then None
    else
      var before := FirstCall(s[..|s| - 1]);
      if before.Some? then before
      else if StartsCall(s[|s| - 1]) then Some(CallOf(s[|s| - 1]))
      else None
  }

  /** The fragments of all chunks, concatenated in arrival order. */
  function ArgumentText(s: seq<Chunk>): string {
    if s == [] then "" else ArgumentText(s[..|s| - 1]) + Fragment(s[|s| - 1])
  }

  /** One incomplete response per emitting chunk, in arrival order. */
  function ContentResponses(rid: int, s: seq<Chunk>, keepEmpty: bool): (r: seq<Response>)
    ensures Partial(rid, r)
    ensures |r| <= |s|
    ensures !keepEmpty ==> forall i :: 0 <= i < |r| ==> r[i].content != ""
  {
    if s == [] then []
    else
      var last := s[|s| - 1];
      ContentResponses(rid, s[..|s| - 1], keepEmpty)
        + (if Emits(last, keepEmpty) then [Response(rid, last.delta.content.value, false, false)] else [])
  }

  /** Where the loop stops reading, scanning from `k` when `seen` tells
      whether a call is already open: at the next chunk that opens a call
      once one is open, or at the end. */
  function CutFrom(s: seq<Chunk>, k: nat, seen: bool): (cut: nat)
    requires k <= |s|
    ensures k <= cut <= |s|
    decreases |s| - k
  {
    if k == |s| then k
    else if StartsCall(s[k]) && seen then k
    else CutFrom(s, k + 1, seen || StartsCall(s[k]))
  }

  /** The number of chunks the loop handles before its `break`. */
  function Cut(s: seq<Chunk>): (cut: nat)
    ensures cut <= |s|
  {
    CutFrom(s, 0, false)
  }

  /** Reading one more chunk: how each accumulated value grows. */
  lemma ReadOneMore(rid: int, s: seq<Chunk>, i: nat)
    requires i < |s|
    ensures FirstCall(s[..i + 1])
            == if FirstCall(s[..i]).Some? then FirstCall(s[..i])
               else if StartsCall(s[i]) then Some(CallOf(s[i])) else None
    ensures ArgumentText(s[..i + 1]) == ArgumentText(s[..i]) + Fragment(s[i])
    ensures ContentResponses(rid, s[..i + 1], false)
            == ContentResponses(rid, s[..i], false)
               + (if Emits(s[i], false) then [Response(rid, s[i].delta.content.value, false, false)] else [])
  {
    assert s[..i + 1][..i] == s[..i];
  }

  lemma CountStartsSnoc(s: seq<Chunk>, k: nat)
    requires k < |s|
    ensures CountStarts(s[..k + 1]) == CountStarts(s[..k]) + (if StartsCall(s[k]) then 1 else 0)
  {
    assert s[..k + 1][..k] == s[..k];
  }

  lemma {:induction false} CutFromSpec(s: seq<Chunk>, k: nat, seen: bool)
    requires k <= |s|
    requires CountStarts(s[..k]) <= 1
    requires seen <==> CountStarts(s[..k]) == 1
    ensures CountStarts(s[..CutFrom(s, k, seen)]) <= 1
    ensures CutFrom(s, k, seen) < |s| ==>
              StartsCall(s[CutFrom(s, k, seen)]) && CountStarts(s[..CutFrom(s, k, seen)]) == 1
    decreases |s| - k
  {
    if k < |s| && !(StartsCall(s[k]) && seen) {
      CountStartsSnoc(s, k);
      CutFromSpec(s, k + 1, seen || StartsCall(s[k]));
    }
  }

  /** The loop reads a prefix holding at most one call-opening chunk, and
      stops early only at a chunk that opens a second call. */
  lemma CutSpec(s: seq<Chunk>)
    ensures CountStarts(s[..Cut(s)]) <= 1
    ensures Cut(s) < |s| ==> StartsCall(s[Cut(s)]) && CountStarts(s[..Cut(s)]) == 1
  {
    assert s[..0] == [];
    CutFromSpec(s, 0, false);
  }

  lemma {:induction false} CountStartsPrefix(s: seq<Chunk>, k: nat)
    requires k <= |s|
    ensures CountStarts(s[..k]) <= CountStarts(s)
    decreases |s| - k
  {
    if k < |s| {
      CountStartsSnoc(s, k);
      CountStartsPrefix(s, k + 1);
    } else {
      assert s[..k] == s;
    }
  }

  /** A stream that opens at most one call is read to the end. */
  lemma SingleCallReadsWholeStream(s: seq<Chunk>)
    requires CountStarts(s) <= 1
    ensures Cut(s) == |s|
  {
    CutSpec(s);
    if Cut(s) < |s| {
      CountStartsSnoc(s, Cut(s));
      CountStartsPrefix(s, Cut(s) + 1);
    }
  }

  lemma CountStartsMono(s: seq<Chunk>, i: nat, j: nat)
    requires i <= |s| && j <= |s|
    ensures i <= j ==> CountStarts(s[..i]) <= CountStarts(s[..j])
  {
    if i <= j {
      CountStartsPrefix(s[..j], i);
      assert s[..j][..i] == s[..i];
    }
  }

  /** The loop stops exactly at a call-opening chunk preceded by one other. */
  lemma CutAt(s: seq<Chunk>, k: nat)
    requires k < |s| && StartsCall(s[k]) && CountStarts(s[..k]) == 1
    ensures Cut(s) == k
  {
    CutSpec(s);
    CountStartsSnoc(s, k);
    CountStartsMono(s, k + 1, Cut(s));
    if Cut(s) < |s| {
      CountStartsSnoc(s, Cut(s));
      CountStartsMono(s, Cut(s) + 1, k);
    }
  }

  lemma {:induction false} FirstCallSome(s: seq<Chunk>)
    ensures FirstCall(s).Some? <==> CountStarts(s) > 0
  {
    if s != [] {
      FirstCallSome(s[..|s| - 1]);
    }
  }

  lemma {:induction false} FirstCallExtends(p: seq<Chunk>, q: seq<Chunk>)
    requires FirstCall(p).Some?
    ensures FirstCall(p + q) == FirstCall(p)
  {
    if q == [] {
      assert p + q == p;
    } else {
      assert (p + q)[..|p + q| - 1] == p + q[..|q| - 1];
      FirstCallExtends(p, q[..|q| - 1]);
    }
  }

  /** The call the loop keeps is the first one of the whole stream: a second
      call can only stop the loop, never replace the first. */
  lemma ProcessedKeepsFirstCall(s: seq<Chunk>)
    ensures FirstCall(s[..Cut(s)]) == FirstCall(s)
  {
    CutSpec(s);
    if Cut(s) < |s| {
      FirstCallSome(s[..Cut(s)]);
      FirstCallExtends(s[..Cut(s)], s[Cut(s)..]);
      assert s[..Cut(s)] + s[Cut(s)..] == s;
    } else {
      assert s[..Cut(s)] == s;
    }
  }

  /** The first call is the id and name (or "") of the earliest chunk that
      carries a non-empty id. */
  lemma FirstCallIsEarliest(s: seq<Chunk>, k: nat)
    requires k < |s| && StartsCall(s[k])
    requires forall j :: 0 <= j < k ==> !StartsCall(s[j])
    ensures FirstCall(s) == Some(CallOf(s[k]))
  {
    NoStartsNoCall(s[..k]);
    assert s[..k + 1][..k] == s[..k];
    assert FirstCall(s[..k + 1]) == Some(CallOf(s[k]));
    FirstCallExtends(s[..k + 1], s[k + 1..]);
    assert s[..k + 1] + s[k + 1..] == s;
  }

  lemma {:induction false} NoStartsNoCall(s: seq<Chunk>)
    requires forall j :: 0 <= j < |s| ==> !StartsCall(s[j])
    ensures FirstCall(s) == None
  {
    if s != [] {
      NoStartsNoCall(s[..|s| - 1]);
    }
  }

  /** The argument text of a stream is that of its parts, in order. */
  lemma {:induction false} ArgumentTextAppend(p: seq<Chunk>, q: seq<Chunk>)
    ensures ArgumentText(p + q) == ArgumentText(p) + ArgumentText(q)
  {
    if q == [] {
      assert p + q == p;
    } else {
      assert (p + q)[..|p + q| - 1] == p + q[..|q| - 1];
      ArgumentTextAppend(p, q[..|q| - 1]);
    }
  }

  /** The incomplete responses of a stream are those of its parts, in order. */
  lemma {:induction false} ContentResponsesAppend(rid: int, p: seq<Chunk>, q: seq<Chunk>, keepEmpty: bool)
    ensures ContentResponses(rid, p + q, keepEmpty)
            == ContentResponses(rid, p, keepEmpty) + ContentResponses(rid, q, keepEmpty)
  {
    if q == [] {
      assert p + q == p;
    } else {
      assert (p + q)[..|p + q| - 1] == p + q[..|q| - 1];
      ContentResponsesAppend(rid, p, q[..|q| - 1], keepEmpty);
    }
  }

  /** The first call of two streams read one after the other. */
  lemma {:induction false} FirstCallAppend(a: seq<Chunk>, b: seq<Chunk>)
    ensures FirstCall(a + b) == if FirstCall(a).Some? then FirstCall(a) else FirstCall(b)
  {
    if b == [] {
      assert a + b == a;
    } else {
      assert (a + b)[..|a + b| - 1] == a + b[..|b| - 1];
      FirstCallAppend(a, b[..|b| - 1]);
    }
  }

  /** A chunk without choices contributes nothing to the call, the argument
      text or the responses. */
  lemma InsertNoChoicesCall(x: seq<Chunk>, y: seq<Chunk>)
    ensures FirstCall(x + [NoChoices] + y) == FirstCall(x + y)
  {
    var n: seq<Chunk> := [NoChoices];
    assert n[..0] == [];
    assert FirstCall(n) == None;
    FirstCallAppend(x, n);
    FirstCallAppend(x + n, y);
    FirstCallAppend(x, y);
  }

  lemma InsertNoChoicesArguments(x: seq<Chunk>, y: seq<Chunk>)
    ensures ArgumentText(x + [NoChoices] + y) == ArgumentText(x + y)
  {
    var n: seq<Chunk> := [NoChoices];
    assert n[..0] == [];
    assert ArgumentText(n) == "";
    ArgumentTextAppend(x, n);
    ArgumentTextAppend(x + n, y);
    ArgumentTextAppend(x, y);
  }

  lemma InsertNoChoicesResponses(rid: int, x: seq<Chunk>, y: seq<Chunk>, keepEmpty: bool)
    ensures ContentResponses(rid, x + [NoChoices] + y, keepEmpty) == ContentResponses(rid, x + y, keepEmpty)
  {
    var n: seq<Chunk> := [NoChoices];
    assert n[..0] == [];
    assert ContentResponses(rid, n, keepEmpty) == [];
    ContentResponsesAppend(rid, x, n, keepEmpty);
    ContentResponsesAppend(rid, x + n, y, keepEmpty);
    ContentResponsesAppend(rid, x, y, keepEmpty);
  }

  lemma {:induction false} CutFromShift(p: seq<Chunk>, q: seq<Chunk>, k: nat, seen: bool)
    requires |p| <= k <= |p + q|
    ensures CutFrom(p + [NoChoices] + q, k + 1, seen) == CutFrom(p + q, k, seen) + 1
    decreases |p + q| - k
  {
    if k < |p + q| {
      assert (p + [NoChoices] + q)[k + 1] == (p + q)[k];
      CutFromShift(p, q, k + 1, seen || StartsCall((p + q)[k]));
    }
  }

  lemma {:induction false} CutFromSkip(p: seq<Chunk>, q: seq<Chunk>, k: nat, seen: bool)
    requires k <= |p|
    ensures var c := CutFrom(p + q, k, seen);
      CutFrom(p + [NoChoices] + q, k, seen) == if c < |p| then c else c + 1
    decreases |p| - k
  {
    if k == |p| {
      assert (p + [NoChoices] + q)[k] == NoChoices;
      CutFromShift(p, q, k, seen);
    } else {
      assert (p + [NoChoices] + q)[k] == (p + q)[k];
      CutFromSkip(p, q, k + 1, seen || StartsCall((p + q)[k]));
    }
  }

  /** The loop skips a chunk without choices: inserting one anywhere changes
      neither the call it keeps, nor the argument text, nor the responses. */
  lemma NoChoicesSkipped(rid: int, p: seq<Chunk>, q: seq<Chunk>, keepEmpty: bool)
    ensures var s1 := p + [NoChoices] + q; var s2 := p + q;
      && FirstCall(s1[..Cut(s1)]) == FirstCall(s2[..Cut(s2)])
      && ArgumentText(s1[..Cut(s1)]) == ArgumentText(s2[..Cut(s2)])
      && ContentResponses(rid, s1[..Cut(s1)], keepEmpty) == ContentResponses(rid, s2[..Cut(s2)], keepEmpty)
  {
    var s1 := p + [NoChoices] + q;
    var s2 := p + q;
    CutFromSkip(p, q, 0, false);
    var c := Cut(s2);
    if c < |p| {
      assert s1[..Cut(s1)] == s2[..c];
    } else {
      var r := q[..c - |p|];
      assert s1[..Cut(s1)] == p + [NoChoices] + r;
      assert s2[..c] == p + r;
      InsertNoChoicesCall(p, r);
      InsertNoChoicesArguments(p, r);
      InsertNoChoicesResponses(rid, p, r, keepEmpty);
    }
  }
}
