/** The streaming aggregator of the task loop: how one chunk updates the text
    buffer, the tool-call buffer and the usage snapshot
    (`handleChunkDeltaContent`, `handleChunkDeltaToolCalls`, `handleChunkUsage`),
    and what a whole stream of chunks folds into. The class fields these
    functions describe are in module TaskLoop. */
module StreamAggregator {
  import opened Common
  import opened ChatTypes

  /** The turn-accumulation state: text, tool calls and last usage. */
  datatype Turn = Turn(content: string, toolCalls: ToolCallList, usage: Option<Usage>)

  /** The state every epoch starts from. */
  const EmptyTurn := Turn("", [], None)

  /** `chunk.choices[0]?.delta?.content || ''`. */
  function DeltaText(c: Chunk): string {
    OrElse(c.content, "")
  }

  /** The text buffer after one chunk: non-empty delta text is appended. */
  function AppendDelta(buffer: string, c: Chunk): (r: string)
    ensures r == buffer + DeltaText(c)
  {
    if DeltaText(c) != "" then buffer + DeltaText(c) else buffer
  }

  /** `chunk.choices[0]?.delta?.tool_calls?.[0]`: only the first delta is read. */
  function FirstDelta(c: Chunk): Option<ToolCallDelta> {
    if |c.toolCalls| > 0 then Some(c.toolCalls[0]) else None
  }

  /** `calls[i] = x` on a JavaScript array: past the end, the array grows and
      the positions in between are holes. */
  function SetAt(calls: ToolCallList, i: nat, x: ToolInvocation): (r: ToolCallList)
    ensures |r| == if i < |calls| then |calls| else i + 1
    ensures r[i] == Some(x)
    ensures forall j :: 0 <= j < |r| && j != i ==> r[j] == (if j < |calls| then calls[j] else None)
  {
    if i < |calls| then calls[i := Some(x)]
    else calls + Holes(i - |calls|) + [Some(x)]
  }

  function Holes(n: nat): (r: ToolCallList)
    ensures |r| == n && forall j :: 0 <= j < n ==> r[j].None?
  {
    if n == 0 then [] else Holes(n - 1) + [None]
  }

  /** A new tool call seeded from its first delta: name and arguments default to ''. */
  function Seed(d: ToolCallDelta): ToolInvocation {
    ToolInvocation(d.id, d.index, OrElse(d.name, ""), OrElse(d.arguments, ""))
  }

  /** A later delta for an existing tool call: a non-empty id or name
      overwrites, non-empty arguments are appended. */
  function Merge(t: ToolInvocation, d: ToolCallDelta): ToolInvocation {
    t.(id := if Truthy(d.id) then d.id else t.id,
       name := if Truthy(d.name) then d.name.value else t.name,
       arguments := if Truthy(d.arguments) then t.arguments + d.arguments.value else t.arguments)
  }

  /** The tool-call buffer after one chunk. */
  function MergeToolCalls(calls: ToolCallList, c: Chunk): ToolCallList {
    match FirstDelta(c)
    case None => calls
    case Some(d) =>
      if d.index < |calls| && calls[d.index].Some? then calls[d.index := Some(Merge(calls[d.index].value, d))]
      else SetAt(calls, d.index, Seed(d))
  }

  /** The usage snapshot after one chunk: a chunk that carries usage replaces it. */
  function MergeUsage(u: Option<Usage>, c: Chunk): Option<Usage> {
    if c.usage.Some? then c.usage else u
  }

  /** The three handlers applied to one chunk, in the order the source calls them. */
  function ApplyChunk(t: Turn, c: Chunk): Turn {
    Turn(AppendDelta(t.content, c), MergeToolCalls(t.toolCalls, c), MergeUsage(t.usage, c))
  }

  /** The state after a stream of chunks delivered in order. */
  function Aggregate(t: Turn, cs: seq<Chunk>): Turn
  {
    if cs == [] then t else ApplyChunk(Aggregate(t, cs[..|cs| - 1]), cs[|cs| - 1])
  }

  /** The text of every chunk, concatenated in order. */
  function Texts(cs: seq<Chunk>): string
  {
    if cs == [] then "" else DeltaText(cs[0]) + Texts(cs[1..])
  }

  lemma {:induction false} TextsSnoc(cs: seq<Chunk>, c: Chunk)
    ensures Texts(cs + [c]) == Texts(cs) + DeltaText(c)
  {
    if cs == [] {
      assert [] + [c] == [c];
    } else {
      assert (cs + [c])[1..] == cs[1..] + [c];
      TextsSnoc(cs[1..], c);
    }
  }

  /** The text buffer ends as its start followed by every chunk's text, in order. */
  lemma {:induction false} AggregateContent(t: Turn, cs: seq<Chunk>)
    ensures Aggregate(t, cs).content == t.content + Texts(cs)
  {
    if cs != [] {
      var p := cs[..|cs| - 1];
      AggregateContent(t, p);
      TextsSnoc(p, cs[|cs| - 1]);
      assert p + [cs[|cs| - 1]] == cs;
    }
  }

  /** The tool-call buffer after a stream depends on the state it started
      from only through the tool-call buffer. */
  lemma {:induction false} AggregateToolCallsFrom(t1: Turn, t2: Turn, cs: seq<Chunk>)
    requires t1.toolCalls == t2.toolCalls
    ensures Aggregate(t1, cs).toolCalls == Aggregate(t2, cs).toolCalls
  {
    if cs != [] {
      AggregateToolCallsFrom(t1, t2, cs[..|cs| - 1]);
    }
  }

  /** `abort()` in the middle of an exchange empties the text and tool-call
      buffers while the stream goes on: the turn then holds only what the
      chunks after the abort bring, as if the stream had started there, and an
      abort after the last chunk leaves an empty turn. */
  lemma AbortMidStream(cs: seq<Chunk>, k: nat)
    requires k <= |cs|
    ensures var t := Aggregate(EmptyTurn, cs[..k]);
      var after := Aggregate(t.(content := "", toolCalls := []), cs[k..]);
      && after.content == Texts(cs[k..])
      && after.toolCalls == Aggregate(EmptyTurn, cs[k..]).toolCalls
      && (k == |cs| ==> after.content == "" && after.toolCalls == [])
  {
    var t := Aggregate(EmptyTurn, cs[..k]);
    var cleared := t.(content := "", toolCalls := []);
    AggregateContent(cleared, cs[k..]);
    AggregateToolCallsFrom(cleared, EmptyTurn, cs[k..]);
  }

  /** The usage snapshot is the one of the last chunk that carries usage, and
      stays as it was when no chunk does. */
  lemma {:induction false} AggregateUsage(t: Turn, cs: seq<Chunk>)
    ensures (forall k :: 0 <= k < |cs| ==> cs[k].usage.None?) ==> Aggregate(t, cs).usage == t.usage
    ensures forall k :: 0 <= k < |cs| && cs[k].usage.Some? && (forall j :: k < j < |cs| ==> cs[j].usage.None?)
              ==> Aggregate(t, cs).usage == cs[k].usage
  {
    if cs != [] {
      var p := cs[..|cs| - 1];
      AggregateUsage(t, p);
      forall k | 0 <= k < |cs| && cs[k].usage.Some? && (forall j :: k < j < |cs| ==> cs[j].usage.None?)
        ensures Aggregate(t, cs).usage == cs[k].usage
      {
        if k < |cs| - 1 {
          assert p[k] == cs[k];
          assert forall j :: k < j < |p| ==> p[j].usage.None?;
        }
      }
    }
  }

  /** Delivering one more chunk of a stream applies it to the state so far. */
  lemma AggregatePrefix(t: Turn, cs: seq<Chunk>, k: nat)
    requires k < |cs|
    ensures Aggregate(t, cs[..k + 1]) == ApplyChunk(Aggregate(t, cs[..k]), cs[k])
  {
    assert cs[..k + 1][..k] == cs[..k];
  }

  /** Delivering a stream in two parts is the same as delivering it at once. */
  lemma {:induction false} AggregateAppend(t: Turn, a: seq<Chunk>, b: seq<Chunk>)
    ensures Aggregate(t, a + b) == Aggregate(Aggregate(t, a), b)
  {
    if b == [] {
      assert a + b == a;
    } else {
      var b' := b[..|b| - 1];
      var last := b[|b| - 1];
      AggregateAppend(t, a, b');
      assert (a + b)[..|a + b| - 1] == a + b';
      assert Aggregate(t, a + b) == ApplyChunk(Aggregate(t, a + b'), last);
      assert Aggregate(Aggregate(t, a), b) == ApplyChunk(Aggregate(Aggregate(t, a), b'), last);
    }
  }

  // The fragments of one tool call and what they assemble into.

  /** The first deltas, in order, of the chunks that address tool call `i`. */
  function Fragments(cs: seq<Chunk>, i: nat): seq<ToolCallDelta>
  {
    if cs == [] then []
    else Fragments(cs[..|cs| - 1], i) + Addressing(cs[|cs| - 1], i)
  }

  function Addressing(c: Chunk, i: nat): seq<ToolCallDelta> {
    match FirstDelta(c)
    case Some(d) => if d.index == i then [d] else []
    case None => []
  }

  /** The arguments text of the fragments, concatenated in order. */
  function ArgumentsOf(frags: seq<ToolCallDelta>): string
  {
    if frags == [] then "" else ArgumentsOf(frags[..|frags| - 1]) + OrElse(frags[|frags| - 1].arguments, "")
  }

  /** The last non-empty name among the fragments, or ''. */
  function NameOf(frags: seq<ToolCallDelta>): string
  {
    if frags == [] then ""
    else if Truthy(frags[|frags| - 1].name) then frags[|frags| - 1].name.value
    else NameOf(frags[..|frags| - 1])
  }

  /** The last non-empty id among the fragments after the first; otherwise the
      first fragment's id as it came. */
  function IdOf(frags: seq<ToolCallDelta>): Option<string>
  {
    if |frags| == 0 then None
    else if |frags| == 1 then frags[0].id
    else if Truthy(frags[|frags| - 1].id) then frags[|frags| - 1].id
    else IdOf(frags[..|frags| - 1])
  }

  /** Position `i` of the buffer holds a tool call exactly when some chunk
      addressed `i`, and that call is what its fragments assemble into. */
  predicate EntryMatches(calls: ToolCallList, cs: seq<Chunk>, i: nat) {
    var frags := Fragments(cs, i);
    if i < |calls| && calls[i].Some? then
      |frags| > 0 && calls[i].value == ToolInvocation(IdOf(frags), i, NameOf(frags), ArgumentsOf(frags))
    else
      |frags| == 0
  }

  ghost predicate Assembled(calls: ToolCallList, cs: seq<Chunk>) {
    && (|calls| > 0 ==> calls[|calls| - 1].Some?)
    && forall i: nat :: EntryMatches(calls, cs, i)
  }

  lemma FragmentsSnoc(p: seq<Chunk>, c: Chunk, i: nat)
    ensures Fragments(p + [c], i) == Fragments(p, i) + Addressing(c, i)
  {
    assert (p + [c])[..|p|] == p;
  }

  lemma MergeSeedAt(calls: ToolCallList, p: seq<Chunk>, d: ToolCallDelta)
    requires |Fragments(p, d.index)| == 0
    ensures EntryMatches(SetAt(calls, d.index, Seed(d)), p + [Chunk(None, [d], None)], d.index)
  {
    var c := Chunk(None, [d], None);
    FragmentsSnoc(p, c, d.index);
    var frags := Fragments(p + [c], d.index);
    assert frags == [d];
    assert frags[..0] == [];
  }

  lemma MergeExistingAt(calls: ToolCallList, p: seq<Chunk>, c: Chunk, d: ToolCallDelta)
    requires FirstDelta(c) == Some(d)
    requires d.index < |calls| && calls[d.index].Some? && EntryMatches(calls, p, d.index)
    ensures EntryMatches(calls[d.index := Some(Merge(calls[d.index].value, d))], p + [c], d.index)
  {
    FragmentsSnoc(p, c, d.index);
    var frags := Fragments(p, d.index);
    var frags' := frags + [d];
    assert Fragments(p + [c], d.index) == frags';
    assert frags'[..|frags'| - 1] == frags;
  }

  lemma MergeOtherAt(calls: ToolCallList, p: seq<Chunk>, c: Chunk, i: nat)
    requires EntryMatches(calls, p, i)
    requires FirstDelta(c).None? || FirstDelta(c).value.index != i
    ensures EntryMatches(MergeToolCalls(calls, c), p + [c], i)
  {
    FragmentsSnoc(p, c, i);
    assert Fragments(p + [c], i) == Fragments(p, i);
  }

  lemma MergeAt(calls: ToolCallList, p: seq<Chunk>, c: Chunk, i: nat)
    requires EntryMatches(calls, p, i)
    ensures EntryMatches(MergeToolCalls(calls, c), p + [c], i)
  {
    match FirstDelta(c)
    case None =>
      MergeOtherAt(calls, p, c, i);
    case Some(d) =>
      if d.index != i {
        MergeOtherAt(calls, p, c, i);
      } else if d.index < |calls| && calls[d.index].Some? {
        MergeExistingAt(calls, p, c, d);
      } else {
        FragmentsSnoc(p, c, i);
        FragmentsSnoc(p, Chunk(None, [d], None), i);
        MergeSeedAt(calls, p, d);
      }
  }

  lemma MergeStep(calls: ToolCallList, p: seq<Chunk>, c: Chunk)
    requires Assembled(calls, p)
    ensures Assembled(MergeToolCalls(calls, c), p + [c])
  {
    forall i: nat ensures EntryMatches(MergeToolCalls(calls, c), p + [c], i) {
      MergeAt(calls, p, c, i);
    }
  }

  /** The tool-call buffer after a stream is exactly what the fragments of each
      index assemble into: arguments are the in-order concatenation of the
      fragments' arguments, name and id the last non-empty ones. */
  lemma {:induction false} AggregateToolCalls(cs: seq<Chunk>)
    ensures Assembled(Aggregate(EmptyTurn, cs).toolCalls, cs)
  {
    if cs == [] {
      forall i: nat ensures EntryMatches([], cs, i) {
      }
    } else {
      var p := cs[..|cs| - 1];
      AggregateToolCalls(p);
      MergeStep(Aggregate(EmptyTurn, p).toolCalls, p, cs[|cs| - 1]);
      assert p + [cs[|cs| - 1]] == cs;
    }
  }

  /** Two fragment lists that assemble into the same tool call (or are both empty). */
  predicate SameAssembly(fa: seq<ToolCallDelta>, fb: seq<ToolCallDelta>) {
    fa == fb
    || (|fa| > 0 && |fb| > 0 && IdOf(fa) == IdOf(fb) && NameOf(fa) == NameOf(fb) && ArgumentsOf(fa) == ArgumentsOf(fb))
  }

  /** Two buffers that describe the same fragments are equal. */
  lemma AssembledUnique(a: ToolCallList, b: ToolCallList, ca: seq<Chunk>, cb: seq<Chunk>)
    requires Assembled(a, ca) && Assembled(b, cb)
    requires forall i: nat :: SameAssembly(Fragments(ca, i), Fragments(cb, i))
    ensures a == b
  {
    if |b| > 0 {
      var i := |b| - 1;
      assert EntryMatches(a, ca, i) && EntryMatches(b, cb, i);
      assert SameAssembly(Fragments(ca, i), Fragments(cb, i));
      assert i < |a|;
    }
    if |a| > 0 {
      var i := |a| - 1;
      assert EntryMatches(a, ca, i) && EntryMatches(b, cb, i);
      assert SameAssembly(Fragments(ca, i), Fragments(cb, i));
      assert i < |b|;
    }
    forall i | 0 <= i < |a| ensures a[i] == b[i] {
      assert EntryMatches(a, ca, i) && EntryMatches(b, cb, i);
      assert SameAssembly(Fragments(ca, i), Fragments(cb, i));
    }
  }

  lemma {:induction false} FragmentsAppend(a: seq<Chunk>, b: seq<Chunk>, i: nat)
    ensures Fragments(a + b, i) == Fragments(a, i) + Fragments(b, i)
  {
    if b == [] {
      assert a + b == a;
    } else {
      var b' := b[..|b| - 1];
      var last := b[|b| - 1];
      FragmentsAppend(a, b', i);
      assert (a + b)[..|a + b| - 1] == a + b';
      assert Fragments(a + b, i) == Fragments(a + b', i) + Addressing(last, i);
      assert Fragments(b, i) == Fragments(b', i) + Addressing(last, i);
      ConcatAssoc(Fragments(a, i), Fragments(b', i), Addressing(last, i));
    }
  }

  lemma {:induction false} ArgumentsOfAppend(a: seq<ToolCallDelta>, b: seq<ToolCallDelta>)
    ensures ArgumentsOf(a + b) == ArgumentsOf(a) + ArgumentsOf(b)
  {
    if b == [] {
      assert a + b == a;
    } else {
      var b' := b[..|b| - 1];
      var last := OrElse(b[|b| - 1].arguments, "");
      ArgumentsOfAppend(a, b');
      assert (a + b)[..|a + b| - 1] == a + b';
      assert ArgumentsOf(a + b) == ArgumentsOf(a + b') + last;
      assert ArgumentsOf(b) == ArgumentsOf(b') + last;
      ConcatAssoc(ArgumentsOf(a), ArgumentsOf(b'), last);
    }
  }


  lemma {:induction false} NameOfCongruent(a: seq<ToolCallDelta>, b: seq<ToolCallDelta>, q: seq<ToolCallDelta>)
    requires NameOf(a) == NameOf(b)
    ensures NameOf(a + q) == NameOf(b + q)
  {
    if q == [] {
      assert a + q == a && b + q == b;
    } else {
      var q' := q[..|q| - 1];
      NameOfCongruent(a, b, q');
      assert (a + q)[..|a + q| - 1] == a + q';
      assert (b + q)[..|b + q| - 1] == b + q';
    }
  }

  lemma {:induction false} IdOfCongruent(a: seq<ToolCallDelta>, b: seq<ToolCallDelta>, q: seq<ToolCallDelta>)
    requires |a| > 0 && |b| > 0 && IdOf(a) == IdOf(b)
    ensures IdOf(a + q) == IdOf(b + q)
  {
    if q == [] {
      assert a + q == a && b + q == b;
    } else {
      var q' := q[..|q| - 1];
      IdOfCongruent(a, b, q');
      assert (a + q)[..|a + q| - 1] == a + q';
      assert (b + q)[..|b + q| - 1] == b + q';
    }
  }

  /** The chunk that carries the first part of a split fragment. */
  function FirstPart(c: Chunk, a1: string): Chunk
    requires |c.toolCalls| > 0
  {
    c.(toolCalls := [c.toolCalls[0].(arguments := Some(a1))] + c.toolCalls[1..])
  }

  /** The chunk that carries the rest of a split fragment: only arguments. */
  function SecondPart(c: Chunk, a2: string): Chunk
    requires |c.toolCalls| > 0
  {
    Chunk(None, [ToolCallDelta(c.toolCalls[0].index, None, None, Some(a2))], None)
  }

  lemma SplitArguments(pre: seq<ToolCallDelta>, d: ToolCallDelta, d1: ToolCallDelta, d2: ToolCallDelta,
                       post: seq<ToolCallDelta>, a1: string, a2: string)
    requires d.arguments == Some(a1 + a2) && d1.arguments == Some(a1) && d2.arguments == Some(a2)
    ensures ArgumentsOf(pre + [d] + post) == ArgumentsOf(pre + [d1, d2] + post)
  {
    assert ArgumentsOf(pre + [d]) == ArgumentsOf(pre + [d1, d2]) by {
      assert ArgumentsOf([d]) == a1 + a2 by { assert [d][..0] == []; }
      assert ArgumentsOf([d1, d2]) == a1 + a2 by {
        assert [d1, d2][..1] == [d1];
        assert [d1][..0] == [];
      }
      ArgumentsOfAppend(pre, [d]);
      ArgumentsOfAppend(pre, [d1, d2]);
    }
    ArgumentsOfAppend(pre + [d], post);
    ArgumentsOfAppend(pre + [d1, d2], post);
  }

  lemma SplitName(pre: seq<ToolCallDelta>, d: ToolCallDelta, d1: ToolCallDelta, d2: ToolCallDelta, post: seq<ToolCallDelta>)
    requires d1.name == d.name && d2.name.None?
    ensures NameOf(pre + [d] + post) == NameOf(pre + [d1, d2] + post)
  {
    assert NameOf(pre + [d1, d2]) == NameOf(pre + [d1]) by {
      assert (pre + [d1, d2])[..|pre| + 1] == pre + [d1];
    }
    assert NameOf(pre + [d1]) == NameOf(pre + [d]) by {
      assert (pre + [d1])[..|pre|] == pre;
      assert (pre + [d])[..|pre|] == pre;
    }
    NameOfCongruent(pre + [d], pre + [d1, d2], post);
  }

  lemma SplitId(pre: seq<ToolCallDelta>, d: ToolCallDelta, d1: ToolCallDelta, d2: ToolCallDelta, post: seq<ToolCallDelta>)
    requires d1.id == d.id && d2.id.None?
    ensures IdOf(pre + [d] + post) == IdOf(pre + [d1, d2] + post)
  {
    assert IdOf(pre + [d1, d2]) == IdOf(pre + [d1]) by {
      assert (pre + [d1, d2])[..|pre| + 1] == pre + [d1];
    }
    assert IdOf(pre + [d1]) == IdOf(pre + [d]) by {
      assert (pre + [d1])[..|pre|] == pre;
      assert (pre + [d])[..|pre|] == pre;
    }
    IdOfCongruent(pre + [d], pre + [d1, d2], post);
  }

  /** The fragment lists before and after splitting one fragment in two
      assemble into the same tool call. */
  lemma SplitFragmentsSame(pre: seq<ToolCallDelta>, d: ToolCallDelta, post: seq<ToolCallDelta>, a1: string, a2: string)
    requires d.arguments == Some(a1 + a2)
    ensures SameAssembly(pre + [d] + post,
                         pre + [d.(arguments := Some(a1)), ToolCallDelta(d.index, None, None, Some(a2))] + post)
  {
    var d1 := d.(arguments := Some(a1));
    var d2 := ToolCallDelta(d.index, None, None, Some(a2));
    SplitArguments(pre, d, d1, d2, post, a1, a2);
    SplitName(pre, d, d1, d2, post);
    SplitId(pre, d, d1, d2, post);
  }

  lemma SplitFragmentAt(before: seq<Chunk>, c: Chunk, after: seq<Chunk>, a1: string, a2: string, i: nat)
    requires |c.toolCalls| > 0 && c.toolCalls[0].arguments == Some(a1 + a2)
    ensures SameAssembly(Fragments(before + [c] + after, i),
                         Fragments(before + [FirstPart(c, a1), SecondPart(c, a2)] + after, i))
  {
    var c1, c2 := FirstPart(c, a1), SecondPart(c, a2);
    FragmentsAppend(before + [c], after, i);
    FragmentsAppend(before, [c], i);
    FragmentsAppend(before + [c1, c2], after, i);
    FragmentsAppend(before, [c1, c2], i);
    FragmentsSnoc([], c, i);
    FragmentsSnoc([], c1, i);
    FragmentsSnoc([c1], c2, i);
    assert [] + [c] == [c] && [] + [c1] == [c1] && [c1] + [c2] == [c1, c2];
    var pre, post := Fragments(before, i), Fragments(after, i);
    var d := c.toolCalls[0];
    if d.index == i {
      assert Fragments([c1, c2], i) == [d.(arguments := Some(a1)), ToolCallDelta(d.index, None, None, Some(a2))];
      SplitFragmentsSame(pre, d, post, a1, a2);
    } else {
      assert Fragments([c], i) == [] && Fragments([c1, c2], i) == [];
    }
  }

  /** Splitting one fragment's arguments over two chunks does not change the
      assembled tool calls: delivery chunking is invisible. */
  lemma SplitFragmentInvisible(before: seq<Chunk>, c: Chunk, after: seq<Chunk>, a1: string, a2: string)
    requires |c.toolCalls| > 0 && c.toolCalls[0].arguments == Some(a1 + a2)
    ensures Aggregate(EmptyTurn, before + [c] + after).toolCalls
         == Aggregate(EmptyTurn, before + [FirstPart(c, a1), SecondPart(c, a2)] + after).toolCalls
  {
    var ca := before + [c] + after;
    var cb := before + [FirstPart(c, a1), SecondPart(c, a2)] + after;
    AggregateToolCalls(ca);
    AggregateToolCalls(cb);
    forall i: nat ensures SameAssembly(Fragments(ca, i), Fragments(cb, i)) {
      SplitFragmentAt(before, c, after, a1, a2, i);
    }
    AssembledUnique(Aggregate(EmptyTurn, ca).toolCalls, Aggregate(EmptyTurn, cb).toolCalls, ca, cb);
  }
}
