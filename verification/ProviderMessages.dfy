/** Neighbouring tool-call segments of one model call become one provider message (adapters/langchain_adapter.py). */
module ProviderMessages {
  import opened Wrappers
  import opened Seqs
  import opened ProviderSegments
  import Decimal

  datatype VisibleCall = VisibleCall(id: string, name: string, args: string)

  datatype ProviderMessage =
    | Single(segment: Segment)
    | Merged(turnId: Option<string>, modelCallId: Option<string>, count: nat, text: string, calls: seq<VisibleCall>)

  predicate IsEntry(c: RawCall) {
    c.RawCall?
  }

  /** The calls of a content entry that carry a name; a missing id is made from the name and the entry's position. */
  function Normalized(entries: seq<RawCall>): seq<VisibleCall> {
    if |entries| == 0 then []
    else
      var n := |entries| - 1;
      var c := entries[n];
      Normalized(entries[..n])
      + (if c.RawCall? && c.name != "" then
           [VisibleCall(if c.id != "" then c.id else c.name + "_" + Decimal.Print(n), c.name, c.args)]
         else [])
  }

  /** The calls a provider sees in one segment. */
  function Visible(s: Segment): seq<VisibleCall> {
    Normalized(Filter(IsEntry, RawCalls(s)))
  }

  function TextOf(s: Segment): string {
    s.body.text
  }

  function AllVisible(segments: seq<Segment>): seq<VisibleCall> {
    if |segments| == 0 then [] else AllVisible(segments[..|segments| - 1]) + Visible(segments[|segments| - 1])
  }

  /** The first text that is not empty. */
  function FirstText(segments: seq<Segment>): string {
    if |segments| == 0 then ""
    else if FirstText(segments[..|segments| - 1]) != "" then FirstText(segments[..|segments| - 1])
    else TextOf(segments[|segments| - 1])
  }

  predicate OfCall(s: Segment, turnId: Option<string>, modelCallId: Option<string>) {
    |Visible(s)| > 0 && s.turnId == turnId && s.modelCallId == modelCallId
  }

  /** Tool-call segments of one and the same model call. */
  ghost predicate OneModelCall(run: seq<Segment>, turnId: Option<string>, modelCallId: Option<string>) {
    forall i | 0 <= i < |run| :: OfCall(run[i], turnId, modelCallId)
  }

  function Extent(m: ProviderMessage): nat {
    if m.Single? then 1 else m.count
  }

  ghost predicate Renders(m: ProviderMessage, run: seq<Segment>) {
    match m
    case Single(s) => run == [s]
    case Merged(turnId, modelCallId, count, text, calls) =>
      |run| == count >= 2 && OneModelCall(run, turnId, modelCallId) && text == FirstText(run)
          && calls == AllVisible(run)
  }

  /** The messages stand for consecutive stretches of the segments that together make up all of them. */
  ghost predicate Covers(ms: seq<ProviderMessage>, segments: seq<Segment>) {
    if |ms| == 0 then |segments| == 0
    else
      var n, last := |ms| - 1, ms[|ms| - 1];
      Extent(last) <= |segments|
      && Renders(last, segments[|segments| - Extent(last)..])
      && Covers(ms[..n], segments[..|segments| - Extent(last)])
  }

  /** A message to which a following segment of the same model call would have been joined. */
  predicate Joins(m: ProviderMessage, s: Segment) {
    match m
    case Single(first) => |Visible(first)| > 0 && OfCall(s, first.turnId, first.modelCallId)
    case Merged(turnId, modelCallId, _, _, _) => OfCall(s, turnId, modelCallId)
  }

  /** The first `n` segments from `start` read as one message of their model call. */
  ghost predicate Gathered(segments: seq<Segment>, start: nat, n: nat, text: string, calls: seq<VisibleCall>)
    requires start + n <= |segments| && n > 0
  {
    var run := segments[start..start + n];
    && OneModelCall(run, segments[start].turnId, segments[start].modelCallId)
    && text == FirstText(run) && calls == AllVisible(run)
  }

  lemma GatherFirst(segments: seq<Segment>, start: nat)
    requires start < |segments| && |Visible(segments[start])| > 0
    ensures Gathered(segments, start, 1, TextOf(segments[start]), Visible(segments[start]))
  {
    var first := segments[start];
    assert segments[start..start + 1] == [first] && [first][..0] == [];
    assert AllVisible([first]) == AllVisible([first][..0]) + Visible(first);
  }

  lemma GatherNext(segments: seq<Segment>, start: nat, n: nat, text: string, calls: seq<VisibleCall>)
    requires start + n < |segments| && n > 0 && Gathered(segments, start, n, text, calls)
    requires OfCall(segments[start + n], segments[start].turnId, segments[start].modelCallId)
    ensures var next := segments[start + n];
            Gathered(segments, start, n + 1,
                     if text == "" && TextOf(next) != "" then TextOf(next) else text, calls + Visible(next))
  {
    var run, longer := segments[start..start + n], segments[start..start + n + 1];
    assert longer == run + [segments[start + n]] && longer[..n] == run;
  }

  lemma GatheredRenders(segments: seq<Segment>, start: nat, n: nat, text: string, calls: seq<VisibleCall>)
    requires start + n <= |segments| && n >= 2 && Gathered(segments, start, n, text, calls)
    ensures Renders(Merged(segments[start].turnId, segments[start].modelCallId, n, text, calls),
                    segments[start..start + n])
  {
  }

  method MergedMessage(segments: seq<Segment>, start: nat) returns (m: Option<ProviderMessage>)
    requires start < |segments|
    ensures m.Some? ==> m.value.Merged? && start + m.value.count <= |segments|
                        && Renders(m.value, segments[start..start + m.value.count])
                        && (start + m.value.count < |segments| ==> !Joins(m.value, segments[start + m.value.count]))
    ensures m.None? && start + 1 < |segments| ==> !Joins(Single(segments[start]), segments[start + 1])
  {
    var first := segments[start];
    if |Visible(first)| == 0 {
      return None;
    }
    var text, calls, consumed := TextOf(first), Visible(first), 1;
    GatherFirst(segments, start);
    while start + consumed < |segments| && OfCall(segments[start + consumed], first.turnId, first.modelCallId)
      invariant 1 <= consumed && start + consumed <= |segments|
      invariant Gathered(segments, start, consumed, text, calls)
    {
      var current := segments[start + consumed];
      GatherNext(segments, start, consumed, text, calls);
      if text == "" && TextOf(current) != "" {
        text := TextOf(current);
      }
      calls := calls + Visible(current);
      consumed := consumed + 1;
    }
    if consumed == 1 {
      return None;
    }
    GatheredRenders(segments, start, consumed, text, calls);
    m := Some(Merged(first.turnId, first.modelCallId, consumed, text, calls));
  }

  method NextMessage(segments: seq<Segment>, start: nat) returns (m: ProviderMessage)
    requires start < |segments|
    ensures 1 <= Extent(m) && start + Extent(m) <= |segments| && Renders(m, segments[start..start + Extent(m)])
    ensures start + Extent(m) < |segments| ==> !Joins(m, segments[start + Extent(m)])
  {
    var merged := MergedMessage(segments, start);
    if merged.Some? {
      return merged.value;
    }
    assert segments[start..start + 1] == [segments[start]];
    m := Single(segments[start]);
  }

  /**
   * Turns segments into messages: every segment is rendered once, in order, and no message could still be joined with
   * the segment that follows it.
   */
  method MessagesFromSegments(segments: seq<Segment>) returns (ms: seq<ProviderMessage>)
    ensures Covers(ms, segments)
    ensures Maximal(ms, segments)
  {
    ms := [];
    var index := 0;
    NoProgress(segments);
    while index < |segments|
      invariant index <= |segments|
      invariant Progress(ms, segments, index)
      decreases |segments| - index
    {
      var next := NextMessage(segments, index);
      OneMoreMessage(ms, segments, index, next);
      ms := ms + [next];
      index := index + Extent(next);
    }
    ProgressDone(ms, segments);
  }

  /** No message is followed by a segment it should have taken in. */
  ghost predicate Maximal(ms: seq<ProviderMessage>, segments: seq<Segment>)
    requires Covers(ms, segments)
  {
    if |ms| <= 1 then true
    else
      var at := |segments| - Extent(ms[|ms| - 1]);
      at < |segments| && !Joins(ms[|ms| - 2], segments[at]) && Maximal(ms[..|ms| - 1], segments[..at])
  }

  /** The messages so far render the first `index` segments, and the last of them could not take in the next one. */
  ghost predicate Progress(ms: seq<ProviderMessage>, segments: seq<Segment>, index: nat)
    requires index <= |segments|
  {
    && Covers(ms, segments[..index]) && Maximal(ms, segments[..index])
    && (|ms| > 0 && index < |segments| ==> !Joins(ms[|ms| - 1], segments[index]))
  }

  lemma NoProgress(segments: seq<Segment>)
    ensures Progress([], segments, 0)
  {
    assert segments[..0] == [];
  }

  lemma ProgressDone(ms: seq<ProviderMessage>, segments: seq<Segment>)
    requires Progress(ms, segments, |segments|)
    ensures Covers(ms, segments) && Maximal(ms, segments)
  {
    assert segments[..|segments|] == segments;
  }

  lemma OneMoreMessage(ms: seq<ProviderMessage>, segments: seq<Segment>, index: nat, next: ProviderMessage)
    requires index < |segments| && index + Extent(next) <= |segments| && Progress(ms, segments, index)
    requires Renders(next, segments[index..index + Extent(next)])
    requires index + Extent(next) < |segments| ==> !Joins(next, segments[index + Extent(next)])
    ensures Progress(ms + [next], segments, index + Extent(next))
  {
    CoversSnoc(ms, segments, index, next);
    MaximalSnoc(ms, segments, index, next);
  }

  lemma CoversSnoc(ms: seq<ProviderMessage>, segments: seq<Segment>, index: nat, next: ProviderMessage)
    requires index + Extent(next) <= |segments| && Covers(ms, segments[..index])
    requires Renders(next, segments[index..index + Extent(next)])
    ensures Covers(ms + [next], segments[..index + Extent(next)])
  {
    var taken := segments[..index + Extent(next)];
    assert taken[index..] == segments[index..index + Extent(next)];
    assert taken[..index] == segments[..index];
    assert (ms + [next])[..|ms|] == ms;
  }

  lemma MaximalSnoc(ms: seq<ProviderMessage>, segments: seq<Segment>, index: nat, next: ProviderMessage)
    requires index + Extent(next) <= |segments| && index < |segments| && Covers(ms, segments[..index])
    requires Covers(ms + [next], segments[..index + Extent(next)]) && Maximal(ms, segments[..index])
    requires Renders(next, segments[index..index + Extent(next)])
    requires |ms| > 0 ==> !Joins(ms[|ms| - 1], segments[index])
    ensures Maximal(ms + [next], segments[..index + Extent(next)])
  {
    var taken := segments[..index + Extent(next)];
    assert taken[..index] == segments[..index];
    assert (ms + [next])[..|ms|] == ms;
  }

  // ---------------------------------------------------------------- conservation

  function MessageCalls(m: ProviderMessage): seq<VisibleCall> {
    if m.Single? then Visible(m.segment) else m.calls
  }

  function AllCalls(ms: seq<ProviderMessage>): seq<VisibleCall> {
    if |ms| == 0 then [] else AllCalls(ms[..|ms| - 1]) + MessageCalls(ms[|ms| - 1])
  }

  lemma {:induction false} VisibleConcat(a: seq<Segment>, b: seq<Segment>)
    ensures AllVisible(a + b) == AllVisible(a) + AllVisible(b)
  {
    if |b| == 0 {
      assert a + b == a;
    } else {
      var n := |b| - 1;
      assert (a + b)[..|a + b| - 1] == a + b[..n];
      VisibleConcat(a, b[..n]);
      ConcatAssoc(AllVisible(a), AllVisible(b[..n]), Visible(b[n]));
    }
  }

  lemma RendersAllCalls(m: ProviderMessage, run: seq<Segment>)
    requires Renders(m, run)
    ensures MessageCalls(m) == AllVisible(run)
  {
    if m.Single? {
      assert [m.segment][..0] == [];
      assert AllVisible([m.segment]) == AllVisible([m.segment][..0]) + Visible(m.segment);
    }
  }

  /** Merging neither loses nor repeats nor reorders a call. */
  lemma {:induction false} CallsConserved(ms: seq<ProviderMessage>, segments: seq<Segment>)
    requires Covers(ms, segments)
    ensures AllCalls(ms) == AllVisible(segments)
    ensures |ms| <= |segments|
  {
    if |ms| > 0 {
      var n, last := |ms| - 1, ms[|ms| - 1];
      var at := |segments| - Extent(last);
      var front, run := segments[..at], segments[at..];
      CallsConserved(ms[..n], front);
      VisibleConcat(front, run);
      RendersAllCalls(last, run);
      assert segments == front + run;
    }
  }
}
