/**
 * From context segments to provider messages (adapters/langchain_adapter.py): tool-call ids used twice in one context
 * get new ids, their results follow, and neighbouring tool-call segments of one model call become one message.
 */
module ProviderSegments {
  import opened Wrappers
  import opened Seqs
  import Decimal

  /** A raw call entry; an absent id or name is the empty string, and an entry that is no object is `Junk`. */
  datatype RawCall = RawCall(id: string, name: string, args: string) | Junk

  datatype Body = Plain(text: string) | Calls(text: string, calls: seq<RawCall>) | Result(callId: string, text: string)

  datatype Segment = Segment(
    seqNo: int,
    role: string,
    kind: string,
    turnId: Option<string>,
    modelCallId: Option<string>,
    toolCallId: Option<string>,
    body: Body)

  predicate IsCallSegment(s: Segment) {
    s.role == "assistant" && s.kind in {"tool_call", "assistant_tool_call"}
  }

  function RawCalls(s: Segment): seq<RawCall> {
    if IsCallSegment(s) && s.body.Calls? then s.body.calls else []
  }

  predicate HasId(c: RawCall) {
    c.RawCall? && c.id != ""
  }

  // ---------------------------------------------------------------- ids used more than once

  /** How often an id occurs among calls. */
  function CountIn(calls: seq<RawCall>, d: string): nat {
    if |calls| == 0 then 0
    else
      var c := calls[|calls| - 1];
      CountIn(calls[..|calls| - 1], d) + (if HasId(c) && c.id == d then 1 else 0)
  }

  function CountAll(lists: seq<seq<RawCall>>, d: string): nat {
    if |lists| == 0 then 0 else CountAll(lists[..|lists| - 1], d) + CountIn(lists[|lists| - 1], d)
  }

  function CallLists(segments: seq<Segment>): seq<seq<RawCall>> {
    Map(RawCalls, segments)
  }

  function Ids(lists: seq<seq<RawCall>>): set<string> {
    set i, j | 0 <= i < |lists| && 0 <= j < |lists[i]| && HasId(lists[i][j]) :: lists[i][j].id
  }

  /** The ids that more than one call of the context carries. */
  function Duplicates(segments: seq<Segment>): set<string> {
    set d | d in Ids(CallLists(segments)) && CountAll(CallLists(segments), d) > 1
  }

  ghost predicate Counted(counts: map<string, nat>, count: string -> nat) {
    forall d :: (d in counts <==> count(d) > 0) && (d in counts ==> counts[d] == count(d))
  }

  method FindDuplicates(segments: seq<Segment>) returns (duplicates: set<string>)
    ensures duplicates == Duplicates(segments)
  {
    var counts: map<string, nat> := map[];
    ghost var lists := CallLists(segments);
    for i := 0 to |segments|
      invariant Counted(counts, d => CountAll(lists[..i], d))
    {
      assert lists[..i + 1][..i] == lists[..i];
      counts := CountCalls(d => CountAll(lists[..i], d), counts, RawCalls(segments[i]));
    }
    assert lists[..|segments|] == lists;
    forall d | CountAll(lists, d) > 0 ensures d in Ids(lists) {
      CountedSomewhere(lists, d);
    }
    duplicates := set d | d in counts && counts[d] > 1;
  }

  method CountCalls(ghost earlier: string -> nat, before: map<string, nat>, calls: seq<RawCall>)
      returns (counts: map<string, nat>)
    requires Counted(before, earlier)
    ensures Counted(counts, d => earlier(d) + CountIn(calls, d))
  {
    counts := before;
    for j := 0 to |calls|
      invariant Counted(counts, d => earlier(d) + CountIn(calls[..j], d))
    {
      assert calls[..j + 1][..j] == calls[..j];
      if HasId(calls[j]) {
        counts := counts[calls[j].id := (if calls[j].id in counts then counts[calls[j].id] else 0) + 1];
      }
    }
    assert calls[..|calls|] == calls;
  }

  lemma {:induction false} CountedSomewhere(lists: seq<seq<RawCall>>, d: string)
    requires CountAll(lists, d) > 0
    ensures d in Ids(lists)
  {
    var n := |lists| - 1;
    if CountIn(lists[n], d) > 0 {
      var j := CountedAt(lists[n], d);
      assert lists[n][j].id == d;
    } else {
      CountedSomewhere(lists[..n], d);
      var i, j :| 0 <= i < n && 0 <= j < |lists[..n][i]| && HasId(lists[..n][i][j]) && lists[..n][i][j].id == d;
      assert lists[i][j].id == d;
    }
  }

  lemma {:induction false} CountedAt(calls: seq<RawCall>, d: string) returns (j: nat)
    requires CountIn(calls, d) > 0
    ensures j < |calls| && HasId(calls[j]) && calls[j].id == d
  {
    j := |calls| - 1;
    if !(HasId(calls[j]) && calls[j].id == d) {
      j := CountedAt(calls[..j], d);
    }
  }

  // ---------------------------------------------------------------- remapping

  function NewId(seqNo: int, position: nat): string {
    "ctx_" + Decimal.Print(seqNo) + "_tool_" + Decimal.Print(position)
  }

  function RemapCall(seqNo: int, duplicates: set<string>, c: RawCall, position: nat): RawCall {
    if HasId(c) && c.id in duplicates then c.(id := NewId(seqNo, position)) else c
  }

  function RemapCalls(seqNo: int, duplicates: set<string>, calls: seq<RawCall>): seq<RawCall> {
    seq(|calls|, j requires 0 <= j < |calls| => RemapCall(seqNo, duplicates, calls[j], j + 1))
  }

  type TurnCall = (Option<string>, string)
  type IdMap = map<TurnCall, string>

  /** The new ids of a segment's calls, recorded under turn and old id; a later call of the same id wins. */
  function Record(idMap: IdMap, turn: Option<string>, seqNo: int, calls: seq<RawCall>, duplicates: set<string>): IdMap {
    if |calls| == 0 then idMap
    else
      var n := |calls| - 1;
      var before, c := Record(idMap, turn, seqNo, calls[..n], duplicates), calls[n];
      if HasId(c) && c.id in duplicates then before[(turn, c.id) := NewId(seqNo, n + 1)] else before
  }

  function RecordAll(segments: seq<Segment>, duplicates: set<string>): IdMap {
    if |segments| == 0 then map[]
    else
      var s := segments[|segments| - 1];
      Record(RecordAll(segments[..|segments| - 1], duplicates), s.turnId, s.seqNo, RawCalls(s), duplicates)
  }

  predicate IsToolResult(s: Segment) {
    s.role == "tool" && s.kind == "tool_result"
  }

  function RemapSegment(s: Segment, duplicates: set<string>, idMap: IdMap): Segment {
    if IsCallSegment(s) && s.body.Calls? then
      s.(body := s.body.(calls := RemapCalls(s.seqNo, duplicates, s.body.calls)))
    else if IsToolResult(s) && s.toolCallId.Some? && s.toolCallId.value in duplicates
        && (s.turnId, s.toolCallId.value) in idMap then
      var id := idMap[(s.turnId, s.toolCallId.value)];
      s.(toolCallId := Some(id), body := if s.body.Result? then s.body.(callId := id) else s.body)
    else s
  }

  function Remapped(segments: seq<Segment>, duplicates: set<string>): (r: seq<Segment>)
    ensures |r| == |segments|
  {
    if |segments| == 0 then []
    else
      var front := segments[..|segments| - 1];
      Remapped(front, duplicates) + [RemapSegment(segments[|segments| - 1], duplicates, RecordAll(front, duplicates))]
  }

  method RemapDuplicates(segments: seq<Segment>, duplicates: set<string>) returns (r: seq<Segment>)
    ensures r == Remapped(segments, duplicates)
  {
    r := [];
    var idMap: IdMap := map[];
    for i := 0 to |segments|
      invariant r == Remapped(segments[..i], duplicates)
      invariant idMap == RecordAll(segments[..i], duplicates)
    {
      assert segments[..i + 1][..i] == segments[..i];
      var s := segments[i];
      if IsCallSegment(s) && s.body.Calls? {
        var calls;
        calls, idMap := RemapOneSegment(s.turnId, s.seqNo, s.body.calls, duplicates, idMap);
        r := r + [s.(body := s.body.(calls := calls))];
      } else {
        r := r + [RemapSegment(s, duplicates, idMap)];
      }
    }
    assert segments[..|segments|] == segments;
  }

  lemma RemapCallsSnoc(seqNo: int, duplicates: set<string>, calls: seq<RawCall>, c: RawCall)
    ensures RemapCalls(seqNo, duplicates, calls + [c])
            == RemapCalls(seqNo, duplicates, calls) + [RemapCall(seqNo, duplicates, c, |calls| + 1)]
  {
  }

  lemma RecordSnoc(idMap: IdMap, turn: Option<string>, seqNo: int, calls: seq<RawCall>, c: RawCall,
                   duplicates: set<string>)
    ensures var before := Record(idMap, turn, seqNo, calls, duplicates);
            Record(idMap, turn, seqNo, calls + [c], duplicates)
            == if HasId(c) && c.id in duplicates then before[(turn, c.id) := NewId(seqNo, |calls| + 1)] else before
  {
    assert (calls + [c])[..|calls|] == calls;
  }

  /** Remaps the calls of one segment, recording each new id under its turn and old id. */
  method RemapOneSegment(turn: Option<string>, seqNo: int, raw: seq<RawCall>, duplicates: set<string>, before: IdMap)
      returns (calls: seq<RawCall>, idMap: IdMap)
    ensures calls == RemapCalls(seqNo, duplicates, raw)
    ensures idMap == Record(before, turn, seqNo, raw, duplicates)
  {
    calls, idMap := [], before;
    for j := 0 to |raw|
      invariant calls == RemapCalls(seqNo, duplicates, raw[..j])
      invariant idMap == Record(before, turn, seqNo, raw[..j], duplicates)
    {
      var c := raw[j];
      assert raw[..j + 1] == raw[..j] + [c];
      RemapCallsSnoc(seqNo, duplicates, raw[..j], c);
      RecordSnoc(before, turn, seqNo, raw[..j], c, duplicates);
      calls := calls + [RemapCall(seqNo, duplicates, c, j + 1)];
      if HasId(c) && c.id in duplicates {
        idMap := idMap[(turn, c.id) := NewId(seqNo, j + 1)];
      }
    }
    assert raw[..|raw|] == raw;
  }

  // ---------------------------------------------------------------- what remapping keeps and changes

  /** A call with an id, by its place: the j-th call of the i-th segment. */
  ghost predicate CallAt(segments: seq<Segment>, i: nat, j: nat) {
    i < |segments| && j < |RawCalls(segments[i])| && HasId(RawCalls(segments[i])[j])
  }

  ghost function IdAt(segments: seq<Segment>, i: nat, j: nat): string
    requires CallAt(segments, i, j)
  {
    RawCalls(segments[i])[j].id
  }

  lemma {:induction false} RemappedAt(segments: seq<Segment>, duplicates: set<string>, i: nat)
    requires i < |segments|
    ensures Remapped(segments, duplicates)[i]
            == RemapSegment(segments[i], duplicates, RecordAll(segments[..i], duplicates))
  {
    var n := |segments| - 1;
    if i < n {
      RemappedAt(segments[..n], duplicates, i);
      assert segments[..n][..i] == segments[..i];
    }
  }

  lemma {:induction false} CountOne(calls: seq<RawCall>, j: nat)
    requires j < |calls| && HasId(calls[j])
    ensures CountIn(calls, calls[j].id) > 0
  {
    if j < |calls| - 1 {
      CountOne(calls[..|calls| - 1], j);
    }
  }

  lemma {:induction false} CountTwo(calls: seq<RawCall>, j: nat, k: nat)
    requires j < k < |calls| && HasId(calls[j]) && HasId(calls[k]) && calls[j].id == calls[k].id
    ensures CountIn(calls, calls[j].id) > 1
  {
    if k < |calls| - 1 {
      CountTwo(calls[..|calls| - 1], j, k);
    } else {
      CountOne(calls[..k], j);
    }
  }

  ghost predicate ListedAt(lists: seq<seq<RawCall>>, i: nat, j: nat, d: string) {
    i < |lists| && j < |lists[i]| && HasId(lists[i][j]) && lists[i][j].id == d
  }

  lemma {:induction false} OnePlace(lists: seq<seq<RawCall>>, i: nat, j: nat, d: string)
    requires ListedAt(lists, i, j, d)
    ensures CountAll(lists, d) > 0 && d in Ids(lists)
  {
    var n := |lists| - 1;
    if i < n {
      OnePlace(lists[..n], i, j, d);
    } else {
      CountOne(lists[n], j);
    }
    assert lists[i][j].id == d;
  }

  /** An id found at two places is counted twice. */
  lemma {:induction false} TwoPlaces(lists: seq<seq<RawCall>>, i: nat, j: nat, k: nat, l: nat, d: string)
    requires ListedAt(lists, i, j, d) && ListedAt(lists, k, l, d) && (i < k || (i == k && j < l))
    ensures CountAll(lists, d) > 1
  {
    var n := |lists| - 1;
    if k < n {
      TwoPlaces(lists[..n], i, j, k, l, d);
    } else if i < n {
      OnePlace(lists[..n], i, j, d);
      CountOne(lists[n], l);
    } else {
      CountTwo(lists[n], j, l);
    }
  }

  lemma NewIdInjective(a: int, m: nat, b: int, n: nat)
    requires NewId(a, m) == NewId(b, n)
    ensures a == b && m == n
  {
    Decimal.PrintHasNo(a, '_');
    Decimal.PrintHasNo(b, '_');
    Decimal.Separated("ctx_", "_tool_", Decimal.Print(a), Decimal.Print(m), Decimal.Print(b), Decimal.Print(n));
    Decimal.PrintInjective(a, b);
    Decimal.PrintInjective(m, n);
  }

  predicate LooksRemapped(id: string) {
    |id| >= 4 && id[..4] == "ctx_"
  }

  ghost predicate NoRemappedIds(segments: seq<Segment>) {
    forall i: nat, j: nat | CallAt(segments, i, j) :: !LooksRemapped(IdAt(segments, i, j))
  }

  ghost predicate DistinctSegments(segments: seq<Segment>) {
    forall i, k | 0 <= i < k < |segments| :: segments[i].seqNo != segments[k].seqNo
  }

  lemma NewIdLooksRemapped(seqNo: int, position: nat)
    ensures LooksRemapped(NewId(seqNo, position))
  {
    assert NewId(seqNo, position)[..4] == "ctx_";
  }

  lemma SegmentRemapped(s: Segment, duplicates: set<string>, idMap: IdMap)
    ensures RawCalls(RemapSegment(s, duplicates, idMap)) == RemapCalls(s.seqNo, duplicates, RawCalls(s))
  {
  }

  /** A call keeps its place and everything but its id, and its id too unless that was a duplicate. */
  lemma CallRemapped(segments: seq<Segment>, duplicates: set<string>, i: nat, j: nat)
    ensures CallAt(Remapped(segments, duplicates), i, j) <==> CallAt(segments, i, j)
    ensures CallAt(segments, i, j) ==>
              RawCalls(Remapped(segments, duplicates)[i])[j]
              == RemapCall(segments[i].seqNo, duplicates, RawCalls(segments[i])[j], j + 1)
  {
    if i < |segments| {
      RemappedAt(segments, duplicates, i);
      SegmentRemapped(segments[i], duplicates, RecordAll(segments[..i], duplicates));
      NewIdLooksRemapped(segments[i].seqNo, j + 1);
    }
  }

  lemma {:induction false} OtherIn(calls: seq<RawCall>, j: nat, d: string) returns (l: nat)
    requires j < |calls| && HasId(calls[j]) && calls[j].id == d && CountIn(calls, d) > 1
    ensures l < |calls| && l != j && HasId(calls[l]) && calls[l].id == d
  {
    var n := |calls| - 1;
    if j == n {
      l := CountedAt(calls[..n], d);
    } else if HasId(calls[n]) && calls[n].id == d {
      l := n;
    } else {
      l := OtherIn(calls[..n], j, d);
    }
  }

  lemma {:induction false} OtherPlace(lists: seq<seq<RawCall>>, i: nat, j: nat, d: string) returns (k: nat, l: nat)
    requires ListedAt(lists, i, j, d) && CountAll(lists, d) > 1
    ensures ListedAt(lists, k, l, d) && (k != i || l != j)
  {
    var n := |lists| - 1;
    if i < n && CountIn(lists[n], d) > 0 {
      k := n;
      l := CountedAt(lists[n], d);
    } else if i < n {
      k, l := OtherPlace(lists[..n], i, j, d);
    } else if CountIn(lists[n], d) > 1 {
      k := n;
      l := OtherIn(lists[n], j, d);
    } else {
      CountedSomewhere(lists[..n], d);
      var a, b :| 0 <= a < n && 0 <= b < |lists[..n][a]| && HasId(lists[..n][a][b]) && lists[..n][a][b].id == d;
      k, l := a, b;
    }
  }

  /** A call elsewhere in the context carries the same id. */
  ghost predicate Shared(segments: seq<Segment>, i: nat, j: nat)
    requires CallAt(segments, i, j)
  {
    exists k: nat, l: nat ::
        CallAt(segments, k, l) && (k != i || l != j) && IdAt(segments, k, l) == IdAt(segments, i, j)
  }

  lemma DuplicateIsShared(segments: seq<Segment>, i: nat, j: nat)
    requires CallAt(segments, i, j)
    ensures IdAt(segments, i, j) in Duplicates(segments) <==> Shared(segments, i, j)
  {
    var lists, d := CallLists(segments), IdAt(segments, i, j);
    assert ListedAt(lists, i, j, d);
    if d in Duplicates(segments) {
      var k, l := OtherPlace(lists, i, j, d);
      assert CallAt(segments, k, l) && IdAt(segments, k, l) == d;
    }
    if Shared(segments, i, j) {
      var k: nat, l: nat :| CallAt(segments, k, l) && (k != i || l != j) && IdAt(segments, k, l) == d;
      OnePlace(lists, i, j, d);
      if k < i || (k == i && l < j) {
        TwoPlaces(lists, k, l, i, j, d);
      } else {
        TwoPlaces(lists, i, j, k, l, d);
      }
    }
  }

  /** A call gets a new id exactly when another call of the context shares its id; everything else about it stays. */
  lemma NewIdIffShared(segments: seq<Segment>, i: nat, j: nat)
    requires NoRemappedIds(segments) && CallAt(segments, i, j)
    ensures var r := Remapped(segments, Duplicates(segments));
            && CallAt(r, i, j)
            && (IdAt(r, i, j) != IdAt(segments, i, j) <==> Shared(segments, i, j))
            && RawCalls(r[i])[j] == RawCalls(segments[i])[j].(id := IdAt(r, i, j))
  {
    CallRemapped(segments, Duplicates(segments), i, j);
    DuplicateIsShared(segments, i, j);
    NewIdLooksRemapped(segments[i].seqNo, j + 1);
  }

  /** After remapping no two calls of the context share an id. */
  lemma RemappedIdsDistinct(segments: seq<Segment>, i: nat, j: nat, k: nat, l: nat)
    requires DistinctSegments(segments) && NoRemappedIds(segments)
    requires CallAt(segments, i, j) && CallAt(segments, k, l) && (i < k || (i == k && j < l))
    ensures var r := Remapped(segments, Duplicates(segments));
            CallAt(r, i, j) && CallAt(r, k, l) && IdAt(r, i, j) != IdAt(r, k, l)
  {
    var duplicates := Duplicates(segments);
    CallRemapped(segments, duplicates, i, j);
    CallRemapped(segments, duplicates, k, l);
    if IdAt(segments, i, j) == IdAt(segments, k, l) {
      TwoPlaces(CallLists(segments), i, j, k, l, IdAt(segments, i, j));
      OnePlace(CallLists(segments), i, j, IdAt(segments, i, j));
    }
    NewIdsDiffer(segments[i].seqNo, j + 1, segments[k].seqNo, l + 1);
    NewIdLooksRemapped(segments[i].seqNo, j + 1);
    NewIdLooksRemapped(segments[k].seqNo, l + 1);
  }

  lemma NewIdsDiffer(a: int, m: nat, b: int, n: nat)
    requires a != b || m != n
    ensures NewId(a, m) != NewId(b, n)
  {
    if NewId(a, m) == NewId(b, n) {
      NewIdInjective(a, m, b, n);
    }
  }

  // ---------------------------------------------------------------- results follow their calls

  /** No call before segment `m` but the j-th of the i-th has that turn and id. */
  ghost predicate OnlyCallOfTurn(segments: seq<Segment>, m: nat, i: nat, j: nat)
    requires m <= |segments| && i < m && CallAt(segments, i, j)
  {
    forall k: nat, l: nat | k < m && CallAt(segments, k, l) && segments[k].turnId == segments[i].turnId
                  && IdAt(segments, k, l) == IdAt(segments, i, j) :: k == i && l == j
  }

  lemma {:induction false} RecordKeeps(idMap: IdMap, turn: Option<string>, seqNo: int, calls: seq<RawCall>,
                                       duplicates: set<string>, key: TurnCall)
    requires forall l | 0 <= l < |calls| && HasId(calls[l]) :: (turn, calls[l].id) != key
    ensures var r := Record(idMap, turn, seqNo, calls, duplicates);
            (key in r <==> key in idMap) && (key in idMap ==> r[key] == idMap[key])
  {
    if |calls| > 0 {
      RecordKeeps(idMap, turn, seqNo, calls[..|calls| - 1], duplicates, key);
    }
  }

  lemma {:induction false} RecordSets(idMap: IdMap, turn: Option<string>, seqNo: int, calls: seq<RawCall>,
                                      duplicates: set<string>, j: nat)
    requires j < |calls| && HasId(calls[j]) && calls[j].id in duplicates
    requires forall l | 0 <= l < |calls| && HasId(calls[l]) && calls[l].id == calls[j].id :: l == j
    ensures var r := Record(idMap, turn, seqNo, calls, duplicates);
            (turn, calls[j].id) in r && r[(turn, calls[j].id)] == NewId(seqNo, j + 1)
  {
    if j < |calls| - 1 {
      RecordSets(idMap, turn, seqNo, calls[..|calls| - 1], duplicates, j);
    }
  }

  lemma RecordAllSnoc(segments: seq<Segment>, duplicates: set<string>, m: nat)
    requires m < |segments|
    ensures RecordAll(segments[..m + 1], duplicates)
            == Record(RecordAll(segments[..m], duplicates), segments[m].turnId, segments[m].seqNo,
                      RawCalls(segments[m]), duplicates)
  {
    assert segments[..m + 1][..m] == segments[..m] && segments[..m + 1][m] == segments[m];
  }

  /** The new id of a call is on record once the first `m` segments have been seen. */
  lemma {:induction false} RecordedCall(segments: seq<Segment>, duplicates: set<string>, m: nat, i: nat, j: nat)
    requires i < m <= |segments| && CallAt(segments, i, j) && IdAt(segments, i, j) in duplicates
    requires OnlyCallOfTurn(segments, m, i, j)
    ensures var key, idMap := (segments[i].turnId, IdAt(segments, i, j)), RecordAll(segments[..m], duplicates);
            key in idMap && idMap[key] == NewId(segments[i].seqNo, j + 1)
    decreases m
  {
    var n, key := m - 1, (segments[i].turnId, IdAt(segments, i, j));
    var turn, seqNo, calls := segments[n].turnId, segments[n].seqNo, RawCalls(segments[n]);
    var before := RecordAll(segments[..n], duplicates);
    RecordAllSnoc(segments, duplicates, n);
    forall l: nat | l < |calls| && HasId(calls[l]) && (turn, calls[l].id) == key ensures i == n && l == j {
      assert CallAt(segments, n, l);
    }
    if i == n {
      RecordSets(before, turn, seqNo, calls, duplicates, j);
    } else {
      RecordedCall(segments, duplicates, n, i, j);
      RecordKeeps(before, turn, seqNo, calls, duplicates, key);
    }
  }

  /**
   * A tool result that names a call of its own turn still names that call after remapping, whether or not the call's id
   * changed, and a structured result stays consistent with its segment.
   */
  lemma ResultFollowsCall(segments: seq<Segment>, i: nat, j: nat, m: nat)
    requires i < m < |segments| && CallAt(segments, i, j) && OnlyCallOfTurn(segments, m, i, j)
    requires IsToolResult(segments[m]) && segments[m].turnId == segments[i].turnId
    requires segments[m].toolCallId == Some(IdAt(segments, i, j))
    ensures var r := Remapped(segments, Duplicates(segments));
            && CallAt(r, i, j) && r[m].toolCallId == Some(IdAt(r, i, j))
            && (segments[m].body.Result? && segments[m].body.callId == IdAt(segments, i, j) ==>
                  r[m].body.Result? && r[m].body.callId == IdAt(r, i, j))
  {
    var duplicates := Duplicates(segments);
    CallRemapped(segments, duplicates, i, j);
    RemappedAt(segments, duplicates, m);
    if IdAt(segments, i, j) in duplicates {
      RecordedCall(segments, duplicates, m, i, j);
    }
  }
}
