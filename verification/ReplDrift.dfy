/**
 * What omission and compression do to the durable projection and to the indexes the process holds: an append names
 * every row the projection had dropped (persistence/conversation.py), the sync hands indexes out by place
 * (runtime/orchestrator.py), and overwrites read the index kept in a message's metadata (runtime/prompt_executor.py).
 */
module ReplDrift {
  import opened Wrappers
  import opened Seqs
  import opened ModelContext
  import opened ConversationLog
  import opened ConversationLaws
  import opened ReplConversation
  import opened ReplAlignment
  import opened SessionRecovery
  import opened ReplMirror
  import opened ReplProjection
  import M = ContextManager
  import E = EvictionLaws
  import H = ReplHistory
  import QC = QueryControl
  import G = TurnGroups

  // ---------------------------------------------------------------- appends after any projection

  /** From `n` rows and expansion `s`: the indexes it lacks, then `count` more rows. */
  ghost predicate NamesAll(n: nat, s: seq<int>, m: nat, t: seq<int>, count: nat) {
    m == n + count && t == s + Unseen(n, s) + Span(n + 1, m)
  }

  lemma NamesAllFirst(n: nat, s: seq<int>, m: nat, t: seq<int>)
    requires n <= m && Within(n, s) && t == s + Unseen(m, s)
    ensures NamesAll(n, s, m, t, m - n)
  {
    UnseenBeyond(n, m, s);
    ConcatAssoc(s, Unseen(n, s), Span(n + 1, m));
  }

  lemma NamesAllThenGrows(n: nat, s: seq<int>, m: nat, t: seq<int>, p: nat, u: seq<int>, a: nat, b: nat)
    requires NamesAll(n, s, m, t, a) && Grows(m, t, p, u, b)
    ensures NamesAll(n, s, p, u, a + b)
  {
    SpansJoin(n, m, p);
    ConcatAssoc(s + Unseen(n, s), Span(n + 1, m), Span(m + 1, p));
  }

  ghost predicate Renamed(runId: string, artifacts: Artifacts, log: Log, after: Log, count: nat) {
    && ValidLog(runId, artifacts, after) && Covering(runId, after)
    && NamesAll(|log.rows|, Expansion(runId, log), |after.rows|, Expansion(runId, after), count)
  }

  lemma FirstAppend(runId: string, artifacts: Artifacts, log: Log, g: Group)
    requires ValidLog(runId, artifacts, log) && NoRepeats(Expansion(runId, log))
             && FirstPrepareError(artifacts, g.messages) == None
    ensures Renamed(runId, artifacts, log, Appended(runId, artifacts, log, g.sessionId, g.messages), |g.messages|)
  {
    var after := Appended(runId, artifacts, log, g.sessionId, g.messages);
    AppendKeepsLog(runId, artifacts, log, g.sessionId, g.messages);
    AppendCoversLog(runId, artifacts, log, g.sessionId, g.messages);
    NamesAllFirst(|log.rows|, Expansion(runId, log), |after.rows|, Expansion(runId, after));
  }

  function Fold(step: (Log, Group) -> Log, log: Log, groups: seq<Group>): Log {
    if |groups| == 0 then log else step(Fold(step, log, groups[..|groups| - 1]), groups[|groups| - 1])
  }

  lemma {:induction false} FoldFirst(step: (Log, Group) -> Log, log: Log, groups: seq<Group>)
    requires |groups| > 0
    ensures Fold(step, log, groups) == Fold(step, step(log, groups[0]), groups[1..])
  {
    var n := |groups| - 1;
    if n == 0 {
      assert groups[..0] == [] && groups[1..] == [];
    } else {
      FoldFirst(step, log, groups[..n]);
      assert groups[1..][..n - 1] == groups[..n][1..];
    }
  }

  lemma {:induction false} AppendAllIsFold(runId: string, artifacts: Artifacts, step: (Log, Group) -> Log, log: Log,
                                           groups: seq<Group>)
    requires forall l, g :: step(l, g) == Appended(runId, artifacts, l, g.sessionId, g.messages)
    ensures AppendAll(runId, artifacts, log, groups) == Fold(step, log, groups)
  {
    if |groups| > 0 {
      AppendAllIsFold(runId, artifacts, step, log, groups[..|groups| - 1]);
    }
  }

  lemma {:induction false} CountFirst(groups: seq<Group>)
    requires |groups| > 0
    ensures RowCount(groups) == |groups[0].messages| + RowCount(groups[1..])
  {
    var n := |groups| - 1;
    if n == 0 {
      assert groups[..0] == [] && groups[1..] == [];
    } else {
      CountFirst(groups[..n]);
      assert groups[1..][..n - 1] == groups[..n][1..];
    }
  }

  lemma AppendAllFirst(runId: string, artifacts: Artifacts, log: Log, groups: seq<Group>)
    requires |groups| > 0
    ensures AppendAll(runId, artifacts, log, groups)
            == AppendAll(runId, artifacts, Appended(runId, artifacts, log, groups[0].sessionId, groups[0].messages),
                         groups[1..])
  {
    var step := (l: Log, g: Group) => Appended(runId, artifacts, l, g.sessionId, g.messages);
    AppendAllIsFold(runId, artifacts, step, log, groups);
    AppendAllIsFold(runId, artifacts, step, step(log, groups[0]), groups[1..]);
    FoldFirst(step, log, groups);
  }

  /**
   * The first append after a projection that left rows out names them all again, in ascending order, before its own.
   */
  lemma AppendsNameEverything(runId: string, artifacts: Artifacts, log: Log, groups: seq<Group>)
    requires ValidLog(runId, artifacts, log) && NoRepeats(Expansion(runId, log)) && AllPrepare(artifacts, groups)
             && |groups| > 0
    ensures Renamed(runId, artifacts, log, AppendAll(runId, artifacts, log, groups), RowCount(groups))
  {
    var g, rest := groups[0], groups[1..];
    var middle := Appended(runId, artifacts, log, g.sessionId, g.messages);
    AppendAllFirst(runId, artifacts, log, groups);
    CountFirst(groups);
    FirstAppend(runId, artifacts, log, g);
    AppendsToCovering(runId, artifacts, middle, rest);
    var after := AppendAll(runId, artifacts, middle, rest);
    NamesAllThenGrows(|log.rows|, Expansion(runId, log), |middle.rows|, Expansion(runId, middle),
                      |after.rows|, Expansion(runId, after), |g.messages|, RowCount(rest));
  }

  // ---------------------------------------------------------------- an overwrite by an omission

  function Dropped(kept: int -> bool): int -> bool {
    i => !kept(i)
  }

  /** The references an omission leaves: those messages of the first n that are not in the protected suffix. */
  function SnapshotRefs(kept: int -> bool, n: nat): seq<Ref> {
    Map(IndexRef, Filter(kept, Span(1, n)))
  }

  lemma SnapshotRefsOk(rows: seq<Row>, kept: int -> bool, n: nat)
    requires n <= |rows|
    ensures RefsOk(rows, SnapshotRefs(kept, n)) && Indexes(SnapshotRefs(kept, n)) == Filter(kept, Span(1, n))
    ensures NoRepeats(Filter(kept, Span(1, n)))
    ensures forall i :: i in Filter(kept, Span(1, n)) <==> 1 <= i <= n && kept(i)
  {
    var s := Filter(kept, Span(1, n));
    IndexesOfRefs(s);
    FilterMeaning(kept, Span(1, n));
    FilterSorted((a: int, b: int) => a < b, kept, Span(1, n));
    forall i | 1 <= i <= n ensures i in Span(1, n) {
      assert Span(1, n)[i - 1] == i;
    }
    forall k | 0 <= k < |s| ensures 1 <= s[k] <= |rows| {
      assert s[k] in s;
    }
  }

  lemma RestBehind(kept: int -> bool, n: nat, m: nat, p: nat, t: seq<int>)
    requires n <= m <= p && t == Filter(kept, Span(1, n)) + Unseen(m, Filter(kept, Span(1, n))) + Span(m + 1, p)
    ensures t == Filter(kept, Span(1, n)) + Filter(Dropped(kept), Span(1, n)) + Span(n + 1, p)
  {
    var seen, rest := Filter(kept, Span(1, n)), Filter(Dropped(kept), Span(1, n));
    FilterMeaning(kept, Span(1, n));
    forall k | 0 <= k < |seen| ensures 1 <= seen[k] <= n {
      assert seen[k] in seen;
    }
    UnseenBeyond(n, m, seen);
    UnseenIsRest(kept, n);
    SpansJoin(n, m, p);
    ConcatAssoc(seen, rest, Span(n + 1, m));
    ConcatAssoc(seen + rest, Span(n + 1, m), Span(m + 1, p));
  }

  lemma UnseenIsRest(kept: int -> bool, n: nat)
    ensures Unseen(n, Filter(kept, Span(1, n))) == Filter(Dropped(kept), Span(1, n))
  {
    var seen := Filter(kept, Span(1, n));
    FilterMeaning(kept, Span(1, n));
    FilterSame(i => i !in seen, Dropped(kept), Span(1, n));
  }

  /** Setting one part of 1..n before the rest changes nothing exactly when no kept index follows one left out. */
  lemma PartitionKeepsOrder(kept: int -> bool, n: nat)
    ensures Filter(kept, Span(1, n)) + Filter(Dropped(kept), Span(1, n)) == Span(1, n)
            <==> forall i, j | 1 <= i < j <= n && kept(j) :: kept(i)
  {
    if forall i, j | 1 <= i < j <= n && kept(j) :: kept(i) {
      InOrder(kept, n);
    }
    var a, b := Filter(kept, Span(1, n)), Filter(Dropped(kept), Span(1, n));
    forall i, j | 1 <= i < j <= n && kept(j) && !kept(i) ensures a + b != Span(1, n) {
      OutOfOrder(kept, n, i, j);
    }
  }

  lemma OutOfOrder(kept: int -> bool, n: nat, i: int, j: int)
    requires 1 <= i < j <= n && kept(j) && !kept(i)
    ensures Filter(kept, Span(1, n)) + Filter(Dropped(kept), Span(1, n)) != Span(1, n)
  {
    var a, b := Filter(kept, Span(1, n)), Filter(Dropped(kept), Span(1, n));
    FilterMeaning(kept, Span(1, n));
    FilterMeaning(Dropped(kept), Span(1, n));
    assert Span(1, n)[i - 1] == i && Span(1, n)[j - 1] == j && Dropped(kept)(i);
    var p :| 0 <= p < |a| && a[p] == j;
    var q :| 0 <= q < |b| && b[q] == i;
    assert (a + b)[p] == j && (a + b)[|a| + q] == i;
  }

  lemma {:induction false} InOrder(kept: int -> bool, n: nat)
    requires forall i, j | 1 <= i < j <= n && kept(j) :: kept(i)
    ensures Filter(kept, Span(1, n)) + Filter(Dropped(kept), Span(1, n)) == Span(1, n)
  {
    if n > 0 {
      InOrder(kept, n - 1);
      assert Span(1, n)[..n - 1] == Span(1, n - 1);
      if kept(n) {
        FilterNone(Dropped(kept), Span(1, n - 1));
      }
    }
  }

  lemma TailSpan(s: seq<int>, n: nat, m: nat)
    requires n <= m
    ensures s + Span(n + 1, m) == Span(1, m) <==> s == Span(1, n)
  {
    SpanSplit(n, m);
    if s + Span(n + 1, m) == Span(1, m) {
      assert |s| == n;
      assert s == (s + Span(n + 1, m))[..n] == Span(1, m)[..n] == Span(1, n);
    }
  }

  lemma AlignedOnce(conversation: seq<Message>, held: seq<int>, other: seq<int>)
    requires Aligned(conversation, held)
    ensures Aligned(conversation, other) <==> held == other
  {
    if Aligned(conversation, other) {
      forall i | 0 <= i < |held| ensures held[i] == other[i] {
        assert conversation[i].durableIndex == Some(held[i]);
      }
    }
  }

  // ---------------------------------------------------------------- a turn with an omission

  /**
   * No omission fires; or one does and the turn hands the blanked history back; or it does, the projection is
   * overwritten, and the turn ends without handing it back: it was interrupted, or exceeded the context limit.
   */
  datatype Omission = NoOmission | WrittenBack | Lost

  /** The log after a turn: its user row, the overwrite if any, its other rows. */
  function LogWith(runId: string, artifacts: Artifacts, log: Log, groups: seq<Group>, refs: Option<seq<Ref>>): Log
    requires |groups| > 0
  {
    var begun := Appended(runId, artifacts, log, groups[0].sessionId, groups[0].messages);
    AppendAll(runId, artifacts, if refs.Some? then Overwritten(runId, begun, refs.value) else begun, groups[1..])
  }

  function OmissionRefs(conversation: seq<Message>, retain: int, om: Omission): Option<seq<Ref>> {
    if om.NoOmission? then None else Some(SnapshotRefs(Keeps(conversation, retain), |conversation|))
  }

  function BaseOf(conversation: seq<Message>, retain: int, om: Omission): seq<Message> {
    if om.WrittenBack? then M.Omitted(ToMessages(conversation), retain) else conversation
  }

  function TurnLog(runId: string, artifacts: Artifacts, sessionId: string, retain: int, s: Repl, k: nat, t: TurnInput,
                   om: Omission): Log {
    LogWith(runId, artifacts, s.log, GroupsOfTurn(sessionId, k, t), OmissionRefs(s.conversation, retain, om))
  }

  function AfterOmission(runId: string, artifacts: Artifacts, sessionId: string, retain: int, s: Repl, k: nat,
                         t: TurnInput, om: Omission): Repl {
    var log := TurnLog(runId, artifacts, sessionId, retain, s, k, t, om);
    Repl(Synced(MemoryAfter(BaseOf(s.conversation, retain, om), k, t), Expansion(runId, log)), log)
  }

  /** In place of the old expansion: what the omission kept, then the protected suffix. */
  function Reordered(expansion: seq<int>, kept: int -> bool, n: nat, om: Omission): seq<int> {
    if om.NoOmission? then expansion else Filter(kept, Span(1, n)) + Filter(Dropped(kept), Span(1, n))
  }

  /** From `log`, `count` more rows, named after `first`. */
  ghost predicate GrowsAfter(runId: string, artifacts: Artifacts, log: Log, after: Log, first: seq<int>, count: nat) {
    && ValidLog(runId, artifacts, after) && Covering(runId, after) && |after.rows| == |log.rows| + count
    && Expansion(runId, after) == first + Span(|log.rows| + 1, |after.rows|)
  }

  /** The log's rows, `m` of them, are named by `first` and then in order from n + 1 on. */
  ghost predicate NamedFrom(runId: string, artifacts: Artifacts, log: Log, first: seq<int>, n: nat, m: nat) {
    ValidLog(runId, artifacts, log) && Covering(runId, log) && |log.rows| == m
        && Expansion(runId, log) == first + Span(n + 1, m)
  }

  lemma OverwriteNames(runId: string, artifacts: Artifacts, log: Log, kept: int -> bool, n: nat, over: Log)
    requires ValidLog(runId, artifacts, log) && n <= |log.rows|
    requires over == Overwritten(runId, log, SnapshotRefs(kept, n))
    ensures ValidLog(runId, artifacts, over) && |over.rows| == |log.rows|
    ensures Expansion(runId, over) == Filter(kept, Span(1, n)) && NoRepeats(Expansion(runId, over))
  {
    SnapshotRefsOk(log.rows, kept, n);
    OverwriteKeepsLog(runId, artifacts, log, SnapshotRefs(kept, n), "omission");
  }

  lemma RestNamed(kept: int -> bool, n: nat, m: nat, p: nat, s: seq<int>, t: seq<int>, count: nat)
    requires NamesAll(m, s, p, t, count) && n <= m && s == Filter(kept, Span(1, n))
    ensures p == m + count && t == Filter(kept, Span(1, n)) + Filter(Dropped(kept), Span(1, n)) + Span(n + 1, p)
  {
    RestBehind(kept, n, m, p, t);
  }

  /** After an omission the turn's appends put the protected suffix behind everything the omission kept. */
  lemma NamedAfterOverwrite(runId: string, artifacts: Artifacts, over: Log, kept: int -> bool, n: nat,
                            groups: seq<Group>, after: Log, first: seq<int>, m: nat)
    requires ValidLog(runId, artifacts, over) && n <= |over.rows| && AllPrepare(artifacts, groups) && |groups| > 0
    requires Expansion(runId, over) == Filter(kept, Span(1, n)) && NoRepeats(Expansion(runId, over))
    requires after == AppendAll(runId, artifacts, over, groups) && m == |over.rows| + RowCount(groups)
    requires first == Filter(kept, Span(1, n)) + Filter(Dropped(kept), Span(1, n))
    ensures NamedFrom(runId, artifacts, after, first, n, m)
  {
    AppendsNameEverything(runId, artifacts, over, groups);
    RestNamed(kept, n, |over.rows|, |after.rows|, Expansion(runId, over), Expansion(runId, after), RowCount(groups));
  }

  lemma FirstGroupGrows(runId: string, artifacts: Artifacts, log: Log, groups: seq<Group>)
    requires ValidLog(runId, artifacts, log) && Covering(runId, log) && AllPrepare(artifacts, groups) && |groups| > 0
    ensures var begun := Appended(runId, artifacts, log, groups[0].sessionId, groups[0].messages);
            && ValidLog(runId, artifacts, begun) && |log.rows| <= |begun.rows| && AllPrepare(artifacts, groups[1..])
            && |begun.rows| + RowCount(groups[1..]) == |log.rows| + RowCount(groups)
  {
    AppendToCovering(runId, artifacts, log, groups[0]);
    CountFirst(groups);
  }

  lemma NamedGrows(runId: string, artifacts: Artifacts, log: Log, after: Log, first: seq<int>, m: nat, count: nat)
    requires NamedFrom(runId, artifacts, after, first, |log.rows|, m) && m == |log.rows| + count
    ensures GrowsAfter(runId, artifacts, log, after, first, count)
  {
  }

  lemma OverwrittenGrows(runId: string, artifacts: Artifacts, log: Log, begun: Log, kept: int -> bool, n: nat,
                         rest: seq<Group>, count: nat)
    requires ValidLog(runId, artifacts, begun) && n == |log.rows| <= |begun.rows| && AllPrepare(artifacts, rest)
             && |rest| > 0
    requires |begun.rows| + RowCount(rest) == n + count
    ensures GrowsAfter(runId, artifacts, log,
                       AppendAll(runId, artifacts, Overwritten(runId, begun, SnapshotRefs(kept, n)), rest),
                       Filter(kept, Span(1, n)) + Filter(Dropped(kept), Span(1, n)), count)
  {
    var over := Overwritten(runId, begun, SnapshotRefs(kept, n));
    var after, first, m := AppendAll(runId, artifacts, over, rest),
        Filter(kept, Span(1, n)) + Filter(Dropped(kept), Span(1, n)), n + count;
    OverwriteNames(runId, artifacts, begun, kept, n, over);
    NamedAfterOverwrite(runId, artifacts, over, kept, n, rest, after, first, m);
    NamedGrows(runId, artifacts, log, after, first, m, count);
  }

  lemma PlainGrows(runId: string, artifacts: Artifacts, log: Log, groups: seq<Group>)
    requires ValidLog(runId, artifacts, log) && Covering(runId, log) && AllPrepare(artifacts, groups) && |groups| > 1
    ensures GrowsAfter(runId, artifacts, log, LogWith(runId, artifacts, log, groups, None), Expansion(runId, log),
                       RowCount(groups))
  {
    AppendAllFirst(runId, artifacts, log, groups);
    AppendsToCovering(runId, artifacts, log, groups);
  }

  lemma TurnGrows(runId: string, artifacts: Artifacts, sessionId: string, retain: int, s: Repl, k: nat, t: TurnInput,
                  om: Omission)
    requires InStep(runId, artifacts, s) && |s.conversation| == |s.log.rows| && InputOk(t)
    ensures GrowsAfter(runId, artifacts, s.log, TurnLog(runId, artifacts, sessionId, retain, s, k, t, om),
                       Reordered(Expansion(runId, s.log), Keeps(s.conversation, retain), |s.conversation|, om),
                       TurnSize(k, t))
  {
    TurnAccepted(artifacts, sessionId, TurnId(k), t.text, t.rounds, t.ending);
    if om.NoOmission? {
      PlainGrows(runId, artifacts, s.log, GroupsOfTurn(sessionId, k, t));
    } else {
      var groups := GroupsOfTurn(sessionId, k, t);
      FirstGroupGrows(runId, artifacts, s.log, groups);
      OverwrittenGrows(runId, artifacts, s.log,
                       Appended(runId, artifacts, s.log, groups[0].sessionId, groups[0].messages),
                       Keeps(s.conversation, retain), |s.conversation|, groups[1..], TurnSize(k, t));
    }
  }

  lemma InStepSize(runId: string, artifacts: Artifacts, s: Repl)
    requires InStep(runId, artifacts, s)
    ensures |s.conversation| == |s.log.rows|
  {
    ExpansionLength(runId, artifacts, s.log);
  }

  /** Whatever the omission, the next turn's alignment check passes. */
  lemma OmissionStaysInStep(runId: string, artifacts: Artifacts, sessionId: string, retain: int, s: Repl, k: nat,
                            t: TurnInput, om: Omission)
    requires InStep(runId, artifacts, s) && InputOk(t)
    ensures var next := AfterOmission(runId, artifacts, sessionId, retain, s, k, t, om);
            && InStep(runId, artifacts, next)
            && |next.conversation| == |next.log.rows| == |s.conversation| + TurnSize(k, t)
            && ProcessIndexes(next.conversation) == Expansion(runId, next.log)
  {
    InStepSize(runId, artifacts, s);
    TurnGrows(runId, artifacts, sessionId, retain, s, k, t, om);
    MemoryGrows(BaseOf(s.conversation, retain, om), k, t);
    var log := TurnLog(runId, artifacts, sessionId, retain, s, k, t, om);
    ExpansionLength(runId, artifacts, log);
    Resynced(runId, MemoryAfter(BaseOf(s.conversation, retain, om), k, t), log);
  }

  // ---------------------------------------------------------------- which index is whose

  /** No message outside the protected suffix comes after one of it. */
  ghost predicate SuffixLast(conversation: seq<Message>, retain: int) {
    forall i, j | 1 <= i < j <= |conversation| && InSuffix(conversation, retain, i) :: InSuffix(conversation, retain, j)
  }

  lemma PlaceIff(conversation: seq<Message>, first: seq<int>, n: nat, m: nat)
    requires n <= m && Aligned(conversation, first + Span(n + 1, m))
    ensures Aligned(conversation, Span(1, m)) <==> first == Span(1, n)
  {
    AlignedOnce(conversation, first + Span(n + 1, m), Span(1, m));
    TailSpan(first, n, m);
  }

  lemma ReorderedIff(conversation: seq<Message>, retain: int)
    ensures var n, kept := |conversation|, Keeps(conversation, retain);
            Filter(kept, Span(1, n)) + Filter(Dropped(kept), Span(1, n)) == Span(1, n)
            <==> SuffixLast(conversation, retain)
  {
    PartitionKeepsOrder(Keeps(conversation, retain), |conversation|);
    SuffixOrder(conversation, retain);
  }

  /**
   * After a persisted omission the indexes compared by the check are the messages' own exactly when nothing followed
   * the suffix.
   */
  lemma ComparedIndexesIff(runId: string, artifacts: Artifacts, sessionId: string, retain: int, s: Repl, k: nat,
                           t: TurnInput, om: Omission)
    requires InStep(runId, artifacts, s) && InputOk(t) && !om.NoOmission?
    ensures var next := AfterOmission(runId, artifacts, sessionId, retain, s, k, t, om);
            Aligned(next.conversation, Span(1, |next.conversation|)) <==> SuffixLast(s.conversation, retain)
  {
    var next := AfterOmission(runId, artifacts, sessionId, retain, s, k, t, om);
    InStepSize(runId, artifacts, s);
    TurnGrows(runId, artifacts, sessionId, retain, s, k, t, om);
    OmissionStaysInStep(runId, artifacts, sessionId, retain, s, k, t, om);
    PlaceIff(next.conversation, Reordered(Expansion(runId, s.log), Keeps(s.conversation, retain), |s.conversation|, om),
             |s.conversation|, |next.conversation|);
    ReorderedIff(s.conversation, retain);
  }

  lemma SuffixOrder(conversation: seq<Message>, retain: int)
    ensures SuffixLast(conversation, retain)
            <==> forall i, j | 1 <= i < j <= |conversation| && Keeps(conversation, retain)(j) ::
            Keeps(conversation, retain)(i)
  {
    var kept := Keeps(conversation, retain);
    assert forall i :: kept(i) <==> !InSuffix(conversation, retain, i);
  }

  /**
   * The index an overwrite will read for each message after the sync: what its metadata holds, else what the sync gave
   * it.
   */
  lemma StoredIndexesAre(base: seq<Message>, more: seq<Message>, first: seq<int>, m: nat)
    requires |base| == |first| && m == |base| + |more|
    requires forall i | 0 <= i < |more| :: more[i].metadata.durableIndex == None
    ensures OwnRows(Synced(base + more, first + Span(|base| + 1, m)))
            <==> forall i | 0 <= i < |base| ::
                   if base[i].metadata.durableIndex.Some? then base[i].metadata.durableIndex == Some(i + 1)
                   else first[i] == i + 1
  {
    var all, e := base + more, first + Span(|base| + 1, m);
    var synced := Synced(all, e);
    forall i | 0 <= i < |all|
      ensures Held(synced[i]).metadata.durableIndex == if all[i].metadata.durableIndex.Some?
              then all[i].metadata.durableIndex else Some(e[i])
    {
      assert synced[i] == all[i].(durableIndex := Some(e[i]));
    }
    forall i | |base| <= i < |all| ensures e[i] == i + 1 && all[i].metadata.durableIndex == None {
      assert all[i] == more[i - |base|];
    }
    forall i | 0 <= i < |base| ensures e[i] == first[i] && all[i] == base[i] {
    }
  }

  /** How the process's messages stand for rows before the sync: `base` and new messages without an index. */
  lemma MemoryParts(base: seq<Message>, k: nat, t: TurnInput) returns (more: seq<Message>)
    ensures MemoryAfter(base, k, t) == base + more && |more| == TurnSize(k, t)
    ensures forall i | 0 <= i < |more| :: more[i].metadata.durableIndex == None
  {
    var loop := LoopOf(TurnId(k), t.rounds, t.ending);
    TurnMessagesNumbered(base, k, t.text, loop, t.ending);
    more := TurnMessages(base, k, t.text, loop, t.ending);
  }

  lemma WrittenBackIndexes(conversation: seq<Message>, retain: int)
    requires OwnRows(conversation)
    ensures var base := BaseOf(conversation, retain, WrittenBack);
            |base| == |conversation| && forall i | 0 <= i < |base| :: base[i].metadata.durableIndex == Some(i + 1)
  {
    var ms := ToMessages(conversation);
    forall i | 0 <= i < |conversation| ensures M.Omitted(ms, retain)[i].metadata.durableIndex == Some(i + 1) {
      assert ms[i] == Held(conversation[i]);
    }
  }

  /** Each message of the base stands for its own row after a sync by `first`. */
  ghost predicate StaysOwn(base: seq<Message>, first: seq<int>)
    requires |base| == |first|
  {
    forall i | 0 <= i < |base| ::
      if base[i].metadata.durableIndex.Some? then base[i].metadata.durableIndex == Some(i + 1) else first[i] == i + 1
  }

  /** A lost omission hands shifted indexes to the messages that have none in their metadata yet. */
  ghost predicate LosesRow(conversation: seq<Message>, first: seq<int>)
    requires |conversation| == |first|
  {
    exists i | 0 <= i < |conversation| :: conversation[i].metadata.durableIndex.None? && first[i] != i + 1
  }

  lemma BaseStaysOwn(conversation: seq<Message>, expansion: seq<int>, retain: int, om: Omission)
    requires OwnRows(conversation) && Aligned(conversation, expansion)
    ensures var first := Reordered(expansion, Keeps(conversation, retain), |conversation|, om);
            |first| == |conversation| ==>
              |BaseOf(conversation, retain, om)| == |conversation|
              && (StaysOwn(BaseOf(conversation, retain, om), first) <==> !(om.Lost? && LosesRow(conversation, first)))
  {
    forall i | 0 <= i < |conversation|
      ensures conversation[i].durableIndex == Some(expansion[i])
      ensures if conversation[i].metadata.durableIndex.Some? then conversation[i].metadata.durableIndex == Some(i + 1)
              else expansion[i] == i + 1
    {
      assert Held(conversation[i]).metadata.durableIndex == Some(i + 1);
    }
    if om.WrittenBack? {
      WrittenBackIndexes(conversation, retain);
    }
  }

  /**
   * What overwrites will read after a turn: with the history handed back, or without an omission, every message's own
   * row; after a lost omission exactly if it moved no message that had no index in its metadata.
   */
  lemma OverwriteIndexesIff(runId: string, artifacts: Artifacts, sessionId: string, retain: int, s: Repl, k: nat,
                            t: TurnInput, om: Omission)
    requires InStep(runId, artifacts, s) && OwnRows(s.conversation) && InputOk(t)
    ensures var next := AfterOmission(runId, artifacts, sessionId, retain, s, k, t, om);
            var first := Reordered(Expansion(runId, s.log), Keeps(s.conversation, retain), |s.conversation|, om);
            && |first| == |s.conversation|
            && (OwnRows(next.conversation) <==> !(om.Lost? && LosesRow(s.conversation, first)))
  {
    var n := |s.conversation|;
    var first := Reordered(Expansion(runId, s.log), Keeps(s.conversation, retain), n, om);
    var base := BaseOf(s.conversation, retain, om);
    InStepSize(runId, artifacts, s);
    TurnGrows(runId, artifacts, sessionId, retain, s, k, t, om);
    var log := TurnLog(runId, artifacts, sessionId, retain, s, k, t, om);
    ExpansionLength(runId, artifacts, log);
    BaseStaysOwn(s.conversation, Expansion(runId, s.log), retain, om);
    AfterSync(base, k, t, first, |log.rows|);
  }

  lemma AfterSync(base: seq<Message>, k: nat, t: TurnInput, first: seq<int>, m: nat)
    requires |base| == |first| && m == |base| + TurnSize(k, t)
    ensures OwnRows(Synced(MemoryAfter(base, k, t), first + Span(|base| + 1, m))) <==> StaysOwn(base, first)
  {
    var more := MemoryParts(base, k, t);
    StoredIndexesAre(base, more, first, m);
  }

  ghost predicate NoneInMetadata(conversation: seq<Message>) {
    forall i | 0 <= i < |conversation| :: conversation[i].metadata.durableIndex.None?
  }

  lemma LosesIff(conversation: seq<Message>, first: seq<int>)
    requires NoneInMetadata(conversation) && |first| == |conversation|
    ensures LosesRow(conversation, first) <==> first != Span(1, |conversation|)
  {
    var n := |conversation|;
    assert forall i | 0 <= i < n :: Span(1, n)[i] == i + 1;
    if forall i | 0 <= i < n :: first[i] == i + 1 {
      assert first == Span(1, n);
    }
  }

  lemma LostMovesIff(conversation: seq<Message>, first: seq<int>, retain: int)
    requires NoneInMetadata(conversation) && |first| == |conversation|
    requires var n, kept := |conversation|, Keeps(conversation, retain);
             first == Filter(kept, Span(1, n)) + Filter(Dropped(kept), Span(1, n))
    ensures LosesRow(conversation, first) <==> !SuffixLast(conversation, retain)
  {
    ReorderedIff(conversation, retain);
    LosesIff(conversation, first);
  }

  /**
   * Where no history was ever handed back, a lost omission spoils the stored indexes exactly when something followed
   * the suffix.
   */
  lemma LostOmissionIff(runId: string, artifacts: Artifacts, sessionId: string, retain: int, s: Repl, k: nat,
                        t: TurnInput)
    requires InStep(runId, artifacts, s) && OwnRows(s.conversation) && InputOk(t) && NoneInMetadata(s.conversation)
    ensures OwnRows(AfterOmission(runId, artifacts, sessionId, retain, s, k, t, Lost).conversation)
            <==> SuffixLast(s.conversation, retain)
  {
    OverwriteIndexesIff(runId, artifacts, sessionId, retain, s, k, t, Lost);
    LostMovesIff(s.conversation, Reordered(Expansion(runId, s.log), Keeps(s.conversation, retain), |s.conversation|,
                                           Lost), retain);
  }

  // ---------------------------------------------------------------- sessions with omissions

  /** In step and in order; message i mirrors row i, and overwrites will read that row for it. */
  ghost predicate Tracked(runId: string, artifacts: Artifacts, s: Repl) {
    && InStep(runId, artifacts, s) && StrictlyOrdered(s.conversation) && OwnRows(s.conversation)
    && Mirrored(s.conversation, s.log.rows, Span(1, |s.log.rows|))
  }

  lemma LogWithRows(runId: string, artifacts: Artifacts, log: Log, groups: seq<Group>, refs: Option<seq<Ref>>)
    requires |groups| > 0
    ensures LogWith(runId, artifacts, log, groups, refs).rows == AppendAll(runId, artifacts, log, groups).rows
  {
    var first := Appended(runId, artifacts, log, groups[0].sessionId, groups[0].messages);
    AppendAllFirst(runId, artifacts, log, groups);
    AppendAllRows(runId, artifacts, first, groups[1..]);
    if refs.Some? {
      AppendAllRows(runId, artifacts, Overwritten(runId, first, refs.value), groups[1..]);
    }
  }

  lemma BaseMirrors(conversation: seq<Message>, rows: seq<Row>, indexes: seq<int>, retain: int, om: Omission)
    requires Mirrored(conversation, rows, indexes)
    ensures Mirrored(BaseOf(conversation, retain, om), rows, indexes)
  {
    var base := BaseOf(conversation, retain, om);
    forall i | 0 <= i < |conversation| ensures |base| == |conversation| && Mirrors(base[i], rows[indexes[i] - 1].item) {
      assert Mirrors(conversation[i], rows[indexes[i] - 1].item);
      if om.WrittenBack? {
        assert ToMessages(conversation)[i] == Held(conversation[i]);
      }
    }
  }

  lemma BaseOrdered(conversation: seq<Message>, retain: int, om: Omission)
    requires StrictlyOrdered(conversation)
    ensures StrictlyOrdered(BaseOf(conversation, retain, om))
  {
    if om.WrittenBack? {
      var base := BaseOf(conversation, retain, om);
      forall i | 0 <= i < |conversation| ensures |base| == |conversation| && base[i].seqNo == conversation[i].seqNo {
        assert ToMessages(conversation)[i] == Held(conversation[i]);
      }
    }
  }

  lemma TurnRows(runId: string, artifacts: Artifacts, sessionId: string, retain: int, s: Repl, k: nat, t: TurnInput,
                 om: Omission)
    ensures var log := TurnLog(runId, artifacts, sessionId, retain, s, k, t, om);
            s.log.rows <= log.rows && Map(ItemOf, log.rows) == Map(ItemOf, s.log.rows) + ItemsOfTurn(k, t)
  {
    LogWithRows(runId, artifacts, s.log, GroupsOfTurn(sessionId, k, t), OmissionRefs(s.conversation, retain, om));
    LogItems(runId, artifacts, sessionId, s.log, k, t);
  }

  lemma OwnMirrors(base: seq<Message>, rows: seq<Row>, after: seq<Row>, k: nat, t: TurnInput)
    requires Mirrored(base, rows, Span(1, |rows|)) && EndingOk(t.ending)
    requires rows <= after && Map(ItemOf, after) == Map(ItemOf, rows) + ItemsOfTurn(k, t)
    ensures Mirrored(MemoryAfter(base, k, t), after, Span(1, |after|))
  {
    MemoryMirrors(base, rows, Span(1, |rows|), after, k, t);
    SpanSplit(|rows|, |after|);
  }

  lemma OmissionMirrors(runId: string, artifacts: Artifacts, sessionId: string, retain: int, s: Repl, k: nat,
                        t: TurnInput, om: Omission)
    requires Mirrored(s.conversation, s.log.rows, Span(1, |s.log.rows|)) && InputOk(t)
    ensures var next := AfterOmission(runId, artifacts, sessionId, retain, s, k, t, om);
            Mirrored(next.conversation, next.log.rows, Span(1, |next.log.rows|))
  {
    var log := TurnLog(runId, artifacts, sessionId, retain, s, k, t, om);
    var base := BaseOf(s.conversation, retain, om);
    TurnRows(runId, artifacts, sessionId, retain, s, k, t, om);
    BaseMirrors(s.conversation, s.log.rows, Span(1, |s.log.rows|), retain, om);
    OwnMirrors(base, s.log.rows, log.rows, k, t);
    SyncedMirrors(MemoryAfter(base, k, t), log.rows, Span(1, |log.rows|), Expansion(runId, log));
  }

  lemma OmissionOrdered(runId: string, artifacts: Artifacts, sessionId: string, retain: int, s: Repl, k: nat,
                        t: TurnInput, om: Omission)
    requires StrictlyOrdered(s.conversation)
    ensures StrictlyOrdered(AfterOmission(runId, artifacts, sessionId, retain, s, k, t, om).conversation)
  {
    var base := BaseOf(s.conversation, retain, om);
    BaseOrdered(s.conversation, retain, om);
    TurnKeepsOrder(base, k, t.text, LoopOf(TurnId(k), t.rounds, t.ending), t.ending);
    SyncedOrder(MemoryAfter(base, k, t), Expansion(runId, TurnLog(runId, artifacts, sessionId, retain, s, k, t, om)));
  }

  lemma TurnTracked(runId: string, artifacts: Artifacts, sessionId: string, retain: int, s: Repl, k: nat, t: TurnInput,
                    om: Omission)
    requires Tracked(runId, artifacts, s) && InputOk(t) && !om.Lost?
    ensures Tracked(runId, artifacts, AfterOmission(runId, artifacts, sessionId, retain, s, k, t, om))
  {
    OmissionStaysInStep(runId, artifacts, sessionId, retain, s, k, t, om);
    OmissionOrdered(runId, artifacts, sessionId, retain, s, k, t, om);
    OverwriteIndexesIff(runId, artifacts, sessionId, retain, s, k, t, om);
    OmissionMirrors(runId, artifacts, sessionId, retain, s, k, t, om);
  }

  datatype OmissionTurn = OmissionTurn(input: TurnInput, omission: Omission)

  function AfterOmissions(runId: string, artifacts: Artifacts, sessionId: string, retain: int, s: Repl, k: nat,
                          turns: seq<OmissionTurn>): Repl {
    if |turns| == 0 then s
    else
      var n := |turns| - 1;
      AfterOmission(runId, artifacts, sessionId, retain,
                    AfterOmissions(runId, artifacts, sessionId, retain, s, k, turns[..n]), k + n, turns[n].input,
                    turns[n].omission)
  }

  lemma LastTurn(runId: string, artifacts: Artifacts, sessionId: string, retain: int, s: Repl, k: nat,
                 turns: seq<OmissionTurn>)
    requires |turns| > 0
    ensures var n := |turns| - 1;
            AfterOmissions(runId, artifacts, sessionId, retain, s, k, turns)
            == AfterOmission(runId, artifacts, sessionId, retain,
                             AfterOmissions(runId, artifacts, sessionId, retain, s, k, turns[..n]), k + n,
                             turns[n].input, turns[n].omission)
  {
  }

  /**
   * Over any number of turns with and without omissions, as long as each hands its history back: the alignment check
   * passes every time, message i goes on mirroring row i, and every overwrite names the messages' own rows.
   */
  lemma {:induction false} SessionTracked(runId: string, artifacts: Artifacts, sessionId: string, retain: int, s: Repl,
                                          k: nat, turns: seq<OmissionTurn>)
    requires Tracked(runId, artifacts, s)
             && forall i | 0 <= i < |turns| :: InputOk(turns[i].input) && !turns[i].omission.Lost?
    ensures var end := AfterOmissions(runId, artifacts, sessionId, retain, s, k, turns);
            && Tracked(runId, artifacts, end)
            && ProjectionRefs(Snapshot(end.conversation, retain), |end.log.rows|, None)
               == Ok(SnapshotRefs(Keeps(end.conversation, retain), |end.conversation|))
  {
    var end := AfterOmissions(runId, artifacts, sessionId, retain, s, k, turns);
    if |turns| > 0 {
      var n := |turns| - 1;
      SessionTracked(runId, artifacts, sessionId, retain, s, k, turns[..n]);
      TurnTracked(runId, artifacts, sessionId, retain,
                  AfterOmissions(runId, artifacts, sessionId, retain, s, k, turns[..n]), k + n, turns[n].input,
                  turns[n].omission);
    }
    InStepSize(runId, artifacts, end);
    SnapshotRefsAre(end.conversation, retain, |end.log.rows|);
  }

  lemma FreshTracked(runId: string, artifacts: Artifacts)
    ensures Tracked(runId, artifacts, FRESH)
  {
    EmptyValid(runId, artifacts);
  }

  // ---------------------------------------------------------------- compression

  lemma {:induction false} ProcessIndexesBound(conversation: seq<Message>)
    ensures |ProcessIndexes(conversation)| <= |conversation|
  {
    if |conversation| > 0 {
      ProcessIndexesBound(conversation[..|conversation| - 1]);
    }
  }

  /** Replacing evicted history by a summary never lengthens it: at least one message goes and one comes. */
  lemma CompressedIsNoLonger(ms: seq<Message>, plan: M.CompressionPlan, json: string, r: seq<Message>)
    requires |plan.evicted| > 0 && (forall m | m in plan.evicted :: m in ms) && M.IsReplacement(ms, plan, json, r)
    ensures |r| <= |ms|
  {
    var kept := M.Kept(ms, plan);
    assert |multiset(r)| == |multiset(kept)| + 1;
    var gone := plan.evicted[0];
    assert gone in plan.evicted;
    assert M.Removed(plan, gone);
    ShorterFilter((m: Message) => !M.Removed(plan, m), ms, gone);
  }

  lemma {:induction false} ShorterFilter(p: Message -> bool, ms: seq<Message>, gone: Message)
    requires gone in ms && !p(gone)
    ensures |Filter(p, ms)| < |ms|
  {
    var front := ms[..|ms| - 1];
    if ms[|ms| - 1] == gone {
      FilterMeaning(p, front);
    } else {
      ShorterFilter(p, front, gone);
    }
  }

  ghost predicate NamesEvery(runId: string, log: Log) {
    forall i | 1 <= i <= |log.rows| :: i in Expansion(runId, log)
  }

  /** Even with repeats, naming every row takes as many references as there are rows. */
  lemma AtLeast(s: seq<int>, n: nat)
    requires forall i | 1 <= i <= n :: i in s
    ensures |s| >= n
  {
    var all := Span(1, n);
    DistinctSize(all);
    E.SubsetSize(set x | x in all, set x | x in s);
    SeqSize(s);
  }

  lemma {:induction false} SeqSize(s: seq<int>)
    ensures |set x | x in s| <= |s|
  {
    if |s| > 0 {
      var front := s[..|s| - 1];
      SeqSize(front);
      assert s == front + [s[|s| - 1]];
      assert (set x | x in s) == (set x | x in front) + {s[|s| - 1]};
    } else {
      assert (set x | x in s) == {};
    }
  }

  /** Appends keep the log valid, and after at least one of them every row is named. */
  lemma {:induction false} AppendAllNames(runId: string, artifacts: Artifacts, log: Log, groups: seq<Group>)
    requires ValidLog(runId, artifacts, log) && AllPrepare(artifacts, groups)
    ensures var after := AppendAll(runId, artifacts, log, groups);
            && ValidLog(runId, artifacts, after) && |after.rows| == |log.rows| + RowCount(groups)
            && (|groups| > 0 ==> NamesEvery(runId, after))
  {
    if |groups| > 0 {
      var n, before := |groups| - 1, AppendAll(runId, artifacts, log, groups[..|groups| - 1]);
      AppendAllNames(runId, artifacts, log, groups[..n]);
      AppendKeepsLog(runId, artifacts, before, groups[n].sessionId, groups[n].messages);
      AppendCoversLog(runId, artifacts, before, groups[n].sessionId, groups[n].messages);
    }
  }

  /** A conversation shorter than its log is left alone by the sync, and the alignment check of the next turn fails. */
  ghost predicate Drifted(runId: string, conversation: seq<Message>, log: Log) {
    && |conversation| < |log.rows|
    && Synced(conversation, Expansion(runId, log)) == conversation
    && ProcessIndexes(conversation) != Expansion(runId, log)
  }

  lemma ShorterDrifts(runId: string, log: Log, conversation: seq<Message>)
    requires NamesEvery(runId, log) && |conversation| < |log.rows|
    ensures Drifted(runId, conversation, log)
  {
    AtLeast(Expansion(runId, log), |log.rows|);
    ProcessIndexesBound(conversation);
  }

  function SummaryAppend(turn: string, json: string): Append {
    Append(Some(turn), turn + ":context-summary", None, 0, 1, "runtime", "context_summary", Some(json), None, map[],
           None, None)
  }

  function SummaryGroup(sessionId: string, turn: string, json: string): Group {
    Group(sessionId, [SummaryAppend(turn, json)])
  }

  lemma SummaryPrepares(artifacts: Artifacts, sessionId: string, turn: string, json: string)
    ensures FirstPrepareError(artifacts, SummaryGroup(sessionId, turn, json).messages) == None
  {
    assert |turn + ":context-summary"| > 0;
    G.PreparesAll(artifacts, [SummaryAppend(turn, json)]);
  }

  lemma IndexRefsResolve(rows: seq<Row>, indexes: seq<int>)
    requires Within(|rows|, indexes)
    ensures RefsOk(rows, Map(IndexRef, indexes)) && Indexes(Map(IndexRef, indexes)) == indexes
  {
    IndexesOfRefs(indexes);
  }

  lemma RowsInside(messages: seq<Message>, n: nat, summaryRow: Option<int>, indexes: seq<int>)
    requires (summaryRow.Some? ==> 1 <= summaryRow.value <= n) && Resolvable(messages, n, summaryRow)
    requires indexes == Map(m => RowFor(m, summaryRow), messages)
    ensures Within(n, indexes)
  {
    forall i | 0 <= i < |messages| ensures 1 <= indexes[i] <= n {
      assert RefOf(messages[i], n, summaryRow).Ok?;
    }
  }

  lemma WithFirst(rows: seq<Row>, first: int, indexes: seq<int>)
    requires 1 <= first <= |rows| && Within(|rows|, indexes)
    ensures RefsOk(rows, [Index(first)] + Map(IndexRef, indexes))
  {
    IndexRefsResolve(rows, [first] + indexes);
    assert [IndexRef(first)] == [Index(first)];
    assert Map(IndexRef, [first] + indexes) == [IndexRef(first)] + Map(IndexRef, indexes);
  }

  /**
   * References made from messages resolve, one for each message and, if none is a summary, one for the new summary row.
   */
  lemma RefsResolve(messages: seq<Message>, rows: seq<Row>, summaryRow: Option<int>)
    requires summaryRow.Some? ==> 1 <= summaryRow.value <= |rows|
    requires ProjectionRefs(messages, |rows|, summaryRow).Ok?
    ensures var refs := ProjectionRefs(messages, |rows|, summaryRow).value;
            RefsOk(rows, refs)
                && (summaryRow.None? || (exists m | m in messages :: IsSummary(m)) ==> |Indexes(refs)| == |messages|)
  {
    var indexes := Map(m => RowFor(m, summaryRow), messages);
    RefsMeaning(messages, |rows|, summaryRow);
    RowsInside(messages, |rows|, summaryRow, indexes);
    IndexRefsResolve(rows, indexes);
    if summaryRow.Some? {
      WithFirst(rows, summaryRow.value, indexes);
    }
  }

  /** A log to which one group was appended and whose projection was then overwritten. */
  lemma OverwrittenLog(runId: string, artifacts: Artifacts, log: Log, g: Group, refs: seq<Ref>)
    requires ValidLog(runId, artifacts, log) && FirstPrepareError(artifacts, g.messages) == None
    requires RefsOk(Appended(runId, artifacts, log, g.sessionId, g.messages).rows, refs)
    ensures var after := Overwritten(runId, Appended(runId, artifacts, log, g.sessionId, g.messages), refs);
            ValidLog(runId, artifacts, after) && |after.rows| == |log.rows| + |g.messages|
                && Expansion(runId, after) == Indexes(refs)
  {
    AppendKeepsLog(runId, artifacts, log, g.sessionId, g.messages);
    OverwriteKeepsLog(runId, artifacts, Appended(runId, artifacts, log, g.sessionId, g.messages), refs, "compression");
  }

  lemma CompressedNoLonger(b: M.Budgeting, retain: int, json: string, conversation: seq<Message>, r: seq<Message>)
    requires StrictlyOrdered(conversation) && E.Compresses(b, retain, json, ToMessages(conversation), r)
    ensures |r| <= |conversation| && exists m | m in r :: IsSummary(m)
  {
    var ms := ToMessages(conversation);
    H.HeldShape(conversation);
    assert DistinctSeqs(ms) by {
      assert forall i | 0 <= i < |ms| :: E.Alike(conversation[i], ms[i]);
    }
    var plan := M.PlanCompression(b, ms, retain).value;
    E.PlanEvicts(b, ms, retain, plan);
    CompressedIsNoLonger(ms, plan, json, r);
    var summary := M.SummaryMessage(QC.MinSeq(plan.evicted), json);
    assert summary in multiset(r);
    assert summary in r && IsSummary(summary);
  }

  /** The log of a turn that compresses to `r`. */
  function CompressionLog(runId: string, artifacts: Artifacts, sessionId: string, s: Repl, k: nat, t: TurnInput,
                          json: string, refs: seq<Ref>): Log {
    var groups := GroupsOfTurn(sessionId, k, t);
    var begun := Appended(runId, artifacts, s.log, sessionId, groups[0].messages);
    var summed := Appended(runId, artifacts, begun, sessionId, SummaryGroup(sessionId, TurnId(k), json).messages);
    AppendAll(runId, artifacts, Overwritten(runId, summed, refs), groups[1..])
  }

  /**
   * A compression of what the process holds, with which the turn ends in drift, whether it hands the history back or
   * not.
   */
  ghost predicate DriftsFrom(runId: string, artifacts: Artifacts, sessionId: string, s: Repl, k: nat, t: TurnInput,
                             b: M.Budgeting, retain: int, json: string, r: seq<Message>) {
    var n := |s.log.rows| + 2;
    var refs := ProjectionRefs(r, n, Some(n));
    && E.Compresses(b, retain, json, ToMessages(s.conversation), r) && refs.Ok?
    && Drifted(runId, MemoryAfter(r, k, t), CompressionLog(runId, artifacts, sessionId, s, k, t, json, refs.value))
    && Drifted(runId, MemoryAfter(s.conversation, k, t),
               CompressionLog(runId, artifacts, sessionId, s, k, t, json, refs.value))
  }

  /**
   * A turn that compresses: its user row and a summary row are written, the projection is overwritten from the
   * compressed history, the rest of the turn is appended, and the process goes on from the compressed history. Its
   * conversation is then shorter than the log for good: the sync does nothing and the next turn's alignment check
   * fails.
   */
  lemma CompressionDrifts(runId: string, artifacts: Artifacts, sessionId: string, s: Repl, k: nat, t: TurnInput,
                          b: M.Budgeting, retain: int, json: string, r: seq<Message>)
    requires InStep(runId, artifacts, s) && InputOk(t) && StrictlyOrdered(s.conversation)
    requires E.Compresses(b, retain, json, ToMessages(s.conversation), r)
    requires var n := |s.log.rows| + 2; ProjectionRefs(r, n, Some(n)).Ok?
    ensures DriftsFrom(runId, artifacts, sessionId, s, k, t, b, retain, json, r)
  {
    InStepSize(runId, artifacts, s);
    CompressedNoLonger(b, retain, json, s.conversation, r);
    ShorterTurnDrifts(runId, artifacts, sessionId, s, k, t, json, r, r);
    ShorterTurnDrifts(runId, artifacts, sessionId, s, k, t, json, r, s.conversation);
  }

  lemma ShorterTurnDrifts(runId: string, artifacts: Artifacts, sessionId: string, s: Repl, k: nat, t: TurnInput,
                          json: string, r: seq<Message>, base: seq<Message>)
    requires InStep(runId, artifacts, s) && InputOk(t) && |base| <= |s.log.rows|
    requires var n := |s.log.rows| + 2; ProjectionRefs(r, n, Some(n)).Ok?
    ensures var n := |s.log.rows| + 2;
            var refs := ProjectionRefs(r, n, Some(n)).value;
            Drifted(runId, MemoryAfter(base, k, t), CompressionLog(runId, artifacts, sessionId, s, k, t, json, refs))
  {
    var n, groups := |s.log.rows| + 2, GroupsOfTurn(sessionId, k, t);
    var own := SummaryGroup(sessionId, TurnId(k), json);
    TurnAccepted(artifacts, sessionId, TurnId(k), t.text, t.rounds, t.ending);
    FirstGroupGrows(runId, artifacts, s.log, groups);
    SummaryPrepares(artifacts, sessionId, TurnId(k), json);
    MemoryGrows(base, k, t);
    RestDrifts(runId, artifacts, Appended(runId, artifacts, s.log, sessionId, groups[0].messages), own, r, n,
               groups[1..], MemoryAfter(base, k, t));
  }

  lemma RestDrifts(runId: string, artifacts: Artifacts, begun: Log, own: Group, r: seq<Message>, n: nat,
                   rest: seq<Group>, memory: seq<Message>)
    requires ValidLog(runId, artifacts, begun) && FirstPrepareError(artifacts, own.messages) == None
             && |own.messages| == 1
    requires n == |begun.rows| + 1 && ProjectionRefs(r, n, Some(n)).Ok?
    requires AllPrepare(artifacts, rest) && |rest| > 0 && |memory| < n + RowCount(rest)
    ensures var summed := Appended(runId, artifacts, begun, own.sessionId, own.messages);
            Drifted(runId, memory,
                    AppendAll(runId, artifacts, Overwritten(runId, summed, ProjectionRefs(r, n, Some(n)).value), rest))
  {
    var summed, refs := Appended(runId, artifacts, begun, own.sessionId, own.messages),
        ProjectionRefs(r, n, Some(n)).value;
    RefsResolve(r, summed.rows, Some(n));
    OverwrittenLog(runId, artifacts, begun, own, refs);
    AppendAllNames(runId, artifacts, Overwritten(runId, summed, refs), rest);
    ShorterDrifts(runId, AppendAll(runId, artifacts, Overwritten(runId, summed, refs), rest), memory);
  }

  /**
   * A manual compression leaves process and projection in step, so the next turn's check passes; but that turn's
   * appends name every compressed row again, and the check after it fails.
   */
  lemma ManualCompressionDrifts(runId: string, artifacts: Artifacts, sessionId: string, s: Repl, k: nat, t: TurnInput,
                                b: M.Budgeting, retain: int, json: string, r: seq<Message>, turn: string)
    requires InStep(runId, artifacts, s) && InputOk(t) && StrictlyOrdered(s.conversation)
    requires E.Compresses(b, retain, json, ToMessages(s.conversation), r)
    requires var n := |s.log.rows| + 1; ProjectionRefs(r, n, Some(n)).Ok?
    ensures var n := |s.log.rows| + 1;
            var summed := Appended(runId, artifacts, s.log, sessionId, SummaryGroup(sessionId, turn, json).messages);
            var log := Overwritten(runId, summed, ProjectionRefs(r, n, Some(n)).value);
            var conversation := Synced(r, Expansion(runId, log));
            && ProcessIndexes(conversation) == Expansion(runId, log)
            && Drifted(runId, MemoryAfter(conversation, k, t),
                       AppendAll(runId, artifacts, log, GroupsOfTurn(sessionId, k, t)))
  {
    var n, groups, own := |s.log.rows| + 1, GroupsOfTurn(sessionId, k, t), SummaryGroup(sessionId, turn, json);
    var summed, refs := Appended(runId, artifacts, s.log, sessionId, own.messages), ProjectionRefs(r, n, Some(n)).value;
    TurnAccepted(artifacts, sessionId, TurnId(k), t.text, t.rounds, t.ending);
    SummaryPrepares(artifacts, sessionId, turn, json);
    InStepSize(runId, artifacts, s);
    CompressedNoLonger(b, retain, json, s.conversation, r);
    RefsResolve(r, summed.rows, Some(n));
    OverwrittenLog(runId, artifacts, s.log, own, refs);
    var log := Overwritten(runId, summed, refs);
    Resynced(runId, r, log);
    MemoryGrows(Synced(r, Expansion(runId, log)), k, t);
    RestDrifts(runId, artifacts, s.log, own, r, n, groups, MemoryAfter(Synced(r, Expansion(runId, log)), k, t));
  }

  // ---------------------------------------------------------------- interrupts

  /** What an interrupted turn leaves: the groups it had written, the fact of its cancellation, and two messages. */
  function AfterInterrupt(runId: string, artifacts: Artifacts, sessionId: string, s: Repl, k: nat, text: string,
                          made: seq<Group>): Repl {
    var log := AppendAll(runId, artifacts, s.log,
                         made + [Group(sessionId, [FactAppend(TurnId(k), "cancellation_fact")])]);
    Repl(Synced(WithTurn(s.conversation, k, text, [], Interrupted), Expansion(runId, log)), log)
  }

  lemma {:induction false} IndexesBefore(a: seq<Message>, b: seq<Message>)
    requires forall i | 0 <= i < |b| :: b[i].durableIndex == None && b[i].metadata.durableIndex == None
    ensures ProcessIndexes(a + b) == ProcessIndexes(a)
  {
    if |b| == 0 {
      assert a + b == a;
    } else {
      assert (a + b)[..|a + b| - 1] == a + b[..|b| - 1];
      IndexesBefore(a, b[..|b| - 1]);
    }
  }

  lemma RowCountSnoc(groups: seq<Group>, g: Group)
    ensures RowCount(groups + [g]) == RowCount(groups) + |g.messages|
  {
    assert (groups + [g])[..|groups|] == groups;
  }

  /**
   * A turn may be interrupted at any moment. The next turn's alignment check passes exactly when the turn had by then
   * written one row, the user's: none yet, or any of the tool loop or the answer, and process and log are apart.
   */
  lemma InterruptIff(runId: string, artifacts: Artifacts, sessionId: string, s: Repl, k: nat, text: string,
                     made: seq<Group>)
    requires InStep(runId, artifacts, s) && AllPrepare(artifacts, made)
    ensures var next := AfterInterrupt(runId, artifacts, sessionId, s, k, text, made);
            ProcessIndexes(next.conversation) == Expansion(runId, next.log) <==> RowCount(made) == 1
  {
    var fact := Group(sessionId, [FactAppend(TurnId(k), "cancellation_fact")]);
    var memory := WithTurn(s.conversation, k, text, [], Interrupted);
    var log := AppendAll(runId, artifacts, s.log, made + [fact]);
    EndsPrepare(artifacts, TurnId(k), text, Interrupted);
    G.PreparesAll(artifacts, fact.messages);
    RowCountSnoc(made, fact);
    InStepSize(runId, artifacts, s);
    AppendsToCovering(runId, artifacts, s.log, made + [fact]);
    ExpansionLength(runId, artifacts, log);
    TurnMessagesNumbered(s.conversation, k, text, [], Interrupted);
    if RowCount(made) == 1 {
      Resynced(runId, memory, log);
    } else {
      IndexesBefore(s.conversation, TurnMessages(s.conversation, k, text, [], Interrupted));
      ProcessIndexesBound(s.conversation);
    }
  }
}
