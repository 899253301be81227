/** Omission, compression planning and history replacement (runtime/context_manager.py, _replace_compressed_history). */
module ContextManager {
  import opened Wrappers
  import opened Sorting
  import opened Seqs
  import opened ModelContext
  import opened QueryControl

  const MARKER := Text("[Earlier tool result omitted for brevity. See artifact references or trace for full details.]")

  datatype OmissionResult = OmissionResult(
    retained: seq<Message>,
    snapshot: seq<Message>,
    omittedCount: nat,
    artifactRefs: seq<string>)

  datatype CompressionError = NoEvictableHistory | InvalidBudget | OldestGroupTooLarge | InputTooLarge

  datatype CompressionPlan = CompressionPlan(
    frame: CompressionFrame,
    selectedIds: seq<string>,
    evicted: seq<Message>,
    previousSummary: Option<Message>,
    budget: int,
    estimate: int)

  /** The configured window and reserve, the compression prompt, and how messages are rendered for counting. */
  datatype Budgeting = Budgeting(render: Renderer, prompt: string, window: int, reserved: int)

  // ---------------------------------------------------------------- omission

  predicate Blanks(evictable: set<string>, protectedSeqs: set<int>, m: Message) {
    && m.kind == "tool_result"
    && m.modelCallId.Some?
    && m.modelCallId.value in evictable
    && m.seqNo !in protectedSeqs
    && m.content != MARKER
  }

  /** The source blanks exactly the tool results of evictable groups that are not blank already. */
  predicate Omits(ms: seq<Message>, retain: int, m: Message) {
    Blanks(Evictable(ms, retain), IdsInGroups(ms, NonEvictable(ms, retain)), m)
  }

  function Blanked(evictable: set<string>, protectedSeqs: set<int>, m: Message): Message {
    if Blanks(evictable, protectedSeqs, m) then m.(content := MARKER) else m
  }

  function Omitted(ms: seq<Message>, retain: int): seq<Message> {
    var evictable, protectedSeqs := Evictable(ms, retain), IdsInGroups(ms, NonEvictable(ms, retain));
    Map(m => Blanked(evictable, protectedSeqs, m), ms)
  }

  method OmitOldToolResults(ms: seq<Message>, current: seq<Message>, retain: int) returns (r: OmissionResult)
    ensures r.retained == Omitted(ms, retain)
    ensures r.omittedCount == |Filter(m => Omits(ms, retain, m), ms)|
    ensures r.snapshot == Filter((m: Message) => m.seqNo !in IdsInGroups(ms, NonEvictable(ms, retain)),
                                 Omitted(ms, retain))
    ensures forall a :: a in r.artifactRefs <==> exists m | m in ms :: Omits(ms, retain, m) && a in m.artifactRefs
    ensures Sorted(StringLeq, r.artifactRefs) && NoRepeats(r.artifactRefs)
  {
    var groups := DeriveModelCallGroups(ms);
    var suffix := ComputeNonEvictableRawSuffix(ms, retain, current);
    var evictable := set g | g in groups && g.status == Closed && g.consumed && g.modelCallId !in suffix.groupIds ::
        g.modelCallId;
    EvictableIds(ms, retain);
    var omitted, count, refs := BlankResults(ms, evictable, suffix.retainedIds);
    var snapshot := Filter((m: Message) => m.seqNo !in suffix.retainedIds, omitted);
    FilterSame((m: Message) => m.seqNo !in suffix.retainedIds,
               (m: Message) => m.seqNo !in IdsInGroups(ms, NonEvictable(ms, retain)), omitted);
    FilterSame((m: Message) => Blanks(evictable, suffix.retainedIds, m), (m: Message) => Omits(ms, retain, m), ms);
    var sorted := SortedSet(refs);
    r := OmissionResult(omitted, snapshot, count, sorted);
  }

  /** Python's `sorted` of a set of strings. */
  method SortedSet(s: set<string>) returns (r: seq<string>)
    ensures Sorted(StringLeq, r) && NoRepeats(r) && forall x :: x in r <==> x in s
  {
    var rest := s;
    r := [];
    while rest != {}
      invariant rest <= s && NoRepeats(r) && forall x :: x in r <==> x in s && x !in rest
      decreases rest
    {
      var x :| x in rest;
      r := r + [x];
      rest := rest - {x};
    }
    ghost var listed := r;
    StringPreorder();
    SortSorted(StringLeq, r);
    r := Sort(StringLeq, r);
    SameElements(listed, r);
    RepeatsPermute(listed, r);
  }

  lemma StringPreorder()
    ensures TotalPreorder(StringLeq)
  {
    forall a, b ensures StringLeq(a, b) || StringLeq(b, a) {
      StringLeqTotal(a, b);
    }
    forall a, b, c | StringLeq(a, b) && StringLeq(b, c) ensures StringLeq(a, c) {
      StringLeqTransitive(a, b, c);
    }
  }

  method BlankResults(ms: seq<Message>, evictable: set<string>, protectedSeqs: set<int>)
      returns (omitted: seq<Message>, count: nat, refs: set<string>)
    ensures omitted == Map(m => Blanked(evictable, protectedSeqs, m), ms)
    ensures count == |Filter(m => Blanks(evictable, protectedSeqs, m), ms)|
    ensures refs == set m, a | m in ms && Blanks(evictable, protectedSeqs, m) && a in m.artifactRefs :: a
  {
    count, refs, omitted := 0, {}, [];
    for i := 0 to |ms|
      invariant omitted == Map(m => Blanked(evictable, protectedSeqs, m), ms[..i])
      invariant count == |Filter(m => Blanks(evictable, protectedSeqs, m), ms[..i])|
      invariant refs == set m, a | m in ms[..i] && Blanks(evictable, protectedSeqs, m) && a in m.artifactRefs :: a
    {
      var m := ms[i];
      assert ms[..i + 1] == ms[..i] + [m];
      FilterSnoc((m: Message) => Blanks(evictable, protectedSeqs, m), ms[..i], m);
      if m.kind == "tool_result" && m.modelCallId.Some? && m.modelCallId.value in evictable
         && m.seqNo !in protectedSeqs && m.content != MARKER
      {
        count := count + 1;
        refs := refs + set a | a in m.artifactRefs;
        omitted := omitted + [m.(content := MARKER)];
      } else {
        omitted := omitted + [m];
      }
    }
    assert ms[..|ms|] == ms;
  }

  /** Closed, consumed and outside the suffix is the same as not protected. */
  lemma EvictableIds(ms: seq<Message>, retain: int)
    ensures (set g | g in GroupList(ms) && g.status == Closed && g.consumed
             && g.modelCallId !in NonEvictable(ms, retain) :: g.modelCallId)
            == Evictable(ms, retain)
  {
    forall g ensures
        g in (set x | x in GroupList(ms) && x.status == Closed && x.consumed
              && x.modelCallId !in NonEvictable(ms, retain) :: x.modelCallId)
        <==> g in Evictable(ms, retain)
    {
      NamedInList(ms, g);
    }
  }

  // ---------------------------------------------------------------- compression planning

  function LatestSummary(ms: seq<Message>): Option<Message> {
    if |ms| == 0 then None
    else
      var p, m := LatestSummary(ms[..|ms| - 1]), ms[|ms| - 1];
      if m.kind == "context_summary" && (p.None? || p.value.seqNo < m.seqNo) then Some(m) else p
  }

  lemma {:induction false} LatestSummaryMeaning(ms: seq<Message>)
    ensures LatestSummary(ms).Some? ==>
              LatestSummary(ms).value in ms && LatestSummary(ms).value.kind == "context_summary"
    ensures forall m | m in ms && m.kind == "context_summary" ::
            LatestSummary(ms).Some? && m.seqNo <= LatestSummary(ms).value.seqNo
  {
    if |ms| > 0 {
      LatestSummaryMeaning(ms[..|ms| - 1]);
      assert ms == ms[..|ms| - 1] + [ms[|ms| - 1]];
    }
  }

  function Instruction(b: Budgeting): Message {
    Message(1000000, "system", "compression_instruction", None, None, None, Text(b.prompt), [], None, PLAIN, None)
  }

  function SummaryText(summary: Option<Message>): Option<string> {
    if summary.None? then None else Some(ContentText(summary.value.content))
  }

  function Frame(b: Budgeting, summary: Option<string>, evicted: seq<Message>): CompressionFrame {
    CompressionFrame(summary, evicted, Instruction(b))
  }

  function BudgetTokens(b: Budgeting, summary: Option<Message>): int {
    b.window
    - (if summary.None? then 0 else EstimateCompressionFrame(b.render, Frame(b, SummaryText(summary), [])))
    - EstimateCompressionFrame(b.render, Frame(b, None, []))
    - FRAME_STRUCTURAL_TOKENS
    - b.reserved
  }

  function EligibleGroups(ms: seq<Message>, retain: int): seq<ModelCallGroup> {
    Filter((g: ModelCallGroup) => g.status == Closed && g.consumed && g.modelCallId !in NonEvictable(ms, retain),
           GroupList(ms))
  }

  function PrefixTokens(groups: seq<ModelCallGroup>, k: nat): int
    requires k <= |groups|
  {
    if k == 0 then 0 else PrefixTokens(groups, k - 1) + groups[k - 1].estimatedTokens
  }

  /** How many groups the greedy loop takes once `i` groups are taken. */
  function Greedy(groups: seq<ModelCallGroup>, budget: int, i: nat): nat
    requires i <= |groups|
    ensures i <= Greedy(groups, budget, i) <= |groups|
    decreases |groups| - i
  {
    if i == |groups| || PrefixTokens(groups, i) + groups[i].estimatedTokens > budget then i
    else Greedy(groups, budget, i + 1)
  }

  /** The dictionary from sequence number to message; a later message with the same number wins. */
  function BySeqNo(ms: seq<Message>): map<int, Message> {
    if |ms| == 0 then map[] else BySeqNo(ms[..|ms| - 1])[ms[|ms| - 1].seqNo := ms[|ms| - 1]]
  }

  function Lookup(index: map<int, Message>, ids: seq<int>): seq<Message> {
    if |ids| == 0 then []
    else
      Lookup(index, ids[..|ids| - 1])
      + (if ids[|ids| - 1] in index then [index[ids[|ids| - 1]]] else [])
  }

  function Picked(index: map<int, Message>, groups: seq<ModelCallGroup>): seq<Message> {
    if |groups| == 0 then []
    else Picked(index, groups[..|groups| - 1]) + Lookup(index, groups[|groups| - 1].messageIds)
  }

  function Ids(groups: seq<ModelCallGroup>): seq<string> {
    Map((g: ModelCallGroup) => g.modelCallId, groups)
  }

  /** The groups the greedy loop takes from a history. */
  function Selected(b: Budgeting, ms: seq<Message>, retain: int): seq<ModelCallGroup> {
    var eligible := EligibleGroups(ms, retain);
    eligible[..Greedy(eligible, BudgetTokens(b, LatestSummary(ms)), 0)]
  }

  function Picks(b: Budgeting, ms: seq<Message>, retain: int): seq<Message> {
    Picked(BySeqNo(ms), Selected(b, ms, retain))
  }

  function PlanFor(b: Budgeting, summary: Option<Message>, ids: seq<string>, evicted: seq<Message>): CompressionPlan {
    var frame := Frame(b, SummaryText(summary), evicted);
    CompressionPlan(frame, ids, evicted, summary, BudgetTokens(b, summary), EstimateCompressionFrame(b.render, frame))
  }

  function PlanVerdict(b: Budgeting, eligible: seq<ModelCallGroup>, budget: int, picks: seq<Message>,
                       plan: CompressionPlan)
      : Result<CompressionPlan, CompressionError> {
    if |eligible| == 0 then Err(NoEvictableHistory)
    else if budget <= 0 then Err(InvalidBudget)
    else if eligible[0].estimatedTokens > budget then Err(OldestGroupTooLarge)
    else if |picks| == 0 then Err(NoEvictableHistory)
    else if plan.estimate + b.reserved > b.window then Err(InputTooLarge)
    else Ok(plan)
  }

  function PlanCompression(b: Budgeting, ms: seq<Message>, retain: int): Result<CompressionPlan, CompressionError> {
    var summary, picks := LatestSummary(ms), Picks(b, ms, retain);
    PlanVerdict(b, EligibleGroups(ms, retain), BudgetTokens(b, summary), picks,
                PlanFor(b, summary, Ids(Selected(b, ms, retain)), Sort(BySeq, picks)))
  }

  method PrepareCompression(b: Budgeting, ms: seq<Message>, current: seq<Message>, retain: int)
      returns (r: Result<CompressionPlan, CompressionError>)
    ensures r == PlanCompression(b, ms, retain)
  {
    var summary := LatestSummary(ms);
    var groups := DeriveModelCallGroups(ms);
    var suffix := ComputeNonEvictableRawSuffix(ms, retain, current);
    var eligible := Filter((g: ModelCallGroup) => g.status == Closed && g.consumed
                           && g.modelCallId !in suffix.groupIds, groups);
    FilterSame((g: ModelCallGroup) => g.status == Closed && g.consumed && g.modelCallId !in suffix.groupIds,
               (g: ModelCallGroup) => g.status == Closed && g.consumed && g.modelCallId !in NonEvictable(ms, retain),
               groups);
    if |eligible| == 0 {
      return Err(NoEvictableHistory);
    }
    var budget := BudgetTokens(b, summary);
    if budget <= 0 {
      return Err(InvalidBudget);
    }
    var index := IndexMessages(ms);
    var failed, ids, selected := SelectGroups(eligible, budget, index);
    if failed {
      return Err(OldestGroupTooLarge);
    }
    if |selected| == 0 {
      return Err(NoEvictableHistory);
    }
    var frame := Frame(b, SummaryText(summary), Sort(BySeq, selected));
    var estimate := EstimateCompressionFrame(b.render, frame);
    if estimate + b.reserved > b.window {
      return Err(InputTooLarge);
    }
    r := Ok(CompressionPlan(frame, ids, Sort(BySeq, selected), summary, budget, estimate));
  }

  method IndexMessages(ms: seq<Message>) returns (index: map<int, Message>)
    ensures index == BySeqNo(ms)
  {
    index := map[];
    for i := 0 to |ms|
      invariant index == BySeqNo(ms[..i])
    {
      assert ms[..i + 1][..i] == ms[..i];
      index := index[ms[i].seqNo := ms[i]];
    }
    assert ms[..|ms|] == ms;
  }

  /**
   * The greedy loop: fails only when the oldest group alone is over budget, else takes groups until one does not fit.
   */
  method SelectGroups(eligible: seq<ModelCallGroup>, budget: int, index: map<int, Message>)
      returns (failed: bool, ids: seq<string>, selected: seq<Message>)
    requires |eligible| > 0
    ensures failed <==> eligible[0].estimatedTokens > budget
    ensures !failed ==> ids == Ids(eligible[..Greedy(eligible, budget, 0)])
    ensures !failed ==> selected == Picked(index, eligible[..Greedy(eligible, budget, 0)])
  {
    failed, ids, selected := false, [], [];
    var used, i := 0, 0;
    while i < |eligible|
      invariant i <= |eligible|
      invariant used == PrefixTokens(eligible, i)
      invariant ids == Ids(eligible[..i]) && selected == Picked(index, eligible[..i])
      invariant Greedy(eligible, budget, 0) == Greedy(eligible, budget, i)
      invariant i > 0 ==> eligible[0].estimatedTokens <= budget
    {
      var group := eligible[i];
      if group.estimatedTokens > budget && |ids| == 0 {
        failed := true;
        return;
      }
      if used + group.estimatedTokens > budget {
        break;
      }
      ids := ids + [group.modelCallId];
      used := used + group.estimatedTokens;
      selected := selected + Lookup(index, group.messageIds);
      assert eligible[..i + 1][..i] == eligible[..i];
      i := i + 1;
    }
  }

  // ---------------------------------------------------------------- history replacement

  function SummaryMessage(seqNo: int, json: string): Message {
    Message(seqNo, "runtime", "context_summary", None, None, None, Text(json), [], None, PLAIN, None)
  }

  predicate Removed(plan: CompressionPlan, m: Message) {
    || m.seqNo in (set e | e in plan.evicted :: e.seqNo)
    || (plan.previousSummary.Some? && m.seqNo == plan.previousSummary.value.seqNo)
  }

  function Kept(ms: seq<Message>, plan: CompressionPlan): seq<Message> {
    Filter(m => !Removed(plan, m), ms)
  }

  /** In order: everything not removed, and one new summary in the place of the earliest evicted message. */
  ghost predicate IsReplacement(ms: seq<Message>, plan: CompressionPlan, json: string, r: seq<Message>) {
    && Sorted(BySeq, r)
    && multiset(r) == multiset(Kept(ms, plan)) + multiset{SummaryMessage(MinSeq(plan.evicted), json)}
  }

  method ReplaceCompressedHistory(ms: seq<Message>, plan: CompressionPlan, json: string) returns (r: seq<Message>)
    requires |plan.evicted| > 0
    ensures IsReplacement(ms, plan, json, r)
  {
    var evictedIds := set e | e in plan.evicted :: e.seqNo;
    var insertion := MinSeq(plan.evicted);
    var summary := SummaryMessage(insertion, json);
    var inserted, after := false, [];
    for i := 0 to |ms|
      invariant multiset(after)
                == multiset(Kept(ms[..i], plan)) + (if inserted then multiset{summary} else multiset{})
    {
      var m := ms[i];
      assert ms[..i + 1] == ms[..i] + [m];
      FilterSnoc((x: Message) => !Removed(plan, x), ms[..i], m);
      if (plan.previousSummary.Some? && m.seqNo == plan.previousSummary.value.seqNo) || m.seqNo in evictedIds {
        if !inserted && m.seqNo >= insertion {
          after := after + [summary];
          inserted := true;
        }
      } else {
        after := after + [m];
      }
    }
    assert ms[..|ms|] == ms;
    if !inserted {
      after := [summary] + after;
    }
    r := Sort(BySeq, after);
    BySeqPreorder();
    SortSorted(BySeq, after);
  }

  lemma BySeqPreorder()
    ensures TotalPreorder(BySeq)
  {
  }
}
