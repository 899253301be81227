/** What omission and repeated compression keep, why repetition ends, and the compression budget. */
module EvictionLaws {
  import opened Wrappers
  import opened Sorting
  import opened Seqs
  import opened ModelContext
  import opened QueryControl
  import opened ContextManager

  // ---------------------------------------------------------------- omission

  /** The messages agree in all that grouping looks at; contents, durable indexes and references may differ. */
  predicate Alike(a: Message, b: Message) {
    && a.seqNo == b.seqNo && a.kind == b.kind && a.modelCallId == b.modelCallId && a.toolCallId == b.toolCallId
    && a.metadata.(durableIndex := None) == b.metadata.(durableIndex := None)
  }

  ghost predicate SameShape(ms: seq<Message>, r: seq<Message>) {
    |r| == |ms| && forall i | 0 <= i < |ms| :: Alike(ms[i], r[i])
  }

  lemma HalfShapeFacts(ms: seq<Message>, r: seq<Message>, g: string)
    requires SameShape(ms, r)
    ensures g in GroupIds(ms) ==> g in GroupIds(r)
    ensures Consumed(ms, g) ==> Consumed(r, g)
    ensures IsClosed(ms, g) ==> IsClosed(r, g)
  {
    assert forall i | 0 <= i < |ms| :: ms[i] in ms && r[i] in r;
    if IsClosed(ms, g) {
      forall i | 0 <= i < |r| && InGroup(r[i], g) && r[i].kind == "tool_call" && r[i].toolCallId.Some?
        ensures Answered(r, g, r[i].toolCallId.value)
      {
        assert ms[i] in ms && InGroup(ms[i], g);
        var a :| a in ms && IsResult(a, g, r[i].toolCallId.value);
        var k :| 0 <= k < |ms| && ms[k] == a;
        assert IsResult(r[k], g, r[i].toolCallId.value);
      }
    }
  }

  lemma StartLe(ms: seq<Message>, r: seq<Message>, g: string)
    requires SameShape(ms, r)
    ensures StartSeq(r, g) <= StartSeq(ms, g)
  {
    WithKeyMeaning(CallOf, ms, g);
    WithKeyMeaning(CallOf, r, g);
    var a, b := Members(ms, g), Members(r, g);
    if |a| > 0 {
      MinSeqMeaning(a);
      var m :| m in a && m.seqNo == MinSeq(a);
      var k :| 0 <= k < |ms| && ms[k] == m;
      assert r[k] in b;
      MinSeqMeaning(b);
    } else {
      forall x | x in r ensures !InGroup(x, g) {
        var k :| 0 <= k < |r| && r[k] == x;
        assert ms[k] !in a;
      }
      WithKeyNone(CallOf, r, g);
    }
  }

  /** Both histories have the same groups, equally closed, consumed and placed. */
  ghost predicate SameGroups(ms: seq<Message>, r: seq<Message>) {
    forall g ::
      && (g in GroupIds(r) <==> g in GroupIds(ms))
      && (Consumed(r, g) <==> Consumed(ms, g))
      && (IsClosed(r, g) <==> IsClosed(ms, g))
      && StartSeq(r, g) == StartSeq(ms, g)
  }

  lemma ShapeGroups(ms: seq<Message>, r: seq<Message>)
    requires SameShape(ms, r)
    ensures SameGroups(ms, r)
  {
    assert SameShape(r, ms);
    forall g
      ensures (g in GroupIds(r) <==> g in GroupIds(ms)) && (Consumed(r, g) <==> Consumed(ms, g))
              && (IsClosed(r, g) <==> IsClosed(ms, g)) && StartSeq(r, g) == StartSeq(ms, g)
    {
      HalfShapeFacts(ms, r, g);
      HalfShapeFacts(r, ms, g);
      StartLe(ms, r, g);
      StartLe(r, ms, g);
    }
  }

  lemma GroupsDecide(ms: seq<Message>, r: seq<Message>, retain: int)
    requires SameGroups(ms, r)
    ensures GroupIds(r) == GroupIds(ms) && ClosedIds(r) == ClosedIds(ms)
    ensures forall g :: LaterClosed(r, g) == LaterClosed(ms, g)
    ensures NonEvictable(r, retain) == NonEvictable(ms, retain) && Evictable(r, retain) == Evictable(ms, retain)
  {
    assert GroupIds(r) == GroupIds(ms);
    assert ClosedIds(r) == ClosedIds(ms);
    forall g ensures LaterClosed(r, g) == LaterClosed(ms, g) {
      assert forall h :: Before(r, g, h) <==> Before(ms, g, h);
    }
  }

  /** Groups, their status, their order and which of them are protected depend on nothing but the shape. */
  lemma OnlyShapeMatters(ms: seq<Message>, r: seq<Message>, retain: int)
    requires SameShape(ms, r)
    ensures SameGroups(ms, r)
    ensures GroupIds(r) == GroupIds(ms) && ClosedIds(r) == ClosedIds(ms)
    ensures forall g :: LaterClosed(r, g) == LaterClosed(ms, g)
    ensures NonEvictable(r, retain) == NonEvictable(ms, retain) && Evictable(r, retain) == Evictable(ms, retain)
  {
    ShapeGroups(ms, r);
    GroupsDecide(ms, r, retain);
  }

  /**
   * Omission changes nothing but the content of tool results of evictable groups, and moves no group in or out of
   * protection.
   */
  lemma OmissionKeepsStructure(ms: seq<Message>, retain: int)
    ensures |Omitted(ms, retain)| == |ms|
    ensures forall i | 0 <= i < |ms| :: Omitted(ms, retain)[i] == ms[i].(content := Omitted(ms, retain)[i].content)
    ensures forall i | 0 <= i < |ms| && Omitted(ms, retain)[i] != ms[i] ::
              && ms[i].kind == "tool_result" && ms[i].modelCallId.Some?
              && ms[i].modelCallId.value in Evictable(ms, retain)
              && Omitted(ms, retain)[i].content == MARKER
    ensures forall g | g in NonEvictable(ms, retain) :: SameGroup(ms, Omitted(ms, retain), g)
    ensures ClosedIds(Omitted(ms, retain)) == ClosedIds(ms)
    ensures NonEvictable(Omitted(ms, retain), retain) == NonEvictable(ms, retain)
  {
    var r := Omitted(ms, retain);
    OnlyShapeMatters(ms, r, retain);
    forall g | g in NonEvictable(ms, retain) ensures SameGroup(ms, r, g) {
      ProtectedUntouched(ms, r, g);
    }
  }

  lemma ProtectedUntouched(ms: seq<Message>, r: seq<Message>, g: string)
    requires SameShape(ms, r) && forall i | 0 <= i < |ms| && InGroup(ms[i], g) :: r[i] == ms[i]
    ensures SameGroup(ms, r, g)
  {
    forall m | InGroup(m, g) ensures m in ms <==> m in r {
      if m in ms {
        var k :| 0 <= k < |ms| && ms[k] == m;
        assert r[k] == m;
      }
      if m in r {
        var k :| 0 <= k < |r| && r[k] == m;
        assert InGroup(ms[k], g);
      }
    }
  }

  /** A second pass over the omitted history blanks nothing. */
  lemma OmissionIdempotent(ms: seq<Message>, retain: int)
    ensures Omitted(Omitted(ms, retain), retain) == Omitted(ms, retain)
    ensures |Filter(m => Omits(Omitted(ms, retain), retain, m), Omitted(ms, retain))| == 0
  {
    var r := Omitted(ms, retain);
    OnlyShapeMatters(ms, r, retain);
    var ids := NonEvictable(ms, retain);
    SameSeqsInGroups(ms, r, ids);
    var evictable, seqs := Evictable(ms, retain), IdsInGroups(ms, ids);
    forall m | m in r ensures !Blanks(evictable, seqs, m) {
      var i :| 0 <= i < |r| && r[i] == m;
      assert r[i] == Blanked(evictable, seqs, ms[i]);
    }
    FilterNone((m: Message) => Omits(r, retain, m), r);
    forall i | 0 <= i < |r| ensures Blanked(evictable, seqs, r[i]) == r[i] {
      assert r[i] in r;
    }
  }

  lemma SameSeqsInGroups(ms: seq<Message>, r: seq<Message>, ids: set<string>)
    requires SameShape(ms, r)
    ensures IdsInGroups(ms, ids) == IdsInGroups(r, ids)
  {
    forall n ensures n in IdsInGroups(ms, ids) <==> n in IdsInGroups(r, ids) {
      if n in IdsInGroups(ms, ids) {
        var m :| m in ms && m.modelCallId.Some? && m.modelCallId.value in ids && m.seqNo == n;
        var k :| 0 <= k < |ms| && ms[k] == m;
        assert r[k] in r && r[k].modelCallId == m.modelCallId;
      }
      if n in IdsInGroups(r, ids) {
        var m :| m in r && m.modelCallId.Some? && m.modelCallId.value in ids && m.seqNo == n;
        var k :| 0 <= k < |r| && r[k] == m;
        assert ms[k] in ms && ms[k].modelCallId == m.modelCallId;
      }
    }
  }

  // ---------------------------------------------------------------- what a plan evicts

  lemma {:induction false} BySeqNoMeaning(ms: seq<Message>)
    requires DistinctSeqs(ms)
    ensures forall m | m in ms :: m.seqNo in BySeqNo(ms) && BySeqNo(ms)[m.seqNo] == m
    ensures forall n | n in BySeqNo(ms) :: BySeqNo(ms)[n] in ms && BySeqNo(ms)[n].seqNo == n
  {
    if |ms| > 0 {
      var front, last := ms[..|ms| - 1], ms[|ms| - 1];
      LastSeqIsNew(ms);
      BySeqNoMeaning(front);
      assert forall m :: m in ms <==> m in front || m == last;
    }
  }

  lemma LastSeqIsNew(ms: seq<Message>)
    requires DistinctSeqs(ms) && |ms| > 0
    ensures DistinctSeqs(ms[..|ms| - 1])
    ensures forall m | m in ms[..|ms| - 1] :: m.seqNo != ms[|ms| - 1].seqNo
    ensures forall m :: m in ms <==> m in ms[..|ms| - 1] || m == ms[|ms| - 1]
  {
    var front, last := ms[..|ms| - 1], ms[|ms| - 1];
    forall m | m in front ensures m.seqNo != last.seqNo {
      var k :| 0 <= k < |front| && front[k] == m;
      assert ms[k] == m;
    }
    assert ms == front + [last];
  }

  lemma LookupSnoc(index: map<int, Message>, ids: seq<int>, id: int)
    ensures Lookup(index, ids + [id]) == Lookup(index, ids) + (if id in index then [index[id]] else [])
  {
    assert (ids + [id])[..|ids|] == ids;
  }

  lemma {:induction false} LookupMembers(ms: seq<Message>, members: seq<Message>)
    requires DistinctSeqs(ms) && forall m | m in members :: m in ms
    ensures Lookup(BySeqNo(ms), Map((m: Message) => m.seqNo, members)) == members
  {
    if |members| > 0 {
      var front, last := members[..|members| - 1], members[|members| - 1];
      assert members == front + [last];
      LookupMembers(ms, front);
      BySeqNoMeaning(ms);
      assert last in members;
      LookupSnoc(BySeqNo(ms), Map((m: Message) => m.seqNo, front), last.seqNo);
      assert Map((m: Message) => m.seqNo, members) == Map((m: Message) => m.seqNo, front) + [last.seqNo];
    }
  }

  ghost predicate AreGroups(ms: seq<Message>, groups: seq<ModelCallGroup>) {
    forall g | g in groups :: g == GroupOf(ms, g.modelCallId)
  }

  /** A group's message ids lead back to its messages in order. */
  lemma MembersFound(ms: seq<Message>, id: string)
    requires DistinctSeqs(ms)
    ensures Lookup(BySeqNo(ms), GroupOf(ms, id).messageIds) == Members(Sort(BySeq, ms), id)
    ensures forall m :: m in Members(Sort(BySeq, ms), id) <==> m in ms && InGroup(m, id)
  {
    var sorted := Sort(BySeq, ms);
    SameElements(ms, sorted);
    WithKeyMeaning(CallOf, sorted, id);
    LookupMembers(ms, Members(sorted, id));
  }

  lemma GroupMessagesFound(ms: seq<Message>, id: string)
    requires DistinctSeqs(ms)
    ensures forall m :: m in Lookup(BySeqNo(ms), GroupOf(ms, id).messageIds) <==> m in ms && InGroup(m, id)
    ensures SumStored(Lookup(BySeqNo(ms), GroupOf(ms, id).messageIds)) == GroupOf(ms, id).estimatedTokens
  {
    MembersFound(ms, id);
  }

  ghost predicate PicksGroups(ms: seq<Message>, picked: seq<Message>, ids: seq<string>) {
    forall m :: m in picked <==> m in ms && m.modelCallId.Some? && m.modelCallId.value in ids
  }

  lemma PicksOneMore(ms: seq<Message>, picked: seq<Message>, ids: seq<string>, found: seq<Message>, id: string)
    requires PicksGroups(ms, picked, ids) && forall m :: m in found <==> m in ms && InGroup(m, id)
    ensures PicksGroups(ms, picked + found, ids + [id])
  {
  }

  ghost predicate FoundIn(ms: seq<Message>, index: map<int, Message>, g: ModelCallGroup) {
    forall m :: m in Lookup(index, g.messageIds) <==> m in ms && InGroup(m, g.modelCallId)
  }

  lemma {:induction false} PicksFound(ms: seq<Message>, index: map<int, Message>, groups: seq<ModelCallGroup>)
    requires forall i | 0 <= i < |groups| :: FoundIn(ms, index, groups[i])
    ensures PicksGroups(ms, Picked(index, groups), Ids(groups))
  {
    if |groups| > 0 {
      var front, last := groups[..|groups| - 1], groups[|groups| - 1];
      PicksFound(ms, index, front);
      assert FoundIn(ms, index, last);
      PicksOneMore(ms, Picked(index, front), Ids(front), Lookup(index, last.messageIds), last.modelCallId);
      assert Ids(groups) == Ids(front) + [last.modelCallId];
    }
  }

  lemma PickedMeaning(ms: seq<Message>, groups: seq<ModelCallGroup>)
    requires DistinctSeqs(ms) && AreGroups(ms, groups)
    ensures PicksGroups(ms, Picked(BySeqNo(ms), groups), Ids(groups))
  {
    forall i | 0 <= i < |groups| ensures FoundIn(ms, BySeqNo(ms), groups[i]) {
      assert groups[i] in groups;
      GroupMessagesFound(ms, groups[i].modelCallId);
    }
    PicksFound(ms, BySeqNo(ms), groups);
  }

  lemma {:induction false} PickedTokens(render: Renderer, ms: seq<Message>, groups: seq<ModelCallGroup>)
    requires DistinctSeqs(ms) && AreGroups(ms, groups)
    ensures SumStored(Picked(BySeqNo(ms), groups)) == PrefixTokens(groups, |groups|)
  {
    if |groups| > 0 {
      var front, last := groups[..|groups| - 1], groups[|groups| - 1];
      assert forall g | g in front :: g in groups;
      PickedTokens(render, ms, front);
      assert last in groups;
      GroupMessagesFound(ms, last.modelCallId);
      EstimateAppend(render, Picked(BySeqNo(ms), front), Lookup(BySeqNo(ms), last.messageIds));
      PrefixTokensAgree(groups, front, |front|);
    }
  }

  lemma {:induction false} PrefixTokensAgree(a: seq<ModelCallGroup>, b: seq<ModelCallGroup>, k: nat)
    requires k <= |a| && k <= |b| && a[..k] == b[..k]
    ensures PrefixTokens(a, k) == PrefixTokens(b, k)
  {
    if k > 0 {
      assert a[k - 1] == a[..k][k - 1] == b[..k][k - 1] == b[k - 1];
      assert a[..k - 1] == a[..k][..k - 1] == b[..k][..k - 1] == b[..k - 1];
      PrefixTokensAgree(a, b, k - 1);
    }
  }

  lemma EligibleAreGroups(ms: seq<Message>, retain: int)
    ensures AreGroups(ms, EligibleGroups(ms, retain))
    ensures forall g | g in EligibleGroups(ms, retain) :: g.modelCallId in Evictable(ms, retain) && |g.messageIds| > 0
    ensures (|EligibleGroups(ms, retain)| == 0) <==> (Evictable(ms, retain) == {})
  {
    var p := (g: ModelCallGroup) => g.status == Closed && g.consumed && g.modelCallId !in NonEvictable(ms, retain);
    FilterMeaning(p, GroupList(ms));
    var eligible := EligibleGroups(ms, retain);
    forall g | g in eligible
      ensures g == GroupOf(ms, g.modelCallId) && g.modelCallId in Evictable(ms, retain) && |g.messageIds| > 0
    {
      var id := g.modelCallId;
      NamedInList(ms, id);
      MemberSeqs(ms, id);
      var m :| m in ms && m.modelCallId == Some(id);
      assert InGroup(m, id) && m.seqNo in GroupOf(ms, id).messageIds;
    }
    forall g | g in Evictable(ms, retain) ensures GroupOf(ms, g) in eligible {
      NamedInList(ms, g);
    }
    if |eligible| > 0 {
      assert eligible[0] in eligible;
    }
  }

  lemma SelectedAreGroups(b: Budgeting, ms: seq<Message>, retain: int)
    ensures AreGroups(ms, Selected(b, ms, retain))
    ensures forall id | id in Ids(Selected(b, ms, retain)) :: id in Evictable(ms, retain)
  {
    EligibleAreGroups(ms, retain);
    var eligible, selected := EligibleGroups(ms, retain), Selected(b, ms, retain);
    forall g | g in selected ensures g in eligible {
    }
    MapIn((g: ModelCallGroup) => g.modelCallId, selected);
  }

  /** What a plan says about the history it was made for: it evicts exactly the messages of its selected groups. */
  ghost predicate EvictsSelection(ms: seq<Message>, plan: CompressionPlan) {
    && |plan.selectedIds| > 0 && |plan.evicted| > 0
    && (forall m :: m in plan.evicted <==> m in ms && m.modelCallId.Some? && m.modelCallId.value in plan.selectedIds)
    && plan.previousSummary == LatestSummary(ms)
  }

  lemma PicksMeaning(b: Budgeting, ms: seq<Message>, retain: int)
    requires DistinctSeqs(ms)
    ensures PicksGroups(ms, Picks(b, ms, retain), Ids(Selected(b, ms, retain)))
    ensures SumStored(Picks(b, ms, retain)) == PrefixTokens(Selected(b, ms, retain), |Selected(b, ms, retain)|)
  {
    var selected := Selected(b, ms, retain);
    SelectedAreGroups(b, ms, retain);
    PickedMeaning(ms, selected);
    PickedTokens(b.render, ms, selected);
  }

  lemma SelectionEvicts(ms: seq<Message>, plan: CompressionPlan, ids: seq<string>, picks: seq<Message>)
    requires |picks| > 0 && multiset(plan.evicted) == multiset(picks) && plan.selectedIds == ids
    requires forall m :: m in picks <==> m in ms && m.modelCallId.Some? && m.modelCallId.value in ids
    requires plan.previousSummary == LatestSummary(ms)
    ensures EvictsSelection(ms, plan)
  {
    SameElements(picks, plan.evicted);
    assert picks[0] in picks;
    assert picks[0] in plan.evicted;
  }

  lemma VerdictOk(b: Budgeting, eligible: seq<ModelCallGroup>, budget: int, picks: seq<Message>, plan: CompressionPlan,
                  made: CompressionPlan)
    requires PlanVerdict(b, eligible, budget, picks, plan) == Ok(made)
    ensures made == plan && |picks| > 0 && budget > 0
  {
  }

  /** A plan evicts exactly the messages of the selected groups, all of them evictable. */
  lemma PlanEvicts(b: Budgeting, ms: seq<Message>, retain: int, plan: CompressionPlan)
    requires DistinctSeqs(ms) && PlanCompression(b, ms, retain) == Ok(plan)
    ensures EvictsSelection(ms, plan)
    ensures forall id | id in plan.selectedIds :: id in Evictable(ms, retain)
  {
    var summary, ids, picks := LatestSummary(ms), Ids(Selected(b, ms, retain)), Picks(b, ms, retain);
    VerdictOk(b, EligibleGroups(ms, retain), BudgetTokens(b, summary), picks,
              PlanFor(b, summary, ids, Sort(BySeq, picks)), plan);
    SelectedAreGroups(b, ms, retain);
    PicksMeaning(b, ms, retain);
    SelectionEvicts(ms, plan, ids, picks);
  }

  /** The greedy loop takes the longest run of eligible groups whose every prefix fits the budget. */
  lemma {:induction false} LongestPrefix(groups: seq<ModelCallGroup>, budget: int, i: nat)
    requires i <= |groups|
    ensures forall j | i < j <= Greedy(groups, budget, i) :: PrefixTokens(groups, j) <= budget
    ensures Greedy(groups, budget, i) < |groups| ==> PrefixTokens(groups, Greedy(groups, budget, i) + 1) > budget
    decreases |groups| - i
  {
    if i < |groups| && PrefixTokens(groups, i) + groups[i].estimatedTokens <= budget {
      LongestPrefix(groups, budget, i + 1);
    }
  }

  lemma {:induction false} PrefixTokensGrow(groups: seq<ModelCallGroup>, i: nat, j: nat)
    requires i <= j <= |groups| && forall g | g in groups :: g.estimatedTokens >= 0
    ensures PrefixTokens(groups, i) <= PrefixTokens(groups, j)
    decreases j - i
  {
    if i < j {
      PrefixTokensGrow(groups, i + 1, j);
      assert groups[i] in groups;
    }
  }

  /** With no negative group, the loop takes j groups or more exactly when the first j together fit the budget. */
  lemma SelectionIsMaximal(groups: seq<ModelCallGroup>, budget: int, j: nat)
    requires 0 < j <= |groups| && forall g | g in groups :: g.estimatedTokens >= 0
    ensures j <= Greedy(groups, budget, 0) <==> PrefixTokens(groups, j) <= budget
  {
    LongestPrefix(groups, budget, 0);
    var k := Greedy(groups, budget, 0);
    if k < j {
      PrefixTokensGrow(groups, k + 1, j);
    }
  }

  // ---------------------------------------------------------------- the budget

  function Slack(b: Budgeting, summary: Option<Message>): int {
    if summary.None? then FRAME_STRUCTURAL_TOKENS
    else 2 * FRAME_STRUCTURAL_TOKENS + EstimateMessage(b.render, Instruction(b))
  }

  /** What a frame leaves of the window is the budget plus the slack less what the evicted messages cost. */
  lemma BudgetArithmetic(b: Budgeting, summary: Option<Message>, evicted: seq<Message>)
    ensures b.window - b.reserved - EstimateCompressionFrame(b.render, Frame(b, SummaryText(summary), evicted))
            == BudgetTokens(b, summary) + Slack(b, summary) - EstimateMessages(b.render, evicted)
  {
    EstimateAppend(b.render, evicted, [Instruction(b)]);
    EstimateAppend(b.render, [], [Instruction(b)]);
    assert [] + [Instruction(b)] == [Instruction(b)];
  }

  lemma FirstPicked(b: Budgeting, ms: seq<Message>, retain: int)
    requires DistinctSeqs(ms) && Evictable(ms, retain) != {}
    requires |EligibleGroups(ms, retain)| > 0
    requires EligibleGroups(ms, retain)[0].estimatedTokens <= BudgetTokens(b, LatestSummary(ms))
    ensures |Picks(b, ms, retain)| > 0
  {
    var eligible, selected := EligibleGroups(ms, retain), Selected(b, ms, retain);
    EligibleAreGroups(ms, retain);
    var budget := BudgetTokens(b, LatestSummary(ms));
    assert PrefixTokens(eligible, 0) == 0;
    assert Greedy(eligible, budget, 0) == Greedy(eligible, budget, 1);
    assert selected[0] == eligible[0];
    assert eligible[0] in eligible;
    var id := selected[0].modelCallId;
    assert Ids(selected)[0] == id;
    assert id in GroupIds(ms);
    var m :| m in ms && m.modelCallId == Some(id);
    PicksMeaning(b, ms, retain);
    assert m in Picks(b, ms, retain);
  }

  lemma VerdictMeaning(b: Budgeting, eligible: seq<ModelCallGroup>, budget: int, picks: seq<Message>,
                       plan: CompressionPlan)
    requires |eligible| > 0 && budget > 0 && eligible[0].estimatedTokens <= budget ==> |picks| > 0
    ensures var r := PlanVerdict(b, eligible, budget, picks, plan);
            && (r == Err(NoEvictableHistory) <==> |eligible| == 0)
            && (r == Err(InvalidBudget) <==> |eligible| > 0 && budget <= 0)
            && (r == Err(OldestGroupTooLarge) <==> |eligible| > 0 && budget > 0 && eligible[0].estimatedTokens > budget)
            && (r == Err(InputTooLarge) <==>
                && |eligible| > 0 && budget > 0 && eligible[0].estimatedTokens <= budget
                   && plan.estimate + b.reserved > b.window)
  {
  }

  /** Exactly when planning fails: nothing evictable; no budget; the oldest group over budget; or the evicted messages,
      counted by the estimator, over the budget by more than the slack. */
  lemma PlanFailures(b: Budgeting, ms: seq<Message>, retain: int)
    requires DistinctSeqs(ms)
    ensures var r := PlanCompression(b, ms, retain);
            var budget := BudgetTokens(b, LatestSummary(ms));
            var eligible := EligibleGroups(ms, retain);
            && (Evictable(ms, retain) == {} <==> |eligible| == 0)
            && (r == Err(NoEvictableHistory) <==> |eligible| == 0)
            && (r == Err(InvalidBudget) <==> |eligible| > 0 && budget <= 0)
            && (r == Err(OldestGroupTooLarge) <==> |eligible| > 0 && budget > 0 && eligible[0].estimatedTokens > budget)
            && (r == Err(InputTooLarge) <==>
                && |eligible| > 0 && budget > 0 && eligible[0].estimatedTokens <= budget
                && EstimateMessages(b.render, Picks(b, ms, retain)) > budget + Slack(b, LatestSummary(ms)))
  {
    NoneEligible(ms, retain);
    var eligible, summary, picks := EligibleGroups(ms, retain), LatestSummary(ms), Picks(b, ms, retain);
    var plan := PlanFor(b, summary, Ids(Selected(b, ms, retain)), Sort(BySeq, picks));
    if |eligible| > 0 && eligible[0].estimatedTokens <= BudgetTokens(b, summary) {
      FirstPicked(b, ms, retain);
    }
    PlanOverflow(b, summary, Ids(Selected(b, ms, retain)), picks);
    VerdictMeaning(b, eligible, BudgetTokens(b, summary), picks, plan);
  }

  lemma NoneEligible(ms: seq<Message>, retain: int)
    ensures Evictable(ms, retain) == {} <==> |EligibleGroups(ms, retain)| == 0
  {
    EligibleAreGroups(ms, retain);
  }

  lemma PlanOverflow(b: Budgeting, summary: Option<Message>, ids: seq<string>, picks: seq<Message>)
    ensures b.window - b.reserved - PlanFor(b, summary, ids, Sort(BySeq, picks)).estimate
            == BudgetTokens(b, summary) + Slack(b, summary) - EstimateMessages(b.render, picks)
  {
    BudgetArithmetic(b, summary, Sort(BySeq, picks));
    SumsPermute(b.render, picks, Sort(BySeq, picks));
  }

  lemma SelectionWithinBudget(b: Budgeting, ms: seq<Message>, retain: int)
    requires DistinctSeqs(ms)
    requires BudgetTokens(b, LatestSummary(ms)) > 0
    ensures SumStored(Picks(b, ms, retain)) <= BudgetTokens(b, LatestSummary(ms))
  {
    var eligible, selected := EligibleGroups(ms, retain), Selected(b, ms, retain);
    PicksMeaning(b, ms, retain);
    LongestPrefix(eligible, BudgetTokens(b, LatestSummary(ms)), 0);
    PrefixTokensAgree(selected, eligible, |selected|);
  }

  /** When every stored estimate covers the estimator's own figure, `InputTooLarge` cannot arise, and a plan leaves at
      least the frame's structural tokens of the window unused. */
  lemma CoveredHistoryFits(b: Budgeting, ms: seq<Message>, retain: int)
    requires DistinctSeqs(ms)
    requires forall m | m in ms :: EstimateMessage(b.render, m) <= StoredTokens(m)
    ensures PlanCompression(b, ms, retain) != Err(InputTooLarge)
    ensures PlanCompression(b, ms, retain).Ok? ==>
              PlanCompression(b, ms, retain).value.estimate + b.reserved + FRAME_STRUCTURAL_TOKENS <= b.window
  {
    PlanFailures(b, ms, retain);
    if BudgetTokens(b, LatestSummary(ms)) > 0 {
      PicksMeaning(b, ms, retain);
      StoredCoversEstimate(b.render, Picks(b, ms, retain));
      SelectionWithinBudget(b, ms, retain);
      PlanOverflow(b, LatestSummary(ms), Ids(Selected(b, ms, retain)), Picks(b, ms, retain));
    }
  }

  // ---------------------------------------------------------------- replacing evicted history

  ghost predicate SummariesUngrouped(ms: seq<Message>) {
    forall m | m in ms && m.kind == "context_summary" :: m.modelCallId == None
  }

  ghost predicate GoodHistory(ms: seq<Message>) {
    DistinctSeqs(ms) && SummariesUngrouped(ms)
  }

  lemma SameSeqSameMessage(ms: seq<Message>, a: Message, b: Message)
    requires DistinctSeqs(ms) && a in ms && b in ms && a.seqNo == b.seqNo
    ensures a == b
  {
    var i :| 0 <= i < |ms| && ms[i] == a;
    var j :| 0 <= j < |ms| && ms[j] == b;
    assert i == j;
  }

  /** One round: plan on `ms`, then replace. */
  ghost predicate Compresses(b: Budgeting, retain: int, json: string, ms: seq<Message>, r: seq<Message>) {
    && PlanCompression(b, ms, retain).Ok?
    && IsReplacement(ms, PlanCompression(b, ms, retain).value, json, r)
  }

  lemma RemovedMeaning(ms: seq<Message>, plan: CompressionPlan, m: Message)
    requires DistinctSeqs(ms) && EvictsSelection(ms, plan) && m in ms
    ensures Removed(plan, m) <==> m in plan.evicted || LatestSummary(ms) == Some(m)
  {
    LatestSummaryMeaning(ms);
    if m.seqNo in (set e | e in plan.evicted :: e.seqNo) {
      var e :| e in plan.evicted && e.seqNo == m.seqNo;
      SameSeqSameMessage(ms, m, e);
    }
    if plan.previousSummary.Some? && m.seqNo == plan.previousSummary.value.seqNo {
      SameSeqSameMessage(ms, m, plan.previousSummary.value);
    }
  }

  lemma KeptMeaning(ms: seq<Message>, plan: CompressionPlan)
    requires DistinctSeqs(ms) && EvictsSelection(ms, plan)
    ensures forall m :: m in Kept(ms, plan) <==> m in ms && m !in plan.evicted && LatestSummary(ms) != Some(m)
    ensures forall m | m in Kept(ms, plan) :: m.seqNo != MinSeq(plan.evicted)
    ensures DistinctSeqs(Kept(ms, plan))
  {
    var kept := Kept(ms, plan);
    FilterMeaning((m: Message) => !Removed(plan, m), ms);
    MinSeqMeaning(plan.evicted);
    forall m | m in ms ensures Removed(plan, m) <==> m in plan.evicted || LatestSummary(ms) == Some(m) {
      RemovedMeaning(ms, plan, m);
    }
    var differ := (x: Message, y: Message) => x.seqNo != y.seqNo;
    assert Sorted(differ, ms);
    FilterSorted(differ, (m: Message) => !Removed(plan, m), ms);
    assert Sorted(differ, kept);
    assert forall i, j | 0 <= i < j < |kept| :: differ(kept[i], kept[j]);
  }

  /**
   * Exactly the evicted messages and the previous summary go; exactly one new summary comes; order is by sequence
   * number.
   */
  lemma ReplacementContents(ms: seq<Message>, plan: CompressionPlan, json: string, r: seq<Message>)
    requires GoodHistory(ms) && EvictsSelection(ms, plan) && IsReplacement(ms, plan, json, r)
    ensures var summary := SummaryMessage(MinSeq(plan.evicted), json);
            && summary !in Kept(ms, plan)
            && (forall m :: m in r <==> m == summary || (m in ms && m !in plan.evicted && LatestSummary(ms) != Some(m)))
    ensures StrictlyOrdered(r) && GoodHistory(r)
  {
    var summary := SummaryMessage(MinSeq(plan.evicted), json);
    var kept := Kept(ms, plan);
    KeptMeaning(ms, plan);
    SameElements(r, kept + [summary]);
    ReplacementDistinct(kept, summary, r);
  }

  lemma ReplacementDistinct(kept: seq<Message>, summary: Message, r: seq<Message>)
    requires DistinctSeqs(kept) && forall m | m in kept :: m.seqNo != summary.seqNo
    requires Sorted(BySeq, r) && multiset(r) == multiset(kept) + multiset{summary}
    ensures StrictlyOrdered(r)
  {
    var all := kept + [summary];
    assert multiset(r) == multiset(all);
    SameElements(r, all);
    assert NoRepeats(all);
    RepeatsPermute(all, r);
    assert DistinctSeqs(all);
    forall i, j | 0 <= i < j < |r| ensures r[i].seqNo < r[j].seqNo {
      assert BySeq(r[i], r[j]);
      assert r[i] in all && r[j] in all;
      var k :| 0 <= k < |all| && all[k] == r[i];
      var l :| 0 <= l < |all| && all[l] == r[j];
      assert k != l;
    }
  }

  /** Every group outside the selection keeps exactly its messages; a selected group is gone. */
  lemma SurvivingGroups(ms: seq<Message>, plan: CompressionPlan, json: string, r: seq<Message>, g: string)
    requires GoodHistory(ms) && EvictsSelection(ms, plan) && IsReplacement(ms, plan, json, r)
    ensures g !in plan.selectedIds ==> SameGroup(ms, r, g)
    ensures g in plan.selectedIds ==> g !in GroupIds(r)
    ensures Consumed(r, g) ==> Consumed(ms, g)
  {
    ReplacementContents(ms, plan, json, r);
    LatestSummaryMeaning(ms);
  }

  /** Dropping some evictable groups and some consumption marks leaves the protected groups protected. */
  lemma ProtectionGrows(ms: seq<Message>, r: seq<Message>, gone: set<string>, retain: int)
    requires forall g | g !in gone :: SameGroup(ms, r, g)
    requires forall g | g in gone :: g !in GroupIds(r)
    requires forall g | Consumed(r, g) :: Consumed(ms, g)
    requires gone <= Evictable(ms, retain)
    ensures NonEvictable(ms, retain) <= NonEvictable(r, retain)
    ensures Evictable(r, retain) <= Evictable(ms, retain) - gone
  {
    forall g | g !in gone
      ensures g in GroupIds(ms) <==> g in GroupIds(r)
      ensures IsClosed(ms, g) <==> IsClosed(r, g)
      ensures StartSeq(ms, g) == StartSeq(r, g)
    {
      SameGroupFacts(ms, r, g);
    }
    forall g | g in GroupIds(r) ensures |LaterClosed(r, g)| <= |LaterClosed(ms, g)| {
      assert LaterClosed(r, g) <= LaterClosed(ms, g);
      SubsetSize(LaterClosed(r, g), LaterClosed(ms, g));
    }
  }

  /** A protected group loses nothing and stays protected; nothing becomes evictable; what was selected is gone. */
  lemma CompressionKeepsProtected(b: Budgeting, retain: int, json: string, ms: seq<Message>, r: seq<Message>)
    requires GoodHistory(ms) && Compresses(b, retain, json, ms, r)
    ensures GoodHistory(r)
    ensures forall g | g in NonEvictable(ms, retain) :: SameGroup(ms, r, g) && g in NonEvictable(r, retain)
    ensures Evictable(r, retain) < Evictable(ms, retain)
  {
    var plan := PlanCompression(b, ms, retain).value;
    PlanEvicts(b, ms, retain, plan);
    ReplacementContents(ms, plan, json, r);
    forall g
      ensures g !in plan.selectedIds ==> SameGroup(ms, r, g)
      ensures g in plan.selectedIds ==> g !in GroupIds(r)
      ensures Consumed(r, g) ==> Consumed(ms, g)
    {
      SurvivingGroups(ms, plan, json, r, g);
    }
    var gone := Names(plan.selectedIds);
    ProtectionGrows(ms, r, gone, retain);
    assert plan.selectedIds[0] in gone;
  }

  lemma {:induction false} SubsetSize<T>(a: set<T>, b: set<T>)
    requires a <= b
    ensures |a| <= |b|
  {
    assert b == a + (b - a);
  }

  /** A chain of rounds, each with its own budget settings and summary. */
  ghost predicate IsChain(bs: seq<Budgeting>, jsons: seq<string>, retain: int, hs: seq<seq<Message>>) {
    && |hs| > 0 && |bs| == |jsons| == |hs| - 1
    && forall i | 0 <= i < |bs| :: Compresses(bs[i], retain, jsons[i], hs[i], hs[i + 1])
  }

  /** Repeated compression ends: a chain is no longer than the number of evictable groups it starts with, and
      throughout it every protected group keeps all its messages and its protection. */
  lemma {:induction false} ChainEnds(bs: seq<Budgeting>, jsons: seq<string>, retain: int, hs: seq<seq<Message>>)
    requires IsChain(bs, jsons, retain, hs) && GoodHistory(hs[0])
    ensures |bs| + |Evictable(hs[|hs| - 1], retain)| <= |Evictable(hs[0], retain)|
    ensures forall g | g in NonEvictable(hs[0], retain) ::
            SameGroup(hs[0], hs[|hs| - 1], g) && g in NonEvictable(hs[|hs| - 1], retain)
    decreases |hs|
  {
    if |hs| > 1 {
      CompressionKeepsProtected(bs[0], retain, jsons[0], hs[0], hs[1]);
      StrictSubsetSize(Evictable(hs[1], retain), Evictable(hs[0], retain));
      ChainTail(bs, jsons, retain, hs);
      ChainEnds(bs[1..], jsons[1..], retain, hs[1..]);
      var last := hs[|hs| - 1];
      assert last == hs[1..][|hs[1..]| - 1];
      forall g | g in NonEvictable(hs[0], retain) ensures SameGroup(hs[0], last, g) && g in NonEvictable(last, retain) {
        SameGroupChain(hs[0], hs[1], last, g);
      }
    }
  }

  lemma SameGroupChain(a: seq<Message>, b: seq<Message>, c: seq<Message>, g: string)
    requires SameGroup(a, b, g) && SameGroup(b, c, g)
    ensures SameGroup(a, c, g)
  {
  }

  lemma ChainTail(bs: seq<Budgeting>, jsons: seq<string>, retain: int, hs: seq<seq<Message>>)
    requires IsChain(bs, jsons, retain, hs) && |hs| > 1
    ensures IsChain(bs[1..], jsons[1..], retain, hs[1..])
  {
    forall i | 0 <= i < |bs[1..]| ensures Compresses(bs[1..][i], retain, jsons[1..][i], hs[1..][i], hs[1..][i + 1]) {
      assert Compresses(bs[i + 1], retain, jsons[i + 1], hs[i + 1], hs[i + 2]);
    }
  }

  lemma StrictSubsetSize<T>(a: set<T>, b: set<T>)
    requires a < b
    ensures |a| < |b|
  {
    assert b == a + (b - a);
    assert b - a != {};
  }

  // ---------------------------------------------------------------- histories without stored estimates


  lemma {:induction false} PartOfEstimate(render: Renderer, ms: seq<Message>, m: Message)
    requires m in ms
    ensures EstimateMessages(render, ms) >= EstimateMessage(render, m)
  {
    if ms[|ms| - 1] != m {
      PartOfEstimate(render, ms[..|ms| - 1], m);
    }
  }

  /** A message counts at least a quarter of its content. */
  lemma ContentCounts(render: Renderer, m: Message)
    ensures 4 * EstimateMessage(render, m) >= |ContentText(m.content)|
  {
    assert |VisibleText(render, m)| >= |ContentText(m.content)|;
  }

  lemma {:induction false} NothingStored(ms: seq<Message>)
    requires NoStored(ms)
    ensures SumStored(ms) == 0
  {
    if |ms| > 0 {
      NothingStored(ms[..|ms| - 1]);
    }
  }

  /** With no stored estimates every group counts as zero tokens. */
  lemma UncountedGroup(ms: seq<Message>, retain: int)
    requires NoStored(ms)
    ensures forall g | g in EligibleGroups(ms, retain) :: g.estimatedTokens == 0
  {
    EligibleAreGroups(ms, retain);
    forall g | g in EligibleGroups(ms, retain) ensures g.estimatedTokens == 0 {
      UncountedSummary(ms, g.modelCallId);
    }
  }

  lemma UncountedSummary(ms: seq<Message>, id: string)
    requires NoStored(ms)
    ensures GroupOf(ms, id).estimatedTokens == 0
  {
    var sorted := Sort(BySeq, ms);
    SameElements(ms, sorted);
    WithKeyMeaning(CallOf, sorted, id);
    NothingStored(Members(sorted, id));
  }

  lemma {:induction false} ZeroPrefix(groups: seq<ModelCallGroup>, k: nat)
    requires k <= |groups| && forall g | g in groups :: g.estimatedTokens == 0
    ensures PrefixTokens(groups, k) == 0
  {
    if k > 0 {
      ZeroPrefix(groups, k - 1);
      assert groups[k - 1] in groups;
    }
  }

  lemma AllSelected(b: Budgeting, ms: seq<Message>, retain: int)
    requires NoStored(ms)
    requires BudgetTokens(b, LatestSummary(ms)) > 0
    ensures Selected(b, ms, retain) == EligibleGroups(ms, retain)
  {
    var eligible := EligibleGroups(ms, retain);
    UncountedGroup(ms, retain);
    if |eligible| > 0 {
      ZeroPrefix(eligible, |eligible|);
      SelectionIsMaximal(eligible, BudgetTokens(b, LatestSummary(ms)), |eligible|);
    }
  }

  function InAny(ids: set<string>, m: Message): bool {
    m.modelCallId.Some? && m.modelCallId.value in ids
  }

  /** All messages of evictable groups. */
  function EvictableMessages(ms: seq<Message>, retain: int): seq<Message> {
    var ids := Evictable(ms, retain);
    Filter(m => InAny(ids, m), ms)
  }

  predicate OtherGroup(g: ModelCallGroup, h: ModelCallGroup) {
    g.modelCallId != h.modelCallId
  }

  lemma ListedDistinct(ms: seq<Message>)
    ensures Sorted(OtherGroup, GroupList(ms))
  {
    OrderedIdsMeaning(ms);
    ListedGroups(ms);
  }

  lemma DistinctIds(groups: seq<ModelCallGroup>)
    requires Sorted(OtherGroup, groups)
    ensures NoRepeats(Ids(groups))
  {
    forall i, j | 0 <= i < j < |groups| ensures Ids(groups)[i] != Ids(groups)[j] {
      assert OtherGroup(groups[i], groups[j]);
    }
  }

  lemma EligibleDistinct(ms: seq<Message>, retain: int)
    ensures NoRepeats(Ids(EligibleGroups(ms, retain)))
  {
    ListedDistinct(ms);
    FilterSorted(OtherGroup, (g: ModelCallGroup) => g.status == Closed && g.consumed
                 && g.modelCallId !in NonEvictable(ms, retain), GroupList(ms));
    DistinctIds(EligibleGroups(ms, retain));
  }

  lemma SortedDistinct(ms: seq<Message>)
    requires DistinctSeqs(ms)
    ensures NoRepeats(Sort(BySeq, ms))
  {
    assert NoRepeats(ms);
    RepeatsPermute(ms, Sort(BySeq, ms));
  }

  lemma MembersDistinct(ms: seq<Message>, id: string)
    requires DistinctSeqs(ms)
    ensures NoRepeats(Lookup(BySeqNo(ms), GroupOf(ms, id).messageIds))
  {
    MembersFound(ms, id);
    SortedDistinct(ms);
    WithKeyDistinct(CallOf, Sort(BySeq, ms), id);
  }

  lemma DisjointConcat(a: seq<Message>, b: seq<Message>)
    requires NoRepeats(a) && NoRepeats(b) && forall m | m in a :: m !in b
    ensures NoRepeats(a + b)
  {
    var all := a + b;
    forall i, j | 0 <= i < j < |all| ensures all[i] != all[j] {
      if i < |a| <= j {
        assert all[i] in a && all[j] in b;
      }
    }
  }

  lemma LastIdIsNew(groups: seq<ModelCallGroup>)
    requires |groups| > 0 && NoRepeats(Ids(groups))
    ensures var n := |groups| - 1; NoRepeats(Ids(groups[..n])) && groups[n].modelCallId !in Ids(groups[..n])
  {
    var n := |groups| - 1;
    var ids, front := Ids(groups), Ids(groups[..n]);
    assert forall i | 0 <= i < n :: front[i] == ids[i];
    assert ids[n] == groups[n].modelCallId;
  }

  lemma NextPickDisjoint(ms: seq<Message>, front: seq<ModelCallGroup>, id: string, picked: seq<Message>)
    requires DistinctSeqs(ms) && id !in Ids(front) && NoRepeats(picked)
    requires PicksGroups(ms, picked, Ids(front))
    ensures NoRepeats(picked + Lookup(BySeqNo(ms), GroupOf(ms, id).messageIds))
  {
    GroupMessagesFound(ms, id);
    MembersDistinct(ms, id);
    DisjointConcat(picked, Lookup(BySeqNo(ms), GroupOf(ms, id).messageIds));
  }

  lemma {:induction false} PickedDistinct(ms: seq<Message>, groups: seq<ModelCallGroup>)
    requires DistinctSeqs(ms) && AreGroups(ms, groups) && NoRepeats(Ids(groups))
    ensures NoRepeats(Picked(BySeqNo(ms), groups))
  {
    if |groups| > 0 {
      var front, last := groups[..|groups| - 1], groups[|groups| - 1];
      assert forall g | g in front :: g in groups;
      assert last in groups;
      LastIdIsNew(groups);
      PickedDistinct(ms, front);
      PickedMeaning(ms, front);
      NextPickDisjoint(ms, front, last.modelCallId, Picked(BySeqNo(ms), front));
    }
  }

  lemma SameDistinct(a: seq<Message>, b: seq<Message>)
    requires NoRepeats(a) && NoRepeats(b) && forall m :: m in a <==> m in b
    ensures multiset(a) == multiset(b)
  {
    forall m ensures multiset(a)[m] == multiset(b)[m] {
      AtMostOnce(a, m);
      AtMostOnce(b, m);
      assert m in multiset(a) <==> m in a;
      assert m in multiset(b) <==> m in b;
    }
  }

  /**
   * Without stored estimates the greedy loop takes every evictable group, so the plan's messages are all evictable
   * ones.
   */
  lemma AllPicked(b: Budgeting, ms: seq<Message>, retain: int)
    requires DistinctSeqs(ms) && NoStored(ms) && BudgetTokens(b, LatestSummary(ms)) > 0
    ensures multiset(Picks(b, ms, retain)) == multiset(EvictableMessages(ms, retain))
    ensures forall id :: id in Ids(Selected(b, ms, retain)) <==> id in Evictable(ms, retain)
  {
    var ids := Evictable(ms, retain);
    AllSelected(b, ms, retain);
    EligibleIds(ms, retain);
    EligibleDistinct(ms, retain);
    PicksMeaning(b, ms, retain);
    SelectedAreGroups(b, ms, retain);
    PickedDistinct(ms, Selected(b, ms, retain));
    FilterMeaning(m => InAny(ids, m), ms);
    FilterDistinct(m => InAny(ids, m), ms);
    SameDistinct(Picks(b, ms, retain), EvictableMessages(ms, retain));
  }

  ghost predicate NoStored(ms: seq<Message>) {
    forall m | m in ms :: m.estimatedTokens == None
  }

  /**
   * The runtime stores no estimates on conversation messages. Then, with a positive budget, planning fails exactly when
   * nothing is evictable, or when all evictable messages together, counted by the estimator, exceed budget and slack;
   * and otherwise the plan evicts every evictable group.
   */
  lemma UncountedPlanning(b: Budgeting, ms: seq<Message>, retain: int)
    requires DistinctSeqs(ms) && NoStored(ms) && BudgetTokens(b, LatestSummary(ms)) > 0
    ensures var r := PlanCompression(b, ms, retain);
            var fits := EstimateMessages(b.render, EvictableMessages(ms, retain))
                        <= BudgetTokens(b, LatestSummary(ms)) + Slack(b, LatestSummary(ms));
            && (r == Err(NoEvictableHistory) <==> Evictable(ms, retain) == {})
            && (r == Err(InputTooLarge) <==> Evictable(ms, retain) != {} && !fits)
            && (r.Ok? <==> Evictable(ms, retain) != {} && fits)
            && (r.Ok? ==> forall id :: id in r.value.selectedIds <==> id in Evictable(ms, retain))
  {
    AllPicked(b, ms, retain);
    SumsPermute(b.render, Picks(b, ms, retain), EvictableMessages(ms, retain));
    PlanFailures(b, ms, retain);
    UncountedGroup(ms, retain);
    var eligible := EligibleGroups(ms, retain);
    assert |eligible| > 0 ==> eligible[0] in eligible;
    FirstPickedIfAny(b, ms, retain);
  }

  lemma FirstPickedIfAny(b: Budgeting, ms: seq<Message>, retain: int)
    requires DistinctSeqs(ms) && NoStored(ms) && BudgetTokens(b, LatestSummary(ms)) > 0
    ensures Evictable(ms, retain) != {} ==> |Picks(b, ms, retain)| > 0 && |EligibleGroups(ms, retain)| > 0
                                            && EligibleGroups(ms, retain)[0].estimatedTokens == 0
  {
    NoneEligible(ms, retain);
    UncountedGroup(ms, retain);
    var eligible := EligibleGroups(ms, retain);
    if |eligible| > 0 {
      assert eligible[0] in eligible;
      FirstPicked(b, ms, retain);
    }
  }

  /** One evictable message whose content alone exceeds budget and slack is enough. */
  lemma LongMessageOverflows(b: Budgeting, ms: seq<Message>, retain: int, m: Message)
    requires DistinctSeqs(ms) && NoStored(ms) && BudgetTokens(b, LatestSummary(ms)) > 0
    requires m in ms && InAny(Evictable(ms, retain), m)
    requires |ContentText(m.content)| > 4 * (BudgetTokens(b, LatestSummary(ms)) + Slack(b, LatestSummary(ms)))
    ensures PlanCompression(b, ms, retain) == Err(InputTooLarge)
  {
    var ids := Evictable(ms, retain);
    FilterMeaning(x => InAny(ids, x), ms);
    PartOfEstimate(b.render, EvictableMessages(ms, retain), m);
    ContentCounts(b.render, m);
    UncountedPlanning(b, ms, retain);
  }

  /** Some replacement of a planned history always exists. */
  function Replacement(ms: seq<Message>, plan: CompressionPlan, json: string): seq<Message> {
    Sort(BySeq, Kept(ms, plan) + [SummaryMessage(MinSeq(plan.evicted), json)])
  }

  lemma ReplacementExists(b: Budgeting, retain: int, json: string, ms: seq<Message>)
    requires PlanCompression(b, ms, retain).Ok?
    ensures Compresses(b, retain, json, ms, Replacement(ms, PlanCompression(b, ms, retain).value, json))
  {
    var plan := PlanCompression(b, ms, retain).value;
    BySeqPreorder();
    SortSorted(BySeq, Kept(ms, plan) + [SummaryMessage(MinSeq(plan.evicted), json)]);
  }

  /** One compression then leaves nothing to compress. */
  lemma CompressionTakesAll(b: Budgeting, retain: int, json: string, ms: seq<Message>, r: seq<Message>)
    requires GoodHistory(ms) && NoStored(ms) && Compresses(b, retain, json, ms, r)
    ensures Evictable(r, retain) == {} && NoStored(r)
  {
    var plan := PlanCompression(b, ms, retain).value;
    assert BudgetTokens(b, LatestSummary(ms)) > 0 by {
      PlanFailures(b, ms, retain);
    }
    UncountedPlanning(b, ms, retain);
    PlanEvicts(b, ms, retain, plan);
    ReplacementContents(ms, plan, json, r);
    forall g
      ensures g !in plan.selectedIds ==> SameGroup(ms, r, g)
      ensures g in plan.selectedIds ==> g !in GroupIds(r)
      ensures Consumed(r, g) ==> Consumed(ms, g)
    {
      SurvivingGroups(ms, plan, json, r, g);
    }
    ProtectionGrows(ms, r, Names(plan.selectedIds), retain);
  }

  /** Whatever the prompt and the reserve, some window lets an evictable history be compressed. */
  lemma SomeWindowPlans(render: Renderer, prompt: string, reserved: int, ms: seq<Message>, retain: int)
      returns (b: Budgeting)
    requires DistinctSeqs(ms) && NoStored(ms) && Evictable(ms, retain) != {}
    ensures b == Budgeting(render, prompt, b.window, reserved) && PlanCompression(b, ms, retain).Ok?
  {
    var none := Budgeting(render, prompt, 0, reserved);
    var summary := LatestSummary(ms);
    var total := EstimateMessages(render, EvictableMessages(ms, retain));
    b := none.(window := 1 + total - BudgetTokens(none, summary));
    assert Instruction(b) == Instruction(none);
    assert BudgetTokens(b, summary) == 1 + total;
    UncountedPlanning(b, ms, retain);
  }

  lemma EligibleIds(ms: seq<Message>, retain: int)
    ensures forall id | id in Evictable(ms, retain) :: id in Ids(EligibleGroups(ms, retain))
  {
    var p := (g: ModelCallGroup) => g.status == Closed && g.consumed && g.modelCallId !in NonEvictable(ms, retain);
    FilterMeaning(p, GroupList(ms));
    MapIn((g: ModelCallGroup) => g.modelCallId, EligibleGroups(ms, retain));
    forall id | id in Evictable(ms, retain) ensures GroupOf(ms, id) in EligibleGroups(ms, retain) {
      NamedInList(ms, id);
    }
    forall id | id in Evictable(ms, retain) ensures id in Ids(EligibleGroups(ms, retain)) {
      assert GroupOf(ms, id).modelCallId == id;
    }
  }
}
