/** Model-call groups and the non-evictable raw suffix (runtime/query_control.py). */
module QueryControl {
  import opened Wrappers
  import opened Sorting
  import opened Seqs
  import opened ModelContext

  datatype Status = Open | Closed

  datatype ModelCallGroup = ModelCallGroup(
    modelCallId: string,
    turnId: Option<string>,
    startSeq: int,
    endSeq: int,
    status: Status,
    consumed: bool,
    estimatedTokens: int,
    messageIds: seq<int>)

  datatype NonEvictableSuffix = NonEvictableSuffix(
    messageIds: set<int>,
    groupIds: set<string>,
    retainedIds: set<int>,
    currentIds: set<int>)

  // ---------------------------------------------------------------- what a history says, message by message

  function CallOf(m: Message): Option<string> {
    m.modelCallId
  }

  predicate InGroup(m: Message, id: string) {
    CallOf(m) == Some(id)
  }

  function GroupIds(ms: seq<Message>): set<string> {
    set m | m in ms && m.modelCallId.Some? :: m.modelCallId.value
  }

  predicate Consumed(ms: seq<Message>, id: string) {
    exists m | m in ms :: id in m.metadata.consumed
  }

  predicate IsResult(m: Message, id: string, call: string) {
    InGroup(m, id) && m.kind == "tool_result" && m.toolCallId == Some(call) && m.metadata.terminal
  }

  predicate Answered(ms: seq<Message>, id: string, call: string) {
    exists m | m in ms :: IsResult(m, id, call)
  }

  /** Nothing streams, every tool call has a terminal result, nothing is pending. */
  predicate IsClosed(ms: seq<Message>, id: string) {
    forall m | m in ms && InGroup(m, id) ::
      && !m.metadata.streaming
      && !m.metadata.pendingToolCall
      && (m.kind == "tool_call" && m.toolCallId.Some? ==> Answered(ms, id, m.toolCallId.value))
  }

  function Members(ms: seq<Message>, id: string): seq<Message> {
    WithKey(CallOf, ms, id)
  }

  function MinSeq(ms: seq<Message>): int {
    if |ms| == 0 then 0
    else if |ms| == 1 then ms[0].seqNo
    else if ms[|ms| - 1].seqNo < MinSeq(ms[..|ms| - 1]) then ms[|ms| - 1].seqNo
    else MinSeq(ms[..|ms| - 1])
  }

  function MaxSeq(ms: seq<Message>): int {
    if |ms| == 0 then 0
    else if |ms| == 1 then ms[0].seqNo
    else if MaxSeq(ms[..|ms| - 1]) < ms[|ms| - 1].seqNo then ms[|ms| - 1].seqNo
    else MaxSeq(ms[..|ms| - 1])
  }

  lemma {:induction false} MinSeqMeaning(ms: seq<Message>)
    requires |ms| > 0
    ensures exists m | m in ms :: m.seqNo == MinSeq(ms)
    ensures forall m | m in ms :: MinSeq(ms) <= m.seqNo
  {
    if |ms| == 1 {
      assert ms[0] in ms;
    } else {
      var front, last := ms[..|ms| - 1], ms[|ms| - 1];
      assert ms == front + [last];
      MinSeqMeaning(front);
      assert last in ms;
    }
  }

  function StartSeq(ms: seq<Message>, id: string): int {
    MinSeq(Members(ms, id))
  }

  /** Group `g` starts before group `h`; equal starts are ordered by id. */
  predicate Before(ms: seq<Message>, g: string, h: string) {
    && g != h
    && (StartSeq(ms, g) < StartSeq(ms, h) || (StartSeq(ms, g) == StartSeq(ms, h) && StringLeq(g, h)))
  }

  lemma KeysAreGroupIds(ms: seq<Message>)
    ensures Keys(CallOf, ms) == GroupIds(ms)
  {
    forall m | m in ms && m.modelCallId.Some? ensures m.modelCallId.value in Keys(CallOf, ms) {
      var i :| 0 <= i < |ms| && ms[i] == m;
      assert CallOf(ms[i]).Some?;
    }
  }

  function ClosedIds(ms: seq<Message>): set<string> {
    set g | g in GroupIds(ms) && IsClosed(ms, g)
  }

  function LaterClosed(ms: seq<Message>, g: string): set<string> {
    set h | h in ClosedIds(ms) && Before(ms, g, h)
  }

  /** The protected groups: open, not consumed by a later call, or with fewer than `retain` closed groups after them. */
  function NonEvictable(ms: seq<Message>, retain: int): set<string> {
    set g | g in GroupIds(ms) && (!IsClosed(ms, g) || !Consumed(ms, g) || |LaterClosed(ms, g)| < retain)
  }

  function Evictable(ms: seq<Message>, retain: int): set<string> {
    GroupIds(ms) - NonEvictable(ms, retain)
  }

  /** Both histories hold exactly the same messages of group `g`. */
  ghost predicate SameGroup(ms: seq<Message>, r: seq<Message>, g: string) {
    forall m | InGroup(m, g) :: m in ms <==> m in r
  }

  lemma SameGroupFacts(ms: seq<Message>, r: seq<Message>, g: string)
    requires SameGroup(ms, r, g)
    ensures g in GroupIds(ms) <==> g in GroupIds(r)
    ensures IsClosed(ms, g) <==> IsClosed(r, g)
    ensures StartSeq(ms, g) == StartSeq(r, g)
  {
    HalfGroupFacts(ms, r, g);
    HalfGroupFacts(r, ms, g);
    var a, b := Members(ms, g), Members(r, g);
    WithKeyMeaning(CallOf, ms, g);
    WithKeyMeaning(CallOf, r, g);
    assert forall m :: m in a <==> m in b;
    assert |a| > 0 ==> a[0] in b;
    assert |b| > 0 ==> b[0] in a;
    if |a| > 0 {
      MinSeqMeaning(a);
      MinSeqMeaning(b);
    }
  }

  lemma HalfGroupFacts(ms: seq<Message>, r: seq<Message>, g: string)
    requires SameGroup(ms, r, g)
    ensures g in GroupIds(ms) ==> g in GroupIds(r)
    ensures IsClosed(ms, g) ==> IsClosed(r, g)
  {
    if g in GroupIds(ms) {
      var m :| m in ms && InGroup(m, g);
      assert m in r;
    }
    if IsClosed(ms, g) {
      forall m | m in r && InGroup(m, g) && m.kind == "tool_call" && m.toolCallId.Some?
        ensures Answered(r, g, m.toolCallId.value)
      {
        assert m in ms;
        var a :| a in ms && IsResult(a, g, m.toolCallId.value);
        assert a in r;
      }
    }
  }

  // ---------------------------------------------------------------- the ordered list of groups

  function ToolCallIds(members: seq<Message>): set<string> {
    set m | m in members && m.kind == "tool_call" && m.toolCallId.Some? :: m.toolCallId.value
  }

  function TerminalResultIds(members: seq<Message>): set<string> {
    set m | m in members && m.kind == "tool_result" && m.toolCallId.Some? && m.metadata.terminal :: m.toolCallId.value
  }

  function GroupStatus(members: seq<Message>): Status {
    if exists m | m in members :: m.metadata.streaming then Open
    else if ToolCallIds(members) - TerminalResultIds(members) != {} then Open
    else if exists m | m in members :: m.metadata.pendingToolCall then Open
    else Closed
  }

  /** The summary of one group from its messages in sequence order. */
  function Summarize(id: string, members: seq<Message>, consumed: bool): ModelCallGroup {
    ModelCallGroup(
      id,
      if |members| == 0 then None else members[0].turnId,
      MinSeq(members),
      MaxSeq(members),
      GroupStatus(members),
      consumed,
      SumStored(members),
      Map((m: Message) => m.seqNo, members))
  }

  function GroupOf(ms: seq<Message>, id: string): ModelCallGroup {
    Summarize(id, Members(Sort(BySeq, ms), id), Consumed(ms, id))
  }

  predicate IsClosedGroup(g: ModelCallGroup) {
    g.status == Closed
  }

  predicate ByStart(a: ModelCallGroup, b: ModelCallGroup) {
    a.startSeq < b.startSeq || (a.startSeq == b.startSeq && StringLeq(a.modelCallId, b.modelCallId))
  }

  function GroupList(ms: seq<Message>): seq<ModelCallGroup> {
    Sort(ByStart, Map(id => GroupOf(ms, id), FirstKeys(CallOf, Sort(BySeq, ms))))
  }

  /** The ids of `GroupList`, in its order. */
  function OrderedIds(ms: seq<Message>): seq<string> {
    Sort((a, b) => ByStart(GroupOf(ms, a), GroupOf(ms, b)), FirstKeys(CallOf, Sort(BySeq, ms)))
  }

  lemma GroupStatusMeaning(ms: seq<Message>, id: string, members: seq<Message>)
    requires forall m :: m in members <==> m in ms && InGroup(m, id)
    ensures GroupStatus(members) == Closed <==> IsClosed(ms, id)
  {
    forall call ensures call in TerminalResultIds(members) <==> Answered(ms, id, call) {
      if Answered(ms, id, call) {
        var m :| m in ms && IsResult(m, id, call);
        assert m in members;
      }
    }
    if ToolCallIds(members) - TerminalResultIds(members) == {} {
      forall m | m in ms && InGroup(m, id) && m.kind == "tool_call" && m.toolCallId.Some?
        ensures Answered(ms, id, m.toolCallId.value)
      {
        assert m in members;
        assert m.toolCallId.value in ToolCallIds(members);
        assert m.toolCallId.value !in ToolCallIds(members) - TerminalResultIds(members);
      }
    } else {
      var call :| call in ToolCallIds(members) - TerminalResultIds(members);
      var m :| m in members && m.kind == "tool_call" && m.toolCallId == Some(call);
      assert m in ms && InGroup(m, id) && !Answered(ms, id, m.toolCallId.value);
    }
  }

  /** Summaries agree with the message-by-message definitions. */
  lemma GroupOfMeaning(ms: seq<Message>, id: string)
    ensures GroupOf(ms, id).modelCallId == id
    ensures GroupOf(ms, id).startSeq == StartSeq(ms, id)
    ensures GroupOf(ms, id).status == Closed <==> IsClosed(ms, id)
    ensures GroupOf(ms, id).consumed <==> Consumed(ms, id)
  {
    var sorted := Sort(BySeq, ms);
    SameElements(ms, sorted);
    WithKeyMeaning(CallOf, sorted, id);
    GroupStatusMeaning(ms, id, Members(sorted, id));
    assert SameGroup(ms, sorted, id);
    SameGroupFacts(ms, sorted, id);
  }

  lemma MemberSeqs(ms: seq<Message>, id: string)
    ensures forall n :: n in GroupOf(ms, id).messageIds <==> exists m | m in ms :: InGroup(m, id) && m.seqNo == n
  {
    var sorted := Sort(BySeq, ms);
    SameElements(ms, sorted);
    WithKeyMeaning(CallOf, sorted, id);
    MapIn((m: Message) => m.seqNo, Members(sorted, id));
  }

  lemma OrderPreorder(ms: seq<Message>, f: string -> ModelCallGroup, leq: (string, string) -> bool)
    requires forall a :: f(a).modelCallId == a
    requires forall a, b :: leq(a, b) <==> ByStart(f(a), f(b))
    ensures TotalPreorder(leq)
  {
    forall a, b ensures leq(a, b) || leq(b, a) {
      StringLeqTotal(a, b);
    }
    forall a, b, c | leq(a, b) && leq(b, c) ensures leq(a, c) {
      if StringLeq(a, b) && StringLeq(b, c) {
        StringLeqTransitive(a, b, c);
      }
    }
  }

  /** The group list names every group once, in strict order of start, each with its own summary. */
  lemma OrderedIdsMeaning(ms: seq<Message>)
    ensures GroupList(ms) == Map(id => GroupOf(ms, id), OrderedIds(ms))
    ensures NoRepeats(OrderedIds(ms))
    ensures forall g :: g in OrderedIds(ms) <==> g in GroupIds(ms)
    ensures Sorted((a, b) => Before(ms, a, b), OrderedIds(ms))
  {
    var sorted := Sort(BySeq, ms);
    SameElements(ms, sorted);
    assert GroupIds(sorted) == GroupIds(ms);
    KeysAreGroupIds(sorted);
    var first, ids := FirstKeys(CallOf, sorted), OrderedIds(ms);
    FirstKeysMeaning(CallOf, sorted);
    SameElements(first, ids);
    RepeatsPermute(first, ids);
    var f := id => GroupOf(ms, id);
    var leq := (a, b) => ByStart(GroupOf(ms, a), GroupOf(ms, b));
    assert forall a, b :: leq(a, b) <==> ByStart(f(a), f(b));
    SortMap(f, ByStart, leq, first);
    OrderPreorder(ms, f, leq);
    SortSorted(leq, first);
    forall i, j | 0 <= i < j < |ids| ensures Before(ms, ids[i], ids[j]) {
      assert leq(ids[i], ids[j]);
      GroupOfMeaning(ms, ids[i]);
      GroupOfMeaning(ms, ids[j]);
    }
  }

  // ---------------------------------------------------------------- the operations

  method DeriveModelCallGroups(ms: seq<Message>) returns (groups: seq<ModelCallGroup>)
    ensures groups == GroupList(ms)
  {
    var sorted := Sort(BySeq, ms);
    var order, grouped := GroupBy(CallOf, sorted);
    var consumed := LaterConsumed(ms);
    groups := SummarizeGroups(order, grouped, consumed, id => GroupOf(ms, id));
    groups := Sort(ByStart, groups);
  }

  method SummarizeGroups(order: seq<string>, grouped: map<string, seq<Message>>, consumed: set<string>,
                         ghost summary: string -> ModelCallGroup)
      returns (groups: seq<ModelCallGroup>)
    requires forall id | id in order :: id in grouped && summary(id) == Summarize(id, grouped[id], id in consumed)
    ensures groups == Map(summary, order)
  {
    groups := [];
    for i := 0 to |order|
      invariant groups == Map(summary, order[..i])
    {
      var id := order[i];
      assert id in order;
      groups := groups + [Summarize(id, grouped[id], id in consumed)];
    }
    assert order[..|order|] == order;
  }

  method LaterConsumed(ms: seq<Message>) returns (consumed: set<string>)
    ensures forall id :: id in consumed <==> Consumed(ms, id)
  {
    consumed := {};
    for i := 0 to |ms|
      invariant forall id :: id in consumed <==> Consumed(ms[..i], id)
    {
      assert ms[..i + 1] == ms[..i] + [ms[i]];
      consumed := consumed + set id | id in ms[i].metadata.consumed;
    }
    assert ms[..|ms|] == ms;
  }

  function IdsInGroups(ms: seq<Message>, ids: set<string>): set<int> {
    set m | m in ms && m.modelCallId.Some? && m.modelCallId.value in ids :: m.seqNo
  }

  function Names(s: seq<string>): set<string> {
    set x | x in s
  }

  method ComputeNonEvictableRawSuffix(ms: seq<Message>, retain: int, current: seq<Message>)
      returns (suffix: NonEvictableSuffix)
    ensures suffix.groupIds == NonEvictable(ms, retain)
    ensures suffix.retainedIds == IdsInGroups(ms, NonEvictable(ms, retain))
    ensures suffix.currentIds == set m | m in current :: m.seqNo
    ensures suffix.messageIds == suffix.retainedIds + suffix.currentIds
  {
    var groups := DeriveModelCallGroups(ms);
    var ids := set g | g in groups && (g.status == Open || !g.consumed) :: g.modelCallId;
    if retain > 0 {
      var completed := Filter(IsClosedGroup, groups);
      ids := ids + set g | g in LastOf(completed, retain) :: g.modelCallId;
    }
    SuffixIds(ms, retain, ids);
    ListedGroups(ms);
    var retained := RetainedMessageIds(ms, OrderedIds(ms), groups, ids);
    var currentIds := set m | m in current :: m.seqNo;
    suffix := NonEvictableSuffix(retained + currentIds, ids, retained, currentIds);
  }

  /** A summary's message ids are the sequence numbers of its group's messages. */
  ghost predicate ListsMembers(ms: seq<Message>, g: ModelCallGroup) {
    forall n :: n in g.messageIds <==> exists m | m in ms :: InGroup(m, g.modelCallId) && m.seqNo == n
  }

  lemma ListedGroups(ms: seq<Message>)
    ensures var groups, order := GroupList(ms), OrderedIds(ms);
            && |groups| == |order|
            && (forall g :: g in order <==> g in GroupIds(ms))
            && forall i | 0 <= i < |groups| :: groups[i].modelCallId == order[i] && ListsMembers(ms, groups[i])
  {
    OrderedIdsMeaning(ms);
    forall id ensures GroupOf(ms, id).modelCallId == id && ListsMembers(ms, GroupOf(ms, id)) {
      MemberSeqs(ms, id);
    }
    assert forall i | 0 <= i < |OrderedIds(ms)| :: GroupList(ms)[i] == GroupOf(ms, OrderedIds(ms)[i]);
  }

  method RetainedMessageIds(ghost ms: seq<Message>, ghost order: seq<string>, groups: seq<ModelCallGroup>,
                            ids: set<string>)
      returns (retained: set<int>)
    requires |groups| == |order| && forall g :: g in order <==> g in GroupIds(ms)
    requires forall i | 0 <= i < |groups| :: groups[i].modelCallId == order[i] && ListsMembers(ms, groups[i])
    ensures retained == IdsInGroups(ms, ids)
  {
    retained := {};
    for i := 0 to |groups|
      invariant retained == IdsInGroups(ms, ids * Names(order[..i]))
    {
      var own := set n | n in groups[i].messageIds;
      assert ListsMembers(ms, groups[i]);
      RetainedStep(ms, ids, order, i, own);
      if groups[i].modelCallId in ids {
        retained := retained + own;
      }
    }
    assert order[..|order|] == order;
    assert IdsInGroups(ms, ids * Names(order)) == IdsInGroups(ms, ids);
  }

  lemma RetainedStep(ms: seq<Message>, ids: set<string>, order: seq<string>, i: nat, own: set<int>)
    requires i < |order|
    requires forall n :: n in own <==> exists m | m in ms :: InGroup(m, order[i]) && m.seqNo == n
    ensures IdsInGroups(ms, ids * Names(order[..i + 1]))
            == IdsInGroups(ms, ids * Names(order[..i])) + (if order[i] in ids then own else {})
  {
    var id := order[i];
    assert order[..i + 1] == order[..i] + [id];
    var before := ids * Names(order[..i]);
    if id in ids {
      assert ids * Names(order[..i + 1]) == before + {id};
      IdsInGroupsUnion(ms, before, id, own);
    } else {
      assert ids * Names(order[..i + 1]) == before;
    }
  }

  lemma IdsInGroupsUnion(ms: seq<Message>, ids: set<string>, id: string, own: set<int>)
    requires forall n :: n in own <==> exists m | m in ms :: InGroup(m, id) && m.seqNo == n
    ensures IdsInGroups(ms, ids + {id}) == IdsInGroups(ms, ids) + own
  {
    forall n | n in own ensures n in IdsInGroups(ms, ids + {id}) {
      var m :| m in ms && InGroup(m, id) && m.seqNo == n;
      assert m.modelCallId.value in ids + {id};
    }
  }

  /** The set the source assembles from the ordered group list is the rank-based set of protected groups. */
  lemma SuffixIds(ms: seq<Message>, retain: int, ids: set<string>)
    requires ids == (set g | g in GroupList(ms) && (g.status == Open || !g.consumed) :: g.modelCallId)
                    + (if retain > 0 then
                         set g | g in LastOf(Filter(IsClosedGroup, GroupList(ms)), retain) :: g.modelCallId
                       else {})
    ensures ids == NonEvictable(ms, retain)
  {
    OrderedIdsMeaning(ms);
    UnfinishedIds(ms);
    if retain > 0 {
      RecentIds(ms, retain);
    }
  }

  lemma UnfinishedIds(ms: seq<Message>)
    ensures (set g | g in GroupList(ms) && (g.status == Open || !g.consumed) :: g.modelCallId)
            == set g | g in GroupIds(ms) && (!IsClosed(ms, g) || !Consumed(ms, g))
  {
    OrderedIdsMeaning(ms);
    MapIn(id => GroupOf(ms, id), OrderedIds(ms));
    forall g ensures
        g in (set x | x in GroupList(ms) && (x.status == Open || !x.consumed) :: x.modelCallId)
        <==> g in GroupIds(ms) && (!IsClosed(ms, g) || !Consumed(ms, g))
    {
      NamedInList(ms, g);
    }
  }

  lemma NamedInList(ms: seq<Message>, g: string)
    ensures forall x | x in GroupList(ms) && x.modelCallId == g :: x == GroupOf(ms, g) && g in GroupIds(ms)
    ensures g in GroupIds(ms) ==> GroupOf(ms, g) in GroupList(ms)
    ensures GroupOf(ms, g).modelCallId == g
    ensures GroupOf(ms, g).status == Closed <==> IsClosed(ms, g)
    ensures GroupOf(ms, g).consumed <==> Consumed(ms, g)
  {
    OrderedIdsMeaning(ms);
    MapIn(id => GroupOf(ms, id), OrderedIds(ms));
    GroupOfMeaning(ms, g);
  }

  lemma RecentIds(ms: seq<Message>, retain: int)
    requires retain > 0
    ensures (set g | g in LastOf(Filter(IsClosedGroup, GroupList(ms)), retain) :: g.modelCallId)
            == set g | g in ClosedIds(ms) && |LaterClosed(ms, g)| < retain
  {
    OrderedIdsMeaning(ms);
    var f := id => GroupOf(ms, id);
    forall g ensures f(g).modelCallId == g && (f(g).status == Closed <==> IsClosed(ms, g)) {
      GroupOfMeaning(ms, g);
    }
    RecentNames(ms, retain, f, OrderedIds(ms));
  }

  lemma RecentNames(ms: seq<Message>, retain: int, f: string -> ModelCallGroup, order: seq<string>)
    requires retain > 0
    requires forall g :: f(g).modelCallId == g && (f(g).status == Closed <==> IsClosed(ms, g))
    requires forall g :: g in order <==> g in GroupIds(ms)
    requires Sorted((a, b) => Before(ms, a, b), order)
    ensures (set g | g in LastOf(Filter(IsClosedGroup, Map(f, order)), retain) :: g.modelCallId)
            == set g | g in ClosedIds(ms) && |LaterClosed(ms, g)| < retain
  {
    var isClosed := id => IsClosedGroup(f(id));
    var completed := Filter(isClosed, order);
    FilterMap(f, IsClosedGroup, isClosed, order);
    FilterMeaning(isClosed, order);
    FilterSorted((a, b) => Before(ms, a, b), isClosed, order);
    MapLastOf(f, completed, retain);
    NamesOfMap(f, LastOf(completed, retain));
    RankOfCompleted(ms, completed, retain);
  }

  lemma NamesOfMap(f: string -> ModelCallGroup, s: seq<string>)
    requires forall g :: f(g).modelCallId == g
    ensures (set g | g in Map(f, s) :: g.modelCallId) == Names(s)
  {
    MapIn(f, s);
    forall g | g in s ensures g in set x | x in Map(f, s) :: x.modelCallId {
      assert f(g) in Map(f, s);
    }
  }

  lemma RankOfCompleted(ms: seq<Message>, completed: seq<string>, retain: int)
    requires retain > 0
    requires forall g :: g in completed <==> g in ClosedIds(ms)
    requires Sorted((a, b) => Before(ms, a, b), completed)
    ensures Names(LastOf(completed, retain)) == set g | g in ClosedIds(ms) && |LaterClosed(ms, g)| < retain
  {
    var before := (a, b) => Before(ms, a, b);
    BeforeAsymmetric(ms);
    var last := LastOf(completed, retain);
    assert forall x | x in last :: x in completed;
    forall g | g in completed ensures g in last <==> |LaterClosed(ms, g)| < retain {
      LastByRank(before, completed, retain, g);
      assert LaterClosed(ms, g) == After(before, completed, g);
    }
  }

  lemma BeforeAsymmetric(ms: seq<Message>)
    ensures forall x, y :: Before(ms, x, y) ==> !Before(ms, y, x)
  {
    forall x, y | Before(ms, x, y) ensures !Before(ms, y, x) {
      StringLeqTotal(x, y);
    }
  }
}
