/**
 * The closed groups one turn writes to the durable log (runtime/prompt_executor.py): the user's input, the tool loop if
 * any, and the final answer or failure.
 */
module TurnGroups {
  import opened Wrappers
  import opened Sorting
  import opened Seqs
  import opened ConversationLog
  import opened ConversationLaws
  import opened RecoveryConversation
  import opened ToolLoopIds

  // ---------------------------------------------------------------- the tool loop's group

  function DurableKind(c: Converted): Option<string> {
    if c.role == "assistant" && c.kind == "tool_call" then Some("assistant_tool_call")
    else if c.role == "tool" && c.kind == "tool_result" then Some("tool_result")
    else None
  }

  predicate IsDurable(c: Converted) {
    DurableKind(c).Some?
  }

  function ToAppend(turn: string, c: Converted, position: nat, count: nat): Append {
    Append(Some(turn), turn + ":tool-loop", c.modelCallId, position, count, c.role,
           if DurableKind(c).Some? then DurableKind(c).value else "", Some(c.content), None, map[], None, c.toolCallId)
  }

  function ToAppends(turn: string, cs: seq<Converted>): seq<Append> {
    seq(|cs|, i requires 0 <= i < |cs| => ToAppend(turn, cs[i], i, |cs|))
  }

  /** The durable messages of a tool loop, numbered within one group. */
  function LoopAppends(turn: string, cs: seq<Converted>): seq<Append> {
    ToAppends(turn, Filter(IsDurable, cs))
  }

  method BuildLoopAppends(turn: string, cs: seq<Converted>) returns (appends: seq<Append>)
    ensures appends == LoopAppends(turn, cs)
  {
    var kept := KeepDurable(cs);
    appends := NumberInGroup(turn, kept);
  }

  method KeepDurable(cs: seq<Converted>) returns (kept: seq<Converted>)
    ensures kept == Filter(IsDurable, cs)
  {
    kept := [];
    for i := 0 to |cs|
      invariant kept == Filter(IsDurable, cs[..i])
    {
      assert cs[..i + 1][..i] == cs[..i];
      if IsDurable(cs[i]) {
        kept := kept + [cs[i]];
      }
    }
    assert cs[..|cs|] == cs;
  }

  method NumberInGroup(turn: string, kept: seq<Converted>) returns (appends: seq<Append>)
    ensures appends == ToAppends(turn, kept)
  {
    appends := [];
    for i := 0 to |kept|
      invariant |appends| == i && forall j | 0 <= j < i :: appends[j] == ToAppend(turn, kept[j], j, |kept|)
    {
      appends := appends + [ToAppend(turn, kept[i], i, |kept|)];
    }
  }

  function LoopRows(turn: string, rounds: seq<Round>): seq<Converted> {
    if |rounds| == 0 then [] else LoopRows(turn, rounds[..|rounds| - 1]) + RoundRows(turn, rounds[|rounds| - 1])
  }

  /** Rounds as one call of the adapter numbers them: model calls from 1 on, calls by their place in the answer. */
  ghost predicate Numbered(rounds: seq<Round>) {
    forall i | 0 <= i < |rounds| :: rounds[i].call == i + 1 && |rounds[i].invoked| > 0 && Increasing(rounds[i].invoked)
  }

  /** Every round invoked a call. */
  ghost predicate Invoking(rounds: seq<Round>) {
    forall i | 0 <= i < |rounds| :: |rounds[i].invoked| > 0
  }

  ghost predicate Increasing(invoked: seq<Invoked>) {
    forall i, j | 0 <= i < j < |invoked| :: invoked[i].position < invoked[j].position
  }

  lemma {:induction false} LoopRowsDurable(turn: string, rounds: seq<Round>)
    ensures Filter(IsDurable, LoopRows(turn, rounds)) == LoopRows(turn, rounds)
    ensures forall i | 0 <= i < |LoopRows(turn, rounds)| :: IsDurable(LoopRows(turn, rounds)[i])
  {
    if |rounds| > 0 {
      var front, r := rounds[..|rounds| - 1], rounds[|rounds| - 1];
      LoopRowsDurable(turn, front);
      KeepAll(RoundRows(turn, r));
      FilterConcat(IsDurable, LoopRows(turn, front), RoundRows(turn, r));
    }
  }

  lemma {:induction false} KeepAll(cs: seq<Converted>)
    requires forall i | 0 <= i < |cs| :: IsDurable(cs[i])
    ensures Filter(IsDurable, cs) == cs
  {
    if |cs| > 0 {
      KeepAll(cs[..|cs| - 1]);
      assert cs == cs[..|cs| - 1] + [cs[|cs| - 1]];
    }
  }

  // ---------------------------------------------------------------- call keys

  type LoopKey = (Option<string>, Option<string>)

  function RowKeys(cs: seq<Converted>, kind: string): set<LoopKey> {
    set c | c in cs && c.kind == kind :: (c.modelCallId, c.toolCallId)
  }

  lemma RowKeysConcat(a: seq<Converted>, b: seq<Converted>, kind: string)
    ensures RowKeys(a + b, kind) == RowKeys(a, kind) + RowKeys(b, kind)
  {
    assert forall c :: c in a + b <==> c in a || c in b;
  }

  function RoundKeys(turn: string, r: Round): set<LoopKey> {
    set i | 0 <= i < |r.invoked| ::
        (Some(InTurn(turn, ModelCallId(r.call))), Some(InTurn(turn, RawToolId(r.call, r.invoked[i].position))))
  }

  lemma CallRowKeys(turn: string, r: Round)
    ensures RowKeys(CallRows(turn, r), "tool_call") == RoundKeys(turn, r)
    ensures RowKeys(CallRows(turn, r), "tool_result") == {}
  {
    var rows := CallRows(turn, r);
    forall key | key in RoundKeys(turn, r) ensures key in RowKeys(rows, "tool_call") {
      var i :| 0 <= i < |r.invoked|
               && key == (Some(InTurn(turn, ModelCallId(r.call))),
                          Some(InTurn(turn, RawToolId(r.call, r.invoked[i].position))));
      assert rows[i] in rows && rows[i].kind == "tool_call";
    }
  }

  lemma ResultRowKeys(turn: string, r: Round)
    ensures RowKeys(ResultRows(turn, r), "tool_result") == RoundKeys(turn, r)
    ensures RowKeys(ResultRows(turn, r), "tool_call") == {}
  {
    var rows := ResultRows(turn, r);
    forall key | key in RoundKeys(turn, r) ensures key in RowKeys(rows, "tool_result") {
      var i :| 0 <= i < |r.invoked|
               && key == (Some(InTurn(turn, ModelCallId(r.call))),
                          Some(InTurn(turn, RawToolId(r.call, r.invoked[i].position))));
      assert rows[i] in rows && rows[i].kind == "tool_result";
    }
  }

  lemma RoundKeysMatch(turn: string, r: Round)
    ensures RowKeys(RoundRows(turn, r), "tool_call") == RowKeys(RoundRows(turn, r), "tool_result") == RoundKeys(turn, r)
  {
    CallRowKeys(turn, r);
    ResultRowKeys(turn, r);
    RowKeysConcat(CallRows(turn, r), ResultRows(turn, r), "tool_call");
    RowKeysConcat(CallRows(turn, r), ResultRows(turn, r), "tool_result");
  }

  lemma {:induction false} LoopKeysMatch(turn: string, rounds: seq<Round>)
    ensures RowKeys(LoopRows(turn, rounds), "tool_call") == RowKeys(LoopRows(turn, rounds), "tool_result")
  {
    if |rounds| > 0 {
      var front, r := rounds[..|rounds| - 1], rounds[|rounds| - 1];
      LoopKeysMatch(turn, front);
      RoundKeysMatch(turn, r);
      RowKeysConcat(LoopRows(turn, front), RoundRows(turn, r), "tool_call");
      RowKeysConcat(LoopRows(turn, front), RoundRows(turn, r), "tool_result");
    }
  }

  /** The scoped id of the i-th call of the a-th round. */
  function ScopedIdAt(turn: string, rounds: seq<Round>, a: nat, i: nat): string
    requires a < |rounds| && i < |rounds[a].invoked|
  {
    InTurn(turn, RawToolId(rounds[a].call, rounds[a].invoked[i].position))
  }

  /** No two calls of a turn share an id, across all its rounds. */
  lemma CallKeysDistinct(turn: string, rounds: seq<Round>, a: nat, i: nat, b: nat, j: nat)
    requires Numbered(rounds) && a < |rounds| && b < |rounds| && i < |rounds[a].invoked| && j < |rounds[b].invoked|
    requires a != b || i != j
    ensures ScopedIdAt(turn, rounds, a, i) != ScopedIdAt(turn, rounds, b, j)
  {
    var x, y := RawToolId(rounds[a].call, rounds[a].invoked[i].position),
        RawToolId(rounds[b].call, rounds[b].invoked[j].position);
    if InTurn(turn, x) == InTurn(turn, y) {
      assert InTurn(turn, x)[|turn| + 1..] == x && InTurn(turn, y)[|turn| + 1..] == y;
      RawToolIdInjective(rounds[a].call, rounds[a].invoked[i].position, rounds[b].call, rounds[b].invoked[j].position);
      assert false;
    }
  }

  // ------------------------------------------------------------- every group a turn writes is accepted and pair-closed

  lemma {:induction false} PreparesAll(artifacts: Artifacts, messages: seq<Append>)
    requires forall i | 0 <= i < |messages| :: PrepareError(artifacts, messages[i]) == None
    ensures FirstPrepareError(artifacts, messages) == None
  {
    if |messages| > 0 {
      PreparesAll(artifacts, messages[..|messages| - 1]);
    }
  }

  lemma PositionsInOrder(messages: seq<Append>)
    requires |messages| > 0 && forall i | 0 <= i < |messages| :: messages[i].position == i
    ensures Map(PositionOf, messages) == Span(0, |messages| - 1) && Sorted(IntLeq, Map(PositionOf, messages))
  {
    forall i | 0 <= i < |messages| ensures Map(PositionOf, messages)[i] == i {
      assert PositionOf(messages[i]) == i;
    }
  }

  /** Messages numbered 0, 1, … under one group id form a closed group. */
  lemma ConsecutiveIsClosed(messages: seq<Append>, groupId: string)
    requires |messages| > 0
    requires forall i | 0 <= i < |messages| ::
               messages[i].groupId == groupId && messages[i].position == i && messages[i].rowCount == |messages|
    ensures ClosedGroupError(messages) == None
  {
    var positions := Map(PositionOf, messages);
    PositionsInOrder(messages);
    SortOfSorted(IntLeq, positions);
    forall a | a in messages ensures a.groupId == messages[0].groupId && a.rowCount == |messages| {
      var i :| 0 <= i < |messages| && messages[i] == a;
    }
  }

  /** The tool loop of a turn forms one closed group the store accepts. */
  lemma LoopGroupAccepted(artifacts: Artifacts, sessionId: string, turn: string, rounds: seq<Round>)
    requires Invoking(rounds) && |rounds| > 0
    ensures var g := Group(sessionId, LoopAppends(turn, LoopRows(turn, rounds)));
            Accepted(artifacts, g) && GroupId(g) == turn + ":tool-loop"
  {
    var rows, n := LoopRows(turn, rounds), |rounds| - 1;
    LoopRowsDurable(turn, rounds);
    assert |RoundRows(turn, rounds[n])| == 2 * |rounds[n].invoked| > 0;
    RowsAccepted(artifacts, sessionId, turn, rows);
  }

  lemma RowsAccepted(artifacts: Artifacts, sessionId: string, turn: string, rows: seq<Converted>)
    requires |rows| > 0 && forall i | 0 <= i < |rows| :: IsDurable(rows[i])
    ensures var g := Group(sessionId, ToAppends(turn, rows));
            Accepted(artifacts, g) && GroupId(g) == turn + ":tool-loop"
  {
    var appends := ToAppends(turn, rows);
    forall i | 0 <= i < |appends| ensures PrepareError(artifacts, appends[i]) == None {
      LoopAppendPrepares(artifacts, turn, rows[i], i, |rows|);
    }
    PreparesAll(artifacts, appends);
    ConsecutiveIsClosed(appends, turn + ":tool-loop");
  }

  lemma LoopAppendPrepares(artifacts: Artifacts, turn: string, c: Converted, position: nat, count: nat)
    requires IsDurable(c) && count > 0
    ensures PrepareError(artifacts, ToAppend(turn, c, position, count)) == None
  {
    assert |turn + ":tool-loop"| > 0;
  }

  /** In that group the keys of calls and of results are the same. */
  lemma LoopGroupPairs(sessionId: string, turn: string, rounds: seq<Round>)
    ensures PairClosed(Group(sessionId, LoopAppends(turn, LoopRows(turn, rounds))))
  {
    var rows := LoopRows(turn, rounds);
    LoopRowsDurable(turn, rounds);
    LoopKeysMatch(turn, rounds);
    forall i | 0 <= i < |rows|
      ensures DurableKind(rows[i]) == Some("assistant_tool_call") <==> rows[i].kind == "tool_call"
      ensures DurableKind(rows[i]) == Some("tool_result") <==> rows[i].kind == "tool_result"
    {
      KindsAgree(rows[i]);
    }
    AppendKeysAreRowKeys(turn, rows, "assistant_tool_call", "tool_call");
    AppendKeysAreRowKeys(turn, rows, "tool_result", "tool_result");
  }

  lemma KindsAgree(c: Converted)
    requires IsDurable(c)
    ensures DurableKind(c) == Some("assistant_tool_call") <==> c.kind == "tool_call"
    ensures DurableKind(c) == Some("tool_result") <==> c.kind == "tool_result"
  {
  }

  predicate NamedKey(k: LoopKey) {
    k.1.Some? && k.1.value != ""
  }

  function Named(keys: set<LoopKey>): set<PairKey> {
    set k | k in keys && NamedKey(k) :: (k.0, k.1.value)
  }

  lemma AppendKeysAreRowKeys(turn: string, rows: seq<Converted>, durable: string, kind: string)
    requires forall i | 0 <= i < |rows| ::
             IsDurable(rows[i]) && (DurableKind(rows[i]) == Some(durable) <==> rows[i].kind == kind)
    ensures AppendKeys(ToAppends(turn, rows), durable) == Named(RowKeys(rows, kind))
  {
    var appends := ToAppends(turn, rows);
    forall key | key in AppendKeys(appends, durable) ensures key in Named(RowKeys(rows, kind)) {
      var a :| a in appends && a.kind == durable && a.toolCallId.Some? && a.toolCallId.value != ""
               && key == (a.modelCallId, a.toolCallId.value);
      var i :| 0 <= i < |appends| && appends[i] == a;
      assert rows[i] in rows;
      assert (rows[i].modelCallId, rows[i].toolCallId) in RowKeys(rows, kind);
    }
    forall k | k in RowKeys(rows, kind) && NamedKey(k) ensures (k.0, k.1.value) in AppendKeys(appends, durable) {
      var c :| c in rows && c.kind == kind && k == (c.modelCallId, c.toolCallId);
      var i :| 0 <= i < |rows| && rows[i] == c;
      assert appends[i] in appends;
    }
  }

  // ---------------------------------------------------------------- from the retry loop to the group

  /** What the executor has accumulated after the first `n` adapter calls of a turn. */
  function Accumulated(roundsOf: nat -> seq<Round>, n: nat): seq<Round> {
    if n == 0 then [] else Accumulated(roundsOf, n - 1) + roundsOf(n - 1)
  }

  lemma {:induction false} NothingBefore(roundsOf: nat -> seq<Round>, n: nat)
    requires forall i | 0 <= i < n :: roundsOf(i) == []
    ensures Accumulated(roundsOf, n) == []
  {
    if n > 0 {
      NothingBefore(roundsOf, n - 1);
    }
  }
}
