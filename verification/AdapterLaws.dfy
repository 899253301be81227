/**
 * What the rounds of an adapter call, and of all adapter calls of a turn, guarantee: when tool results go unreported,
 * when a retry can follow an executed tool, and when no two calls of a turn share an id.
 */
module AdapterLaws {
  import opened Wrappers
  import opened Seqs
  import opened Retry
  import opened RetryLaws
  import opened AdapterLoop
  import T = ToolLoopIds
  import G = TurnGroups
  import L = ConversationLaws
  import C = ConversationLog
  import V = RecoveryConversation

  // ---------------------------------------------------------------- numbering

  ghost predicate Ascending(s: seq<nat>) {
    forall i, j | 0 <= i < j < |s| :: s[i] < s[j]
  }

  lemma {:induction false} PositionsAscend(names: seq<string>)
    ensures Ascending(NamedPositions(names))
            && forall i | 0 <= i < |NamedPositions(names)| :: NamedPositions(names)[i] <= |names|
  {
    if |names| > 0 {
      PositionsAscend(names[..|names| - 1]);
    }
  }

  /** The calls invoked are the first so many of those asked for, under their own positions. */
  ghost predicate Takes(got: seq<T.Invoked>, positions: seq<nat>) {
    |got| <= |positions| && forall k | 0 <= k < |got| :: got[k].position == positions[k]
  }

  lemma {:induction false} InvokesInOrder(tool: nat -> ToolOutcome, positions: seq<nat>, j: nat, got: seq<T.Invoked>,
                                          ran: bool)
    requires j <= |positions| && |got| == j && Takes(got, positions)
    ensures var inv := InvokeFrom(tool, positions, j, got, ran);
            Takes(inv.got, positions) && |inv.got| >= j
                && (inv.stop.None? && |positions| > 0 ==> |inv.got| > 0 && (inv.ran || j == |positions|))
    decreases |positions| - j
  {
    if j < |positions| && tool(j).ToolReturns? && tool(j).verdict == Proceeds {
      InvokesInOrder(tool, positions, j + 1, got + [T.Invoked(positions[j], tool(j).result)], true);
    }
  }

  lemma RoundInvoked(phase: Phase, i: nat, names: seq<string>, ran: bool)
    requires NamedPositions(names) != []
    ensures var inv := Invoked(phase, i, names, ran);
            G.Increasing(inv.got) && (inv.stop.None? ==> |inv.got| > 0 && inv.ran)
  {
    var tool := (j: nat) => phase.tool(i, j);
    PositionsAscend(names);
    InvokesInOrder(tool, NamedPositions(names), 0, [], ran);
  }

  /** A phase hands over rounds numbered from 1, each with its calls under increasing positions. */
  lemma {:induction false} RoundsNumbered(phase: Phase, streaming: bool, limit: nat, i: nat, rounds: seq<T.Round>,
                                          reported: seq<string>, ran: bool)
    requires i <= limit && |rounds| == i && G.Numbered(rounds)
    ensures G.Numbered(Rounds(phase, streaming, limit, i, rounds, reported, ran).rounds)
    decreases limit - i
  {
    if i < limit && phase.model(i).Answers? && NamedPositions(phase.model(i).names) != [] {
      var text, names := phase.model(i).text, phase.model(i).names;
      var inv := Invoked(phase, i, names, ran);
      RoundInvoked(phase, i, names, ran);
      if inv.stop.None? {
        assert G.Numbered(rounds + [RoundOf(i, text, inv)]);
        RoundsNumbered(phase, streaming, limit, i + 1, rounds + [RoundOf(i, text, inv)],
                       reported + Map(ResultOf, inv.got), true);
      }
    }
  }

  // ---------------------------------------------------------------- reporting

  /** The phase asks for tools in its first round, and at least one runs. */
  predicate FirstRuns(phase: Phase, limit: nat) {
    && limit > 0 && phase.model(0).Answers? && NamedPositions(phase.model(0).names) != []
    && Invoked(phase, 0, phase.model(0).names, false).ran
  }

  /** The phase asks for tools in its first round, and the broker does not raise. */
  predicate FirstReports(phase: Phase, limit: nat) {
    && limit > 0 && phase.model(0).Answers? && NamedPositions(phase.model(0).names) != []
    && Invoked(phase, 0, phase.model(0).names, false).stop.None?
  }

  /** The broker raises during the very first round, after some tool ran. */
  predicate BrokenFirst(phase: Phase, limit: nat) {
    FirstRuns(phase, limit) && !FirstReports(phase, limit)
  }

  const COMPRESSION_ABORT := RaisedResult(CompressionFailed, [])

  /**
   * From the second round on something is always reported, and what a result says is what was reported, or an abort.
   */
  lemma {:induction false} LaterReports(phase: Phase, streaming: bool, limit: nat, i: nat, rounds: seq<T.Round>,
                                        reported: seq<string>, ran: bool)
    requires i <= limit
    ensures var r := Rounds(phase, streaming, limit, i, rounds, reported, ran);
            && reported <= r.reported
            && (r.end.Some? ==> r.end.value == COMPRESSION_ABORT || r.end.value.toolResults == r.reported)
            && (ran ==> r.ran)
    decreases limit - i
  {
    if i < limit && phase.model(i).Answers? && NamedPositions(phase.model(i).names) != [] {
      var text, names := phase.model(i).text, phase.model(i).names;
      var inv := Invoked(phase, i, names, ran);
      RoundInvoked(phase, i, names, ran);
      KeepsRan((j: nat) => phase.tool(i, j), NamedPositions(names), 0, [], ran);
      if inv.stop.None? {
        LaterReports(phase, streaming, limit, i + 1, rounds + [RoundOf(i, text, inv)],
                     reported + Map(ResultOf, inv.got), true);
      }
    }
  }

  lemma {:induction false} KeepsRan(tool: nat -> ToolOutcome, positions: seq<nat>, j: nat, got: seq<T.Invoked>,
                                    ran: bool)
    requires j <= |positions|
    ensures ran ==> InvokeFrom(tool, positions, j, got, ran).ran
    decreases |positions| - j
  {
    if j < |positions| && tool(j).ToolReturns? && tool(j).verdict == Proceeds {
      KeepsRan(tool, positions, j + 1, got + [T.Invoked(positions[j], tool(j).result)], true);
    }
  }

  /**
   * A phase that ran a tool has nothing to report exactly when the broker broke its first round; its rounds are
   * reported.
   */
  lemma PhaseReports(phase: Phase, streaming: bool, limit: nat)
    ensures var r := PhaseRun(phase, streaming, limit);
            && (r.ran && r.reported == [] <==> BrokenFirst(phase, limit))
            && (r.rounds != [] ==> r.reported != [])
            && (r.end.Some? ==> r.end.value == COMPRESSION_ABORT || r.end.value.toolResults == r.reported)
  {
    LaterReports(phase, streaming, limit, 0, [], [], false);
    if limit > 0 && phase.model(0).Answers? && NamedPositions(phase.model(0).names) != [] {
      var text, names := phase.model(0).text, phase.model(0).names;
      var inv := Invoked(phase, 0, names, false);
      RoundInvoked(phase, 0, names, false);
      var now := [] + Map(ResultOf, inv.got);
      if inv.stop.None? {
        assert |now| > 0;
        LaterReports(phase, streaming, limit, 1, [] + [RoundOf(0, text, inv)], now, true);
      }
    }
  }

  // ---------------------------------------------------------------- one adapter call

  lemma FinalEnds(s: Script)
    ensures Final(s).end.Some?
  {
    PlainEnds(s.plain, s.limit, 0, [], [], false);
  }

  function Result(s: Script): AgentRunResult {
    if Final(s).end.Some? then Final(s).end.value else LimitResult([])
  }

  function FinalPhase(s: Script): Phase {
    if s.streams && !FellBack(s) then s.streamed else s.plain
  }

  /** Round i asks for tools, and broker and refresh let the loop go on. */
  predicate Completes(phase: Phase, i: nat) {
    && phase.model(i).Answers? && NamedPositions(phase.model(i).names) != []
    && var inv := Invoked(phase, i, phase.model(i).names, false);
       inv.stop.None? && !inv.denied && phase.refresh(i).None?
  }

  /** Round i raises, out of the model, the broker or the refresh. */
  predicate RaisesAt(phase: Phase, i: nat, exc: Exc) {
    match phase.model(i)
    case ModelRaises(own) => own == exc
    case Answers(_, names, _) =>
      && NamedPositions(names) != []
      && var inv := Invoked(phase, i, names, false);
         if inv.stop.Some? then inv.stop.value == exc else !inv.denied && phase.refresh(i) == Some(exc)
  }

  /** Some round within the limit raises, and all rounds before it complete. */
  predicate StopsBy(phase: Phase, limit: nat, exc: Exc) {
    StopsFrom(phase, limit, exc, 0)
  }

  predicate StopsFrom(phase: Phase, limit: nat, exc: Exc, i: nat) {
    exists n: nat | i <= n < limit :: RaisesAt(phase, n, exc) && forall j: nat | i <= j < n :: Completes(phase, j)
  }

  lemma {:induction false} SameInvocations(tool: nat -> ToolOutcome, positions: seq<nat>, j: nat, got: seq<T.Invoked>,
                                           ran: bool)
    requires j <= |positions|
    ensures InvokeFrom(tool, positions, j, got, ran)
            == InvokeFrom(tool, positions, j, got, false).(ran := InvokeFrom(tool, positions, j, got, ran).ran)
  {
  }

  lemma StopsNext(phase: Phase, limit: nat, exc: Exc, i: nat)
    requires i < limit
    ensures StopsFrom(phase, limit, exc, i)
            <==> RaisesAt(phase, i, exc) || (Completes(phase, i) && StopsFrom(phase, limit, exc, i + 1))
  {
    if StopsFrom(phase, limit, exc, i) && !RaisesAt(phase, i, exc) {
      var n: nat :| i <= n < limit && RaisesAt(phase, n, exc) && forall j: nat | i <= j < n :: Completes(phase, j);
      assert Completes(phase, i);
    }
    if Completes(phase, i) && StopsFrom(phase, limit, exc, i + 1) {
      var n: nat :| i + 1 <= n < limit && RaisesAt(phase, n, exc)
          && forall j: nat | i + 1 <= j < n :: Completes(phase, j);
      assert forall j: nat | i <= j < n :: Completes(phase, j);
    }
  }

  /**
   * A phase ends with the exception that stops it: streaming without a result if that is one for an unsupported stream.
   */
  lemma {:induction false} EndsBy(phase: Phase, streaming: bool, limit: nat, i: nat, rounds: seq<T.Round>,
                                  reported: seq<string>, ran: bool)
    requires i <= limit
    ensures var r := Rounds(phase, streaming, limit, i, rounds, reported, ran);
            && (r.end.None? <==> streaming && StopsFrom(phase, limit, Unsupported, i))
            && (r.end == Some(COMPRESSION_ABORT) <==> StopsFrom(phase, limit, CompressionFailed, i))
    decreases limit - i
  {
    AbortIsOwn(reported);
    if i < limit {
      StopsNext(phase, limit, Unsupported, i);
      StopsNext(phase, limit, CompressionFailed, i);
      if phase.model(i).Answers? && NamedPositions(phase.model(i).names) != [] {
        var text, names := phase.model(i).text, phase.model(i).names;
        var inv := Invoked(phase, i, names, ran);
        var now := reported + Map(ResultOf, inv.got);
        SameInvocations((j: nat) => phase.tool(i, j), NamedPositions(names), 0, [], ran);
        AbortIsOwn(now);
        if Completes(phase, i) {
          EndsBy(phase, streaming, limit, i + 1, rounds + [RoundOf(i, text, inv)], now, true);
        }
      }
    }
  }

  /** No other end looks like a failed compression. */
  lemma AbortIsOwn(reported: seq<string>)
    ensures forall exc :: RaisedResult(exc, reported) == COMPRESSION_ABORT <==> exc == CompressionFailed
    ensures LimitResult(reported) != COMPRESSION_ABORT && DeniedResult(reported) != COMPRESSION_ABORT
    ensures forall text, cutOff :: FinalResult(text, cutOff, reported) != COMPRESSION_ABORT
  {
    assert |"compression_failed"| == 18 && "compression_failed"[0] == 'c';
    assert "provider_timeout"[0] == 'p' && "provider_rate_limited"[0] == 'p' && "provider_exception"[0] == 'p';
    assert "model_call_timeout"[0] == 'm' && "runtime_error"[0] == 'r' && "policy_error"[0] == 'p'
           && "model_error"[0] == 'm';
    assert |"timeout"| == 7 && |"failed"| == 6 && |"cancelled"| == 9 && |"completed"| == 9;
  }

  lemma PhaseCauses(phase: Phase, streaming: bool, limit: nat)
    ensures var r := PhaseRun(phase, streaming, limit);
            && (r.ran <==> FirstRuns(phase, limit)) && (r.reported == [] <==> !FirstReports(phase, limit))
            && (r.end.None? <==> streaming && StopsBy(phase, limit, Unsupported))
            && (r.end == Some(COMPRESSION_ABORT) <==> StopsBy(phase, limit, CompressionFailed))
  {
    EndsBy(phase, streaming, limit, 0, [], [], false);
    FirstRound(phase, streaming, limit);
  }

  lemma FirstRound(phase: Phase, streaming: bool, limit: nat)
    ensures var r := PhaseRun(phase, streaming, limit);
            (r.ran <==> FirstRuns(phase, limit)) && (r.reported == [] <==> !FirstReports(phase, limit))
  {
    if limit > 0 && phase.model(0).Answers? && NamedPositions(phase.model(0).names) != [] {
      var text, names := phase.model(0).text, phase.model(0).names;
      var inv := Invoked(phase, 0, names, false);
      RoundInvoked(phase, 0, names, false);
      var now := [] + Map(ResultOf, inv.got);
      if inv.stop.None? {
        assert |now| > 0;
        LaterReports(phase, streaming, limit, 1, [] + [RoundOf(0, text, inv)], now, true);
      }
    }
  }

  /** The streaming loop hits an unsupported operation after its first round has run a tool. */
  predicate FallsBackAfterTool(s: Script) {
    s.streams && StopsBy(s.streamed, s.limit, Unsupported) && FirstRuns(s.streamed, s.limit)
  }

  /** The phase that ends the call never brings a round's results back, or ends in a failed compression. */
  predicate LosesResults(phase: Phase, limit: nat) {
    !FirstReports(phase, limit) || StopsBy(phase, limit, CompressionFailed)
  }

  /**
   * A call that ran a tool reports none exactly when the phase that ends it loses its results, and a tool ran in that
   * phase's first round or in the streaming loop it fell back from.
   */
  lemma UnreportedIff(s: Script)
    ensures RanTool(s) && Result(s).toolResults == []
            <==> LosesResults(FinalPhase(s), s.limit) && (FirstRuns(FinalPhase(s), s.limit) || FallsBackAfterTool(s))
  {
    FinalEnds(s);
    PhaseCauses(s.streamed, true, s.limit);
    PhaseCauses(s.plain, false, s.limit);
    PhaseReports(FinalPhase(s), s.streams && !FellBack(s), s.limit);
  }

  /** A tool ran before the call started over without streaming, or in a first round the broker broke. */
  predicate LosesTool(s: Script) {
    FallsBackAfterTool(s) || BrokenFirst(FinalPhase(s), s.limit)
  }

  lemma LostIff(s: Script)
    requires Result(s).toolResults == [] && Result(s) != COMPRESSION_ABORT
    ensures RanTool(s) <==> LosesTool(s)
  {
    UnreportedIff(s);
    FinalEnds(s);
    PhaseCauses(s.streamed, true, s.limit);
    PhaseCauses(s.plain, false, s.limit);
  }

  lemma CallNumbered(s: Script)
    ensures G.Numbered(Streamed(s).rounds) && G.Numbered(Final(s).rounds) && G.Invoking(RoundsOf(s))
  {
    RoundsNumbered(s.streamed, true, s.limit, 0, [], [], false);
    RoundsNumbered(s.plain, false, s.limit, 0, [], [], false);
  }

  // ---------------------------------------------------------------- all adapter calls of a turn

  type Scripts = nat -> Script

  function AdapterOf(scripts: Scripts): Adapter {
    (n: nat, request: AdapterRequest) => Result(scripts(n))
  }

  function TurnCalls(scripts: Scripts): seq<Call> {
    Run(DefaultRegistry(), AdapterOf(scripts)).calls
  }

  lemma TurnHistory(scripts: Scripts)
    ensures |TurnCalls(scripts)| > 0
            && forall i | 0 <= i < |TurnCalls(scripts)| :: TurnCalls(scripts)[i].result == Result(scripts(i))
  {
    DefaultRegistryValid();
    RunIsBounded(DefaultRegistry(), AdapterOf(scripts), 2, 1);
  }

  lemma AbortNotRetried(rules: Registry, key: RuleKey, strategy: Strategy)
    requires rules == DefaultRegistry()
    ensures !CallsForRetry(rules, COMPRESSION_ABORT, key, strategy)
  {
    var own: RuleKey := ("model_error", "compression_failed");
    assert Source(COMPRESSION_ABORT).value.key == own;
    assert own.1[1] == 'o' && own.1[3] == 'p' && |own.1| == 18;
    assert "model_call_timeout"[3] == 'e' && "provider_exception"[1] == 'r';
    assert own !in rules;
  }

  lemma ContinuesOnce(rules: Registry, a: Attempt)
    requires rules == DefaultRegistry() && a.source in rules && rules[a.source].strategy == a.strategy
    requires 1 <= a.number <= rules[a.source].maxAttempts
    ensures a.strategy == ContinueGeneration ==> a.number == 1
  {
  }

  /** Under the default rules a call that is not the last reported nothing and did not end in a failed compression. */
  lemma RetriedCall(scripts: Scripts, i: nat)
    requires i < |TurnCalls(scripts)| - 1
    ensures Result(scripts(i)).toolResults == [] && Result(scripts(i)) != COMPRESSION_ABORT
  {
    var rules, o := DefaultRegistry(), Run(DefaultRegistry(), AdapterOf(scripts));
    DefaultRegistryValid();
    TurnHistory(scripts);
    RetriesEarned(rules, AdapterOf(scripts));
    assert Earned(rules, o.calls, o.attempts, i);
    EarnedByCall(rules, o.calls, o.attempts, i);
  }

  lemma EarnedByCall(rules: Registry, calls: seq<Call>, attempts: seq<Attempt>, i: nat)
    requires rules == DefaultRegistry() && i < |attempts| == |calls| - 1 && Earned(rules, calls, attempts, i)
    ensures calls[i].result.toolResults == [] && calls[i].result != COMPRESSION_ABORT
  {
    var a := attempts[i];
    ContinuesOnce(rules, a);
    AbortNotRetried(rules, a.source, a.strategy);
  }

  /**
   * Under the default rules a retry follows an executed tool in a turn exactly when one of the calls retried lost its
   * tool: it fell back from streaming after the tool, or the broker raised in its first round after the tool.
   */
  lemma RetryAfterToolIff(scripts: Scripts)
    ensures (exists i | 0 <= i < |TurnCalls(scripts)| - 1 :: RanTool(scripts(i)))
            <==> exists i | 0 <= i < |TurnCalls(scripts)| - 1 :: LosesTool(scripts(i))
  {
    forall i | 0 <= i < |TurnCalls(scripts)| - 1 ensures RanTool(scripts(i)) <==> LosesTool(scripts(i)) {
      RetriedCall(scripts, i);
      LostIff(scripts(i));
    }
  }

  /** The first call is followed by another exactly when its own result calls for one. */
  lemma FirstCallRetriedIff(scripts: Scripts)
    ensures |TurnCalls(scripts)| > 1
            <==> Source(Result(scripts(0))).Some?
                 && DecideFor(DefaultRegistry(), Source(Result(scripts(0))).value).Allowed?
  {
    var rules, adapter, result := DefaultRegistry(), AdapterOf(scripts), Result(scripts(0));
    var calls: seq<Call> := [Call(Original, result)];
    assert adapter(0, Original) == result;
    DefaultRegistryValid();
    if Source(result).Some? && DecideFor(rules, Source(result).value).Allowed? {
      var rule := DecideFor(rules, Source(result).value);
      DecisionCalls(rules, result);
      if rule.spec.strategy == RepeatCall {
        RepeatsMore(rules, adapter, rule, rule.key, calls, [], 1);
      } else {
        KeepsCalls(adapter, rule, result, rule.key, calls, [], 1);
      }
    }
  }

  lemma {:induction false} RepeatsMore(rules: Registry, adapter: Adapter, rule: Decision, source: RuleKey,
                                       calls: seq<Call>, attempts: seq<Attempt>, k: nat)
    requires rule.Allowed? && |calls| > 0
    ensures var made := Repeats(rules, adapter, rule, source, calls, attempts, k).calls;
            |made| >= |calls| && (k <= rule.spec.maxAttempts ==> |made| > |calls|)
    decreases rule.spec.maxAttempts + 1 - k
  {
    if k <= rule.spec.maxAttempts {
      var result := adapter(|calls|, Original);
      var made, noted := calls + [Call(Original, result)], attempts + [Attempt(RepeatCall, k, source)];
      if Source(result).Some? {
        var next := DecideFor(rules, Source(result).value);
        if next.Allowed? && next.spec.strategy != RepeatCall {
          KeepsCalls(adapter, next, result, next.key, made, noted, 1);
        } else if next.Allowed? && next.key == rule.key {
          RepeatsMore(rules, adapter, rule, next.key, made, noted, k + 1);
        }
      }
    }
  }

  // ---------------------------------------------------------------- ids across all rounds of a turn

  ghost predicate InvokedAt(rounds: seq<T.Round>, a: nat, i: nat) {
    a < |rounds| && i < |rounds[a].invoked|
  }

  /** The number of the model call and the position within it that an invoked call is identified by. */
  function Slot(rounds: seq<T.Round>, a: nat, i: nat): (nat, nat)
    requires a < |rounds| && i < |rounds[a].invoked|
  {
    (rounds[a].call, rounds[a].invoked[i].position)
  }

  ghost predicate Uses(rounds: seq<T.Round>, slot: (nat, nat)) {
    exists a: nat, i: nat :: InvokedAt(rounds, a, i) && Slot(rounds, a, i) == slot
  }

  /** No model call number and position is used in both. */
  ghost predicate Apart(a: seq<T.Round>, b: seq<T.Round>) {
    forall slot :: !(Uses(a, slot) && Uses(b, slot))
  }

  ghost predicate IdsDistinct(turn: string, rounds: seq<T.Round>) {
    forall a: nat, i: nat, b: nat, j: nat | InvokedAt(rounds, a, i) && InvokedAt(rounds, b, j) && (a != b || i != j) ::
      G.ScopedIdAt(turn, rounds, a, i) != G.ScopedIdAt(turn, rounds, b, j)
  }

  ghost predicate SlotsDistinct(rounds: seq<T.Round>) {
    forall a: nat, i: nat, b: nat, j: nat | InvokedAt(rounds, a, i) && InvokedAt(rounds, b, j) && (a != b || i != j) ::
      Slot(rounds, a, i) != Slot(rounds, b, j)
  }

  lemma SameIdSameSlot(turn: string, rounds: seq<T.Round>, a: nat, i: nat, b: nat, j: nat)
    requires InvokedAt(rounds, a, i) && InvokedAt(rounds, b, j)
    ensures G.ScopedIdAt(turn, rounds, a, i) == G.ScopedIdAt(turn, rounds, b, j)
            <==> Slot(rounds, a, i) == Slot(rounds, b, j)
  {
    var x := T.RawToolId(rounds[a].call, rounds[a].invoked[i].position);
    var y := T.RawToolId(rounds[b].call, rounds[b].invoked[j].position);
    if T.InTurn(turn, x) == T.InTurn(turn, y) {
      assert T.InTurn(turn, x)[|turn| + 1..] == x && T.InTurn(turn, y)[|turn| + 1..] == y;
      T.RawToolIdInjective(rounds[a].call, rounds[a].invoked[i].position, rounds[b].call,
                           rounds[b].invoked[j].position);
    }
  }

  lemma IdsAreSlots(turn: string, rounds: seq<T.Round>)
    ensures IdsDistinct(turn, rounds) <==> SlotsDistinct(rounds)
  {
    forall a: nat, i: nat, b: nat, j: nat | InvokedAt(rounds, a, i) && InvokedAt(rounds, b, j)
      ensures G.ScopedIdAt(turn, rounds, a, i) == G.ScopedIdAt(turn, rounds, b, j)
              <==> Slot(rounds, a, i) == Slot(rounds, b, j)
    {
      SameIdSameSlot(turn, rounds, a, i, b, j);
    }
  }

  lemma NumberedIdsDistinct(turn: string, rounds: seq<T.Round>)
    requires G.Numbered(rounds)
    ensures IdsDistinct(turn, rounds)
  {
    forall a: nat, i: nat, b: nat, j: nat | InvokedAt(rounds, a, i) && InvokedAt(rounds, b, j) && (a != b || i != j)
      ensures G.ScopedIdAt(turn, rounds, a, i) != G.ScopedIdAt(turn, rounds, b, j)
    {
      G.CallKeysDistinct(turn, rounds, a, i, b, j);
    }
  }

  lemma NumberedDistinct(rounds: seq<T.Round>)
    requires G.Numbered(rounds)
    ensures SlotsDistinct(rounds)
  {
    NumberedIdsDistinct("", rounds);
    IdsAreSlots("", rounds);
  }

  lemma UsesConcat(a: seq<T.Round>, b: seq<T.Round>, slot: (nat, nat))
    ensures Uses(a + b, slot) <==> Uses(a, slot) || Uses(b, slot)
  {
    var all := a + b;
    if Uses(a, slot) {
      var k: nat, i: nat :| InvokedAt(a, k, i) && Slot(a, k, i) == slot;
      assert InvokedAt(all, k, i) && Slot(all, k, i) == slot;
    }
    if Uses(b, slot) {
      var k: nat, i: nat :| InvokedAt(b, k, i) && Slot(b, k, i) == slot;
      assert InvokedAt(all, |a| + k, i) && Slot(all, |a| + k, i) == slot;
    }
    if Uses(all, slot) {
      var k: nat, i: nat :| InvokedAt(all, k, i) && Slot(all, k, i) == slot;
      if k < |a| {
        assert InvokedAt(a, k, i) && Slot(a, k, i) == slot;
      } else {
        assert InvokedAt(b, k - |a|, i) && Slot(b, k - |a|, i) == slot;
      }
    }
  }

  lemma PartsDistinct(a: seq<T.Round>, b: seq<T.Round>)
    requires SlotsDistinct(a + b)
    ensures SlotsDistinct(a) && SlotsDistinct(b) && Apart(a, b)
  {
    var all := a + b;
    forall k: nat, i: nat | InvokedAt(a, k, i) ensures InvokedAt(all, k, i) && Slot(all, k, i) == Slot(a, k, i) {
    }
    forall k: nat, i: nat | InvokedAt(b, k, i)
      ensures InvokedAt(all, |a| + k, i) && Slot(all, |a| + k, i) == Slot(b, k, i)
    {
    }
    forall k: nat, i: nat, l: nat, j: nat | InvokedAt(a, k, i) && InvokedAt(b, l, j)
      ensures Slot(a, k, i) != Slot(b, l, j)
    {
      assert Slot(all, k, i) != Slot(all, |a| + l, j);
    }
  }

  lemma WholeDistinct(a: seq<T.Round>, b: seq<T.Round>)
    requires SlotsDistinct(a) && SlotsDistinct(b) && Apart(a, b)
    ensures SlotsDistinct(a + b)
  {
    var all := a + b;
    forall k: nat, i: nat, l: nat, j: nat | InvokedAt(all, k, i) && InvokedAt(all, l, j) && (k != l || i != j)
      ensures Slot(all, k, i) != Slot(all, l, j)
    {
      assert k < |a| ==> InvokedAt(a, k, i) && Slot(a, k, i) == Slot(all, k, i);
      assert l < |a| ==> InvokedAt(a, l, j) && Slot(a, l, j) == Slot(all, l, j);
      assert k >= |a| ==> InvokedAt(b, k - |a|, i) && Slot(b, k - |a|, i) == Slot(all, k, i);
      assert l >= |a| ==> InvokedAt(b, l - |a|, j) && Slot(b, l - |a|, j) == Slot(all, l, j);
      if k < |a| <= l {
        assert Uses(a, Slot(all, k, i)) && Uses(b, Slot(all, l, j));
      }
      if l < |a| <= k {
        assert Uses(a, Slot(all, l, j)) && Uses(b, Slot(all, k, i));
      }
    }
  }

  function FlatRounds(blocks: seq<seq<T.Round>>): seq<T.Round> {
    if |blocks| == 0 then [] else FlatRounds(blocks[..|blocks| - 1]) + blocks[|blocks| - 1]
  }

  lemma {:induction false} UsesSomeBlock(blocks: seq<seq<T.Round>>, slot: (nat, nat))
    ensures Uses(FlatRounds(blocks), slot) <==> exists p | 0 <= p < |blocks| :: Uses(blocks[p], slot)
  {
    if |blocks| > 0 {
      var n := |blocks| - 1;
      UsesSomeBlock(blocks[..n], slot);
      UsesConcat(FlatRounds(blocks[..n]), blocks[n], slot);
      assert forall p | 0 <= p < n :: blocks[..n][p] == blocks[p];
    }
  }

  ghost predicate AllApart(blocks: seq<seq<T.Round>>) {
    forall p, q | 0 <= p < q < |blocks| :: Apart(blocks[p], blocks[q])
  }

  lemma ApartFromAll(blocks: seq<seq<T.Round>>, last: seq<T.Round>)
    ensures Apart(FlatRounds(blocks), last) <==> forall p | 0 <= p < |blocks| :: Apart(blocks[p], last)
  {
    forall slot ensures Uses(FlatRounds(blocks), slot) <==> exists p | 0 <= p < |blocks| :: Uses(blocks[p], slot) {
      UsesSomeBlock(blocks, slot);
    }
  }

  /** Rounds numbered afresh in every block are told apart exactly when no two blocks share a number and position. */
  lemma {:induction false} BlocksDistinct(blocks: seq<seq<T.Round>>)
    requires forall p | 0 <= p < |blocks| :: G.Numbered(blocks[p])
    ensures SlotsDistinct(FlatRounds(blocks)) <==> AllApart(blocks)
  {
    if |blocks| > 0 {
      var n := |blocks| - 1;
      var front, last := blocks[..n], blocks[n];
      BlocksDistinct(front);
      NumberedDistinct(last);
      ApartFromAll(front, last);
      if SlotsDistinct(FlatRounds(blocks)) {
        PartsDistinct(FlatRounds(front), last);
      }
      if AllApart(blocks) {
        assert AllApart(front);
        WholeDistinct(FlatRounds(front), last);
      }
    }
  }

  /** The rounds of each phase of the first n calls, streamed ones only where the call fell back. */
  function Phases(scripts: Scripts, n: nat): seq<seq<T.Round>> {
    if n == 0 then []
    else
      var s := scripts(n - 1);
      Phases(scripts, n - 1) + [if FellBack(s) then Streamed(s).rounds else []] + [Final(s).rounds]
  }

  function Recorded(scripts: Scripts): nat -> seq<T.Round> {
    (i: nat) => RoundsOf(scripts(i))
  }

  /** What the executor has accumulated when the turn's adapter calls are over. */
  function TurnRounds(scripts: Scripts): seq<T.Round> {
    G.Accumulated(Recorded(scripts), |TurnCalls(scripts)|)
  }

  lemma FlatTwo(blocks: seq<seq<T.Round>>, first: seq<T.Round>, second: seq<T.Round>)
    ensures FlatRounds(blocks + [first] + [second]) == FlatRounds(blocks) + (first + second)
  {
    assert (blocks + [first] + [second])[..|blocks| + 1] == blocks + [first];
    assert (blocks + [first])[..|blocks|] == blocks;
    ConcatAssoc(FlatRounds(blocks), first, second);
  }

  lemma {:induction false} PhasesFlat(scripts: Scripts, n: nat)
    ensures FlatRounds(Phases(scripts, n)) == G.Accumulated(Recorded(scripts), n)
  {
    if n > 0 {
      PhasesFlat(scripts, n - 1);
      var s := scripts(n - 1);
      FlatTwo(Phases(scripts, n - 1), if FellBack(s) then Streamed(s).rounds else [], Final(s).rounds);
    }
  }

  lemma {:induction false} PhasesNumbered(scripts: Scripts, n: nat)
    ensures forall p | 0 <= p < |Phases(scripts, n)| :: G.Numbered(Phases(scripts, n)[p])
  {
    if n > 0 {
      PhasesNumbered(scripts, n - 1);
      CallNumbered(scripts(n - 1));
    }
  }

  lemma InvokingConcat(a: seq<T.Round>, b: seq<T.Round>)
    requires G.Invoking(a) && G.Invoking(b)
    ensures G.Invoking(a + b)
  {
  }

  lemma {:induction false} TurnInvokes(scripts: Scripts, n: nat)
    ensures G.Invoking(G.Accumulated(Recorded(scripts), n))
  {
    if n > 0 {
      TurnInvokes(scripts, n - 1);
      CallNumbered(scripts(n - 1));
      InvokingConcat(G.Accumulated(Recorded(scripts), n - 1), RoundsOf(scripts(n - 1)));
    }
  }

  /**
   * The ids of all tool calls a turn records are different exactly when no model call number and position was used in
   * two phases, that is, before and after a fallback or in two calls of the retry loop.
   */
  lemma TurnIdsDistinctIff(turn: string, scripts: Scripts)
    ensures IdsDistinct(turn, TurnRounds(scripts)) <==> AllApart(Phases(scripts, |TurnCalls(scripts)|))
  {
    var n := |TurnCalls(scripts)|;
    PhasesFlat(scripts, n);
    PhasesNumbered(scripts, n);
    BlocksDistinct(Phases(scripts, n));
    IdsAreSlots(turn, TurnRounds(scripts));
  }

  /** The call fell back after a round had been recorded. */
  predicate StreamedAway(s: Script) {
    FellBack(s) && Streamed(s).rounds != []
  }

  ghost predicate NothingStreamedAway(scripts: Scripts, n: nat) {
    forall i | 0 <= i < n :: !StreamedAway(scripts(i))
  }

  /** Where no call falls back after recording a round, all rounds of the turn are those of its last call. */
  lemma OnlyLastRecords(scripts: Scripts, n: nat)
    requires n == |TurnCalls(scripts)| && NothingStreamedAway(scripts, n)
    ensures n > 0 && TurnRounds(scripts) == Final(scripts(n - 1)).rounds && G.Numbered(TurnRounds(scripts))
  {
    TurnHistory(scripts);
    forall i: nat | i < n - 1 ensures RoundsOf(scripts(i)) == [] {
      RetriedRecords(scripts, i);
    }
    LastRecords(scripts, n);
  }

  lemma LastRecords(scripts: Scripts, n: nat)
    requires n > 0 && !StreamedAway(scripts(n - 1)) && forall i: nat | i < n - 1 :: RoundsOf(scripts(i)) == []
    ensures var rounds := G.Accumulated(Recorded(scripts), n);
            rounds == Final(scripts(n - 1)).rounds && G.Numbered(rounds)
  {
    LastOnly(Recorded(scripts), n);
    OnePhase(scripts(n - 1));
  }

  lemma OnePhase(s: Script)
    ensures !StreamedAway(s) ==> RoundsOf(s) == Final(s).rounds && G.Numbered(Final(s).rounds)
  {
    CallNumbered(s);
    EmptyFirst([], Final(s).rounds);
  }

  lemma EmptyFirst(a: seq<T.Round>, b: seq<T.Round>)
    requires a == []
    ensures a + b == b
  {
  }

  lemma LastOnly(own: nat -> seq<T.Round>, n: nat)
    requires n > 0 && forall i: nat | i < n - 1 :: own(i) == []
    ensures G.Accumulated(own, n) == own(n - 1)
  {
    G.NothingBefore(own, n - 1);
    EmptyFirst(G.Accumulated(own, n - 1), own(n - 1));
  }

  /** A call that is retried leaves no rounds but those streamed before a fallback. */
  lemma RetriedRecords(scripts: Scripts, i: nat)
    requires i < |TurnCalls(scripts)| - 1
    ensures RoundsOf(scripts(i)) == if FellBack(scripts(i)) then Streamed(scripts(i)).rounds else []
  {
    var s := scripts(i);
    RetriedCall(scripts, i);
    FinalEnds(s);
    PhaseReports(FinalPhase(s), s.streams && !FellBack(s), s.limit);
    assert Final(s).rounds == [];
  }

  /**
   * Whatever model, tools and provider do, the rounds a turn records, those of a denied first round aside, are accepted
   * as one closed group in which every call has its result; and unless some call fell back after recording a round, no
   * two of its calls share an id.
   */
  lemma TurnLoopIsSound(artifacts: C.Artifacts, sessionId: string, turn: string, scripts: Scripts)
    ensures var rounds := TurnRounds(scripts);
            var g := L.Group(sessionId, G.LoopAppends(turn, G.LoopRows(turn, rounds)));
            && (|rounds| > 0 ==> L.Accepted(artifacts, g))
            && V.PairClosed(g)
            && (NothingStreamedAway(scripts, |TurnCalls(scripts)|) ==> IdsDistinct(turn, rounds))
  {
    var rounds := TurnRounds(scripts);
    TurnInvokes(scripts, |TurnCalls(scripts)|);
    if |rounds| > 0 {
      G.LoopGroupAccepted(artifacts, sessionId, turn, rounds);
    }
    G.LoopGroupPairs(sessionId, turn, rounds);
    if NothingStreamedAway(scripts, |TurnCalls(scripts)|) {
      OnlyLastRecords(scripts, |TurnCalls(scripts)|);
      NumberedIdsDistinct(turn, rounds);
    }
  }

  // ---------------------------------------------------------------- the cases do happen

  const ONE_TOOL := Answers("", ["shell"], false)

  /**
   * A streamed tool round, after which streaming turns out unsupported; then a tool round without streaming, and an
   * answer.
   */
  function StreamedThenPlain(): Script {
    Script(true, 20,
           Phase(i => if i == 0 then ONE_TOOL else ModelRaises(Unsupported), (i, j) => ToolReturns("ok", Proceeds),
                 i => None),
           Phase(i => if i == 0 then ONE_TOOL else Answers("done", [], false), (i, j) => ToolReturns("ok", Proceeds),
                 i => None))
  }

  /** The same, but the call without streaming times out at once. */
  function StreamedThenTimeout(): Script {
    StreamedThenPlain().(plain := Phase(i => ModelRaises(TimedOut), (i, j) => ToolReturns("ok", Proceeds), i => None))
  }

  /** The broker runs the tool and then times out, in the first round. */
  function ToolTimesOut(): Script {
    Script(false, 20, StreamedThenPlain().streamed,
           Phase(i => ONE_TOOL, (i, j) => ToolRaises(TimedOut, true), i => None))
  }

  lemma OneToolRound(phase: Phase, streaming: bool)
    requires phase.model(0) == ONE_TOOL && phase.tool(0, 0) == ToolReturns("ok", Proceeds) && phase.refresh(0) == None
    ensures PhaseRun(phase, streaming, 20)
            == Rounds(phase, streaming, 20, 1, [T.Round(1, "", [T.Invoked(1, "ok")])], ["ok"], true)
  {
    OnePosition();
    var tool := (j: nat) => phase.tool(0, j);
    var got := [T.Invoked(1, "ok")];
    assert [] + got == got;
    assert InvokeFrom(tool, [1], 1, got, true) == Invocations(got, None, false, true);
    assert InvokeFrom(tool, [1], 0, [], false) == Invocations(got, None, false, true);
    assert Invoked(phase, 0, ["shell"], false) == Invocations(got, None, false, true);
    assert Map(ResultOf, got) == ["ok"];
    assert [] + [T.Round(1, "", got)] == [T.Round(1, "", got)] && [] + ["ok"] == ["ok"];
  }

  lemma OnePosition()
    ensures NamedPositions(["shell"]) == [1]
  {
    assert ["shell"][..0] == [];
  }

  lemma FallbackRan(s: Script)
    requires s == StreamedThenPlain() || s == StreamedThenTimeout()
    ensures FellBack(s) && Streamed(s).ran && Streamed(s).rounds == [T.Round(1, "", [T.Invoked(1, "ok")])]
  {
    OneToolRound(s.streamed, true);
  }

  /** Rounds before and after the fallback get the same ids. */
  lemma FallbackRepeatsId(turn: string)
    ensures var rounds := RoundsOf(StreamedThenPlain());
            && |rounds| == 2 && |rounds[0].invoked| == |rounds[1].invoked| == 1
            && G.ScopedIdAt(turn, rounds, 0, 0) == G.ScopedIdAt(turn, rounds, 1, 0)
  {
    var s := StreamedThenPlain();
    FallbackRan(s);
    OneToolRound(s.plain, false);
    assert Final(s).rounds == [T.Round(1, "", [T.Invoked(1, "ok")])];
    assert RoundsOf(s)[0] == RoundsOf(s)[1] == T.Round(1, "", [T.Invoked(1, "ok")]);
  }

  lemma TimedOutAfterTool(s: Script)
    requires s == StreamedThenTimeout() || s == ToolTimesOut()
    ensures RanTool(s) && LosesTool(s) && Result(s) == RaisedResult(TimedOut, [])
  {
    if s == StreamedThenTimeout() {
      FallbackRan(s);
      PhaseCauses(s.streamed, true, s.limit);
    } else {
      OnePosition();
      assert Invoked(s.plain, 0, ["shell"], false) == Invocations([], Some(TimedOut), false, true);
    }
  }

  /** A timeout after the fallback, or out of the broker, is retried although a tool has run. */
  lemma ToolRunsAgain(scripts: Scripts)
    requires scripts(0) == StreamedThenTimeout() || scripts(0) == ToolTimesOut()
    ensures |TurnCalls(scripts)| > 1 && RanTool(scripts(0)) && LosesTool(scripts(0))
  {
    TimedOutAfterTool(scripts(0));
    FirstCallRetriedIff(scripts);
    assert Source(RaisedResult(TimedOut, [])).value.key == ("model_error", "model_call_timeout");
  }
}
