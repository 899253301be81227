/**
 * A session of ordinary turns can always be checkpointed and resumed: the group ids its turns use are all different,
 * every call in its log has its result, so the cut at the end of the log is accepted and its projection snapshot
 * restores the very conversation the process held.
 */
module SessionRecovery {
  import opened Wrappers
  import opened Seqs
  import opened ModelContext
  import opened ConversationLog
  import opened ConversationLaws
  import opened RecoveryConversation
  import opened ReplConversation
  import opened ReplAlignment
  import Decimal
  import T = ToolLoopIds
  import G = TurnGroups

  // ---------------------------------------------------------------- group ids

  lemma ScopeReadsBack(k: nat, id: string)
    requires InTurnScope(TurnId(k), id)
    ensures Decimal.Before(id, ':') == TurnId(k)
  {
    Decimal.PrintHasNo(k, ':');
    assert ':' !in "turn-";
    assert id == TurnId(k) + [':'] + id[|TurnId(k)| + 1..];
    Decimal.BeforeSeparator(TurnId(k), id[|TurnId(k)| + 1..], ':');
  }

  lemma TurnIdInjective(j: nat, k: nat)
    requires TurnId(j) == TurnId(k)
    ensures j == k
  {
    assert TurnId(j)[5..] == Decimal.Print(j) && TurnId(k)[5..] == Decimal.Print(k);
    Decimal.PrintInjective(j, k);
  }

  /** An id in a turn's scope whose part after the colon starts with `c`. */
  predicate ScopedWith(turn: string, id: string, c: char) {
    InTurnScope(turn, id) && id[|turn| + 1] == c
  }

  lemma ScopeOf(turn: string, rest: string)
    requires rest != ""
    ensures ScopedWith(turn, turn + ":" + rest, rest[0])
  {
    assert (turn + ":" + rest)[..|turn| + 1] == turn + ":";
  }

  lemma UserScope(turn: string, text: string)
    ensures ScopedWith(turn, UserAppend(turn, text).groupId, 'u')
  {
    ScopeOf(turn, "user");
    assert turn + ":user" == turn + ":" + "user";
  }

  lemma AnswerScope(turn: string, text: string)
    ensures ScopedWith(turn, AnswerAppend(turn, text).groupId, 'a')
  {
    ScopeOf(turn, "assistant:final");
    assert turn + ":assistant:final" == turn + ":" + "assistant:final";
  }

  lemma FactScope(turn: string, fact: string)
    ensures ScopedWith(turn, FactAppend(turn, fact).groupId, 'r')
  {
    ScopeOf(turn, "runtime:" + fact);
    assert turn + ":runtime:" + fact == turn + ":" + ("runtime:" + fact);
  }

  lemma EndScope(turn: string, ending: Ending)
    ensures ScopedWith(turn, EndAppend(turn, ending).groupId, 'a')
            || ScopedWith(turn, EndAppend(turn, ending).groupId, 'r')
  {
    match ending
    case Answered(text) => AnswerScope(turn, text);
    case Unanswered(fact) => FactScope(turn, fact);
    case Interrupted => FactScope(turn, "cancellation_fact");
  }

  lemma LoopScope(turn: string)
    ensures ScopedWith(turn, turn + ":tool-loop", 't')
  {
    ScopeOf(turn, "tool-loop");
    assert turn + ":tool-loop" == turn + ":" + "tool-loop";
  }

  lemma LoopGroupId(sessionId: string, turn: string, loop: seq<T.Converted>)
    ensures var groups := LoopGroups(sessionId, turn, loop);
            |groups| <= 1 && forall i | 0 <= i < |groups| :: GroupId(groups[i]) == turn + ":tool-loop"
  {
  }

  lemma ThreeScopes(turn: string, first: string, middle: seq<string>, last: string)
    requires ScopedWith(turn, first, 'u') && (ScopedWith(turn, last, 'a') || ScopedWith(turn, last, 'r'))
    requires |middle| <= 1 && forall i | 0 <= i < |middle| :: ScopedWith(turn, middle[i], 't')
    ensures var ids := [first] + middle + [last];
            NoRepeats(ids) && forall i | 0 <= i < |ids| :: InTurnScope(turn, ids[i])
  {
  }

  /** The ids of a turn's groups: all in its scope, and told apart by the character after it. */
  lemma TurnGroupIds(sessionId: string, turn: string, text: string, loop: seq<T.Converted>, ending: Ending)
    ensures var ids := GroupIds(TurnGroupsOf(sessionId, turn, text, loop, ending));
            NoRepeats(ids) && forall i | 0 <= i < |ids| :: InTurnScope(turn, ids[i])
  {
    var first, last := Group(sessionId, [UserAppend(turn, text)]), Group(sessionId, [EndAppend(turn, ending)]);
    var middle := LoopGroups(sessionId, turn, loop);
    UserScope(turn, text);
    EndScope(turn, ending);
    LoopScope(turn);
    LoopGroupId(sessionId, turn, loop);
    ThreeScopes(turn, GroupId(first), GroupIds(middle), GroupId(last));
    assert GroupIds([first] + middle + [last]) == [GroupId(first)] + GroupIds(middle) + [GroupId(last)];
  }

  function GroupsOfTurn(sessionId: string, k: nat, t: TurnInput): seq<Group> {
    TurnGroupsOf(sessionId, TurnId(k), t.text, LoopOf(TurnId(k), t.rounds, t.ending), t.ending)
  }

  function SessionGroups(sessionId: string, k: nat, turns: seq<TurnInput>): seq<Group> {
    if |turns| == 0 then []
    else
      var n := |turns| - 1;
      SessionGroups(sessionId, k, turns[..n]) + GroupsOfTurn(sessionId, k + n, turns[n])
  }

  predicate ScopedBy(id: string, j: nat) {
    Decimal.Before(id, ':') == TurnId(j)
  }

  /** Each id belongs to the scope of one of the turns k, …, m - 1. */
  ghost predicate InScopes(ids: seq<string>, k: nat, m: nat) {
    forall i | 0 <= i < |ids| :: HasScope(ids[i], k, m)
  }

  ghost predicate HasScope(id: string, k: nat, m: nat) {
    exists j: nat | k <= j < m :: ScopedBy(id, j)
  }

  lemma NoRepeatsConcat(a: seq<string>, b: seq<string>)
    requires NoRepeats(a) && NoRepeats(b) && forall i, j | 0 <= i < |a| && 0 <= j < |b| :: a[i] != b[j]
    ensures NoRepeats(a + b)
  {
  }

  lemma GroupIdsConcat(a: seq<Group>, b: seq<Group>)
    ensures GroupIds(a + b) == GroupIds(a) + GroupIds(b)
  {
  }

  lemma {:induction false} SessionIdsDistinct(sessionId: string, k: nat, turns: seq<TurnInput>)
    ensures NoRepeats(GroupIds(SessionGroups(sessionId, k, turns)))
    ensures InScopes(GroupIds(SessionGroups(sessionId, k, turns)), k, k + |turns|)
  {
    if |turns| > 0 {
      var n := |turns| - 1;
      var turn, t := TurnId(k + n), turns[n];
      var groups := TurnGroupsOf(sessionId, turn, t.text, LoopOf(turn, t.rounds, t.ending), t.ending);
      SessionIdsDistinct(sessionId, k, turns[..n]);
      TurnGroupIds(sessionId, turn, t.text, LoopOf(turn, t.rounds, t.ending), t.ending);
      ScopesSnoc(GroupIds(SessionGroups(sessionId, k, turns[..n])), GroupIds(groups), k, k + n);
      GroupIdsConcat(SessionGroups(sessionId, k, turns[..n]), groups);
    }
  }

  lemma ScopesSnoc(before: seq<string>, own: seq<string>, k: nat, m: nat)
    requires k <= m && NoRepeats(before) && InScopes(before, k, m)
    requires NoRepeats(own) && forall i | 0 <= i < |own| :: InTurnScope(TurnId(m), own[i])
    ensures NoRepeats(before + own) && InScopes(before + own, k, m + 1)
  {
    forall i | 0 <= i < |own| ensures ScopedBy(own[i], m) {
      ScopeReadsBack(m, own[i]);
    }
    forall i, j | 0 <= i < |before| && 0 <= j < |own| ensures before[i] != own[j] {
      assert HasScope(before[i], k, m);
      var l: nat :| k <= l < m && ScopedBy(before[i], l);
      OtherScope(before[i], l, own[j], m);
    }
    NoRepeatsConcat(before, own);
    forall i | 0 <= i < |before + own| ensures HasScope((before + own)[i], k, m + 1) {
      if i < |before| {
        assert HasScope(before[i], k, m);
        var l: nat :| k <= l < m && ScopedBy(before[i], l);
        assert ScopedBy((before + own)[i], l);
      } else {
        assert ScopedBy((before + own)[i], m);
      }
    }
  }

  lemma OtherScope(a: string, l: nat, b: string, m: nat)
    requires ScopedBy(a, l) && ScopedBy(b, m) && l != m
    ensures a != b
  {
    if a == b {
      TurnIdInjective(l, m);
    }
  }

  // ---------------------------------------------------------------- pairing and acceptance

  lemma SinglePairs(sessionId: string, a: Append)
    requires a.toolCallId == None
    ensures PairClosed(Group(sessionId, [a]))
  {
    assert AppendKeys([a], "assistant_tool_call") == {} && AppendKeys([a], "tool_result") == {};
  }

  lemma TurnPairs(sessionId: string, turn: string, text: string, rounds: seq<T.Round>, ending: Ending)
    ensures var groups := TurnGroupsOf(sessionId, turn, text, LoopOf(turn, rounds, ending), ending);
            forall i | 0 <= i < |groups| :: PairClosed(groups[i])
  {
    SinglePairs(sessionId, UserAppend(turn, text));
    SinglePairs(sessionId, EndAppend(turn, ending));
    if !ending.Interrupted? {
      G.LoopGroupPairs(sessionId, turn, rounds);
    } else {
      assert Filter(G.IsDurable, []) == [];
    }
  }

  ghost predicate Good(artifacts: Artifacts, g: Group) {
    Accepted(artifacts, g) && PairClosed(g)
  }

  ghost predicate AllGood(artifacts: Artifacts, groups: seq<Group>) {
    forall i | 0 <= i < |groups| :: Good(artifacts, groups[i])
  }

  lemma GoodMeans(artifacts: Artifacts, groups: seq<Group>)
    ensures AllGood(artifacts, groups)
            <==> AllAccepted(artifacts, groups) && forall i | 0 <= i < |groups| :: PairClosed(groups[i])
  {
    if AllGood(artifacts, groups) {
      forall i | 0 <= i < |groups| ensures Accepted(artifacts, groups[i]) && PairClosed(groups[i]) {
        assert Good(artifacts, groups[i]);
      }
    }
  }

  lemma EveryConcat(p: Group -> bool, a: seq<Group>, b: seq<Group>)
    requires forall i | 0 <= i < |a| :: p(a[i])
    requires forall i | 0 <= i < |b| :: p(b[i])
    ensures forall i | 0 <= i < |a + b| :: p((a + b)[i])
  {
  }

  lemma GoodConcat(artifacts: Artifacts, a: seq<Group>, b: seq<Group>)
    requires AllGood(artifacts, a) && AllGood(artifacts, b)
    ensures AllGood(artifacts, a + b)
  {
    EveryConcat(g => Good(artifacts, g), a, b);
  }

  lemma {:induction false} SessionGroupsSound(artifacts: Artifacts, sessionId: string, k: nat, turns: seq<TurnInput>)
    requires InputsOk(turns)
    ensures AllGood(artifacts, SessionGroups(sessionId, k, turns))
    ensures |turns| > 0 ==> |SessionGroups(sessionId, k, turns)| > 0
  {
    if |turns| > 0 {
      var n := |turns| - 1;
      var t := turns[n];
      SessionGroupsSound(artifacts, sessionId, k, turns[..n]);
      assert InputOk(t);
      TurnAccepted(artifacts, sessionId, TurnId(k + n), t.text, t.rounds, t.ending);
      TurnPairs(sessionId, TurnId(k + n), t.text, t.rounds, t.ending);
      var own := TurnGroupsOf(sessionId, TurnId(k + n), t.text, LoopOf(TurnId(k + n), t.rounds, t.ending), t.ending);
      GoodMeans(artifacts, own);
      GoodConcat(artifacts, SessionGroups(sessionId, k, turns[..n]), own);
    }
  }

  // ---------------------------------------------------------------- the log of a session

  /** The rows of a log after some appends. */
  function RowsAfter(artifacts: Artifacts, rows: seq<Row>, groups: seq<Group>): seq<Row> {
    if |groups| == 0 then rows
    else
      var before, g := RowsAfter(artifacts, rows, groups[..|groups| - 1]), groups[|groups| - 1];
      before + MakeRows(g.sessionId, artifacts, g.messages, |before|)
  }

  lemma {:induction false} AppendAllRows(runId: string, artifacts: Artifacts, log: Log, groups: seq<Group>)
    ensures AppendAll(runId, artifacts, log, groups).rows == RowsAfter(artifacts, log.rows, groups)
  {
    if |groups| > 0 {
      AppendAllRows(runId, artifacts, log, groups[..|groups| - 1]);
    }
  }

  lemma {:induction false} RowsAfterGroups(artifacts: Artifacts, groups: seq<Group>, more: seq<Group>)
    ensures RowsAfter(artifacts, RowsOf(artifacts, groups), more) == RowsOf(artifacts, groups + more)
  {
    if |more| == 0 {
      assert groups + more == groups;
    } else {
      var n := |more| - 1;
      RowsAfterGroups(artifacts, groups, more[..n]);
      assert (groups + more)[..|groups + more| - 1] == groups + more[..n];
      BlocksSnoc(artifacts, groups + more);
      FlatSnoc(BlocksOf(artifacts, groups + more[..n]),
               MakeRows(more[n].sessionId, artifacts, more[n].messages, |RowsOf(artifacts, groups + more[..n])|));
    }
  }

  const FRESH := Repl([], EMPTY)

  /** The groups of each turn. */
  function Batches(sessionId: string, k: nat, turns: seq<TurnInput>): seq<seq<Group>> {
    if |turns| == 0 then []
    else Batches(sessionId, k, turns[..|turns| - 1]) + [GroupsOfTurn(sessionId, k + |turns| - 1, turns[|turns| - 1])]
  }

  function FlatGroups(batches: seq<seq<Group>>): seq<Group> {
    if |batches| == 0 then [] else FlatGroups(batches[..|batches| - 1]) + batches[|batches| - 1]
  }

  function AppendBatches(runId: string, artifacts: Artifacts, log: Log, batches: seq<seq<Group>>): Log {
    if |batches| == 0 then log
    else AppendAll(runId, artifacts, AppendBatches(runId, artifacts, log, batches[..|batches| - 1]),
                   batches[|batches| - 1])
  }

  lemma {:induction false} RowsAfterConcat(artifacts: Artifacts, rows: seq<Row>, a: seq<Group>, b: seq<Group>)
    ensures RowsAfter(artifacts, rows, a + b) == RowsAfter(artifacts, RowsAfter(artifacts, rows, a), b)
  {
    if |b| == 0 {
      assert a + b == a;
    } else {
      assert (a + b)[..|a + b| - 1] == a + b[..|b| - 1];
      RowsAfterConcat(artifacts, rows, a, b[..|b| - 1]);
    }
  }

  lemma {:induction false} RowsOfBatches(runId: string, artifacts: Artifacts, log: Log, batches: seq<seq<Group>>)
    ensures AppendBatches(runId, artifacts, log, batches).rows == RowsAfter(artifacts, log.rows, FlatGroups(batches))
  {
    if |batches| > 0 {
      var n := |batches| - 1;
      RowsOfBatches(runId, artifacts, log, batches[..n]);
      AppendAllRows(runId, artifacts, AppendBatches(runId, artifacts, log, batches[..n]), batches[n]);
      RowsAfterConcat(artifacts, log.rows, FlatGroups(batches[..n]), batches[n]);
    }
  }

  lemma AppendBatchesSnoc(runId: string, artifacts: Artifacts, log: Log, batches: seq<seq<Group>>, own: seq<Group>)
    ensures AppendBatches(runId, artifacts, log, batches + [own])
            == AppendAll(runId, artifacts, AppendBatches(runId, artifacts, log, batches), own)
    ensures FlatGroups(batches + [own]) == FlatGroups(batches) + own
  {
    assert (batches + [own])[..|batches|] == batches;
  }

  lemma {:induction false} LogOfTurns(runId: string, artifacts: Artifacts, sessionId: string, s: Repl, k: nat,
                                      turns: seq<TurnInput>)
    ensures AfterTurns(runId, artifacts, sessionId, s, k, turns).log
            == AppendBatches(runId, artifacts, s.log, Batches(sessionId, k, turns))
    ensures SessionGroups(sessionId, k, turns) == FlatGroups(Batches(sessionId, k, turns))
  {
    if |turns| > 0 {
      var n := |turns| - 1;
      LogOfTurns(runId, artifacts, sessionId, s, k, turns[..n]);
      AppendBatchesSnoc(runId, artifacts, s.log, Batches(sessionId, k, turns[..n]),
                        GroupsOfTurn(sessionId, k + n, turns[n]));
    }
  }

  lemma SessionRows(runId: string, artifacts: Artifacts, sessionId: string, k: nat, turns: seq<TurnInput>)
    ensures AfterTurns(runId, artifacts, sessionId, FRESH, k, turns).log.rows
            == RowsOf(artifacts, SessionGroups(sessionId, k, turns))
  {
    LogOfTurns(runId, artifacts, sessionId, FRESH, k, turns);
    RowsOfBatches(runId, artifacts, EMPTY, Batches(sessionId, k, turns));
    RowsAfterGroups(artifacts, [], SessionGroups(sessionId, k, turns));
    assert [] + SessionGroups(sessionId, k, turns) == SessionGroups(sessionId, k, turns);
  }

  lemma FreshIsSound(runId: string, artifacts: Artifacts)
    ensures Sound(runId, artifacts, FRESH)
  {
    EmptyValid(runId, artifacts);
  }

  /**
   * After any number of ordinary turns the whole log is an accepted fact cut, so a terminal checkpoint can be written.
   */
  lemma SessionCanBeCheckpointed(runId: string, artifacts: Artifacts, sessionId: string, k: nat, turns: seq<TurnInput>,
                                 reason: string)
    requires InputsOk(turns) && |turns| > 0
    ensures var end := AfterTurns(runId, artifacts, sessionId, FRESH, k, turns);
            BuildManifest(runId, artifacts, end.log, reason).Ok?
  {
    var groups, end := SessionGroups(sessionId, k, turns), AfterTurns(runId, artifacts, sessionId, FRESH, k, turns);
    FreshIsSound(runId, artifacts);
    SessionStaysSound(runId, artifacts, sessionId, FRESH, k, turns);
    SessionRows(runId, artifacts, sessionId, k, turns);
    SessionGroupsSound(artifacts, sessionId, k, turns);
    SessionIdsDistinct(sessionId, k, turns);
    WholeLogAccepted(runId, artifacts, groups);
    WhenManifestBuilds(runId, artifacts, end.log, reason);
  }

  lemma WholeLogAccepted(runId: string, artifacts: Artifacts, groups: seq<Group>)
    requires AllGood(artifacts, groups) && NoRepeats(GroupIds(groups)) && |groups| > 0
    ensures var rows := RowsOf(artifacts, groups);
            |rows| > 0 && CutVerdict(runId, artifacts, rows, |rows|).Ok?
  {
    GoodMeans(artifacts, groups);
    FreshGroupsCutAtBoundaries(runId, artifacts, groups, |RowsOf(artifacts, groups)|);
    assert BlocksOf(artifacts, groups)[..|groups|] == BlocksOf(artifacts, groups);
    assert Head(artifacts, groups, |groups|) == RowsOf(artifacts, groups);
    BlocksAccepted(artifacts, groups);
    FlatPrefix(GroupOk, BlocksOf(artifacts, groups), GroupIds(groups), 0);
  }

  /**
   * Resuming from that checkpoint, whatever was appended or overwritten since, gives back as many messages as the
   * process held, in its order, each with the durable index it had there.
   */
  lemma ResumeRestoresSession(runId: string, artifacts: Artifacts, sessionId: string, k: nat, turns: seq<TurnInput>,
                              reason: string, ops: seq<Op>)
    requires InputsOk(turns) && |turns| > 0
    ensures var end := AfterTurns(runId, artifacts, sessionId, FRESH, k, turns);
            var m := BuildManifest(runId, artifacts, end.log, reason);
            && m.Ok?
            && var later := Run(runId, artifacts, end.log, ops);
               ManifestVerdict(runId, artifacts, later, m.value) == None
               && Within(|later.rows|, Indexes(m.value.snapshot.refs))
               && SameConversation(RestoredAt(later.rows, Indexes(m.value.snapshot.refs)), end.conversation)
  {
    var end := AfterTurns(runId, artifacts, sessionId, FRESH, k, turns);
    SessionCanBeCheckpointed(runId, artifacts, sessionId, k, turns, reason);
    FreshIsSound(runId, artifacts);
    SessionStaysSound(runId, artifacts, sessionId, FRESH, k, turns);
    SessionRows(runId, artifacts, sessionId, k, turns);
    SessionGroupsSound(artifacts, sessionId, k, turns);
    SessionIdsDistinct(sessionId, k, turns);
    WholeLogAccepted(runId, artifacts, SessionGroups(sessionId, k, turns));
    RestoredFromLater(runId, artifacts, end, reason, ops);
  }

  lemma RestoredFromLater(runId: string, artifacts: Artifacts, s: Repl, reason: string, ops: seq<Op>)
    requires InStep(runId, artifacts, s) && |s.log.rows| > 0 && BuildManifest(runId, artifacts, s.log, reason).Ok?
    ensures var m := BuildManifest(runId, artifacts, s.log, reason).value;
            var later := Run(runId, artifacts, s.log, ops);
            && ManifestVerdict(runId, artifacts, later, m) == None
            && Within(|later.rows|, Indexes(m.snapshot.refs))
            && SameConversation(RestoredAt(later.rows, Indexes(m.snapshot.refs)), s.conversation)
  {
    CheckpointStaysValid(runId, artifacts, s.log, reason, ops);
    WhenManifestBuilds(runId, artifacts, s.log, reason);
  }

  /** Restored messages are numbered from 1 and carry, place by place, the durable indexes of the conversation. */
  ghost predicate SameConversation(restored: seq<RestoredMessage>, conversation: seq<Message>) {
    && |restored| == |conversation|
    && forall i | 0 <= i < |restored| ::
         restored[i].seqNo == i + 1 && conversation[i].durableIndex == Some(restored[i].durableIndex)
  }
}
