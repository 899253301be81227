/**
 * The number a resumed process gives its next turn (runtime/orchestrator.py): one more than the highest a restored row
 * names. When that number is unused, and what becomes of the run when it is not.
 */
module TurnNumbers {
  import opened Wrappers
  import opened Seqs
  import opened ModelContext
  import opened ConversationLog
  import opened ConversationLaws
  import opened RecoveryConversation
  import opened ReplConversation
  import opened ReplAlignment
  import opened SessionRecovery
  import opened ReplMirror
  import H = ReplHistory
  import T = ToolLoopIds
  import G = TurnGroups

  function UserGroup(sessionId: string, k: nat, text: string): Group {
    Group(sessionId, [UserAppend(TurnId(k), text)])
  }

  lemma UserPrepares(artifacts: Artifacts, sessionId: string, k: nat, text: string)
    ensures Good(artifacts, UserGroup(sessionId, k, text))
            && GroupId(UserGroup(sessionId, k, text)) == TurnId(k) + ":user"
  {
    EndsPrepare(artifacts, TurnId(k), text, Interrupted);
    SingleAccepted(artifacts, sessionId, UserAppend(TurnId(k), text));
    SinglePairs(sessionId, UserAppend(TurnId(k), text));
  }

  // ---------------------------------------------------------------- turn numbers in rows

  /** No turn id or model call id of the rows names a turn beyond `hi`. */
  ghost predicate TurnsUpTo(items: seq<Append>, hi: nat) {
    forall i | 0 <= i < |items| :: TurnOf(items[i].turnId) <= hi && TurnOf(items[i].modelCallId) <= hi
  }

  ghost predicate LoopUpTo(loop: seq<T.Converted>, hi: nat) {
    forall i | 0 <= i < |loop| :: TurnOf(loop[i].modelCallId) <= hi
  }

  lemma RoundTurns(k: nat, r: T.Round)
    ensures LoopUpTo(T.RoundRows(TurnId(k), r), k)
  {
    var id := T.InTurn(TurnId(k), T.ModelCallId(r.call));
    H.InTurnIsScoped(TurnId(k), T.ModelCallId(r.call));
    ScopedIdNamesTurn(k, id);
    var rows := T.RoundRows(TurnId(k), r);
    forall i | 0 <= i < |rows| ensures rows[i].modelCallId == Some(id) {
    }
  }

  lemma {:induction false} LoopRowTurns(k: nat, rounds: seq<T.Round>)
    ensures LoopUpTo(G.LoopRows(TurnId(k), rounds), k)
  {
    if |rounds| > 0 {
      LoopRowTurns(k, rounds[..|rounds| - 1]);
      RoundTurns(k, rounds[|rounds| - 1]);
    }
  }

  lemma TurnsConcat(a: seq<Append>, b: seq<Append>, hi: nat)
    requires TurnsUpTo(a, hi) && TurnsUpTo(b, hi)
    ensures TurnsUpTo(a + b, hi)
  {
  }

  lemma AroundTurns(a: seq<Append>, b: seq<Append>, c: seq<Append>, hi: nat)
    requires TurnsUpTo(a, hi) && TurnsUpTo(b, hi) && TurnsUpTo(c, hi)
    ensures TurnsUpTo(a + b + c, hi)
  {
    TurnsConcat(a, b, hi);
    TurnsConcat(a + b, c, hi);
  }

  lemma EndTurns(k: nat, text: string, ending: Ending)
    ensures TurnsUpTo([UserAppend(TurnId(k), text)], k) && TurnsUpTo([EndAppend(TurnId(k), ending)], k)
  {
    TurnIdNamesTurn(k);
    var id := TurnId(k) + ":assistant";
    assert id[..|TurnId(k)| + 1] == TurnId(k) + ":";
    ScopedIdNamesTurn(k, id);
  }

  lemma LoopTurns(k: nat, rounds: seq<T.Round>, ending: Ending)
    ensures LoopUpTo(LoopOf(TurnId(k), rounds, ending), k)
  {
    LoopRowTurns(k, rounds);
  }

  lemma MiddleTurns(k: nat, loop: seq<T.Converted>)
    requires LoopUpTo(loop, k)
    ensures TurnsUpTo(G.ToAppends(TurnId(k), loop), k)
  {
    TurnIdNamesTurn(k);
    var items := G.ToAppends(TurnId(k), loop);
    forall i | 0 <= i < |items| ensures TurnOf(items[i].turnId) <= k && TurnOf(items[i].modelCallId) <= k {
      assert items[i].modelCallId == loop[i].modelCallId && items[i].turnId == Some(TurnId(k));
    }
  }

  lemma ItemsTurns(k: nat, t: TurnInput)
    ensures TurnsUpTo(ItemsOfTurn(k, t), k)
  {
    var turn := TurnId(k);
    var loop := LoopOf(turn, t.rounds, t.ending);
    var middle := G.ToAppends(turn, loop);
    LoopTurns(k, t.rounds, t.ending);
    MiddleTurns(k, loop);
    EndTurns(k, t.text, t.ending);
    AroundTurns([UserAppend(turn, t.text)], middle, [EndAppend(turn, t.ending)], k);
  }

  lemma {:induction false} SessionTurns(runId: string, artifacts: Artifacts, sessionId: string, turns: seq<TurnInput>)
    ensures TurnsUpTo(Map(ItemOf, AfterTurns(runId, artifacts, sessionId, FRESH, 1, turns).log.rows), |turns|)
  {
    if |turns| > 0 {
      var n := |turns| - 1;
      var before := AfterTurns(runId, artifacts, sessionId, FRESH, 1, turns[..n]);
      SessionTurns(runId, artifacts, sessionId, turns[..n]);
      LogItems(runId, artifacts, sessionId, before.log, n + 1, turns[n]);
      ItemsTurns(n + 1, turns[n]);
      TurnsConcat(Map(ItemOf, before.log.rows), ItemsOfTurn(n + 1, turns[n]), n + 1);
    }
  }

  /** The conversation a resume gives the process, from the rows its projection names. */
  function Resumed(log: Log, indexes: seq<int>): seq<Message>
    requires Within(|log.rows|, indexes)
  {
    H.Restored(Map(ItemOf, log.rows), indexes)
  }

  lemma {:induction false} MaxTurnAtMost(ms: seq<Message>, hi: nat)
    requires forall i | 0 <= i < |ms| :: TurnOf(ms[i].turnId) <= hi && TurnOf(ms[i].modelCallId) <= hi
    ensures MaxTurn(ms) <= hi
  {
    if |ms| > 0 {
      MaxTurnAtMost(ms[..|ms| - 1], hi);
    }
  }

  /** The turn number a process resumed from the log's projection will use next. */
  function NextTurn(runId: string, log: Log): nat
    requires Within(|log.rows|, Expansion(runId, log))
  {
    MaxTurn(Resumed(log, Expansion(runId, log))) + 1
  }

  lemma {:induction false} UserIdUsed(sessionId: string, turns: seq<TurnInput>, j: nat)
    requires 1 <= j <= |turns|
    ensures TurnId(j) + ":user" in GroupIds(SessionGroups(sessionId, 1, turns))
  {
    var n := |turns| - 1;
    var own := GroupsOfTurn(sessionId, n + 1, turns[n]);
    GroupIdsConcat(SessionGroups(sessionId, 1, turns[..n]), own);
    if j == n + 1 {
      assert GroupIds(own)[0] == GroupId(own[0]) == TurnId(j) + ":user";
      assert GroupIds(own)[0] in GroupIds(own);
    } else {
      UserIdUsed(sessionId, turns[..n], j);
    }
  }

  lemma OneMoreGroup(artifacts: Artifacts, groups: seq<Group>, g: Group)
    ensures RowsOf(artifacts, groups + [g])
            == RowsOf(artifacts, groups) + MakeRows(g.sessionId, artifacts, g.messages, |RowsOf(artifacts, groups)|)
  {
    BlocksSnoc(artifacts, groups + [g]);
    assert (groups + [g])[..|groups|] == groups;
    FlatSnoc(BlocksOf(artifacts, groups), MakeRows(g.sessionId, artifacts, g.messages, |RowsOf(artifacts, groups)|));
  }

  // ---------------------------------------------------------------- a log poisoned for good

  /** The groups of a log go on as its later operations append. */
  lemma {:induction false} RowsOfRunFrom(runId: string, artifacts: Artifacts, log: Log, groups: seq<Group>,
                                         ops: seq<Op>)
    requires log.rows == RowsOf(artifacts, groups) && AllAccepted(artifacts, groups)
    ensures Run(runId, artifacts, log, ops).rows == RowsOf(artifacts, groups + GroupsOf(artifacts, ops))
    ensures AllAccepted(artifacts, groups + GroupsOf(artifacts, ops))
  {
    if |ops| == 0 {
      assert groups + GroupsOf(artifacts, ops) == groups;
    } else {
      var n := |ops| - 1;
      RowsOfRunFrom(runId, artifacts, log, groups, ops[..n]);
      RowsOfStep(runId, artifacts, Run(runId, artifacts, log, ops[..n]), ops[n],
                 groups + GroupsOf(artifacts, ops[..n]));
      ConcatAssoc(groups, GroupsOf(artifacts, ops[..n]), NewGroups(artifacts, ops[n]));
    }
  }

  /** Once a log holds two groups of one id, no later state of it has a terminal checkpoint. */
  lemma PoisonedForGood(runId: string, artifacts: Artifacts, log: Log, groups: seq<Group>, i: nat, j: nat,
                        ops: seq<Op>, reason: string)
    requires ValidLog(runId, artifacts, log) && log.rows == RowsOf(artifacts, groups) && AllAccepted(artifacts, groups)
    requires i < j < |groups| && GroupId(groups[i]) == GroupId(groups[j])
    ensures BuildManifest(runId, artifacts, Run(runId, artifacts, log, ops), reason).Err?
  {
    var later, all := Run(runId, artifacts, log, ops), groups + GroupsOf(artifacts, ops);
    RunKeepsLog(runId, artifacts, log, ops);
    RowsOfRunFrom(runId, artifacts, log, groups, ops);
    assert all[i] == groups[i] && all[j] == groups[j];
    BlocksAccepted(artifacts, all);
    FlatPrefix(GroupOk, BlocksOf(artifacts, all), GroupIds(all), j);
    RepeatedIdPoisonsLog(runId, artifacts, all, i, j, |later.rows|);
    WhenManifestBuilds(runId, artifacts, later, reason);
  }

  // ---------------------------------------------------------------- when the next number is unused

  predicate Names(item: Append, n: nat) {
    TurnOf(item.turnId) == n || TurnOf(item.modelCallId) == n
  }

  /** One of the rows at the indexes has the turn's number in its turn id or its model call id. */
  ghost predicate NamesTurn(rows: seq<Row>, indexes: seq<int>, n: nat)
    requires Within(|rows|, indexes)
  {
    exists i | 0 <= i < |indexes| :: Names(rows[indexes[i] - 1].item, n)
  }

  /** The user groups of turns 1, ..., m have been written. */
  ghost predicate UsersUsed(ids: seq<string>, m: nat) {
    forall j: nat | 1 <= j <= m :: TurnId(j) + ":user" in ids
  }

  /** Rows and group ids of turns 1, ..., m. */
  ghost predicate NumberedTo(items: seq<Append>, ids: seq<string>, m: nat) {
    TurnsUpTo(items, m) && InScopes(ids, 1, m + 1) && UsersUsed(ids, m)
  }

  ghost predicate Unused(ids: seq<string>, n: nat) {
    forall i | 0 <= i < |ids| :: !InTurnScope(TurnId(n), ids[i])
  }

  lemma {:induction false} MaxTurnReached(ms: seq<Message>) returns (i: nat)
    requires MaxTurn(ms) > 0
    ensures i < |ms| && (TurnOf(ms[i].turnId) == MaxTurn(ms) || TurnOf(ms[i].modelCallId) == MaxTurn(ms))
  {
    var n := |ms| - 1;
    if MaxTurn(ms) == MaxTurn(ms[..n]) {
      i := MaxTurnReached(ms[..n]);
    } else {
      i := n;
    }
  }

  /** The resumed counter stands at m exactly when a restored row names m. */
  lemma CounterIff(log: Log, indexes: seq<int>, m: nat)
    requires Within(|log.rows|, indexes) && TurnsUpTo(Map(ItemOf, log.rows), m)
    ensures MaxTurn(Resumed(log, indexes)) <= m
    ensures MaxTurn(Resumed(log, indexes)) == m <==> m == 0 || NamesTurn(log.rows, indexes, m)
  {
    var ms := Resumed(log, indexes);
    assert forall i | 0 <= i < |indexes| :: Map(ItemOf, log.rows)[indexes[i] - 1] == log.rows[indexes[i] - 1].item;
    MaxTurnAtMost(ms, m);
    MaxTurnBounds(ms);
    if MaxTurn(ms) == m && m > 0 {
      var i := MaxTurnReached(ms);
      assert Names(log.rows[indexes[i] - 1].item, m);
    }
    forall i | 0 <= i < |indexes| && Names(log.rows[indexes[i] - 1].item, m) ensures MaxTurn(ms) >= m {
      assert ms[i] in ms;
    }
  }

  /** No id in the scopes of turns before n is in that of turn n. */
  lemma BeyondUnused(ids: seq<string>, n: nat)
    requires InScopes(ids, 1, n)
    ensures Unused(ids, n) && TurnId(n) + ":user" !in ids
  {
    forall i | 0 <= i < |ids| ensures !InTurnScope(TurnId(n), ids[i]) {
      if InTurnScope(TurnId(n), ids[i]) {
        ScopeReadsBack(n, ids[i]);
        assert HasScope(ids[i], 1, n);
        var j: nat :| 1 <= j < n && ScopedBy(ids[i], j);
        TurnIdInjective(j, n);
      }
    }
    UserScope(TurnId(n), "");
  }

  lemma UsedScope(ids: seq<string>, n: nat)
    requires TurnId(n) + ":user" in ids
    ensures !Unused(ids, n)
  {
    var i :| 0 <= i < |ids| && ids[i] == TurnId(n) + ":user";
    UserScope(TurnId(n), "");
  }

  /** Of the numbers up to m + 1 only the last is then unused. */
  lemma EarlierUsed(ids: seq<string>, m: nat, n: nat)
    requires UsersUsed(ids, m) && 1 <= n <= m
    ensures TurnId(n) + ":user" in ids && !Unused(ids, n)
  {
    UsedScope(ids, n);
  }

  lemma OnlyNextUnused(ids: seq<string>, m: nat, n: nat)
    requires InScopes(ids, 1, m + 1) && UsersUsed(ids, m) && 1 <= n <= m + 1
    ensures TurnId(n) + ":user" !in ids <==> n == m + 1
    ensures Unused(ids, n) <==> n == m + 1
  {
    if n == m + 1 {
      BeyondUnused(ids, n);
    } else {
      EarlierUsed(ids, m, n);
    }
  }

  /**
   * The process resumed from a log of turns 1, ..., m gives its next turn an unused number exactly when some row that
   * the projection names carries m: then none of the turn's ids is in use, otherwise the id of its user group is.
   */
  lemma NextTurnFreshIff(runId: string, log: Log, ids: seq<string>, m: nat)
    requires Within(|log.rows|, Expansion(runId, log)) && NumberedTo(Map(ItemOf, log.rows), ids, m)
    ensures var n, unused := NextTurn(runId, log), m == 0 || NamesTurn(log.rows, Expansion(runId, log), m);
            && (TurnId(n) + ":user" !in ids <==> unused)
            && (Unused(ids, n) <==> unused)
            && 1 <= n <= m + 1 && (n == m + 1 <==> unused)
  {
    CounterIff(log, Expansion(runId, log), m);
    OnlyNextUnused(ids, m, NextTurn(runId, log));
  }

  /** A sound log whose groups are those of turns 1, ..., m. */
  ghost predicate LogOfTurnsTo(runId: string, artifacts: Artifacts, log: Log, groups: seq<Group>, m: nat) {
    && ValidLog(runId, artifacts, log) && log.rows == RowsOf(artifacts, groups)
    && AllGood(artifacts, groups) && NoRepeats(GroupIds(groups))
       && NumberedTo(Map(ItemOf, log.rows), GroupIds(groups), m)
  }

  /** A log of turns 1, ..., m whose projection names every row, one of which carries m. */
  ghost predicate Complete(runId: string, artifacts: Artifacts, log: Log, groups: seq<Group>, m: nat) {
    && LogOfTurnsTo(runId, artifacts, log, groups, m) && Covering(runId, log)
       && Within(|log.rows|, Expansion(runId, log))
    && (m == 0 || NamesTurn(log.rows, Expansion(runId, log), m))
  }

  lemma FreshIdChecks(runId: string, artifacts: Artifacts, log: Log, groups: seq<Group>, g: Group, reason: string)
    requires ValidLog(runId, artifacts, log) && log.rows == RowsOf(artifacts, groups)
    requires AllGood(artifacts, groups) && NoRepeats(GroupIds(groups)) && Good(artifacts, g)
             && GroupId(g) !in GroupIds(groups)
    ensures BuildManifest(runId, artifacts, Appended(runId, artifacts, log, g.sessionId, g.messages), reason).Ok?
  {
    var after := Appended(runId, artifacts, log, g.sessionId, g.messages);
    AppendKeepsLog(runId, artifacts, log, g.sessionId, g.messages);
    OneMoreGroup(artifacts, groups, g);
    GoodConcat(artifacts, groups, [g]);
    GroupIdsConcat(groups, [g]);
    assert GroupIds([g]) == [GroupId(g)];
    NoRepeatsConcat(GroupIds(groups), GroupIds([g]));
    WholeLogAccepted(runId, artifacts, groups + [g]);
    WhenManifestBuilds(runId, artifacts, after, reason);
  }

  lemma UsedIdPoisons(runId: string, artifacts: Artifacts, log: Log, groups: seq<Group>, g: Group, ops: seq<Op>,
                      reason: string)
    requires ValidLog(runId, artifacts, log) && log.rows == RowsOf(artifacts, groups)
    requires AllGood(artifacts, groups) && Good(artifacts, g) && GroupId(g) in GroupIds(groups)
    ensures var after := Appended(runId, artifacts, log, g.sessionId, g.messages);
            BuildManifest(runId, artifacts, Run(runId, artifacts, after, ops), reason).Err?
  {
    AppendKeepsLog(runId, artifacts, log, g.sessionId, g.messages);
    OneMoreGroup(artifacts, groups, g);
    GoodConcat(artifacts, groups, [g]);
    GoodMeans(artifacts, groups + [g]);
    var i :| 0 <= i < |groups| && GroupIds(groups)[i] == GroupId(g);
    assert (groups + [g])[i] == groups[i] && (groups + [g])[|groups|] == g;
    PoisonedForGood(runId, artifacts, Appended(runId, artifacts, log, g.sessionId, g.messages), groups + [g], i,
                    |groups|, ops, reason);
  }

  /**
   * Once the resumed process has written the user row of its next turn: under the same condition a terminal checkpoint
   * can be built again; and if the condition fails none can be, whatever the run does from there on.
   */
  lemma ResumedCheckpointIff(runId: string, artifacts: Artifacts, log: Log, groups: seq<Group>, m: nat,
                             sessionId: string, text: string, ops: seq<Op>, reason: string)
    requires LogOfTurnsTo(runId, artifacts, log, groups, m)
    ensures Within(|log.rows|, Expansion(runId, log))
    ensures var unused := m == 0 || NamesTurn(log.rows, Expansion(runId, log), m);
            var resumed := Appended(runId, artifacts, log, sessionId,
                                    UserGroup(sessionId, NextTurn(runId, log), text).messages);
            && (BuildManifest(runId, artifacts, resumed, reason).Ok? <==> unused)
            && (!unused ==> BuildManifest(runId, artifacts, Run(runId, artifacts, resumed, ops), reason).Err?)
  {
    NextTurnFreshIff(runId, log, GroupIds(groups), m);
    var g := UserGroup(sessionId, NextTurn(runId, log), text);
    UserPrepares(artifacts, sessionId, NextTurn(runId, log), text);
    if GroupId(g) in GroupIds(groups) {
      UsedIdPoisons(runId, artifacts, log, groups, g, ops, reason);
      UsedIdPoisons(runId, artifacts, log, groups, g, [], reason);
    } else {
      FreshIdChecks(runId, artifacts, log, groups, g, reason);
    }
  }
}
