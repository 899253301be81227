/**
 * Sessions that end, are checkpointed and resumed, any number of times (runtime/orchestrator.py, runtime/recovery.py).
 * Each resumed process holds the messages of the rows its projection names and counts turns on from the highest they
 * name. As long as its turns are ordinary ones the log it leaves is that of a process that never ended.
 */
module ResumedSessions {
  import opened Wrappers
  import opened Seqs
  import opened ConversationLog
  import opened ConversationLaws
  import opened RecoveryConversation
  import opened ReplConversation
  import opened ReplAlignment
  import opened SessionRecovery
  import opened ReplMirror
  import opened TurnNumbers
  import opened TurnReuse

  // ---------------------------------------------------------------- a resumed process

  /** The process resumed from a log whose projection resolves: the restored messages and their indexes. */
  function Woken(runId: string, log: Log): Repl
    requires Within(|log.rows|, Expansion(runId, log))
  {
    Repl(Synced(Resumed(log, Expansion(runId, log)), Expansion(runId, log)), log)
  }

  lemma WokenSound(runId: string, artifacts: Artifacts, log: Log)
    requires ValidLog(runId, artifacts, log) && Covering(runId, log) && Within(|log.rows|, Expansion(runId, log))
    ensures Sound(runId, artifacts, Woken(runId, log))
  {
    var ms := Resumed(log, Expansion(runId, log));
    Resynced(runId, ms, log);
    SyncedOrder(ms, Expansion(runId, log));
  }

  // ---------------------------------------------------------------- one turn

  lemma TurnIdsAdd(sessionId: string, groups: seq<Group>, m: nat, t: TurnInput)
    requires NoRepeats(GroupIds(groups)) && InScopes(GroupIds(groups), 1, m + 1) && UsersUsed(GroupIds(groups), m)
    ensures var ids := GroupIds(groups + GroupsOfTurn(sessionId, m + 1, t));
            NoRepeats(ids) && InScopes(ids, 1, m + 2) && UsersUsed(ids, m + 1)
  {
    var own := GroupsOfTurn(sessionId, m + 1, t);
    TurnGroupIds(sessionId, TurnId(m + 1), t.text, LoopOf(TurnId(m + 1), t.rounds, t.ending), t.ending);
    ScopesSnoc(GroupIds(groups), GroupIds(own), 1, m + 1);
    GroupIdsConcat(groups, own);
    FirstIsUser(sessionId, m + 1, t);
  }

  lemma FirstIsUser(sessionId: string, k: nat, t: TurnInput)
    ensures TurnId(k) + ":user" in GroupIds(GroupsOfTurn(sessionId, k, t))
  {
    var own := GroupsOfTurn(sessionId, k, t);
    assert GroupIds(own)[0] == GroupId(own[0]) == TurnId(k) + ":user";
  }

  lemma TurnGroupsGood(artifacts: Artifacts, sessionId: string, k: nat, t: TurnInput)
    requires InputOk(t)
    ensures AllGood(artifacts, GroupsOfTurn(sessionId, k, t))
  {
    TurnAccepted(artifacts, sessionId, TurnId(k), t.text, t.rounds, t.ending);
    TurnPairs(sessionId, TurnId(k), t.text, t.rounds, t.ending);
    GoodMeans(artifacts, GroupsOfTurn(sessionId, k, t));
  }

  lemma TurnRowsAdd(runId: string, artifacts: Artifacts, sessionId: string, log: Log, groups: seq<Group>, k: nat,
                    t: TurnInput)
    requires log.rows == RowsOf(artifacts, groups)
    ensures LogAfter(runId, artifacts, sessionId, log, k, t).rows
            == RowsOf(artifacts, groups + GroupsOfTurn(sessionId, k, t))
  {
    AppendAllRows(runId, artifacts, log, GroupsOfTurn(sessionId, k, t));
    RowsAfterGroups(artifacts, groups, GroupsOfTurn(sessionId, k, t));
  }

  lemma TurnItemsAdd(runId: string, artifacts: Artifacts, sessionId: string, log: Log, m: nat, t: TurnInput)
    requires TurnsUpTo(Map(ItemOf, log.rows), m)
    ensures TurnsUpTo(Map(ItemOf, LogAfter(runId, artifacts, sessionId, log, m + 1, t).rows), m + 1)
  {
    LogItems(runId, artifacts, sessionId, log, m + 1, t);
    ItemsTurns(m + 1, t);
    TurnsConcat(Map(ItemOf, log.rows), ItemsOfTurn(m + 1, t), m + 1);
  }

  lemma TurnNamed(runId: string, artifacts: Artifacts, sessionId: string, log: Log, k: nat, t: TurnInput, after: Log)
    requires after == LogAfter(runId, artifacts, sessionId, log, k, t)
    requires Covering(runId, after) && Within(|after.rows|, Expansion(runId, after))
    ensures NamesTurn(after.rows, Expansion(runId, after), k)
  {
    LogItems(runId, artifacts, sessionId, log, k, t);
    NewItems(log.rows, after.rows, ItemsOfTurn(k, t));
    assert ItemsOfTurn(k, t)[0] == UserAppend(TurnId(k), t.text);
    TurnIdNamesTurn(k);
    CoveringNames(runId, after, |log.rows|, k);
  }

  lemma TurnNumbered(runId: string, artifacts: Artifacts, sessionId: string, log: Log, groups: seq<Group>, m: nat,
                     t: TurnInput, after: Log)
    requires LogOfTurnsTo(runId, artifacts, log, groups, m) && InputOk(t)
    requires after == LogAfter(runId, artifacts, sessionId, log, m + 1, t) && ValidLog(runId, artifacts, after)
    ensures LogOfTurnsTo(runId, artifacts, after, groups + GroupsOfTurn(sessionId, m + 1, t), m + 1)
  {
    TurnIdsAdd(sessionId, groups, m, t);
    TurnGroupsGood(artifacts, sessionId, m + 1, t);
    GoodConcat(artifacts, groups, GroupsOfTurn(sessionId, m + 1, t));
    TurnRowsAdd(runId, artifacts, sessionId, log, groups, m + 1, t);
    TurnItemsAdd(runId, artifacts, sessionId, log, m, t);
  }

  lemma TurnCompletes(runId: string, artifacts: Artifacts, sessionId: string, log: Log, groups: seq<Group>, m: nat,
                      k: nat, t: TurnInput, after: Log)
    requires Complete(runId, artifacts, log, groups, m) && InputOk(t) && k == m + 1
    requires after == LogAfter(runId, artifacts, sessionId, log, k, t)
    ensures Complete(runId, artifacts, after, groups + GroupsOfTurn(sessionId, k, t), k)
  {
    LogGrows(runId, artifacts, sessionId, log, m + 1, t);
    TurnNumbered(runId, artifacts, sessionId, log, groups, m, t, after);
    TurnNamed(runId, artifacts, sessionId, log, m + 1, t, after);
  }

  // ---------------------------------------------------------------- one life

  /** A process and the log it writes, about to begin turn k. */
  ghost predicate Ready(runId: string, artifacts: Artifacts, s: Repl, groups: seq<Group>, k: nat) {
    k > 0 && Sound(runId, artifacts, s) && Complete(runId, artifacts, s.log, groups, k - 1)
  }

  lemma TurnLogIs(runId: string, artifacts: Artifacts, sessionId: string, s: Repl, k: nat, t: TurnInput)
    ensures AfterTurn(runId, artifacts, sessionId, s, k, t).log == LogAfter(runId, artifacts, sessionId, s.log, k, t)
  {
  }

  lemma TurnRuns(runId: string, artifacts: Artifacts, sessionId: string, s: Repl, groups: seq<Group>, k: nat,
                 t: TurnInput, next: Repl, all: seq<Group>, j: nat)
    requires Ready(runId, artifacts, s, groups, k) && InputOk(t) && j == k + 1
    requires next == AfterTurn(runId, artifacts, sessionId, s, k, t) && all == groups + GroupsOfTurn(sessionId, k, t)
    ensures Ready(runId, artifacts, next, all, j)
  {
    TurnSound(runId, artifacts, sessionId, s, k, t);
    TurnLogIs(runId, artifacts, sessionId, s, k, t);
    var m, after := k - 1, next.log;
    TurnCompletes(runId, artifacts, sessionId, s.log, groups, m, k, t, after);
  }

  lemma LastPlainTurn(runId: string, artifacts: Artifacts, sessionId: string, s: Repl, k: nat, turns: seq<TurnInput>)
    requires |turns| > 0
    ensures var n := |turns| - 1;
            AfterTurns(runId, artifacts, sessionId, s, k, turns)
            == AfterTurn(runId, artifacts, sessionId, AfterTurns(runId, artifacts, sessionId, s, k, turns[..n]), k + n,
                         turns[n])
  {
  }

  lemma LastGroups(sessionId: string, groups: seq<Group>, k: nat, turns: seq<TurnInput>)
    requires |turns| > 0
    ensures var n := |turns| - 1;
            groups + SessionGroups(sessionId, k, turns)
            == groups + SessionGroups(sessionId, k, turns[..n]) + GroupsOfTurn(sessionId, k + n, turns[n])
  {
    var n := |turns| - 1;
    ConcatAssoc(groups, SessionGroups(sessionId, k, turns[..n]), GroupsOfTurn(sessionId, k + n, turns[n]));
  }

  lemma OneMoreTurn(runId: string, artifacts: Artifacts, sessionId: string, s: Repl, groups: seq<Group>, k: nat,
                    turns: seq<TurnInput>, before: Repl, earlier: seq<Group>, i: nat, end: Repl, all: seq<Group>,
                    j: nat)
    requires |turns| > 0 && InputOk(turns[|turns| - 1]) && i == k + |turns| - 1 && j == i + 1
             && Ready(runId, artifacts, before, earlier, i)
    requires before == AfterTurns(runId, artifacts, sessionId, s, k, turns[..|turns| - 1])
    requires earlier == groups + SessionGroups(sessionId, k, turns[..|turns| - 1])
    requires end == AfterTurns(runId, artifacts, sessionId, s, k, turns)
             && all == groups + SessionGroups(sessionId, k, turns)
    ensures Ready(runId, artifacts, end, all, j)
  {
    assert k + (|turns| - 1) == i;
    LastPlainTurn(runId, artifacts, sessionId, s, k, turns);
    LastGroups(sessionId, groups, k, turns);
    TurnRuns(runId, artifacts, sessionId, before, earlier, i, turns[|turns| - 1], end, all, j);
  }

  /** The state, the groups and the next number after some turns. */
  ghost predicate ReadyAfter(runId: string, artifacts: Artifacts, sessionId: string, s: Repl, groups: seq<Group>,
                             k: nat, turns: seq<TurnInput>, end: Repl, all: seq<Group>, j: nat) {
    && end == AfterTurns(runId, artifacts, sessionId, s, k, turns) && all == groups + SessionGroups(sessionId, k, turns)
    && j == k + |turns| && Ready(runId, artifacts, end, all, j)
  }

  lemma ReadyThen(runId: string, artifacts: Artifacts, sessionId: string, s: Repl, groups: seq<Group>, k: nat,
                  turns: seq<TurnInput>, before: Repl, earlier: seq<Group>, i: nat)
      returns (end: Repl, all: seq<Group>, j: nat)
    requires |turns| > 0 && InputOk(turns[|turns| - 1])
    requires ReadyAfter(runId, artifacts, sessionId, s, groups, k, turns[..|turns| - 1], before, earlier, i)
    ensures ReadyAfter(runId, artifacts, sessionId, s, groups, k, turns, end, all, j)
  {
    end, all, j := AfterTurns(runId, artifacts, sessionId, s, k, turns), groups + SessionGroups(sessionId, k, turns),
    i + 1;
    OneMoreTurn(runId, artifacts, sessionId, s, groups, k, turns, before, earlier, i, end, all, j);
  }

  lemma ReadyFirst(runId: string, artifacts: Artifacts, sessionId: string, s: Repl, groups: seq<Group>, k: nat)
    requires Ready(runId, artifacts, s, groups, k)
    ensures ReadyAfter(runId, artifacts, sessionId, s, groups, k, [], s, groups, k)
  {
    assert groups + SessionGroups(sessionId, k, []) == groups;
  }

  lemma {:induction false} LifeRuns(runId: string, artifacts: Artifacts, sessionId: string, s: Repl,
                                    groups: seq<Group>, k: nat, turns: seq<TurnInput>)
      returns (end: Repl, all: seq<Group>, j: nat)
    requires Ready(runId, artifacts, s, groups, k) && InputsOk(turns)
    ensures ReadyAfter(runId, artifacts, sessionId, s, groups, k, turns, end, all, j)
  {
    if turns == [] {
      end, all, j := s, groups, k;
      ReadyFirst(runId, artifacts, sessionId, s, groups, k);
    } else {
      var before, earlier, i := LifeRuns(runId, artifacts, sessionId, s, groups, k, turns[..|turns| - 1]);
      assert InputOk(turns[|turns| - 1]);
      end, all, j := ReadyThen(runId, artifacts, sessionId, s, groups, k, turns, before, earlier, i);
    }
  }

  // ---------------------------------------------------------------- many lives

  ghost predicate LivesOk(lives: seq<seq<TurnInput>>) {
    forall i | 0 <= i < |lives| :: InputsOk(lives[i])
  }

  /** All turns in order. */
  function Flat(lives: seq<seq<TurnInput>>): seq<TurnInput> {
    if |lives| == 0 then [] else Flat(lives[..|lives| - 1]) + lives[|lives| - 1]
  }

  /** The process resumed from the log, or, if the projection does not resolve, none but the log. */
  ghost function Wake(runId: string, log: Log): Repl {
    if Within(|log.rows|, Expansion(runId, log)) then Woken(runId, log) else Repl([], log)
  }

  ghost function Counter(runId: string, log: Log): nat {
    if Within(|log.rows|, Expansion(runId, log)) then NextTurn(runId, log) else 1
  }

  /** A life: a resume from the log that the process before left, then turns. */
  ghost predicate Lives(runId: string, artifacts: Artifacts, sessionId: string, before: Repl, turns: seq<TurnInput>,
                        end: Repl) {
    end == AfterTurns(runId, artifacts, sessionId, Wake(runId, before.log), Counter(runId, before.log), turns)
  }

  ghost predicate LinkAt(life: (Repl, seq<TurnInput>, Repl) -> bool, lives: seq<seq<TurnInput>>, states: seq<Repl>,
                         i: nat) {
    i < |lives| && i + 1 < |states| && life(states[i], lives[i], states[i + 1])
  }

  /** The states in which lives end; the first is what a resume from the log finds. */
  ghost predicate IsHistory(runId: string, artifacts: Artifacts, sessionId: string, log: Log,
                            lives: seq<seq<TurnInput>>, states: seq<Repl>) {
    var life := (s, turns, end) => Lives(runId, artifacts, sessionId, s, turns, end);
    && |states| == |lives| + 1 && states[0] == Wake(runId, log)
    && forall i: nat | i < |lives| :: LinkAt(life, lives, states, i)
  }

  lemma {:induction false} LifeByLife(life: (Repl, seq<TurnInput>, Repl) -> bool,
                                      reached: (Repl, seq<TurnInput>) -> bool, lives: seq<seq<TurnInput>>,
                                      states: seq<Repl>, i: nat)
    requires |states| == |lives| + 1 && LivesOk(lives) && i <= |lives| && reached(states[0], [])
    requires forall j: nat | j < |lives| :: LinkAt(life, lives, states, j)
    requires forall s, earlier, last, end | reached(s, earlier) && life(s, last, end) && InputsOk(last) ::
             reached(end, earlier + last)
    ensures reached(states[i], Flat(lives[..i]))
  {
    if i > 0 {
      LifeByLife(life, reached, lives, states, i - 1);
      assert LinkAt(life, lives, states, i - 1) && InputsOk(lives[i - 1]);
      assert lives[..i][..i - 1] == lives[..i - 1];
    }
  }

  /** A resume goes on from the state and the number at which the log stands. */
  lemma WakesAt(runId: string, artifacts: Artifacts, log: Log, groups: seq<Group>, k: nat)
    requires k > 0 && Complete(runId, artifacts, log, groups, k - 1)
    ensures Wake(runId, log).log == log && Ready(runId, artifacts, Wake(runId, log), groups, k)
            && Counter(runId, log) == k
  {
    WokenSound(runId, artifacts, log);
    NamedIsNext(runId, log, GroupIds(groups), k - 1);
  }

  lemma {:induction false} GroupsConcat(sessionId: string, k: nat, a: seq<TurnInput>, b: seq<TurnInput>)
    ensures SessionGroups(sessionId, k, a + b) == SessionGroups(sessionId, k, a) + SessionGroups(sessionId, k + |a|, b)
  {
    if |b| == 0 {
      assert a + b == a;
    } else {
      var n := |b| - 1;
      assert (a + b)[..|a + b| - 1] == a + b[..n];
      GroupsConcat(sessionId, k, a, b[..n]);
      ConcatAssoc(SessionGroups(sessionId, k, a), SessionGroups(sessionId, k + |a|, b[..n]),
                  GroupsOfTurn(sessionId, k + |a| + n, b[n]));
    }
  }

  lemma LastBatch(sessionId: string, k: nat, turns: seq<TurnInput>, i: nat)
    requires |turns| > 0 && i == k + |turns| - 1
    ensures Batches(sessionId, k, turns)
            == Batches(sessionId, k, turns[..|turns| - 1]) + [GroupsOfTurn(sessionId, i, turns[|turns| - 1])]
  {
  }

  lemma {:induction false} BatchesConcat(sessionId: string, k: nat, a: seq<TurnInput>, j: nat, b: seq<TurnInput>,
                                         whole: seq<TurnInput>)
    requires j == k + |a| && whole == a + b
    ensures Batches(sessionId, k, whole) == Batches(sessionId, k, a) + Batches(sessionId, j, b)
    decreases |b|
  {
    if |b| == 0 {
      assert whole == a;
    } else {
      var n, w, i := |b| - 1, |whole| - 1, j + |b| - 1;
      assert whole[..w] == a + b[..n];
      BatchesConcat(sessionId, k, a, j, b[..n], whole[..w]);
      LastBatch(sessionId, k, whole, i);
      LastBatch(sessionId, j, b, i);
      ConcatAssoc(Batches(sessionId, k, a), Batches(sessionId, j, b[..n]), [GroupsOfTurn(sessionId, i, b[n])]);
    }
  }

  lemma {:induction false} AppendBatchesConcat(runId: string, artifacts: Artifacts, log: Log, a: seq<seq<Group>>,
                                               b: seq<seq<Group>>)
    ensures AppendBatches(runId, artifacts, log, a + b)
            == AppendBatches(runId, artifacts, AppendBatches(runId, artifacts, log, a), b)
  {
    if |b| == 0 {
      assert a + b == a;
    } else {
      assert (a + b)[..|a + b| - 1] == a + b[..|b| - 1];
      AppendBatchesConcat(runId, artifacts, log, a, b[..|b| - 1]);
    }
  }

  /** The log one process would leave. */
  function OneLog(runId: string, artifacts: Artifacts, sessionId: string, log: Log, k: nat,
                  turns: seq<TurnInput>): Log {
    AppendBatches(runId, artifacts, log, Batches(sessionId, k, turns))
  }

  lemma LogsJoin(runId: string, artifacts: Artifacts, sessionId: string, log: Log, k: nat, a: seq<TurnInput>, j: nat,
                 b: seq<TurnInput>)
    requires j == k + |a|
    ensures OneLog(runId, artifacts, sessionId, OneLog(runId, artifacts, sessionId, log, k, a), j, b)
            == OneLog(runId, artifacts, sessionId, log, k, a + b)
  {
    BatchesConcat(sessionId, k, a, j, b, a + b);
    AppendBatchesConcat(runId, artifacts, log, Batches(sessionId, k, a), Batches(sessionId, j, b));
  }

  /** After some lives with all their turns: the groups written, and the number of the next turn. */
  ghost predicate Reached(runId: string, artifacts: Artifacts, sessionId: string, log: Log, groups: seq<Group>, k: nat,
                          s: Repl, turns: seq<TurnInput>, all: seq<Group>, j: nat) {
    && Ready(runId, artifacts, s, all, j) && all == groups + SessionGroups(sessionId, k, turns) && j == k + |turns|
    && s.log == OneLog(runId, artifacts, sessionId, log, k, turns)
  }

  lemma EndLog(runId: string, artifacts: Artifacts, sessionId: string, s: Repl, j: nat, turns: seq<TurnInput>,
               end: Repl)
    requires end == AfterTurns(runId, artifacts, sessionId, s, j, turns)
    ensures end.log == OneLog(runId, artifacts, sessionId, s.log, j, turns)
  {
    LogOfTurns(runId, artifacts, sessionId, s, j, turns);
  }

  lemma NextLog(runId: string, artifacts: Artifacts, sessionId: string, log: Log, s: Repl, k: nat,
                earlier: seq<TurnInput>, j: nat, last: seq<TurnInput>, end: Repl)
    requires s.log == OneLog(runId, artifacts, sessionId, log, k, earlier) && j == k + |earlier|
    requires end == AfterTurns(runId, artifacts, sessionId, s, j, last)
    ensures end.log == OneLog(runId, artifacts, sessionId, log, k, earlier + last)
  {
    EndLog(runId, artifacts, sessionId, s, j, last, end);
    LogsJoin(runId, artifacts, sessionId, log, k, earlier, j, last);
  }

  lemma NextReady(runId: string, artifacts: Artifacts, sessionId: string, log: Log, all: seq<Group>, j: nat,
                  last: seq<TurnInput>, woken: Repl) returns (end: Repl, next: seq<Group>, i: nat)
    requires j > 0 && Complete(runId, artifacts, log, all, j - 1) && InputsOk(last) && woken == Wake(runId, log)
    ensures ReadyAfter(runId, artifacts, sessionId, woken, all, j, last, end, next, i)
  {
    WakesAt(runId, artifacts, log, all, j);
    end, next, i := LifeRuns(runId, artifacts, sessionId, woken, all, j, last);
  }

  lemma ReadyWakes(runId: string, artifacts: Artifacts, s: Repl, groups: seq<Group>, k: nat)
    requires Ready(runId, artifacts, s, groups, k)
    ensures Wake(runId, s.log).log == s.log && Counter(runId, s.log) == k
  {
    WakesAt(runId, artifacts, s.log, groups, k);
  }

  /** One more life. */
  lemma NextLife(runId: string, artifacts: Artifacts, sessionId: string, log: Log, groups: seq<Group>, k: nat, s: Repl,
                 earlier: seq<TurnInput>, all: seq<Group>, j: nat, last: seq<TurnInput>, end: Repl)
      returns (next: seq<Group>, i: nat)
    requires Reached(runId, artifacts, sessionId, log, groups, k, s, earlier, all, j) && InputsOk(last)
    requires Lives(runId, artifacts, sessionId, s, last, end)
    ensures Reached(runId, artifacts, sessionId, log, groups, k, end, earlier + last, next, i)
  {
    var woken, after := Wake(runId, s.log), end;
    ReadyWakes(runId, artifacts, s, all, j);
    after, next, i := NextReady(runId, artifacts, sessionId, s.log, all, j, last, woken);
    GroupsJoin(sessionId, groups, k, earlier, last);
    NextLog(runId, artifacts, sessionId, log, woken, k, earlier, j, last, end);
  }

  lemma GroupsJoin(sessionId: string, groups: seq<Group>, k: nat, earlier: seq<TurnInput>, last: seq<TurnInput>)
    ensures groups + SessionGroups(sessionId, k, earlier + last)
            == groups + SessionGroups(sessionId, k, earlier) + SessionGroups(sessionId, k + |earlier|, last)
  {
    GroupsConcat(sessionId, k, earlier, last);
    ConcatAssoc(groups, SessionGroups(sessionId, k, earlier), SessionGroups(sessionId, k + |earlier|, last));
  }

  ghost predicate ReachedSome(runId: string, artifacts: Artifacts, sessionId: string, log: Log, groups: seq<Group>,
                              k: nat, s: Repl, turns: seq<TurnInput>) {
    exists all, j: nat :: Reached(runId, artifacts, sessionId, log, groups, k, s, turns, all, j)
  }

  lemma NextReached(runId: string, artifacts: Artifacts, sessionId: string, log: Log, groups: seq<Group>, k: nat,
                    s: Repl, earlier: seq<TurnInput>, last: seq<TurnInput>, end: Repl)
    requires ReachedSome(runId, artifacts, sessionId, log, groups, k, s, earlier) && InputsOk(last)
    requires Lives(runId, artifacts, sessionId, s, last, end)
    ensures ReachedSome(runId, artifacts, sessionId, log, groups, k, end, earlier + last)
  {
    var all, j: nat :| Reached(runId, artifacts, sessionId, log, groups, k, s, earlier, all, j);
    var next, i := NextLife(runId, artifacts, sessionId, log, groups, k, s, earlier, all, j, last, end);
  }

  lemma FirstReached(runId: string, artifacts: Artifacts, sessionId: string, log: Log, groups: seq<Group>, k: nat)
    requires k > 0 && Complete(runId, artifacts, log, groups, k - 1)
    ensures ReachedSome(runId, artifacts, sessionId, log, groups, k, Wake(runId, log), [])
  {
    WakesAt(runId, artifacts, log, groups, k);
    assert groups + SessionGroups(sessionId, k, []) == groups;
    assert Reached(runId, artifacts, sessionId, log, groups, k, Wake(runId, log), [], groups, k);
  }

  lemma LivesReach(runId: string, artifacts: Artifacts, sessionId: string, log: Log, groups: seq<Group>, k: nat,
                   lives: seq<seq<TurnInput>>, states: seq<Repl>, i: nat)
    requires k > 0 && Complete(runId, artifacts, log, groups, k - 1) && LivesOk(lives) && i <= |lives|
    requires IsHistory(runId, artifacts, sessionId, log, lives, states)
    ensures ReachedSome(runId, artifacts, sessionId, log, groups, k, states[i], Flat(lives[..i]))
  {
    var life := (s, turns, end) => Lives(runId, artifacts, sessionId, s, turns, end);
    var reached := (s, turns) => ReachedSome(runId, artifacts, sessionId, log, groups, k, s, turns);
    FirstReached(runId, artifacts, sessionId, log, groups, k);
    forall s, earlier, last, end | reached(s, earlier) && life(s, last, end) && InputsOk(last)
      ensures reached(end, earlier + last)
    {
      NextReached(runId, artifacts, sessionId, log, groups, k, s, earlier, last, end);
    }
    LifeByLife(life, reached, lives, states, i);
  }

  /** What holds at the end of a life: numbering, ids, alignment and a checkpoint that the next resume can read. */
  ghost predicate EndsWell(runId: string, artifacts: Artifacts, end: Repl, groups: seq<Group>, k: nat, reason: string) {
    && Sound(runId, artifacts, end) && end.log.rows == RowsOf(artifacts, groups) && NoRepeats(GroupIds(groups))
    && Counter(runId, end.log) == k && (|groups| > 0 ==> Checkpointed(runId, artifacts, end.log, reason))
  }

  ghost predicate Checkpointed(runId: string, artifacts: Artifacts, log: Log, reason: string) {
    var manifest := BuildManifest(runId, artifacts, log, reason);
    && manifest.Ok? && ManifestVerdict(runId, artifacts, log, manifest.value) == None
    && Indexes(manifest.value.snapshot.refs) == Expansion(runId, log)
  }

  lemma ReadyEndsWell(runId: string, artifacts: Artifacts, s: Repl, groups: seq<Group>, k: nat, reason: string)
    requires Ready(runId, artifacts, s, groups, k)
    ensures EndsWell(runId, artifacts, s, groups, k, reason)
  {
    WakesAt(runId, artifacts, s.log, groups, k);
    if |groups| > 0 {
      EndChecks(runId, artifacts, s.log, groups, reason);
    }
  }

  /**
   * Any alternation of sessions and resumes, from any log whose projection names all rows. At the end of each life: the
   * log is what one process that never ended would have written; process and log are in step, so every alignment check
   * passes; no group id is used twice; the next turn gets the number after the last; and a terminal checkpoint can be
   * built, which the next resume reads.
   */
  lemma LivesAreOneSession(runId: string, artifacts: Artifacts, sessionId: string, log: Log, groups: seq<Group>, k: nat,
                           lives: seq<seq<TurnInput>>, states: seq<Repl>, i: nat, start: Repl, one: Repl,
                           reason: string)
    requires k > 0 && Complete(runId, artifacts, log, groups, k - 1) && LivesOk(lives) && i <= |lives|
    requires IsHistory(runId, artifacts, sessionId, log, lives, states)
    requires start.log == log && one == AfterTurns(runId, artifacts, sessionId, start, k, Flat(lives[..i]))
    ensures states[i].log == one.log
    ensures var turns := Flat(lives[..i]);
            EndsWell(runId, artifacts, states[i], groups + SessionGroups(sessionId, k, turns), k + |turns|, reason)
  {
    LivesReach(runId, artifacts, sessionId, log, groups, k, lives, states, i);
    ReachedEndsWell(runId, artifacts, sessionId, log, groups, k, states[i], Flat(lives[..i]), reason);
    EndLog(runId, artifacts, sessionId, start, k, Flat(lives[..i]), one);
  }

  lemma ReachedEndsWell(runId: string, artifacts: Artifacts, sessionId: string, log: Log, groups: seq<Group>, k: nat,
                        s: Repl, turns: seq<TurnInput>, reason: string)
    requires ReachedSome(runId, artifacts, sessionId, log, groups, k, s, turns)
    ensures s.log == OneLog(runId, artifacts, sessionId, log, k, turns)
    ensures EndsWell(runId, artifacts, s, groups + SessionGroups(sessionId, k, turns), k + |turns|, reason)
  {
    var all, j: nat :| Reached(runId, artifacts, sessionId, log, groups, k, s, turns, all, j);
    ReadyEndsWell(runId, artifacts, s, all, j, reason);
  }

  lemma EndChecks(runId: string, artifacts: Artifacts, log: Log, groups: seq<Group>, reason: string)
    requires ValidLog(runId, artifacts, log) && log.rows == RowsOf(artifacts, groups) && |groups| > 0
    requires AllGood(artifacts, groups) && NoRepeats(GroupIds(groups))
    ensures Checkpointed(runId, artifacts, log, reason)
  {
    WholeLogAccepted(runId, artifacts, groups);
    WhenManifestBuilds(runId, artifacts, log, reason);
    CheckpointStaysValid(runId, artifacts, log, reason, []);
  }

  /** The first process starts from the empty log. */
  lemma EmptyIsComplete(runId: string, artifacts: Artifacts)
    ensures Complete(runId, artifacts, EMPTY, [], 0) && Wake(runId, EMPTY) == FRESH
  {
    EmptyValid(runId, artifacts);
    FreshIsSound(runId, artifacts);
  }
}
