/**
 * Which runs come to use a group id twice (runtime/prompt_executor.py, runtime/orchestrator.py). A turn that persists
 * an omission and ends without another durable row, because a later compression of the same turn fails, leaves a
 * projection that names no row of that turn: a process resumed from the next checkpoint counts turns from before it and
 * writes its ids again. Sessions whose turns all end, and a turn ended in the same way after a persisted compression,
 * resume with unused numbers.
 */
module TurnReuse {
  import opened Wrappers
  import opened Seqs
  import opened ModelContext
  import opened ConversationLog
  import opened ConversationLaws
  import opened RecoveryConversation
  import opened ReplConversation
  import opened ReplAlignment
  import opened SessionRecovery
  import opened ReplMirror
  import opened ReplProjection
  import opened ReplDrift
  import opened ReplCases
  import opened TurnNumbers
  import G = TurnGroups
  import H = ReplHistory

  // ---------------------------------------------------------------- sessions whose turns end

  function Inputs(turns: seq<OmissionTurn>): seq<TurnInput> {
    Map((t: OmissionTurn) => t.input, turns)
  }

  /** The state after turns, each with or without an omission, from the first one. */
  function Started(runId: string, artifacts: Artifacts, sessionId: string, retain: int,
                   turns: seq<OmissionTurn>): Repl {
    AfterOmissions(runId, artifacts, sessionId, retain, FRESH, 1, turns)
  }

  lemma InputsSnoc(turns: seq<OmissionTurn>)
    requires |turns| > 0 && InputsOk(Inputs(turns))
    ensures var n := |turns| - 1;
            Inputs(turns)[..n] == Inputs(turns[..n]) && InputsOk(Inputs(turns[..n])) && InputOk(turns[n].input)
            && Inputs(turns)[n] == turns[n].input
  {
    var n := |turns| - 1;
    assert Inputs(turns)[..n] == Inputs(turns[..n]);
    assert InputOk(Inputs(turns)[n]);
    forall i | 0 <= i < n ensures InputOk(Inputs(turns[..n])[i]) {
      assert Inputs(turns)[i] == Inputs(turns[..n])[i];
    }
  }

  /** Omissions change no row. */
  lemma {:induction false} StartedRows(runId: string, artifacts: Artifacts, sessionId: string, retain: int,
                                       turns: seq<OmissionTurn>)
    requires InputsOk(Inputs(turns))
    ensures Started(runId, artifacts, sessionId, retain, turns).log.rows
            == AfterTurns(runId, artifacts, sessionId, FRESH, 1, Inputs(turns)).log.rows
  {
    if |turns| > 0 {
      var n := |turns| - 1;
      var s, plain := Started(runId, artifacts, sessionId, retain, turns[..n]),
                      AfterTurns(runId, artifacts, sessionId, FRESH, 1, Inputs(turns[..n]));
      InputsSnoc(turns);
      StartedRows(runId, artifacts, sessionId, retain, turns[..n]);
      OneTurnRows(runId, artifacts, sessionId, retain, s, plain, n + 1, turns[n].input, turns[n].omission);
    }
  }

  lemma OneTurnRows(runId: string, artifacts: Artifacts, sessionId: string, retain: int, s: Repl, plain: Repl, k: nat,
                    t: TurnInput, om: Omission)
    requires s.log.rows == plain.log.rows
    ensures AfterOmission(runId, artifacts, sessionId, retain, s, k, t, om).log.rows
            == AfterTurn(runId, artifacts, sessionId, plain, k, t).log.rows
  {
    var groups := GroupsOfTurn(sessionId, k, t);
    LogWithRows(runId, artifacts, s.log, groups, OmissionRefs(s.conversation, retain, om));
    AppendAllRows(runId, artifacts, s.log, groups);
    AppendAllRows(runId, artifacts, plain.log, groups);
  }

  /** Any omission, handed back or lost, leaves the next turn's check passing. */
  lemma {:induction false} StartedInStep(runId: string, artifacts: Artifacts, sessionId: string, retain: int,
                                         turns: seq<OmissionTurn>)
    requires InputsOk(Inputs(turns))
    ensures InStep(runId, artifacts, Started(runId, artifacts, sessionId, retain, turns))
  {
    if |turns| > 0 {
      var n := |turns| - 1;
      InputsSnoc(turns);
      StartedInStep(runId, artifacts, sessionId, retain, turns[..n]);
      OmissionStaysInStep(runId, artifacts, sessionId, retain,
                          Started(runId, artifacts, sessionId, retain, turns[..n]), n + 1, turns[n].input,
                          turns[n].omission);
    } else {
      FreshIsSound(runId, artifacts);
    }
  }

  lemma SessionNumbered(runId: string, artifacts: Artifacts, sessionId: string, turns: seq<TurnInput>,
                        items: seq<Append>)
    requires items == Map(ItemOf, AfterTurns(runId, artifacts, sessionId, FRESH, 1, turns).log.rows)
    ensures NumberedTo(items, GroupIds(SessionGroups(sessionId, 1, turns)), |turns|)
  {
    var ids := GroupIds(SessionGroups(sessionId, 1, turns));
    SessionTurns(runId, artifacts, sessionId, turns);
    SessionIdsDistinct(sessionId, 1, turns);
    forall j: nat | 1 <= j <= |turns| ensures TurnId(j) + ":user" in ids {
      UserIdUsed(sessionId, turns, j);
    }
  }

  lemma StartedLog(runId: string, artifacts: Artifacts, sessionId: string, retain: int, turns: seq<OmissionTurn>)
    requires InputsOk(Inputs(turns))
    ensures LogOfTurnsTo(runId, artifacts, Started(runId, artifacts, sessionId, retain, turns).log,
                         SessionGroups(sessionId, 1, Inputs(turns)), |turns|)
  {
    var s := Started(runId, artifacts, sessionId, retain, turns);
    StartedInStep(runId, artifacts, sessionId, retain, turns);
    StartedRows(runId, artifacts, sessionId, retain, turns);
    SessionRows(runId, artifacts, sessionId, 1, Inputs(turns));
    SessionGroupsSound(artifacts, sessionId, 1, Inputs(turns));
    SessionIdsDistinct(sessionId, 1, Inputs(turns));
    SessionNumbered(runId, artifacts, sessionId, Inputs(turns), Map(ItemOf, s.log.rows));
  }

  /** The user's row of the last turn is in the log. */
  lemma LastTurnWritten(runId: string, artifacts: Artifacts, sessionId: string, turns: seq<TurnInput>, rows: seq<Row>)
      returns (i: nat)
    requires |turns| > 0 && rows == AfterTurns(runId, artifacts, sessionId, FRESH, 1, turns).log.rows
    ensures i < |rows| && Names(rows[i].item, |turns|)
  {
    var n := |turns| - 1;
    var before := AfterTurns(runId, artifacts, sessionId, FRESH, 1, turns[..n]).log;
    LogItems(runId, artifacts, sessionId, before, n + 1, turns[n]);
    i := |before.rows|;
    NewItems(before.rows, rows, ItemsOfTurn(n + 1, turns[n]));
    assert ItemsOfTurn(n + 1, turns[n])[0] == UserAppend(TurnId(n + 1), turns[n].text);
    TurnIdNamesTurn(n + 1);
  }

  lemma CoveringNames(runId: string, log: Log, i: nat, m: nat)
    requires Covering(runId, log) && Within(|log.rows|, Expansion(runId, log)) && i < |log.rows|
             && Names(log.rows[i].item, m)
    ensures NamesTurn(log.rows, Expansion(runId, log), m)
  {
    assert i + 1 in Expansion(runId, log);
    var j :| 0 <= j < |Expansion(runId, log)| && Expansion(runId, log)[j] == i + 1;
    assert Names(log.rows[Expansion(runId, log)[j] - 1].item, m);
  }

  /**
   * A session with omissions, handed back or lost, leaves a log from which ordinary turns may go on in the same way.
   */
  lemma StartedIsComplete(runId: string, artifacts: Artifacts, sessionId: string, retain: int, turns: seq<OmissionTurn>)
    requires InputsOk(Inputs(turns))
    ensures Complete(runId, artifacts, Started(runId, artifacts, sessionId, retain, turns).log,
                     SessionGroups(sessionId, 1, Inputs(turns)), |turns|)
  {
    var log := Started(runId, artifacts, sessionId, retain, turns).log;
    StartedLog(runId, artifacts, sessionId, retain, turns);
    StartedInStep(runId, artifacts, sessionId, retain, turns);
    if |turns| > 0 {
      StartedRows(runId, artifacts, sessionId, retain, turns);
      var i := LastTurnWritten(runId, artifacts, sessionId, Inputs(turns), log.rows);
      CoveringNames(runId, log, i, |turns|);
    }
  }

  /**
   * A process resumed after such a session goes on with the number after the last, and its run can be checkpointed
   * again.
   */
  ghost predicate ResumesFresh(runId: string, artifacts: Artifacts, sessionId: string, log: Log, ids: seq<string>,
                               m: nat, text: string, reason: string) {
    && Within(|log.rows|, Expansion(runId, log)) && NextTurn(runId, log) == m + 1 && Unused(ids, m + 1)
    && BuildManifest(runId, artifacts,
                     Appended(runId, artifacts, log, sessionId, UserGroup(sessionId, m + 1, text).messages), reason).Ok?
  }

  lemma NamedResumesFresh(runId: string, artifacts: Artifacts, sessionId: string, log: Log, groups: seq<Group>, m: nat,
                          text: string, reason: string)
    requires LogOfTurnsTo(runId, artifacts, log, groups, m)
    requires Within(|log.rows|, Expansion(runId, log)) && (m == 0 || NamesTurn(log.rows, Expansion(runId, log), m))
    ensures ResumesFresh(runId, artifacts, sessionId, log, GroupIds(groups), m, text, reason)
  {
    NamedIsNext(runId, log, GroupIds(groups), m);
    UnusedUserChecks(runId, artifacts, sessionId, log, groups, m + 1, text, reason);
  }

  lemma NamedIsNext(runId: string, log: Log, ids: seq<string>, m: nat)
    requires Within(|log.rows|, Expansion(runId, log)) && (m == 0 || NamesTurn(log.rows, Expansion(runId, log), m))
    requires NumberedTo(Map(ItemOf, log.rows), ids, m)
    ensures NextTurn(runId, log) == m + 1 && Unused(ids, m + 1) && TurnId(m + 1) + ":user" !in ids
  {
    NextTurnFreshIff(runId, log, ids, m);
  }

  lemma UnusedUserChecks(runId: string, artifacts: Artifacts, sessionId: string, log: Log, groups: seq<Group>, n: nat,
                         text: string, reason: string)
    requires ValidLog(runId, artifacts, log) && log.rows == RowsOf(artifacts, groups)
    requires AllGood(artifacts, groups) && NoRepeats(GroupIds(groups)) && TurnId(n) + ":user" !in GroupIds(groups)
    ensures BuildManifest(runId, artifacts,
                          Appended(runId, artifacts, log, sessionId, UserGroup(sessionId, n, text).messages),
                          reason).Ok?
  {
    UserPrepares(artifacts, sessionId, n, text);
    FreshIdChecks(runId, artifacts, log, groups, UserGroup(sessionId, n, text), reason);
  }

  /** Sessions of turns that end, with any omissions handed back or lost, resume with an unused number. */
  lemma FinishedTurnsResume(runId: string, artifacts: Artifacts, sessionId: string, retain: int,
                            turns: seq<OmissionTurn>, text: string, reason: string)
    requires InputsOk(Inputs(turns))
    ensures ResumesFresh(runId, artifacts, sessionId, Started(runId, artifacts, sessionId, retain, turns).log,
                         GroupIds(SessionGroups(sessionId, 1, Inputs(turns))), |turns|, text, reason)
  {
    var log := Started(runId, artifacts, sessionId, retain, turns).log;
    StartedIsComplete(runId, artifacts, sessionId, retain, turns);
    NamedResumesFresh(runId, artifacts, sessionId, log, SessionGroups(sessionId, 1, Inputs(turns)), |turns|, text,
                      reason);
  }

  // ---------------------------------------------------------------- one more group

  ghost predicate Adds(artifacts: Artifacts, ids: seq<string>, m: nat, g: Group, k: nat) {
    && Good(artifacts, g) && InTurnScope(TurnId(k), GroupId(g)) && GroupId(g) !in ids && TurnsUpTo(g.messages, k)
    && (if k == m then m > 0 else k == m + 1 && GroupId(g) == TurnId(k) + ":user")
  }

  lemma IdsGrow(ids: seq<string>, id: string, m: nat, k: nat)
    requires InScopes(ids, 1, m + 1) && UsersUsed(ids, m) && InTurnScope(TurnId(k), id)
    requires if k == m then m > 0 else k == m + 1 && id == TurnId(k) + ":user"
    ensures InScopes(ids + [id], 1, k + 1) && UsersUsed(ids + [id], k)
  {
    ScopeReadsBack(k, id);
    forall i | 0 <= i < |ids + [id]| ensures HasScope((ids + [id])[i], 1, k + 1) {
      if i < |ids| {
        assert HasScope(ids[i], 1, m + 1);
        var j: nat :| 1 <= j < m + 1 && ScopedBy(ids[i], j);
        assert ScopedBy((ids + [id])[i], j);
      } else {
        assert ScopedBy((ids + [id])[i], k);
      }
    }
  }

  lemma ItemsGrow(artifacts: Artifacts, rows: seq<Row>, g: Group, m: nat, k: nat)
    requires TurnsUpTo(Map(ItemOf, rows), m) && TurnsUpTo(g.messages, k) && m <= k
    ensures TurnsUpTo(Map(ItemOf, rows + MakeRows(g.sessionId, artifacts, g.messages, |rows|)), k)
  {
    MadeItems(g.sessionId, artifacts, g.messages, |rows|);
    ItemsConcat(rows, MakeRows(g.sessionId, artifacts, g.messages, |rows|));
    TurnsConcat(Map(ItemOf, rows), g.messages, k);
  }

  /** A log of turns to m, and one more group of turn m or the user group of the next; the projection may be any. */
  lemma GroupAdds(runId: string, artifacts: Artifacts, log: Log, groups: seq<Group>, m: nat, g: Group, k: nat,
                  after: Log)
    requires LogOfTurnsTo(runId, artifacts, log, groups, m) && Adds(artifacts, GroupIds(groups), m, g, k)
    requires ValidLog(runId, artifacts, after)
    requires after.rows == log.rows + MakeRows(g.sessionId, artifacts, g.messages, |log.rows|)
    ensures LogOfTurnsTo(runId, artifacts, after, groups + [g], k)
  {
    OneMoreGroup(artifacts, groups, g);
    GoodConcat(artifacts, groups, [g]);
    GroupIdsConcat(groups, [g]);
    assert GroupIds([g]) == [GroupId(g)];
    NoRepeatsConcat(GroupIds(groups), GroupIds([g]));
    IdsGrow(GroupIds(groups), GroupId(g), m, k);
    ItemsGrow(artifacts, log.rows, g, m, k);
  }

  lemma UserAdds(artifacts: Artifacts, sessionId: string, ids: seq<string>, m: nat, text: string)
    requires InScopes(ids, 1, m + 1)
    ensures Adds(artifacts, ids, m, UserGroup(sessionId, m + 1, text), m + 1)
  {
    UserPrepares(artifacts, sessionId, m + 1, text);
    UserScope(TurnId(m + 1), text);
    BeyondUnused(ids, m + 1);
    EndTurns(m + 1, text, Interrupted);
  }

  // ---------------------------------------------------------------- a turn aborted after an omission

  /** The user's row, the omission's overwrite, and nothing else. */
  function AbortedLog(runId: string, artifacts: Artifacts, sessionId: string, retain: int, s: Repl, k: nat,
                      text: string): Log {
    Overwritten(runId, Appended(runId, artifacts, s.log, sessionId, UserGroup(sessionId, k, text).messages),
                SnapshotRefs(Keeps(s.conversation, retain), |s.conversation|))
  }

  /** The groups in the log after the aborted turn. */
  function AbortedGroups(sessionId: string, turns: seq<OmissionTurn>, text: string): seq<Group> {
    SessionGroups(sessionId, 1, Inputs(turns)) + [UserGroup(sessionId, |turns| + 1, text)]
  }

  lemma AbortedIsValid(runId: string, artifacts: Artifacts, sessionId: string, retain: int, s: Repl, k: nat,
                       text: string)
    requires ValidLog(runId, artifacts, s.log) && |s.conversation| <= |s.log.rows|
    ensures var log := AbortedLog(runId, artifacts, sessionId, retain, s, k, text);
            && ValidLog(runId, artifacts, log)
            && log.rows == s.log.rows + MakeRows(sessionId, artifacts, UserGroup(sessionId, k, text).messages,
                                                 |s.log.rows|)
            && Expansion(runId, log) == Filter(Keeps(s.conversation, retain), Span(1, |s.conversation|))
  {
    var g, refs := UserGroup(sessionId, k, text), SnapshotRefs(Keeps(s.conversation, retain), |s.conversation|);
    UserPrepares(artifacts, sessionId, k, text);
    AppendKeepsLog(runId, artifacts, s.log, sessionId, g.messages);
    var begun := Appended(runId, artifacts, s.log, sessionId, g.messages);
    SnapshotRefsOk(begun.rows, Keeps(s.conversation, retain), |s.conversation|);
    OverwriteKeepsLog(runId, artifacts, begun, refs, "omission");
  }

  lemma AbortedLogIs(runId: string, artifacts: Artifacts, sessionId: string, retain: int, turns: seq<OmissionTurn>,
                     text: string, s: Repl)
    requires InputsOk(Inputs(turns)) && s == Started(runId, artifacts, sessionId, retain, turns)
    ensures |s.conversation| == |s.log.rows|
    ensures LogOfTurnsTo(runId, artifacts, AbortedLog(runId, artifacts, sessionId, retain, s, |turns| + 1, text),
                         AbortedGroups(sessionId, turns, text), |turns| + 1)
  {
    var log, groups := AbortedLog(runId, artifacts, sessionId, retain, s, |turns| + 1, text),
        SessionGroups(sessionId, 1, Inputs(turns));
    StartedInStep(runId, artifacts, sessionId, retain, turns);
    InStepSize(runId, artifacts, s);
    StartedLog(runId, artifacts, sessionId, retain, turns);
    AbortedIsValid(runId, artifacts, sessionId, retain, s, |turns| + 1, text);
    UserAdds(artifacts, sessionId, GroupIds(groups), |turns|, text);
    GroupAdds(runId, artifacts, s.log, groups, |turns|, UserGroup(sessionId, |turns| + 1, text), |turns| + 1, log);
  }

  lemma KeptInside(conversation: seq<Message>, retain: int, n: nat)
    requires n == |conversation|
    ensures Within(n, Filter(Keeps(conversation, retain), Span(1, n)))
  {
    var kept := Filter(Keeps(conversation, retain), Span(1, n));
    FilterMeaning(Keeps(conversation, retain), Span(1, n));
    forall i | 0 <= i < |kept| ensures 1 <= kept[i] <= n {
      assert kept[i] in kept;
    }
  }

  /** The rows an omission keeps are older than the turn. */
  lemma OlderRowsName(rows: seq<Row>, n: nat, indexes: seq<int>, m: nat)
    requires n <= |rows| && Within(n, indexes) && TurnsUpTo(Map(ItemOf, rows[..n]), m)
    ensures Within(|rows|, indexes) && !NamesTurn(rows, indexes, m + 1)
  {
    assert forall i | 0 <= i < |indexes| :: 1 <= indexes[i] <= n;
    forall i | 0 <= i < |indexes| ensures !Names(rows[indexes[i] - 1].item, m + 1) {
      var j := indexes[i] - 1;
      assert 0 <= j < n && rows[..n][j] == rows[j];
      assert Map(ItemOf, rows[..n])[j] == ItemOf(rows[j]);
    }
  }

  lemma AbortedNamesNothing(runId: string, artifacts: Artifacts, sessionId: string, retain: int,
                            turns: seq<OmissionTurn>, text: string, s: Repl, log: Log)
    requires InputsOk(Inputs(turns)) && s == Started(runId, artifacts, sessionId, retain, turns)
    requires log == AbortedLog(runId, artifacts, sessionId, retain, s, |turns| + 1, text)
    ensures Within(|log.rows|, Expansion(runId, log)) && !NamesTurn(log.rows, Expansion(runId, log), |turns| + 1)
  {
    StartedInStep(runId, artifacts, sessionId, retain, turns);
    InStepSize(runId, artifacts, s);
    StartedLog(runId, artifacts, sessionId, retain, turns);
    AbortedIsValid(runId, artifacts, sessionId, retain, s, |turns| + 1, text);
    KeptInside(s.conversation, retain, |s.log.rows|);
    assert log.rows[..|s.log.rows|] == s.log.rows;
    OlderRowsName(log.rows, |s.log.rows|, Expansion(runId, log), |turns|);
  }

  lemma NextTurnReused(runId: string, artifacts: Artifacts, sessionId: string, retain: int, s: Repl,
                       turns: seq<OmissionTurn>, text: string)
    requires InputsOk(Inputs(turns)) && s == Started(runId, artifacts, sessionId, retain, turns)
    ensures var log := AbortedLog(runId, artifacts, sessionId, retain, s, |turns| + 1, text);
            && Within(|log.rows|, Expansion(runId, log))
            && 1 <= NextTurn(runId, log) <= |turns| + 1
            && TurnId(NextTurn(runId, log)) + ":user" in GroupIds(AbortedGroups(sessionId, turns, text))
  {
    var log := AbortedLog(runId, artifacts, sessionId, retain, s, |turns| + 1, text);
    AbortedLogIs(runId, artifacts, sessionId, retain, turns, text, s);
    AbortedNamesNothing(runId, artifacts, sessionId, retain, turns, text, s, log);
    NextTurnFreshIff(runId, log, GroupIds(AbortedGroups(sessionId, turns, text)), |turns| + 1);
  }

  /**
   * After any session whose turns end: a turn that persists an omission and then writes nothing but its user row lets a
   * checkpoint be written; but the process resumed from it gives its next turn a number already used, and once that
   * turn's user row is written no terminal checkpoint of the run is possible any more, whatever follows.
   */
  lemma AbortedTurnPoisons(runId: string, artifacts: Artifacts, sessionId: string, retain: int,
                           turns: seq<OmissionTurn>, text: string, reason: string, again: string, ops: seq<Op>,
                           later: string)
    requires InputsOk(Inputs(turns))
    ensures var s := Started(runId, artifacts, sessionId, retain, turns);
            var log := AbortedLog(runId, artifacts, sessionId, retain, s, |turns| + 1, text);
            && BuildManifest(runId, artifacts, log, reason).Ok?
            && Within(|log.rows|, Expansion(runId, log))
            && var resumed := Appended(runId, artifacts, log, sessionId,
                                       UserGroup(sessionId, NextTurn(runId, log), again).messages);
               BuildManifest(runId, artifacts, Run(runId, artifacts, resumed, ops), later).Err?
  {
    var s, groups := Started(runId, artifacts, sessionId, retain, turns), AbortedGroups(sessionId, turns, text);
    var log := AbortedLog(runId, artifacts, sessionId, retain, s, |turns| + 1, text);
    AbortedLogIs(runId, artifacts, sessionId, retain, turns, text, s);
    AbortedNamesNothing(runId, artifacts, sessionId, retain, turns, text, s, log);
    LogChecks(runId, artifacts, log, groups, |turns| + 1, reason);
    ResumedCheckpointIff(runId, artifacts, log, groups, |turns| + 1, sessionId, again, ops, later);
  }

  lemma LogChecks(runId: string, artifacts: Artifacts, log: Log, groups: seq<Group>, m: nat, reason: string)
    requires LogOfTurnsTo(runId, artifacts, log, groups, m) && |groups| > 0
    ensures BuildManifest(runId, artifacts, log, reason).Ok?
  {
    WholeLogAccepted(runId, artifacts, groups);
    WhenManifestBuilds(runId, artifacts, log, reason);
  }

  // ---------------------------------------------------------------- a turn aborted after a compression

  /** The user's row, the summary's row and the compression's overwrite. */
  function CompressedLog(runId: string, artifacts: Artifacts, sessionId: string, log: Log, k: nat, text: string,
                         json: string, refs: seq<Ref>): Log {
    var begun := Appended(runId, artifacts, log, sessionId, UserGroup(sessionId, k, text).messages);
    Overwritten(runId, Appended(runId, artifacts, begun, sessionId, SummaryGroup(sessionId, TurnId(k), json).messages),
                refs)
  }

  function CompressedGroups(sessionId: string, turns: seq<OmissionTurn>, text: string, json: string): seq<Group> {
    AbortedGroups(sessionId, turns, text) + [SummaryGroup(sessionId, TurnId(|turns| + 1), json)]
  }

  lemma SummaryGood(artifacts: Artifacts, sessionId: string, k: nat, json: string)
    ensures Good(artifacts, SummaryGroup(sessionId, TurnId(k), json)) && TurnsUpTo([SummaryAppend(TurnId(k), json)], k)
    ensures ScopedWith(TurnId(k), GroupId(SummaryGroup(sessionId, TurnId(k), json)), 'c')
  {
    SummaryPrepares(artifacts, sessionId, TurnId(k), json);
    G.PreparesAll(artifacts, [SummaryAppend(TurnId(k), json)]);
    SingleAccepted(artifacts, sessionId, SummaryAppend(TurnId(k), json));
    SinglePairs(sessionId, SummaryAppend(TurnId(k), json));
    TurnIdNamesTurn(k);
    ScopeOf(TurnId(k), "context-summary");
    assert TurnId(k) + ":context-summary" == TurnId(k) + ":" + "context-summary";
  }

  lemma SummaryAdds(artifacts: Artifacts, sessionId: string, before: seq<string>, m: nat, text: string, json: string)
    requires InScopes(before, 1, m + 1)
    ensures Adds(artifacts, before + [TurnId(m + 1) + ":user"], m + 1, SummaryGroup(sessionId, TurnId(m + 1), json),
                 m + 1)
  {
    SummaryGood(artifacts, sessionId, m + 1, json);
    BeyondUnused(before, m + 1);
    UserScope(TurnId(m + 1), text);
  }

  lemma FirstNamed(n: int, indexes: seq<int>)
    ensures n in Indexes([Index(n)] + Map(IndexRef, indexes))
  {
    IndexesOfRefs([n] + indexes);
    assert [IndexRef(n)] == [Index(n)];
    assert Map(IndexRef, [n] + indexes) == [IndexRef(n)] + Map(IndexRef, indexes);
    assert ([n] + indexes)[0] == n;
  }

  lemma OneNamed(messages: seq<Message>, n: int, indexes: seq<int>, i: nat)
    requires indexes == Map(m => RowFor(m, Some(n)), messages) && i < |messages| && IsSummary(messages[i])
    ensures n in Indexes(Map(IndexRef, indexes))
  {
    IndexesOfRefs(indexes);
    assert indexes[i] == n;
  }

  /** Whatever history a compression leaves, its references name the summary's row. */
  lemma SummaryNamed(messages: seq<Message>, n: nat, refs: seq<Ref>)
    requires ProjectionRefs(messages, n, Some(n)) == Ok(refs)
    ensures n in Indexes(refs)
  {
    var indexes := Map(m => RowFor(m, Some(n)), messages);
    RefsMeaning(messages, n, Some(n));
    if m :| m in messages && IsSummary(m) {
      var i :| 0 <= i < |messages| && messages[i] == m;
      OneNamed(messages, n, indexes, i);
    } else {
      FirstNamed(n, indexes);
    }
  }

  lemma SummaryTurnNamed(runId: string, log: Log, m: nat)
    requires Within(|log.rows|, Expansion(runId, log)) && |log.rows| > 0 && |log.rows| in Expansion(runId, log)
    requires log.rows[|log.rows| - 1].item.turnId == Some(TurnId(m))
    ensures NamesTurn(log.rows, Expansion(runId, log), m)
  {
    var j :| 0 <= j < |Expansion(runId, log)| && Expansion(runId, log)[j] == |log.rows|;
    TurnIdNamesTurn(m);
    assert Names(log.rows[Expansion(runId, log)[j] - 1].item, m);
  }

  lemma BegunLog(runId: string, artifacts: Artifacts, sessionId: string, log: Log, groups: seq<Group>, m: nat,
                 text: string, begun: Log)
    requires LogOfTurnsTo(runId, artifacts, log, groups, m)
    requires begun == Appended(runId, artifacts, log, sessionId, UserGroup(sessionId, m + 1, text).messages)
    ensures LogOfTurnsTo(runId, artifacts, begun, groups + [UserGroup(sessionId, m + 1, text)], m + 1)
    ensures |begun.rows| == |log.rows| + 1
  {
    UserPrepares(artifacts, sessionId, m + 1, text);
    AppendKeepsLog(runId, artifacts, log, sessionId, UserGroup(sessionId, m + 1, text).messages);
    UserAdds(artifacts, sessionId, GroupIds(groups), m, text);
    GroupAdds(runId, artifacts, log, groups, m, UserGroup(sessionId, m + 1, text), m + 1, begun);
  }

  /** The log after the summary's row and the overwrite, from that after the user's row. */
  lemma SummedLog(runId: string, artifacts: Artifacts, begun: Log, own: Group, refs: seq<Ref>, k: nat, json: string,
                  log: Log)
    requires ValidLog(runId, artifacts, begun) && own == SummaryGroup(own.sessionId, TurnId(k), json)
    requires RefsOk(Appended(runId, artifacts, begun, own.sessionId, own.messages).rows, refs)
             && |begun.rows| + 1 in Indexes(refs)
    requires log == Overwritten(runId, Appended(runId, artifacts, begun, own.sessionId, own.messages), refs)
    ensures ValidLog(runId, artifacts, log) && Within(|log.rows|, Expansion(runId, log))
    ensures log.rows == begun.rows + MakeRows(own.sessionId, artifacts, own.messages, |begun.rows|)
    ensures NamesTurn(log.rows, Expansion(runId, log), k)
  {
    SummaryPrepares(artifacts, own.sessionId, TurnId(k), json);
    OverwrittenLog(runId, artifacts, begun, own, refs);
    SummaryTurnNamed(runId, log, k);
  }

  lemma SummedResumes(runId: string, artifacts: Artifacts, sessionId: string, begun: Log, before: seq<Group>, m: nat,
                      own: Group, log: Log, text: string, reason: string)
    requires LogOfTurnsTo(runId, artifacts, begun, before, m) && Adds(artifacts, GroupIds(before), m, own, m)
    requires ValidLog(runId, artifacts, log) && Within(|log.rows|, Expansion(runId, log))
    requires log.rows == begun.rows + MakeRows(own.sessionId, artifacts, own.messages, |begun.rows|)
    requires NamesTurn(log.rows, Expansion(runId, log), m)
    ensures ResumesFresh(runId, artifacts, sessionId, log, GroupIds(before + [own]), m, text, reason)
  {
    GroupAdds(runId, artifacts, begun, before, m, own, m, log);
    NamedResumesFresh(runId, artifacts, sessionId, log, before + [own], m, text, reason);
  }

  /** The references a compression makes for the log with its summary row. */
  ghost predicate RefsFor(r: seq<Message>, n: nat, refs: seq<Ref>) {
    ProjectionRefs(r, n, Some(n)) == Ok(refs)
  }

  lemma RefsForFit(r: seq<Message>, rows: seq<Row>, refs: seq<Ref>)
    requires |rows| > 0 && RefsFor(r, |rows|, refs)
    ensures RefsOk(rows, refs) && |rows| in Indexes(refs)
  {
    RefsResolve(r, rows, Some(|rows|));
    SummaryNamed(r, |rows|, refs);
  }

  lemma CompressedFromBegun(runId: string, artifacts: Artifacts, sessionId: string, begun: Log, before: seq<Group>,
                            ids: seq<string>, m: nat, own: Group, json: string, r: seq<Message>, refs: seq<Ref>,
                            log: Log, again: string, reason: string)
    requires LogOfTurnsTo(runId, artifacts, begun, before, m + 1) && InScopes(ids, 1, m + 1)
    requires own == SummaryGroup(own.sessionId, TurnId(m + 1), json)
             && GroupIds(before) == ids + [TurnId(m + 1) + ":user"]
    requires RefsFor(r, |begun.rows| + 1, refs)
    requires log == Overwritten(runId, Appended(runId, artifacts, begun, own.sessionId, own.messages), refs)
    ensures ResumesFresh(runId, artifacts, sessionId, log, GroupIds(before + [own]), m + 1, again, reason)
  {
    RefsForFit(r, Appended(runId, artifacts, begun, own.sessionId, own.messages).rows, refs);
    SummedLog(runId, artifacts, begun, own, refs, m + 1, json, log);
    SummaryAdds(artifacts, own.sessionId, ids, m, "", json);
    SummedResumes(runId, artifacts, sessionId, begun, before, m + 1, own, log, again, reason);
  }

  lemma UserLast(sessionId: string, groups: seq<Group>, m: nat, text: string)
    ensures GroupIds(groups + [UserGroup(sessionId, m + 1, text)]) == GroupIds(groups) + [TurnId(m + 1) + ":user"]
  {
    var g := UserGroup(sessionId, m + 1, text);
    assert GroupId(g) == TurnId(m + 1) + ":user";
    assert GroupIds([g]) == [GroupId(g)];
    GroupIdsConcat(groups, [g]);
  }

  /** A turn that ends in the same way after it has persisted a compression: the summary's row carries its number. */
  lemma CompressedTurnResumes(runId: string, artifacts: Artifacts, sessionId: string, retain: int,
                              turns: seq<OmissionTurn>, text: string, json: string, r: seq<Message>, refs: seq<Ref>,
                              s: Repl, again: string, reason: string)
    requires InputsOk(Inputs(turns)) && s == Started(runId, artifacts, sessionId, retain, turns)
    requires RefsFor(r, |s.log.rows| + 2, refs)
    ensures ResumesFresh(runId, artifacts, sessionId,
                         CompressedLog(runId, artifacts, sessionId, s.log, |turns| + 1, text, json, refs),
                         GroupIds(CompressedGroups(sessionId, turns, text, json)), |turns| + 1, again, reason)
  {
    StartedLog(runId, artifacts, sessionId, retain, turns);
    CompressedAfter(runId, artifacts, sessionId, s.log, SessionGroups(sessionId, 1, Inputs(turns)), |turns|, text,
                    json, r, refs, CompressedGroups(sessionId, turns, text, json),
                    CompressedLog(runId, artifacts, sessionId, s.log, |turns| + 1, text, json, refs), again, reason);
  }

  lemma CompressedAfter(runId: string, artifacts: Artifacts, sessionId: string, log: Log, groups: seq<Group>, m: nat,
                        text: string, json: string, r: seq<Message>, refs: seq<Ref>, all: seq<Group>, after: Log,
                        again: string, reason: string)
    requires LogOfTurnsTo(runId, artifacts, log, groups, m) && RefsFor(r, |log.rows| + 2, refs)
    requires all == groups + [UserGroup(sessionId, m + 1, text)] + [SummaryGroup(sessionId, TurnId(m + 1), json)]
    requires after == CompressedLog(runId, artifacts, sessionId, log, m + 1, text, json, refs)
    ensures ResumesFresh(runId, artifacts, sessionId, after, GroupIds(all), m + 1, again, reason)
  {
    var before, own := groups + [UserGroup(sessionId, m + 1, text)], SummaryGroup(sessionId, TurnId(m + 1), json);
    var begun := Appended(runId, artifacts, log, sessionId, UserGroup(sessionId, m + 1, text).messages);
    BegunLog(runId, artifacts, sessionId, log, groups, m, text, begun);
    UserLast(sessionId, groups, m, text);
    CompressedFromBegun(runId, artifacts, sessionId, begun, before, GroupIds(groups), m, own, json, r, refs, after,
                        again, reason);
  }

  // ---------------------------------------------------------------- a session in which it happens

  /** A turn with a tool round and an answered one, neither with an omission. */
  ghost predicate ToolThenAnswer(turns: seq<OmissionTurn>) {
    |turns| == 2 && turns[0] == OmissionTurn(TOOL_TURN, NoOmission) && turns[1] == OmissionTurn(ANSWERED, NoOmission)
  }

  /**
   * After two such turns an omission has something to blank when at most one call is retained; and a third turn, if it
   * persists one and then aborts, makes the resumed process write an id again that is in the log.
   */
  lemma OmissionThenReuse(runId: string, artifacts: Artifacts, sessionId: string, retain: int,
                          turns: seq<OmissionTurn>, text: string, reason: string, again: string, ops: seq<Op>,
                          later: string)
    requires ToolThenAnswer(turns) && retain <= 1
    ensures var s := Started(runId, artifacts, sessionId, retain, turns);
            var log := AbortedLog(runId, artifacts, sessionId, retain, s, |turns| + 1, text);
            && Blanks(s.conversation, retain)
            && BuildManifest(runId, artifacts, log, reason).Ok?
            && Within(|log.rows|, Expansion(runId, log))
            && var resumed := Appended(runId, artifacts, log, sessionId,
                                       UserGroup(sessionId, NextTurn(runId, log), again).messages);
               BuildManifest(runId, artifacts, Run(runId, artifacts, resumed, ops), later).Err?
  {
    FreshIsPlain(runId, artifacts);
    TwoBlank(runId, artifacts, sessionId, retain, FRESH, 1, turns);
    TwoInputsOk(turns);
    AbortedTurnPoisons(runId, artifacts, sessionId, retain, turns, text, reason, again, ops, later);
  }

  lemma TwoInputsOk(turns: seq<OmissionTurn>)
    requires ToolThenAnswer(turns)
    ensures InputsOk(Inputs(turns))
  {
    forall i | 0 <= i < |Inputs(turns)| ensures InputOk(Inputs(turns)[i]) {
      assert Inputs(turns)[i] == turns[i].input;
    }
  }

  lemma TwoBlank(runId: string, artifacts: Artifacts, sessionId: string, retain: int, start: Repl, k: nat,
                 turns: seq<OmissionTurn>)
    requires Plain(runId, artifacts, start) && k > 0 && H.Good(k - 1, start.conversation) && retain <= 1
    requires ToolThenAnswer(turns)
    ensures Blanks(AfterOmissions(runId, artifacts, sessionId, retain, start, k, turns).conversation, retain)
  {
    TwoPlainTurns(runId, artifacts, sessionId, retain, start, k, turns);
    BlanksAfter(runId, artifacts, sessionId, retain, start, k, k - 1, turns[0].input, turns[1].input,
                AfterOmissions(runId, artifacts, sessionId, retain, start, k, turns));
  }

  lemma TwoPlainTurns(runId: string, artifacts: Artifacts, sessionId: string, retain: int, s: Repl, k: nat,
                      turns: seq<OmissionTurn>)
    requires |turns| == 2 && turns[0].omission == turns[1].omission == NoOmission
    ensures AfterOmissions(runId, artifacts, sessionId, retain, s, k, turns)
            == Next(runId, artifacts, sessionId, Next(runId, artifacts, sessionId, s, k, turns[0].input), k + 1,
                    turns[1].input)
  {
    LastTurn(runId, artifacts, sessionId, retain, s, k, turns);
    LastTurn(runId, artifacts, sessionId, retain, s, k, turns[..1]);
    NoOmissionIsNext(runId, artifacts, sessionId, retain, s, k, turns[0].input);
    NoOmissionIsNext(runId, artifacts, sessionId, retain, Next(runId, artifacts, sessionId, s, k, turns[0].input),
                     k + 1, turns[1].input);
  }

  lemma NoOmissionIsNext(runId: string, artifacts: Artifacts, sessionId: string, retain: int, s: Repl, k: nat,
                         t: TurnInput)
    ensures AfterOmission(runId, artifacts, sessionId, retain, s, k, t, NoOmission)
            == Next(runId, artifacts, sessionId, s, k, t)
  {
  }

  lemma BlanksAfter(runId: string, artifacts: Artifacts, sessionId: string, retain: int, start: Repl, k: nat, c: nat,
                    tool: TurnInput, answered: TurnInput, s: Repl)
    requires k == c + 1 && tool == TOOL_TURN && answered == ANSWERED
    requires Plain(runId, artifacts, start) && H.Good(c, start.conversation) && retain <= 1
    requires s == Next(runId, artifacts, sessionId, Next(runId, artifacts, sessionId, start, k, tool), k + 1, answered)
    ensures Blanks(s.conversation, retain)
  {
    var first := Next(runId, artifacts, sessionId, start, c + 1, TOOL_TURN);
    var g := ToolStage(runId, artifacts, sessionId, start, c);
    AnswerStage(runId, artifacts, sessionId, first, c + 1, retain, g, s);
    FreedBlanks(s.conversation, retain, g);
  }
}
