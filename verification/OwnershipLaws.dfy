/** What owner tokens fence off, and that undoing a resume undoes all of it. */
module OwnershipLaws {
  import opened Wrappers
  import opened Lifecycle
  import opened LifecycleLaws

  // ---------------------------------------------------------------- stale fail-close, one call

  /**
   * A session left running over a run that already ended, as when a process dies between failing its run and failing
   * its session, cannot be closed by any stale proof: whoever tries gets an error and changes nothing.
   */
  lemma HalfFailedSessionIsStuck(db: Db, p: StaleProof, c: Option<string>, todo: TodoSnapshot)
    requires IsRunning(db, p.session) && db.sessions[p.session].activeRun.Some?
    requires !RunIsRunning(db, db.sessions[p.session].activeRun.value)
    ensures FailClose(db, p, c, todo).db == db
    ensures StillOwned(db, p) ==> FailClose(db, p, c, todo).reply == Raised
  {
  }

  // ---------------------------------------------------------------- tokens over whole runs

  /** Every owner token in the tables was handed out. */
  ghost predicate Issued(w: World) {
    forall s | s in w.db.sessions && w.db.sessions[s].owner.Some? :: w.db.sessions[s].owner.value.token in w.tokens
  }

  predicate Holds(db: Db, s: string, token: string) {
    IsRunning(db, s) && db.sessions[s].owner.Some? && db.sessions[s].owner.value.token == token
  }

  /** The token was handed out and no longer owns the running session. */
  predicate Gone(w: World, s: string, token: string) {
    token in w.tokens && !Holds(w.db, s, token)
  }

  lemma IssuedStays(w: World, a: Action)
    requires Issued(w)
    ensures Issued(Next(w, a))
  {
    var after := Next(w, a);
    forall s | s in after.db.sessions && after.db.sessions[s].owner.Some?
      ensures after.db.sessions[s].owner.value.token in after.tokens
    {
      assert (s in w.db.sessions && after.db.sessions[s].owner == w.db.sessions[s].owner)
          || after.db.sessions[s].owner.value.token in TokensOf(a);
    }
  }

  /** Once gone, an owner token never comes back, whatever any process does. */
  lemma GoneStays(w: World, a: Action, s: string, token: string)
    requires Allowed(w, a) && Gone(w, s, token)
    ensures Gone(Next(w, a), s, token)
  {
  }

  lemma {:induction false} GoneForGood(w: World, trace: seq<Action>, s: string, token: string)
    requires AllAllowed(w, trace) && Gone(w, s, token)
    ensures Gone(After(w, trace), s, token)
  {
    if |trace| > 0 {
      var n := |trace| - 1;
      PrefixAllowed(w, trace, n);
      GoneForGood(w, trace[..n], s, token);
      GoneStays(After(w, trace[..n]), trace[n], s, token);
    }
  }

  lemma {:induction false} AfterConcat(w: World, a: seq<Action>, b: seq<Action>)
    ensures After(w, a + b) == After(After(w, a), b)
  {
    if |b| == 0 {
      assert a + b == a;
    } else {
      assert (a + b)[..|a + b| - 1] == a + b[..|b| - 1];
      AfterConcat(w, a, b[..|b| - 1]);
    }
  }

  lemma AfterPrefix(w: World, trace: seq<Action>, i: nat, j: nat)
    requires i + j <= |trace|
    ensures After(After(w, trace[..i]), trace[i..][..j]) == After(w, trace[..i + j])
  {
    assert trace[..i] + trace[i..][..j] == trace[..i + j];
    AfterConcat(w, trace[..i], trace[i..][..j]);
  }

  lemma SuffixAllowed(w: World, trace: seq<Action>, i: nat)
    requires i <= |trace| && AllAllowed(w, trace)
    ensures AllAllowed(After(w, trace[..i]), trace[i..])
    ensures After(After(w, trace[..i]), trace[i..]) == After(w, trace)
  {
    var rest := trace[i..];
    AfterPrefix(w, trace, i, |rest|);
    assert rest[..|rest|] == rest && trace[..|trace|] == trace;
    forall j: nat | j < |rest| ensures Allowed(After(After(w, trace[..i]), rest[..j]), rest[j]) {
      AfterPrefix(w, trace, i, j);
      assert rest[j] == trace[i + j];
    }
  }

  /**
   * A stale proof captured at the start of a run is refused at its end, changing nothing, if at any moment in between
   * the session was not running under that token: it had ended, or had ended, been released and been resumed.
   */
  lemma StaleProofIsFenced(w: World, trace: seq<Action>, i: nat, p: StaleProof, c: Option<string>, todo: TodoSnapshot)
    requires Issued(w) && StillOwned(w.db, p) && AllAllowed(w, trace) && i <= |trace|
    requires !Holds(After(w, trace[..i]).db, p.session, p.owner.token)
    ensures FailClose(After(w, trace).db, p, c, todo) == Effect(After(w, trace).db, Refused)
  {
    TokensGrow(w, trace[..i]);
    SuffixAllowed(w, trace, i);
    GoneForGood(After(w, trace[..i]), trace[i..], p.session, p.owner.token);
  }

  lemma {:induction false} TokensGrow(w: World, trace: seq<Action>)
    ensures w.tokens <= After(w, trace).tokens
  {
    if |trace| > 0 {
      TokensGrow(w, trace[..|trace| - 1]);
    }
  }

  lemma ClosedIsGone(w: World, p: StaleProof, c: Option<string>, todo: TodoSnapshot)
    requires Issued(w) && FailClose(w.db, p, c, todo).reply == Done
    ensures Gone(Next(w, DoFailClose(p, c, todo)), p.session, p.owner.token)
  {
  }

  lemma {:induction false} IssuedThroughout(w: World, trace: seq<Action>)
    requires Issued(w)
    ensures Issued(After(w, trace))
  {
    if |trace| > 0 {
      IssuedThroughout(w, trace[..|trace| - 1]);
      IssuedStays(After(w, trace[..|trace| - 1]), trace[|trace| - 1]);
    }
  }

  lemma GoneLater(w: World, trace: seq<Action>, i: nat, j: nat, s: string, token: string)
    requires i <= j <= |trace| && AllAllowed(w, trace) && Gone(After(w, trace[..i]), s, token)
    ensures Gone(After(w, trace[..j]), s, token)
  {
    PrefixAllowed(w, trace, j);
    assert trace[..j][..i] == trace[..i];
    SuffixAllowed(w, trace[..j], i);
    GoneForGood(After(w, trace[..i]), trace[..j][i..], s, token);
  }

  lemma GoneAfterClose(w: World, trace: seq<Action>, i: nat, p: StaleProof, c: Option<string>, todo: TodoSnapshot)
    requires Issued(w) && i < |trace| && trace[i] == DoFailClose(p, c, todo)
    requires FailClose(After(w, trace[..i]).db, p, c, todo).reply == Done
    ensures Gone(After(w, trace[..i + 1]), p.session, p.owner.token)
  {
    IssuedThroughout(w, trace[..i]);
    ClosedIsGone(After(w, trace[..i]), p, c, todo);
    assert trace[..i + 1][..i] == trace[..i];
  }

  /** Of any number of closers acting on one owner's proof, at most one succeeds; all later ones are refused. */
  lemma AtMostOneCloser(w: World, trace: seq<Action>, i: nat, j: nat, p: StaleProof, c: Option<string>,
                        todo: TodoSnapshot, q: StaleProof, d: Option<string>, other: TodoSnapshot)
    requires Issued(w) && AllAllowed(w, trace) && i < j < |trace|
    requires trace[i] == DoFailClose(p, c, todo) && FailClose(After(w, trace[..i]).db, p, c, todo).reply == Done
    requires q.session == p.session && q.owner.token == p.owner.token
    ensures FailClose(After(w, trace[..j]).db, q, d, other) == Effect(After(w, trace[..j]).db, Refused)
  {
    GoneAfterClose(w, trace, i, p, c, todo);
    GoneLater(w, trace, i + 1, j, p.session, p.owner.token);
    NotOwned(After(w, trace[..j]), q, d, other);
  }

  lemma NotOwned(w: World, p: StaleProof, c: Option<string>, todo: TodoSnapshot)
    requires Gone(w, p.session, p.owner.token)
    ensures FailClose(w.db, p, c, todo) == Effect(w.db, Refused)
  {
  }

  // ---------------------------------------------------------------- a session left running over an ended run

  /** The session runs, its own run has ended. */
  predicate HalfFailed(db: Db, s: string) {
    && IsRunning(db, s) && db.sessions[s].activeRun.Some?
    && OwnRun(db, s, db.sessions[s].activeRun.value) && !RunIsRunning(db, db.sessions[s].activeRun.value)
  }

  /** The session's own guarded update, or a roll-back of the resume that left it running. */
  predicate EndsHalfFailed(db: Db, a: Action, s: string)
    requires HalfFailed(db, s)
  {
    match a
    case DoEndSession(t, _, _) => t == s
    case DoRollback(plan) => plan.session == s && Some(plan.run) == db.sessions[s].activeRun
    case _ => false
  }

  /** Of all steps the programs can take, exactly those two get a session out of that state. */
  lemma HalfFailedStaysIff(w: World, a: Action, s: string)
    requires Structure(w.db) && PlansTerminal(w) && Allowed(w, a) && HalfFailed(w.db, s)
    ensures HalfFailed(Next(w, a).db, s) <==> !EndsHalfFailed(w.db, a, s)
  {
  }

  ghost predicate NothingEnds(w: World, trace: seq<Action>, s: string) {
    forall i | 0 <= i < |trace| ::
        HalfFailed(After(w, trace[..i]).db, s) ==> !EndsHalfFailed(After(w, trace[..i]).db, trace[i], s)
  }

  /**
   * Over every interleaving a half-failed session stays as it is until its own process ends it or a resume is rolled
   * back; until then no stale proof closes it, however many are tried, and its workspace takes no other session.
   */
  lemma {:induction false} HalfFailedForGood(w: World, trace: seq<Action>, s: string)
    requires Structure(w.db) && PlansTerminal(w) && AllAllowed(w, trace) && HalfFailed(w.db, s)
             && NothingEnds(w, trace, s)
    ensures HalfFailed(After(w, trace).db, s)
    ensures forall p: StaleProof, c, todo | p.session == s ::
              FailClose(After(w, trace).db, p, c, todo).db == After(w, trace).db
              && FailClose(After(w, trace).db, p, c, todo).reply != Done
    ensures forall t, workspace | workspace == After(w, trace).db.sessions[s].workspace ::
              CreateSession(After(w, trace).db, t, workspace) == Effect(After(w, trace).db, Raised)
  {
    if |trace| > 0 {
      var n := |trace| - 1;
      PrefixAllowed(w, trace, n);
      NothingEndsBefore(w, trace, s, n);
      HalfFailedForGood(w, trace[..n], s);
      StructureThroughout(w, trace[..n]);
      PlansStayTerminal(w, trace[..n]);
      HalfFailedStaysIff(After(w, trace[..n]), trace[n], s);
    }
    forall p: StaleProof, c, todo | p.session == s
      ensures FailClose(After(w, trace).db, p, c, todo).db == After(w, trace).db
              && FailClose(After(w, trace).db, p, c, todo).reply != Done
    {
      HalfFailedSessionIsStuck(After(w, trace).db, p, c, todo);
    }
  }

  lemma NothingEndsBefore(w: World, trace: seq<Action>, s: string, n: nat)
    requires n <= |trace| && NothingEnds(w, trace, s)
    ensures NothingEnds(w, trace[..n], s)
  {
    assert forall i | 0 <= i < n :: trace[..n][..i] == trace[..i];
  }

  /** The two steps do end it, so that the condition is exact. */
  lemma HalfFailedEnds(w: World, trace: seq<Action>, i: nat, s: string)
    requires Structure(w.db) && PlansTerminal(w) && AllAllowed(w, trace) && i < |trace|
    requires HalfFailed(After(w, trace[..i]).db, s) && EndsHalfFailed(After(w, trace[..i]).db, trace[i], s)
    ensures !IsRunning(After(w, trace[..i + 1]).db, s)
  {
    PrefixAllowed(w, trace, i);
    StructureThroughout(w, trace[..i]);
    PlansStayTerminal(w, trace[..i]);
    assert trace[..i + 1][..i] == trace[..i];
  }

  const DYING := STARTING + [DoRecordOwner("s", Owner(1, "h", "t"))] + [DoReadRun("r")]
      + [DoWriteRun("r", Failed, false)]

  const OWNED := World(OneSession(PROMPT_SESSION.(owner := Some(Owner(1, "h", "t"))), PROMPT_RUN, map[], map[]), {"t"},
                       {}, {})
  const HALF := World(OneSession(PROMPT_SESSION.(owner := Some(Owner(1, "h", "t"))), PROMPT_RUN.(status := Failed),
                                 map[], map[]), {"t"}, {"r"}, {})

  lemma DyingSteps()
    ensures Allowed(STARTED, DoRecordOwner("s", Owner(1, "h", "t")))
            && Next(STARTED, DoRecordOwner("s", Owner(1, "h", "t"))) == OWNED
    ensures Next(OWNED, DoReadRun("r")) == OWNED.(seenRunning := {"r"})
    ensures Allowed(OWNED.(seenRunning := {"r"}), DoWriteRun("r", Failed, false))
    ensures Next(OWNED.(seenRunning := {"r"}), DoWriteRun("r", Failed, false)) == HALF
  {
  }

  lemma HalfIsHalfFailed()
    ensures HalfFailed(HALF.db, "s") && Structure(HALF.db) && PlansTerminal(HALF)
  {
  }

  /**
   * A process starts a session, owns it, fails its run and is gone: the session is half failed and closes for nobody.
   */
  lemma DyingLeavesHalfFailed()
    ensures Reaches(DYING, HALF) && HalfFailed(HALF.db, "s") && Structure(HALF.db) && PlansTerminal(HALF)
  {
    Started();
    DyingSteps();
    var own := DoRecordOwner("s", Owner(1, "h", "t"));
    Extend(STARTING, STARTED, own);
    Extend(STARTING + [own], OWNED, DoReadRun("r"));
    Extend(STARTING + [own] + [DoReadRun("r")], OWNED.(seenRunning := {"r"}), DoWriteRun("r", Failed, false));
    HalfIsHalfFailed();
  }

  // ---------------------------------------------------------------- resume, then roll back

  lemma {:induction false} WithoutResumeSkips(events: seq<Event>, more: seq<Event>, p: RollbackPlan, kinds: set<string>)
    requires forall e | e in more :: !IsResumeOf(e, p, kinds)
    ensures WithoutResume(events + more, p, kinds) == WithoutResume(events, p, kinds) + more
  {
    if |more| == 0 {
      assert events + more == events;
    } else {
      var front := more[..|more| - 1];
      assert (events + more)[..|events + more| - 1] == events + front;
      forall e | e in front ensures !IsResumeOf(e, p, kinds) {
        assert e in more;
      }
      WithoutResumeSkips(events, front, p, kinds);
      assert more[|more| - 1] in more;
    }
  }

  lemma WithoutResumeDrops(events: seq<Event>, e: Event, p: RollbackPlan, kinds: set<string>)
    requires IsResumeOf(e, p, kinds)
    ensures WithoutResume(events + [e], p, kinds) == WithoutResume(events, p, kinds - {e.kind})
  {
    assert (events + [e])[..|events|] == events;
  }

  function Noted(p: RollbackPlan, kind: string): Event {
    Event(p.session, p.run, kind, Some(p.checkpoint))
  }

  ghost predicate Unrelated(events: seq<Event>, p: RollbackPlan) {
    forall e | e in events :: !IsResumeOf(e, p, RESUME_KINDS)
  }

  /** Exactly the newest pair of resume events is removed; everything before, between and after them stays. */
  lemma ResumeEventsRemoved(before: seq<Event>, between: seq<Event>, later: seq<Event>, p: RollbackPlan)
    requires Unrelated(between, p) && Unrelated(later, p)
    ensures WithoutResume(before + [Noted(p, SESSION_RESUMED)] + between + [Noted(p, RUN_RESUMED)] + later, p,
                          RESUME_KINDS)
            == before + between + later
  {
    var first, second := Noted(p, SESSION_RESUMED), Noted(p, RUN_RESUMED);
    var some := RESUME_KINDS - {RUN_RESUMED};
    WithoutResumeSkips(before + [first] + between + [second], later, p, RESUME_KINDS);
    WithoutResumeDrops(before + [first] + between, second, p, RESUME_KINDS);
    assert SESSION_RESUMED[0] != RUN_RESUMED[0];
    assert SESSION_RESUMED in some;
    forall e | e in between ensures !IsResumeOf(e, p, some) {
      assert !IsResumeOf(e, p, RESUME_KINDS);
    }
    WithoutResumeSkips(before + [first], between, p, some);
    WithoutResumeDrops(before, first, p, some);
    assert some - {SESSION_RESUMED} == {};
    NothingRemains(before, p);
  }

  /** The tables after a resume and the two events it records, other events falling in between. */
  function ResumedAndNoted(db: Db, p: RollbackPlan, owner: Owner, between: seq<Event>, later: seq<Event>): Db
    requires p.checkpoint in db.checkpoints
  {
    var up := Resume(db, p.session, p.run, db.checkpoints[p.checkpoint].todo, owner).db;
    up.(events := db.events + [Noted(p, SESSION_RESUMED)] + between + [Noted(p, RUN_RESUMED)] + later)
  }

  /** What a failed resume reads before undoing itself is the checkpoint and final status it resumed from. */
  lemma PlanRead(db: Db, s: string, r: string, c: string, owner: Owner, between: seq<Event>, later: seq<Event>)
    requires Inv(db) && s in db.sessions && db.sessions[s].latest == Some(c) && c in db.checkpoints
    requires Resume(db, s, r, db.checkpoints[c].todo, owner).reply == Done
    ensures var p := RollbackPlan(s, r, c, db.sessions[s].status);
            ReadRollback(ResumedAndNoted(db, p, owner, between, later), s) == Some(p)
  {
    assert SessionOk(db, s);
  }

  /**
   * Resuming a session and then rolling the resume back puts every status and checkpoint reference and the event log
   * back as they were; only the todo plan keeps the restored snapshot and the session has no active run and no owner.
   */
  lemma ResumeThenRollback(db: Db, s: string, r: string, c: string, owner: Owner, between: seq<Event>,
                           later: seq<Event>)
    requires Inv(db) && s in db.sessions && db.sessions[s].latest == Some(c) && c in db.checkpoints
    requires Resume(db, s, r, db.checkpoints[c].todo, owner).reply == Done
    requires var p := RollbackPlan(s, r, c, db.sessions[s].status); Unrelated(between, p) && Unrelated(later, p)
    ensures var p := RollbackPlan(s, r, c, db.sessions[s].status);
            var undone := ApplyRollback(ResumedAndNoted(db, p, owner, between, later), p).db;
            && undone.runs == db.runs && undone.checkpoints == db.checkpoints
            && undone.sessions == db.sessions[s := db.sessions[s].(activeRun := None, owner := None)]
            && undone.events == db.events + between + later
            && MatchesCurrent(undone.todos, r, db.checkpoints[c].todo)
  {
    var p := RollbackPlan(s, r, c, db.sessions[s].status);
    var noted := ResumedAndNoted(db, p, owner, between, later);
    assert SessionOk(db, s);
    ResumeEventsRemoved(db.events, between, later, p);
    RowsPutBack(db, noted, p, owner);
  }

  lemma RowsPutBack(db: Db, noted: Db, p: RollbackPlan, owner: Owner)
    requires Inv(db) && p.session in db.sessions && p.checkpoint in db.checkpoints
    requires db.sessions[p.session].latest == Some(p.checkpoint) && p.status == db.sessions[p.session].status
    requires Resume(db, p.session, p.run, db.checkpoints[p.checkpoint].todo, owner).reply == Done
    requires noted == Resume(db, p.session, p.run, db.checkpoints[p.checkpoint].todo, owner).db.(events := noted.events)
    ensures var undone := ApplyRollback(noted, p).db;
            && undone.runs == db.runs && undone.checkpoints == db.checkpoints
            && undone.sessions == db.sessions[p.session := db.sessions[p.session].(activeRun := None, owner := None)]
            && MatchesCurrent(undone.todos, p.run, db.checkpoints[p.checkpoint].todo)
  {
    assert SessionOk(db, p.session);
    assert p.run == db.checkpoints[p.checkpoint].run;
  }

  // ---------------------------------------------------------------- todo plans

  /** Some process changes the plan of run `r`: it replaces the items, or another resume puts back another snapshot. */
  predicate ChangesPlan(db: Db, a: Action, r: string, t: TodoSnapshot) {
    match a
    case DoReplaceTodo(q, _) => q == r
    case DoResume(s, q, todo, owner) => q == r && todo != t && Resume(db, s, q, todo, owner).reply == Done
    case _ => false
  }

  ghost predicate PlanLeftAlone(w: World, trace: seq<Action>, r: string, t: TodoSnapshot) {
    forall i | 0 <= i < |trace| :: !ChangesPlan(After(w, trace[..i]).db, trace[i], r, t)
  }

  /**
   * After a successful resume the check against the current plan keeps succeeding, over every interleaving, until some
   * process changes that run's plan.
   */
  lemma RestoredPlanStays(w: World, s: string, r: string, t: TodoSnapshot, owner: Owner, trace: seq<Action>)
    requires Resume(w.db, s, r, t, owner).reply == Done
    requires PlanLeftAlone(Next(w, DoResume(s, r, t, owner)), trace, r, t)
    ensures MatchesCurrent(After(Next(w, DoResume(s, r, t, owner)), trace).db.todos, r, t)
  {
    PlanStays(Next(w, DoResume(s, r, t, owner)), trace, r, t);
  }

  lemma {:induction false} PlanStays(w: World, trace: seq<Action>, r: string, t: TodoSnapshot)
    requires PayloadValid(r, t) && MatchesCurrent(w.db.todos, r, t) && PlanLeftAlone(w, trace, r, t)
    ensures MatchesCurrent(After(w, trace).db.todos, r, t)
  {
    if |trace| > 0 {
      var n := |trace| - 1;
      assert forall i | 0 <= i < n :: trace[..n][..i] == trace[..i];
      PlanStays(w, trace[..n], r, t);
      PlanStep(After(w, trace[..n]).db, trace[n], r, t);
    }
  }

  /** One step leaves the check succeeding exactly when it does not change the plan. */
  lemma PlanStep(db: Db, a: Action, r: string, t: TodoSnapshot)
    requires PayloadValid(r, t) && MatchesCurrent(db.todos, r, t)
    ensures MatchesCurrent(Perform(db, a).db.todos, r, t) <==> !ChangesPlan(db, a, r, t)
  {
  }
}
