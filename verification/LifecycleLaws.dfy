/** What every interleaving of the lifecycle operations keeps, where it can break, and what owner tokens fence off. */
module LifecycleLaws {
  import opened Wrappers
  import opened Lifecycle

  // ---------------------------------------------------------------- the invariant

  /** No two running sessions share a workspace; a session has at most one run; a run's session exists. */
  ghost predicate Structure(db: Db) {
    && (forall s, t | IsRunning(db, s) && IsRunning(db, t) ::
        db.sessions[s].workspace == db.sessions[t].workspace ==> s == t)
    && (forall r | r in db.runs :: db.runs[r].session in db.sessions)
    && (forall r, q | r in db.runs && q in db.runs && db.runs[r].session == db.runs[q].session :: r == q)
  }

  predicate OwnRun(db: Db, s: string, r: string) {
    r in db.runs && db.runs[r].session == s
  }

  /** The checkpoint a session names is that session's and its run's, with a terminal status. */
  predicate NamesCheckpoint(db: Db, s: string, c: string) {
    && c in db.checkpoints && db.checkpoints[c].session == s && Terminal(db.checkpoints[c].status)
    && OwnRun(db, s, db.checkpoints[c].run)
  }

  /** A run in the same final state as its session and their common checkpoint. */
  predicate EndedWith(db: Db, r: string, status: Status, c: string)
    requires r in db.runs && c in db.checkpoints
  {
    db.runs[r].status == status && db.runs[r].latest == Some(c) && db.checkpoints[c].status == status
  }

  ghost predicate SessionOk(db: Db, s: string)
    requires s in db.sessions
  {
    var row := db.sessions[s];
    && (row.activeRun.Some? ==> OwnRun(db, s, row.activeRun.value))
    && (row.latest.Some? ==> NamesCheckpoint(db, s, row.latest.value))
    && (row.latest.Some? && Terminal(row.status) ==>
          EndedWith(db, db.checkpoints[row.latest.value].run, row.status, row.latest.value))
    && (row.status == Running ==> forall r | OwnRun(db, s, r) && db.runs[r].status == Running ::
        db.runs[r].latest == row.latest)
  }

  ghost predicate Inv(db: Db) {
    && Structure(db)
    && forall s | s in db.sessions :: SessionOk(db, s)
  }

  // ---------------------------------------------------------------- the steps of all processes

  datatype Action =
    | DoCreateSession(s: string, workspace: string)
    | DoCreateRun(s: string, r: string)
    | DoSetActiveRun(s: string, r: string)
    | DoRecordOwner(s: string, owner: Owner)
    | DoRelease(s: string, token: string)
    | DoReadRun(r: string)
    | DoWriteRun(r: string, status: Status, startup: bool)
    | DoEndSession(s: string, status: Status, startup: bool)
    | DoTerminalize(s: string, r: string, c: string, status: Status, todo: TodoSnapshot)
    | DoFailClose(proof: StaleProof, checkpoint: Option<string>, todo: TodoSnapshot)
    | DoResume(s: string, r: string, todo: TodoSnapshot, owner: Owner)
    | DoRecordEvent(e: Event)
    | DoReadRollback(s: string)
    | DoRollback(plan: RollbackPlan)
    | DoReplaceTodo(r: string, items: seq<string>)

  /** The tables, the owner tokens handed out, and what some process has read and not yet acted on. */
  datatype World = World(db: Db, tokens: set<string>, seenRunning: set<string>, plans: set<RollbackPlan>)

  const START := World(Db(map[], map[], map[], map[], []), {}, {}, {})

  function Perform(db: Db, a: Action): Effect {
    match a
    case DoCreateSession(s, workspace) => CreateSession(db, s, workspace)
    case DoCreateRun(s, r) => CreateRun(db, s, r)
    case DoSetActiveRun(s, r) => SetActiveRun(db, s, r)
    case DoRecordOwner(s, owner) => RecordOwner(db, s, owner)
    case DoRelease(s, token) => ReleaseOwnership(db, s, token)
    case DoReadRun(r) => Effect(db, if RunIsRunning(db, r) then Done else Raised)
    case DoWriteRun(r, status, startup) => WriteRunTerminal(db, r, status, startup)
    case DoEndSession(s, status, startup) => MarkSessionTerminal(db, s, status, startup)
    case DoTerminalize(s, r, c, status, todo) => Terminalize(db, s, r, c, status, todo)
    case DoFailClose(proof, c, todo) => FailClose(db, proof, c, todo)
    case DoResume(s, r, todo, owner) => Resume(db, s, r, todo, owner)
    case DoRecordEvent(e) => Effect(db.(events := db.events + [e]), Done)
    case DoReadRollback(s) => Effect(db, Done)
    case DoRollback(plan) => ApplyRollback(db, plan)
    case DoReplaceTodo(r, items) => Effect(db.(todos := Replaced(db.todos, r, items)), Done)
  }

  function TokensOf(a: Action): set<string> {
    match a
    case DoRecordOwner(_, owner) => {owner.token}
    case DoResume(_, _, _, owner) => {owner.token}
    case _ => {}
  }

  function Next(w: World, a: Action): World {
    World(
      Perform(w.db, a).db,
      w.tokens + TokensOf(a),
      if a.DoReadRun? && RunIsRunning(w.db, a.r) then w.seenRunning + {a.r} else w.seenRunning,
      if a.DoReadRollback? && ReadRollback(w.db, a.s).Some? then w.plans + {ReadRollback(w.db, a.s).value} else w.plans)
  }

  /**
   * What the programs themselves guarantee about the steps they take: a session's run is created once and only it
   * becomes active, rows are written after the read they depend on, final states are final, and owner tokens are new.
   */
  predicate Allowed(w: World, a: Action) {
    match a
    case DoCreateRun(s, r) => forall q | q in w.db.runs :: w.db.runs[q].session != s
    case DoSetActiveRun(s, r) => OwnRun(w.db, s, r)
    case DoWriteRun(r, status, _) => r in w.seenRunning && Terminal(status)
    case DoEndSession(_, status, _) => Terminal(status)
    case DoRollback(plan) => plan in w.plans
    case DoRecordOwner(_, owner) => owner.token !in w.tokens
    case DoResume(_, _, _, owner) => owner.token !in w.tokens
    case _ => true
  }

  // ---------------------------------------------------------------- the two steps that can break it

  /** The write lands on the run of a session that meanwhile ended with a checkpoint. */
  predicate WritesOverCheckpoint(db: Db, r: string) {
    && r in db.runs && db.runs[r].session in db.sessions
    && Terminal(db.sessions[db.runs[r].session].status)
    && db.sessions[db.runs[r].session].latest.Some?
  }

  /** The run is still running and the session's checkpoint records the status the plan read. */
  predicate PlanStillFits(db: Db, p: RollbackPlan, c: string)
    requires c in db.checkpoints && p.run in db.runs
  {
    && db.checkpoints[c].status == p.status
    && (db.runs[p.run].status == Running || (db.runs[p.run].status == p.status && db.runs[p.run].latest == Some(c)))
  }

  predicate RollsOverOther(db: Db, p: RollbackPlan) {
    && RollsSession(db, p) && db.sessions[p.session].latest.Some?
    && db.sessions[p.session].latest.value in db.checkpoints && p.run in db.runs
    && !PlanStillFits(db, p, db.sessions[p.session].latest.value)
  }

  predicate Clobbers(db: Db, a: Action) {
    match a
    case DoWriteRun(r, _, _) => WritesOverCheckpoint(db, r)
    case DoRollback(plan) => RollsOverOther(db, plan)
    case _ => false
  }

  /** Every plan a process holds aims at a terminal status. */
  ghost predicate PlansTerminal(w: World) {
    forall p | p in w.plans :: Terminal(p.status)
  }

  // ---------------------------------------------------------------- one step at a time

  /** Rows of other sessions and their runs and checkpoints are as before. */
  ghost predicate Frame(db: Db, after: Db, s: string) {
    && (forall t | t != s :: t in db.sessions <==> t in after.sessions)
    && (forall t | t != s && t in db.sessions :: after.sessions[t] == db.sessions[t])
    && (forall r :: r in db.runs ==> r in after.runs && after.runs[r].session == db.runs[r].session)
    && (forall r | r in after.runs && after.runs[r].session != s :: r in db.runs && after.runs[r] == db.runs[r])
    && (forall c | c in db.checkpoints :: c in after.checkpoints && after.checkpoints[c] == db.checkpoints[c])
  }

  lemma OthersStayOk(db: Db, after: Db, s: string)
    requires Inv(db) && Frame(db, after, s)
    ensures forall t | t in after.sessions && t != s :: SessionOk(after, t)
  {
    forall t | t in after.sessions && t != s ensures SessionOk(after, t) {
      assert SessionOk(db, t);
    }
  }

  /** A step confined to one session's rows keeps the invariant exactly when it leaves that session in order. */
  lemma ConfinedStep(db: Db, after: Db, s: string)
    requires Inv(db) && Frame(db, after, s) && Structure(after) && s in after.sessions
    ensures Inv(after) <==> SessionOk(after, s)
  {
    OthersStayOk(db, after, s);
  }

  lemma SameTables(db: Db, after: Db)
    requires Inv(db) && after.sessions == db.sessions && after.runs == db.runs && after.checkpoints == db.checkpoints
    ensures Inv(after)
  {
    assert forall s, t | IsRunning(after, s) && IsRunning(after, t) :: IsRunning(db, s) && IsRunning(db, t);
    forall s | s in after.sessions ensures SessionOk(after, s) {
      assert SessionOk(db, s);
    }
  }

  lemma CreateKeeps(db: Db, s: string, workspace: string)
    requires Inv(db)
    ensures Inv(CreateSession(db, s, workspace).db)
  {
    var after := CreateSession(db, s, workspace).db;
    if after != db {
      forall t | IsRunning(after, t) && t != s ensures IsRunning(db, t) && after.sessions[t].workspace != workspace {
        assert after.sessions[t] == db.sessions[t];
      }
      ConfinedStep(db, after, s);
    }
  }

  lemma CreateRunKeeps(db: Db, s: string, r: string)
    requires Inv(db) && forall q | q in db.runs :: db.runs[q].session != s
    ensures Inv(CreateRun(db, s, r).db)
  {
    var after := CreateRun(db, s, r).db;
    if after != db {
      assert SessionOk(db, s);
      assert forall x, y | IsRunning(after, x) && IsRunning(after, y) :: IsRunning(db, x) && IsRunning(db, y);
      ConfinedStep(db, after, s);
    }
  }

  /** Changing one session row to a state that is not newly running. */
  lemma SessionUpdateKeeps(db: Db, s: string, row: SessionRow)
    requires Inv(db) && s in db.sessions
    requires row.workspace == db.sessions[s].workspace && (row.status == Running ==> db.sessions[s].status == Running)
    ensures var after := db.(sessions := db.sessions[s := row]);
            Structure(after) && Frame(db, after, s) && (Inv(after) <==> SessionOk(after, s))
  {
    var after := db.(sessions := db.sessions[s := row]);
    forall t | IsRunning(after, t) ensures IsRunning(db, t) && after.sessions[t].workspace == db.sessions[t].workspace {
    }
    ConfinedStep(db, after, s);
  }

  lemma SessionStepsKeep(db: Db, a: Action)
    requires Inv(db)
    requires (a.DoSetActiveRun? && OwnRun(db, a.s, a.r)) || a.DoRecordOwner? || a.DoRelease?
             || (a.DoEndSession? && Terminal(a.status))
    ensures Inv(Perform(db, a).db)
  {
    var after := Perform(db, a).db;
    if a.s in db.sessions {
      assert SessionOk(db, a.s);
      if after != db {
        SessionUpdateKeeps(db, a.s, after.sessions[a.s]);
      }
    }
  }

  /** Changing a session's row and its run's row, and adding checkpoints, without making the session newly running. */
  lemma PairUpdate(db: Db, after: Db, s: string, r: string)
    requires Inv(db) && s in db.sessions && OwnRun(db, s, r)
    requires s in after.sessions && after.sessions == db.sessions[s := after.sessions[s]]
    requires r in after.runs && after.runs == db.runs[r := after.runs[r]] && after.runs[r].session == s
    requires forall c | c in db.checkpoints :: c in after.checkpoints && after.checkpoints[c] == db.checkpoints[c]
    requires after.sessions[s].workspace == db.sessions[s].workspace
    requires after.sessions[s].status == Running ==>
               db.sessions[s].status == Running || !HasRunning(db, db.sessions[s].workspace)
    ensures Structure(after) && Frame(db, after, s) && (Inv(after) <==> SessionOk(after, s))
  {
    forall t | IsRunning(after, t) && t != s
      ensures IsRunning(db, t) && after.sessions[t] == db.sessions[t]
      ensures after.sessions[s].status == Running ==> after.sessions[t].workspace != after.sessions[s].workspace
    {
      assert after.sessions[t] == db.sessions[t];
      assert db.sessions[t].workspace == db.sessions[s].workspace && !IsRunning(db, s)
             ==> HasRunning(db, db.sessions[s].workspace);
    }
    ConfinedStep(db, after, s);
  }

  lemma TerminalizeKeeps(db: Db, s: string, r: string, c: string, status: Status, todo: TodoSnapshot)
    requires Inv(db)
    ensures Inv(Terminalize(db, s, r, c, status, todo).db)
  {
    var after := Terminalize(db, s, r, c, status, todo).db;
    if Terminalize(db, s, r, c, status, todo).reply == Done {
      assert SessionOk(db, s);
      PairUpdate(db, after, s, r);
    }
  }

  lemma FailCloseEnds(db: Db, p: StaleProof, c: Option<string>, todo: TodoSnapshot)
    requires Inv(db) && FailClose(db, p, c, todo).reply == Done
    ensures SessionOk(FailClose(db, p, c, todo).db, p.session)
  {
    assert SessionOk(db, p.session);
  }

  lemma FailCloseKeeps(db: Db, p: StaleProof, c: Option<string>, todo: TodoSnapshot)
    requires Inv(db)
    ensures Inv(FailClose(db, p, c, todo).db)
  {
    if FailClose(db, p, c, todo).reply == Done {
      FailCloseEnds(db, p, c, todo);
      PairUpdate(db, FailClose(db, p, c, todo).db, p.session, p.run);
    }
  }

  lemma ResumeKeeps(db: Db, s: string, r: string, todo: TodoSnapshot, owner: Owner)
    requires Inv(db)
    ensures Inv(Resume(db, s, r, todo, owner).db)
  {
    var after := Resume(db, s, r, todo, owner).db;
    if Resume(db, s, r, todo, owner).reply == Done {
      assert SessionOk(db, s);
      PairUpdate(db, after, s, r);
    }
  }

  /** The unguarded run write keeps the invariant exactly when the session has not meanwhile ended with a checkpoint. */
  lemma WriteRunKeepsIff(db: Db, r: string, status: Status, startup: bool)
    requires Inv(db) && Terminal(status)
    ensures Inv(WriteRunTerminal(db, r, status, startup).db) <==> !WritesOverCheckpoint(db, r)
  {
    if r in db.runs {
      var after := WriteRunTerminal(db, r, status, startup).db;
      var s := db.runs[r].session;
      assert SessionOk(db, s);
      PairUpdate(db, after, s, r);
    }
  }

  /** A rollback keeps the invariant exactly when its plan still fits the rows it finds. */
  lemma RollbackKeepsIff(db: Db, p: RollbackPlan)
    requires Inv(db) && Terminal(p.status)
    ensures Inv(ApplyRollback(db, p).db) <==> !RollsOverOther(db, p)
  {
    var after := ApplyRollback(db, p).db;
    if p.session in db.sessions {
      assert SessionOk(db, p.session);
    }
    if RollsSession(db, p) {
      assert OwnRun(db, p.session, p.run);
      PairUpdate(db, after, p.session, p.run);
    } else if RollsRun(db, p) {
      PairUpdate(db, after, p.session, p.run);
    } else {
      SameTables(db, after);
    }
  }

  /** Every step the programs can take keeps the invariant exactly when it is not one of the two overwriting ones. */
  lemma StepKeepsIff(w: World, a: Action)
    requires Inv(w.db) && PlansTerminal(w) && Allowed(w, a)
    ensures Inv(Next(w, a).db) <==> !Clobbers(w.db, a)
    ensures PlansTerminal(Next(w, a))
  {
    match a
    case DoCreateSession(s, workspace) => CreateKeeps(w.db, s, workspace);
    case DoCreateRun(s, r) => CreateRunKeeps(w.db, s, r);
    case DoTerminalize(s, r, c, status, todo) => TerminalizeKeeps(w.db, s, r, c, status, todo);
    case DoFailClose(proof, c, todo) => FailCloseKeeps(w.db, proof, c, todo);
    case DoResume(s, r, todo, owner) => ResumeKeeps(w.db, s, r, todo, owner);
    case DoWriteRun(r, status, startup) => WriteRunKeepsIff(w.db, r, status, startup);
    case DoRollback(plan) => RollbackKeepsIff(w.db, plan);
    case DoSetActiveRun(_, _) => SessionStepsKeep(w.db, a);
    case DoRecordOwner(_, _) => SessionStepsKeep(w.db, a);
    case DoRelease(_, _) => SessionStepsKeep(w.db, a);
    case DoEndSession(_, _, _) => SessionStepsKeep(w.db, a);
    case _ => SameTables(w.db, Next(w, a).db);
  }

  // ---------------------------------------------------------------- whole runs

  function After(w: World, trace: seq<Action>): World {
    if |trace| == 0 then w else Next(After(w, trace[..|trace| - 1]), trace[|trace| - 1])
  }

  ghost predicate AllAllowed(w: World, trace: seq<Action>) {
    forall i | 0 <= i < |trace| :: Allowed(After(w, trace[..i]), trace[i])
  }

  ghost predicate NoClobber(w: World, trace: seq<Action>) {
    forall i | 0 <= i < |trace| :: !Clobbers(After(w, trace[..i]).db, trace[i])
  }

  lemma PrefixAllowed(w: World, trace: seq<Action>, n: nat)
    requires n <= |trace|
    ensures AllAllowed(w, trace) ==> AllAllowed(w, trace[..n])
    ensures NoClobber(w, trace) ==> NoClobber(w, trace[..n])
  {
    assert forall i | 0 <= i < n :: trace[..n][..i] == trace[..i];
  }

  lemma StartOk()
    ensures Inv(START.db) && PlansTerminal(START)
  {
  }

  // ---------------------------------------------------------------- what holds without exception

  ghost predicate OneRunning(db: Db) {
    forall s, t | IsRunning(db, s) && IsRunning(db, t) && db.sessions[s].workspace == db.sessions[t].workspace :: s == t
  }

  /** Whatever any process does, in whatever state it believes the tables to be. */
  lemma OneRunningStays(db: Db, a: Action)
    requires OneRunning(db)
    ensures OneRunning(Perform(db, a).db)
  {
    var after := Perform(db, a).db;
    forall s, t | IsRunning(after, s) && IsRunning(after, t)
        && after.sessions[s].workspace == after.sessions[t].workspace
      ensures s == t
    {
      assert IsRunning(db, s) || !HasRunning(db, after.sessions[s].workspace);
      assert IsRunning(db, t) || !HasRunning(db, after.sessions[t].workspace);
    }
  }

  /** No interleaving at all, overwriting or not, puts two running sessions into one workspace. */
  lemma {:induction false} OneRunningThroughout(w: World, trace: seq<Action>)
    requires OneRunning(w.db)
    ensures OneRunning(After(w, trace).db)
  {
    if |trace| > 0 {
      OneRunningThroughout(w, trace[..|trace| - 1]);
      OneRunningStays(After(w, trace[..|trace| - 1]).db, trace[|trace| - 1]);
    }
  }

  lemma SessionsOfRunsStay(db: Db, a: Action)
    requires forall r | r in db.runs :: db.runs[r].session in db.sessions
    ensures forall r | r in Perform(db, a).db.runs :: Perform(db, a).db.runs[r].session in Perform(db, a).db.sessions
  {
  }

  /** No step moves a run to another session, and only creating one adds a run. */
  lemma RunsStay(db: Db, a: Action)
    ensures forall r | r in Perform(db, a).db.runs && !(a.DoCreateRun? && r == a.r) ::
              r in db.runs && Perform(db, a).db.runs[r].session == db.runs[r].session
    ensures forall s | s in db.sessions :: s in Perform(db, a).db.sessions
  {
  }

  lemma OneRunStays(w: World, a: Action)
    requires Allowed(w, a)
             && forall r, q | r in w.db.runs && q in w.db.runs && w.db.runs[r].session == w.db.runs[q].session :: r == q
    ensures var after := Perform(w.db, a).db;
            forall r, q | r in after.runs && q in after.runs && after.runs[r].session == after.runs[q].session :: r == q
  {
    RunsStay(w.db, a);
  }

  lemma StructureStays(w: World, a: Action)
    requires Structure(w.db) && Allowed(w, a)
    ensures Structure(Next(w, a).db)
  {
    OneRunningStays(w.db, a);
    SessionsOfRunsStay(w.db, a);
    OneRunStays(w, a);
  }

  /** Late writes and late rollbacks included, a session keeps its one run and a run its session. */
  lemma {:induction false} StructureThroughout(w: World, trace: seq<Action>)
    requires Structure(w.db) && AllAllowed(w, trace)
    ensures Structure(After(w, trace).db)
  {
    if |trace| > 0 {
      var n := |trace| - 1;
      PrefixAllowed(w, trace, n);
      StructureThroughout(w, trace[..n]);
      StructureStays(After(w, trace[..n]), trace[n]);
    }
  }

  /** Over every interleaving in which no step overwrites another process's ending, the invariant holds throughout. */
  lemma {:induction false} TraceKeeps(w: World, trace: seq<Action>)
    requires Inv(w.db) && PlansTerminal(w) && AllAllowed(w, trace) && NoClobber(w, trace)
    ensures Inv(After(w, trace).db) && PlansTerminal(After(w, trace))
  {
    if |trace| > 0 {
      var n := |trace| - 1;
      PrefixAllowed(w, trace, n);
      TraceKeeps(w, trace[..n]);
      StepKeepsIff(After(w, trace[..n]), trace[n]);
    }
  }

  /** The invariant holds throughout a run exactly when no step of it overwrites another process's ending. */
  lemma TraceKeepsIff(w: World, trace: seq<Action>)
    requires Inv(w.db) && PlansTerminal(w) && AllAllowed(w, trace)
    ensures (forall i | 0 <= i <= |trace| :: Inv(After(w, trace[..i]).db)) <==> NoClobber(w, trace)
  {
    if NoClobber(w, trace) {
      forall i | 0 <= i <= |trace| ensures Inv(After(w, trace[..i]).db) {
        PrefixAllowed(w, trace, i);
        TraceKeeps(w, trace[..i]);
      }
    }
    if forall i | 0 <= i <= |trace| :: Inv(After(w, trace[..i]).db) {
      forall i | 0 <= i < |trace| ensures !Clobbers(After(w, trace[..i]).db, trace[i]) {
        PlansStayTerminal(w, trace[..i]);
        NoClobberHere(w, trace, i);
      }
    }
  }

  lemma NoClobberHere(w: World, trace: seq<Action>, i: nat)
    requires i < |trace| && AllAllowed(w, trace) && PlansTerminal(After(w, trace[..i]))
    requires Inv(After(w, trace[..i]).db) && Inv(After(w, trace[..i + 1]).db)
    ensures !Clobbers(After(w, trace[..i]).db, trace[i])
  {
    StepKeepsIff(After(w, trace[..i]), trace[i]);
    assert trace[..i + 1][..i] == trace[..i];
  }

  lemma {:induction false} PlansStayTerminal(w: World, trace: seq<Action>)
    requires PlansTerminal(w)
    ensures PlansTerminal(After(w, trace))
  {
    if |trace| > 0 {
      PlansStayTerminal(w, trace[..|trace| - 1]);
    }
  }

  /** A run write that still finds its run running, as a status guard in the update would ensure, overwrites nothing. */
  lemma GuardedRunWriteIsSafe(db: Db, r: string)
    requires Inv(db) && RunIsRunning(db, r)
    ensures !WritesOverCheckpoint(db, r)
  {
    assert SessionOk(db, db.runs[r].session);
  }

  /** What the invariant says in the terms of a caller. */
  lemma InvariantMeans(db: Db, s: string, c: string)
    requires Inv(db) && s in db.sessions && Terminal(db.sessions[s].status) && db.sessions[s].latest == Some(c)
    ensures c in db.checkpoints
    ensures var r := db.checkpoints[c].run;
            && OwnRun(db, s, r)
            && Terminal(db.runs[r].status) && db.runs[r].latest == Some(c)
            && db.runs[r].status == db.sessions[s].status == db.checkpoints[c].status
  {
    assert SessionOk(db, s);
  }

  // ---------------------------------------------------------------- the two overwrites do happen

  const PROMPT_TODO := TodoSnapshot(0, [], PlanDigest("r", 0, []))
  const PROMPT_SESSION := SessionRow("w", Running, Some("r"), None, None, false)
  const PROMPT_RUN := RunRow("s", Running, None, false)
  const PROMPT_CHECKPOINT := CheckpointRow("s", "r", Completed, PROMPT_TODO)

  function OneSession(session: SessionRow, run: RunRow, checkpoints: map<string, CheckpointRow>,
                      todos: map<string, TodoPlan>): Db {
    Db(map["s" := session], map["r" := run], checkpoints, todos, [])
  }

  ghost predicate Reaches(trace: seq<Action>, w: World) {
    AllAllowed(START, trace) && After(START, trace) == w
  }

  lemma Extend(trace: seq<Action>, w: World, a: Action)
    requires Reaches(trace, w) && Allowed(w, a)
    ensures Reaches(trace + [a], Next(w, a))
  {
    var all := trace + [a];
    forall i | 0 <= i < |all| ensures Allowed(After(START, all[..i]), all[i]) {
      assert i < |trace| ==> all[..i] == trace[..i];
      assert i == |trace| ==> all[..i] == trace;
    }
    assert all[..|all| - 1] == trace;
  }

  const STARTING := [DoCreateSession("s", "w"), DoCreateRun("s", "r"), DoSetActiveRun("s", "r")]

  const FRESH_SESSION := World(Db(map["s" := PROMPT_SESSION.(activeRun := None)], map[], map[], map[], []), {}, {}, {})
  const FRESH_RUN := World(OneSession(PROMPT_SESSION.(activeRun := None), PROMPT_RUN, map[], map[]), {}, {}, {})
  const STARTED := World(OneSession(PROMPT_SESSION, PROMPT_RUN, map[], map[]), {}, {}, {})

  lemma StartingSteps()
    ensures Next(START, DoCreateSession("s", "w")) == FRESH_SESSION
    ensures Allowed(FRESH_SESSION, DoCreateRun("s", "r")) && Next(FRESH_SESSION, DoCreateRun("s", "r")) == FRESH_RUN
    ensures Allowed(FRESH_RUN, DoSetActiveRun("s", "r")) && Next(FRESH_RUN, DoSetActiveRun("s", "r")) == STARTED
  {
  }

  lemma Started()
    ensures Reaches(STARTING, STARTED)
  {
    StartingSteps();
    var t1: seq<Action> := [DoCreateSession("s", "w")];
    assert Reaches([], START) && [] + t1 == t1;
    Extend([], START, DoCreateSession("s", "w"));
    Extend(t1, FRESH_SESSION, DoCreateRun("s", "r"));
    Extend(t1 + [DoCreateRun("s", "r")], FRESH_RUN, DoSetActiveRun("s", "r"));
    assert STARTING == t1 + [DoCreateRun("s", "r")] + [DoSetActiveRun("s", "r")];
  }

  /** A process sees its run running, another ends the session with a checkpoint, the first then fails the run. */
  lemma LateFailureBreaks()
    ensures exists w: World :: !Inv(w.db) && Reaches(
        STARTING + [DoReadRun("r")] + [DoTerminalize("s", "r", "c", Completed, PROMPT_TODO)]
            + [DoWriteRun("r", Failed, false)], w)
  {
    Started();
    var w3 := STARTED;
    Extend(STARTING, w3, DoReadRun("r"));
    var w4 := w3.(seenRunning := {"r"});
    assert Next(w3, DoReadRun("r")) == w4;
    var end := DoTerminalize("s", "r", "c", Completed, PROMPT_TODO);
    Extend(STARTING + [DoReadRun("r")], w4, end);
    LateFailureEnd(w4, end);
    Extend(STARTING + [DoReadRun("r")] + [end], Next(w4, end), DoWriteRun("r", Failed, false));
  }

  lemma LateFailureEnd(w: World, end: Action)
    requires w == STARTED.(seenRunning := {"r"})
    requires end == DoTerminalize("s", "r", "c", Completed, PROMPT_TODO)
    ensures Allowed(Next(w, end), DoWriteRun("r", Failed, false))
    ensures !Inv(Next(Next(w, end), DoWriteRun("r", Failed, false)).db)
  {
    var db := Next(Next(w, end), DoWriteRun("r", Failed, false)).db;
    assert db.sessions["s"].latest == Some("c") && db.runs["r"].latest == None;
    assert !SessionOk(db, "s");
  }

  const REVIVE := DoResume("s", "r", PROMPT_TODO, Owner(1, "h", "t"))
  const PLAN := RollbackPlan("s", "r", "c", Completed)

  /**
   * A resumed session's run is failed first, and before its session follows another process rolls the resume back:
   * the session goes back to its checkpoint, which the run no longer names.
   */
  lemma LateRollbackBreaks()
    ensures exists w: World :: !Inv(w.db) && Reaches(
        STARTING + [DoTerminalize("s", "r", "c", Completed, PROMPT_TODO)] + [REVIVE] + [DoReadRun("r")]
            + [DoReadRollback("s")]
        + [DoWriteRun("r", Failed, false)] + [DoRollback(PLAN)], w)
  {
    Started();
    var w3 := STARTED;
    var end := DoTerminalize("s", "r", "c", Completed, PROMPT_TODO);
    Extend(STARTING, w3, end);
    LateRollbackResume(w3, end);
    Extend(STARTING + [end], Next(w3, end), REVIVE);
    var w5 := Next(Next(w3, end), REVIVE);
    var trace := STARTING + [end] + [REVIVE];
    Extend(trace, w5, DoReadRun("r"));
    Extend(trace + [DoReadRun("r")], Next(w5, DoReadRun("r")), DoReadRollback("s"));
    var w7 := Next(Next(w5, DoReadRun("r")), DoReadRollback("s"));
    LateRollbackEnd(w5, w7);
    Extend(trace + [DoReadRun("r")] + [DoReadRollback("s")], w7, DoWriteRun("r", Failed, false));
    Extend(trace + [DoReadRun("r")] + [DoReadRollback("s")] + [DoWriteRun("r", Failed, false)],
           Next(w7, DoWriteRun("r", Failed, false)), DoRollback(PLAN));
  }

  const RESUMED_DB := OneSession(SessionRow("w", Running, Some("r"), Some("c"), Some(Owner(1, "h", "t")), false),
                                 RunRow("s", Running, Some("c"), false), map["c" := PROMPT_CHECKPOINT],
                                 map["r" := TodoPlan(0, [])])

  lemma LateRollbackResume(w: World, end: Action)
    requires w == STARTED
    requires end == DoTerminalize("s", "r", "c", Completed, PROMPT_TODO)
    ensures Allowed(Next(w, end), REVIVE)
    ensures Next(Next(w, end), REVIVE) == World(RESUMED_DB, {"t"}, {}, {})
  {
    var db := Next(w, end).db;
    assert db == OneSession(PROMPT_SESSION.(status := Completed, activeRun := None, latest := Some("c")),
                            RunRow("s", Completed, Some("c"), false), map["c" := PROMPT_CHECKPOINT], map[]);
    assert Resume(db, "s", "r", PROMPT_TODO, Owner(1, "h", "t")).db == RESUMED_DB;
  }

  lemma LateRollbackEnd(w: World, read: World)
    requires w == World(RESUMED_DB, {"t"}, {}, {})
    requires read == Next(Next(w, DoReadRun("r")), DoReadRollback("s"))
    ensures Allowed(read, DoWriteRun("r", Failed, false))
    ensures Allowed(Next(read, DoWriteRun("r", Failed, false)), DoRollback(PLAN))
    ensures !Inv(Next(Next(read, DoWriteRun("r", Failed, false)), DoRollback(PLAN)).db)
  {
    assert ReadRollback(RESUMED_DB, "s") == Some(PLAN);
    assert read == World(RESUMED_DB, {"t"}, {"r"}, {PLAN});
    var db := Next(Next(read, DoWriteRun("r", Failed, false)), DoRollback(PLAN)).db;
    assert db.sessions["s"].latest == Some("c") && db.runs["r"].latest == None;
    assert !SessionOk(db, "s");
  }
}
