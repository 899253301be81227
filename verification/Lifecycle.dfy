/**
 * Session, run and checkpoint rows and the guarded updates on them (persistence/sessions.py, runs.py, checkpoints.py,
 * todo_plans.py and the lifecycle half of runtime/orchestrator.py). One transaction is one function of the tables; an
 * update that matches no row, and a transaction rolled back, leave them as they were.
 */
module Lifecycle {
  import opened Wrappers

  datatype Status = Running | Completed | Failed
  datatype Owner = Owner(pid: int, host: string, token: string)

  datatype SessionRow = SessionRow(
    workspace: string,
    status: Status,
    activeRun: Option<string>,
    latest: Option<string>,
    owner: Option<Owner>,
    startupFailure: bool)

  datatype RunRow = RunRow(session: string, status: Status, latest: Option<string>, startupFailure: bool)

  datatype TodoPlan = TodoPlan(version: int, items: seq<string>)
  datatype PlanDigest = PlanDigest(run: string, version: int, items: seq<string>)
  datatype TodoSnapshot = TodoSnapshot(version: int, items: seq<string>, checksum: PlanDigest)

  datatype CheckpointRow = CheckpointRow(session: string, run: string, status: Status, todo: TodoSnapshot)
  datatype Event = Event(session: string, run: string, kind: string, checkpoint: Option<string>)

  datatype Db = Db(
    sessions: map<string, SessionRow>,
    runs: map<string, RunRow>,
    checkpoints: map<string, CheckpointRow>,
    todos: map<string, TodoPlan>,
    events: seq<Event>)

  /**
   * `Done`: committed. `Refused`: the guard matched no row and that is an answer. `Raised`: an error, after a
   * roll-back.
   */
  datatype Reply = Done | Refused | Raised
  datatype Effect = Effect(db: Db, reply: Reply)

  datatype StaleProof = StaleProof(workspace: string, session: string, run: string, owner: Owner)
  datatype RollbackPlan = RollbackPlan(session: string, run: string, checkpoint: string, status: Status)

  predicate Terminal(s: Status) {
    s != Running
  }

  predicate HasRunning(db: Db, workspace: string) {
    exists s | s in db.sessions :: db.sessions[s].workspace == workspace && db.sessions[s].status == Running
  }

  predicate IsRunning(db: Db, s: string) {
    s in db.sessions && db.sessions[s].status == Running
  }

  predicate RunIsRunning(db: Db, r: string) {
    r in db.runs && db.runs[r].status == Running
  }

  // ---------------------------------------------------------------- todo plans

  function CurrentPlan(todos: map<string, TodoPlan>, run: string): TodoPlan {
    if run in todos then todos[run] else TodoPlan(0, [])
  }

  function SnapshotOf(todos: map<string, TodoPlan>, run: string): TodoSnapshot {
    var p := CurrentPlan(todos, run);
    TodoSnapshot(p.version, p.items, PlanDigest(run, p.version, p.items))
  }

  predicate PayloadValid(run: string, t: TodoSnapshot) {
    t.checksum == PlanDigest(run, t.version, t.items)
  }

  predicate MatchesCurrent(todos: map<string, TodoPlan>, run: string, t: TodoSnapshot) {
    t == SnapshotOf(todos, run)
  }

  function Replaced(todos: map<string, TodoPlan>, run: string, items: seq<string>): map<string, TodoPlan> {
    todos[run := TodoPlan(CurrentPlan(todos, run).version + 1, items)]
  }

  // ---------------------------------------------------------------- single-row operations

  /** The partial unique index allows one running session per workspace. */
  function CreateSession(db: Db, s: string, workspace: string): Effect {
    if s in db.sessions || HasRunning(db, workspace) then Effect(db, Raised)
    else Effect(db.(sessions := db.sessions[s := SessionRow(workspace, Running, None, None, None, false)]), Done)
  }

  function CreateRun(db: Db, s: string, r: string): Effect {
    if r in db.runs || s !in db.sessions then Effect(db, Raised)
    else Effect(db.(runs := db.runs[r := RunRow(s, Running, None, false)]), Done)
  }

  function SetActiveRun(db: Db, s: string, r: string): Effect {
    if s !in db.sessions then Effect(db, Raised)
    else Effect(db.(sessions := db.sessions[s := db.sessions[s].(activeRun := Some(r))]), Done)
  }

  function RecordOwner(db: Db, s: string, owner: Owner): Effect {
    if s !in db.sessions then Effect(db, Raised)
    else if db.sessions[s].status != Running then Effect(db, Refused)
    else Effect(db.(sessions := db.sessions[s := db.sessions[s].(owner := Some(owner))]), Done)
  }

  function ReleaseOwnership(db: Db, s: string, token: string): Effect {
    if s in db.sessions && Terminal(db.sessions[s].status) && db.sessions[s].owner.Some?
        && db.sessions[s].owner.value.token == token
    then Effect(db.(sessions := db.sessions[s := db.sessions[s].(owner := None)]), Done)
    else Effect(db, Refused)
  }

  /** The session's own transition is guarded by its status in the update itself. */
  function MarkSessionTerminal(db: Db, s: string, status: Status, startup: bool): Effect {
    if !IsRunning(db, s) then Effect(db, Raised)
    else
      var row := db.sessions[s].(status := status, activeRun := None, latest := None, startupFailure := startup);
      Effect(db.(sessions := db.sessions[s := row]), Done)
  }

  /** The run's transition writes whatever row is there: its status was looked at before, in another statement. */
  function WriteRunTerminal(db: Db, r: string, status: Status, startup: bool): Effect {
    if r !in db.runs then Effect(db, Raised)
    else Effect(db.(runs := db.runs[r := db.runs[r].(status := status, latest := None, startupFailure := startup)]),
                Done)
  }

  // ---------------------------------------------------------------- transactions

  /** Both rows end in the checkpoint's status and name it. */
  function Ended(db: Db, s: string, r: string, c: string, status: Status): Db
    requires s in db.sessions && r in db.runs
  {
    db.(sessions := db.sessions[s := db.sessions[s].(status := status, activeRun := None, latest := Some(c),
                                                     startupFailure := false)],
        runs := db.runs[r := db.runs[r].(status := status, latest := Some(c), startupFailure := false)])
  }

  /** Writes a terminal checkpoint and ends run and session with it, all or nothing. */
  function Terminalize(db: Db, s: string, r: string, c: string, status: Status, todo: TodoSnapshot): Effect {
    if !(RunIsRunning(db, r) && db.runs[r].session == s && IsRunning(db, s)) then Effect(db, Raised)
    else if c in db.checkpoints || !Terminal(status) || !PayloadValid(r, todo) then Effect(db, Raised)
    else Effect(Ended(db, s, r, c, status).(checkpoints := db.checkpoints[c := CheckpointRow(s, r, status, todo)]),
                Done)
  }

  /** The proof still describes the session row exactly, owner token included. */
  predicate StillOwned(db: Db, p: StaleProof) {
    && IsRunning(db, p.session)
    && db.sessions[p.session].workspace == p.workspace
    && db.sessions[p.session].activeRun == Some(p.run)
    && db.sessions[p.session].owner == Some(p.owner)
  }

  const STALE_CLOSED := "stale_fail_closed"

  function FailClose(db: Db, p: StaleProof, c: Option<string>, todo: TodoSnapshot): Effect {
    if !StillOwned(db, p) then Effect(db, Refused)
    else if !(RunIsRunning(db, p.run) && db.runs[p.run].session == p.session) then Effect(db, Raised)
    else if c.Some? && (c.value in db.checkpoints || !PayloadValid(p.run, todo)) then Effect(db, Raised)
    else
      var session := db.sessions[p.session].(status := Failed, activeRun := None, latest := c, startupFailure := false,
                                             owner := None);
      var run := db.runs[p.run].(status := Failed, latest := c, startupFailure := false);
      Effect(Db(
          db.sessions[p.session := session],
          db.runs[p.run := run],
          if c.Some? then db.checkpoints[c.value := CheckpointRow(p.session, p.run, Failed, todo)] else db.checkpoints,
          db.todos,
          db.events + [Event(p.session, p.run, STALE_CLOSED, None)]), Done)
  }

  predicate RunResumable(db: Db, s: string, r: string) {
    && r in db.runs && db.runs[r].session == s && Terminal(db.runs[r].status)
    && !db.runs[r].startupFailure && db.runs[r].latest.Some?
  }

  predicate SessionResumable(db: Db, s: string) {
    && s in db.sessions && Terminal(db.sessions[s].status)
    && !db.sessions[s].startupFailure && db.sessions[s].latest.Some?
  }

  /** Restores the todo plan and revives run and session, all or nothing. */
  function Resume(db: Db, s: string, r: string, todo: TodoSnapshot, owner: Owner): Effect {
    if !PayloadValid(r, todo) || !RunResumable(db, s, r) || !SessionResumable(db, s) then Effect(db, Raised)
    else if HasRunning(db, db.sessions[s].workspace) then Effect(db, Raised)
    else
      var session := db.sessions[s].(status := Running, activeRun := Some(r), owner := Some(owner));
      Effect(db.(sessions := db.sessions[s := session],
                 runs := db.runs[r := db.runs[r].(status := Running)],
                 todos := db.todos[r := TodoPlan(todo.version, todo.items)]), Done)
  }

  /** What a failed resume reads before it undoes itself; nothing when any piece is missing. */
  function ReadRollback(db: Db, s: string): Option<RollbackPlan> {
    if !IsRunning(db, s) || db.sessions[s].activeRun.None? || db.sessions[s].latest.None? then None
    else if db.sessions[s].latest.value !in db.checkpoints then None
    else
      var c := db.sessions[s].latest.value;
      if !Terminal(db.checkpoints[c].status) then None
      else Some(RollbackPlan(s, db.sessions[s].activeRun.value, c, db.checkpoints[c].status))
  }

  predicate RollsRun(db: Db, p: RollbackPlan) {
    RunIsRunning(db, p.run) && db.runs[p.run].session == p.session
  }

  predicate RollsSession(db: Db, p: RollbackPlan) {
    IsRunning(db, p.session) && db.sessions[p.session].activeRun == Some(p.run)
  }

  /** Each row is put back only if its guard still matches; neither row count is looked at. */
  function ApplyRollback(db: Db, p: RollbackPlan): Effect {
    Effect(db.(
        runs := if RollsRun(db, p) then db.runs[p.run := db.runs[p.run].(status := p.status)] else db.runs,
        sessions :=
          if RollsSession(db, p)
          then db.sessions[p.session := db.sessions[p.session].(status := p.status, activeRun := None, owner := None)]
          else db.sessions,
        events := WithoutResume(db.events, p, RESUME_KINDS)), Done)
  }

  // ---------------------------------------------------------------- resume events

  const SESSION_RESUMED := "session_resumed"
  const RUN_RESUMED := "run_resumed"
  const RESUME_KINDS := {SESSION_RESUMED, RUN_RESUMED}

  predicate IsResumeOf(e: Event, p: RollbackPlan, kinds: set<string>) {
    e.session == p.session && e.run == p.run && e.kind in kinds && e.checkpoint == Some(p.checkpoint)
  }

  /** Drops, newest first, one event of each remaining kind that names the plan's checkpoint. */
  function WithoutResume(events: seq<Event>, p: RollbackPlan, kinds: set<string>): seq<Event> {
    if |events| == 0 then []
    else
      var front, e := events[..|events| - 1], events[|events| - 1];
      if IsResumeOf(e, p, kinds) then WithoutResume(front, p, kinds - {e.kind})
      else WithoutResume(front, p, kinds) + [e]
  }

  // ---------------------------------------------------------------- the database object

  class RuntimeDatabase {
    var sessions: map<string, SessionRow>
    var runs: map<string, RunRow>
    var checkpoints: map<string, CheckpointRow>
    var todos: map<string, TodoPlan>
    var events: seq<Event>

    ghost function State(): Db
      reads this
    {
      Db(sessions, runs, checkpoints, todos, events)
    }

    constructor ()
      ensures State() == Db(map[], map[], map[], map[], [])
    {
      sessions, runs, checkpoints, todos, events := map[], map[], map[], map[], [];
    }

    method InsertSession(s: string, workspace: string) returns (reply: Reply)
      modifies this
      ensures Effect(State(), reply) == CreateSession(old(State()), s, workspace)
    {
      if s in sessions || exists t | t in sessions ::
          sessions[t].workspace == workspace && sessions[t].status == Running {
        return Raised;
      }
      sessions := sessions[s := SessionRow(workspace, Running, None, None, None, false)];
      reply := Done;
    }

    method InsertRun(s: string, r: string) returns (reply: Reply)
      modifies this
      ensures Effect(State(), reply) == CreateRun(old(State()), s, r)
    {
      if r in runs || s !in sessions {
        return Raised;
      }
      runs := runs[r := RunRow(s, Running, None, false)];
      reply := Done;
    }

    method UpdateActiveRun(s: string, r: string) returns (reply: Reply)
      modifies this
      ensures Effect(State(), reply) == SetActiveRun(old(State()), s, r)
    {
      if s !in sessions {
        return Raised;
      }
      sessions := sessions[s := sessions[s].(activeRun := Some(r))];
      reply := Done;
    }

    method UpdateOwner(s: string, owner: Owner) returns (reply: Reply)
      modifies this
      ensures Effect(State(), reply) == RecordOwner(old(State()), s, owner)
    {
      if s !in sessions {
        return Raised;
      }
      if sessions[s].status != Running {
        return Refused;
      }
      sessions := sessions[s := sessions[s].(owner := Some(owner))];
      reply := Done;
    }

    method ReleaseOwner(s: string, token: string) returns (reply: Reply)
      modifies this
      ensures Effect(State(), reply) == ReleaseOwnership(old(State()), s, token)
    {
      if s !in sessions || sessions[s].status == Running || sessions[s].owner.None?
          || sessions[s].owner.value.token != token {
        return Refused;
      }
      sessions := sessions[s := sessions[s].(owner := None)];
      reply := Done;
    }

    method EndSession(s: string, status: Status, startup: bool) returns (reply: Reply)
      modifies this
      ensures Effect(State(), reply) == MarkSessionTerminal(old(State()), s, status, startup)
    {
      if s !in sessions || sessions[s].status != Running {
        return Raised;
      }
      sessions := sessions[s := sessions[s].(status := status, activeRun := None, latest := None,
                                             startupFailure := startup)];
      reply := Done;
    }

    method EndRun(r: string, status: Status, startup: bool) returns (reply: Reply)
      modifies this
      ensures Effect(State(), reply) == WriteRunTerminal(old(State()), r, status, startup)
    {
      if r !in runs {
        return Raised;
      }
      runs := runs[r := runs[r].(status := status, latest := None, startupFailure := startup)];
      reply := Done;
    }

    /** `UPDATE runs … WHERE run_id = ? AND status = 'running'`, answering the row count. */
    method EndRunWithCheckpoint(r: string, status: Status, c: string) returns (count: nat)
      modifies this`runs
      ensures count == if RunIsRunning(old(State()), r) then 1 else 0
      ensures count == 1
              ==> runs == old(runs)[r := old(runs)[r].(status := status, latest := Some(c), startupFailure := false)]
      ensures count == 0 ==> runs == old(runs)
    {
      if r !in runs || runs[r].status != Running {
        return 0;
      }
      runs := runs[r := runs[r].(status := status, latest := Some(c), startupFailure := false)];
      count := 1;
    }

    method EndSessionWithCheckpoint(s: string, status: Status, c: string) returns (count: nat)
      modifies this`sessions
      ensures count == if IsRunning(old(State()), s) then 1 else 0
      ensures count == 1 ==>
                sessions == old(sessions)[s := old(sessions)[s].(status := status, activeRun := None,
                                                                 latest := Some(c), startupFailure := false)]
      ensures count == 0 ==> sessions == old(sessions)
    {
      if s !in sessions || sessions[s].status != Running {
        return 0;
      }
      sessions := sessions[s := sessions[s].(status := status, activeRun := None, latest := Some(c),
                                             startupFailure := false)];
      count := 1;
    }

    method TerminalizeWithCheckpoint(s: string, r: string, c: string, status: Status, todo: TodoSnapshot)
      returns (reply: Reply)
      modifies this
      ensures Effect(State(), reply) == Terminalize(old(State()), s, r, c, status, todo)
    {
      if r !in runs || runs[r].session != s || s !in sessions || status == Running || !PayloadValid(r, todo) {
        return Raised;
      }
      var savedSessions, savedRuns, savedCheckpoints := sessions, runs, checkpoints;
      if c in checkpoints {
        return Raised;
      }
      checkpoints := checkpoints[c := CheckpointRow(s, r, status, todo)];
      var count := EndRunWithCheckpoint(r, status, c);
      if count == 1 {
        count := EndSessionWithCheckpoint(s, status, c);
      }
      if count != 1 {
        sessions, runs, checkpoints := savedSessions, savedRuns, savedCheckpoints;
        return Raised;
      }
      reply := Done;
    }

    method FailCloseStaleOwner(p: StaleProof, c: Option<string>, todo: TodoSnapshot) returns (reply: Reply)
      modifies this
      ensures Effect(State(), reply) == FailClose(old(State()), p, c, todo)
    {
      var savedSessions, savedRuns := sessions, runs;
      if p.session !in sessions || sessions[p.session].workspace != p.workspace || sessions[p.session].status != Running
         || sessions[p.session].activeRun != Some(p.run) || sessions[p.session].owner != Some(p.owner) {
        return Refused;
      }
      sessions := sessions[p.session := sessions[p.session].(
        status := Failed, activeRun := None, latest := c, startupFailure := false, owner := None)];
      if p.run !in runs || runs[p.run].session != p.session || runs[p.run].status != Running {
        sessions := savedSessions;
        return Raised;
      }
      runs := runs[p.run := runs[p.run].(status := Failed, latest := c, startupFailure := false)];
      if c.Some? {
        if c.value in checkpoints || !PayloadValid(p.run, todo) {
          sessions, runs := savedSessions, savedRuns;
          return Raised;
        }
        checkpoints := checkpoints[c.value := CheckpointRow(p.session, p.run, Failed, todo)];
      }
      events := events + [Event(p.session, p.run, STALE_CLOSED, None)];
      reply := Done;
    }

    method ReviveSameLineage(s: string, r: string, todo: TodoSnapshot, owner: Owner) returns (reply: Reply)
      modifies this
      ensures Effect(State(), reply) == Resume(old(State()), s, r, todo, owner)
    {
      if todo.checksum != PlanDigest(r, todo.version, todo.items) {
        return Raised;
      }
      var savedTodos, savedRuns := todos, runs;
      todos := todos[r := TodoPlan(todo.version, todo.items)];
      if r !in runs || runs[r].session != s || runs[r].status == Running || runs[r].startupFailure
          || runs[r].latest.None? {
        todos := savedTodos;
        return Raised;
      }
      runs := runs[r := runs[r].(status := Running)];
      if s !in sessions || sessions[s].status == Running || sessions[s].startupFailure || sessions[s].latest.None?
         || exists t | t in sessions ::
         sessions[t].workspace == sessions[s].workspace && sessions[t].status == Running {
        todos, runs := savedTodos, savedRuns;
        return Raised;
      }
      sessions := sessions[s := sessions[s].(status := Running, activeRun := Some(r), owner := Some(owner))];
      reply := Done;
    }

    method RollbackFailedResume(p: RollbackPlan)
      modifies this
      ensures Effect(State(), Done) == ApplyRollback(old(State()), p)
    {
      if p.run in runs && runs[p.run].session == p.session && runs[p.run].status == Running {
        runs := runs[p.run := runs[p.run].(status := p.status)];
      }
      if p.session in sessions && sessions[p.session].status == Running
          && sessions[p.session].activeRun == Some(p.run) {
        sessions := sessions[p.session := sessions[p.session].(status := p.status, activeRun := None, owner := None)];
      }
      DeleteResumeEvents(p);
    }

    /**
     * Walks the event log from its newest entry and deletes one event of each resume kind that names the checkpoint.
     */
    method DeleteResumeEvents(p: RollbackPlan)
      modifies this`events
      ensures events == WithoutResume(old(events), p, RESUME_KINDS)
    {
      var remaining, kept, i := RESUME_KINDS, [], |events|;
      assert events[..i] == events;
      while i > 0 && remaining != {}
        invariant 0 <= i <= |events| && remaining <= RESUME_KINDS
        invariant WithoutResume(events, p, RESUME_KINDS) == WithoutResume(events[..i], p, remaining) + kept
      {
        i := i - 1;
        var e := events[i];
        assert events[..i + 1][..i] == events[..i];
        if e.session == p.session && e.run == p.run && e.kind in remaining && e.checkpoint == Some(p.checkpoint) {
          remaining := remaining - {e.kind};
        } else {
          kept := [e] + kept;
        }
      }
      NothingRemains(events[..i], p);
      events := events[..i] + kept;
    }
  }

  lemma {:induction false} NothingRemains(events: seq<Event>, p: RollbackPlan)
    ensures WithoutResume(events, p, {}) == events
  {
    if |events| > 0 {
      NothingRemains(events[..|events| - 1], p);
    }
  }
}
