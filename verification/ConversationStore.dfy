/** The store of one run's durable conversation: a row table, a projection row, and the operations on them. */
module ConversationStore {
  import opened Wrappers
  import opened Seqs
  import opened Retry
  import opened ConversationLog
  import opened ConversationLaws

  /**
   * A database error during one attempt at an append, `after` of its statements having started: 0 is the read of the
   * highest index, 1 the first insert.
   */
  datatype Fault = Fault(busy: bool, after: nat)
  type Faults = nat -> Option<Fault>

  const MAX_BUSY_RETRIES := 3

  /** Some attempt succeeds, and all before it (at most three) failed on a busy database before their first insert. */
  ghost predicate Commits(faults: Faults) {
    exists k | 0 <= k <= MAX_BUSY_RETRIES :: CommitsAt(faults, k)
  }

  ghost predicate CommitsAt(faults: Faults, k: nat) {
    faults(k) == None && forall j | 0 <= j < k :: faults(j) == Some(Fault(true, 0))
  }

  method FindPrepareError(artifacts: Artifacts, messages: seq<Append>) returns (e: Option<LogError>)
    ensures e == FirstPrepareError(artifacts, messages)
  {
    e := None;
    for i := 0 to |messages|
      invariant e == FirstPrepareError(artifacts, messages[..i])
    {
      assert messages[..i + 1][..i] == messages[..i];
      if e == None {
        e := PrepareError(artifacts, messages[i]);
      }
    }
    assert messages[..|messages|] == messages;
  }

  method SelectRows(known: map<int, Row>, highWatermark: int, refs: seq<Ref>) returns (r: Result<seq<Row>, LogError>)
    ensures r == RowsForRefs(known, highWatermark, refs)
  {
    r := Ok([]);
    for i := 0 to |refs|
      invariant r == RowsForRefs(known, highWatermark, refs[..i])
    {
      assert refs[..i + 1][..i] == refs[..i];
      if r.Ok? {
        if refs[i].Malformed? {
          r := Err(BadRef);
        } else {
          var own := SelectIndexes(known, highWatermark, RefIndexes(refs[i]));
          r := if own.Err? then own else Ok(r.value + own.value);
        }
      }
    }
    assert refs[..|refs|] == refs;
  }

  method SelectIndexes(known: map<int, Row>, highWatermark: int, indexes: seq<int>)
      returns (r: Result<seq<Row>, LogError>)
    ensures r == RowsAt(known, highWatermark, indexes)
  {
    r := Ok([]);
    for i := 0 to |indexes|
      invariant r == RowsAt(known, highWatermark, indexes[..i])
    {
      assert indexes[..i + 1][..i] == indexes[..i];
      if r.Ok? {
        if indexes[i] < 1 || indexes[i] > highWatermark {
          r := Err(RefOutsideCut);
        } else if indexes[i] !in known {
          r := Err(RefMissingRow);
        } else {
          r := Ok(r.value + [known[indexes[i]]]);
        }
      }
    }
    assert indexes[..|indexes|] == indexes;
  }

  method IndexRows(rows: seq<Row>) returns (known: map<int, Row>)
    ensures known == ByIndex(rows)
  {
    known := map[];
    for i := 0 to |rows|
      invariant known == ByIndex(rows[..i])
    {
      assert rows[..i + 1][..i] == rows[..i];
      known := known[rows[i].index := rows[i]];
    }
    assert rows[..|rows|] == rows;
  }

  method ValidateRows(artifacts: Artifacts, rows: seq<Row>) returns (e: Option<LogError>)
    ensures e == RowsError(artifacts, rows)
  {
    e := None;
    for i := 0 to |rows|
      invariant e == FirstRowError(artifacts, rows[..i])
    {
      assert rows[..i + 1][..i] == rows[..i];
      if e == None {
        e := RowError(artifacts, rows[i]);
      }
    }
    assert rows[..|rows|] == rows;
    if e.Some? {
      return;
    }
    var order, groups := GroupBy(GroupKey, rows);
    e := ValidateGroups(rows, order, groups);
    if e == None {
      e := PairingError(rows);
    }
  }

  method ValidateGroups(ghost rows: seq<Row>, order: seq<string>, groups: map<string, seq<Row>>)
      returns (e: Option<LogError>)
    requires GroupedBy(GroupKey, rows, groups) && forall k :: k in order <==> k in groups
    ensures e == FirstGroupError(rows, order)
  {
    e := None;
    for i := 0 to |order|
      invariant e == FirstGroupError(rows, order[..i])
    {
      assert order[..i + 1][..i] == order[..i];
      assert order[i] in order;
      if e == None {
        e := GroupError(groups[order[i]]);
      }
    }
    assert order[..|order|] == order;
  }

  lemma GroupAppended(runId: string, artifacts: Artifacts, log: Log, groups: seq<Group>,
                      sessionId: string, messages: seq<Append>, reason: string)
    requires ValidLog(runId, artifacts, log) && AllAccepted(artifacts, groups) && log.rows == RowsOf(artifacts, groups)
    requires AppendError(artifacts, messages, reason) == None
    ensures var after, grown := Appended(runId, artifacts, log, sessionId, messages),
            groups + [Group(sessionId, messages)];
            && ValidLog(runId, artifacts, after)
            && AllAccepted(artifacts, grown)
            && after.rows == RowsOf(artifacts, grown)
            && after.rows[|log.rows|..] == MakeRows(sessionId, artifacts, messages, |log.rows|)
  {
    AppendKeepsLog(runId, artifacts, log, sessionId, messages);
    RowsOfStep(runId, artifacts, log, AppendGroup(sessionId, messages, reason), groups);
  }

  class ConversationStore {
    const runId: string
    const artifacts: Artifacts
    var rows: seq<Row>
    var projection: Option<Projection>
    ghost var groups: seq<Group>

    ghost function State(): Log
      reads this
    {
      Log(rows, projection)
    }

    /** The log is the concatenation of the accepted appends, and the projection fits it. */
    ghost predicate Valid()
      reads this
    {
      && ValidLog(runId, artifacts, State())
      && AllAccepted(artifacts, groups)
      && rows == RowsOf(artifacts, groups)
    }

    constructor (runId: string, artifacts: Artifacts)
      ensures Valid() && this.runId == runId && this.artifacts == artifacts
      ensures State() == EMPTY && groups == []
    {
      this.runId, this.artifacts := runId, artifacts;
      rows, projection, groups := [], None, [];
      new;
      EmptyValid(runId, artifacts);
    }

    method GetProjection() returns (p: Projection)
      ensures p == CurrentProjection(runId, State())
    {
      p := if projection.Some? then projection.value else Projection(0, [], ProjectionDigest(runId, 0, [], []));
    }

    /** Inserts the first `count` rows of a group. */
    method InsertRows(sessionId: string, messages: seq<Append>, count: nat)
      requires RowsOk(artifacts, rows) && count <= |messages|
      modifies this`rows
      ensures rows == old(rows) + MakeRows(sessionId, artifacts, messages, |old(rows)|)[..count]
    {
      ByIndexMeaning(artifacts, rows);
      ghost var before := rows;
      var start := HighestIndex(rows);
      for i := 0 to count
        invariant rows == before + MakeRows(sessionId, artifacts, messages, start)[..i]
      {
        rows := rows + [Row(sessionId, start + 1 + i, CLOSED, messages[i], DigestOf(artifacts, messages[i]))];
      }
    }

    /** Extends the previous projection by every index of the log that it lacks. */
    method ProjectAppend()
      modifies this`projection
      ensures projection == Some(ProjectionAfterAppend(runId, rows, CurrentProjection(runId, old(State()))))
    {
      var previous := GetProjection();
      var refs := previous.refs + Map(IndexRef, Unseen(|rows|, Indexes(previous.refs)));
      var known := IndexRows(rows);
      var selected := SelectRows(known, |rows|, refs);
      var chosen := if selected.Ok? then selected.value else [];
      projection := Some(Projection(|rows|, refs, ProjectionDigest(runId, |rows|, refs, chosen)));
    }

    /** One transaction: all rows and the new projection, or, after any database error, nothing. */
    method TryAppend(sessionId: string, messages: seq<Append>, fault: Option<Fault>) returns (committed: bool)
      requires RowsOk(artifacts, rows)
      modifies this`rows, this`projection
      ensures committed <==> fault == None
      ensures committed ==> State() == Appended(runId, artifacts, old(State()), sessionId, messages)
      ensures !committed ==> State() == old(State())
    {
      var savedRows, savedProjection := rows, projection;
      if fault.Some? {
        if fault.value.after > 0 {
          InsertRows(sessionId, messages, if fault.value.after > |messages| then |messages| else fault.value.after - 1);
        }
        rows, projection := savedRows, savedProjection;
        return false;
      }
      InsertRows(sessionId, messages, |messages|);
      assert MakeRows(sessionId, artifacts, messages, |savedRows|)[..|messages|]
          == MakeRows(sessionId, artifacts, messages, |savedRows|);
      ProjectAppend();
      committed := true;
    }

    /** Repeats the transaction while the database was busy before its first insert and the rule allows it. */
    method CommitGroup(sessionId: string, messages: seq<Append>, faults: Faults) returns (committed: bool)
      requires RowsOk(artifacts, rows)
      modifies this`rows, this`projection
      ensures committed <==> Commits(faults)
      ensures committed ==> State() == Appended(runId, artifacts, old(State()), sessionId, messages)
      ensures !committed ==> State() == old(State())
    {
      ghost var before := State();
      var attempts := 0;
      while true
        invariant State() == before && 0 <= attempts <= MAX_BUSY_RETRIES
        invariant forall j | 0 <= j < attempts :: faults(j) == Some(Fault(true, 0))
        decreases MAX_BUSY_RETRIES - attempts
      {
        var fault := faults(attempts);
        committed := TryAppend(sessionId, messages, fault);
        if committed {
          assert CommitsAt(faults, attempts);
          return;
        }
        var decision := Decide(DefaultRegistry(), SQLITE_BUSY, RetryMetadata(None, None),
                               Facts(false, false, Some(fault.value.after > 0)));
        if fault.value.busy && decision.Allowed? && attempts < decision.spec.maxAttempts {
          attempts := attempts + 1;
        } else {
          assert forall k | 0 <= k <= MAX_BUSY_RETRIES :: !CommitsAt(faults, k);
          return;
        }
      }
    }

    /**
     * Appends one closed group. A refused group and an append that never commits leave the store unchanged; an append
     * commits exactly when an attempt succeeds after at most three busy failures that came before any insert.
     */
    method AppendClosedGroup(sessionId: string, messages: seq<Append>, reason: string, faults: Faults)
        returns (r: Result<seq<Row>, LogError>)
      requires Valid()
      modifies this
      ensures Valid()
      ensures r.Ok? <==> AppendError(artifacts, messages, reason) == None && Commits(faults)
      ensures r.Ok? ==> State() == Appended(runId, artifacts, old(State()), sessionId, messages)
      ensures r.Ok? ==> r.value == MakeRows(sessionId, artifacts, messages, |old(rows)|)
      ensures r.Ok? ==> groups == old(groups) + [Group(sessionId, messages)]
      ensures r.Err? ==> State() == old(State()) && groups == old(groups)
      ensures r.Err? && r.error != AppendFailed ==> AppendError(artifacts, messages, reason) == Some(r.error)
    {
      if |messages| == 0 {
        return Err(NoMessages);
      }
      if reason !in REASONS {
        return Err(BadReason);
      }
      var e := FindPrepareError(artifacts, messages);
      if e.Some? {
        return Err(e.value);
      }
      e := ClosedGroupError(messages);
      if e.Some? {
        return Err(e.value);
      }
      ghost var before := State();
      var start := |rows|;
      var committed := CommitGroup(sessionId, messages, faults);
      if !committed {
        return Err(AppendFailed);
      }
      GroupAppended(runId, artifacts, before, groups, sessionId, messages, reason);
      groups := groups + [Group(sessionId, messages)];
      r := Ok(rows[start..]);
    }

    method OverwriteProjection(refs: seq<Ref>, reason: string) returns (r: Result<Projection, LogError>)
      requires Valid()
      modifies this`projection
      ensures Valid()
      ensures r.Ok? <==> reason in REASONS && RefsOk(rows, refs)
      ensures r.Ok? ==> State() == Overwritten(runId, old(State()), refs) && projection == Some(r.value)
      ensures r.Err? ==> State() == old(State())
    {
      OverwriteKeepsLog(runId, artifacts, State(), refs, reason);
      if reason !in REASONS {
        return Err(BadReason);
      }
      ByIndexMeaning(artifacts, rows);
      var highest := HighestIndex(rows);
      var known := IndexRows(rows);
      var selected := SelectRows(known, highest, refs);
      if selected.Err? {
        return Err(selected.error);
      }
      projection := Some(Projection(highest, refs, ProjectionDigest(runId, highest, refs, selected.value)));
      r := Ok(projection.value);
    }

    method ValidateFactCut(h: int) returns (r: Result<FactCut, LogError>)
      ensures r == CutVerdict(runId, artifacts, rows, h)
    {
      if h < 0 {
        return Err(NegativeCut);
      }
      var included := UpToIndex(rows, h);
      if h == 0 {
        return if |included| > 0 then Err(EmptyCutHasRows) else Ok(FactCut(0, 0, OfFacts(runId, [])));
      }
      if |included| != h {
        return Err(MissingRows);
      }
      if Map(RowIndex, included) != Span(1, h) {
        return Err(NotContiguous);
      }
      var e := ValidateRows(artifacts, included);
      if e.Some? {
        return Err(e.value);
      }
      r := Ok(FactCut(h, |included|, OfFacts(runId, Map(Fact, included))));
    }

    method ValidateProjectionSnapshot(p: Projection) returns (e: Option<LogError>)
      ensures e == SnapshotVerdict(runId, artifacts, rows, p)
    {
      var known := IndexRows(rows);
      var selected := SelectRows(known, p.highWatermark, p.refs);
      if selected.Err? {
        return Some(selected.error);
      }
      if exists r | r in selected.value :: r.digest != DigestOf(artifacts, r.item) {
        return Some(BadChecksum);
      }
      e := if p.digest != ProjectionDigest(runId, p.highWatermark, p.refs, selected.value) then Some(BadChecksum)
           else None;
    }

    /** Outside explicit resume, the process must hold exactly the projection's messages in its order. */
    method ValidateAlignment(processIndexes: seq<int>, explicitResume: bool) returns (e: Option<LogError>)
      requires Valid()
      ensures e == None <==> explicitResume || processIndexes == Indexes(CurrentProjection(runId, State()).refs)
    {
      if explicitResume {
        return None;
      }
      var p := GetProjection();
      e := if processIndexes != Indexes(p.refs) then Some(ProjectionDrift) else None;
    }
  }
}
