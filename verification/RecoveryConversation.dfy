/**
 * The conversation part of a terminal checkpoint (persistence/checkpoints.py) and the process conversation restored
 * from it (runtime/orchestrator.py): a fact cut of the log together with a snapshot of its projection.
 */
module RecoveryConversation {
  import opened Wrappers
  import opened Seqs
  import opened ConversationLog
  import opened ConversationLaws

  datatype Manifest = Manifest(cut: FactCut, snapshot: Projection, reason: string)
  datatype ManifestError = InvalidCut(cut: LogError) | CutMismatch | InvalidSnapshot(snapshot: LogError) | ZeroMessages

  const ZERO_MESSAGE_REASONS := {"user_exit"}

  function EmptySnapshot(runId: string): Projection {
    Projection(0, [], ProjectionDigest(runId, 0, [], []))
  }

  function ZeroMessageError(m: Manifest): Option<ManifestError> {
    if m.cut.highest == 0 && m.reason !in ZERO_MESSAGE_REASONS then Some(ZeroMessages) else None
  }

  function BuildManifest(runId: string, artifacts: Artifacts, log: Log, reason: string): Result<Manifest, ManifestError>
  {
    var highest := HighestIndex(log.rows);
    var cut := CutVerdict(runId, artifacts, log.rows, highest);
    if cut.Err? then Err(InvalidCut(cut.error))
    else
      var m := Manifest(cut.value,
                        if highest == 0 then EmptySnapshot(runId) else CurrentProjection(runId, log), reason);
      if ZeroMessageError(m).Some? then Err(ZeroMessageError(m).value) else Ok(m)
  }

  /** What validating the checkpoint against the log it is read back with finds wrong. */
  function ManifestVerdict(runId: string, artifacts: Artifacts, log: Log, m: Manifest): Option<ManifestError> {
    var cut := CutVerdict(runId, artifacts, log.rows, m.cut.highest);
    if cut.Err? then Some(InvalidCut(cut.error))
    else if m.cut != cut.value then Some(CutMismatch)
    else
      var snapshot := SnapshotVerdict(runId, artifacts, log.rows, m.snapshot);
      if snapshot.Some? then Some(InvalidSnapshot(snapshot.value)) else ZeroMessageError(m)
  }

  datatype RestoredMessage = RestoredMessage(seqNo: int, item: Append, durableIndex: int)

  function RestoredAt(rows: seq<Row>, indexes: seq<int>): seq<RestoredMessage>
    requires Within(|rows|, indexes)
  {
    seq(|indexes|, k requires 0 <= k < |indexes| => RestoredMessage(k + 1, rows[indexes[k] - 1].item, indexes[k]))
  }

  /** Rebuilds the process conversation from a snapshot, numbering messages from 1 in projection order. */
  method RestoreConversation(runId: string, artifacts: Artifacts, log: Log, p: Projection)
      returns (r: Result<seq<RestoredMessage>, LogError>)
    requires RowsOk(artifacts, log.rows) && p.highWatermark <= |log.rows|
    ensures r.Ok? <==> SnapshotVerdict(runId, artifacts, log.rows, p) == None
    ensures r.Ok? ==> Within(|log.rows|, Indexes(p.refs)) && r.value == RestoredAt(log.rows, Indexes(p.refs))
    ensures r.Err? ==> SnapshotVerdict(runId, artifacts, log.rows, p) == Some(r.error)
  {
    var verdict := SnapshotVerdict(runId, artifacts, log.rows, p);
    if verdict.Some? {
      return Err(verdict.value);
    }
    SnapshotInside(runId, artifacts, log.rows, p);
    ByIndexMeaning(artifacts, log.rows);
    var restored := RestoreRows(log.rows, ByIndex(log.rows), Indexes(p.refs));
    r := Ok(restored);
  }

  method RestoreRows(ghost rows: seq<Row>, known: map<int, Row>, indexes: seq<int>)
      returns (restored: seq<RestoredMessage>)
    requires Known(rows, known) && Within(|rows|, indexes)
    ensures restored == RestoredAt(rows, indexes)
  {
    restored := [];
    for k := 0 to |indexes|
      invariant |restored| == k
      invariant forall j | 0 <= j < k :: restored[j] == RestoredMessage(j + 1, rows[indexes[j] - 1].item, indexes[j])
    {
      restored := restored + [RestoredMessage(k + 1, known[indexes[k]].item, indexes[k])];
    }
  }

  lemma SnapshotInside(runId: string, artifacts: Artifacts, rows: seq<Row>, p: Projection)
    requires RowsOk(artifacts, rows) && p.highWatermark <= |rows| && SnapshotVerdict(runId, artifacts, rows, p) == None
    ensures Within(|rows|, Indexes(p.refs))
  {
    ByIndexMeaning(artifacts, rows);
    RowsForRefsMeaning(rows, ByIndex(rows), p.highWatermark, p.refs);
    var indexes := Indexes(p.refs);
    assert Within(p.highWatermark, indexes);
  }

  // -------------------------------------------------------- later rows change nothing about an earlier cut or snapshot

  /** A cut's verdict, facts included, is the same in every longer log. */
  lemma CutIsStable(runId: string, artifacts: Artifacts, rows: seq<Row>, more: seq<Row>, h: int)
    requires RowsOk(artifacts, rows) && RowsOk(artifacts, more) && rows <= more && h <= |rows|
    ensures CutVerdict(runId, artifacts, more, h) == CutVerdict(runId, artifacts, rows, h)
  {
    UpToIndexIsPrefix(artifacts, rows, h);
    UpToIndexIsPrefix(artifacts, more, h);
    assert h > 0 ==> rows[..h] == more[..h];
  }

  /** A valid snapshot stays valid in every longer log and restores the same messages. */
  lemma SnapshotIsStable(runId: string, artifacts: Artifacts, rows: seq<Row>, more: seq<Row>, p: Projection)
    requires RowsOk(artifacts, rows) && RowsOk(artifacts, more) && rows <= more && p.highWatermark <= |rows|
    requires SnapshotVerdict(runId, artifacts, rows, p) == None
    ensures SnapshotVerdict(runId, artifacts, more, p) == None
    ensures Within(|rows|, Indexes(p.refs)) && Within(|more|, Indexes(p.refs))
    ensures RestoredAt(more, Indexes(p.refs)) == RestoredAt(rows, Indexes(p.refs))
  {
    ByIndexMeaning(artifacts, rows);
    ByIndexMeaning(artifacts, more);
    RowsForRefsMeaning(rows, ByIndex(rows), p.highWatermark, p.refs);
    RowsForRefsMeaning(more, ByIndex(more), p.highWatermark, p.refs);
    var indexes := Indexes(p.refs);
    assert Within(p.highWatermark, indexes);
    assert PickRows(rows, indexes) == PickRows(more, indexes);
  }

  /** A valid projection always passes as a snapshot of its own log. */
  lemma ProjectionPasses(runId: string, artifacts: Artifacts, rows: seq<Row>, p: Projection)
    requires RowsOk(artifacts, rows) && ProjectionOk(runId, rows, p)
    ensures SnapshotVerdict(runId, artifacts, rows, p) == None
  {
    ProjectionBuilt(runId, artifacts, rows, p.refs);
    var selected := PickRows(rows, Indexes(p.refs));
    forall r | r in selected ensures r.digest == DigestOf(artifacts, r.item) {
      var k :| 0 <= k < |selected| && selected[k] == r;
      assert RowError(artifacts, rows[Indexes(p.refs)[k] - 1]) == None;
    }
  }

  lemma EmptyPasses(runId: string, artifacts: Artifacts, rows: seq<Row>)
    ensures SnapshotVerdict(runId, artifacts, rows, EmptySnapshot(runId)) == None
  {
  }

  /**
   * A terminal checkpoint can be written exactly when the cut at the end of the log is accepted, or the log may be
   * empty.
   */
  lemma WhenManifestBuilds(runId: string, artifacts: Artifacts, log: Log, reason: string)
    requires ValidLog(runId, artifacts, log)
    ensures BuildManifest(runId, artifacts, log, reason).Ok?
            <==> if |log.rows| == 0 then reason in ZERO_MESSAGE_REASONS
                 else CutVerdict(runId, artifacts, log.rows, |log.rows|).Ok?
    ensures BuildManifest(runId, artifacts, log, reason).Ok? ==>
              var m := BuildManifest(runId, artifacts, log, reason).value;
              m.cut.highest == m.snapshot.highWatermark == |log.rows|
              && Ok(m.cut) == CutVerdict(runId, artifacts, log.rows, |log.rows|)
              && m.snapshot == (if |log.rows| == 0 then EmptySnapshot(runId) else CurrentProjection(runId, log))
              && ZeroMessageError(m) == None
  {
    ByIndexMeaning(artifacts, log.rows);
    CutOfLog(runId, artifacts, log.rows, |log.rows|);
    CutHeight(runId, artifacts, log.rows, |log.rows|);
  }

  lemma CutHeight(runId: string, artifacts: Artifacts, rows: seq<Row>, h: int)
    ensures CutVerdict(runId, artifacts, rows, h).Ok? ==> CutVerdict(runId, artifacts, rows, h).value.highest == h
  {
  }

  lemma ManifestPieces(runId: string, artifacts: Artifacts, log: Log, m: Manifest)
    requires CutVerdict(runId, artifacts, log.rows, m.cut.highest) == Ok(m.cut)
    requires SnapshotVerdict(runId, artifacts, log.rows, m.snapshot) == None && ZeroMessageError(m) == None
    ensures ManifestVerdict(runId, artifacts, log, m) == None
  {
  }

  /**
   * The conversation part of a terminal checkpoint is valid when written, and stays valid over any later run of appends
   * and projection overwrites; what is restored from it then is what would have been restored at once: messages
   * numbered 1, 2, …, carrying exactly the indexes of the snapshot.
   */
  lemma CheckpointStaysValid(runId: string, artifacts: Artifacts, log: Log, reason: string, ops: seq<Op>)
    requires ValidLog(runId, artifacts, log) && BuildManifest(runId, artifacts, log, reason).Ok?
    ensures var m := BuildManifest(runId, artifacts, log, reason).value;
            var later := Run(runId, artifacts, log, ops);
            && ManifestVerdict(runId, artifacts, later, m) == None
            && Within(|log.rows|, Indexes(m.snapshot.refs)) && Within(|later.rows|, Indexes(m.snapshot.refs))
            && RestoredAt(later.rows, Indexes(m.snapshot.refs)) == RestoredAt(log.rows, Indexes(m.snapshot.refs))
  {
    var m := BuildManifest(runId, artifacts, log, reason).value;
    var later := Run(runId, artifacts, log, ops);
    RunKeepsLog(runId, artifacts, log, ops);
    WhenManifestBuilds(runId, artifacts, log, reason);
    if |log.rows| == 0 {
      EmptyPasses(runId, artifacts, log.rows);
    } else {
      ProjectionPasses(runId, artifacts, log.rows, m.snapshot);
    }
    CutIsStable(runId, artifacts, log.rows, later.rows, m.cut.highest);
    SnapshotIsStable(runId, artifacts, log.rows, later.rows, m.snapshot);
    ManifestPieces(runId, artifacts, later, m);
  }

  // ---------------------------------------------------------------- consequences of the exact condition on cuts

  /** The conversation keys of the calls, or results, among messages still to be appended. */
  function AppendKeys(messages: seq<Append>, kind: string): set<PairKey> {
    set a | a in messages && a.kind == kind && a.toolCallId.Some? && a.toolCallId.value != ""
      :: (a.modelCallId, a.toolCallId.value)
  }

  predicate PairClosed(g: Group) {
    AppendKeys(g.messages, "assistant_tool_call") == AppendKeys(g.messages, "tool_result")
  }

  lemma MadeKeys(sessionId: string, artifacts: Artifacts, messages: seq<Append>, start: int, kind: string)
    ensures KeysOfKind(MakeRows(sessionId, artifacts, messages, start), kind) == AppendKeys(messages, kind)
  {
    var rows := MakeRows(sessionId, artifacts, messages, start);
    forall a | a in messages ensures exists r :: r in rows && r.item == a {
      var i :| 0 <= i < |messages| && messages[i] == a;
      assert rows[i] in rows && rows[i].item == a;
    }
    forall key | key in AppendKeys(messages, kind) ensures key in KeysOfKind(rows, kind) {
      var a :| a in messages && a.kind == kind && a.toolCallId.Some? && a.toolCallId.value != ""
               && key == (a.modelCallId, a.toolCallId.value);
      var r :| r in rows && r.item == a;
      assert r.item.kind == kind;
    }
  }

  lemma KeysConcat(a: seq<Row>, b: seq<Row>, kind: string)
    ensures KeysOfKind(a + b, kind) == KeysOfKind(a, kind) + KeysOfKind(b, kind)
  {
    forall r ensures r in a + b <==> r in a || r in b {
    }
  }

  lemma {:induction false} HeadPairs(artifacts: Artifacts, groups: seq<Group>)
    requires forall i | 0 <= i < |groups| :: PairClosed(groups[i])
    ensures PairsMatch(RowsOf(artifacts, groups))
  {
    if |groups| > 0 {
      var front, g := groups[..|groups| - 1], groups[|groups| - 1];
      HeadPairs(artifacts, front);
      BlocksSnoc(artifacts, groups);
      var rows := RowsOf(artifacts, front);
      var block := MakeRows(g.sessionId, artifacts, g.messages, |rows|);
      MadeKeys(g.sessionId, artifacts, g.messages, |rows|, "assistant_tool_call");
      MadeKeys(g.sessionId, artifacts, g.messages, |rows|, "tool_result");
      KeysConcat(rows, block, "assistant_tool_call");
      KeysConcat(rows, block, "tool_result");
      FlatSnoc(BlocksOf(artifacts, front), block);
    }
  }

  lemma {:induction false} BlocksPrefix(artifacts: Artifacts, groups: seq<Group>, k: nat)
    requires k <= |groups|
    ensures BlocksOf(artifacts, groups)[..k] == BlocksOf(artifacts, groups[..k])
  {
    if k == |groups| {
      assert groups[..k] == groups;
    } else {
      var n := |groups| - 1;
      BlocksPrefix(artifacts, groups[..n], k);
      assert groups[..n][..k] == groups[..k];
      BlocksSnoc(artifacts, groups);
    }
  }

  /** With fresh group ids and answered calls in every group, the accepted cuts are exactly 0 and the ends of groups. */
  lemma FreshGroupsCutAtBoundaries(runId: string, artifacts: Artifacts, groups: seq<Group>, h: int)
    requires AllAccepted(artifacts, groups) && NoRepeats(GroupIds(groups))
    requires forall i | 0 <= i < |groups| :: PairClosed(groups[i])
    ensures CutVerdict(runId, artifacts, RowsOf(artifacts, groups), h).Ok?
            <==> exists k | 0 <= k <= |groups| :: h == |Head(artifacts, groups, k)|
  {
    CutAccepted(runId, artifacts, groups, h);
    assert |Head(artifacts, groups, 0)| == 0;
    forall k | 0 <= k <= |groups|
      ensures CleanBoundary(artifacts, groups, h, k) <==> k > 0 && h == |Head(artifacts, groups, k)|
    {
      BoundaryIsClean(artifacts, groups, h, k);
    }
  }

  lemma BoundaryIsClean(artifacts: Artifacts, groups: seq<Group>, h: int, k: nat)
    requires NoRepeats(GroupIds(groups)) && k <= |groups|
    requires forall i | 0 <= i < |groups| :: PairClosed(groups[i])
    ensures CleanBoundary(artifacts, groups, h, k) <==> k > 0 && h == |Head(artifacts, groups, k)|
  {
    BlocksPrefix(artifacts, groups, k);
    assert forall i | 0 <= i < k :: groups[..k][i] == groups[i];
    HeadPairs(artifacts, groups[..k]);
  }

  /**
   * Once two appends have used one group id, no cut past the second of them is ever accepted again, so no terminal
   * checkpoint can be written for the run.
   */
  lemma RepeatedIdPoisonsLog(runId: string, artifacts: Artifacts, groups: seq<Group>, i: nat, j: nat, h: int)
    requires AllAccepted(artifacts, groups) && i < j < |groups| && GroupId(groups[i]) == GroupId(groups[j])
    requires h > |Head(artifacts, groups, j)|
    ensures CutVerdict(runId, artifacts, RowsOf(artifacts, groups), h).Err?
  {
    CutAccepted(runId, artifacts, groups, h);
    BlocksAccepted(artifacts, groups);
    forall k | 0 <= k <= |groups| ensures !CleanBoundary(artifacts, groups, h, k) {
      NoCleanHead(PairsMatch, BlocksOf(artifacts, groups), GroupIds(groups), i, j, h, k);
    }
  }

  lemma NoCleanHead(fine: seq<Row> -> bool, blocks: seq<seq<Row>>, ids: seq<string>, i: nat, j: nat, h: int, k: nat)
    requires Blocks(GroupOk, blocks, ids) && k <= |blocks| && i < j < |ids| && ids[i] == ids[j]
    requires h > |Flat(blocks[..j])|
    ensures !CleanHead(fine, blocks, ids, h, k)
  {
    if k <= j {
      assert blocks[..j][..k] == blocks[..k];
      FlatPrefix(GroupOk, blocks[..j], ids[..j], k);
    } else {
      assert ids[..k][i] == ids[..k][j];
    }
  }

  /** A run that used one group id twice can never write a terminal checkpoint again. */
  lemma PoisonedLogHasNoCheckpoint(runId: string, artifacts: Artifacts, ops: seq<Op>, i: nat, j: nat, reason: string)
    requires i < j < |GroupsOf(artifacts, ops)|
             && GroupId(GroupsOf(artifacts, ops)[i]) == GroupId(GroupsOf(artifacts, ops)[j])
    ensures BuildManifest(runId, artifacts, Run(runId, artifacts, EMPTY, ops), reason).Err?
  {
    var groups, log := GroupsOf(artifacts, ops), Run(runId, artifacts, EMPTY, ops);
    RowsOfRun(runId, artifacts, ops);
    EmptyValid(runId, artifacts);
    RunKeepsLog(runId, artifacts, EMPTY, ops);
    WhenManifestBuilds(runId, artifacts, log, reason);
    BlocksAccepted(artifacts, groups);
    FlatPrefix(GroupOk, BlocksOf(artifacts, groups), GroupIds(groups), j);
    RepeatedIdPoisonsLog(runId, artifacts, groups, i, j, |log.rows|);
  }
}
