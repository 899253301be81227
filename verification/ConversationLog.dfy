/**
 * The durable conversation of one run: an append-only log of closed message groups and a projection over its indexes
 * (persistence/conversation.py). A transaction either commits whole or leaves no trace; digests are free constructors,
 * that is, hashing and canonical encoding are injective.
 */
module ConversationLog {
  import opened Wrappers
  import opened Sorting
  import opened Seqs

  datatype Ref = Index(n: int) | Range(start: int, end: int) | Malformed

  datatype Digest =
    | OfContent(json: string)
    | OfPayload(payload: string)
    | OfFacts(runId: string, facts: seq<RowFact>)
    | OfProjection(runId: string, highWatermark: int, refs: seq<Ref>, contents: seq<Digest>)

  datatype Append = Append(
    turnId: Option<string>,
    groupId: string,
    modelCallId: Option<string>,
    position: int,
    rowCount: int,
    role: string,
    kind: string,
    content: Option<string>,
    artifactId: Option<string>,
    metadata: map<string, string>,
    sourceEventId: Option<string>,
    toolCallId: Option<string>)

  datatype Row = Row(sessionId: string, index: int, status: string, item: Append, digest: Digest)

  /** The fields of a row that its fact cut covers; the tool call id and the row count are not among them. */
  datatype RowFact = RowFact(
    sessionId: string,
    index: int,
    groupId: string,
    modelCallId: Option<string>,
    position: int,
    status: string,
    role: string,
    kind: string,
    content: Digest,
    artifactId: Option<string>,
    metadata: map<string, string>,
    sourceEventId: Option<string>)

  datatype Projection = Projection(highWatermark: int, refs: seq<Ref>, digest: Digest)
  datatype FactCut = FactCut(highest: int, count: int, digest: Digest)

  datatype LogError =
    | NoMessages | BadReason | BadRole | BadKind | NoGroupId | NegativePosition | NoRowCount | OpenGroup
        | BadContentSource
    | BadArtifact | ManyGroups | BadRowCount | BadPositions | AppendFailed
    | NegativeCut | EmptyCutHasRows | MissingRows | NotContiguous | BadChecksum | TruncatedGroup | CountsDisagree
    | CallWithoutResult | ResultWithoutCall | BadRef | RefOutsideCut | RefMissingRow | ProjectionDrift

  /** Payload checksums of the artifact store. */
  type Artifacts = map<string, string>

  const ROLES := {"user", "assistant", "tool", "runtime"}
  const KINDS := {"user_input", "assistant_output", "assistant_tool_call", "tool_result", "failure_fact",
      "cancellation_fact",
                  "context_summary"}
  const REASONS := {"message_append", "omission", "compression"}
  const CLOSED := "closed"

  // ---------------------------------------------------------------- one group

  predicate IntLeq(a: int, b: int) {
    a <= b
  }

  function Span(low: int, high: int): seq<int> {
    if high < low then [] else seq(high + 1 - low, i requires 0 <= i => low + i)
  }

  function PositionOf(a: Append): int {
    a.position
  }

  function DigestOf(artifacts: Artifacts, a: Append): Digest {
    if a.artifactId.Some? then OfPayload(if a.artifactId.value in artifacts then artifacts[a.artifactId.value] else "")
    else OfContent(if a.content.Some? then a.content.value else "")
  }

  function PrepareError(artifacts: Artifacts, a: Append): Option<LogError> {
    if a.role !in ROLES then Some(BadRole)
    else if a.kind !in KINDS then Some(BadKind)
    else if a.groupId == "" then Some(NoGroupId)
    else if a.position < 0 then Some(NegativePosition)
    else if a.rowCount < 1 then Some(NoRowCount)
    else if "group_status" in a.metadata && a.metadata["group_status"] == "open" then Some(OpenGroup)
    else if a.content.Some? == a.artifactId.Some? then Some(BadContentSource)
    else if a.artifactId.Some? && a.artifactId.value !in artifacts then Some(BadArtifact)
    else None
  }

  function FirstPrepareError(artifacts: Artifacts, messages: seq<Append>): Option<LogError> {
    if |messages| == 0 then None
    else
      var earlier := FirstPrepareError(artifacts, messages[..|messages| - 1]);
      if earlier.Some? then earlier else PrepareError(artifacts, messages[|messages| - 1])
  }

  function ClosedGroupError(messages: seq<Append>): Option<LogError>
    requires |messages| > 0
  {
    if exists a | a in messages :: a.groupId != messages[0].groupId then Some(ManyGroups)
    else if exists a | a in messages :: a.rowCount != |messages| then Some(BadRowCount)
    else if Sort(IntLeq, Map(PositionOf, messages)) != Span(0, |messages| - 1) then Some(BadPositions)
    else None
  }

  function AppendError(artifacts: Artifacts, messages: seq<Append>, reason: string): Option<LogError> {
    if |messages| == 0 then Some(NoMessages)
    else if reason !in REASONS then Some(BadReason)
    else if FirstPrepareError(artifacts, messages).Some? then FirstPrepareError(artifacts, messages)
    else ClosedGroupError(messages)
  }

  function MakeRows(sessionId: string, artifacts: Artifacts, messages: seq<Append>, start: int): seq<Row> {
    seq(|messages|, i requires 0 <= i < |messages| =>
      Row(sessionId, start + 1 + i, CLOSED, messages[i], DigestOf(artifacts, messages[i])))
  }

  // ---------------------------------------------------------------- references into the log

  function RefIndexes(ref: Ref): seq<int> {
    match ref
    case Index(n) => [n]
    case Range(start, end) => Span(start, end)
    case Malformed => []
  }

  predicate WellFormed(refs: seq<Ref>) {
    forall i | 0 <= i < |refs| :: refs[i] != Malformed
  }

  function Indexes(refs: seq<Ref>): seq<int> {
    if |refs| == 0 then [] else Indexes(refs[..|refs| - 1]) + RefIndexes(refs[|refs| - 1])
  }

  function ByIndex(rows: seq<Row>): map<int, Row> {
    if |rows| == 0 then map[] else ByIndex(rows[..|rows| - 1])[rows[|rows| - 1].index := rows[|rows| - 1]]
  }

  function RowsAt(known: map<int, Row>, highWatermark: int, indexes: seq<int>): Result<seq<Row>, LogError> {
    if |indexes| == 0 then Ok([])
    else
      var earlier, i := RowsAt(known, highWatermark, indexes[..|indexes| - 1]), indexes[|indexes| - 1];
      if earlier.Err? then earlier
      else if i < 1 || i > highWatermark then Err(RefOutsideCut)
      else if i !in known then Err(RefMissingRow)
      else Ok(earlier.value + [known[i]])
  }

  function RowsForRefs(known: map<int, Row>, highWatermark: int, refs: seq<Ref>): Result<seq<Row>, LogError> {
    if |refs| == 0 then Ok([])
    else
      var earlier, ref := RowsForRefs(known, highWatermark, refs[..|refs| - 1]), refs[|refs| - 1];
      if earlier.Err? then earlier
      else if ref.Malformed? then Err(BadRef)
      else
        var own := RowsAt(known, highWatermark, RefIndexes(ref));
        if own.Err? then own else Ok(earlier.value + own.value)
  }

  function DigestField(row: Row): Digest {
    row.digest
  }

  function ProjectionDigest(runId: string, highWatermark: int, refs: seq<Ref>, rows: seq<Row>): Digest {
    OfProjection(runId, highWatermark, refs, Map(DigestField, rows))
  }

  function HighestIndex(rows: seq<Row>): int {
    if |rows| == 0 then 0
    else if rows[|rows| - 1].index > HighestIndex(rows[..|rows| - 1]) then rows[|rows| - 1].index
    else HighestIndex(rows[..|rows| - 1])
  }

  // ---------------------------------------------------------------- the checks over a cut of rows

  function GroupKey(row: Row): Option<string> {
    Some(row.item.groupId)
  }

  function RowPosition(row: Row): int {
    row.item.position
  }

  function RowError(artifacts: Artifacts, row: Row): Option<LogError> {
    if row.status != CLOSED then Some(OpenGroup)
    else if row.item.role !in ROLES || row.item.kind !in KINDS then Some(BadRole)
    else if row.item.content.None? == row.item.artifactId.None? then Some(BadContentSource)
    else if row.item.artifactId.Some? && row.item.artifactId.value !in artifacts then Some(BadArtifact)
    else if row.digest != DigestOf(artifacts, row.item) then Some(BadChecksum)
    else None
  }

  function FirstRowError(artifacts: Artifacts, rows: seq<Row>): Option<LogError> {
    if |rows| == 0 then None
    else
      var earlier := FirstRowError(artifacts, rows[..|rows| - 1]);
      if earlier.Some? then earlier else RowError(artifacts, rows[|rows| - 1])
  }

  function GroupError(rows: seq<Row>): Option<LogError> {
    if |rows| == 0 then None
    else
      var expected := rows[0].item.rowCount;
      if |rows| != expected then Some(TruncatedGroup)
      else if Sort(IntLeq, Map(RowPosition, rows)) != Span(0, expected - 1) then Some(BadPositions)
      else if exists r | r in rows :: r.item.rowCount != expected then Some(CountsDisagree)
      else None
  }

  function FirstGroupError(rows: seq<Row>, order: seq<string>): Option<LogError> {
    if |order| == 0 then None
    else
      var earlier := FirstGroupError(rows, order[..|order| - 1]);
      if earlier.Some? then earlier else GroupError(WithKey(GroupKey, rows, order[|order| - 1]))
  }

  type PairKey = (Option<string>, string)

  function KeysOfKind(rows: seq<Row>, kind: string): set<PairKey> {
    set r | r in rows && r.item.kind == kind && r.item.toolCallId.Some? && r.item.toolCallId.value != ""
      :: (r.item.modelCallId, r.item.toolCallId.value)
  }

  function CallKeys(rows: seq<Row>): set<PairKey> {
    KeysOfKind(rows, "assistant_tool_call")
  }

  function ResultKeys(rows: seq<Row>): set<PairKey> {
    KeysOfKind(rows, "tool_result")
  }

  function PairingError(rows: seq<Row>): Option<LogError> {
    if CallKeys(rows) - ResultKeys(rows) != {} then Some(CallWithoutResult)
    else if ResultKeys(rows) - CallKeys(rows) != {} then Some(ResultWithoutCall)
    else None
  }

  function RowsError(artifacts: Artifacts, rows: seq<Row>): Option<LogError> {
    if FirstRowError(artifacts, rows).Some? then FirstRowError(artifacts, rows)
    else if FirstGroupError(rows, FirstKeys(GroupKey, rows)).Some? then FirstGroupError(rows, FirstKeys(GroupKey, rows))
    else PairingError(rows)
  }

  function Fact(row: Row): RowFact {
    RowFact(row.sessionId, row.index, row.item.groupId, row.item.modelCallId, row.item.position, row.status,
            row.item.role, row.item.kind, row.digest, row.item.artifactId, row.item.metadata, row.item.sourceEventId)
  }

  function RowIndex(row: Row): int {
    row.index
  }

  function UpToIndex(rows: seq<Row>, h: int): seq<Row> {
    Filter((r: Row) => r.index <= h, rows)
  }

  /** The verdict on the cut at index `h`. */
  function CutVerdict(runId: string, artifacts: Artifacts, rows: seq<Row>, h: int): Result<FactCut, LogError> {
    var included := UpToIndex(rows, h);
    if h < 0 then Err(NegativeCut)
    else if h == 0 then
      if |included| > 0 then Err(EmptyCutHasRows) else Ok(FactCut(0, 0, OfFacts(runId, [])))
    else if |included| != h then Err(MissingRows)
    else if Map(RowIndex, included) != Span(1, h) then Err(NotContiguous)
    else if RowsError(artifacts, included).Some? then Err(RowsError(artifacts, included).value)
    else Ok(FactCut(h, |included|, OfFacts(runId, Map(Fact, included))))
  }

  function SnapshotVerdict(runId: string, artifacts: Artifacts, rows: seq<Row>, p: Projection): Option<LogError> {
    var selected := RowsForRefs(ByIndex(rows), p.highWatermark, p.refs);
    if selected.Err? then Some(selected.error)
    else if exists r | r in selected.value :: r.digest != DigestOf(artifacts, r.item) then Some(BadChecksum)
    else if p.digest != ProjectionDigest(runId, p.highWatermark, p.refs, selected.value) then Some(BadChecksum)
    else None
  }

  // ---------------------------------------------------------------- log states and what each operation makes of them

  datatype Log = Log(rows: seq<Row>, projection: Option<Projection>)

  function CurrentProjection(runId: string, log: Log): Projection {
    if log.projection.Some? then log.projection.value else Projection(0, [], ProjectionDigest(runId, 0, [], []))
  }

  /** The indexes of 1..n that `seen` lacks, in ascending order. */
  function Unseen(n: nat, seen: seq<int>): seq<int> {
    Filter(i => i !in seen, Span(1, n))
  }

  function IndexRef(i: int): Ref {
    Index(i)
  }

  function ProjectionAfterAppend(runId: string, rows: seq<Row>, previous: Projection): Projection {
    var refs := previous.refs + Map(IndexRef, Unseen(|rows|, Indexes(previous.refs)));
    var selected := RowsForRefs(ByIndex(rows), |rows|, refs);
    Projection(|rows|, refs, ProjectionDigest(runId, |rows|, refs, if selected.Ok? then selected.value else []))
  }

  function Appended(runId: string, artifacts: Artifacts, log: Log, sessionId: string, messages: seq<Append>): Log {
    var rows := log.rows + MakeRows(sessionId, artifacts, messages, |log.rows|);
    Log(rows, Some(ProjectionAfterAppend(runId, rows, CurrentProjection(runId, log))))
  }

  function OverwriteError(log: Log, refs: seq<Ref>, reason: string): Option<LogError> {
    var selected := RowsForRefs(ByIndex(log.rows), |log.rows|, refs);
    if reason !in REASONS then Some(BadReason) else if selected.Err? then Some(selected.error) else None
  }

  function Overwritten(runId: string, log: Log, refs: seq<Ref>): Log {
    var selected := RowsForRefs(ByIndex(log.rows), |log.rows|, refs);
    var rows := if selected.Ok? then selected.value else [];
    log.(projection := Some(Projection(|log.rows|, refs, ProjectionDigest(runId, |log.rows|, refs, rows))))
  }

  // ---------------------------------------------------------------- the invariant of a log

  ghost predicate RowsOk(artifacts: Artifacts, rows: seq<Row>) {
    forall i | 0 <= i < |rows| :: rows[i].index == i + 1 && RowError(artifacts, rows[i]) == None
  }

  /**
   * A projection covers the whole log: its watermark is the highest index, its references exist, its digest is right.
   */
  ghost predicate ProjectionOk(runId: string, rows: seq<Row>, p: Projection) {
    && p.highWatermark == |rows|
    && RefsOk(rows, p.refs)
    && p.digest == OfProjection(runId, |rows|, p.refs, ContentsAt(rows, Indexes(p.refs)))
  }

  ghost predicate RefsOk(rows: seq<Row>, refs: seq<Ref>) {
    WellFormed(refs) && Within(|rows|, Indexes(refs))
  }

  ghost predicate Within(n: int, indexes: seq<int>) {
    forall k | 0 <= k < |indexes| :: 1 <= indexes[k] <= n
  }

  ghost function PickRows(rows: seq<Row>, indexes: seq<int>): seq<Row>
    requires Within(|rows|, indexes)
  {
    seq(|indexes|, k requires 0 <= k < |indexes| => rows[indexes[k] - 1])
  }

  ghost function ContentsAt(rows: seq<Row>, indexes: seq<int>): seq<Digest>
    requires Within(|rows|, indexes)
  {
    seq(|indexes|, k requires 0 <= k < |indexes| => rows[indexes[k] - 1].digest)
  }

  ghost predicate ValidLog(runId: string, artifacts: Artifacts, log: Log) {
    && RowsOk(artifacts, log.rows)
    && ProjectionOk(runId, log.rows, CurrentProjection(runId, log))
  }

  // ---------------------------------------------------------------- facts about references

  lemma {:induction false} ByIndexMeaning(artifacts: Artifacts, rows: seq<Row>)
    requires RowsOk(artifacts, rows)
    ensures forall i :: i in ByIndex(rows) <==> 1 <= i <= |rows|
    ensures forall i | 1 <= i <= |rows| :: ByIndex(rows)[i] == rows[i - 1]
    ensures HighestIndex(rows) == |rows|
  {
    if |rows| > 0 {
      ByIndexMeaning(artifacts, rows[..|rows| - 1]);
    }
  }

  ghost predicate Known(rows: seq<Row>, known: map<int, Row>) {
    && (forall i :: i in known <==> 1 <= i <= |rows|)
    && (forall i | 1 <= i <= |rows| :: known[i] == rows[i - 1])
  }

  lemma PickConcat(rows: seq<Row>, a: seq<int>, b: seq<int>)
    requires Within(|rows|, a) && Within(|rows|, b)
    ensures Within(|rows|, a + b) && PickRows(rows, a + b) == PickRows(rows, a) + PickRows(rows, b)
  {
    WithinConcat(|rows|, a, b);
  }

  lemma WithinMore(h: int, n: int, s: seq<int>)
    requires h <= n && Within(h, s)
    ensures Within(n, s)
  {
  }

  /** One more index resolves exactly when it lies inside the watermark. */
  lemma OneMoreIndex(rows: seq<Row>, known: map<int, Row>, h: int, front: seq<int>, i: int)
    requires Known(rows, known) && h <= |rows|
    requires RowsAt(known, h, front).Ok? <==> Within(h, front)
    requires Within(h, front) ==> Within(|rows|, front) && RowsAt(known, h, front).value == PickRows(rows, front)
    ensures RowsAt(known, h, front + [i]).Ok? <==> Within(h, front + [i])
    ensures Within(h, front + [i]) ==>
              Within(|rows|, front + [i]) && RowsAt(known, h, front + [i]).value == PickRows(rows, front + [i])
  {
    assert (front + [i])[..|front|] == front;
    WithinConcat(h, front, [i]);
    assert Within(h, [i]) <==> 1 <= i <= h by {
      assert [i][0] == i;
    }
    if Within(h, front) && 1 <= i <= h {
      PickConcat(rows, front, [i]);
      assert PickRows(rows, [i]) == [rows[i - 1]];
    }
  }

  lemma {:induction false} RowsAtMeaning(rows: seq<Row>, known: map<int, Row>, h: int, indexes: seq<int>)
    requires Known(rows, known) && h <= |rows|
    ensures RowsAt(known, h, indexes).Ok? <==> Within(h, indexes)
    ensures Within(h, indexes) ==> Within(|rows|, indexes) && RowsAt(known, h, indexes).value == PickRows(rows, indexes)
  {
    if |indexes| > 0 {
      var n := |indexes| - 1;
      RowsAtMeaning(rows, known, h, indexes[..n]);
      OneMoreIndex(rows, known, h, indexes[..n], indexes[n]);
      assert indexes == indexes[..n] + [indexes[n]];
    }
  }

  ghost predicate Resolves(rows: seq<Row>, h: int, r: Result<seq<Row>, LogError>, refs: seq<Ref>) {
    && (r.Ok? <==> WellFormed(refs) && Within(h, Indexes(refs)))
    && (r.Ok? ==> Within(|rows|, Indexes(refs)) && r.value == PickRows(rows, Indexes(refs)))
  }

  lemma OneMoreRef(rows: seq<Row>, known: map<int, Row>, h: int, front: seq<Ref>, ref: Ref)
    requires Known(rows, known) && h <= |rows| && Resolves(rows, h, RowsForRefs(known, h, front), front)
    ensures Resolves(rows, h, RowsForRefs(known, h, front + [ref]), front + [ref])
  {
    var own := RefIndexes(ref);
    assert (front + [ref])[..|front|] == front;
    IndexesSnoc(front, ref);
    WellFormedSnoc(front, ref);
    RowsAtMeaning(rows, known, h, own);
    WithinConcat(h, Indexes(front), own);
    if Within(h, Indexes(front)) && Within(h, own) {
      WithinMore(h, |rows|, Indexes(front));
      PickConcat(rows, Indexes(front), own);
    }
  }

  lemma WellFormedSnoc(front: seq<Ref>, ref: Ref)
    ensures WellFormed(front + [ref]) <==> WellFormed(front) && !ref.Malformed?
  {
    var all := front + [ref];
    if WellFormed(all) {
      forall i | 0 <= i < |front| ensures front[i] != Malformed {
        assert all[i] == front[i];
      }
      assert all[|front|] == ref;
    }
  }

  /**
   * References resolve exactly when all are well formed and point inside the watermark; they then pick those rows in
   * order.
   */
  lemma {:induction false} RowsForRefsMeaning(rows: seq<Row>, known: map<int, Row>, h: int, refs: seq<Ref>)
    requires Known(rows, known) && h <= |rows|
    ensures Resolves(rows, h, RowsForRefs(known, h, refs), refs)
  {
    if |refs| > 0 {
      var n := |refs| - 1;
      RowsForRefsMeaning(rows, known, h, refs[..n]);
      OneMoreRef(rows, known, h, refs[..n], refs[n]);
      assert refs == refs[..n] + [refs[n]];
    }
  }

  lemma WithinConcat(h: int, a: seq<int>, b: seq<int>)
    ensures Within(h, a + b) <==> Within(h, a) && Within(h, b)
  {
    if Within(h, a + b) {
      forall k | 0 <= k < |a| ensures 1 <= a[k] <= h {
        assert (a + b)[k] == a[k];
      }
      forall k | 0 <= k < |b| ensures 1 <= b[k] <= h {
        assert (a + b)[|a| + k] == b[k];
      }
    }
  }

  lemma IndexesSnoc(refs: seq<Ref>, ref: Ref)
    ensures Indexes(refs + [ref]) == Indexes(refs) + RefIndexes(ref)
  {
    assert (refs + [ref])[..|refs|] == refs;
  }

  lemma {:induction false} IndexesConcat(a: seq<Ref>, b: seq<Ref>)
    ensures Indexes(a + b) == Indexes(a) + Indexes(b)
  {
    if |b| == 0 {
      assert a + b == a;
    } else {
      var front, ref := b[..|b| - 1], b[|b| - 1];
      IndexesConcat(a, front);
      IndexesSnoc(a + front, ref);
      assert a + b == a + front + [ref];
      ConcatAssoc(Indexes(a), Indexes(front), RefIndexes(ref));
    }
  }

  lemma {:induction false} IndexesOfRefs(s: seq<int>)
    ensures Indexes(Map(IndexRef, s)) == s && WellFormed(Map(IndexRef, s))
  {
    if |s| > 0 {
      IndexesOfRefs(s[..|s| - 1]);
      assert Map(IndexRef, s)[..|s| - 1] == Map(IndexRef, s[..|s| - 1]);
    }
  }

  lemma UnseenMeaning(n: nat, seen: seq<int>)
    ensures forall i :: i in Unseen(n, seen) <==> 1 <= i <= n && i !in seen
    ensures Within(n, Unseen(n, seen))
  {
    FilterMeaning(i => i !in seen, Span(1, n));
    forall i | 1 <= i <= n ensures i in Span(1, n) {
      assert Span(1, n)[i - 1] == i;
    }
    forall k | 0 <= k < |Unseen(n, seen)| ensures 1 <= Unseen(n, seen)[k] <= n {
      assert Unseen(n, seen)[k] in Unseen(n, seen);
    }
  }
}
