/** What every run of appends and projection overwrites keeps, and exactly which cuts of the log are accepted. */
module ConversationLaws {
  import opened Wrappers
  import opened Seqs
  import opened ConversationLog

  // ---------------------------------------------------------------- rows

  lemma {:induction false} NoPrepareError(artifacts: Artifacts, messages: seq<Append>)
    requires FirstPrepareError(artifacts, messages) == None
    ensures forall i | 0 <= i < |messages| :: PrepareError(artifacts, messages[i]) == None
  {
    if |messages| > 0 {
      NoPrepareError(artifacts, messages[..|messages| - 1]);
      assert messages == messages[..|messages| - 1] + [messages[|messages| - 1]];
    }
  }

  lemma MadeRowsOk(artifacts: Artifacts, rows: seq<Row>, sessionId: string, messages: seq<Append>)
    requires RowsOk(artifacts, rows) && FirstPrepareError(artifacts, messages) == None
    ensures RowsOk(artifacts, rows + MakeRows(sessionId, artifacts, messages, |rows|))
  {
    NoPrepareError(artifacts, messages);
  }

  // ---------------------------------------------------------------- the projection

  lemma ProjectionBuilt(runId: string, artifacts: Artifacts, rows: seq<Row>, refs: seq<Ref>)
    requires RowsOk(artifacts, rows) && RefsOk(rows, refs)
    ensures RowsForRefs(ByIndex(rows), |rows|, refs) == Ok(PickRows(rows, Indexes(refs)))
    ensures ProjectionDigest(runId, |rows|, refs, PickRows(rows, Indexes(refs)))
            == OfProjection(runId, |rows|, refs, ContentsAt(rows, Indexes(refs)))
  {
    ByIndexMeaning(artifacts, rows);
    RowsForRefsMeaning(rows, ByIndex(rows), |rows|, refs);
    assert Map(DigestField, PickRows(rows, Indexes(refs))) == ContentsAt(rows, Indexes(refs));
  }

  lemma RefsGrow(n: nat, m: nat, refs: seq<Ref>)
    requires WellFormed(refs) && Within(n, Indexes(refs)) && n <= m
    ensures var grown := refs + Map(IndexRef, Unseen(m, Indexes(refs)));
            && Indexes(grown) == Indexes(refs) + Unseen(m, Indexes(refs))
            && WellFormed(grown) && Within(m, Indexes(grown))
  {
    var missing := Unseen(m, Indexes(refs));
    IndexesOfRefs(missing);
    IndexesConcat(refs, Map(IndexRef, missing));
    UnseenMeaning(m, Indexes(refs));
    assert Within(m, Indexes(refs));
    WithinConcat(m, Indexes(refs), missing);
  }

  /**
   * An append keeps the log valid; the projection it leaves expands to its old expansion followed by every other index
   * of the log in ascending order.
   */
  lemma AppendKeepsLog(runId: string, artifacts: Artifacts, log: Log, sessionId: string, messages: seq<Append>)
    requires ValidLog(runId, artifacts, log) && FirstPrepareError(artifacts, messages) == None
    ensures var after := Appended(runId, artifacts, log, sessionId, messages);
            var seen := Indexes(CurrentProjection(runId, log).refs);
            && ValidLog(runId, artifacts, after)
            && after.projection.Some?
            && Indexes(after.projection.value.refs) == seen + Unseen(|after.rows|, seen)
  {
    var after := Appended(runId, artifacts, log, sessionId, messages);
    var previous := CurrentProjection(runId, log);
    MadeRowsOk(artifacts, log.rows, sessionId, messages);
    RefsGrow(|log.rows|, |after.rows|, previous.refs);
    ProjectionBuilt(runId, artifacts, after.rows, after.projection.value.refs);
  }

  lemma {:induction false} UnseenDistinct(n: nat, seen: seq<int>)
    requires NoRepeats(seen)
    ensures NoRepeats(seen + Unseen(n, seen))
  {
    UnseenMeaning(n, seen);
    var less := (a: int, b: int) => a < b;
    FilterSorted(less, i => i !in seen, Span(1, n));
    var all, added := seen + Unseen(n, seen), Unseen(n, seen);
    forall i, j | 0 <= i < j < |all| ensures all[i] != all[j] {
      if i < |seen| <= j {
        assert added[j - |seen|] in added;
      } else if |seen| <= i {
        assert less(added[i - |seen|], added[j - |seen|]);
      }
    }
  }

  /** After an append the projection names every index of the log, and names none twice if it did not before. */
  lemma AppendCoversLog(runId: string, artifacts: Artifacts, log: Log, sessionId: string, messages: seq<Append>)
    requires ValidLog(runId, artifacts, log) && FirstPrepareError(artifacts, messages) == None
    ensures var after := Appended(runId, artifacts, log, sessionId, messages);
            var seen, now := Indexes(CurrentProjection(runId, log).refs), Indexes(CurrentProjection(runId, after).refs);
            && seen <= now
            && (forall i :: i in now <==> 1 <= i <= |after.rows|)
            && (NoRepeats(seen) ==> NoRepeats(now))
  {
    AppendKeepsLog(runId, artifacts, log, sessionId, messages);
    var after := Appended(runId, artifacts, log, sessionId, messages);
    var seen := Indexes(CurrentProjection(runId, log).refs);
    UnseenMeaning(|after.rows|, seen);
    if NoRepeats(seen) {
      UnseenDistinct(|after.rows|, seen);
    }
    forall i | i in seen ensures 1 <= i <= |after.rows| {
      var k :| 0 <= k < |seen| && seen[k] == i;
    }
  }

  lemma OverwriteKeepsLog(runId: string, artifacts: Artifacts, log: Log, refs: seq<Ref>, reason: string)
    requires ValidLog(runId, artifacts, log)
    ensures OverwriteError(log, refs, reason) == None <==> reason in REASONS && RefsOk(log.rows, refs)
    ensures OverwriteError(log, refs, reason) == None ==>
              ValidLog(runId, artifacts, Overwritten(runId, log, refs))
                  && Overwritten(runId, log, refs).rows == log.rows
  {
    ByIndexMeaning(artifacts, log.rows);
    RowsForRefsMeaning(log.rows, ByIndex(log.rows), |log.rows|, refs);
    if RefsOk(log.rows, refs) {
      ProjectionBuilt(runId, artifacts, log.rows, refs);
    }
  }

  // ---------------------------------------------------------------- runs of operations

  datatype Op = AppendGroup(sessionId: string, messages: seq<Append>, reason: string)
    | Overwrite(refs: seq<Ref>, reason: string)

  function Step(runId: string, artifacts: Artifacts, log: Log, op: Op): Log {
    match op
    case AppendGroup(sessionId, messages, reason) =>
      if AppendError(artifacts, messages, reason).Some? then log
      else Appended(runId, artifacts, log, sessionId, messages)
    case Overwrite(refs, reason) =>
      if OverwriteError(log, refs, reason).Some? then log else Overwritten(runId, log, refs)
  }

  function Run(runId: string, artifacts: Artifacts, start: Log, ops: seq<Op>): Log {
    if |ops| == 0 then start
    else Step(runId, artifacts, Run(runId, artifacts, start, ops[..|ops| - 1]), ops[|ops| - 1])
  }

  const EMPTY := Log([], None)

  lemma EmptyValid(runId: string, artifacts: Artifacts)
    ensures ValidLog(runId, artifacts, EMPTY)
  {
    assert ContentsAt([], Indexes([])) == [];
  }

  lemma StepKeepsLog(runId: string, artifacts: Artifacts, log: Log, op: Op)
    requires ValidLog(runId, artifacts, log)
    ensures ValidLog(runId, artifacts, Step(runId, artifacts, log, op))
    ensures log.rows <= Step(runId, artifacts, log, op).rows
  {
    match op
    case AppendGroup(sessionId, messages, reason) =>
      if AppendError(artifacts, messages, reason).None? {
        AppendKeepsLog(runId, artifacts, log, sessionId, messages);
      }
    case Overwrite(refs, reason) =>
      OverwriteKeepsLog(runId, artifacts, log, refs, reason);
  }

  /** Over any run: the log only grows, and the projection's watermark, references and digest always fit the log. */
  lemma {:induction false} RunKeepsLog(runId: string, artifacts: Artifacts, start: Log, ops: seq<Op>)
    requires ValidLog(runId, artifacts, start)
    ensures ValidLog(runId, artifacts, Run(runId, artifacts, start, ops))
    ensures start.rows <= Run(runId, artifacts, start, ops).rows
  {
    if |ops| > 0 {
      RunKeepsLog(runId, artifacts, start, ops[..|ops| - 1]);
      StepKeepsLog(runId, artifacts, Run(runId, artifacts, start, ops[..|ops| - 1]), ops[|ops| - 1]);
    }
  }

  // ---------------------------------------------------------------- groups of rows

  /** An accepted append. */
  datatype Group = Group(sessionId: string, messages: seq<Append>)

  ghost predicate Accepted(artifacts: Artifacts, g: Group) {
    && |g.messages| > 0
    && FirstPrepareError(artifacts, g.messages) == None
    && ClosedGroupError(g.messages) == None
  }

  ghost predicate AllAccepted(artifacts: Artifacts, groups: seq<Group>) {
    forall i | 0 <= i < |groups| :: Accepted(artifacts, groups[i])
  }

  /** The rows each accepted append wrote. */
  function BlocksOf(artifacts: Artifacts, groups: seq<Group>): (blocks: seq<seq<Row>>)
    ensures |blocks| == |groups|
  {
    if |groups| == 0 then []
    else
      var front, g := BlocksOf(artifacts, groups[..|groups| - 1]), groups[|groups| - 1];
      front + [MakeRows(g.sessionId, artifacts, g.messages, |Flat(front)|)]
  }

  function Flat(blocks: seq<seq<Row>>): seq<Row> {
    if |blocks| == 0 then [] else Flat(blocks[..|blocks| - 1]) + blocks[|blocks| - 1]
  }

  function RowsOf(artifacts: Artifacts, groups: seq<Group>): seq<Row> {
    Flat(BlocksOf(artifacts, groups))
  }

  function GroupsOf(artifacts: Artifacts, ops: seq<Op>): seq<Group> {
    if |ops| == 0 then []
    else
      GroupsOf(artifacts, ops[..|ops| - 1]) + NewGroups(artifacts, ops[|ops| - 1])
  }

  /** The log of a run is the concatenation of its accepted appends, whatever overwrites came between. */
  lemma {:induction false} RowsOfRun(runId: string, artifacts: Artifacts, ops: seq<Op>)
    ensures Run(runId, artifacts, EMPTY, ops).rows == RowsOf(artifacts, GroupsOf(artifacts, ops))
    ensures AllAccepted(artifacts, GroupsOf(artifacts, ops))
  {
    if |ops| > 0 {
      var front, op := ops[..|ops| - 1], ops[|ops| - 1];
      RowsOfRun(runId, artifacts, front);
      RowsOfStep(runId, artifacts, Run(runId, artifacts, EMPTY, front), op, GroupsOf(artifacts, front));
    }
  }

  function NewGroups(artifacts: Artifacts, op: Op): seq<Group> {
    if op.AppendGroup? && AppendError(artifacts, op.messages, op.reason).None? then [Group(op.sessionId, op.messages)]
    else []
  }

  lemma FlatSnoc(blocks: seq<seq<Row>>, block: seq<Row>)
    ensures Flat(blocks + [block]) == Flat(blocks) + block
  {
    assert (blocks + [block])[..|blocks|] == blocks;
  }

  lemma RowsOfSnoc(artifacts: Artifacts, groups: seq<Group>, g: Group)
    ensures RowsOf(artifacts, groups + [g])
            == RowsOf(artifacts, groups) + MakeRows(g.sessionId, artifacts, g.messages, |RowsOf(artifacts, groups)|)
  {
    assert (groups + [g])[..|groups|] == groups;
    FlatSnoc(BlocksOf(artifacts, groups), MakeRows(g.sessionId, artifacts, g.messages, |RowsOf(artifacts, groups)|));
  }

  lemma AcceptedSnoc(artifacts: Artifacts, groups: seq<Group>, g: Group)
    requires AllAccepted(artifacts, groups) && Accepted(artifacts, g)
    ensures AllAccepted(artifacts, groups + [g])
  {
  }

  lemma NewGroupAccepted(artifacts: Artifacts, op: Op)
    ensures forall g | g in NewGroups(artifacts, op) :: Accepted(artifacts, g)
  {
  }

  lemma RowsOfStep(runId: string, artifacts: Artifacts, log: Log, op: Op, groups: seq<Group>)
    requires log.rows == RowsOf(artifacts, groups) && AllAccepted(artifacts, groups)
    ensures Step(runId, artifacts, log, op).rows == RowsOf(artifacts, groups + NewGroups(artifacts, op))
    ensures AllAccepted(artifacts, groups + NewGroups(artifacts, op))
  {
    var more := NewGroups(artifacts, op);
    if |more| == 0 {
      assert groups + more == groups;
    } else {
      NewGroupAccepted(artifacts, op);
      assert more == [more[0]];
      RowsOfSnoc(artifacts, groups, more[0]);
      AcceptedSnoc(artifacts, groups, more[0]);
    }
  }

  function GroupId(g: Group): string {
    if |g.messages| == 0 then "" else g.messages[0].groupId
  }

  function GroupIds(groups: seq<Group>): seq<string> {
    Map(GroupId, groups)
  }

  /**
   * The rows of one accepted append, placed after `start`, form one group of the declared size with positions 0, 1, ….
   */
  lemma AcceptedRows(artifacts: Artifacts, g: Group, start: nat)
    requires Accepted(artifacts, g)
    ensures var rows := MakeRows(g.sessionId, artifacts, g.messages, start);
            |rows| == |g.messages| && OneKey(GroupKey, rows, GroupId(g)) && GroupError(rows) == None
  {
    var rows := MakeRows(g.sessionId, artifacts, g.messages, start);
    forall i | 0 <= i < |rows| ensures rows[i].item.groupId == GroupId(g) && rows[i].item.rowCount == |rows| {
      assert g.messages[i] in g.messages;
    }
    SamePositions(rows, g.messages);
  }

  lemma SamePositions(rows: seq<Row>, messages: seq<Append>)
    requires |rows| == |messages| && forall i | 0 <= i < |rows| :: rows[i].item == messages[i]
    ensures Map(RowPosition, rows) == Map(PositionOf, messages)
  {
    forall i | 0 <= i < |rows| ensures Map(RowPosition, rows)[i] == Map(PositionOf, messages)[i] {
      assert RowPosition(rows[i]) == PositionOf(messages[i]);
    }
  }

  // ---------------------------------------------------------------- blocks of rows under any per-group check

  /** A per-group check that accepts only groups as long as their first row declares. */
  ghost predicate SizeCheck(ok: seq<Row> -> bool) {
    ok([]) && forall rs: seq<Row> | ok(rs) && |rs| > 0 :: |rs| == rs[0].item.rowCount
  }

  ghost predicate Block(ok: seq<Row> -> bool, rows: seq<Row>, id: string) {
    |rows| > 0 && OneKey(GroupKey, rows, id) && ok(rows)
  }

  ghost predicate Blocks(ok: seq<Row> -> bool, blocks: seq<seq<Row>>, ids: seq<string>) {
    |blocks| == |ids| && forall i | 0 <= i < |ids| :: Block(ok, blocks[i], ids[i])
  }

  ghost predicate EveryGroup(ok: seq<Row> -> bool, rows: seq<Row>) {
    forall id :: ok(WithKey(GroupKey, rows, id))
  }

  lemma {:induction false} IdAbsent(ok: seq<Row> -> bool, blocks: seq<seq<Row>>, ids: seq<string>, id: string)
    requires Blocks(ok, blocks, ids) && id !in ids
    ensures WithKey(GroupKey, Flat(blocks), id) == []
  {
    if |blocks| > 0 {
      var front, last := blocks[..|blocks| - 1], blocks[|blocks| - 1];
      IdAbsent(ok, front, ids[..|ids| - 1], id);
      assert Block(ok, last, ids[|ids| - 1]);
      WithOneKey(GroupKey, last, ids[|ids| - 1], id);
      WithKeyConcat(GroupKey, Flat(front), last, id);
    }
  }

  ghost predicate Filled(group: seq<Row>) {
    |group| > 0 && |group| >= group[0].item.rowCount
  }

  lemma {:induction false} IdFilled(ok: seq<Row> -> bool, blocks: seq<seq<Row>>, ids: seq<string>, id: string)
    requires SizeCheck(ok) && Blocks(ok, blocks, ids) && id in ids
    ensures Filled(WithKey(GroupKey, Flat(blocks), id))
  {
    var n := |blocks| - 1;
    var front, last := blocks[..n], blocks[n];
    assert ids == ids[..n] + [ids[n]];
    assert Blocks(ok, front, ids[..n]) && Block(ok, last, ids[n]);
    WithOneKey(GroupKey, last, ids[n], id);
    WithKeyConcat(GroupKey, Flat(front), last, id);
    if id in ids[..n] {
      IdFilled(ok, front, ids[..n], id);
    } else {
      IdAbsent(ok, front, ids[..n], id);
    }
  }

  /**
   * Adding the first `count` rows of one more block keeps every group accepted exactly when the block is whole and its
   * id new.
   */
  lemma OneMoreBlock(ok: seq<Row> -> bool, blocks: seq<seq<Row>>, ids: seq<string>, last: seq<Row>, own: string,
                     count: nat)
    requires SizeCheck(ok) && Blocks(ok, blocks, ids) && Block(ok, last, own) && 0 < count <= |last|
    ensures EveryGroup(ok, Flat(blocks) + last[..count])
            <==> EveryGroup(ok, Flat(blocks)) && own !in ids && count == |last|
  {
    var rows, part := Flat(blocks), last[..count];
    forall id ensures WithKey(GroupKey, rows + part, id)
        == WithKey(GroupKey, rows, id) + (if id == own then part else []) {
      WithKeyConcat(GroupKey, rows, part, id);
      WithOneKey(GroupKey, part, own, id);
    }
    if own in ids {
      IdFilled(ok, blocks, ids, own);
      assert !ok(WithKey(GroupKey, rows + part, own));
    } else {
      IdAbsent(ok, blocks, ids, own);
      assert WithKey(GroupKey, rows, own) == [] && WithKey(GroupKey, rows + part, own) == part;
      Pointwise(ok, rows, rows + part, own);
      assert ok(part) <==> count == |last| by {
        assert last[..|last|] == last;
        assert part[0] == last[0];
      }
    }
  }

  lemma Pointwise(ok: seq<Row> -> bool, rows: seq<Row>, more: seq<Row>, own: string)
    requires ok(WithKey(GroupKey, rows, own))
    requires forall id | id != own :: WithKey(GroupKey, more, id) == WithKey(GroupKey, rows, id)
    ensures EveryGroup(ok, more) <==> EveryGroup(ok, rows) && ok(WithKey(GroupKey, more, own))
  {
    if EveryGroup(ok, more) {
      forall id ensures ok(WithKey(GroupKey, rows, id)) {
        assert ok(WithKey(GroupKey, more, id));
      }
    }
  }

  lemma {:induction false} WholeBlocks(ok: seq<Row> -> bool, blocks: seq<seq<Row>>, ids: seq<string>)
    requires SizeCheck(ok) && Blocks(ok, blocks, ids)
    ensures EveryGroup(ok, Flat(blocks)) <==> NoRepeats(ids)
  {
    if |blocks| > 0 {
      var n := |blocks| - 1;
      WholeBlocks(ok, blocks[..n], ids[..n]);
      assert Block(ok, blocks[n], ids[n]);
      OneMoreBlock(ok, blocks[..n], ids[..n], blocks[n], ids[n], |blocks[n]|);
      assert blocks[n][..|blocks[n]|] == blocks[n];
      NoRepeatsSnoc(ids[..n], ids[n]);
      assert ids[..n] + [ids[n]] == ids;
    } else {
      forall id ensures WithKey(GroupKey, Flat(blocks), id) == [] {
        WithOneKey(GroupKey, [], id, id);
      }
    }
  }

  lemma NoRepeatsSnoc(ids: seq<string>, id: string)
    ensures NoRepeats(ids + [id]) <==> NoRepeats(ids) && id !in ids
  {
    var all := ids + [id];
    if NoRepeats(all) {
      forall i, j | 0 <= i < j < |ids| ensures ids[i] != ids[j] {
        assert all[i] != all[j];
      }
      forall i | 0 <= i < |ids| ensures ids[i] != id {
        assert all[i] != all[|ids|];
      }
    }
  }

  // ---------------------------------------------------------------- accepted cuts

  predicate GroupOk(rows: seq<Row>) {
    GroupError(rows) == None
  }

  lemma {:induction false} GroupErrorsInOrder(rows: seq<Row>, order: seq<string>)
    ensures FirstGroupError(rows, order) == None <==> forall id | id in order :: GroupOk(WithKey(GroupKey, rows, id))
  {
    if |order| > 0 {
      GroupErrorsInOrder(rows, order[..|order| - 1]);
      assert order == order[..|order| - 1] + [order[|order| - 1]];
    }
  }

  lemma GroupCheckMeaning(rows: seq<Row>)
    ensures FirstGroupError(rows, FirstKeys(GroupKey, rows)) == None <==> EveryGroup(GroupOk, rows)
  {
    var order := FirstKeys(GroupKey, rows);
    GroupErrorsInOrder(rows, order);
    FirstKeysMeaning(GroupKey, rows);
    forall id | id !in order ensures WithKey(GroupKey, rows, id) == [] {
      forall r | r in rows ensures GroupKey(r) != Some(id) {
        var i :| 0 <= i < |rows| && rows[i] == r;
        assert GroupKey(rows[i]).value in Keys(GroupKey, rows);
      }
      WithKeyNone(GroupKey, rows, id);
    }
  }

  lemma GroupOkIsSizeCheck()
    ensures SizeCheck(GroupOk)
  {
  }

  lemma {:induction false} BlocksAccepted(artifacts: Artifacts, groups: seq<Group>)
    requires AllAccepted(artifacts, groups)
    ensures Blocks(GroupOk, BlocksOf(artifacts, groups), GroupIds(groups))
    ensures RowsOk(artifacts, Flat(BlocksOf(artifacts, groups)))
  {
    if |groups| > 0 {
      var front, g := groups[..|groups| - 1], groups[|groups| - 1];
      AcceptedSplit(artifacts, groups);
      BlocksAccepted(artifacts, front);
      BlockAccepted(artifacts, BlocksOf(artifacts, front), GroupIds(front), g);
      BlocksSnoc(artifacts, groups);
    }
  }

  lemma AcceptedSplit(artifacts: Artifacts, groups: seq<Group>)
    requires AllAccepted(artifacts, groups) && |groups| > 0
    ensures AllAccepted(artifacts, groups[..|groups| - 1]) && Accepted(artifacts, groups[|groups| - 1])
  {
  }

  lemma BlocksSnoc(artifacts: Artifacts, groups: seq<Group>)
    requires |groups| > 0
    ensures var front, g := groups[..|groups| - 1], groups[|groups| - 1];
            var blocks := BlocksOf(artifacts, front);
            && BlocksOf(artifacts, groups) == blocks + [MakeRows(g.sessionId, artifacts, g.messages, |Flat(blocks)|)]
            && GroupIds(groups) == GroupIds(front) + [GroupId(g)]
  {
    GroupIdsSnoc(groups[..|groups| - 1], groups[|groups| - 1]);
    assert groups == groups[..|groups| - 1] + [groups[|groups| - 1]];
  }

  lemma GroupIdsSnoc(groups: seq<Group>, g: Group)
    ensures GroupIds(groups + [g]) == GroupIds(groups) + [GroupId(g)]
  {
  }

  lemma BlockAccepted(artifacts: Artifacts, blocks: seq<seq<Row>>, ids: seq<string>, g: Group)
    requires Accepted(artifacts, g) && Blocks(GroupOk, blocks, ids) && RowsOk(artifacts, Flat(blocks))
    ensures var block := MakeRows(g.sessionId, artifacts, g.messages, |Flat(blocks)|);
            Blocks(GroupOk, blocks + [block], ids + [GroupId(g)]) && RowsOk(artifacts, Flat(blocks + [block]))
  {
    var block := MakeRows(g.sessionId, artifacts, g.messages, |Flat(blocks)|);
    AcceptedRows(artifacts, g, |Flat(blocks)|);
    MadeRowsOk(artifacts, Flat(blocks), g.sessionId, g.messages);
    assert (blocks + [block])[..|blocks|] == blocks;
  }

  lemma {:induction false} NoRowError(artifacts: Artifacts, rows: seq<Row>)
    requires RowsOk(artifacts, rows)
    ensures FirstRowError(artifacts, rows) == None
  {
    if |rows| > 0 {
      NoRowError(artifacts, rows[..|rows| - 1]);
    }
  }

  lemma {:induction false} UpToIndexIsPrefix(artifacts: Artifacts, rows: seq<Row>, h: int)
    requires RowsOk(artifacts, rows)
    ensures UpToIndex(rows, h) == if h <= 0 then [] else if h <= |rows| then rows[..h] else rows
  {
    if |rows| > 0 {
      var n := |rows| - 1;
      UpToIndexIsPrefix(artifacts, rows[..n], h);
      assert rows[n].index == n + 1;
      assert rows == rows[..n] + [rows[n]];
      assert 0 <= h <= n ==> rows[..n][..h] == rows[..h];
    }
  }

  /**
   * Over a well-formed log a cut inside it depends only on the group check and the call/result pairing of its prefix.
   */
  lemma CutOfLog(runId: string, artifacts: Artifacts, rows: seq<Row>, h: int)
    requires RowsOk(artifacts, rows)
    ensures h == 0 ==> CutVerdict(runId, artifacts, rows, h).Ok?
    ensures h < 0 || h > |rows| ==> CutVerdict(runId, artifacts, rows, h).Err?
    ensures 0 < h <= |rows| ==>
              (CutVerdict(runId, artifacts, rows, h).Ok? <==>
               EveryGroup(GroupOk, rows[..h]) && PairsMatch(rows[..h]))
  {
    UpToIndexIsPrefix(artifacts, rows, h);
    if 0 < h <= |rows| {
      var cut := rows[..h];
      assert Map(RowIndex, cut) == Span(1, h);
      assert RowsOk(artifacts, cut);
      NoRowError(artifacts, cut);
      GroupCheckMeaning(cut);
      PairingMeaning(cut);
    }
  }

  lemma PairingMeaning(rows: seq<Row>)
    ensures PairingError(rows) == None <==> CallKeys(rows) == ResultKeys(rows)
  {
    var calls, results := CallKeys(rows), ResultKeys(rows);
    if calls - results == {} && results - calls == {} {
      forall k ensures k in calls <==> k in results {
        assert k in calls && k !in results ==> k in calls - results;
        assert k in results && k !in calls ==> k in results - calls;
      }
    }
  }

  // ---------------------------------------------------------------- where a cut falls among the blocks

  lemma {:induction false} FlatPrefix(ok: seq<Row> -> bool, blocks: seq<seq<Row>>, ids: seq<string>, k: nat)
    requires Blocks(ok, blocks, ids) && k <= |blocks|
    ensures Flat(blocks[..k]) <= Flat(blocks)
    ensures k < |blocks| ==> |Flat(blocks[..k])| < |Flat(blocks)|
  {
    if k < |blocks| {
      var n := |blocks| - 1;
      assert blocks[..n][..k] == blocks[..k];
      assert Block(ok, blocks[n], ids[n]);
      FlatPrefix(ok, blocks[..n], ids[..n], k);
    } else {
      assert blocks[..k] == blocks;
    }
  }

  lemma {:induction false} Locate(blocks: seq<seq<Row>>, h: int) returns (k: nat)
    requires 0 < h <= |Flat(blocks)|
    ensures k < |blocks| && |Flat(blocks[..k])| < h <= |Flat(blocks[..k + 1])|
  {
    var n := |blocks| - 1;
    assert blocks[..|blocks|] == blocks;
    if h <= |Flat(blocks[..n])| {
      k := Locate(blocks[..n], h);
      assert blocks[..n][..k] == blocks[..k] && blocks[..n][..k + 1] == blocks[..k + 1];
    } else {
      k := n;
    }
  }

  lemma SliceCut(a: seq<Row>, b: seq<Row>, all: seq<Row>, h: int)
    requires a + b <= all && |a| < h <= |a| + |b|
    ensures all[..h] == a + b[..h - |a|]
  {
    assert all[..|a| + |b|] == a + b;
    assert all[..h] == (a + b)[..h];
  }

  /** A cut inside block `k` keeps every group whole exactly when it takes all of it and no id so far repeats. */
  lemma CutInBlock(ok: seq<Row> -> bool, blocks: seq<seq<Row>>, ids: seq<string>, k: nat, h: int)
    requires SizeCheck(ok) && Blocks(ok, blocks, ids) && k < |blocks|
    requires |Flat(blocks[..k])| < h <= |Flat(blocks[..k + 1])|
    ensures h <= |Flat(blocks)|
    ensures EveryGroup(ok, Flat(blocks)[..h]) <==> h == |Flat(blocks[..k + 1])| && NoRepeats(ids[..k + 1])
  {
    var start := |Flat(blocks[..k])|;
    assert blocks[..k + 1][..k] == blocks[..k];
    assert Block(ok, blocks[k], ids[k]);
    FlatPrefix(ok, blocks, ids, k + 1);
    assert ids[..k + 1] == ids[..k] + [ids[k]];
    assert Flat(blocks)[..h] == Flat(blocks[..k]) + blocks[k][..h - start] by {
      SliceCut(Flat(blocks[..k]), blocks[k], Flat(blocks), h);
    }
    PartialBlock(ok, blocks[..k], ids[..k], blocks[k], ids[k], h - start);
  }

  lemma PartialBlock(ok: seq<Row> -> bool, blocks: seq<seq<Row>>, ids: seq<string>, last: seq<Row>, own: string,
                     count: nat)
    requires SizeCheck(ok) && Blocks(ok, blocks, ids) && Block(ok, last, own) && 0 < count <= |last|
    ensures EveryGroup(ok, Flat(blocks) + last[..count]) <==> count == |last| && NoRepeats(ids + [own])
  {
    WholeBlocks(ok, blocks, ids);
    OneMoreBlock(ok, blocks, ids, last, own, count);
    NoRepeatsSnoc(ids, own);
  }

  lemma SameBoundary(ok: seq<Row> -> bool, blocks: seq<seq<Row>>, ids: seq<string>, j: nat, k: nat, h: int)
    requires Blocks(ok, blocks, ids) && j <= |blocks| && k < |blocks|
    requires |Flat(blocks[..k])| < h <= |Flat(blocks[..k + 1])| && h == |Flat(blocks[..j])|
    ensures j == k + 1
  {
    if j <= k {
      assert blocks[..k][..j] == blocks[..j];
      FlatPrefix(ok, blocks[..k], ids[..k], j);
    } else {
      assert blocks[..j][..k + 1] == blocks[..k + 1];
      FlatPrefix(ok, blocks[..j], ids[..j], k + 1);
    }
  }

  /** The cut at `h` takes exactly the first `k` blocks; their ids are distinct and their rows pass `fine`. */
  ghost predicate CleanHead(fine: seq<Row> -> bool, blocks: seq<seq<Row>>, ids: seq<string>, h: int, k: nat)
    requires k <= |blocks| == |ids|
  {
    k > 0 && h == |Flat(blocks[..k])| && NoRepeats(ids[..k]) && fine(Flat(blocks[..k]))
  }

  lemma CutOfBlocks(ok: seq<Row> -> bool, fine: seq<Row> -> bool, blocks: seq<seq<Row>>, ids: seq<string>, h: int)
    requires SizeCheck(ok) && Blocks(ok, blocks, ids)
    ensures 0 < h <= |Flat(blocks)| && EveryGroup(ok, Flat(blocks)[..h]) && fine(Flat(blocks)[..h])
            <==> exists k | 0 <= k <= |blocks| :: CleanHead(fine, blocks, ids, h, k)
  {
    forall k | 0 < k <= |blocks|
      ensures Flat(blocks[..k]) <= Flat(blocks) && |Flat(blocks[..k])| > 0
    {
      FlatPrefix(ok, blocks, ids, k);
      FlatPrefix(ok, blocks[..k], ids[..k], 0);
    }
    if 0 < h <= |Flat(blocks)| {
      var k := Locate(blocks, h);
      CutInBlock(ok, blocks, ids, k, h);
      forall j | 0 < j <= |blocks| && h == |Flat(blocks[..j])| ensures j == k + 1 {
        SameBoundary(ok, blocks, ids, j, k, h);
      }
      assert h == |Flat(blocks[..k + 1])| ==> Flat(blocks)[..h] == Flat(blocks[..k + 1]);
      if EveryGroup(ok, Flat(blocks)[..h]) && fine(Flat(blocks)[..h]) {
        assert CleanHead(fine, blocks, ids, h, k + 1);
      }
    }
  }

  /** The rows of the first `k` accepted appends. */
  function Head(artifacts: Artifacts, groups: seq<Group>, k: nat): seq<Row>
    requires k <= |groups|
  {
    Flat(BlocksOf(artifacts, groups)[..k])
  }

  predicate PairsMatch(rows: seq<Row>) {
    CallKeys(rows) == ResultKeys(rows)
  }

  /**
   * The cut at `h` ends exactly with the first `k` groups; their ids are distinct and their calls and results match.
   */
  ghost predicate CleanBoundary(artifacts: Artifacts, groups: seq<Group>, h: int, k: nat)
    requires k <= |groups|
  {
    CleanHead(PairsMatch, BlocksOf(artifacts, groups), GroupIds(groups), h, k)
  }

  /**
   * Over the log of any run, a cut is accepted exactly when it is empty, or ends a group such that all groups up to it
   * have distinct ids and every call among them has a result and every result a call.
   */
  lemma CutAccepted(runId: string, artifacts: Artifacts, groups: seq<Group>, h: int)
    requires AllAccepted(artifacts, groups)
    ensures CutVerdict(runId, artifacts, RowsOf(artifacts, groups), h).Ok?
            <==> h == 0 || exists k | 0 <= k <= |groups| :: CleanBoundary(artifacts, groups, h, k)
  {
    BlocksAccepted(artifacts, groups);
    CutOfBlockedLog(runId, artifacts, BlocksOf(artifacts, groups), GroupIds(groups), h);
    forall k | 0 <= k <= |groups|
      ensures CleanBoundary(artifacts, groups, h, k)
              <==> CleanHead(PairsMatch, BlocksOf(artifacts, groups), GroupIds(groups), h, k)
    {
    }
  }

  lemma CutOfBlockedLog(runId: string, artifacts: Artifacts, blocks: seq<seq<Row>>, ids: seq<string>, h: int)
    requires Blocks(GroupOk, blocks, ids) && RowsOk(artifacts, Flat(blocks))
    ensures CutVerdict(runId, artifacts, Flat(blocks), h).Ok?
            <==> h == 0 || exists k | 0 <= k <= |blocks| :: CleanHead(PairsMatch, blocks, ids, h, k)
  {
    GroupOkIsSizeCheck();
    CutOfLog(runId, artifacts, Flat(blocks), h);
    CutOfBlocks(GroupOk, PairsMatch, blocks, ids, h);
  }
}
