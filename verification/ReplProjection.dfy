/**
 * Overwriting the durable projection from process messages (runtime/prompt_executor.py): which row each message stands
 * for, and what an omission's snapshot keeps.
 */
module ReplProjection {
  import opened Wrappers
  import opened Seqs
  import opened ModelContext
  import opened ConversationLog
  import opened ReplConversation
  import Q = QueryControl
  import M = ContextManager
  import E = EvictionLaws
  import H = ReplHistory

  // ---------------------------------------------------------------- references for messages

  /** A retained message without a durable index, or with one beyond the projection's high watermark. */
  datatype RefError = MissingIndex | OutsideWatermark

  predicate IsSummary(m: Message) {
    m.kind == "context_summary"
  }

  /** A summary stands for the row just written for it; any other message for the row in its metadata. */
  function RefOf(m: Message, highest: int, summaryRow: Option<int>): Result<Ref, RefError> {
    if IsSummary(m) && summaryRow.Some? then Ok(Index(summaryRow.value))
    else if m.metadata.durableIndex.None? then Err(MissingIndex)
    else if m.metadata.durableIndex.value < 1 || m.metadata.durableIndex.value > highest then Err(OutsideWatermark)
    else Ok(Index(m.metadata.durableIndex.value))
  }

  function RefsOf(messages: seq<Message>, highest: int, summaryRow: Option<int>): Result<seq<Ref>, RefError> {
    if |messages| == 0 then Ok([])
    else
      var earlier, own := RefsOf(messages[..|messages| - 1], highest, summaryRow),
          RefOf(messages[|messages| - 1], highest, summaryRow);
      if earlier.Err? then earlier
      else if own.Err? then Err(own.error)
      else Ok(earlier.value + [own.value])
  }

  /** The new references; a summary row that no message stands for comes first. */
  function ProjectionRefs(messages: seq<Message>, highest: int, summaryRow: Option<int>): Result<seq<Ref>, RefError> {
    var refs := RefsOf(messages, highest, summaryRow);
    if refs.Err? then refs
    else if summaryRow.Some? && forall m | m in messages :: !IsSummary(m)
    then Ok([Index(summaryRow.value)] + refs.value)
    else refs
  }

  method BuildProjectionRefs(messages: seq<Message>, highest: int, summaryRow: Option<int>)
      returns (r: Result<seq<Ref>, RefError>)
    ensures r == ProjectionRefs(messages, highest, summaryRow)
  {
    var refs: seq<Ref>, used := [], false;
    for i := 0 to |messages|
      invariant RefsOf(messages[..i], highest, summaryRow) == Ok(refs)
      invariant used <==> summaryRow.Some? && exists m | m in messages[..i] :: IsSummary(m)
    {
      var m := messages[i];
      assert messages[..i + 1] == messages[..i] + [m] && messages[..i + 1][..i] == messages[..i];
      if IsSummary(m) && summaryRow.Some? {
        refs, used := refs + [Index(summaryRow.value)], true;
      } else {
        var own := RefOf(m, highest, summaryRow);
        if own.Err? {
          FirstErrorStays(messages, highest, summaryRow, i + 1);
          return Err(own.error);
        }
        refs := refs + [own.value];
      }
    }
    assert messages[..|messages|] == messages;
    r := Ok(if summaryRow.Some? && !used then [Index(summaryRow.value)] + refs else refs);
  }

  lemma {:induction false} FirstErrorStays(messages: seq<Message>, highest: int, summaryRow: Option<int>, n: nat)
    requires n <= |messages| && RefsOf(messages[..n], highest, summaryRow).Err?
    ensures RefsOf(messages, highest, summaryRow) == RefsOf(messages[..n], highest, summaryRow)
    decreases |messages|
  {
    if n < |messages| {
      assert messages[..|messages| - 1][..n] == messages[..n];
      FirstErrorStays(messages[..|messages| - 1], highest, summaryRow, n);
    } else {
      assert messages[..n] == messages;
    }
  }

  /** The row a message stands for, when all is well. */
  function RowFor(m: Message, summaryRow: Option<int>): int {
    if IsSummary(m) && summaryRow.Some? then summaryRow.value
    else if m.metadata.durableIndex.Some? then m.metadata.durableIndex.value
    else 0
  }

  ghost predicate Resolvable(messages: seq<Message>, highest: int, summaryRow: Option<int>) {
    forall i | 0 <= i < |messages| :: RefOf(messages[i], highest, summaryRow).Ok?
  }

  /** References exist exactly when every message stands for a row, and then name those rows in order. */
  lemma {:induction false} RefsMeaning(messages: seq<Message>, highest: int, summaryRow: Option<int>)
    ensures RefsOf(messages, highest, summaryRow).Ok? <==> Resolvable(messages, highest, summaryRow)
    ensures RefsOf(messages, highest, summaryRow).Ok? ==>
              RefsOf(messages, highest, summaryRow).value == Map(IndexRef, Map(m => RowFor(m, summaryRow), messages))
  {
    if |messages| > 0 {
      var n := |messages| - 1;
      RefsMeaning(messages[..n], highest, summaryRow);
      assert forall i | 0 <= i < n :: messages[..n][i] == messages[i];
      var row := (m: Message) => RowFor(m, summaryRow);
      assert Map(row, messages) == Map(row, messages[..n]) + [row(messages[n])];
      MapSnoc(IndexRef, Map(row, messages[..n]), row(messages[n]));
      assert RefOf(messages[n], highest, summaryRow).Ok? ==>
          RefOf(messages[n], highest, summaryRow).value == IndexRef(row(messages[n]));
    }
  }

  // ---------------------------------------------------------------- what an omission keeps

  /** The messages an omission blanks and those it leaves out of the durable projection are judged on this history. */
  function Snapshot(conversation: seq<Message>, retain: int): seq<Message> {
    var ms := ToMessages(conversation);
    Filter((m: Message) => m.seqNo !in Q.IdsInGroups(ms, Q.NonEvictable(ms, retain)), M.Omitted(ms, retain))
  }

  /** The i-th message, from 1, belongs to a protected group. */
  predicate InSuffix(conversation: seq<Message>, retain: int, i: int) {
    && 1 <= i <= |conversation|
    && conversation[i - 1].modelCallId.Some?
       && conversation[i - 1].modelCallId.value in Q.NonEvictable(conversation, retain)
  }

  function Keeps(conversation: seq<Message>, retain: int): int -> bool {
    i => !InSuffix(conversation, retain, i)
  }

  /** Every message's metadata will name the row at its own place once it is a message of its own class. */
  ghost predicate OwnRows(conversation: seq<Message>) {
    forall i | 0 <= i < |conversation| :: Held(conversation[i]).metadata.durableIndex == Some(i + 1)
  }

  lemma SuffixSeqs(conversation: seq<Message>, ms: seq<Message>, ids: set<string>, i: int)
    requires StrictlyOrdered(conversation) && E.SameShape(conversation, ms) && 0 <= i < |ms|
    ensures ms[i].seqNo in Q.IdsInGroups(ms, ids)
            <==> conversation[i].modelCallId.Some? && conversation[i].modelCallId.value in ids
  {
    assert E.Alike(conversation[i], ms[i]);
    assert ms[i] in ms;
    if ms[i].seqNo in Q.IdsInGroups(ms, ids) {
      var m :| m in ms && m.modelCallId.Some? && m.modelCallId.value in ids && m.seqNo == ms[i].seqNo;
      var j :| 0 <= j < |ms| && ms[j] == m;
      assert E.Alike(conversation[j], ms[j]);
      assert conversation[i].seqNo == conversation[j].seqNo;
      assert i == j;
    }
  }

  function RowInMetadata(m: Message): int {
    RowFor(m, None)
  }

  lemma FilterRowsSnoc(p: Message -> bool, kept: int -> bool, front: seq<Message>, last: Message)
    requires RowInMetadata(last) == |front| + 1 && (p(last) <==> kept(|front| + 1))
    requires Map(RowInMetadata, Filter(p, front)) == Filter(kept, Span(1, |front|))
    ensures Map(RowInMetadata, Filter(p, front + [last])) == Filter(kept, Span(1, |front| + 1))
  {
    var n := |front|;
    assert Span(1, n + 1) == Span(1, n) + [n + 1];
    FilterSnoc(kept, Span(1, n), n + 1);
    FilterSnoc(p, front, last);
    if p(last) {
      MapSnoc(RowInMetadata, Filter(p, front), last);
    }
  }

  /** Filtering messages that stand for rows 1, 2, … is filtering those numbers. */
  lemma {:induction false} FilterRows(p: Message -> bool, kept: int -> bool, ms: seq<Message>)
    requires forall i | 0 <= i < |ms| :: RowInMetadata(ms[i]) == i + 1 && (p(ms[i]) <==> kept(i + 1))
    ensures Map(RowInMetadata, Filter(p, ms)) == Filter(kept, Span(1, |ms|))
  {
    if |ms| > 0 {
      var n := |ms| - 1;
      FilterRows(p, kept, ms[..n]);
      FilterRowsSnoc(p, kept, ms[..n], ms[n]);
      assert ms == ms[..n] + [ms[n]];
    }
  }

  lemma KeptHere(conversation: seq<Message>, retain: int, i: nat)
    requires StrictlyOrdered(conversation) && OwnRows(conversation) && i < |conversation|
    ensures var ms := ToMessages(conversation);
            var r := M.Omitted(ms, retain);
            && |r| == |conversation| && RowInMetadata(r[i]) == i + 1 && r[i].seqNo == ms[i].seqNo
            && r[i].metadata.durableIndex == Some(i + 1)
            && (r[i].seqNo !in Q.IdsInGroups(ms, Q.NonEvictable(ms, retain)) <==> Keeps(conversation, retain)(i + 1))
  {
    var ms := ToMessages(conversation);
    H.HeldShape(conversation);
    E.OnlyShapeMatters(conversation, ms, retain);
    SuffixSeqs(conversation, ms, Q.NonEvictable(ms, retain), i);
    assert ms[i] == Held(conversation[i]);
  }

  /** The references an omission leaves: the numbers of the messages outside the protected suffix, in order. */
  lemma SnapshotRefsAre(conversation: seq<Message>, retain: int, highest: int)
    requires StrictlyOrdered(conversation) && OwnRows(conversation) && |conversation| <= highest
    ensures ProjectionRefs(Snapshot(conversation, retain), highest, None)
            == Ok(Map(IndexRef, Filter(Keeps(conversation, retain), Span(1, |conversation|))))
  {
    var ms := ToMessages(conversation);
    var r, p := M.Omitted(ms, retain), (m: Message) => m.seqNo !in Q.IdsInGroups(ms, Q.NonEvictable(ms, retain));
    forall i: nat | i < |r|
      ensures RowInMetadata(r[i]) == i + 1 && r[i].metadata.durableIndex == Some(i + 1)
              && (p(r[i]) <==> Keeps(conversation, retain)(i + 1))
    {
      KeptHere(conversation, retain, i);
    }
    FilterRows(p, Keeps(conversation, retain), r);
    var s := Snapshot(conversation, retain);
    FilterMeaning(p, r);
    forall j | 0 <= j < |s| ensures RefOf(s[j], highest, None).Ok? {
      assert s[j] in s;
      var i :| 0 <= i < |r| && r[i] == s[j];
    }
    RefsMeaning(s, highest, None);
    assert Map(m => RowFor(m, None), s) == Map(RowInMetadata, s);
  }
}
