/**
 * Every conversation an interactive process can come to hold: over turns with or without omission and compression,
 * manual compressions, turns that fail at their start, and resumes (runtime/orchestrator.py,
 * runtime/prompt_executor.py), what is ordered, which ids are fresh, and which groups are evictable.
 */
module ReplHistory {
  import opened Wrappers
  import opened Seqs
  import opened ModelContext
  import opened QueryControl
  import opened ContextManager
  import opened EvictionLaws
  import opened ReplConversation
  import T = ToolLoopIds
  import L = ConversationLog

  // ---------------------------------------------------------------- what holds of every conversation

  /** A model call id as the adapter hands it out, before the executor scopes it to a turn. */
  predicate Unscoped(id: string) {
    |id| > 0 && id[0] == 'm'
  }

  /** An answer of this process that had something to consume. */
  predicate Marking(m: Message) {
    |m.metadata.consumed| > 0
  }

  /** Ids in groups and in consumption marks name turns up to the c-th. */
  ghost predicate KnownTurns(c: nat, ms: seq<Message>) {
    && (forall m | m in ms && m.modelCallId.Some? :: ExtractTurn(m.modelCallId.value) <= c)
    && (forall m, g | m in ms && g in m.metadata.consumed :: ExtractTurn(g) <= c)
  }

  /** A marking answer consumes every group that began before it. */
  ghost predicate MarksAllBefore(ms: seq<Message>) {
    forall a, g | a in ms && Marking(a) && g in GroupIds(ms) && StartSeq(ms, g) < a.seqNo :: g in a.metadata.consumed
  }

  /** And, of groups under ids of their own turn, no other. */
  ghost predicate MarksOnlyBefore(ms: seq<Message>) {
    forall a, g | a in ms && g in a.metadata.consumed && g in GroupIds(ms) && !Unscoped(g) :: StartSeq(ms, g) < a.seqNo
  }

  ghost predicate Good(c: nat, ms: seq<Message>) {
    && StrictlyOrdered(ms) && SummariesUngrouped(ms) && NoStored(ms)
    && KnownTurns(c, ms) && MarksAllBefore(ms) && MarksOnlyBefore(ms)
  }

  /** An answer of this process came after the group had begun. */
  ghost predicate MarkedLater(ms: seq<Message>, g: string) {
    exists a | a in ms :: Marking(a) && StartSeq(ms, g) < a.seqNo
  }

  /** A message from before the group began already marks it. */
  ghost predicate MarkedFirst(ms: seq<Message>, g: string) {
    exists a | a in ms :: g in a.metadata.consumed && a.seqNo <= StartSeq(ms, g)
  }

  /**
   * A group is consumed by an answer that came after it had begun, or by a mark older than itself, on a raw id only.
   */
  lemma ConsumedIff(c: nat, ms: seq<Message>, g: string)
    requires Good(c, ms) && g in GroupIds(ms)
    ensures Consumed(ms, g) <==> MarkedLater(ms, g) || MarkedFirst(ms, g)
    ensures MarkedFirst(ms, g) ==> Unscoped(g)
  {
    if MarkedLater(ms, g) {
      var a :| a in ms && Marking(a) && StartSeq(ms, g) < a.seqNo;
      assert g in a.metadata.consumed;
    }
    if Consumed(ms, g) {
      var a :| a in ms && g in a.metadata.consumed;
      assert Marking(a);
    }
  }

  /**
   * What is evictable in such a conversation: exactly the closed groups with at least `retain` closed groups after them
   * that an answer came after, or that bear a raw id an older message marks.
   */
  lemma EvictableIff(c: nat, ms: seq<Message>, retain: int, g: string)
    requires Good(c, ms)
    ensures g in Evictable(ms, retain)
            <==> && g in ClosedIds(ms) && (MarkedLater(ms, g) || MarkedFirst(ms, g))
                 && |LaterClosed(ms, g)| >= retain
    ensures g in GroupIds(ms) && MarkedFirst(ms, g) ==> Unscoped(g)
  {
    if g in GroupIds(ms) {
      ConsumedIff(c, ms, g);
    }
  }

  // ---------------------------------------------------------------- where groups start

  lemma StartMeaning(ms: seq<Message>, g: string)
    requires g in GroupIds(ms)
    ensures exists m | m in ms :: InGroup(m, g) && m.seqNo == StartSeq(ms, g)
    ensures forall m | m in ms && InGroup(m, g) :: StartSeq(ms, g) <= m.seqNo
  {
    var own := Members(ms, g);
    WithKeyMeaning(CallOf, ms, g);
    assert forall m :: m in own <==> m in ms && InGroup(m, g);
    var m :| m in ms && m.modelCallId == Some(g);
    assert m in own;
    MinSeqMeaning(own);
  }

  ghost predicate Follows(ms: seq<Message>, more: seq<Message>) {
    forall m, x | m in ms && x in more :: m.seqNo < x.seqNo
  }

  lemma GroupsConcat(ms: seq<Message>, more: seq<Message>)
    ensures GroupIds(ms + more) == GroupIds(ms) + GroupIds(more)
  {
    assert forall m :: m in ms + more <==> m in ms || m in more;
  }

  /** Later messages leave the start of a group that is there where it is. */
  lemma StartKept(ms: seq<Message>, more: seq<Message>, g: string)
    requires Follows(ms, more) && g in GroupIds(ms)
    ensures g in GroupIds(ms + more) && StartSeq(ms + more, g) == StartSeq(ms, g)
  {
    GroupsConcat(ms, more);
    StartMeaning(ms, g);
    StartMeaning(ms + more, g);
    var first :| first in ms && InGroup(first, g) && first.seqNo == StartSeq(ms, g);
    var m :| m in ms + more && InGroup(m, g) && m.seqNo == StartSeq(ms + more, g);
    assert first in ms + more;
    assert m in ms || first.seqNo < m.seqNo;
  }

  /** A group that is new starts after everything that was there. */
  lemma StartNew(ms: seq<Message>, more: seq<Message>, g: string)
    requires Follows(ms, more) && g in GroupIds(ms + more) && g !in GroupIds(ms)
    ensures g in GroupIds(more) && forall m | m in ms :: m.seqNo < StartSeq(ms + more, g)
    ensures forall x | x in more && InGroup(x, g) :: StartSeq(ms + more, g) <= x.seqNo
  {
    GroupsConcat(ms, more);
    StartMeaning(ms + more, g);
    var x :| x in ms + more && InGroup(x, g) && x.seqNo == StartSeq(ms + more, g);
    assert x in more;
  }

  // ---------------------------------------------------------------- what keeps it

  lemma ShapeGood(c: nat, ms: seq<Message>, r: seq<Message>)
    requires Good(c, ms) && SameShape(ms, r) && NoStored(r)
    ensures Good(c, r)
  {
    ShapeGroups(ms, r);
    forall m | m in r ensures exists x | x in ms :: Alike(x, m) {
      var i :| 0 <= i < |r| && r[i] == m;
      assert ms[i] in ms && Alike(ms[i], m);
    }
    assert StrictlyOrdered(r) by {
      assert forall i | 0 <= i < |r| :: Alike(ms[i], r[i]);
    }
  }

  lemma CompressedGood(c: nat, b: Budgeting, retain: int, json: string, ms: seq<Message>, r: seq<Message>)
    requires Good(c, ms) && Compresses(b, retain, json, ms, r)
    ensures Good(c, r)
  {
    var plan := PlanCompression(b, ms, retain).value;
    PlanEvicts(b, ms, retain, plan);
    ReplacementContents(ms, plan, json, r);
    forall g | g in GroupIds(r) ensures g in GroupIds(ms) && StartSeq(r, g) == StartSeq(ms, g) {
      SurvivingGroups(ms, plan, json, r, g);
      SameGroupFacts(ms, r, g);
    }
    KeepsGood(c, ms, SummaryMessage(MinSeq(plan.evicted), json), r);
  }

  lemma KeepsGood(c: nat, ms: seq<Message>, summary: Message, r: seq<Message>)
    requires Good(c, ms) && StrictlyOrdered(r)
    requires summary.modelCallId == None && summary.metadata == PLAIN && summary.estimatedTokens == None
    requires forall m | m in r :: m == summary || m in ms
    requires forall g | g in GroupIds(r) :: g in GroupIds(ms) && StartSeq(r, g) == StartSeq(ms, g)
    ensures Good(c, r)
  {
  }

  ghost predicate QuietMessage(k: nat, m: Message) {
    && m.metadata == PLAIN && m.estimatedTokens == None && (m.kind == "context_summary" ==> m.modelCallId == None)
    && (m.modelCallId.Some? ==> ExtractTurn(m.modelCallId.value) == k || Unscoped(m.modelCallId.value))
    && TurnOf(m.modelCallId) <= k
  }

  ghost predicate Quiet(k: nat, more: seq<Message>) {
    forall m | m in more :: QuietMessage(k, m)
  }

  lemma OwnTurn(k: nat, more: seq<Message>)
    requires Quiet(k, more)
    ensures forall g | g in GroupIds(more) && !Unscoped(g) :: ExtractTurn(g) == k
  {
    forall g | g in GroupIds(more) && !Unscoped(g) ensures ExtractTurn(g) == k {
      var x :| x in more && x.modelCallId == Some(g);
      assert QuietMessage(k, x);
    }
  }

  lemma OrderedConcat(ms: seq<Message>, more: seq<Message>)
    requires StrictlyOrdered(ms) && StrictlyOrdered(more) && Follows(ms, more)
    ensures StrictlyOrdered(ms + more)
  {
    var all := ms + more;
    forall i, j | 0 <= i < j < |all| ensures all[i].seqNo < all[j].seqNo {
      if i < |ms| <= j {
        assert all[i] in ms && all[j] in more;
      }
    }
  }

  /** Messages of a later turn that mark nothing. */
  lemma QuietAppend(c: nat, k: nat, ms: seq<Message>, more: seq<Message>)
    requires Good(c, ms) && c < k && Quiet(k, more) && StrictlyOrdered(more) && Follows(ms, more)
    ensures Good(k, ms + more)
  {
    var all := ms + more;
    assert forall m :: m in all <==> m in ms || m in more;
    OrderedConcat(ms, more);
    forall a, g | a in all && Marking(a) && g in GroupIds(all) && StartSeq(all, g) < a.seqNo
      ensures g in a.metadata.consumed
    {
      assert a in ms;
      if g in GroupIds(ms) {
        StartKept(ms, more, g);
      } else {
        StartNew(ms, more, g);
      }
    }
    forall a, g | a in all && g in a.metadata.consumed && g in GroupIds(all) && !Unscoped(g)
      ensures StartSeq(all, g) < a.seqNo
    {
      assert a in ms && ExtractTurn(g) <= c;
      GroupsConcat(ms, more);
      OwnTurn(k, more);
      assert g in GroupIds(ms);
      StartKept(ms, more, g);
    }
  }

  /** The answer's group starts with it; all others where they did. */
  ghost predicate AnswerStarts(ms: seq<Message>, answer: Message, id: string) {
    var all := ms + [answer];
    && GroupIds(all) == GroupIds(ms) + {id} && id !in GroupIds(ms) && StartSeq(all, id) == answer.seqNo
    && forall g | g in GroupIds(ms) :: StartSeq(all, g) == StartSeq(ms, g) < answer.seqNo
  }

  lemma AnswerStart(ms: seq<Message>, answer: Message, id: string)
    requires id !in GroupIds(ms) && answer.modelCallId == Some(id) && forall m | m in ms :: m.seqNo < answer.seqNo
    ensures AnswerStarts(ms, answer, id)
  {
    var all, more := ms + [answer], [answer];
    assert answer in more && answer in all;
    GroupsConcat(ms, more);
    assert GroupIds(more) == {id};
    StartNew(ms, more, id);
    StartMeaning(all, id);
    forall g | g in GroupIds(ms) ensures StartSeq(all, g) == StartSeq(ms, g) < answer.seqNo {
      StartKept(ms, more, g);
      StartMeaning(ms, g);
    }
  }

  lemma MarksWithAnswer(ms: seq<Message>, answer: Message, id: string)
    requires MarksAllBefore(ms) && MarksOnlyBefore(ms) && AnswerStarts(ms, answer, id)
    requires (forall m | m in ms :: m.seqNo < answer.seqNo) && forall m | m in ms :: id !in m.metadata.consumed
    requires forall g :: g in answer.metadata.consumed <==> g in GroupIds(ms)
    ensures MarksAllBefore(ms + [answer]) && MarksOnlyBefore(ms + [answer])
  {
    var all := ms + [answer];
    assert forall m :: m in all <==> m in ms || m == answer;
  }

  /** A fresh answer that marks every group there is. */
  lemma AnswerAppend(k: nat, ms: seq<Message>, answer: Message, id: string)
    requires Good(k, ms) && FreshAnswer(ms, answer, id)
    requires answer.estimatedTokens == None && answer.kind != "context_summary" && ExtractTurn(id) <= k
    requires forall g | g in answer.metadata.consumed :: g in GroupIds(ms)
    ensures Good(k, ms + [answer])
  {
    var all := ms + [answer];
    OrderedConcat(ms, [answer]);
    AnswerStart(ms, answer, id);
    MarksWithAnswer(ms, answer, id);
    AnswerKnown(k, ms, answer);
  }

  lemma AnswerKnown(k: nat, ms: seq<Message>, answer: Message)
    requires KnownTurns(k, ms) && TurnOf(answer.modelCallId) <= k
             && forall g | g in answer.metadata.consumed :: g in GroupIds(ms)
    ensures KnownTurns(k, ms + [answer])
  {
    assert forall m :: m in ms + [answer] <==> m in ms || m == answer;
    forall g | g in answer.metadata.consumed ensures ExtractTurn(g) <= k {
      var m :| m in ms && m.modelCallId == Some(g);
    }
  }

  // ---------------------------------------------------------------- turns

  predicate LoopIdOk(k: nat, id: string) {
    InTurnScope(TurnId(k), id) || Unscoped(id)
  }

  /**
   * Tool-loop messages of turn k: under ids of the turn or, where approval was refused in the first round, under raw
   * ids.
   */
  ghost predicate LoopOk(k: nat, loop: seq<T.Converted>) {
    forall i | 0 <= i < |loop| ::
      loop[i].kind != "context_summary" && (loop[i].modelCallId.Some? ==> LoopIdOk(k, loop[i].modelCallId.value))
  }

  lemma UnscopedNamesNone(id: string)
    requires Unscoped(id)
    ensures ExtractTurn(id) == 0 && !HasPrefix(id, TURN)
  {
    assert TURN[0] == 't' && REPL_TURN[0] == 'r';
  }

  lemma ScopedHasPrefix(k: nat, id: string)
    requires InTurnScope(TurnId(k), id)
    ensures HasPrefix(id, TURN)
  {
    var turn := TurnId(k);
    assert id[..|TURN|] == id[..|turn| + 1][..|TURN|] == (turn + ":")[..|TURN|] == TURN;
  }

  lemma LoopMessageQuiet(n: int, k: nat, c: T.Converted)
    requires c.kind != "context_summary" && (c.modelCallId.Some? ==> LoopIdOk(k, c.modelCallId.value))
    ensures QuietMessage(k, ToolLoopMessage(n, k, c))
    ensures c.modelCallId.Some? ==> c.modelCallId.value != AnswerCallId(k)
  {
    if c.modelCallId.Some? {
      var id := c.modelCallId.value;
      AnswerIdNamesTurn(k);
      if InTurnScope(TurnId(k), id) {
        ScopedIdNamesTurn(k, id);
        ScopedHasPrefix(k, id);
      } else {
        UnscopedNamesNone(id);
        assert AnswerCallId(k)[0] == 'r';
      }
    }
  }

  lemma OpeningQuiet(conversation: seq<Message>, k: nat, text: string, loop: seq<T.Converted>)
    requires LoopOk(k, loop)
    ensures var opening := Opening(conversation, k, text, loop);
            && Quiet(k, opening) && AnswerCallId(k) !in GroupIds(opening)
            && StrictlyOrdered(opening) && Follows(conversation, opening)
  {
    var opening, n := Opening(conversation, k, text, loop), NextSeq(conversation);
    OpeningShape(conversation, k, text, loop);
    MaxSeqBounds(conversation);
    forall m | m in opening
      ensures QuietMessage(k, m) && m.modelCallId != Some(AnswerCallId(k))
              && forall x | x in conversation :: x.seqNo < m.seqNo
    {
      var i :| 0 <= i < |opening| && opening[i] == m;
      if i > 0 {
        assert m == ToolLoopMessages(n + 1, k, loop)[i - 1] == ToolLoopMessage(n + 1 + (i - 1), k, loop[i - 1]);
        LoopMessageQuiet(n + 1 + (i - 1), k, loop[i - 1]);
      }
    }
  }

  lemma AnswerIdFresh(c: nat, ms: seq<Message>, opening: seq<Message>, k: nat)
    requires KnownTurns(c, ms) && c < k && Quiet(k, opening) && AnswerCallId(k) !in GroupIds(opening)
    ensures AnswerCallId(k) !in GroupIds(ms + opening) && !Consumed(ms + opening, AnswerCallId(k))
  {
    var id, all := AnswerCallId(k), ms + opening;
    AnswerIdNamesTurn(k);
    GroupsConcat(ms, opening);
    assert forall m :: m in all <==> m in ms || m in opening;
    assert forall m | m in opening :: QuietMessage(k, m);
  }

  /** Good, and turn k's answer can still come under its own id. */
  ghost predicate Ready(k: nat, ms: seq<Message>) {
    Good(k, ms) && AnswerCallId(k) !in GroupIds(ms) && !Consumed(ms, AnswerCallId(k))
  }

  lemma OpenedReady(c: nat, k: nat, ms: seq<Message>, opening: seq<Message>)
    requires Good(c, ms) && c < k && Quiet(k, opening) && AnswerCallId(k) !in GroupIds(opening)
    requires StrictlyOrdered(opening) && Follows(ms, opening)
    ensures Ready(k, ms + opening)
  {
    QuietAppend(c, k, ms, opening);
    AnswerIdFresh(c, ms, opening, k);
  }

  ghost predicate EndsWell(k: nat, ms: seq<Message>, last: Message, ending: Ending) {
    Good(k, ms + [last]) && (ending.Answered? ==> FreshAnswer(ms, last, AnswerCallId(k)))
  }

  lemma EndGood(k: nat, ms: seq<Message>, n: int, ending: Ending, last: Message)
    requires Ready(k, ms) && last == EndMessage(n, k, ending, ConsumedIds(ms)) && StrictlyOrdered(ms + [last])
    ensures EndsWell(k, ms, last, ending)
  {
    LastIsLatest(ms, last);
    if ending.Answered? {
      FreshAnswerOfTurn(k, ms, last);
    } else {
      QuietLast(k, ms, last);
    }
  }

  /** The conversation of a turn before its last message, and that message. */
  ghost predicate TurnSplits(ms: seq<Message>, k: nat, text: string, loop: seq<T.Converted>, ending: Ending,
                             begun: seq<Message>, last: Message) {
    && begun == ms + Opening(ms, k, text, loop)
    && last == EndMessage(NextSeq(ms) + 1 + |loop|, k, ending, ConsumedIds(begun))
    && WithTurn(ms, k, text, loop, ending) == begun + [last]
  }

  lemma TurnOpens(c: nat, k: nat, ms: seq<Message>, text: string, loop: seq<T.Converted>)
    requires Good(c, ms) && k == c + 1 && LoopOk(k, loop)
    ensures Ready(k, ms + Opening(ms, k, text, loop))
  {
    OpeningQuiet(ms, k, text, loop);
    OpenedReady(c, k, ms, Opening(ms, k, text, loop));
  }

  lemma TurnEnds(c: nat, k: nat, ms: seq<Message>, text: string, loop: seq<T.Converted>, ending: Ending,
                 begun: seq<Message>, last: Message)
    requires Good(c, ms) && k == c + 1 && LoopOk(k, loop) && TurnSplits(ms, k, text, loop, ending, begun, last)
    ensures EndsWell(k, begun, last, ending)
  {
    TurnOpens(c, k, ms, text, loop);
    TurnKeepsOrder(ms, k, text, loop, ending);
    EndGood(k, begun, NextSeq(ms) + 1 + |loop|, ending, last);
  }

  /** A turn, however it ends, keeps all of it; the turn number moves on. */
  lemma TurnGood(c: nat, conversation: seq<Message>, text: string, loop: seq<T.Converted>, ending: Ending)
    requires Good(c, conversation) && LoopOk(c + 1, loop)
    ensures Good(c + 1, WithTurn(conversation, c + 1, text, loop, ending))
  {
    var begun := conversation + Opening(conversation, c + 1, text, loop);
    TurnEnds(c, c + 1, conversation, text, loop, ending, begun,
             EndMessage(NextSeq(conversation) + 1 + |loop|, c + 1, ending, ConsumedIds(begun)));
  }

  lemma FreshAnswerOfTurn(k: nat, ms: seq<Message>, last: Message)
    requires Good(k, ms) && AnswerCallId(k) !in GroupIds(ms) && !Consumed(ms, AnswerCallId(k))
    requires forall m | m in ms :: m.seqNo < last.seqNo
    requires last.modelCallId == Some(AnswerCallId(k)) && last.kind == "assistant_output"
             && last.estimatedTokens == None
    requires last.metadata == PLAIN.(consumed := ConsumedIds(ms))
    ensures FreshAnswer(ms, last, AnswerCallId(k)) && Good(k, ms + [last])
  {
    AnswerIdNamesTurn(k);
    ConsumedIdsAll(ms);
    assert FreshAnswer(ms, last, AnswerCallId(k));
    assert last.kind != "context_summary" by {
      assert |last.kind| == 16;
    }
    AnswerAppend(k, ms, last, AnswerCallId(k));
  }

  lemma QuietLast(k: nat, ms: seq<Message>, last: Message)
    requires Good(k, ms) && last.modelCallId == None && last.metadata == PLAIN && last.estimatedTokens == None
    requires forall m | m in ms :: m.seqNo < last.seqNo
    ensures Good(k, ms + [last])
  {
    var all, more := ms + [last], [last];
    assert forall m :: m in all <==> m in ms || m == last;
    OrderedConcat(ms, more);
    GroupsConcat(ms, more);
    assert GroupIds(more) == {};
    forall g | g in GroupIds(all) ensures g in GroupIds(ms) && StartSeq(all, g) == StartSeq(ms, g) {
      StartKept(ms, more, g);
    }
  }

  /** After an answer: all closed groups but the last max(1, retain), raw ids or not. */
  lemma AnswerEvicts(c: nat, conversation: seq<Message>, text: string, loop: seq<T.Converted>, answer: string,
                     retain: int)
    requires Good(c, conversation) && LoopOk(c + 1, loop)
    ensures var all, keep := WithTurn(conversation, c + 1, text, loop, Answered(answer)), if retain < 1 then 1
            else retain;
            Evictable(all, retain) == set g | g in ClosedIds(all) && |LaterClosed(all, g)| >= keep
  {
    var begun := conversation + Opening(conversation, c + 1, text, loop);
    var last := EndMessage(NextSeq(conversation) + 1 + |loop|, c + 1, Answered(answer), ConsumedIds(begun));
    TurnEnds(c, c + 1, conversation, text, loop, Answered(answer), begun, last);
    EvictableAfterAnswer(begun, last, AnswerCallId(c + 1), retain);
  }

  lemma QuietConsumes(ms: seq<Message>, more: seq<Message>, g: string)
    requires forall m | m in more :: !Marking(m)
    ensures Consumed(ms + more, g) <==> Consumed(ms, g)
  {
    assert forall m :: m in ms + more <==> m in ms || m in more;
  }

  lemma QuietTurnMarksNothing(ms: seq<Message>, k: nat, text: string, loop: seq<T.Converted>, ending: Ending)
    requires !ending.Answered?
    ensures Follows(ms, TurnMessages(ms, k, text, loop, ending))
    ensures forall m | m in TurnMessages(ms, k, text, loop, ending) :: !Marking(m)
    ensures WithTurn(ms, k, text, loop, ending) == ms + TurnMessages(ms, k, text, loop, ending)
  {
    TurnMessagesNumbered(ms, k, text, loop, ending);
    MaxSeqBounds(ms);
    OpeningShape(ms, k, text, loop);
  }

  /**
   * After a turn without an answer: exactly the closed groups that some message from before the turn marks and that
   * have `retain` closed groups after them, those of this turn counted. Only a raw id can be so marked in a group the
   * turn began.
   */
  lemma QuietEndEvicts(c: nat, ms: seq<Message>, text: string, loop: seq<T.Converted>, ending: Ending, retain: int,
                       g: string)
    requires Good(c, ms) && LoopOk(c + 1, loop) && !ending.Answered?
    ensures var all := WithTurn(ms, c + 1, text, loop, ending);
            && (g in Evictable(all, retain) <==>
                  g in ClosedIds(all) && Consumed(ms, g) && |LaterClosed(all, g)| >= retain)
            && (g in Evictable(all, retain) && !Unscoped(g) ==> g in GroupIds(ms) && MarkedLater(ms, g))
  {
    var all, more := WithTurn(ms, c + 1, text, loop, ending), TurnMessages(ms, c + 1, text, loop, ending);
    TurnGood(c, ms, text, loop, ending);
    QuietTurnMarksNothing(ms, c + 1, text, loop, ending);
    QuietConsumes(ms, more, g);
    EvictableIff(c + 1, all, retain, g);
    MarkedBefore(ms, more, g);
  }

  lemma MarkedBefore(ms: seq<Message>, more: seq<Message>, g: string)
    requires Follows(ms, more) && forall m | m in more :: !Marking(m)
    ensures g in GroupIds(ms + more) ==> (MarkedLater(ms + more, g) <==> g in GroupIds(ms) && MarkedLater(ms, g))
    ensures g in GroupIds(ms) ==> g in GroupIds(ms + more)
  {
    var all := ms + more;
    assert forall m :: m in all <==> m in ms || m in more;
    if g in GroupIds(ms) {
      StartKept(ms, more, g);
    } else if g in GroupIds(all) {
      StartNew(ms, more, g);
    }
  }

  // ---------------------------------------------------------------- optimizations within a turn

  /** One optimization of a history: tool results blanked, or evictable groups replaced by a summary. */
  ghost predicate Optimizes(retain: int, ms: seq<Message>, r: seq<Message>) {
    r == Omitted(ms, retain) || CompressesTo(retain, ms, r)
  }

  ghost predicate CompressesTo(retain: int, ms: seq<Message>, r: seq<Message>) {
    exists b, json :: Compresses(b, retain, json, ms, r)
  }

  ghost predicate LinkAt(retain: int, hs: seq<seq<Message>>, i: nat) {
    i + 1 < |hs| && Optimizes(retain, hs[i], hs[i + 1])
  }

  ghost predicate Chain(retain: int, hs: seq<seq<Message>>) {
    forall i: nat | i < |hs| - 1 :: LinkAt(retain, hs, i)
  }

  /** The history a turn goes on from: the process's own, or what optimizations of its messages handed back. */
  ghost predicate Handed(retain: int, conversation: seq<Message>, r: seq<Message>) {
    r == conversation || exists hs :: HandedBy(retain, conversation, r, hs)
  }

  ghost predicate HandedBy(retain: int, conversation: seq<Message>, r: seq<Message>, hs: seq<seq<Message>>) {
    |hs| > 0 && hs[0] == ToMessages(conversation) && Chain(retain, hs) && hs[|hs| - 1] == r
  }

  lemma HeldShape(ms: seq<Message>)
    ensures SameShape(ms, ToMessages(ms)) && (NoStored(ms) ==> NoStored(ToMessages(ms)))
  {
    forall i | 0 <= i < |ms| ensures ToMessages(ms)[i] == Held(ms[i]) && Alike(ms[i], Held(ms[i])) {
    }
    forall m | NoStored(ms) && m in ToMessages(ms) ensures m.estimatedTokens == None {
      var i :| 0 <= i < |ms| && ToMessages(ms)[i] == m;
      assert ms[i] in ms;
    }
  }

  lemma SyncedShape(ms: seq<Message>, indexes: seq<int>)
    ensures SameShape(ms, Synced(ms, indexes)) && (NoStored(ms) ==> NoStored(Synced(ms, indexes)))
  {
    forall m | NoStored(ms) && m in Synced(ms, indexes) ensures m.estimatedTokens == None {
      var i :| 0 <= i < |ms| && Synced(ms, indexes)[i] == m;
      assert ms[i] in ms;
    }
  }

  lemma OmittedShape(ms: seq<Message>, retain: int)
    ensures SameShape(ms, Omitted(ms, retain)) && (NoStored(ms) ==> NoStored(Omitted(ms, retain)))
  {
    forall m | NoStored(ms) && m in Omitted(ms, retain) ensures m.estimatedTokens == None {
      var i :| 0 <= i < |ms| && Omitted(ms, retain)[i] == m;
      assert ms[i] in ms;
    }
  }

  lemma SyncedGood(c: nat, ms: seq<Message>, sync: seq<int>)
    requires Good(c, ms)
    ensures Good(c, Synced(ms, sync))
  {
    SyncedShape(ms, sync);
    ShapeGood(c, ms, Synced(ms, sync));
  }

  lemma HeldGood(c: nat, ms: seq<Message>)
    requires Good(c, ms)
    ensures Good(c, ToMessages(ms))
  {
    HeldShape(ms);
    ShapeGood(c, ms, ToMessages(ms));
  }

  lemma OptimizedGood(c: nat, retain: int, ms: seq<Message>, r: seq<Message>)
    requires Good(c, ms) && Optimizes(retain, ms, r)
    ensures Good(c, r)
  {
    if r == Omitted(ms, retain) {
      OmittedShape(ms, retain);
      ShapeGood(c, ms, r);
    } else {
      CompressedToGood(c, retain, ms, r);
    }
  }

  lemma CompressedToGood(c: nat, retain: int, ms: seq<Message>, r: seq<Message>)
    requires Good(c, ms) && CompressesTo(retain, ms, r)
    ensures Good(c, r)
  {
    var b, json :| Compresses(b, retain, json, ms, r);
    CompressedGood(c, b, retain, json, ms, r);
  }

  lemma Empties(c: nat, retain: int, ms: seq<Message>, r: seq<Message>)
    requires Good(c, ms) && CompressesTo(retain, ms, r)
    ensures Evictable(r, retain) == {}
  {
    var b, json :| Compresses(b, retain, json, ms, r);
    CompressionTakesAll(b, retain, json, ms, r);
  }

  lemma StaysEmpty(c: nat, retain: int, ms: seq<Message>, r: seq<Message>)
    requires Good(c, ms) && Optimizes(retain, ms, r) && Evictable(ms, retain) == {}
    ensures Evictable(r, retain) == {}
  {
    if CompressesTo(retain, ms, r) {
      Empties(c, retain, ms, r);
    } else {
      OmittedShape(ms, retain);
      OnlyShapeMatters(ms, r, retain);
    }
  }

  lemma {:induction false} ChainGood(c: nat, retain: int, hs: seq<seq<Message>>, i: nat)
    requires i < |hs| && Chain(retain, hs) && Good(c, hs[0])
    ensures Good(c, hs[i])
  {
    if i > 0 {
      ChainGood(c, retain, hs, i - 1);
      assert LinkAt(retain, hs, i - 1);
      LinkGood(c, retain, hs, i - 1);
    }
  }

  lemma LinkGood(c: nat, retain: int, hs: seq<seq<Message>>, i: nat)
    requires LinkAt(retain, hs, i) && Good(c, hs[i])
    ensures Good(c, hs[i + 1])
  {
    OptimizedGood(c, retain, hs[i], hs[i + 1]);
  }

  lemma HandedGood(c: nat, retain: int, conversation: seq<Message>, r: seq<Message>)
    requires Good(c, conversation) && Handed(retain, conversation, r)
    ensures Good(c, r)
  {
    if r != conversation {
      var hs :| HandedBy(retain, conversation, r, hs);
      HandedByGood(c, retain, conversation, r, hs);
    }
  }

  lemma HandedByGood(c: nat, retain: int, conversation: seq<Message>, r: seq<Message>, hs: seq<seq<Message>>)
    requires Good(c, conversation) && HandedBy(retain, conversation, r, hs)
    ensures Good(c, r)
  {
    HeldGood(c, conversation);
    ChainGood(c, retain, hs, |hs| - 1);
  }

  lemma LinkStaysEmpty(c: nat, retain: int, hs: seq<seq<Message>>, i: nat)
    requires i + 1 < |hs| && Chain(retain, hs) && Good(c, hs[0]) && Evictable(hs[i], retain) == {}
    ensures Evictable(hs[i + 1], retain) == {}
  {
    ChainGood(c, retain, hs, i);
    assert LinkAt(retain, hs, i);
    StaysEmpty(c, retain, hs[i], hs[i + 1]);
  }

  lemma LinkEmpties(c: nat, retain: int, hs: seq<seq<Message>>, i: nat)
    requires i + 1 < |hs| && Chain(retain, hs) && Good(c, hs[0]) && CompressesTo(retain, hs[i], hs[i + 1])
    ensures Evictable(hs[i + 1], retain) == {}
  {
    ChainGood(c, retain, hs, i);
    Empties(c, retain, hs[i], hs[i + 1]);
  }

  /** Once nothing is evictable, no optimization makes anything so. */
  lemma NothingLeft(c: nat, retain: int, hs: seq<seq<Message>>, i: nat, j: nat)
    requires i <= j < |hs| && Chain(retain, hs) && Good(c, hs[0]) && Evictable(hs[i], retain) == {}
    ensures Evictable(hs[j], retain) == {}
  {
    var empty := (k: nat) => k < |hs| && Evictable(hs[k], retain) == {};
    forall k: nat | i <= k < j && empty(k) ensures empty(k + 1) {
      LinkStaysEmpty(c, retain, hs, k);
    }
    Throughout(empty, i, j);
  }

  lemma NothingToCompress(c: nat, retain: int, ms: seq<Message>, r: seq<Message>)
    requires Good(c, ms) && Evictable(ms, retain) == {}
    ensures !CompressesTo(retain, ms, r)
  {
    forall b: Budgeting, json ensures !Compresses(b, retain, json, ms, r) {
      NothingPlanned(c, retain, ms, b);
    }
  }

  lemma NoLinkCompresses(c: nat, retain: int, hs: seq<seq<Message>>, i: nat, j: nat)
    requires i <= j && j + 1 < |hs| && Chain(retain, hs) && Good(c, hs[0]) && Evictable(hs[i], retain) == {}
    ensures !CompressesTo(retain, hs[j], hs[j + 1])
  {
    NothingLeft(c, retain, hs, i, j);
    ChainGood(c, retain, hs, j);
    NothingToCompress(c, retain, hs[j], hs[j + 1]);
  }

  /**
   * A turn compresses at most once, whatever windows and prompts it tries with: after a compression nothing is
   * evictable. The summary group of a turn therefore never gets its id twice within the turn.
   */
  lemma OneCompressionPerTurn(c: nat, retain: int, hs: seq<seq<Message>>, i: nat, j: nat)
    requires i < j && j + 1 < |hs| && Chain(retain, hs) && Good(c, hs[0])
    ensures !(CompressesTo(retain, hs[i], hs[i + 1]) && CompressesTo(retain, hs[j], hs[j + 1]))
  {
    if CompressesTo(retain, hs[i], hs[i + 1]) {
      LinkEmpties(c, retain, hs, i);
      NoLinkCompresses(c, retain, hs, i + 1, j);
    }
  }

  lemma NothingPlanned(c: nat, retain: int, ms: seq<Message>, b: Budgeting)
    requires Good(c, ms) && Evictable(ms, retain) == {}
    ensures PlanCompression(b, ms, retain) == Err(NoEvictableHistory)
  {
    PlanFailures(b, ms, retain);
  }

  /** Nor is a manual compression followed by another before the next turn: planning finds nothing evictable. */
  lemma NoSecondManualCompression(c: nat, retain: int, a: Budgeting, json: string, conversation: seq<Message>,
                                  r: seq<Message>, sync: seq<int>, b: Budgeting)
    requires Good(c, conversation) && Compresses(a, retain, json, ToMessages(conversation), r)
    ensures PlanCompression(b, ToMessages(Synced(r, sync)), retain) == Err(NoEvictableHistory)
  {
    HeldGood(c, conversation);
    CompressionTakesAll(a, retain, json, ToMessages(conversation), r);
    CompressedGood(c, a, retain, json, ToMessages(conversation), r);
    SyncedGood(c, r, sync);
    SyncedShape(r, sync);
    OnlyShapeMatters(r, Synced(r, sync), retain);
    HeldGood(c, Synced(r, sync));
    HeldShape(Synced(r, sync));
    OnlyShapeMatters(Synced(r, sync), ToMessages(Synced(r, sync)), retain);
    NothingPlanned(c, retain, ToMessages(Synced(r, sync)), b);
  }

  // ---------------------------------------------------------------- processes

  /** What a process holds, and what has been written to its run's log. */
  datatype Process = Process(conversation: seq<Message>, counter: nat, written: seq<L.Append>)

  const START := Process([], 0, [])

  /** `rows` is what the turn wrote, all of it or what it came to; `sync` the projection's indexes at the end. */
  datatype Step =
    | Turn(text: string, loop: seq<T.Converted>, ending: Ending, rows: seq<L.Append>, sync: seq<int>)
    | Rejected(rows: seq<L.Append>)
    | ManualCompression(rows: seq<L.Append>, sync: seq<int>)
    | Resume(indexes: seq<int>, sync: seq<int>)

  /** Summaries are written without a model call id. */
  ghost predicate RuntimeRows(rows: seq<L.Append>) {
    forall a | a in rows :: a.kind == "context_summary" ==> a.modelCallId == None
  }

  /** The message a resume makes of a row: the row's metadata holds none of the keys the runtime reads. */
  function FromRow(seqNo: int, a: L.Append, index: int): Message {
    Message(seqNo, a.role, a.kind, a.turnId, a.modelCallId, a.toolCallId,
            Structured(if a.content.Some? then a.content.value else ""), if a.artifactId.Some?
              then [a.artifactId.value] else [], None, PLAIN, Some(index))
  }

  function Restored(written: seq<L.Append>, indexes: seq<int>): seq<Message>
    requires L.Within(|written|, indexes)
  {
    seq(|indexes|, i requires 0 <= i < |indexes| => FromRow(i + 1, written[indexes[i] - 1], indexes[i]))
  }

  /** The process after a turn that went on from the history `r`. */
  function AfterTurn(p: Process, s: Step, r: seq<Message>): Process
    requires s.Turn?
  {
    Process(Synced(WithTurn(r, p.counter + 1, s.text, s.loop, s.ending), s.sync), p.counter + 1, p.written + s.rows)
  }

  ghost predicate Steps(retain: int, p: Process, s: Step, q: Process) {
    match s
    case Turn(_, loop, _, rows, _) =>
      LoopOk(p.counter + 1, loop) && RuntimeRows(rows)
          && exists r :: Handed(retain, p.conversation, r) && q == AfterTurn(p, s, r)
    case Rejected(rows) => RuntimeRows(rows) && q == Process(p.conversation, p.counter + 1, p.written + rows)
    case ManualCompression(rows, sync) =>
      && RuntimeRows(rows)
      && exists r ::
         CompressesTo(retain, ToMessages(p.conversation), r)
             && q == Process(Synced(r, sync), p.counter, p.written + rows)
    case Resume(indexes, sync) =>
      && L.Within(|p.written|, indexes)
      && var conversation := Restored(p.written, indexes);
         q == Process(Synced(conversation, sync), MaxTurn(conversation), p.written)
  }

  ghost predicate StepAt(retain: int, ps: seq<Process>, steps: seq<Step>, i: nat) {
    i < |steps| && i + 1 < |ps| && Steps(retain, ps[i], steps[i], ps[i + 1])
  }

  ghost predicate IsRun(retain: int, ps: seq<Process>, steps: seq<Step>) {
    |ps| == |steps| + 1 && ps[0] == START && forall i: nat | i < |steps| :: StepAt(retain, ps, steps, i)
  }

  ghost predicate ProcessGood(p: Process) {
    Good(p.counter, p.conversation) && RuntimeRows(p.written)
  }

  lemma RestoredGood(written: seq<L.Append>, indexes: seq<int>)
    requires RuntimeRows(written) && L.Within(|written|, indexes)
    ensures Good(MaxTurn(Restored(written, indexes)), Restored(written, indexes))
  {
    var ms := Restored(written, indexes);
    MaxTurnBounds(ms);
    forall m | m in ms
      ensures m.metadata == PLAIN && m.estimatedTokens == None
              && (m.kind == "context_summary" ==> m.modelCallId == None)
    {
      var i :| 0 <= i < |ms| && ms[i] == m;
      assert written[indexes[i] - 1] in written;
    }
  }

  lemma LaterCounter(c: nat, k: nat, ms: seq<Message>)
    requires Good(c, ms) && c <= k
    ensures Good(k, ms)
  {
  }

  lemma TurnStepGood(retain: int, p: Process, s: Step, r: seq<Message>)
    requires ProcessGood(p) && s.Turn? && LoopOk(p.counter + 1, s.loop) && RuntimeRows(s.rows)
             && Handed(retain, p.conversation, r)
    ensures ProcessGood(AfterTurn(p, s, r))
  {
    HandedGood(p.counter, retain, p.conversation, r);
    TurnGood(p.counter, r, s.text, s.loop, s.ending);
    SyncedGood(p.counter + 1, WithTurn(r, p.counter + 1, s.text, s.loop, s.ending), s.sync);
  }

  lemma StepGood(retain: int, p: Process, s: Step, q: Process)
    requires ProcessGood(p) && Steps(retain, p, s, q)
    ensures ProcessGood(q)
  {
    match s
    case Turn(_, _, _, _, _) =>
      var r :| Handed(retain, p.conversation, r) && q == AfterTurn(p, s, r);
      TurnStepGood(retain, p, s, r);
    case Rejected(rows) => LaterCounter(p.counter, p.counter + 1, p.conversation);
    case ManualCompression(rows, sync) =>
      var r :| CompressesTo(retain, ToMessages(p.conversation), r)
          && q == Process(Synced(r, sync), p.counter, p.written + rows);
      HeldGood(p.counter, p.conversation);
      CompressedToGood(p.counter, retain, ToMessages(p.conversation), r);
      SyncedGood(p.counter, r, sync);
    case Resume(indexes, sync) =>
      var conversation := Restored(p.written, indexes);
      RestoredGood(p.written, indexes);
      SyncedGood(MaxTurn(conversation), conversation, sync);
  }

  lemma StartGood()
    ensures ProcessGood(START)
  {
  }

  /**
   * In every process state a run can reach, the conversation is in strict order and its marks say who came before whom.
   */
  lemma RunStaysGood(retain: int, ps: seq<Process>, steps: seq<Step>, i: nat)
    requires IsRun(retain, ps, steps) && i < |ps|
    ensures ProcessGood(ps[i])
  {
    var good := (k: nat) => k < |ps| && ProcessGood(ps[k]);
    StartGood();
    forall k: nat | k < i && good(k) ensures good(k + 1) {
      RunStepGood(retain, ps, steps, k);
    }
    Throughout(good, 0, i);
  }

  lemma RunStepGood(retain: int, ps: seq<Process>, steps: seq<Step>, i: nat)
    requires IsRun(retain, ps, steps) && i < |steps| && ProcessGood(ps[i])
    ensures ProcessGood(ps[i + 1])
  {
    assert StepAt(retain, ps, steps, i);
    NextGood(retain, ps, steps, i);
  }

  lemma NextGood(retain: int, ps: seq<Process>, steps: seq<Step>, i: nat)
    requires StepAt(retain, ps, steps, i) && ProcessGood(ps[i])
    ensures ProcessGood(ps[i + 1])
  {
    StepGood(retain, ps[i], steps[i], ps[i + 1]);
  }

  lemma RunSteps(retain: int, ps: seq<Process>, steps: seq<Step>, i: nat)
    requires IsRun(retain, ps, steps) && i < |steps|
    ensures i + 1 < |ps| && Steps(retain, ps[i], steps[i], ps[i + 1])
  {
    assert StepAt(retain, ps, steps, i);
  }

  lemma ReachableOrdered(retain: int, ps: seq<Process>, steps: seq<Step>, i: nat)
    requires IsRun(retain, ps, steps) && i < |ps|
    ensures StrictlyOrdered(ps[i].conversation)
  {
    RunStaysGood(retain, ps, steps, i);
  }

  /** What is evictable in every reachable conversation; a mark older than its group is one on a raw id. */
  lemma ReachableEvictable(retain: int, ps: seq<Process>, steps: seq<Step>, i: nat, keep: int, g: string)
    requires IsRun(retain, ps, steps) && i < |ps|
    ensures var ms := ps[i].conversation;
            && (g in Evictable(ms, keep) <==>
                  && g in ClosedIds(ms) && (MarkedLater(ms, g) || MarkedFirst(ms, g))
                  && |LaterClosed(ms, g)| >= keep)
            && (g in GroupIds(ms) && MarkedFirst(ms, g) ==> Unscoped(g))
  {
    RunStaysGood(retain, ps, steps, i);
    EvictableIff(ps[i].counter, ps[i].conversation, keep, g);
  }

  lemma AnsweredStepEvicts(retain: int, p: Process, s: Step, r: seq<Message>)
    requires Good(p.counter, r) && s.Turn? && LoopOk(p.counter + 1, s.loop) && s.ending.Answered?
    ensures var ms, keep := AfterTurn(p, s, r).conversation, if retain < 1 then 1 else retain;
            Evictable(ms, retain) == set g | g in ClosedIds(ms) && |LaterClosed(ms, g)| >= keep
  {
    var all := WithTurn(r, p.counter + 1, s.text, s.loop, s.ending);
    AnswerEvicts(p.counter, r, s.text, s.loop, s.ending.text, retain);
    SyncedShape(all, s.sync);
    OnlyShapeMatters(all, Synced(all, s.sync), retain);
  }

  /**
   * After every answered turn of every run, the evictable groups are exactly the closed ones with at least max(1,
   * retain) closed groups after them, that is, all closed groups but the last max(1, retain).
   */
  lemma AnsweredTurnEvicts(retain: int, ps: seq<Process>, steps: seq<Step>, i: nat)
    requires IsRun(retain, ps, steps) && i < |steps| && steps[i].Turn? && steps[i].ending.Answered?
    ensures var ms, keep := ps[i + 1].conversation, if retain < 1 then 1 else retain;
            Evictable(ms, retain) == set g | g in ClosedIds(ms) && |LaterClosed(ms, g)| >= keep
  {
    var p, s := ps[i], steps[i];
    RunStaysGood(retain, ps, steps, i);
    RunSteps(retain, ps, steps, i);
    var r :| Handed(retain, p.conversation, r) && ps[i + 1] == AfterTurn(p, s, r);
    HandedGood(p.counter, retain, p.conversation, r);
    AnsweredStepEvicts(retain, p, s, r);
  }

  lemma QuietStepEvicts(retain: int, p: Process, s: Step, r: seq<Message>, g: string)
    requires Good(p.counter, r) && s.Turn? && LoopOk(p.counter + 1, s.loop) && !s.ending.Answered?
    ensures var ms := AfterTurn(p, s, r).conversation;
            && (g in Evictable(ms, retain) <==>
                  g in ClosedIds(ms) && Consumed(r, g) && |LaterClosed(ms, g)| >= retain)
            && (g in Evictable(ms, retain) && !Unscoped(g) ==> g in GroupIds(r) && MarkedLater(r, g))
  {
    var all := WithTurn(r, p.counter + 1, s.text, s.loop, s.ending);
    QuietEndEvicts(p.counter, r, s.text, s.loop, s.ending, retain, g);
    SyncedShape(all, s.sync);
    OnlyShapeMatters(all, Synced(all, s.sync), retain);
  }

  /**
   * After every turn of every run that ended without an answer, `r` being the history it went on from: exactly the
   * closed groups that some message of `r` marks and that have `retain` closed groups after them, those of this turn
   * counted. For groups under ids of their own turn that is: begun before this turn, with an answer of this process
   * after their beginning.
   */
  lemma UnansweredTurnEvicts(retain: int, ps: seq<Process>, steps: seq<Step>, i: nat, r: seq<Message>, g: string)
    requires IsRun(retain, ps, steps) && i < |steps| && steps[i].Turn? && !steps[i].ending.Answered?
    requires Handed(retain, ps[i].conversation, r) && ps[i + 1] == AfterTurn(ps[i], steps[i], r)
    ensures var ms := ps[i + 1].conversation;
            && (g in Evictable(ms, retain) <==>
                  g in ClosedIds(ms) && Consumed(r, g) && |LaterClosed(ms, g)| >= retain)
            && (g in Evictable(ms, retain) && !Unscoped(g) ==> g in GroupIds(r) && MarkedLater(r, g))
  {
    RunStaysGood(retain, ps, steps, i);
    RunSteps(retain, ps, steps, i);
    HandedGood(ps[i].counter, retain, ps[i].conversation, r);
    QuietStepEvicts(retain, ps[i], steps[i], r, g);
  }

  /**
   * A group is consumed at birth, that is, when its turn's tool loop has been appended and nothing after it, exactly
   * when a message of the history before marks its id already; which happens to raw ids only.
   */
  lemma BornConsumedIff(c: nat, ms: seq<Message>, text: string, loop: seq<T.Converted>, g: string)
    requires Good(c, ms) && LoopOk(c + 1, loop)
    ensures var born := ms + Opening(ms, c + 1, text, loop);
            && (Consumed(born, g) <==> exists a | a in ms :: g in a.metadata.consumed)
            && (g in GroupIds(born) && g !in GroupIds(ms) ==>
                  !MarkedLater(born, g) && (Consumed(born, g) ==> Unscoped(g)))
  {
    var opening := Opening(ms, c + 1, text, loop);
    OpeningShape(ms, c + 1, text, loop);
    OpeningQuiet(ms, c + 1, text, loop);
    QuietAppend(c, c + 1, ms, opening);
    QuietConsumes(ms, opening, g);
    MarkedBefore(ms, opening, g);
    if g in GroupIds(ms + opening) {
      ConsumedIff(c + 1, ms + opening, g);
    }
  }

  /** In every run, for every turn that goes on from a history `r`. */
  lemma BornConsumedInRuns(retain: int, ps: seq<Process>, steps: seq<Step>, i: nat, r: seq<Message>, g: string)
    requires IsRun(retain, ps, steps) && i < |steps| && steps[i].Turn? && Handed(retain, ps[i].conversation, r)
    ensures var born := r + Opening(r, ps[i].counter + 1, steps[i].text, steps[i].loop);
            && (Consumed(born, g) <==> exists a | a in r :: g in a.metadata.consumed)
            && (g in GroupIds(born) && g !in GroupIds(r) ==>
                  !MarkedLater(born, g) && (Consumed(born, g) ==> Unscoped(g)))
  {
    RunStaysGood(retain, ps, steps, i);
    RunSteps(retain, ps, steps, i);
    HandedGood(ps[i].counter, retain, ps[i].conversation, r);
    BornConsumedIff(ps[i].counter, r, steps[i].text, steps[i].loop, g);
  }

  // ---------------------------------------------------------------- the tool-loop messages turns do append

  ghost predicate Scoped(turn: string, c: T.Converted) {
    c.kind in {"tool_call", "tool_result", "tool_loop_message"}
        && (c.modelCallId.Some? ==> InTurnScope(turn, c.modelCallId.value))
  }

  ghost predicate ConversionScoped(turn: string, c: T.Conversion) {
    && (forall raw | raw in c.ids :: InTurnScope(turn, c.ids[raw].0))
    && forall i | 0 <= i < |c.out| :: Scoped(turn, c.out[i])
  }

  lemma InTurnIsScoped(turn: string, id: string)
    requires id != ""
    ensures InTurnScope(turn, T.InTurn(turn, id))
  {
    assert T.InTurn(turn, id)[..|turn| + 1] == turn + ":";
  }

  lemma EmitScoped(turn: string, c: T.Conversion, raw: string, role: string, kind: string, content: string)
    requires ConversionScoped(turn, c) && kind in {"tool_call", "tool_result"}
    ensures ConversionScoped(turn, T.Emit(turn, c, raw, role, kind, content))
  {
    var model := T.ModelCallOf(raw);
    InTurnIsScoped(turn, if model.Some? then model.value else T.ModelCallId(c.ordinal));
    assert InTurnScope(turn, T.Lookup(turn, c, raw).0);
  }

  lemma {:induction false} EmitCallsScoped(turn: string, c: T.Conversion, callIds: seq<string>, content: string)
    requires ConversionScoped(turn, c)
    ensures ConversionScoped(turn, T.EmitCalls(turn, c, callIds, content))
  {
    if |callIds| > 0 {
      EmitCallsScoped(turn, c, callIds[..|callIds| - 1], content);
      EmitScoped(turn, T.EmitCalls(turn, c, callIds[..|callIds| - 1], content), callIds[|callIds| - 1], "assistant",
                 "tool_call", content);
    }
  }

  /** Whatever messages a round consists of, their converted forms carry ids of the turn only. */
  lemma {:induction false} ConvertedScoped(turn: string, messages: seq<T.LoopMessage>)
    ensures ConversionScoped(turn, T.Convert(turn, messages))
  {
    if |messages| > 0 {
      var n := |messages| - 1;
      ConvertedScoped(turn, messages[..n]);
      match messages[n]
      case Assistant(content, callIds) => EmitCallsScoped(turn, T.Convert(turn, messages[..n]), callIds, content);
      case ToolResult(content, callId) =>
        if callId.Some? {
          EmitScoped(turn, T.Convert(turn, messages[..n]), callId.value, "tool", "tool_result", content);
        }
      case Other(_, _) =>
    }
  }

  lemma ConvertedLoopOk(k: nat, messages: seq<T.LoopMessage>)
    ensures LoopOk(k, T.Convert(TurnId(k), messages).out)
  {
    ConvertedScoped(TurnId(k), messages);
    var loop := T.Convert(TurnId(k), messages).out;
    forall i | 0 <= i < |loop|
      ensures loop[i].kind != "context_summary"
              && (loop[i].modelCallId.Some? ==> LoopIdOk(k, loop[i].modelCallId.value))
    {
      assert Scoped(TurnId(k), loop[i]);
      assert "context_summary"[0] == 'c' && loop[i].kind[0] == 't';
    }
  }

  /**
   * A first round refused approval: the assistant's message stands for all its calls, and all carry the adapter's raw
   * ids.
   */
  function DeniedRows(call: nat, text: string, results: seq<string>): seq<T.Converted> {
    [T.Converted("assistant", "tool_call", Some(T.ModelCallId(call)), None, text)]
    + seq(|results|, i requires 0 <= i < |results| =>
        T.Converted("tool", "tool_result", Some(T.ModelCallId(call)), Some(T.RawToolId(call, i + 1)), results[i]))
  }

  lemma DeniedLoopOk(k: nat, call: nat, text: string, results: seq<string>)
    ensures LoopOk(k, DeniedRows(call, text, results)) && Unscoped(T.ModelCallId(call))
  {
    assert T.ModelCallId(call)[0] == "model_call_"[0] == 'm';
    assert "context_summary"[0] == 'c';
  }

  // ---------------------------------------------------------------- two turns, the second answered

  lemma SameGroupAfter(c: nat, ms: seq<Message>, text: string, answer: string, g: string)
    requires Good(c, ms) && g in GroupIds(ms)
    ensures SameGroup(ms, WithTurn(ms, c + 1, text, [], Answered(answer)), g)
  {
    var k, n := c + 1, NextSeq(ms);
    var opening := Opening(ms, k, text, []);
    var last := EndMessage(n + 1, k, Answered(answer), ConsumedIds(ms + opening));
    AnswerIdNamesTurn(k);
    assert g != AnswerCallId(k) by {
      var m :| m in ms && m.modelCallId == Some(g);
    }
    assert opening == [UserMessage(n, k, text)];
    assert WithTurn(ms, k, text, [], Answered(answer)) == ms + opening + [last];
    forall m | InGroup(m, g) ensures m in ms <==> m in ms + opening + [last] {
    }
  }

  lemma FreesClosed(ms: seq<Message>, answer: Message, id: string, retain: int, g: string)
    requires FreshAnswer(ms, answer, id) && g in GroupIds(ms) && IsClosed(ms + [answer], g) && retain <= 1
    ensures g in Evictable(ms + [answer], retain)
  {
    var all := ms + [answer];
    AnswerGroup(ms, answer, id);
    assert id in LaterClosed(all, g);
    SubsetSize({id}, LaterClosed(all, g));
  }

  /** With at most one group retained, an answer without tools frees every group that was closed before it. */
  lemma AnswerFrees(c: nat, ms: seq<Message>, text: string, answer: string, retain: int, g: string)
    requires Good(c, ms) && g in ClosedIds(ms) && retain <= 1
    ensures g in Evictable(WithTurn(ms, c + 1, text, [], Answered(answer)), retain)
  {
    var begun := ms + Opening(ms, c + 1, text, []);
    var last := EndMessage(NextSeq(ms) + 1, c + 1, Answered(answer), ConsumedIds(begun));
    TurnEnds(c, c + 1, ms, text, [], Answered(answer), begun, last);
    SameGroupAfter(c, ms, text, answer, g);
    SameGroupFacts(ms, begun + [last], g);
    GroupsConcat(ms, Opening(ms, c + 1, text, []));
    FreesClosed(begun, last, AnswerCallId(c + 1), retain, g);
  }

  /** Same contents, in the same places. */
  ghost predicate SameContents(ms: seq<Message>, r: seq<Message>) {
    |ms| == |r| && forall i | 0 <= i < |ms| :: r[i].content == ms[i].content
  }

  ghost predicate NoSummary(ms: seq<Message>) {
    forall m | m in ms :: m.kind != "context_summary"
  }

  lemma NoSummaryYet(ms: seq<Message>)
    requires NoSummary(ms)
    ensures LatestSummary(ms) == None
  {
    LatestSummaryMeaning(ms);
  }

  /** What the planner is handed at the next turn: the conversation with its indexes in step, as messages. */
  function Presented(conversation: seq<Message>, sync: seq<int>): seq<Message> {
    ToMessages(Synced(conversation, sync))
  }

  lemma PresentedShape(ms: seq<Message>, sync: seq<int>)
    ensures SameShape(ms, Presented(ms, sync)) && SameContents(ms, Presented(ms, sync))
    ensures NoStored(ms) ==> NoStored(Presented(ms, sync))
  {
    SyncedShape(ms, sync);
    HeldShape(Synced(ms, sync));
    var r := Presented(ms, sync);
    forall i | 0 <= i < |ms| ensures Alike(ms[i], r[i]) && r[i].content == ms[i].content {
      assert Alike(ms[i], Synced(ms, sync)[i]) && r[i] == Held(Synced(ms, sync)[i]);
    }
  }

  /** A long message of an evictable group, however the history is presented. */
  lemma LongPresented(c: nat, ms: seq<Message>, r: seq<Message>, b: Budgeting, retain: int, m: Message)
    requires Good(c, ms) && SameShape(ms, r) && SameContents(ms, r) && NoStored(r) && NoSummary(ms)
    requires BudgetTokens(b, None) > 0 && m in ms && InAny(Evictable(ms, retain), m)
    requires |ContentText(m.content)| > 4 * (BudgetTokens(b, None) + Slack(b, None))
    ensures PlanCompression(b, r, retain) == Err(InputTooLarge)
  {
    ShapeGood(c, ms, r);
    OnlyShapeMatters(ms, r, retain);
    var i :| 0 <= i < |ms| && ms[i] == m;
    assert Alike(ms[i], r[i]);
    assert NoSummary(r) by {
      forall x | x in r ensures x.kind != "context_summary" {
        var j :| 0 <= j < |r| && r[j] == x;
        assert Alike(ms[j], r[j]) && ms[j] in ms;
      }
    }
    NoSummaryYet(r);
    LongMessageOverflows(b, r, retain, r[i]);
  }

  lemma AnsweredNoSummary(c: nat, ms: seq<Message>, text: string, answer: string)
    requires NoSummary(ms)
    ensures NoSummary(WithTurn(ms, c + 1, text, [], Answered(answer)))
  {
    var k, n := c + 1, NextSeq(ms);
    var u, last := UserMessage(n, k, text),
        EndMessage(n + 1, k, Answered(answer), ConsumedIds(ms + Opening(ms, k, text, [])));
    assert Opening(ms, k, text, []) == [u];
    assert WithTurn(ms, k, text, [], Answered(answer)) == ms + [u] + [last];
    assert |"context_summary"| == 15 && |u.kind| == 18 && |last.kind| == 16;
  }

  /**
   * Whatever prompt, window and reserve, as long as they leave a positive budget: once an answer follows a closed group
   * that holds a long enough message, and at most one call is retained, planning a compression fails as too large.
   */
  lemma LongGroupOverflows(c: nat, ms: seq<Message>, text: string, answer: string, sync: seq<int>, b: Budgeting,
                           retain: int, m: Message, g: string)
    requires Good(c, ms) && NoSummary(ms) && g in ClosedIds(ms) && m in ms && InGroup(m, g)
    requires BudgetTokens(b, None) > 0 && retain <= 1
    requires |ContentText(m.content)| > 4 * (BudgetTokens(b, None) + Slack(b, None))
    ensures PlanCompression(b, Presented(WithTurn(ms, c + 1, text, [], Answered(answer)), sync), retain)
            == Err(InputTooLarge)
  {
    var all := WithTurn(ms, c + 1, text, [], Answered(answer));
    TurnGood(c, ms, text, [], Answered(answer));
    AnswerFrees(c, ms, text, answer, retain, g);
    SameGroupAfter(c, ms, text, answer, g);
    AnsweredNoSummary(c, ms, text, answer);
    PresentedShape(all, sync);
    LongPresented(c + 1, all, Presented(all, sync), b, retain, m);
  }

  lemma FirstAnswer(first: string)
    ensures var ms := WithTurn([], 1, "", [], Answered(first));
            && Good(1, ms) && NoSummary(ms) && AnswerCallId(1) in ClosedIds(ms)
            && exists m | m in ms :: InGroup(m, AnswerCallId(1)) && m.content == Text(first)
  {
    var begun := [] + Opening([], 1, "", []);
    var last := EndMessage(2, 1, Answered(first), ConsumedIds(begun));
    TurnEnds(0, 1, [], "", [], Answered(first), begun, last);
    AnswerGroup(begun, last, AnswerCallId(1));
    AnsweredNoSummary(0, [], "", first);
    assert last in begun + [last];
  }

  /** Two answered turns are such a history, if the first answer is long enough. */
  lemma UncountedHistoryOverflows(b: Budgeting, retain: int, first: string, second: string, sync: seq<int>)
    requires BudgetTokens(b, None) > 0 && retain <= 1
    requires |first| > 4 * (BudgetTokens(b, None) + Slack(b, None))
    ensures PlanCompression(b,
                            Presented(WithTurn(WithTurn([], 1, "", [], Answered(first)), 2, "", [], Answered(second)),
                                      sync), retain)
            == Err(InputTooLarge)
  {
    var ms := WithTurn([], 1, "", [], Answered(first));
    FirstAnswer(first);
    var m :| m in ms && InGroup(m, AnswerCallId(1)) && m.content == Text(first);
    LongGroupOverflows(1, ms, "", second, sync, b, retain, m, AnswerCallId(1));
  }

  // ---------------------------------------------------------------- raw ids

  /**
   * A raw id that an answer has marked, that compression has since removed, and that a denied first round uses again:
   * the new group counts as consumed from its first message on, though no answer came after it.
   */
  lemma RawIdBornConsumed(c: nat, ms: seq<Message>, a: Message, call: nat, text: string, results: seq<string>,
                          fact: string)
    requires Good(c, ms) && a in ms && T.ModelCallId(call) in a.metadata.consumed
             && T.ModelCallId(call) !in GroupIds(ms)
    ensures var g, all := T.ModelCallId(call),
            WithTurn(ms, c + 1, text, DeniedRows(call, text, results), Unanswered(fact));
            g in GroupIds(all) && Consumed(all, g) && !MarkedLater(all, g)
  {
    var g, k, loop := T.ModelCallId(call), c + 1, DeniedRows(call, text, results);
    var all, more := WithTurn(ms, k, text, loop, Unanswered(fact)), TurnMessages(ms, k, text, loop, Unanswered(fact));
    TurnMessagesNumbered(ms, k, text, loop, Unanswered(fact));
    MaxSeqBounds(ms);
    assert Follows(ms, more);
    OpeningShape(ms, k, text, loop);
    MarkedBefore(ms, more, g);
    assert a in all;
    var x := Opening(ms, k, text, loop)[1];
    assert x == ToolLoopMessages(NextSeq(ms) + 1, k, loop)[0] == ToolLoopMessage(NextSeq(ms) + 1, k, loop[0]);
    assert x in all && x.modelCallId == Some(g);
  }

  const RAW := T.ModelCallId(1)
  const DENIED := DeniedRows(1, "", [])

  function DeniedTurn(ms: seq<Message>, k: nat): seq<Message> {
    WithTurn(ms, k, "", DENIED, Unanswered("failure_fact"))
  }

  lemma PlainClosed(ms: seq<Message>, g: string)
    requires g in GroupIds(ms)
    requires forall m | m in ms && InGroup(m, g) ::
             m.metadata == PLAIN && (m.kind == "tool_call" ==> m.toolCallId == None)
    ensures g in ClosedIds(ms)
  {
  }

  lemma DeniedMessages(ms: seq<Message>, k: nat)
    requires RAW !in GroupIds(ms)
    ensures RAW in GroupIds(DeniedTurn(ms, k))
    ensures forall m | m in DeniedTurn(ms, k) && InGroup(m, RAW) ::
            m.metadata == PLAIN && (m.kind == "tool_call" ==> m.toolCallId == None)
  {
    var n := NextSeq(ms);
    var u, x := UserMessage(n, k, ""), ToolLoopMessage(n + 1, k, DENIED[0]);
    var begun := ms + Opening(ms, k, "", DENIED);
    var f := EndMessage(n + 1 + |DENIED|, k, Unanswered("failure_fact"), ConsumedIds(begun));
    assert ToolLoopMessages(n + 1, k, DENIED) == [x];
    assert Opening(ms, k, "", DENIED) == [u, x];
    assert DeniedTurn(ms, k) == ms + [u, x] + [f];
    assert x in DeniedTurn(ms, k);
  }

  lemma DeniedGood(c: nat, ms: seq<Message>)
    requires Good(c, ms) && RAW !in GroupIds(ms)
    ensures Good(c + 1, DeniedTurn(ms, c + 1)) && RAW in ClosedIds(DeniedTurn(ms, c + 1))
  {
    DeniedLoopOk(c + 1, 1, "", []);
    TurnGood(c, ms, "", DENIED, Unanswered("failure_fact"));
    DeniedMessages(ms, c + 1);
    PlainClosed(DeniedTurn(ms, c + 1), RAW);
  }

  lemma AnswerMarks(c: nat, ms: seq<Message>, answer: string, g: string) returns (a: Message)
    requires Good(c, ms) && g in GroupIds(ms)
    ensures var all := WithTurn(ms, c + 1, "", [], Answered(answer));
            && a in all && g in a.metadata.consumed && InGroup(a, AnswerCallId(c + 1))
               && AnswerCallId(c + 1) in NonEvictable(all, 1)
  {
    var begun := ms + Opening(ms, c + 1, "", []);
    a := EndMessage(NextSeq(ms) + 1, c + 1, Answered(answer), ConsumedIds(begun));
    TurnEnds(c, c + 1, ms, "", [], Answered(answer), begun, a);
    GroupsConcat(ms, Opening(ms, c + 1, "", []));
    ProtectedAnswer(begun, a, AnswerCallId(c + 1));
  }

  /** An answer marks a closed group, frees it when one call is retained, and is itself protected. */
  lemma MarkedThenFreed(c: nat, ms: seq<Message>, answer: string, g: string) returns (a: Message)
    requires Good(c, ms) && g in ClosedIds(ms)
    ensures var all := WithTurn(ms, c + 1, "", [], Answered(answer));
            && Good(c + 1, all) && g in Evictable(all, 1)
            && a in all && g in a.metadata.consumed && InGroup(a, AnswerCallId(c + 1))
               && AnswerCallId(c + 1) in NonEvictable(all, 1)
  {
    AnswerFrees(c, ms, "", answer, 1, g);
    TurnGood(c, ms, "", [], Answered(answer));
    a := AnswerMarks(c, ms, answer, g);
  }

  lemma ProtectedAnswer(ms: seq<Message>, answer: Message, id: string)
    requires FreshAnswer(ms, answer, id)
    ensures answer in ms + [answer] && id in NonEvictable(ms + [answer], 1)
  {
    AnswerGroup(ms, answer, id);
  }

  lemma EvictedIsGone(c: nat, b: Budgeting, json: string, ms: seq<Message>, r: seq<Message>, g: string)
    requires Good(c, ms) && g in Evictable(ms, 1) && Compresses(b, 1, json, ms, r)
    ensures g !in GroupIds(r)
  {
    var plan := PlanCompression(b, ms, 1).value;
    PlanFailures(b, ms, 1);
    UncountedPlanning(b, ms, 1);
    PlanEvicts(b, ms, 1, plan);
    SurvivingGroups(ms, plan, json, r, g);
  }

  lemma ProtectedIsKept(c: nat, b: Budgeting, json: string, ms: seq<Message>, r: seq<Message>, a: Message, id: string)
    requires Good(c, ms) && Compresses(b, 1, json, ms, r) && a in ms && InGroup(a, id) && id in NonEvictable(ms, 1)
    ensures a in r
  {
    CompressionKeepsProtected(b, 1, json, ms, r);
    assert SameGroup(ms, r, id);
  }

  /** What a compression leaves of such a history: the mark without the group. */
  lemma MarkOutlivesGroup(c: nat, render: Renderer, prompt: string, reserved: int, json: string, ms: seq<Message>,
                          a: Message, id: string)
      returns (b: Budgeting, r: seq<Message>)
    requires Good(c, ms) && RAW in Evictable(ms, 1)
    requires a in ms && RAW in a.metadata.consumed && InGroup(a, id) && id in NonEvictable(ms, 1)
    ensures b == Budgeting(render, prompt, b.window, reserved) && Compresses(b, 1, json, ms, r)
    ensures Good(c, r) && a in r && RAW !in GroupIds(r)
  {
    b := SomeWindowPlans(render, prompt, reserved, ms, 1);
    ReplacementExists(b, 1, json, ms);
    r := Replacement(ms, PlanCompression(b, ms, 1).value, json);
    CompressedGood(c, b, 1, json, ms, r);
    EvictedIsGone(c, b, json, ms, r, RAW);
    ProtectedIsKept(c, b, json, ms, r, a, id);
  }

  /** It happens: a turn denied in its first round, an answered one, and a third that compresses and is denied again. */
  lemma RawIdBornConsumedReached(c: nat, start: seq<Message>, render: Renderer, prompt: string, reserved: int,
                                 json: string)
      returns (b: Budgeting, r: seq<Message>)
    requires Good(c, start) && RAW !in GroupIds(start)
    ensures b == Budgeting(render, prompt, b.window, reserved)
    ensures Compresses(b, 1, json, WithTurn(DeniedTurn(start, c + 1), c + 2, "", [], Answered("done")), r)
    ensures var third := DeniedTurn(r, c + 3);
            RAW in GroupIds(third) && Consumed(third, RAW) && !MarkedLater(third, RAW)
  {
    DeniedGood(c, start);
    var a := MarkedThenFreed(c + 1, DeniedTurn(start, c + 1), "done", RAW);
    b, r := MarkOutlivesGroup(c + 2, render, prompt, reserved, json,
                              WithTurn(DeniedTurn(start, c + 1), c + 2, "", [], Answered("done")), a,
                              AnswerCallId(c + 2));
    RawIdBornConsumed(c + 2, r, a, 1, "", [], "failure_fact");
  }
}
