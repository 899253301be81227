/**
 * The process-local conversation of an interactive session beside its durable log (ReplRuntime in
 * runtime/orchestrator.py, durable appends in runtime/prompt_executor.py).
 */
module ReplConversation {
  import opened Wrappers
  import opened Seqs
  import opened ModelContext
  import opened QueryControl
  import Decimal
  import T = ToolLoopIds

  /** How a turn ended: with an answer, with a failure the executor recorded, or interrupted before it could. */
  datatype Ending = Answered(text: string) | Unanswered(fact: string) | Interrupted

  const FACTS := {"failure_fact", "cancellation_fact"}

  predicate EndingOk(e: Ending) {
    e.Unanswered? ==> e.fact in FACTS
  }

  function TurnId(k: nat): string {
    "turn-" + Decimal.Print(k)
  }

  // ---------------------------------------------------------------- the in-memory side of a turn

  function NextSeq(conversation: seq<Message>): int {
    if |conversation| == 0 then 1 else MaxSeq(conversation) + 1
  }

  function UserMessage(seqNo: int, k: nat, text: string): Message {
    Message(seqNo, "user", "current_user_input", Some(TurnId(k)), None, None, Text(text), [], None, PLAIN, None)
  }

  function ToolLoopMessage(seqNo: int, k: nat, c: T.Converted): Message {
    Message(seqNo, c.role, c.kind, Some(TurnId(k)), c.modelCallId, c.toolCallId, Structured(c.content), [], None,
            PLAIN, None)
  }

  function AnswerCallId(k: nat): string {
    "repl_turn_" + Decimal.Print(k) + "_assistant"
  }

  function EndMessage(seqNo: int, k: nat, ending: Ending, consumed: seq<string>): Message {
    match ending
    case Answered(text) =>
      Message(seqNo, "assistant", "assistant_output", Some(TurnId(k)), Some(AnswerCallId(k)), None, Text(text), [],
              None, PLAIN.(consumed := consumed), None)
    case Unanswered(_) => Message(seqNo, "runtime", "failure_fact", Some(TurnId(k)), None, None, Structured(""), [],
                                  None, PLAIN, None)
    case Interrupted => Message(seqNo, "runtime", "cancellation_fact", Some(TurnId(k)), None, None, Structured(""), [],
                                None, PLAIN, None)
  }

  /** The user's message and the tool loop's, numbered on from the conversation. */
  function Opening(conversation: seq<Message>, k: nat, text: string, loop: seq<T.Converted>): seq<Message> {
    var n := NextSeq(conversation);
    [UserMessage(n, k, text)] + ToolLoopMessages(n + 1, k, loop)
  }

  function ToolLoopMessages(n: int, k: nat, loop: seq<T.Converted>): seq<Message> {
    seq(|loop|, i requires 0 <= i < |loop| => ToolLoopMessage(n + i, k, loop[i]))
  }

  /** Model call ids of a conversation in order of first appearance. */
  function ConsumedIds(conversation: seq<Message>): seq<string> {
    FirstKeys(CallOf, conversation)
  }

  function WithTurn(conversation: seq<Message>, k: nat, text: string, loop: seq<T.Converted>,
                    ending: Ending): seq<Message> {
    var begun := conversation + Opening(conversation, k, text, loop);
    begun + [EndMessage(NextSeq(conversation) + 1 + |loop|, k, ending, ConsumedIds(begun))]
  }

  /** Gives every message the projection's index at its place, when there are exactly as many. */
  function Synced(conversation: seq<Message>, indexes: seq<int>): seq<Message> {
    if |indexes| != |conversation| then conversation
    else
      seq(|conversation|, i requires 0 <= i < |conversation| =>
        conversation[i].(durableIndex := Some(indexes[i])))
  }

  /** The durable indexes the process holds, its own before those in metadata, messages without either left out. */
  function ProcessIndexes(conversation: seq<Message>): seq<int> {
    if |conversation| == 0 then []
    else
      var m := conversation[|conversation| - 1];
      ProcessIndexes(conversation[..|conversation| - 1])
      + (if m.durableIndex.Some? then [m.durableIndex.value]
         else if m.metadata.durableIndex.Some? then [m.metadata.durableIndex.value] else [])
  }

  /**
   * A dictionary turned into a message of its own class: its index goes into the metadata unless one is there already.
   */
  function Held(m: Message): Message {
    var index := if m.metadata.durableIndex.Some? then m.metadata.durableIndex else m.durableIndex;
    m.(metadata := m.metadata.(durableIndex := index), durableIndex := None)
  }

  function ToMessages(conversation: seq<Message>): seq<Message> {
    Map(Held, conversation)
  }

  method ConversationMessages(conversation: seq<Message>) returns (ms: seq<Message>)
    ensures ms == ToMessages(conversation)
  {
    ms := [];
    for i := 0 to |conversation|
      invariant ms == ToMessages(conversation)[..i]
    {
      var m := conversation[i];
      if m.durableIndex.Some? && m.metadata.durableIndex.None? {
        m := m.(metadata := m.metadata.(durableIndex := m.durableIndex));
      }
      m := m.(durableIndex := None);
      assert m == Held(conversation[i]);
      ms := ms + [m];
    }
  }

  // ---------------------------------------------------------------- turn numbers

  predicate HasPrefix(s: string, prefix: string) {
    |s| >= |prefix| && s[..|prefix|] == prefix
  }

  const TURN := "turn-"
  const REPL_TURN := "repl_turn_"

  /** The turn number an id names, 0 when it names none. */
  function ExtractTurn(id: string): nat {
    if HasPrefix(id, TURN) && Decimal.Leading(id[|TURN|..]) != "" then Decimal.Value(Decimal.Leading(id[|TURN|..]))
    else if HasPrefix(id, REPL_TURN) && Decimal.Leading(id[|REPL_TURN|..]) != ""
    then Decimal.Value(Decimal.Leading(id[|REPL_TURN|..]))
    else 0
  }

  function TurnOf(id: Option<string>): nat {
    if id.None? then 0 else ExtractTurn(id.value)
  }

  function Max(a: nat, b: nat): nat {
    if a < b then b else a
  }

  /** The highest turn number that a turn id or a model call id of the conversation names. */
  function MaxTurn(conversation: seq<Message>): nat {
    if |conversation| == 0 then 0
    else
      var m := conversation[|conversation| - 1];
      Max(MaxTurn(conversation[..|conversation| - 1]), Max(TurnOf(m.turnId), TurnOf(m.modelCallId)))
  }

  predicate InTurnScope(turn: string, id: string) {
    |id| > |turn| + 1 && id[..|turn| + 1] == turn + ":"
  }

  lemma PrefixedNumber(k: nat, rest: string)
    requires rest == "" || rest[0] !in Decimal.DIGITS
    ensures ExtractTurn(TURN + (Decimal.Print(k) + rest)) == k
  {
    var number := Decimal.Print(k) + rest;
    Decimal.ReadsBack(k, rest);
    assert (TURN + number)[|TURN|..] == number && (TURN + number)[..|TURN|] == TURN;
  }

  lemma TurnIdNamesTurn(k: nat)
    ensures ExtractTurn(TurnId(k)) == k
  {
    PrefixedNumber(k, "");
    assert TurnId(k) == TURN + (Decimal.Print(k) + "");
  }

  lemma ScopedIdNamesTurn(k: nat, id: string)
    requires InTurnScope(TurnId(k), id)
    ensures ExtractTurn(id) == k
  {
    var turn := TurnId(k);
    var rest := id[|turn|..];
    assert rest[0] == id[..|turn| + 1][|turn|] == (turn + ":")[|turn|] == ':';
    assert id[..|turn|] == id[..|turn| + 1][..|turn|] == (turn + ":")[..|turn|] == turn;
    assert id == turn + rest == TURN + (Decimal.Print(k) + rest);
    PrefixedNumber(k, rest);
  }

  lemma AnswerIdNamesTurn(k: nat)
    ensures ExtractTurn(AnswerCallId(k)) == k && !HasPrefix(AnswerCallId(k), TURN)
  {
    Decimal.ReadsBack(k, "_assistant");
    var id := AnswerCallId(k);
    assert id == REPL_TURN + (Decimal.Print(k) + "_assistant");
    assert id[|REPL_TURN|..] == Decimal.Print(k) + "_assistant" && id[..|REPL_TURN|] == REPL_TURN;
    assert id[0] == 'r' && TURN[0] == 't';
  }

  lemma {:induction false} MaxTurnBounds(conversation: seq<Message>)
    ensures forall m | m in conversation ::
              TurnOf(m.turnId) <= MaxTurn(conversation) && TurnOf(m.modelCallId) <= MaxTurn(conversation)
  {
    if |conversation| > 0 {
      var n := |conversation| - 1;
      MaxTurnBounds(conversation[..n]);
      assert conversation == conversation[..n] + [conversation[n]];
    }
  }

  lemma OpeningStep(conversation: seq<Message>, k: nat, text: string, loop: seq<T.Converted>, i: nat)
    requires i < |loop|
    ensures |Opening(conversation, k, text, loop)| == |loop| + 1
    ensures conversation + Opening(conversation, k, text, loop)[..i + 2]
            == conversation + Opening(conversation, k, text, loop)[..i + 1]
               + [ToolLoopMessage(NextSeq(conversation) + 1 + i, k, loop[i])]
  {
    var opening, n := Opening(conversation, k, text, loop), NextSeq(conversation);
    assert ToolLoopMessages(n + 1, k, loop)[i] == ToolLoopMessage(n + 1 + i, k, loop[i]);
    TakeNext(conversation, opening, i + 1);
  }

  lemma TakeNext(a: seq<Message>, b: seq<Message>, i: nat)
    requires i < |b|
    ensures a + b[..i + 1] == a + b[..i] + [b[i]]
  {
  }

  class ReplRuntime {
    var conversation: seq<Message>
    var turnCounter: nat

    constructor (conversation: seq<Message>)
      ensures this.conversation == conversation && turnCounter == MaxTurn(conversation)
    {
      this.conversation := conversation;
      var highest: nat := 0;
      for i := 0 to |conversation|
        invariant highest == MaxTurn(conversation[..i])
      {
        var m := conversation[i];
        assert conversation[..i + 1][..i] == conversation[..i];
        highest := Max(highest, Max(TurnOf(m.turnId), TurnOf(m.modelCallId)));
      }
      assert conversation[..|conversation|] == conversation;
      turnCounter := highest;
    }

    method BeginTurn()
      modifies this`turnCounter
      ensures turnCounter == old(turnCounter) + 1
    {
      turnCounter := turnCounter + 1;
    }

    /** Takes over the history an optimization handed back, if any, and appends the turn. */
    method AppendTurn(writeback: Option<seq<Message>>, text: string, loop: seq<T.Converted>, ending: Ending)
      modifies this`conversation
      ensures conversation == WithTurn(if writeback.Some? then writeback.value
                                       else old(conversation), turnCounter, text, loop, ending)
    {
      if writeback.Some? {
        conversation := writeback.value;
      }
      ghost var before := conversation;
      var next := NextSeq(conversation);
      conversation := conversation + [UserMessage(next, turnCounter, text)];
      next := next + 1;
      for i := 0 to |loop|
        invariant next == NextSeq(before) + 1 + i
        invariant conversation == before + Opening(before, turnCounter, text, loop)[..i + 1]
      {
        OpeningStep(before, turnCounter, text, loop, i);
        conversation := conversation + [ToolLoopMessage(next, turnCounter, loop[i])];
        next := next + 1;
      }
      assert Opening(before, turnCounter, text, loop)[..|loop| + 1] == Opening(before, turnCounter, text, loop);
      var consumed := ConsumedModelCallIds();
      conversation := conversation + [EndMessage(next, turnCounter, ending, consumed)];
    }

    method ConsumedModelCallIds() returns (ids: seq<string>)
      ensures ids == ConsumedIds(conversation)
    {
      ids := [];
      for i := 0 to |conversation|
        invariant ids == ConsumedIds(conversation[..i])
      {
        assert conversation[..i + 1][..i] == conversation[..i];
        if conversation[i].modelCallId.Some? && conversation[i].modelCallId.value !in ids {
          ids := ids + [conversation[i].modelCallId.value];
        }
      }
      assert conversation[..|conversation|] == conversation;
    }

    method SyncDurableIndexes(indexes: seq<int>)
      modifies this`conversation
      ensures conversation == Synced(old(conversation), indexes)
    {
      if |indexes| != |conversation| {
        return;
      }
      ghost var before := conversation;
      for i := 0 to |indexes|
        invariant |conversation| == |before| == |indexes|
        invariant conversation[..i] == Synced(before, indexes)[..i] && conversation[i..] == before[i..]
      {
        var m := conversation[i];
        conversation := conversation[i := m.(durableIndex := Some(indexes[i]))];
      }
    }
  }

  // ---------------------------------------------------------------- sequence numbers

  lemma {:induction false} MaxSeqBounds(ms: seq<Message>)
    ensures forall i | 0 <= i < |ms| :: ms[i].seqNo <= MaxSeq(ms)
  {
    if |ms| > 1 {
      MaxSeqBounds(ms[..|ms| - 1]);
    }
  }

  /** Messages numbered n, n + 1, … may follow a conversation that stays below n. */
  lemma NumberedOn(before: seq<Message>, more: seq<Message>, n: int)
    requires StrictlyOrdered(before) && forall i | 0 <= i < |before| :: before[i].seqNo < n
    requires forall i | 0 <= i < |more| :: more[i].seqNo == n + i
    ensures StrictlyOrdered(before + more)
  {
  }

  /** What a turn appends. */
  function TurnMessages(conversation: seq<Message>, k: nat, text: string, loop: seq<T.Converted>,
                        ending: Ending): seq<Message> {
    var opening := Opening(conversation, k, text, loop);
    opening + [EndMessage(NextSeq(conversation) + 1 + |loop|, k, ending, ConsumedIds(conversation + opening))]
  }

  lemma TurnMessagesNumbered(conversation: seq<Message>, k: nat, text: string, loop: seq<T.Converted>, ending: Ending)
    ensures var more := TurnMessages(conversation, k, text, loop, ending);
            && |more| == |loop| + 2
            && WithTurn(conversation, k, text, loop, ending) == conversation + more
            && forall i | 0 <= i < |more| ::
               more[i].seqNo == NextSeq(conversation) + i && more[i].metadata.durableIndex == None
                   && more[i].durableIndex == None
  {
    OpeningShape(conversation, k, text, loop);
    var opening := Opening(conversation, k, text, loop);
    var last := EndMessage(NextSeq(conversation) + 1 + |loop|, k, ending, ConsumedIds(conversation + opening));
    ConcatAssoc(conversation, opening, [last]);
    assert last.seqNo == NextSeq(conversation) + |opening| && last.metadata.durableIndex == None
           && last.durableIndex == None;
  }

  /** Whatever a turn appends is numbered past everything before it. */
  lemma TurnKeepsOrder(conversation: seq<Message>, k: nat, text: string, loop: seq<T.Converted>, ending: Ending)
    requires StrictlyOrdered(conversation)
    ensures StrictlyOrdered(WithTurn(conversation, k, text, loop, ending))
  {
    MaxSeqBounds(conversation);
    TurnMessagesNumbered(conversation, k, text, loop, ending);
    NumberedOn(conversation, TurnMessages(conversation, k, text, loop, ending), NextSeq(conversation));
  }

  lemma OpeningShape(conversation: seq<Message>, k: nat, text: string, loop: seq<T.Converted>)
    ensures var opening := Opening(conversation, k, text, loop);
            && |opening| == |loop| + 1
            && forall i | 0 <= i < |opening| ::
                 opening[i].seqNo == NextSeq(conversation) + i && opening[i].metadata == PLAIN
                     && opening[i].durableIndex == None
  {
    var opening, n, rest := Opening(conversation, k, text, loop), NextSeq(conversation),
        ToolLoopMessages(NextSeq(conversation) + 1, k, loop);
    forall i | 0 <= i < |opening|
      ensures opening[i].seqNo == n + i && opening[i].metadata == PLAIN && opening[i].durableIndex == None
    {
      assert i > 0 ==> opening[i] == rest[i - 1] == ToolLoopMessage(n + 1 + (i - 1), k, loop[i - 1]);
    }
  }

  // ---------------------------------------------------------------- evictable groups after a fresh answer

  /** The answer's group: its own single message, not yet consumed, later than every other group. */
  ghost predicate FreshAnswer(ms: seq<Message>, answer: Message, id: string) {
    && answer.modelCallId == Some(id) && answer.kind != "tool_call"
    && !answer.metadata.streaming && !answer.metadata.pendingToolCall
    && id !in GroupIds(ms) && !Consumed(ms, id) && id !in answer.metadata.consumed
    && (forall g | g in GroupIds(ms) :: g in answer.metadata.consumed)
    && (forall m | m in ms :: m.seqNo < answer.seqNo)
  }

  lemma AnswerGroup(ms: seq<Message>, answer: Message, id: string)
    requires FreshAnswer(ms, answer, id)
    ensures var all := ms + [answer];
            && GroupIds(all) == GroupIds(ms) + {id}
            && IsClosed(all, id) && !Consumed(all, id)
            && (forall g | g in GroupIds(ms) :: Consumed(all, g))
            && (forall g | g in GroupIds(ms) :: Before(all, g, id) && !Before(all, id, g))
  {
    var all := ms + [answer];
    assert answer in all && forall m :: m in all <==> m in ms || m == answer;
    forall m | m in ms && m.modelCallId.Some? ensures m.modelCallId.value in GroupIds(ms) {
    }
    WithKeyMeaning(CallOf, all, id);
    assert answer in Members(all, id);
    MinSeqMeaning(Members(all, id));
    forall g | g in GroupIds(ms) ensures StartSeq(all, g) < StartSeq(all, id) {
      EarlierStart(ms, answer, id, g);
    }
  }

  lemma EarlierStart(ms: seq<Message>, answer: Message, id: string, g: string)
    requires g in GroupIds(ms) && g != id && answer.modelCallId == Some(id)
    requires forall m | m in ms :: m.seqNo < answer.seqNo
    ensures StartSeq(ms + [answer], g) < answer.seqNo
  {
    var all := ms + [answer];
    var m :| m in ms && m.modelCallId == Some(g);
    WithKeyMeaning(CallOf, all, g);
    assert m in all && CallOf(m) == Some(g);
    assert m in Members(all, g);
    MinSeqMeaning(Members(all, g));
  }

  /**
   * After a fresh answer the evictable groups are exactly the closed groups with at least max(1, retain) closed groups
   * after them, that is, all closed groups but the last max(1, retain).
   */
  lemma EvictableAfterAnswer(ms: seq<Message>, answer: Message, id: string, retain: int)
    requires FreshAnswer(ms, answer, id)
    ensures var all, keep := ms + [answer], if retain < 1 then 1 else retain;
            Evictable(all, retain) == set g | g in ClosedIds(all) && |LaterClosed(all, g)| >= keep
  {
    var all := ms + [answer];
    AnswerGroup(ms, answer, id);
    forall g ensures g in Evictable(all, retain)
        <==> g in ClosedIds(all) && |LaterClosed(all, g)| >= (if retain < 1 then 1 else retain) {
      if g in ClosedIds(all) {
        if g == id {
          assert LaterClosed(all, id) == {};
        } else {
          assert id in LaterClosed(all, g);
        }
      }
    }
  }

  lemma LastIsLatest(ms: seq<Message>, last: Message)
    requires StrictlyOrdered(ms + [last])
    ensures forall m | m in ms :: m.seqNo < last.seqNo
  {
    var all := ms + [last];
    forall m | m in ms ensures m.seqNo < last.seqNo {
      var i :| 0 <= i < |ms| && ms[i] == m;
      assert all[i].seqNo < all[|ms|].seqNo;
    }
  }

  lemma ConsumedIdsAll(ms: seq<Message>)
    ensures forall g :: g in ConsumedIds(ms) <==> g in GroupIds(ms)
  {
    KeysAreGroupIds(ms);
    FirstKeysMeaning(CallOf, ms);
  }
}
