/**
 * The process conversation against the durable projection, turn by turn: when the two stay in step, and what omission
 * and compression do to that (runtime/orchestrator.py, runtime/prompt_executor.py, persistence/conversation.py).
 */
module ReplAlignment {
  import opened Wrappers
  import opened Seqs
  import opened ModelContext
  import opened ConversationLog
  import opened ConversationLaws
  import opened ReplConversation
  import T = ToolLoopIds
  import G = TurnGroups

  // ---------------------------------------------------------------- the durable side of a turn

  function Single(turn: string, groupId: string, modelCallId: Option<string>, role: string, kind: string,
                  content: string): Append {
    Append(Some(turn), groupId, modelCallId, 0, 1, role, kind, Some(content), None, map[], None, None)
  }

  function UserAppend(turn: string, text: string): Append {
    Single(turn, turn + ":user", None, "user", "user_input", text)
  }

  function AnswerAppend(turn: string, text: string): Append {
    Single(turn, turn + ":assistant:final", Some(turn + ":assistant"), "assistant", "assistant_output", text)
  }

  function FactAppend(turn: string, fact: string): Append {
    Single(turn, turn + ":runtime:" + fact, None, "runtime", fact, "")
  }

  function EndAppend(turn: string, ending: Ending): Append {
    match ending
    case Answered(text) => AnswerAppend(turn, text)
    case Unanswered(fact) => FactAppend(turn, fact)
    case Interrupted => FactAppend(turn, "cancellation_fact")
  }

  /** The tool loop both sides record: none when the turn was interrupted before the executor recorded it. */
  function LoopOf(turn: string, rounds: seq<T.Round>, ending: Ending): seq<T.Converted> {
    if ending.Interrupted? then [] else G.LoopRows(turn, rounds)
  }

  function LoopGroups(sessionId: string, turn: string, loop: seq<T.Converted>): seq<Group> {
    if |G.LoopAppends(turn, loop)| == 0 then [] else [Group(sessionId, G.LoopAppends(turn, loop))]
  }

  /** The groups a turn appends, in order. */
  function TurnGroupsOf(sessionId: string, turn: string, text: string, loop: seq<T.Converted>,
                        ending: Ending): seq<Group> {
    [Group(sessionId, [UserAppend(turn, text)])] + LoopGroups(sessionId, turn, loop)
    + [Group(sessionId, [EndAppend(turn, ending)])]
  }

  function AppendAll(runId: string, artifacts: Artifacts, log: Log, groups: seq<Group>): Log {
    if |groups| == 0 then log
    else
      var g := groups[|groups| - 1];
      Appended(runId, artifacts, AppendAll(runId, artifacts, log, groups[..|groups| - 1]), g.sessionId, g.messages)
  }

  function RowCount(groups: seq<Group>): nat {
    if |groups| == 0 then 0 else RowCount(groups[..|groups| - 1]) + |groups[|groups| - 1].messages|
  }

  // ---------------------------------------------------------------- covering projections

  function Expansion(runId: string, log: Log): seq<int> {
    Indexes(CurrentProjection(runId, log).refs)
  }

  /** The projection names every index of the log, once. */
  ghost predicate Covering(runId: string, log: Log) {
    (forall i | 1 <= i <= |log.rows| :: i in Expansion(runId, log)) && NoRepeats(Expansion(runId, log))
  }

  lemma {:induction false} FilterAll(p: int -> bool, s: seq<int>)
    requires forall i | 0 <= i < |s| :: p(s[i])
    ensures Filter(p, s) == s
  {
    if |s| > 0 {
      FilterAll(p, s[..|s| - 1]);
      assert s == s[..|s| - 1] + [s[|s| - 1]];
    }
  }

  lemma SpanSplit(n: nat, m: nat)
    requires n <= m
    ensures Span(1, m) == Span(1, n) + Span(n + 1, m)
  {
  }

  /** Beyond what is named already come exactly the new indexes. */
  lemma UnseenBeyond(n: nat, m: nat, seen: seq<int>)
    requires n <= m && Within(n, seen)
    ensures Unseen(m, seen) == Unseen(n, seen) + Span(n + 1, m)
  {
    var p := i => i !in seen;
    SpanSplit(n, m);
    FilterConcat(p, Span(1, n), Span(n + 1, m));
    FilterAll(p, Span(n + 1, m));
  }

  lemma UnseenNone(n: nat, seen: seq<int>)
    requires forall i | 1 <= i <= n :: i in seen
    ensures Unseen(n, seen) == []
  {
    FilterNone(i => i !in seen, Span(1, n));
  }

  /** From `n` rows and expansion `s`: `count` more rows, named after all others in order. */
  ghost predicate Grows(n: nat, s: seq<int>, m: nat, t: seq<int>, count: nat) {
    m == n + count && t == s + Span(n + 1, m)
  }

  ghost predicate Extends(runId: string, artifacts: Artifacts, log: Log, after: Log, count: nat) {
    && ValidLog(runId, artifacts, after) && Covering(runId, after)
    && Grows(|log.rows|, Expansion(runId, log), |after.rows|, Expansion(runId, after), count)
  }

  lemma AppendToCovering(runId: string, artifacts: Artifacts, log: Log, g: Group)
    requires ValidLog(runId, artifacts, log) && Covering(runId, log) && FirstPrepareError(artifacts, g.messages) == None
    ensures Extends(runId, artifacts, log, Appended(runId, artifacts, log, g.sessionId, g.messages), |g.messages|)
  {
    var after, seen := Appended(runId, artifacts, log, g.sessionId, g.messages), Expansion(runId, log);
    AppendKeepsLog(runId, artifacts, log, g.sessionId, g.messages);
    AppendCoversLog(runId, artifacts, log, g.sessionId, g.messages);
    OnlyNewUnseen(|log.rows|, |after.rows|, seen);
  }

  lemma OnlyNewUnseen(n: nat, m: nat, seen: seq<int>)
    requires n <= m && Within(n, seen) && forall i | 1 <= i <= n :: i in seen
    ensures Unseen(m, seen) == Span(n + 1, m)
  {
    UnseenBeyond(n, m, seen);
    UnseenNone(n, seen);
    assert [] + Span(n + 1, m) == Span(n + 1, m);
  }

  lemma GrowsTwice(n: nat, s: seq<int>, m: nat, t: seq<int>, p: nat, u: seq<int>, a: nat, b: nat)
    requires Grows(n, s, m, t, a) && Grows(m, t, p, u, b)
    ensures Grows(n, s, p, u, a + b)
  {
    SpansJoin(n, m, p);
    ConcatAssoc(s, Span(n + 1, m), Span(m + 1, p));
  }

  lemma SpansJoin(a: nat, b: nat, c: nat)
    requires a <= b <= c
    ensures Span(a + 1, b) + Span(b + 1, c) == Span(a + 1, c)
  {
  }

  ghost predicate AllPrepare(artifacts: Artifacts, groups: seq<Group>) {
    forall i | 0 <= i < |groups| :: FirstPrepareError(artifacts, groups[i].messages) == None
  }

  /** Any number of appends extends the expansion of a covering projection by exactly the new indexes in order. */
  lemma {:induction false} AppendsToCovering(runId: string, artifacts: Artifacts, log: Log, groups: seq<Group>)
    requires ValidLog(runId, artifacts, log) && Covering(runId, log) && AllPrepare(artifacts, groups)
    ensures Extends(runId, artifacts, log, AppendAll(runId, artifacts, log, groups), RowCount(groups))
  {
    if |groups| > 0 {
      var front, g := groups[..|groups| - 1], groups[|groups| - 1];
      AppendsToCovering(runId, artifacts, log, front);
      AppendToCovering(runId, artifacts, AppendAll(runId, artifacts, log, front), g);
      var middle, after := AppendAll(runId, artifacts, log, front), AppendAll(runId, artifacts, log, groups);
      GrowsTwice(|log.rows|, Expansion(runId, log), |middle.rows|, Expansion(runId, middle),
                 |after.rows|, Expansion(runId, after), RowCount(front), |g.messages|);
    } else {
      assert Expansion(runId, log) + Span(|log.rows| + 1, |log.rows|) == Expansion(runId, log);
    }
  }

  // ---------------------------------------------------------------- alignment

  /** Message by message, the process holds the projection's indexes. */
  ghost predicate Aligned(conversation: seq<Message>, indexes: seq<int>) {
    && |conversation| == |indexes|
    && forall i | 0 <= i < |conversation| ::
         conversation[i].durableIndex == Some(indexes[i])
  }

  /** Alignment is what the check at the start of the next turn compares. */
  lemma {:induction false} AlignedPasses(conversation: seq<Message>, indexes: seq<int>)
    requires Aligned(conversation, indexes)
    ensures ProcessIndexes(conversation) == indexes
  {
    if |conversation| > 0 {
      AlignedPasses(conversation[..|conversation| - 1], indexes[..|indexes| - 1]);
    }
  }

  lemma SyncAligns(conversation: seq<Message>, indexes: seq<int>)
    requires |conversation| == |indexes|
    ensures Aligned(Synced(conversation, indexes), indexes)
  {
  }

  lemma SingleAccepted(artifacts: Artifacts, sessionId: string, a: Append)
    requires a.position == 0 && a.rowCount == 1 && PrepareError(artifacts, a) == None
    ensures Accepted(artifacts, Group(sessionId, [a]))
  {
    G.PreparesAll(artifacts, [a]);
    G.ConsecutiveIsClosed([a], a.groupId);
  }

  lemma LoopGroupsAccepted(artifacts: Artifacts, sessionId: string, turn: string, rounds: seq<T.Round>, ending: Ending)
    requires G.Invoking(rounds)
    ensures var loop := LoopOf(turn, rounds, ending);
            && AllAccepted(artifacts, LoopGroups(sessionId, turn, loop)) && |LoopGroups(sessionId, turn, loop)| <= 1
            && RowCount(LoopGroups(sessionId, turn, loop)) == |loop|
  {
    var loop := LoopOf(turn, rounds, ending);
    G.LoopRowsDurable(turn, rounds);
    assert Filter(G.IsDurable, []) == [];
    if |loop| > 0 {
      assert |rounds| > 0;
      G.LoopGroupAccepted(artifacts, sessionId, turn, rounds);
      assert [Group(sessionId, G.LoopAppends(turn, loop))][..0] == [];
    }
  }

  lemma AroundMiddle(artifacts: Artifacts, first: Group, middle: seq<Group>, last: Group)
    requires Accepted(artifacts, first) && Accepted(artifacts, last) && AllAccepted(artifacts, middle) && |middle| <= 1
    ensures AllAccepted(artifacts, [first] + middle + [last]) && AllPrepare(artifacts, [first] + middle + [last])
  {
  }

  lemma CountAround(first: Group, middle: seq<Group>, last: Group)
    requires |middle| <= 1
    ensures RowCount([first] + middle + [last]) == |first.messages| + RowCount(middle) + |last.messages|
  {
    var one := [first];
    assert (one + middle + [last])[..|one + middle|] == one + middle;
    assert one[..0] == [];
    if |middle| == 1 {
      assert (one + middle)[..1] == one && middle[..0] == [];
    } else {
      assert one + middle == one;
    }
  }

  lemma EndsPrepare(artifacts: Artifacts, turn: string, text: string, ending: Ending)
    requires EndingOk(ending)
    ensures PrepareError(artifacts, UserAppend(turn, text)) == None
    ensures PrepareError(artifacts, EndAppend(turn, ending)) == None
  {
    assert |turn + ":user"| > 0 && |turn + ":assistant:final"| > 0;
    assert forall fact: string :: |turn + ":runtime:" + fact| > 0;
  }

  /** Every group of a turn is accepted, and together they hold one row per message the process adds. */
  lemma TurnAccepted(artifacts: Artifacts, sessionId: string, turn: string, text: string, rounds: seq<T.Round>,
                     ending: Ending)
    requires G.Invoking(rounds) && EndingOk(ending)
    ensures var groups := TurnGroupsOf(sessionId, turn, text, LoopOf(turn, rounds, ending), ending);
            && AllAccepted(artifacts, groups) && AllPrepare(artifacts, groups)
            && RowCount(groups) == |LoopOf(turn, rounds, ending)| + 2
  {
    var loop := LoopOf(turn, rounds, ending);
    EndsPrepare(artifacts, turn, text, ending);
    SingleAccepted(artifacts, sessionId, UserAppend(turn, text));
    SingleAccepted(artifacts, sessionId, EndAppend(turn, ending));
    LoopGroupsAccepted(artifacts, sessionId, turn, rounds, ending);
    var first, last := Group(sessionId, [UserAppend(turn, text)]), Group(sessionId, [EndAppend(turn, ending)]);
    AroundMiddle(artifacts, first, LoopGroups(sessionId, turn, loop), last);
    CountAround(first, LoopGroups(sessionId, turn, loop), last);
  }

  /** A covering projection is a permutation of the log's indexes. */
  lemma ExpansionLength(runId: string, artifacts: Artifacts, log: Log)
    requires ValidLog(runId, artifacts, log) && Covering(runId, log)
    ensures |Expansion(runId, log)| == |log.rows|
  {
    var s, all := Expansion(runId, log), Span(1, |log.rows|);
    DistinctSize(s);
    DistinctSize(all);
    forall x ensures x in s <==> x in all {
      if x in s {
        var k :| 0 <= k < |s| && s[k] == x;
        assert all[x - 1] == x;
      }
    }
    assert (set x | x in s) == (set x | x in all);
  }

  // ---------------------------------------------------------------- turns and sessions

  /** What the process holds and what the log holds. */
  datatype Repl = Repl(conversation: seq<Message>, log: Log)
  datatype TurnInput = TurnInput(text: string, rounds: seq<T.Round>, ending: Ending)

  ghost predicate InputOk(t: TurnInput) {
    G.Invoking(t.rounds) && EndingOk(t.ending)
  }

  function LogAfter(runId: string, artifacts: Artifacts, sessionId: string, log: Log, k: nat, t: TurnInput): Log {
    AppendAll(runId, artifacts, log, TurnGroupsOf(sessionId, TurnId(k), t.text, LoopOf(TurnId(k), t.rounds, t.ending),
                                                  t.ending))
  }

  function MemoryAfter(conversation: seq<Message>, k: nat, t: TurnInput): seq<Message> {
    WithTurn(conversation, k, t.text, LoopOf(TurnId(k), t.rounds, t.ending), t.ending)
  }

  function AfterTurn(runId: string, artifacts: Artifacts, sessionId: string, s: Repl, k: nat, t: TurnInput): Repl {
    var log := LogAfter(runId, artifacts, sessionId, s.log, k, t);
    Repl(Synced(MemoryAfter(s.conversation, k, t), Expansion(runId, log)), log)
  }

  ghost predicate InStep(runId: string, artifacts: Artifacts, s: Repl) {
    && ValidLog(runId, artifacts, s.log)
    && Covering(runId, s.log)
    && Aligned(s.conversation, Expansion(runId, s.log))
  }

  function TurnSize(k: nat, t: TurnInput): nat {
    |LoopOf(TurnId(k), t.rounds, t.ending)| + 2
  }

  lemma LogGrows(runId: string, artifacts: Artifacts, sessionId: string, log: Log, k: nat, t: TurnInput)
    requires ValidLog(runId, artifacts, log) && Covering(runId, log) && InputOk(t)
    ensures Extends(runId, artifacts, log, LogAfter(runId, artifacts, sessionId, log, k, t), TurnSize(k, t))
  {
    TurnAccepted(artifacts, sessionId, TurnId(k), t.text, t.rounds, t.ending);
    AppendsToCovering(runId, artifacts, log,
                      TurnGroupsOf(sessionId, TurnId(k), t.text, LoopOf(TurnId(k), t.rounds, t.ending), t.ending));
  }

  lemma MemoryGrows(conversation: seq<Message>, k: nat, t: TurnInput)
    ensures |MemoryAfter(conversation, k, t)| == |conversation| + TurnSize(k, t)
    ensures conversation <= MemoryAfter(conversation, k, t)
  {
    TurnMessagesNumbered(conversation, k, t.text, LoopOf(TurnId(k), t.rounds, t.ending), t.ending);
  }

  /**
   * A turn without omission or compression keeps process and log in step: both grow by the same count, every message
   * gets its row's index, the messages before keep theirs, and the check at the next turn's start passes.
   */
  lemma TurnKeepsStep(runId: string, artifacts: Artifacts, sessionId: string, s: Repl, k: nat, t: TurnInput)
    requires InStep(runId, artifacts, s) && InputOk(t)
    ensures var next := AfterTurn(runId, artifacts, sessionId, s, k, t);
            && InStep(runId, artifacts, next)
            && |next.conversation| - |s.conversation| == |next.log.rows| - |s.log.rows| == TurnSize(k, t)
            && Expansion(runId, next.log) == Expansion(runId, s.log) + Span(|s.log.rows| + 1, |next.log.rows|)
            && ProcessIndexes(next.conversation) == Expansion(runId, next.log)
  {
    LogGrows(runId, artifacts, sessionId, s.log, k, t);
    MemoryGrows(s.conversation, k, t);
    ExpansionLength(runId, artifacts, s.log);
    var log := LogAfter(runId, artifacts, sessionId, s.log, k, t);
    ExpansionLength(runId, artifacts, log);
    Resynced(runId, MemoryAfter(s.conversation, k, t), log);
  }

  lemma Resynced(runId: string, conversation: seq<Message>, log: Log)
    requires |conversation| == |Expansion(runId, log)|
    ensures Aligned(Synced(conversation, Expansion(runId, log)), Expansion(runId, log))
    ensures ProcessIndexes(Synced(conversation, Expansion(runId, log))) == Expansion(runId, log)
  {
    SyncAligns(conversation, Expansion(runId, log));
    AlignedPasses(Synced(conversation, Expansion(runId, log)), Expansion(runId, log));
  }

  function AfterTurns(runId: string, artifacts: Artifacts, sessionId: string, s: Repl, k: nat,
                      turns: seq<TurnInput>): Repl {
    if |turns| == 0 then s
    else
      var n := |turns| - 1;
      AfterTurn(runId, artifacts, sessionId, AfterTurns(runId, artifacts, sessionId, s, k, turns[..n]), k + n, turns[n])
  }

  ghost predicate InputsOk(turns: seq<TurnInput>) {
    forall i | 0 <= i < |turns| :: InputOk(turns[i])
  }

  /** In step and in order. */
  ghost predicate Sound(runId: string, artifacts: Artifacts, s: Repl) {
    InStep(runId, artifacts, s) && StrictlyOrdered(s.conversation)
        && ProcessIndexes(s.conversation) == Expansion(runId, s.log)
  }

  lemma TurnSound(runId: string, artifacts: Artifacts, sessionId: string, s: Repl, k: nat, t: TurnInput)
    requires Sound(runId, artifacts, s) && InputOk(t)
    ensures Sound(runId, artifacts, AfterTurn(runId, artifacts, sessionId, s, k, t))
  {
    TurnKeepsStep(runId, artifacts, sessionId, s, k, t);
    TurnKeepsOrder(s.conversation, k, t.text, LoopOf(TurnId(k), t.rounds, t.ending), t.ending);
    SyncedOrder(MemoryAfter(s.conversation, k, t),
                Expansion(runId, LogAfter(runId, artifacts, sessionId, s.log, k, t)));
  }

  lemma SyncedOrder(conversation: seq<Message>, indexes: seq<int>)
    requires StrictlyOrdered(conversation)
    ensures StrictlyOrdered(Synced(conversation, indexes))
  {
  }

  /**
   * Over any number of turns without omission or compression, process and log stay in step and sequence numbers
   * increase.
   */
  lemma {:induction false} SessionStaysSound(runId: string, artifacts: Artifacts, sessionId: string, s: Repl, k: nat,
                                             turns: seq<TurnInput>)
    requires Sound(runId, artifacts, s) && InputsOk(turns)
    ensures Sound(runId, artifacts, AfterTurns(runId, artifacts, sessionId, s, k, turns))
  {
    if |turns| > 0 {
      var n := |turns| - 1;
      SessionStaysSound(runId, artifacts, sessionId, s, k, turns[..n]);
      assert InputOk(turns[n]);
      TurnSound(runId, artifacts, sessionId, AfterTurns(runId, artifacts, sessionId, s, k, turns[..n]), k + n,
                turns[n]);
    }
  }
}
