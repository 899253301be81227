/**
 * Sessions in which what ReplDrift warns of does happen: an omission that is persisted and then lost spoils the indexes
 * later overwrites read, and a compression leaves process and log apart.
 */
module ReplCases {
  import opened Wrappers
  import opened ModelContext
  import opened QueryControl
  import opened EvictionLaws
  import opened ReplConversation
  import opened ReplAlignment
  import opened SessionRecovery
  import opened ReplProjection
  import opened ReplDrift
  import M = ContextManager
  import H = ReplHistory
  import L = ConversationLog
  import T = ToolLoopIds
  import G = TurnGroups

  // ---------------------------------------------------------------- one round, an answer, a turn without one

  const ONE_ROUND := [T.Round(1, "", [T.Invoked(1, "ok")])]
  const TOOL_TURN := TurnInput("", ONE_ROUND, Unanswered("failure_fact"))
  const ANSWERED := TurnInput("", [], Answered("done"))
  const FAILED := TurnInput("", [], Unanswered("failure_fact"))

  /** A call and its result under one scoped group id. */
  predicate CallAndResult(k: nat, loop: seq<T.Converted>, g: string, call: string) {
    && |loop| == 2 && InTurnScope(TurnId(k), g)
    && loop[0] == T.Converted("assistant", "tool_call", Some(g), Some(call), loop[0].content)
    && loop[1] == T.Converted("tool", "tool_result", Some(g), Some(call), loop[1].content)
  }

  lemma OneRoundLoop(k: nat) returns (g: string, call: string)
    ensures CallAndResult(k, LoopOf(TurnId(k), ONE_ROUND, Unanswered("failure_fact")), g, call)
  {
    var turn := TurnId(k);
    g, call := T.InTurn(turn, T.ModelCallId(1)), T.InTurn(turn, T.RawToolId(1, 1));
    H.InTurnIsScoped(turn, T.ModelCallId(1));
    assert ONE_ROUND[..0] == [];
    assert G.LoopRows(turn, ONE_ROUND) == [] + T.RoundRows(turn, ONE_ROUND[0]);
    assert T.RoundRows(turn, ONE_ROUND[0]) == [T.CallRow(turn, ONE_ROUND[0], 0)] + [T.ResultRow(turn, ONE_ROUND[0], 0)];
  }

  lemma CallAndResultOk(k: nat, loop: seq<T.Converted>, g: string, call: string)
    requires CallAndResult(k, loop, g, call)
    ensures H.LoopOk(k, loop)
  {
    assert |"context_summary"| == 15 && |"tool_call"| == 9 && |"tool_result"| == 11;
  }

  /** The tool result an omission may blank. */
  ghost predicate HoldsResult(ms: seq<Message>, g: string) {
    exists m | m in ms :: InGroup(m, g) && m.kind == "tool_result" && m.content.Structured?
  }

  /** Call and result of a group, with messages of no group around them, close it. */
  lemma PairCloses(ms: seq<Message>, u: Message, x: Message, y: Message, f: Message, g: string, call: string)
    requires g !in GroupIds(ms) && u.modelCallId == None && f.modelCallId == None
    requires InGroup(x, g) && x.metadata == PLAIN && x.toolCallId == Some(call)
    requires InGroup(y, g) && y.metadata == PLAIN && y.toolCallId == Some(call) && y.kind == "tool_result"
             && y.content.Structured?
    ensures g in ClosedIds(ms + [u, x, y] + [f]) && HoldsResult(ms + [u, x, y] + [f], g)
  {
    var all := ms + [u, x, y] + [f];
    assert x in all && y in all;
    assert IsResult(y, g, call);
    assert QueryControl.Answered(all, g, call);
    forall m | m in all && InGroup(m, g) ensures m == x || m == y {
      assert m in ms ==> g in GroupIds(ms);
    }
    assert y.kind != "tool_call" by {
      assert |y.kind| == 11;
    }
  }

  lemma ToolTurnMessages(ms: seq<Message>, k: nat, loop: seq<T.Converted>)
      returns (u: Message, x: Message, y: Message, f: Message)
    requires |loop| == 2
    ensures x == ToolLoopMessage(NextSeq(ms) + 1, k, loop[0]) && y == ToolLoopMessage(NextSeq(ms) + 2, k, loop[1])
    ensures u.modelCallId == None && f.modelCallId == None
    ensures WithTurn(ms, k, "", loop, Unanswered("failure_fact")) == ms + [u, x, y] + [f]
  {
    var n := NextSeq(ms);
    u, x, y := UserMessage(n, k, ""), ToolLoopMessage(n + 1, k, loop[0]), ToolLoopMessage(n + 2, k, loop[1]);
    f := EndMessage(n + 3, k, Unanswered("failure_fact"), ConsumedIds(ms + Opening(ms, k, "", loop)));
    assert ToolLoopMessages(n + 1, k, loop) == [x, y];
    assert Opening(ms, k, "", loop) == [u, x, y];
  }

  lemma NewScope(c: nat, ms: seq<Message>, g: string)
    requires H.KnownTurns(c, ms) && InTurnScope(TurnId(c + 1), g)
    ensures g !in GroupIds(ms)
  {
    ScopedIdNamesTurn(c + 1, g);
  }

  lemma ToolTurnCloses(c: nat, ms: seq<Message>, loop: seq<T.Converted>, g: string, call: string)
    requires H.Good(c, ms) && CallAndResult(c + 1, loop, g, call)
    ensures var all := WithTurn(ms, c + 1, "", loop, Unanswered("failure_fact"));
            H.Good(c + 1, all) && g in ClosedIds(all) && HoldsResult(all, g)
  {
    CallAndResultOk(c + 1, loop, g, call);
    H.TurnGood(c, ms, "", loop, Unanswered("failure_fact"));
    NewScope(c, ms, g);
    var u, x, y, f := ToolTurnMessages(ms, c + 1, loop);
    PairCloses(ms, u, x, y, f, g, call);
  }

  lemma UnmarkedGroup(ms: seq<Message>, u: Message, f: Message, g: string)
    requires u.modelCallId == None && f.modelCallId == None && u.metadata == PLAIN && f.metadata == PLAIN
    ensures var all := ms + [u] + [f];
            && (g in GroupIds(all) <==> g in GroupIds(ms)) && (Consumed(all, g) <==> Consumed(ms, g))
            && (IsClosed(all, g) <==> IsClosed(ms, g)) && StartSeq(all, g) == StartSeq(ms, g)
  {
    var all := ms + [u] + [f];
    assert forall m :: m in all <==> m in ms || m == u || m == f;
    assert SameGroup(ms, all, g);
    SameGroupFacts(ms, all, g);
  }

  /** A turn without tools and answer changes no group. */
  lemma QuietKeepsGroups(ms: seq<Message>, k: nat, text: string, fact: string)
    ensures SameGroups(ms, WithTurn(ms, k, text, [], Unanswered(fact)))
  {
    var n := NextSeq(ms);
    var u, f := UserMessage(n, k, text),
        EndMessage(n + 1, k, Unanswered(fact), ConsumedIds(ms + Opening(ms, k, text, [])));
    assert Opening(ms, k, text, []) == [u];
    assert WithTurn(ms, k, text, [], Unanswered(fact)) == ms + [u] + [f];
    forall g
      ensures var all := ms + [u] + [f];
              && (g in GroupIds(all) <==> g in GroupIds(ms)) && (Consumed(all, g) <==> Consumed(ms, g))
              && (IsClosed(all, g) <==> IsClosed(ms, g)) && StartSeq(all, g) == StartSeq(ms, g)
    {
      UnmarkedGroup(ms, u, f, g);
    }
  }

  // ---------------------------------------------------------------- what an omission then finds

  /** A closed, evictable group with a result to blank. */
  ghost predicate Blankable(ms: seq<Message>, retain: int, g: string) {
    g in Evictable(ms, retain) && HoldsResult(ms, g)
  }

  ghost predicate ProtectedAt(ms: seq<Message>, retain: int, i: nat) {
    i < |ms| && ms[i].modelCallId.Some? && ms[i].modelCallId.value in NonEvictable(ms, retain)
  }

  /** And a protected message followed by one of no group. */
  ghost predicate Movable(ms: seq<Message>, retain: int, g: string, i: nat) {
    Blankable(ms, retain, g) && ProtectedAt(ms, retain, i) && i + 1 < |ms| && ms[i + 1].modelCallId == None
  }

  /** And a protected message at the end. */
  ghost predicate Freed(ms: seq<Message>, retain: int, g: string) {
    Blankable(ms, retain, g) && |ms| > 0 && ProtectedAt(ms, retain, |ms| - 1)
  }

  lemma SyncedResult(ms: seq<Message>, sync: seq<int>, g: string)
    requires HoldsResult(ms, g)
    ensures HoldsResult(Synced(ms, sync), g)
  {
    var m :| m in ms && InGroup(m, g) && m.kind == "tool_result" && m.content.Structured?;
    var i :| 0 <= i < |ms| && ms[i] == m;
    assert Synced(ms, sync)[i] in Synced(ms, sync);
  }

  lemma SyncedBlankable(ms: seq<Message>, retain: int, g: string, sync: seq<int>)
    ensures Blankable(ms, retain, g) ==> Blankable(Synced(ms, sync), retain, g)
    ensures forall i: nat :: ProtectedAt(ms, retain, i) ==> ProtectedAt(Synced(ms, sync), retain, i)
  {
    H.SyncedShape(ms, sync);
    OnlyShapeMatters(ms, Synced(ms, sync), retain);
    if HoldsResult(ms, g) {
      SyncedResult(ms, sync, g);
    }
    forall i: nat | i < |ms| ensures Synced(ms, sync)[i].modelCallId == ms[i].modelCallId {
      assert Alike(ms[i], Synced(ms, sync)[i]);
    }
  }

  lemma SyncedClosed(c: nat, ms: seq<Message>, g: string, sync: seq<int>)
    requires H.Good(c, ms) && g in ClosedIds(ms) && HoldsResult(ms, g)
    ensures H.Good(c, Synced(ms, sync)) && g in ClosedIds(Synced(ms, sync)) && HoldsResult(Synced(ms, sync), g)
  {
    H.SyncedGood(c, ms, sync);
    H.SyncedShape(ms, sync);
    OnlyShapeMatters(ms, Synced(ms, sync), 0);
    SyncedResult(ms, sync, g);
  }

  lemma AnswerThenFreed(c: nat, ms: seq<Message>, retain: int, g: string)
    requires H.Good(c, ms) && g in ClosedIds(ms) && HoldsResult(ms, g) && retain <= 1
    ensures Freed(WithTurn(ms, c + 1, "", [], Answered("done")), retain, g)
  {
    var all := WithTurn(ms, c + 1, "", [], Answered("done"));
    H.AnswerFrees(c, ms, "", "done", retain, g);
    H.SameGroupAfter(c, ms, "", "done", g);
    var m :| m in ms && InGroup(m, g) && m.kind == "tool_result" && m.content.Structured?;
    assert m in all;
    LastAnswerProtected(c, ms, retain);
  }

  lemma LastAnswerProtected(c: nat, ms: seq<Message>, retain: int)
    requires H.Good(c, ms)
    ensures var all := WithTurn(ms, c + 1, "", [], Answered("done"));
            |all| > 0 && all[|all| - 1].modelCallId == Some(AnswerCallId(c + 1))
                && AnswerCallId(c + 1) in NonEvictable(all, retain)
  {
    var begun := ms + Opening(ms, c + 1, "", []);
    var a := EndMessage(NextSeq(ms) + 1, c + 1, Answered("done"), ConsumedIds(begun));
    H.TurnEnds(c, c + 1, ms, "", [], Answered("done"), begun, a);
    AnswerGroup(begun, a, AnswerCallId(c + 1));
  }

  lemma FailedTurnMessages(ms: seq<Message>, k: nat) returns (u: Message, f: Message)
    ensures WithTurn(ms, k, "", [], Unanswered("failure_fact")) == ms + [u] + [f] && u.modelCallId == None
  {
    u := UserMessage(NextSeq(ms), k, "");
    f := EndMessage(NextSeq(ms) + 1, k, Unanswered("failure_fact"), ConsumedIds(ms + Opening(ms, k, "", [])));
    assert Opening(ms, k, "", []) == [u];
  }

  lemma ResultStays(ms: seq<Message>, u: Message, f: Message, g: string)
    requires HoldsResult(ms, g)
    ensures HoldsResult(ms + [u] + [f], g)
  {
    var m :| m in ms && InGroup(m, g) && m.kind == "tool_result" && m.content.Structured?;
    assert m in ms + [u] + [f];
  }

  lemma FailureThenMovable(ms: seq<Message>, k: nat, retain: int, g: string)
    requires Freed(ms, retain, g)
    ensures Movable(WithTurn(ms, k, "", [], Unanswered("failure_fact")), retain, g, |ms| - 1)
  {
    var all := WithTurn(ms, k, "", [], Unanswered("failure_fact"));
    QuietKeepsGroups(ms, k, "", "failure_fact");
    GroupsDecide(ms, all, retain);
    var u, f := FailedTurnMessages(ms, k);
    ResultStays(ms, u, f, g);
  }

  /** An omission has something to blank. */
  ghost predicate Blanks(conversation: seq<Message>, retain: int) {
    exists m | m in ToMessages(conversation) :: M.Omits(ToMessages(conversation), retain, m)
  }

  /** In such a conversation an omission blanks something, and something follows the protected suffix. */
  lemma MovableMeans(conversation: seq<Message>, retain: int, g: string, i: nat)
    requires StrictlyOrdered(conversation) && Movable(conversation, retain, g, i)
    ensures !SuffixLast(conversation, retain)
    ensures Blanks(conversation, retain)
  {
    assert InSuffix(conversation, retain, i + 1) && !InSuffix(conversation, retain, i + 2);
    var m :| m in conversation && InGroup(m, g) && m.kind == "tool_result" && m.content.Structured?;
    var j :| 0 <= j < |conversation| && conversation[j] == m;
    ResultBlanked(conversation, retain, g, j);
  }

  lemma ResultBlanked(conversation: seq<Message>, retain: int, g: string, j: nat)
    requires StrictlyOrdered(conversation) && g in Evictable(conversation, retain) && j < |conversation|
    requires InGroup(conversation[j], g) && conversation[j].kind == "tool_result" && conversation[j].content.Structured?
    ensures var ms := ToMessages(conversation); ms[j] in ms && M.Omits(ms, retain, ms[j])
  {
    var ms := ToMessages(conversation);
    H.HeldShape(conversation);
    OnlyShapeMatters(conversation, ms, retain);
    SuffixSeqs(conversation, ms, NonEvictable(ms, retain), j);
    assert ms[j] == Held(conversation[j]);
  }

  lemma FreedBlanks(conversation: seq<Message>, retain: int, g: string)
    requires StrictlyOrdered(conversation) && Freed(conversation, retain, g)
    ensures Blanks(conversation, retain)
  {
    var m :| m in conversation && InGroup(m, g) && m.kind == "tool_result" && m.content.Structured?;
    var j :| 0 <= j < |conversation| && conversation[j] == m;
    ResultBlanked(conversation, retain, g, j);
  }

  // ---------------------------------------------------------------- the session

  lemma StillNone(conversation: seq<Message>, k: nat, t: TurnInput, sync: seq<int>)
    requires NoneInMetadata(conversation)
    ensures NoneInMetadata(Synced(MemoryAfter(conversation, k, t), sync))
  {
    var more := MemoryParts(conversation, k, t);
    var all := MemoryAfter(conversation, k, t);
    forall i | 0 <= i < |all| ensures all[i].metadata.durableIndex.None? {
      assert i >= |conversation| ==> all[i] == more[i - |conversation|];
    }
  }

  /** A turn without an omission. */
  function Next(runId: string, artifacts: L.Artifacts, sessionId: string, s: Repl, k: nat, t: TurnInput): Repl {
    AfterOmission(runId, artifacts, sessionId, 0, s, k, t, NoOmission)
  }

  ghost predicate Plain(runId: string, artifacts: L.Artifacts, s: Repl) {
    Tracked(runId, artifacts, s) && NoneInMetadata(s.conversation)
  }

  lemma PlainTurn(runId: string, artifacts: L.Artifacts, sessionId: string, s: Repl, k: nat, t: TurnInput)
    requires Plain(runId, artifacts, s) && InputOk(t)
    ensures Plain(runId, artifacts, Next(runId, artifacts, sessionId, s, k, t))
  {
    TurnTracked(runId, artifacts, sessionId, 0, s, k, t, NoOmission);
    StillNone(s.conversation, k, t, Expansion(runId, TurnLog(runId, artifacts, sessionId, 0, s, k, t, NoOmission)));
  }

  /** What the process holds after such a turn. */
  lemma NextHolds(runId: string, artifacts: L.Artifacts, sessionId: string, s: Repl, k: nat, t: TurnInput)
      returns (sync: seq<int>)
    ensures Next(runId, artifacts, sessionId, s, k, t).conversation
            == Synced(WithTurn(s.conversation, k, t.text, LoopOf(TurnId(k), t.rounds, t.ending), t.ending), sync)
  {
    sync := Expansion(runId, TurnLog(runId, artifacts, sessionId, 0, s, k, t, NoOmission));
  }

  lemma ToolStage(runId: string, artifacts: L.Artifacts, sessionId: string, s: Repl, c: nat) returns (g: string)
    requires Plain(runId, artifacts, s) && H.Good(c, s.conversation)
    ensures var next := Next(runId, artifacts, sessionId, s, c + 1, TOOL_TURN);
            && Plain(runId, artifacts, next) && H.Good(c + 1, next.conversation)
            && g in ClosedIds(next.conversation) && HoldsResult(next.conversation, g)
  {
    var call;
    g, call := OneRoundLoop(c + 1);
    PlainTurn(runId, artifacts, sessionId, s, c + 1, TOOL_TURN);
    var sync := NextHolds(runId, artifacts, sessionId, s, c + 1, TOOL_TURN);
    var loop := LoopOf(TurnId(c + 1), ONE_ROUND, Unanswered("failure_fact"));
    ToolTurnCloses(c, s.conversation, loop, g, call);
    SyncedClosed(c + 1, WithTurn(s.conversation, c + 1, "", loop, Unanswered("failure_fact")), g, sync);
  }

  lemma AnsweredConversation(c: nat, ms: seq<Message>, retain: int, g: string, sync: seq<int>)
    requires H.Good(c, ms) && g in ClosedIds(ms) && HoldsResult(ms, g) && retain <= 1
    ensures Freed(Synced(WithTurn(ms, c + 1, "", [], Answered("done")), sync), retain, g)
  {
    AnswerThenFreed(c, ms, retain, g);
    SyncedBlankable(WithTurn(ms, c + 1, "", [], Answered("done")), retain, g, sync);
  }

  lemma AnsweredGood(c: nat, ms: seq<Message>, sync: seq<int>)
    requires H.Good(c, ms)
    ensures H.Good(c + 1, Synced(WithTurn(ms, c + 1, "", [], Answered("done")), sync))
  {
    H.TurnGood(c, ms, "", [], Answered("done"));
    H.SyncedGood(c + 1, WithTurn(ms, c + 1, "", [], Answered("done")), sync);
  }

  lemma AnswerStage(runId: string, artifacts: L.Artifacts, sessionId: string, s: Repl, c: nat, retain: int, g: string,
                    next: Repl)
    requires Plain(runId, artifacts, s) && H.Good(c, s.conversation) && retain <= 1
    requires g in ClosedIds(s.conversation) && HoldsResult(s.conversation, g)
    requires next == Next(runId, artifacts, sessionId, s, c + 1, ANSWERED)
    ensures Plain(runId, artifacts, next) && H.Good(c + 1, next.conversation) && Freed(next.conversation, retain, g)
  {
    PlainTurn(runId, artifacts, sessionId, s, c + 1, ANSWERED);
    var sync := NextHolds(runId, artifacts, sessionId, s, c + 1, ANSWERED);
    assert LoopOf(TurnId(c + 1), [], Answered("done")) == [];
    AnsweredConversation(c, s.conversation, retain, g, sync);
    AnsweredGood(c, s.conversation, sync);
  }

  lemma FailedConversation(ms: seq<Message>, k: nat, retain: int, g: string, sync: seq<int>)
    requires Freed(ms, retain, g)
    ensures Movable(Synced(WithTurn(ms, k, "", [], Unanswered("failure_fact")), sync), retain, g, |ms| - 1)
  {
    var all := WithTurn(ms, k, "", [], Unanswered("failure_fact"));
    FailureThenMovable(ms, k, retain, g);
    SyncedBlankable(all, retain, g, sync);
    assert Synced(all, sync)[|ms|].modelCallId == all[|ms|].modelCallId;
  }

  lemma FailureStage(runId: string, artifacts: L.Artifacts, sessionId: string, s: Repl, k: nat, retain: int, g: string)
    requires Freed(s.conversation, retain, g)
    ensures Movable(Next(runId, artifacts, sessionId, s, k, FAILED).conversation, retain, g, |s.conversation| - 1)
  {
    var sync := NextHolds(runId, artifacts, sessionId, s, k, FAILED);
    assert LoopOf(TurnId(k), [], Unanswered("failure_fact")) == [];
    FailedConversation(s.conversation, k, retain, g, sync);
  }

  /** A turn with a tool round, an answered turn, a turn that fails. */
  function Session(runId: string, artifacts: L.Artifacts, sessionId: string, s: Repl, c: nat): Repl {
    Next(runId, artifacts, sessionId,
         Next(runId, artifacts, sessionId, Next(runId, artifacts, sessionId, s, c + 1, TOOL_TURN), c + 2, ANSWERED),
         c + 3, FAILED)
  }

  /**
   * After such a session an omission has something to blank when at most one call is retained; and if the next turn
   * persists one but does not hand the history back, the indexes that the check compares are no longer the messages'
   * own, and neither are those that the next overwrite will read.
   */
  lemma LostOmissionSpoils(runId: string, artifacts: L.Artifacts, sessionId: string, start: Repl, c: nat, retain: int,
                           t: TurnInput)
    requires Plain(runId, artifacts, start) && H.Good(c, start.conversation) && retain <= 1 && InputOk(t)
    ensures var s := Session(runId, artifacts, sessionId, start, c);
            var next := AfterOmission(runId, artifacts, sessionId, retain, s, c + 4, t, Lost);
            && Plain(runId, artifacts, s)
            && Blanks(s.conversation, retain)
            && Spoiled(runId, next)
  {
    var g := ToolStage(runId, artifacts, sessionId, start, c);
    var s1 := Next(runId, artifacts, sessionId, start, c + 1, TOOL_TURN);
    var s2 := Next(runId, artifacts, sessionId, s1, c + 2, ANSWERED);
    AnswerStage(runId, artifacts, sessionId, s1, c + 1, retain, g, s2);
    LostAfterFailure(runId, artifacts, sessionId, s2, c + 3, c + 4, retain, g, t,
                     Session(runId, artifacts, sessionId, start, c));
  }

  /** The check passes, but neither the indexes it compares nor those the next overwrite reads are the messages' own. */
  ghost predicate Spoiled(runId: string, s: Repl) {
    && ProcessIndexes(s.conversation) == Expansion(runId, s.log)
    && !Aligned(s.conversation, L.Span(1, |s.conversation|)) && !OwnRows(s.conversation)
  }

  lemma FailureMoves(runId: string, artifacts: L.Artifacts, sessionId: string, s: Repl, k: nat, retain: int, g: string,
                     failed: Repl)
    requires Freed(s.conversation, retain, g) && StrictlyOrdered(failed.conversation)
    requires failed == Next(runId, artifacts, sessionId, s, k, FAILED)
    ensures !SuffixLast(failed.conversation, retain) && Blanks(failed.conversation, retain)
  {
    FailureStage(runId, artifacts, sessionId, s, k, retain, g);
    MovableMeans(failed.conversation, retain, g, |s.conversation| - 1);
  }

  /** The session's last turn and the one that loses the omission, from any state the first two may leave. */
  lemma LostAfterFailure(runId: string, artifacts: L.Artifacts, sessionId: string, s: Repl, k: nat, j: nat, retain: int,
                         g: string, t: TurnInput, failed: Repl)
    requires Plain(runId, artifacts, s) && Freed(s.conversation, retain, g) && InputOk(t)
    requires failed == Next(runId, artifacts, sessionId, s, k, FAILED)
    ensures Plain(runId, artifacts, failed) && Blanks(failed.conversation, retain)
    ensures Spoiled(runId, AfterOmission(runId, artifacts, sessionId, retain, failed, j, t, Lost))
  {
    PlainTurn(runId, artifacts, sessionId, s, k, FAILED);
    FailureMoves(runId, artifacts, sessionId, s, k, retain, g, failed);
    LostFromHere(runId, artifacts, sessionId, failed, j, retain, t);
  }

  lemma LostFromHere(runId: string, artifacts: L.Artifacts, sessionId: string, s: Repl, k: nat, retain: int,
                     t: TurnInput)
    requires Plain(runId, artifacts, s) && !SuffixLast(s.conversation, retain) && InputOk(t)
    ensures Spoiled(runId, AfterOmission(runId, artifacts, sessionId, retain, s, k, t, Lost))
  {
    OmissionStaysInStep(runId, artifacts, sessionId, retain, s, k, t, Lost);
    ComparedIndexesIff(runId, artifacts, sessionId, retain, s, k, t, Lost);
    LostOmissionIff(runId, artifacts, sessionId, retain, s, k, t);
  }

  lemma FreshIsPlain(runId: string, artifacts: L.Artifacts)
    ensures Plain(runId, artifacts, FRESH) && H.Good(0, FRESH.conversation)
  {
    FreshTracked(runId, artifacts);
  }

  // ---------------------------------------------------------------- a compressing turn

  lemma CompressedKeeps(c: nat, b: M.Budgeting, retain: int, json: string, ms: seq<Message>, r: seq<Message>)
    requires H.Good(c, ms) && Compresses(b, retain, json, ms, r)
    ensures forall m | m in r :: IsSummary(m) || m in ms
  {
    var plan := M.PlanCompression(b, ms, retain).value;
    PlanEvicts(b, ms, retain, plan);
    ReplacementContents(ms, plan, json, r);
  }

  lemma RefsForCompressed(conversation: seq<Message>, r: seq<Message>, n: nat, row: nat)
    requires OwnRows(conversation) && |conversation| <= n
             && forall m | m in r :: IsSummary(m) || m in ToMessages(conversation)
    ensures ProjectionRefs(r, n, Some(row)).Ok?
  {
    var ms := ToMessages(conversation);
    forall i | 0 <= i < |r| ensures RefOf(r[i], n, Some(row)).Ok? {
      assert r[i] in r;
      if !IsSummary(r[i]) {
        var j :| 0 <= j < |ms| && ms[j] == r[i];
        assert ms[j] == Held(conversation[j]);
      }
    }
    RefsMeaning(r, n, Some(row));
  }

  lemma CompressionFrom(runId: string, artifacts: L.Artifacts, sessionId: string, s: Repl, c: nat, g: string,
                        retain: int, t: TurnInput, render: Renderer, prompt: string, reserved: int, json: string)
      returns (b: M.Budgeting, r: seq<Message>)
    requires Plain(runId, artifacts, s) && H.Good(c, s.conversation) && g in Evictable(s.conversation, retain)
             && InputOk(t)
    ensures b == M.Budgeting(render, prompt, b.window, reserved)
    ensures DriftsFrom(runId, artifacts, sessionId, s, c + 1, t, b, retain, json, r)
  {
    b, r := CompressedFrom(c, s.conversation, retain, g, render, prompt, reserved, json);
    CompressedRefs(runId, artifacts, s, c, b, retain, json, r);
    CompressionDrifts(runId, artifacts, sessionId, s, c + 1, t, b, retain, json, r);
  }

  lemma CompressedRefs(runId: string, artifacts: L.Artifacts, s: Repl, c: nat, b: M.Budgeting, retain: int,
                       json: string, r: seq<Message>)
    requires Plain(runId, artifacts, s) && H.Good(c, s.conversation)
             && Compresses(b, retain, json, ToMessages(s.conversation), r)
    ensures var n := |s.log.rows| + 2; ProjectionRefs(r, n, Some(n)).Ok?
  {
    InStepSize(runId, artifacts, s);
    H.HeldGood(c, s.conversation);
    CompressedKeeps(c, b, retain, json, ToMessages(s.conversation), r);
    RefsForCompressed(s.conversation, r, |s.log.rows| + 2, |s.log.rows| + 2);
  }

  /**
   * After a tool turn and an answered one, some window lets the next turn compress when at most one call is retained;
   * and then process and log are apart for good.
   */
  lemma CompressionApart(runId: string, artifacts: L.Artifacts, sessionId: string, start: Repl, c: nat, retain: int,
                         t: TurnInput, render: Renderer, prompt: string, reserved: int, json: string)
      returns (b: M.Budgeting, r: seq<Message>)
    requires Plain(runId, artifacts, start) && H.Good(c, start.conversation) && retain <= 1 && InputOk(t)
    ensures var s := Next(runId, artifacts, sessionId, Next(runId, artifacts, sessionId, start, c + 1, TOOL_TURN),
                          c + 2, ANSWERED);
            b == M.Budgeting(render, prompt, b.window, reserved)
                && DriftsFrom(runId, artifacts, sessionId, s, c + 3, t, b, retain, json, r)
  {
    var g := ToolStage(runId, artifacts, sessionId, start, c);
    var s1 := Next(runId, artifacts, sessionId, start, c + 1, TOOL_TURN);
    var s := Next(runId, artifacts, sessionId, s1, c + 2, ANSWERED);
    AnswerStage(runId, artifacts, sessionId, s1, c + 1, retain, g, s);
    b, r := CompressionFrom(runId, artifacts, sessionId, s, c + 2, g, retain, t, render, prompt, reserved, json);
  }

  lemma CompressedFrom(c: nat, conversation: seq<Message>, retain: int, g: string, render: Renderer, prompt: string,
                       reserved: int, json: string)
      returns (b: M.Budgeting, r: seq<Message>)
    requires H.Good(c, conversation) && g in Evictable(conversation, retain)
    ensures b == M.Budgeting(render, prompt, b.window, reserved)
            && Compresses(b, retain, json, ToMessages(conversation), r)
  {
    var ms := ToMessages(conversation);
    H.HeldGood(c, conversation);
    H.HeldShape(conversation);
    OnlyShapeMatters(conversation, ms, retain);
    b := SomeWindowPlans(render, prompt, reserved, ms, retain);
    ReplacementExists(b, retain, json, ms);
    r := Replacement(ms, M.PlanCompression(b, ms, retain).value, json);
  }
}
