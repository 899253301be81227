/** Message by message, the process conversation says what its durable row says, and resuming gives those rows back. */
module ReplMirror {
  import opened Seqs
  import opened ModelContext
  import opened ConversationLog
  import opened ConversationLaws
  import opened ReplConversation
  import opened ReplAlignment
  import opened SessionRecovery
  import T = ToolLoopIds
  import G = TurnGroups

  /** The kind a durable row gives a process message; a recorded cancellation stays a failure in the process. */
  predicate KindMirrors(process: string, durable: string) {
    match process
    case "current_user_input" => durable == "user_input"
    case "tool_call" => durable == "assistant_tool_call"
    case "failure_fact" => durable in FACTS
    case _ => durable == process
  }

  /**
   * Same speaker, turn and tool call; the model call too, except that an answer's group has another name on each side.
   */
  predicate Mirrors(m: Message, a: Append) {
    && m.role == a.role && m.turnId == a.turnId && m.toolCallId == a.toolCallId
    && KindMirrors(m.kind, a.kind)
    && (m.kind != "assistant_output" ==> m.modelCallId == a.modelCallId)
  }

  function ItemOf(r: Row): Append {
    r.item
  }

  function AllMessages(groups: seq<Group>): seq<Append> {
    if |groups| == 0 then [] else AllMessages(groups[..|groups| - 1]) + groups[|groups| - 1].messages
  }

  lemma MadeItems(sessionId: string, artifacts: Artifacts, messages: seq<Append>, start: int)
    ensures Map(ItemOf, MakeRows(sessionId, artifacts, messages, start)) == messages
  {
    var rows := MakeRows(sessionId, artifacts, messages, start);
    forall i | 0 <= i < |messages| ensures Map(ItemOf, rows)[i] == messages[i] {
      assert ItemOf(rows[i]) == messages[i];
    }
  }

  lemma ItemsConcat(a: seq<Row>, b: seq<Row>)
    ensures Map(ItemOf, a + b) == Map(ItemOf, a) + Map(ItemOf, b)
  {
  }

  lemma {:induction false} ItemsAfter(artifacts: Artifacts, rows: seq<Row>, groups: seq<Group>)
    ensures Map(ItemOf, RowsAfter(artifacts, rows, groups)) == Map(ItemOf, rows) + AllMessages(groups)
    ensures rows <= RowsAfter(artifacts, rows, groups)
  {
    if |groups| > 0 {
      var front, g := RowsAfter(artifacts, rows, groups[..|groups| - 1]), groups[|groups| - 1];
      ItemsAfter(artifacts, rows, groups[..|groups| - 1]);
      ItemsConcat(front, MakeRows(g.sessionId, artifacts, g.messages, |front|));
      MadeItems(g.sessionId, artifacts, g.messages, |front|);
    }
  }

  function TurnItems(turn: string, text: string, loop: seq<T.Converted>, ending: Ending): seq<Append> {
    [UserAppend(turn, text)] + G.ToAppends(turn, loop) + [EndAppend(turn, ending)]
  }

  lemma TurnMessagesAre(sessionId: string, turn: string, text: string, rounds: seq<T.Round>, ending: Ending)
    ensures var loop := LoopOf(turn, rounds, ending);
            AllMessages(TurnGroupsOf(sessionId, turn, text, loop, ending)) == TurnItems(turn, text, loop, ending)
  {
    var loop := LoopOf(turn, rounds, ending);
    G.LoopRowsDurable(turn, rounds);
    assert Filter(G.IsDurable, []) == [];
    assert G.LoopAppends(turn, loop) == G.ToAppends(turn, loop);
    MessagesAround(Group(sessionId, [UserAppend(turn, text)]), LoopGroups(sessionId, turn, loop),
                   Group(sessionId, [EndAppend(turn, ending)]), G.ToAppends(turn, loop));
  }

  lemma MessagesAround(first: Group, middle: seq<Group>, last: Group, inner: seq<Append>)
    requires |middle| <= 1 && (if |middle| == 1 then middle[0].messages == inner else inner == [])
    ensures AllMessages([first] + middle + [last]) == first.messages + inner + last.messages
  {
    assert ([first] + middle + [last])[..|middle| + 1] == [first] + middle;
    assert [first][..0] == [];
    if |middle| == 1 {
      assert ([first] + middle)[..1] == [first];
    } else {
      assert [first] + middle == [first];
    }
    assert AllMessages([first]) == first.messages;
    assert first.messages + [] == first.messages;
  }

  // ---------------------------------------------------------------- what a turn writes on both sides

  lemma LoopRowsWellKinded(turn: string, rounds: seq<T.Round>, ending: Ending)
    ensures forall i | 0 <= i < |LoopOf(turn, rounds, ending)| :: G.IsDurable(LoopOf(turn, rounds, ending)[i])
  {
    G.LoopRowsDurable(turn, rounds);
  }

  lemma LoopMirrors(seqNo: int, k: nat, c: T.Converted, position: nat, count: nat)
    requires G.IsDurable(c)
    ensures Mirrors(ToolLoopMessage(seqNo, k, c), G.ToAppend(TurnId(k), c, position, count))
  {
  }

  lemma EndsMirror(seqNo: int, k: nat, text: string, ending: Ending, consumed: seq<string>)
    requires EndingOk(ending)
    ensures Mirrors(UserMessage(seqNo, k, text), UserAppend(TurnId(k), text))
    ensures Mirrors(EndMessage(seqNo, k, ending, consumed), EndAppend(TurnId(k), ending))
  {
  }

  ghost predicate AllMirror(ms: seq<Message>, items: seq<Append>) {
    |ms| == |items| && forall i | 0 <= i < |ms| :: Mirrors(ms[i], items[i])
  }

  lemma MirrorConcat(a: seq<Message>, x: seq<Append>, b: seq<Message>, y: seq<Append>)
    requires AllMirror(a, x) && AllMirror(b, y)
    ensures AllMirror(a + b, x + y)
  {
  }

  lemma LoopsMirror(n: int, k: nat, loop: seq<T.Converted>)
    requires forall i | 0 <= i < |loop| :: G.IsDurable(loop[i])
    ensures AllMirror(ToolLoopMessages(n, k, loop), G.ToAppends(TurnId(k), loop))
  {
    forall i | 0 <= i < |loop|
      ensures Mirrors(ToolLoopMessage(n + i, k, loop[i]), G.ToAppend(TurnId(k), loop[i], i, |loop|))
    {
      LoopMirrors(n + i, k, loop[i], i, |loop|);
    }
  }

  lemma OpeningMirrors(conversation: seq<Message>, k: nat, text: string, loop: seq<T.Converted>)
    requires forall i | 0 <= i < |loop| :: G.IsDurable(loop[i])
    ensures AllMirror(Opening(conversation, k, text, loop),
                      [UserAppend(TurnId(k), text)] + G.ToAppends(TurnId(k), loop))
  {
    var n := NextSeq(conversation);
    LoopsMirror(n + 1, k, loop);
    EndsMirror(n, k, text, Interrupted, []);
    MirrorConcat([UserMessage(n, k, text)], [UserAppend(TurnId(k), text)],
                 ToolLoopMessages(n + 1, k, loop), G.ToAppends(TurnId(k), loop));
  }

  lemma TurnMirrors(conversation: seq<Message>, k: nat, text: string, rounds: seq<T.Round>, ending: Ending)
    requires EndingOk(ending)
    ensures var loop := LoopOf(TurnId(k), rounds, ending);
            AllMirror(TurnMessages(conversation, k, text, loop, ending), TurnItems(TurnId(k), text, loop, ending))
  {
    var turn, n := TurnId(k), NextSeq(conversation);
    var loop := LoopOf(turn, rounds, ending);
    var consumed := ConsumedIds(conversation + Opening(conversation, k, text, loop));
    LoopRowsWellKinded(turn, rounds, ending);
    EndsMirror(n + 1 + |loop|, k, text, ending, consumed);
    OpeningMirrors(conversation, k, text, loop);
    MirrorConcat(Opening(conversation, k, text, loop), [UserAppend(turn, text)] + G.ToAppends(turn, loop),
                 [EndMessage(n + 1 + |loop|, k, ending, consumed)], [EndAppend(turn, ending)]);
  }

  // ---------------------------------------------------------------- whole conversations

  /** Every message mirrors the row its place in the projection names. */
  ghost predicate Mirrored(conversation: seq<Message>, rows: seq<Row>, indexes: seq<int>) {
    && |conversation| == |indexes| && Within(|rows|, indexes)
    && forall i | 0 <= i < |conversation| :: Mirrors(conversation[i], rows[indexes[i] - 1].item)
  }

  lemma MirroredOn(conversation: seq<Message>, rows: seq<Row>, indexes: seq<int>, more: seq<Message>,
                   items: seq<Append>, after: seq<Row>)
    requires Mirrored(conversation, rows, indexes) && AllMirror(more, items)
    requires rows <= after && |after| == |rows| + |items|
    requires forall i | 0 <= i < |items| :: after[|rows| + i].item == items[i]
    ensures Mirrored(conversation + more, after, indexes + Span(|rows| + 1, |after|))
  {
    var all, now := conversation + more, indexes + Span(|rows| + 1, |after|);
    forall i | 0 <= i < |all| ensures 1 <= now[i] <= |after| && Mirrors(all[i], after[now[i] - 1].item) {
      if i < |conversation| {
        assert now[i] == indexes[i] && after[now[i] - 1] == rows[indexes[i] - 1];
        assert Mirrors(conversation[i], rows[indexes[i] - 1].item);
      } else {
        var j := i - |conversation|;
        assert now[i] == |rows| + 1 + j;
        assert Mirrors(more[j], items[j]);
      }
    }
  }

  lemma SyncedMirrors(conversation: seq<Message>, rows: seq<Row>, indexes: seq<int>, sync: seq<int>)
    requires Mirrored(conversation, rows, indexes)
    ensures Mirrored(Synced(conversation, sync), rows, indexes)
  {
    var synced := Synced(conversation, sync);
    forall i | 0 <= i < |synced| ensures Mirrors(synced[i], rows[indexes[i] - 1].item) {
      assert Mirrors(conversation[i], rows[indexes[i] - 1].item);
    }
  }

  lemma TurnKeepsMirror(runId: string, artifacts: Artifacts, sessionId: string, s: Repl, k: nat, t: TurnInput)
    requires InStep(runId, artifacts, s) && InputOk(t) && Mirrored(s.conversation, s.log.rows, Expansion(runId, s.log))
    ensures var next := AfterTurn(runId, artifacts, sessionId, s, k, t);
            Mirrored(next.conversation, next.log.rows, Expansion(runId, next.log))
  {
    TurnKeepsStep(runId, artifacts, sessionId, s, k, t);
    var log := LogAfter(runId, artifacts, sessionId, s.log, k, t);
    LogItems(runId, artifacts, sessionId, s.log, k, t);
    MemoryMirrors(s.conversation, s.log.rows, Expansion(runId, s.log), log.rows, k, t);
    SyncedMirrors(MemoryAfter(s.conversation, k, t), log.rows, Expansion(runId, log), Expansion(runId, log));
  }

  function ItemsOfTurn(k: nat, t: TurnInput): seq<Append> {
    TurnItems(TurnId(k), t.text, LoopOf(TurnId(k), t.rounds, t.ending), t.ending)
  }

  lemma LogItems(runId: string, artifacts: Artifacts, sessionId: string, log: Log, k: nat, t: TurnInput)
    ensures var after := LogAfter(runId, artifacts, sessionId, log, k, t);
            log.rows <= after.rows && Map(ItemOf, after.rows) == Map(ItemOf, log.rows) + ItemsOfTurn(k, t)
  {
    var groups := TurnGroupsOf(sessionId, TurnId(k), t.text, LoopOf(TurnId(k), t.rounds, t.ending), t.ending);
    AppendAllRows(runId, artifacts, log, groups);
    ItemsAfter(artifacts, log.rows, groups);
    TurnMessagesAre(sessionId, TurnId(k), t.text, t.rounds, t.ending);
  }

  lemma MemoryMirrors(conversation: seq<Message>, rows: seq<Row>, indexes: seq<int>, after: seq<Row>, k: nat,
                      t: TurnInput)
    requires Mirrored(conversation, rows, indexes) && EndingOk(t.ending)
    requires rows <= after && Map(ItemOf, after) == Map(ItemOf, rows) + ItemsOfTurn(k, t)
    ensures Mirrored(MemoryAfter(conversation, k, t), after, indexes + Span(|rows| + 1, |after|))
  {
    var loop := LoopOf(TurnId(k), t.rounds, t.ending);
    TurnMirrors(conversation, k, t.text, t.rounds, t.ending);
    TurnMessagesNumbered(conversation, k, t.text, loop, t.ending);
    NewItems(rows, after, ItemsOfTurn(k, t));
    MirroredOn(conversation, rows, indexes, TurnMessages(conversation, k, t.text, loop, t.ending), ItemsOfTurn(k, t),
               after);
  }

  lemma NewItems(rows: seq<Row>, after: seq<Row>, items: seq<Append>)
    requires Map(ItemOf, after) == Map(ItemOf, rows) + items
    ensures |after| == |rows| + |items| && forall i | 0 <= i < |items| :: after[|rows| + i].item == items[i]
  {
    assert |Map(ItemOf, after)| == |after| && |Map(ItemOf, rows)| == |rows|;
    forall i | 0 <= i < |items| ensures after[|rows| + i].item == items[i] {
      assert Map(ItemOf, after)[|rows| + i] == ItemOf(after[|rows| + i]);
    }
  }

  /** Over any number of ordinary turns every process message mirrors its own row. */
  lemma {:induction false} SessionMirrors(runId: string, artifacts: Artifacts, sessionId: string, k: nat,
                                          turns: seq<TurnInput>)
    requires InputsOk(turns)
    ensures var end := AfterTurns(runId, artifacts, sessionId, FRESH, k, turns);
            Mirrored(end.conversation, end.log.rows, Expansion(runId, end.log))
  {
    FreshIsSound(runId, artifacts);
    if |turns| > 0 {
      var n := |turns| - 1;
      SessionMirrors(runId, artifacts, sessionId, k, turns[..n]);
      SessionStaysSound(runId, artifacts, sessionId, FRESH, k, turns[..n]);
      assert InputOk(turns[n]);
      TurnKeepsMirror(runId, artifacts, sessionId, AfterTurns(runId, artifacts, sessionId, FRESH, k, turns[..n]),
                      k + n, turns[n]);
    }
  }
}
