/**
 * Tool-call ids of one turn: numbered by the adapter per model call, scoped to the turn by the executor, and written as
 * one closed group (adapters/langchain_adapter.py, runtime/prompt_executor.py).
 */
module ToolLoopIds {
  import opened Wrappers
  import Decimal

  const MARKER := "_tool_"

  // ---------------------------------------------------------------- reading an id back

  predicate MarkerAt(s: string, j: nat) {
    j + |MARKER| <= |s| && s[j..j + |MARKER|] == MARKER
  }

  /** Where the last marker before position `n` starts. */
  function LastMarker(s: string, n: nat): (at: Option<nat>)
    ensures at.Some? ==> at.value < n && MarkerAt(s, at.value)
  {
    if n == 0 then None else if MarkerAt(s, n - 1) then Some(n - 1) else LastMarker(s, n - 1)
  }

  /** What stands before the last marker; nothing when there is no marker or nothing before it. */
  function ModelCallOf(id: string): Option<string> {
    var at := LastMarker(id, |id|);
    if at.None? || at.value == 0 then None else Some(id[..at.value])
  }

  lemma {:induction false} LastMarkerIs(s: string, n: nat, at: nat)
    requires at < n && MarkerAt(s, at) && forall j | at < j < n :: !MarkerAt(s, j)
    ensures LastMarker(s, n) == Some(at)
  {
    if n - 1 > at {
      LastMarkerIs(s, n - 1, at);
    }
  }

  /** Splitting at the last marker undoes joining with one, when the tail has no underscore. */
  lemma ModelCallOfJoined(model: string, tail: string)
    requires |model| > 0 && '_' !in tail
    ensures ModelCallOf(model + MARKER + tail) == Some(model)
  {
    var s := model + MARKER + tail;
    assert s[|model|..|model| + |MARKER|] == MARKER;
    forall j | |model| < j < |s| ensures !MarkerAt(s, j) {
      NoLaterMarker(model, tail, j);
    }
    LastMarkerIs(s, |s|, |model|);
    assert s[..|model|] == model;
  }

  lemma NoLaterMarker(model: string, tail: string, j: nat)
    requires '_' !in tail && |model| < j
    ensures !MarkerAt(model + MARKER + tail, j)
  {
    var s := model + MARKER + tail;
    if j + |MARKER| <= |s| {
      var found := s[j..j + |MARKER|];
      assert found[0] == s[j] && found[1] == s[j + 1];
      assert j >= |model| + |MARKER| ==> s[j] == tail[j - |model| - |MARKER|];
      assert j == |model| + 5 ==> s[j + 1] == tail[0];
      assert j < |model| + |MARKER| ==> s[j] == MARKER[j - |model|];
      assert MARKER[0] == '_' && MARKER[1] == 't';
      assert forall i | 1 <= i < 5 :: MARKER[i] != '_';
    }
  }

  // ---------------------------------------------------------------- ids the adapter hands out

  function ModelCallId(call: nat): string {
    "model_call_" + Decimal.Print(call)
  }

  /** The id of the tool call at `position` (from 1) of the answer to model call `call` (from 1). */
  function RawToolId(call: nat, position: nat): string {
    ModelCallId(call) + MARKER + Decimal.Print(position)
  }

  /** Reading a tool-call id back gives the model call it was numbered under. */
  lemma RawToolIdReadsBack(call: nat, position: nat)
    ensures ModelCallOf(RawToolId(call, position)) == Some(ModelCallId(call))
  {
    Decimal.PrintHasNo(position, '_');
    ModelCallOfJoined(ModelCallId(call), Decimal.Print(position));
  }

  /** Different calls of an adapter run have different ids. */
  lemma RawToolIdInjective(a: nat, i: nat, b: nat, j: nat)
    requires RawToolId(a, i) == RawToolId(b, j)
    ensures a == b && i == j
  {
    Decimal.PrintHasNo(a, '_');
    Decimal.PrintHasNo(b, '_');
    Decimal.Separated("model_call_", MARKER, Decimal.Print(a), Decimal.Print(i), Decimal.Print(b), Decimal.Print(j));
    Decimal.PrintInjective(a, b);
    Decimal.PrintInjective(i, j);
  }

  // ---------------------------------------------------------------- scoping to the turn

  type ScopedIds = (string, string)

  function InTurn(turn: string, id: string): string {
    turn + ":" + id
  }

  /** The model call id and tool call id a raw id gets in a turn; an id without a marker is numbered by its ordinal. */
  function Scoped(turn: string, raw: string, ordinal: nat): ScopedIds {
    var model := ModelCallOf(raw);
    if model.None? then (InTurn(turn, ModelCallId(ordinal)), InTurn(turn, ModelCallId(ordinal) + "_tool_1"))
    else (InTurn(turn, model.value), InTurn(turn, raw))
  }

  datatype LoopMessage = Assistant(content: string, callIds: seq<string>)
    | ToolResult(content: string, callId: Option<string>) | Other(role: string, content: string)

  datatype Converted = Converted(role: string, kind: string, modelCallId: Option<string>, toolCallId: Option<string>,
                                 content: string)

  /** Ids given out so far, the next ordinal, and the messages made. */
  datatype Conversion = Conversion(ids: map<string, ScopedIds>, ordinal: nat, out: seq<Converted>)

  const EMPTY := Conversion(map[], 1, [])

  function Lookup(turn: string, c: Conversion, raw: string): ScopedIds {
    if raw in c.ids then c.ids[raw] else Scoped(turn, raw, c.ordinal)
  }

  function Emit(turn: string, c: Conversion, raw: string, role: string, kind: string, content: string): Conversion {
    var ids := Lookup(turn, c, raw);
    Conversion(c.ids[raw := ids], c.ordinal + 1, c.out + [Converted(role, kind, Some(ids.0), Some(ids.1), content)])
  }

  function EmitCalls(turn: string, c: Conversion, callIds: seq<string>, content: string): Conversion {
    if |callIds| == 0 then c
    else Emit(turn, EmitCalls(turn, c, callIds[..|callIds| - 1], content), callIds[|callIds| - 1], "assistant",
              "tool_call", content)
  }

  function ConvertOne(turn: string, c: Conversion, m: LoopMessage): Conversion {
    match m
    case Assistant(content, callIds) =>
      if |callIds| > 0 then EmitCalls(turn, c, callIds, content)
      else c.(out := c.out + [Converted("assistant", "tool_call", None, None, content)])
    case ToolResult(content, callId) =>
      if callId.Some? then Emit(turn, c, callId.value, "tool", "tool_result", content)
      else c.(out := c.out + [Converted("tool", "tool_result", None, None, content)])
    case Other(role, content) => c.(out := c.out + [Converted(role, "tool_loop_message", None, None, content)])
  }

  function Convert(turn: string, messages: seq<LoopMessage>): Conversion {
    if |messages| == 0 then EMPTY
    else ConvertOne(turn, Convert(turn, messages[..|messages| - 1]), messages[|messages| - 1])
  }

  method ConvertMessages(turn: string, messages: seq<LoopMessage>) returns (converted: seq<Converted>)
    ensures converted == Convert(turn, messages).out
  {
    converted := [];
    var ids: map<string, ScopedIds> := map[];
    var ordinal := 1;
    for i := 0 to |messages|
      invariant Conversion(ids, ordinal, converted) == Convert(turn, messages[..i])
    {
      assert messages[..i + 1][..i] == messages[..i];
      match messages[i]
      case Assistant(content, callIds) =>
        if |callIds| > 0 {
          ghost var before := Conversion(ids, ordinal, converted);
          for j := 0 to |callIds|
            invariant Conversion(ids, ordinal, converted) == EmitCalls(turn, before, callIds[..j], content)
          {
            assert callIds[..j + 1][..j] == callIds[..j];
            var scoped := if callIds[j] in ids then ids[callIds[j]] else Scoped(turn, callIds[j], ordinal);
            ids := ids[callIds[j] := scoped];
            ordinal := ordinal + 1;
            converted := converted + [Converted("assistant", "tool_call", Some(scoped.0), Some(scoped.1), content)];
          }
          assert callIds[..|callIds|] == callIds;
        } else {
          converted := converted + [Converted("assistant", "tool_call", None, None, content)];
        }
      case ToolResult(content, callId) =>
        if callId.Some? {
          var scoped := if callId.value in ids then ids[callId.value] else Scoped(turn, callId.value, ordinal);
          ids := ids[callId.value := scoped];
          ordinal := ordinal + 1;
          converted := converted + [Converted("tool", "tool_result", Some(scoped.0), Some(scoped.1), content)];
        } else {
          converted := converted + [Converted("tool", "tool_result", None, None, content)];
        }
      case Other(role, content) =>
        converted := converted + [Converted(role, "tool_loop_message", None, None, content)];
    }
    assert messages[..|messages|] == messages;
  }

  // ---------------------------------------------------------------- rounds of a tool loop

  /** One invoked call of a round: its position in the model's answer and its result's content. */
  datatype Invoked = Invoked(position: nat, result: string)

  /** One round: the number of its model call, the answer's text, and the calls invoked. */
  datatype Round = Round(call: nat, text: string, invoked: seq<Invoked>)

  function CallIdsOf(r: Round): seq<string> {
    seq(|r.invoked|, i requires 0 <= i < |r.invoked| => RawToolId(r.call, r.invoked[i].position))
  }

  function RoundMessages(r: Round): seq<LoopMessage> {
    [Assistant(r.text, CallIdsOf(r))]
    + seq(|r.invoked|, i requires 0 <= i < |r.invoked| =>
        ToolResult(r.invoked[i].result, Some(RawToolId(r.call, r.invoked[i].position))))
  }

  function CallRow(turn: string, r: Round, i: nat): Converted
    requires i < |r.invoked|
  {
    Converted("assistant", "tool_call", Some(InTurn(turn, ModelCallId(r.call))),
              Some(InTurn(turn, RawToolId(r.call, r.invoked[i].position))), r.text)
  }

  function ResultRow(turn: string, r: Round, i: nat): Converted
    requires i < |r.invoked|
  {
    Converted("tool", "tool_result", Some(InTurn(turn, ModelCallId(r.call))),
              Some(InTurn(turn, RawToolId(r.call, r.invoked[i].position))), r.invoked[i].result)
  }

  /** One row per call, then one per result, both under the call's own ids. */
  function RoundRows(turn: string, r: Round): seq<Converted> {
    CallRows(turn, r) + ResultRows(turn, r)
  }

  function CallRows(turn: string, r: Round): seq<Converted> {
    seq(|r.invoked|, i requires 0 <= i < |r.invoked| => CallRow(turn, r, i))
  }

  function ResultRows(turn: string, r: Round): seq<Converted> {
    seq(|r.invoked|, i requires 0 <= i < |r.invoked| => ResultRow(turn, r, i))
  }

  /** Ids recorded so far for marked raw ids are their own scoped forms. */
  ghost predicate Faithful(turn: string, c: Conversion) {
    forall raw | raw in c.ids && ModelCallOf(raw).Some? ::
        c.ids[raw] == (InTurn(turn, ModelCallOf(raw).value), InTurn(turn, raw))
  }

  function MarkedRow(turn: string, raw: string, role: string, kind: string, content: string): Converted
    requires ModelCallOf(raw).Some?
  {
    Converted(role, kind, Some(InTurn(turn, ModelCallOf(raw).value)), Some(InTurn(turn, raw)), content)
  }

  lemma EmitMarked(turn: string, c: Conversion, raw: string, role: string, kind: string, content: string)
    requires Faithful(turn, c) && ModelCallOf(raw).Some?
    ensures var d := Emit(turn, c, raw, role, kind, content);
            Faithful(turn, d) && d.out == c.out + [MarkedRow(turn, raw, role, kind, content)]
  {
  }

  ghost predicate AllMarked(ids: seq<string>) {
    forall i | 0 <= i < |ids| :: ModelCallOf(ids[i]).Some?
  }

  function MarkedCalls(turn: string, ids: seq<string>, content: string): seq<Converted>
    requires AllMarked(ids)
  {
    seq(|ids|, i requires 0 <= i < |ids| => MarkedRow(turn, ids[i], "assistant", "tool_call", content))
  }

  lemma {:induction false} EmitMarkedCalls(turn: string, c: Conversion, ids: seq<string>, content: string)
    requires Faithful(turn, c) && AllMarked(ids)
    ensures var d := EmitCalls(turn, c, ids, content);
            Faithful(turn, d) && d.out == c.out + MarkedCalls(turn, ids, content)
  {
    if |ids| > 0 {
      var n := |ids| - 1;
      EmitMarkedCalls(turn, c, ids[..n], content);
      EmitMarked(turn, EmitCalls(turn, c, ids[..n], content), ids[n], "assistant", "tool_call", content);
      assert MarkedCalls(turn, ids, content)
          == MarkedCalls(turn, ids[..n], content) + [MarkedRow(turn, ids[n], "assistant", "tool_call", content)];
    }
  }

  function MarkedResults(turn: string, ids: seq<string>, contents: seq<string>): seq<Converted>
    requires AllMarked(ids) && |contents| == |ids|
  {
    seq(|ids|, i requires 0 <= i < |ids| => MarkedRow(turn, ids[i], "tool", "tool_result", contents[i]))
  }

  function ResultMessages(ids: seq<string>, contents: seq<string>): seq<LoopMessage>
    requires |contents| == |ids|
  {
    seq(|ids|, i requires 0 <= i < |ids| => ToolResult(contents[i], Some(ids[i])))
  }

  lemma ResultConverts(turn: string, before: seq<LoopMessage>, raw: string, content: string)
    requires Faithful(turn, Convert(turn, before)) && ModelCallOf(raw).Some?
    ensures var c := Convert(turn, before + [ToolResult(content, Some(raw))]);
            Faithful(turn, c)
                && c.out == Convert(turn, before).out + [MarkedRow(turn, raw, "tool", "tool_result", content)]
  {
    var messages := before + [ToolResult(content, Some(raw))];
    assert messages[..|before|] == before;
    EmitMarked(turn, Convert(turn, before), raw, "tool", "tool_result", content);
  }

  lemma CallsConvert(turn: string, calls: seq<string>, text: string)
    requires |calls| > 0 && AllMarked(calls)
    ensures var c := Convert(turn, [Assistant(text, calls)]);
            Faithful(turn, c) && c.out == MarkedCalls(turn, calls, text)
  {
    assert [Assistant(text, calls)][..0] == [];
    EmitMarkedCalls(turn, EMPTY, calls, text);
    assert [] + MarkedCalls(turn, calls, text) == MarkedCalls(turn, calls, text);
  }

  lemma {:induction false} ConvertMarked(turn: string, calls: seq<string>, text: string, ids: seq<string>,
                                         contents: seq<string>)
    requires |calls| > 0 && AllMarked(calls) && AllMarked(ids) && |contents| == |ids|
    ensures Faithful(turn, Convert(turn, [Assistant(text, calls)] + ResultMessages(ids, contents)))
    ensures Convert(turn, [Assistant(text, calls)] + ResultMessages(ids, contents)).out
            == MarkedCalls(turn, calls, text) + MarkedResults(turn, ids, contents)
  {
    var first := [Assistant(text, calls)];
    if |ids| == 0 {
      assert first + ResultMessages(ids, contents) == first;
      CallsConvert(turn, calls, text);
    } else {
      var n := |ids| - 1;
      ConvertMarked(turn, calls, text, ids[..n], contents[..n]);
      ResultConverts(turn, first + ResultMessages(ids[..n], contents[..n]), ids[n], contents[n]);
      MessagesSnoc(first, ids, contents);
      ResultsSnoc(turn, MarkedCalls(turn, calls, text), ids, contents);
    }
  }

  lemma MessagesSnoc(first: seq<LoopMessage>, ids: seq<string>, contents: seq<string>)
    requires |contents| == |ids| > 0
    ensures var n := |ids| - 1;
            first + ResultMessages(ids, contents)
            == first + ResultMessages(ids[..n], contents[..n]) + [ToolResult(contents[n], Some(ids[n]))]
  {
  }

  lemma ResultsSnoc(turn: string, calls: seq<Converted>, ids: seq<string>, contents: seq<string>)
    requires AllMarked(ids) && |contents| == |ids| > 0
    ensures var n := |ids| - 1;
            calls + MarkedResults(turn, ids, contents)
            == calls + MarkedResults(turn, ids[..n], contents[..n])
            + [MarkedRow(turn, ids[n], "tool", "tool_result", contents[n])]
  {
  }

  /** A round converts to its calls and results under the turn's own ids, whatever their number or order. */
  lemma RoundConverts(turn: string, r: Round)
    requires |r.invoked| > 0
    ensures Convert(turn, RoundMessages(r)).out == RoundRows(turn, r)
  {
    var ids := CallIdsOf(r);
    var contents := seq(|r.invoked|, i requires 0 <= i < |r.invoked| => r.invoked[i].result);
    forall i | 0 <= i < |ids| ensures ModelCallOf(ids[i]) == Some(ModelCallId(r.call)) {
      RawToolIdReadsBack(r.call, r.invoked[i].position);
    }
    ConvertMarked(turn, ids, r.text, ids, contents);
    assert RoundMessages(r) == [Assistant(r.text, ids)] + ResultMessages(ids, contents);
    RowsAreMarked(turn, r, ids, contents);
  }

  lemma RowsAreMarked(turn: string, r: Round, ids: seq<string>, contents: seq<string>)
    requires |ids| == |contents| == |r.invoked|
    requires forall i | 0 <= i < |ids| ::
               ids[i] == RawToolId(r.call, r.invoked[i].position) && contents[i] == r.invoked[i].result
               && ModelCallOf(ids[i]) == Some(ModelCallId(r.call))
    ensures MarkedCalls(turn, ids, r.text) + MarkedResults(turn, ids, contents) == RoundRows(turn, r)
  {
    var calls, results := MarkedCalls(turn, ids, r.text), MarkedResults(turn, ids, contents);
    forall i | 0 <= i < |ids| ensures calls[i] == CallRow(turn, r, i) && results[i] == ResultRow(turn, r, i) {
    }
  }
}
