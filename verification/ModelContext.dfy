/** Process-local conversation messages and the deterministic token estimator (runtime/model_context.py). */
module ModelContext {
  import opened Wrappers

  datatype Content = Text(text: string) | Structured(rendered: string)

  /** The metadata keys the runtime reads; `terminal` is true unless the stored value is exactly False. */
  datatype Metadata = Metadata(
    streaming: bool,
    pendingToolCall: bool,
    terminal: bool,
    consumed: seq<string>,
    durableIndex: Option<int>)

  const PLAIN := Metadata(false, false, true, [], None)

  /**
   * A conversation message. The REPL keeps messages as dictionaries, which may carry a durable index beside the one in
   * the metadata; a message of the runtime's own class has none there.
   */
  datatype Message = Message(
    seqNo: int,
    role: string,
    kind: string,
    turnId: Option<string>,
    modelCallId: Option<string>,
    toolCallId: Option<string>,
    content: Content,
    artifactRefs: seq<string>,
    estimatedTokens: Option<int>,
    metadata: Metadata,
    durableIndex: Option<int>)

  datatype CompressionFrame = CompressionFrame(previousSummary: Option<string>, evicted: seq<Message>,
                                               instruction: Message)

  const FRAME_STRUCTURAL_TOKENS := 2
  const MESSAGE_STRUCTURAL_TOKENS := 4

  /** JSON rendering of metadata and of artifact references, a parameter of the model. */
  datatype Renderer = Renderer(metadata: Metadata -> string, refs: seq<string> -> string)

  function ContentText(c: Content): string {
    if c.Text? then c.text else c.rendered
  }

  /** The text of a message that is counted. */
  function VisibleText(render: Renderer, m: Message): string {
    m.role + "\n" + m.kind + "\n" + ContentText(m.content) + "\n" + render.metadata(m.metadata) + "\n"
        + render.refs(m.artifactRefs)
  }

  predicate BySeq(a: Message, b: Message) {
    a.seqNo <= b.seqNo
  }

  ghost predicate DistinctSeqs(ms: seq<Message>) {
    forall i, j | 0 <= i < j < |ms| :: ms[i].seqNo != ms[j].seqNo
  }

  ghost predicate StrictlyOrdered(ms: seq<Message>) {
    forall i, j | 0 <= i < j < |ms| :: ms[i].seqNo < ms[j].seqNo
  }

  function StoredTokens(m: Message): int {
    if m.estimatedTokens.Some? then m.estimatedTokens.value else 0
  }

  function SumStored(ms: seq<Message>): int {
    if |ms| == 0 then 0 else SumStored(ms[..|ms| - 1]) + StoredTokens(ms[|ms| - 1])
  }

  function TextTokens(text: string): nat {
    if text == "" then 0 else if (|text| + 3) / 4 < 1 then 1 else (|text| + 3) / 4
  }

  function EstimateMessage(render: Renderer, m: Message): (n: nat)
    ensures n >= MESSAGE_STRUCTURAL_TOKENS
  {
    MESSAGE_STRUCTURAL_TOKENS + TextTokens(VisibleText(render, m))
  }

  function EstimateMessages(render: Renderer, ms: seq<Message>): nat {
    if |ms| == 0 then 0
    else EstimateMessages(render, ms[..|ms| - 1]) + EstimateMessage(render, ms[|ms| - 1])
  }

  function SummarySegment(text: string): Message {
    Message(0, "system", "previous_context_summary", None, None, None, Text(text), [], None, PLAIN, None)
  }

  function EstimateCompressionFrame(render: Renderer, frame: CompressionFrame): int {
    FRAME_STRUCTURAL_TOKENS
    + (if frame.previousSummary.Some? then EstimateMessage(render, SummarySegment(frame.previousSummary.value)) else 0)
    + EstimateMessages(render, frame.evicted + [frame.instruction])
  }

  /** When every message's stored estimate covers the estimator's own figure, so does their sum. */
  lemma {:induction false} StoredCoversEstimate(render: Renderer, ms: seq<Message>)
    requires forall m | m in ms :: EstimateMessage(render, m) <= StoredTokens(m)
    ensures EstimateMessages(render, ms) <= SumStored(ms)
  {
    if |ms| > 0 {
      var front := ms[..|ms| - 1];
      forall m | m in front ensures EstimateMessage(render, m) <= StoredTokens(m) {
        assert m in ms;
      }
      StoredCoversEstimate(render, front);
    }
  }

  lemma {:induction false} EstimateAppend(render: Renderer, a: seq<Message>, b: seq<Message>)
    ensures EstimateMessages(render, a + b) == EstimateMessages(render, a) + EstimateMessages(render, b)
    ensures SumStored(a + b) == SumStored(a) + SumStored(b)
  {
    if |b| == 0 {
      assert a + b == a;
    } else {
      assert (a + b)[..|a + b| - 1] == a + b[..|b| - 1];
      EstimateAppend(render, a, b[..|b| - 1]);
    }
  }

  /** Sums do not depend on order. */
  lemma {:induction false} SumsPermute(render: Renderer, a: seq<Message>, b: seq<Message>)
    requires multiset(a) == multiset(b)
    ensures EstimateMessages(render, a) == EstimateMessages(render, b)
    ensures SumStored(a) == SumStored(b)
  {
    if |a| == 0 {
      assert |multiset(b)| == 0;
    } else {
      var x := a[|a| - 1];
      assert a == a[..|a| - 1] + [x];
      assert x in multiset(b);
      var i :| 0 <= i < |b| && b[i] == x;
      assert b == b[..i] + [x] + b[i + 1..];
      assert multiset(b[..i] + b[i + 1..]) == multiset(b) - multiset{x};
      assert multiset(a[..|a| - 1]) == multiset(a) - multiset{x};
      SumsPermute(render, a[..|a| - 1], b[..i] + b[i + 1..]);
      EstimateAppend(render, b[..i], b[i + 1..]);
      EstimateAppend(render, b[..i] + [x], b[i + 1..]);
      EstimateAppend(render, b[..i], [x]);
      EstimateAppend(render, a[..|a| - 1], [x]);
    }
  }
}
