/**
 * The tool rounds of one adapter call (adapters/langchain_adapter.py): model calls and tool calls alternate until the
 * model answers without tools, an exception ends the loop, or a stream that turns out unsupported starts the whole call
 * over without streaming. Model, tool broker and context refresh are scripted by the environment.
 */
module AdapterLoop {
  import opened Wrappers
  import opened Seqs
  import opened Retry
  import T = ToolLoopIds

  // ---------------------------------------------------------------- what the environment does

  /** How a provider failure is classified. */
  datatype Fault = ProviderTimeout | RateLimited | ConnectionLost | OtherFault

  datatype Exc = Unsupported | TimedOut | CallCancelled | CompressionFailed | Failure(fault: Fault)

  /** An answer's text, the names of the calls it asks for (empty when a call has no name), whether it was cut off. */
  datatype ModelOutcome = Answers(text: string, names: seq<string>, cutOff: bool) | ModelRaises(exc: Exc)

  /** A tool result may end the round early, and do so because approval was denied. */
  datatype Verdict = Proceeds | Aborts | Denies

  /** A broker that raises may or may not have run the tool. */
  datatype ToolOutcome = ToolReturns(result: string, verdict: Verdict) | ToolRaises(exc: Exc, ran: bool)

  /** By number of the model call, from 0, and within it of the invoked call; a refresh may raise. */
  datatype Phase = Phase(model: nat -> ModelOutcome, tool: (nat, nat) -> ToolOutcome, refresh: nat -> Option<Exc>)

  /** One adapter call: whether it streams, the iteration limit, and what happens while streaming and in a plain run. */
  datatype Script = Script(streams: bool, limit: nat, streamed: Phase, plain: Phase)

  // ---------------------------------------------------------------- results

  const NO_METADATA := RetryMetadata(None, None)

  function ErrorResult(status: string, errorClass: string, reason: Reason, metadata: RetryMetadata,
                       reported: seq<string>): AgentRunResult {
    AgentRunResult(status, None, reported, Some(ErrorInfo(Some(errorClass), reason, metadata)), false, false, metadata)
  }

  function FaultResult(fault: Fault, reported: seq<string>): AgentRunResult {
    match fault
    case ProviderTimeout => ErrorResult("failed", "model_error", Reason("provider_timeout"), NO_METADATA, reported)
    case RateLimited => ErrorResult("failed", "model_error", Reason("provider_rate_limited"), NO_METADATA, reported)
    case ConnectionLost => ErrorResult("failed", "model_error", Reason("provider_exception"),
                                       RetryMetadata(Some(true), None), reported)
    case OtherFault => ErrorResult("failed", "model_error", NoReason, NO_METADATA, reported)
  }

  /** A failed compression reports a result of its own, without the tool results so far. */
  function RaisedResult(exc: Exc, reported: seq<string>): AgentRunResult {
    match exc
    case TimedOut => ErrorResult("timeout", "model_error", Reason("model_call_timeout"), NO_METADATA, reported)
    case CallCancelled => ErrorResult("cancelled", "cancelled", Reason("model_call_cancelled"), NO_METADATA, reported)
    case CompressionFailed => ErrorResult("failed", "model_error", Reason("compression_failed"), NO_METADATA, [])
    case Unsupported => FaultResult(OtherFault, reported)
    case Failure(fault) => FaultResult(fault, reported)
  }

  function LimitResult(reported: seq<string>): AgentRunResult {
    ErrorResult("failed", "runtime_error", Reason("adapter_contract_violation"), NO_METADATA, reported)
  }

  function DeniedResult(reported: seq<string>): AgentRunResult {
    ErrorResult("failed", "policy_error", Reason("approval_denied"), NO_METADATA, reported)
  }

  function FinalResult(text: string, cutOff: bool, reported: seq<string>): AgentRunResult {
    AgentRunResult("completed", Some(text), reported, None, cutOff, false, NO_METADATA)
  }

  /** How a phase ended, the rounds handed to the executor, the results it could report, and whether any tool ran. */
  datatype Ran = Ran(end: Option<AgentRunResult>, rounds: seq<T.Round>, reported: seq<string>, ran: bool)

  // ---------------------------------------------------------------- one round

  /** The places, from 1, of the calls that have a name. */
  function NamedPositions(names: seq<string>): seq<nat> {
    if |names| == 0 then []
    else NamedPositions(names[..|names| - 1]) + (if names[|names| - 1] != "" then [|names|] else [])
  }

  datatype Invocations = Invocations(got: seq<T.Invoked>, stop: Option<Exc>, denied: bool, ran: bool)

  /** Invokes the calls from the j-th on; an exception loses the results of its round. */
  function InvokeFrom(tool: nat -> ToolOutcome, positions: seq<nat>, j: nat, got: seq<T.Invoked>,
                      ran: bool): Invocations
    requires j <= |positions|
    decreases |positions| - j
  {
    if j == |positions| then Invocations(got, None, false, ran)
    else
      match tool(j)
      case ToolRaises(exc, executed) => Invocations(got, Some(exc), false, ran || executed)
      case ToolReturns(result, verdict) =>
        var more := got + [T.Invoked(positions[j], result)];
        if verdict == Proceeds then InvokeFrom(tool, positions, j + 1, more, true)
        else Invocations(more, None, verdict == Denies, true)
  }

  function ResultOf(i: T.Invoked): string {
    i.result
  }

  // ---------------------------------------------------------------- the rounds of a phase

  /** While streaming, an unsupported operation ends the phase without a result: the call starts over. */
  function Raised(streaming: bool, exc: Exc, rounds: seq<T.Round>, reported: seq<string>, ran: bool): Ran {
    Ran(if streaming && exc == Unsupported then None else Some(RaisedResult(exc, reported)), rounds, reported, ran)
  }

  function Invoked(phase: Phase, i: nat, names: seq<string>, ran: bool): Invocations {
    InvokeFrom((j: nat) => phase.tool(i, j), NamedPositions(names), 0, [], ran)
  }

  function RoundOf(i: nat, text: string, inv: Invocations): T.Round {
    T.Round(i + 1, text, inv.got)
  }

  function Rounds(phase: Phase, streaming: bool, limit: nat, i: nat, rounds: seq<T.Round>, reported: seq<string>,
                  ran: bool): Ran
    requires i <= limit
    decreases limit - i
  {
    if i == limit then Ran(Some(LimitResult(reported)), rounds, reported, ran)
    else
      match phase.model(i)
      case ModelRaises(exc) => Raised(streaming, exc, rounds, reported, ran)
      case Answers(text, names, cutOff) =>
        if NamedPositions(names) == [] then Ran(Some(FinalResult(text, cutOff, reported)), rounds, reported, ran)
        else
          var inv := Invoked(phase, i, names, ran);
          var now, recorded := reported + Map(ResultOf, inv.got), rounds + [RoundOf(i, text, inv)];
          if inv.stop.Some? then Raised(streaming, inv.stop.value, rounds, reported, inv.ran)
          else if inv.denied then Ran(Some(DeniedResult(now)), rounds, now, true)
          else if phase.refresh(i).Some? then Raised(streaming, phase.refresh(i).value, recorded, now, true)
          else Rounds(phase, streaming, limit, i + 1, recorded, now, true)
  }

  function PhaseRun(phase: Phase, streaming: bool, limit: nat): Ran {
    Rounds(phase, streaming, limit, 0, [], [], false)
  }

  function Streamed(s: Script): Ran {
    PhaseRun(s.streamed, true, s.limit)
  }

  function Plain(s: Script): Ran {
    PhaseRun(s.plain, false, s.limit)
  }

  predicate FellBack(s: Script) {
    s.streams && Streamed(s).end.None?
  }

  /** The phase whose result the call returns. */
  function Final(s: Script): Ran {
    if s.streams && !FellBack(s) then Streamed(s) else Plain(s)
  }

  /** What the executor holds after the call: rounds streamed before a fallback are not taken back. */
  function RoundsOf(s: Script): seq<T.Round> {
    (if FellBack(s) then Streamed(s).rounds else []) + Final(s).rounds
  }

  predicate RanTool(s: Script) {
    Final(s).ran || (FellBack(s) && Streamed(s).ran)
  }

  // ---------------------------------------------------------------- the loops themselves

  method InvokeToolCalls(phase: Phase, i: nat, names: seq<string>, ran: bool) returns (inv: Invocations)
    ensures inv == Invoked(phase, i, names, ran)
  {
    var positions := NameCalls(names);
    ghost var tool := (j: nat) => phase.tool(i, j);
    var got: seq<T.Invoked>, executed, j := [], ran, 0;
    while j < |positions|
      invariant j <= |positions|
      invariant InvokeFrom(tool, positions, j, got, executed) == Invoked(phase, i, names, ran)
    {
      match phase.tool(i, j)
      case ToolRaises(exc, own) =>
        return Invocations(got, Some(exc), false, executed || own);
      case ToolReturns(result, verdict) =>
        got := got + [T.Invoked(positions[j], result)];
        executed := true;
        if verdict != Proceeds {
          return Invocations(got, None, verdict == Denies, true);
        }
        j := j + 1;
    }
    inv := Invocations(got, None, false, executed);
  }

  method NameCalls(names: seq<string>) returns (positions: seq<nat>)
    ensures positions == NamedPositions(names)
  {
    positions := [];
    for i := 0 to |names|
      invariant positions == NamedPositions(names[..i])
    {
      assert names[..i + 1][..i] == names[..i];
      if names[i] != "" {
        positions := positions + [i + 1];
      }
    }
    assert names[..|names|] == names;
  }

  method RunPhase(phase: Phase, streaming: bool, limit: nat) returns (r: Ran)
    ensures r == PhaseRun(phase, streaming, limit)
  {
    var rounds: seq<T.Round>, reported: seq<string>, ran, i := [], [], false, 0;
    while i < limit
      invariant i <= limit
      invariant Rounds(phase, streaming, limit, i, rounds, reported, ran) == PhaseRun(phase, streaming, limit)
    {
      match phase.model(i)
      case ModelRaises(exc) =>
        return Raised(streaming, exc, rounds, reported, ran);
      case Answers(text, names, cutOff) =>
        var positions := NameCalls(names);
        if |positions| == 0 {
          return Ran(Some(FinalResult(text, cutOff, reported)), rounds, reported, ran);
        }
        var inv := InvokeToolCalls(phase, i, names, ran);
        if inv.stop.Some? {
          return Raised(streaming, inv.stop.value, rounds, reported, inv.ran);
        }
        reported := reported + Map(ResultOf, inv.got);
        if inv.denied {
          return Ran(Some(DeniedResult(reported)), rounds, reported, true);
        }
        rounds := rounds + [RoundOf(i, text, inv)];
        ran := true;
        if phase.refresh(i).Some? {
          return Raised(streaming, phase.refresh(i).value, rounds, reported, true);
        }
        i := i + 1;
    }
    r := Ran(Some(LimitResult(reported)), rounds, reported, ran);
  }

  /** One adapter call: its result and the rounds the executor accumulated during it. */
  method InvokeAdapter(s: Script) returns (result: AgentRunResult, rounds: seq<T.Round>)
    ensures Final(s).end == Some(result) && rounds == RoundsOf(s)
  {
    rounds := [];
    if s.streams {
      var streamed := RunPhase(s.streamed, true, s.limit);
      if streamed.end.Some? {
        return streamed.end.value, streamed.rounds;
      }
      rounds := streamed.rounds;
    }
    var plain := RunPhase(s.plain, false, s.limit);
    PlainEnds(s.plain, s.limit, 0, [], [], false);
    result, rounds := plain.end.value, rounds + plain.rounds;
  }

  lemma {:induction false} PlainEnds(phase: Phase, limit: nat, i: nat, rounds: seq<T.Round>, reported: seq<string>,
                                     ran: bool)
    requires i <= limit
    ensures Rounds(phase, false, limit, i, rounds, reported, ran).end.Some?
    decreases limit - i
  {
    if i < limit && phase.model(i).Answers? {
      var inv := Invoked(phase, i, phase.model(i).names, ran);
      PlainEnds(phase, limit, i + 1, rounds + [RoundOf(i, phase.model(i).text, inv)],
                reported + Map(ResultOf, inv.got), true);
    }
  }
}
