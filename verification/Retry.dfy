/** Retry rules and the retry loop around a model call (runtime/retry.py, runtime/prompt_executor.py). */
module Retry {
  import opened Wrappers

  datatype Precondition = Unconditional | MetadataTransient | TextOnlyNoToolFragment | SqliteNoPartialCommit
    | OtherPrecondition(name: string)
  datatype Strategy = RepeatCall | ContinueGeneration | OtherStrategy(name: string)
  datatype Backoff = NoBackoff | Fixed | OtherBackoff(name: string)

  datatype RetrySpec = RetrySpec(
    enabled: bool,
    precondition: Precondition,
    strategy: Strategy,
    maxAttempts: int,
    backoff: Backoff,
    backoffSeconds: Option<int>)

  datatype RuleInvalid =
    | UnknownPrecondition | UnknownStrategy | UnknownBackoff | NoAttempts | SecondsWithoutBackoff
        | BackoffWithoutSeconds
    | ContinuationWithBackoff

  function Validate(spec: RetrySpec): Option<RuleInvalid> {
    if spec.precondition.OtherPrecondition? then Some(UnknownPrecondition)
    else if spec.strategy.OtherStrategy? then Some(UnknownStrategy)
    else if spec.backoff.OtherBackoff? then Some(UnknownBackoff)
    else if spec.enabled && spec.maxAttempts <= 0 then Some(NoAttempts)
    else if spec.backoff.NoBackoff? && spec.backoffSeconds.Some? then Some(SecondsWithoutBackoff)
    else if spec.backoff.Fixed? && (spec.backoffSeconds.None? || spec.backoffSeconds.value <= 0)
      then Some(BackoffWithoutSeconds)
    else if spec.strategy.ContinueGeneration? && !spec.backoff.NoBackoff? then Some(ContinuationWithBackoff)
    else None
  }

  type RuleKey = (string, string)
  type Registry = map<RuleKey, RetrySpec>

  ghost predicate ValidRegistry(rules: Registry) {
    forall k | k in rules :: Validate(rules[k]) == None
  }

  const OUTPUT_LIMIT: RuleKey := ("model_error", "output_token_limit_reached")
  const SQLITE_BUSY: RuleKey := ("persistence_error", "sqlite_busy_timeout")

  function Immediate(precondition: Precondition, strategy: Strategy, maxAttempts: int): RetrySpec {
    RetrySpec(true, precondition, strategy, maxAttempts, NoBackoff, None)
  }

  function DefaultRegistry(): Registry {
    map[
      ("model_error", "provider_timeout") := Immediate(Unconditional, RepeatCall, 2),
      ("model_error", "model_call_timeout") := Immediate(Unconditional, RepeatCall, 2),
      ("model_error", "provider_rate_limited") := RetrySpec(true, Unconditional, RepeatCall, 1, Fixed, Some(2)),
      ("model_error", "provider_exception") := Immediate(MetadataTransient, RepeatCall, 1),
      ("model_error", "compression_model_failed") := Immediate(MetadataTransient, RepeatCall, 1),
      OUTPUT_LIMIT := Immediate(TextOnlyNoToolFragment, ContinueGeneration, 1),
      SQLITE_BUSY := RetrySpec(true, SqliteNoPartialCommit, RepeatCall, 3, Fixed, Some(1))
    ]
  }

  /** A controller is built only over valid rules; an absent or empty registry stands for the default one. */
  function NewController(rules: Option<Registry>): Option<Registry> {
    var chosen := if rules.None? || rules.value == map[] then DefaultRegistry() else rules.value;
    if exists k | k in chosen :: Validate(chosen[k]) != None then None else Some(chosen)
  }

  datatype Facts = Facts(responseAccepted: bool, toolExecuted: bool, sqlitePartialCommit: Option<bool>)
  datatype RetryMetadata = RetryMetadata(transient: Option<bool>, partialKind: Option<string>)
  datatype Decision = Declined(key: RuleKey) | Allowed(key: RuleKey, spec: RetrySpec)

  const TEXT_ONLY := "text_only_no_tool_fragment"

  predicate Satisfied(p: Precondition, metadata: RetryMetadata, facts: Facts) {
    match p
    case Unconditional => true
    case MetadataTransient => metadata.transient == Some(true)
    case TextOnlyNoToolFragment => metadata.partialKind == Some(TEXT_ONLY)
    case SqliteNoPartialCommit => facts.sqlitePartialCommit == Some(false)
    case OtherPrecondition(_) => false
  }

  function Decide(rules: Registry, key: RuleKey, metadata: RetryMetadata, facts: Facts): Decision {
    if key !in rules || !rules[key].enabled then Declined(key)
    else if facts.responseAccepted || facts.toolExecuted then Declined(key)
    else if !Satisfied(rules[key].precondition, metadata, facts) then Declined(key)
    else Allowed(key, rules[key])
  }

  // ---------------------------------------------------------------- adapter results

  /** An error's reason: absent or empty, a text, or a value of another type. */
  datatype Reason = NoReason | Reason(text: string) | OtherReason

  datatype ErrorInfo = ErrorInfo(errorClass: Option<string>, reason: Reason, metadata: RetryMetadata)

  datatype AgentRunResult = AgentRunResult(
    status: string,
    output: Option<string>,
    toolResults: seq<string>,
    error: Option<ErrorInfo>,
    outputLimitReached: bool,
    toolFragments: bool,
    metadata: RetryMetadata)

  datatype AdapterRequest = Original | Continuation(partial: string)

  /** The adapter may answer its n-th call in any way. */
  type Adapter = (nat, AdapterRequest) -> AgentRunResult

  datatype Call = Call(request: AdapterRequest, result: AgentRunResult)
  datatype RetrySource = RetrySource(key: RuleKey, metadata: RetryMetadata, facts: Facts)
  datatype Attempt = Attempt(strategy: Strategy, number: int, source: RuleKey)
  datatype Outcome = Outcome(result: AgentRunResult, calls: seq<Call>, attempts: seq<Attempt>, exhausted: bool)

  function Overlay<T>(base: Option<T>, over: Option<T>): Option<T> {
    if over.Some? then over else base
  }

  function ErrorMetadata(r: AgentRunResult): RetryMetadata {
    if r.error.None? then r.metadata
    else RetryMetadata(
        Overlay(r.metadata.transient, r.error.value.metadata.transient),
        Overlay(r.metadata.partialKind, r.error.value.metadata.partialKind))
  }

  predicate Truncated(r: AgentRunResult) {
    r.status == "completed" && r.outputLimitReached
  }

  predicate HasToolFragment(r: AgentRunResult) {
    |r.toolResults| > 0 || r.toolFragments
  }

  function PartialOutputKind(r: AgentRunResult): string {
    if HasToolFragment(r) then "tool_fragment" else if r.output.Some? then TEXT_ONLY else "none"
  }

  /** The error class and reason of a failed or timed-out result; no or an empty reason means the class. */
  function FailureKey(r: AgentRunResult): Option<RuleKey> {
    if !(r.status in {"failed", "timeout"}) || r.error.None? || r.error.value.errorClass.None?
        || r.error.value.reason.OtherReason?
    then None
    else
      var category, reason := r.error.value.errorClass.value, r.error.value.reason;
      Some((category, if reason.NoReason? || reason.text == "" then category else reason.text))
  }

  function Source(r: AgentRunResult): Option<RetrySource> {
    var facts := Facts(false, |r.toolResults| > 0, None);
    if FailureKey(r).Some? then Some(RetrySource(FailureKey(r).value, ErrorMetadata(r), facts))
    else if Truncated(r) then
      Some(RetrySource(OUTPUT_LIMIT, ErrorMetadata(r).(partialKind := Some(PartialOutputKind(r))), facts))
    else None
  }

  function DecideFor(rules: Registry, s: RetrySource): Decision {
    Decide(rules, s.key, s.metadata, s.facts)
  }

  predicate IsTextOnly(r: AgentRunResult) {
    r.status == "completed" && r.output.Some? && !Truncated(r) && !HasToolFragment(r)
  }

  function TextOf(r: AgentRunResult): string {
    if r.output.Some? then r.output.value else ""
  }

  function OutputLimitFailure(r: AgentRunResult): AgentRunResult {
    AgentRunResult("failed", None, [],
                   Some(ErrorInfo(Some(OUTPUT_LIMIT.0), Reason(OUTPUT_LIMIT.1), RetryMetadata(None, None))),
                   r.outputLimitReached, r.toolFragments, r.metadata.(partialKind := Some(PartialOutputKind(r))))
  }

  function Joined(partial: string, continuation: AgentRunResult): AgentRunResult {
    continuation.(output := Some(partial + TextOf(continuation)), toolResults := [], error := None)
  }

  // ---------------------------------------------------------------- the loop as a recursive specification

  function Last(calls: seq<Call>): AgentRunResult
    requires |calls| > 0
  {
    calls[|calls| - 1].result
  }

  function Continues(adapter: Adapter, rule: Decision, truncated: AgentRunResult, source: RuleKey,
                     calls: seq<Call>, attempts: seq<Attempt>, k: nat): Outcome
    requires rule.Allowed?
    decreases rule.spec.maxAttempts + 1 - k
  {
    if k > rule.spec.maxAttempts then Outcome(OutputLimitFailure(truncated), calls, attempts, true)
    else
      var request := Continuation(TextOf(truncated));
      var result := adapter(|calls|, request);
      var made, noted := calls + [Call(request, result)], attempts + [Attempt(ContinueGeneration, k, source)];
      if IsTextOnly(result) then Outcome(Joined(TextOf(truncated), result), made, noted, false)
      else Continues(adapter, rule, truncated, source, made, noted, k + 1)
  }

  function Repeats(rules: Registry, adapter: Adapter, rule: Decision, source: RuleKey,
                   calls: seq<Call>, attempts: seq<Attempt>, k: nat): Outcome
    requires rule.Allowed? && |calls| > 0
    decreases rule.spec.maxAttempts + 1 - k
  {
    if k > rule.spec.maxAttempts then Outcome(Last(calls), calls, attempts, true)
    else
      var result := adapter(|calls|, Original);
      var made, noted := calls + [Call(Original, result)], attempts + [Attempt(RepeatCall, k, source)];
      if Source(result).None? then Outcome(result, made, noted, false)
      else
        var next := DecideFor(rules, Source(result).value);
        if next.Allowed? && next.spec.strategy != RepeatCall then
          Continues(adapter, next, result, next.key, made, noted, 1)
        else if next.Allowed? && next.key == rule.key then
          Repeats(rules, adapter, rule, next.key, made, noted, k + 1)
        else Outcome(result, made, noted, true)
  }

  function Resolve(rules: Registry, adapter: Adapter, calls: seq<Call>, attempts: seq<Attempt>): Outcome
    requires |calls| > 0
  {
    var result := Last(calls);
    if Source(result).None? then Outcome(result, calls, attempts, false)
    else
      var rule := DecideFor(rules, Source(result).value);
      if rule.Declined? then
        if rule.key.1 == OUTPUT_LIMIT.1 then Outcome(OutputLimitFailure(result), calls, attempts, true)
        else Outcome(result, calls, attempts, false)
      else if rule.spec.strategy == RepeatCall then Repeats(rules, adapter, rule, rule.key, calls, attempts, 1)
      else Continues(adapter, rule, result, rule.key, calls, attempts, 1)
  }

  function Run(rules: Registry, adapter: Adapter): Outcome {
    Resolve(rules, adapter, [Call(Original, adapter(0, Original))], [])
  }

  // ---------------------------------------------------------------- the loop itself

  method RunAdapterWithRetry(rules: Registry, adapter: Adapter) returns (o: Outcome)
    requires ValidRegistry(rules)
    ensures o == Run(rules, adapter)
  {
    var result := adapter(0, Original);
    var calls, attempts := [Call(Original, result)], [];
    var switched := false;
    while true
      invariant |calls| > 0 && Last(calls) == result
      invariant Resolve(rules, adapter, calls, attempts) == Run(rules, adapter)
      invariant switched ==> Source(result).Some? && DecideFor(rules, Source(result).value).Allowed?
                             && DecideFor(rules, Source(result).value).spec.strategy != RepeatCall
      decreases !switched
    {
      var source := Source(result);
      if source.None? {
        return Outcome(result, calls, attempts, false);
      }
      var rule := DecideFor(rules, source.value);
      if rule.Declined? {
        if rule.key.1 == OUTPUT_LIMIT.1 {
          return Outcome(OutputLimitFailure(result), calls, attempts, true);
        }
        return Outcome(result, calls, attempts, false);
      }
      if rule.spec.strategy == RepeatCall {
        switched := false;
        var key := rule.key;
        var k := 1;
        while k <= rule.spec.maxAttempts
          invariant k >= 1 && |calls| > 0 && Last(calls) == result && !switched
          invariant Repeats(rules, adapter, rule, key, calls, attempts, k) == Run(rules, adapter)
        {
          attempts := attempts + [Attempt(RepeatCall, k, key)];
          result := adapter(|calls|, Original);
          calls := calls + [Call(Original, result)];
          source := Source(result);
          if source.None? {
            return Outcome(result, calls, attempts, false);
          }
          var next := DecideFor(rules, source.value);
          key := source.value.key;
          if next.Declined? || next.spec.strategy != RepeatCall || next.key != rule.key {
            switched := next.Allowed? && next.spec.strategy != RepeatCall;
            break;
          }
          k := k + 1;
        }
        if switched {
          continue;
        }
        return Outcome(result, calls, attempts, true);
      }
      var partial := TextOf(result);
      var k := 1;
      while k <= rule.spec.maxAttempts
        invariant k >= 1
        invariant Continues(adapter, rule, result, rule.key, calls, attempts, k) == Run(rules, adapter)
      {
        var continuation := adapter(|calls|, Continuation(partial));
        attempts := attempts + [Attempt(ContinueGeneration, k, rule.key)];
        calls := calls + [Call(Continuation(partial), continuation)];
        if IsTextOnly(continuation) {
          return Outcome(Joined(partial, continuation), calls, attempts, false);
        }
        k := k + 1;
      }
      return Outcome(OutputLimitFailure(result), calls, attempts, true);
    }
  }
}
