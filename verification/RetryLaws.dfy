/** What the retry loop guarantees for every adapter: bounded calls, no retry after a tool ran, what is returned. */
module RetryLaws {
  import opened Wrappers
  import opened Retry

  lemma DefaultRegistryValid()
    ensures ValidRegistry(DefaultRegistry())
  {
  }

  /**
   * A controller holds exactly the registry it was given, or the default one; it exists exactly when all rules are
   * valid.
   */
  lemma ControllerRules(rules: Registry)
    ensures NewController(Some(rules)).Some? <==> ValidRegistry(rules)
    ensures NewController(None) == NewController(Some(map[])) == Some(DefaultRegistry())
    ensures ValidRegistry(rules) && rules != map[] ==> NewController(Some(rules)) == Some(rules)
  {
    DefaultRegistryValid();
  }

  // ---------------------------------------------------------------- which rules the model loop can ever apply

  /**
   * A rule the model loop can meet: no result of a model call reports a SQLite commit or an empty reason beside a
   * class.
   */
  predicate Reachable(key: RuleKey, spec: RetrySpec) {
    && spec.enabled
    && spec.precondition != SqliteNoPartialCommit
    && (key.1 != "" || key.0 == "")
  }

  ghost predicate Budgets(rules: Registry, repeats: int, continuations: int) {
    forall k | k in rules && Reachable(k, rules[k]) ::
      rules[k].maxAttempts <= (if rules[k].strategy == RepeatCall then repeats else continuations)
  }

  lemma AllowedFacts(rules: Registry, r: AgentRunResult)
    requires Source(r).Some? && DecideFor(rules, Source(r).value).Allowed?
    ensures var d := DecideFor(rules, Source(r).value);
            d.key in rules && d.spec == rules[d.key] && Reachable(d.key, d.spec) && r.toolResults == []
  {
  }

  // ---------------------------------------------------------------- shape of the history

  /** Original requests come first; every continuation quotes the text of the last answer to an original request. */
  predicate Follows(previous: Call, next: Call) {
    match next.request
    case Original => previous.request == Original
    case Continuation(partial) =>
      if previous.request == Original then partial == TextOf(previous.result) else next.request == previous.request
  }

  /** Calls answered in turn by the adapter. */
  ghost predicate History(adapter: Adapter, calls: seq<Call>) {
    && |calls| > 0 && calls[0].request == Original
    && (forall i | 0 < i < |calls| :: Follows(calls[i - 1], calls[i]))
    && forall i | 0 <= i < |calls| :: calls[i].result == adapter(i, calls[i].request)
  }

  ghost predicate OnlyLastExecuted(calls: seq<Call>) {
    forall i | 0 <= i < |calls| - 1 :: calls[i].result.toolResults == []
  }

  /** How the returned result relates to the calls made. */
  ghost predicate Returns(o: Outcome) {
    && |o.calls| > 0
    && match o.calls[|o.calls| - 1].request {
         case Original =>
           o.result == Last(o.calls) || (|o.calls| == 1 && o.result == OutputLimitFailure(Last(o.calls)))
         case Continuation(partial) =>
           if IsTextOnly(Last(o.calls)) then o.result == Joined(partial, Last(o.calls))
           else o.result.status == "failed" && o.result.output == None && o.result.toolResults == []
       }
  }

  /** What a finished run adds to a history it started from. */
  ghost predicate Extends(adapter: Adapter, o: Outcome, calls: seq<Call>, attempts: seq<Attempt>, more: int) {
    && History(adapter, o.calls)
    && |calls| <= |o.calls| <= |calls| + more
    && |o.attempts| - |attempts| == |o.calls| - |calls|
  }

  ghost predicate Quotes(last: Call, truncated: AgentRunResult) {
    if last.request == Original then last.result == truncated else last.request == Continuation(TextOf(truncated))
  }

  lemma {:induction false} ContinuesShape(adapter: Adapter, rule: Decision, truncated: AgentRunResult, source: RuleKey,
                                          calls: seq<Call>, attempts: seq<Attempt>, k: nat)
    requires rule.Allowed? && History(adapter, calls) && k <= rule.spec.maxAttempts + 1
    requires calls[|calls| - 1].request == Continuation(TextOf(truncated)) || k <= rule.spec.maxAttempts
    requires calls[|calls| - 1].request.Continuation? ==> !IsTextOnly(Last(calls))
    requires Quotes(calls[|calls| - 1], truncated)
    ensures var o := Continues(adapter, rule, truncated, source, calls, attempts, k);
            Extends(adapter, o, calls, attempts, rule.spec.maxAttempts + 1 - k) && Returns(o) && !Truncated(o.result)
    decreases rule.spec.maxAttempts + 1 - k
  {
    if k <= rule.spec.maxAttempts {
      var request := Continuation(TextOf(truncated));
      var result := adapter(|calls|, request);
      var made, noted := calls + [Call(request, result)], attempts + [Attempt(ContinueGeneration, k, source)];
      assert Last(made) == result;
      if !IsTextOnly(result) {
        ContinuesShape(adapter, rule, truncated, source, made, noted, k + 1);
      }
    }
  }

  lemma ContinuesQuietly(adapter: Adapter, rule: Decision, truncated: AgentRunResult, source: RuleKey,
                         calls: seq<Call>, attempts: seq<Attempt>)
    requires rule.Allowed? && rule.spec.maxAttempts <= 1
    requires forall i | 0 <= i < |calls| :: calls[i].result.toolResults == []
    ensures OnlyLastExecuted(Continues(adapter, rule, truncated, source, calls, attempts, 1).calls)
  {
  }

  lemma RepeatedCall(adapter: Adapter, calls: seq<Call>)
    requires History(adapter, calls) && calls[|calls| - 1].request == Original
    ensures var made := calls + [Call(Original, adapter(|calls|, Original))];
            History(adapter, made) && Last(made) == adapter(|calls|, Original)
  {
  }

  lemma {:induction false} RepeatsShape(rules: Registry, adapter: Adapter, rule: Decision, source: RuleKey,
                                        calls: seq<Call>, attempts: seq<Attempt>, k: nat, repeats: int,
                                        continuations: int)
    requires ValidRegistry(rules) && Budgets(rules, repeats, continuations) && continuations >= 0
    requires rule.Allowed? && History(adapter, calls) && 1 <= k <= rule.spec.maxAttempts + 1
    requires calls[|calls| - 1].request == Original
    ensures var o := Repeats(rules, adapter, rule, source, calls, attempts, k);
            Extends(adapter, o, calls, attempts, rule.spec.maxAttempts + 1 - k + continuations)
    decreases rule.spec.maxAttempts + 1 - k
  {
    if k <= rule.spec.maxAttempts {
      var result := adapter(|calls|, Original);
      var made, noted := calls + [Call(Original, result)], attempts + [Attempt(RepeatCall, k, source)];
      RepeatedCall(adapter, calls);
      if Source(result).Some? {
        var next := DecideFor(rules, Source(result).value);
        if next.Allowed? {
          AllowedFacts(rules, result);
          assert Validate(next.spec) == None;
          if next.spec.strategy != RepeatCall {
            ContinuesShape(adapter, next, result, next.key, made, noted, 1);
          } else if next.key == rule.key {
            RepeatsShape(rules, adapter, rule, next.key, made, noted, k + 1, repeats, continuations);
          }
        }
      }
    }
  }

  lemma {:induction false} RepeatsReturn(rules: Registry, adapter: Adapter, rule: Decision, source: RuleKey,
                                         calls: seq<Call>, attempts: seq<Attempt>, k: nat)
    requires ValidRegistry(rules)
    requires rule.Allowed? && History(adapter, calls) && 1 <= k <= rule.spec.maxAttempts + 1
    requires calls[|calls| - 1].request == Original && (k > 1 ==> |calls| > 1)
    ensures var o := Repeats(rules, adapter, rule, source, calls, attempts, k);
            Returns(o)
    decreases rule.spec.maxAttempts + 1 - k
  {
    if k <= rule.spec.maxAttempts {
      var result := adapter(|calls|, Original);
      var made, noted := calls + [Call(Original, result)], attempts + [Attempt(RepeatCall, k, source)];
      RepeatedCall(adapter, calls);
      if Source(result).Some? {
        var next := DecideFor(rules, Source(result).value);
        if next.Allowed? {
          AllowedFacts(rules, result);
          assert Validate(next.spec) == None;
          if next.spec.strategy != RepeatCall {
            ContinuesShape(adapter, next, result, next.key, made, noted, 1);
          } else if next.key == rule.key {
            RepeatsReturn(rules, adapter, rule, next.key, made, noted, k + 1);
          }
        }
      }
    }
  }

  // ---------------------------------------------------------------- the main results

  /**
   * Every run ends within one call plus the two budgets, records one attempt per further call, and returns one of three
   * things.
   */
  lemma RunIsBounded(rules: Registry, adapter: Adapter, repeats: nat, continuations: nat)
    requires ValidRegistry(rules) && Budgets(rules, repeats, continuations)
    ensures var o := Run(rules, adapter);
            && History(adapter, o.calls)
            && |o.calls| <= 1 + repeats + continuations
            && |o.attempts| == |o.calls| - 1
            && Returns(o)
  {
    var result := adapter(0, Original);
    var calls: seq<Call> := [Call(Original, result)];
    if Source(result).Some? {
      var rule := DecideFor(rules, Source(result).value);
      if rule.Allowed? {
        AllowedFacts(rules, result);
        assert Validate(rule.spec) == None;
        if rule.spec.strategy == RepeatCall {
          RepeatsShape(rules, adapter, rule, rule.key, calls, [], 1, repeats, continuations);
          RepeatsReturn(rules, adapter, rule, rule.key, calls, [], 1);
        } else {
          ContinuesShape(adapter, rule, result, rule.key, calls, [], 1);
        }
      }
    }
  }

  /** Under the default registry a model call is made at most four times. */
  lemma AtMostFourCalls(adapter: Adapter)
    ensures |Run(DefaultRegistry(), adapter).calls| <= 4
  {
    DefaultRegistryValid();
    RunIsBounded(DefaultRegistry(), adapter, 2, 1);
  }

  function Failing(errorClass: string, reason: string): AgentRunResult {
    AgentRunResult("failed", None, [],
                   Some(ErrorInfo(Some(errorClass), Reason(reason), RetryMetadata(Some(true), Some(TEXT_ONLY)))),
                   false, false, RetryMetadata(None, None))
  }

  function Answer(text: string, tools: seq<string>, truncated: bool): AgentRunResult {
    AgentRunResult("completed", Some(text), tools, None, truncated, false, RetryMetadata(None, None))
  }

  /** Two timeouts, a truncated text and a failing continuation use up all four calls. */
  function Exhausting(): Adapter {
    (n: nat, request: AdapterRequest) => if n == 2 then Answer("text", [], true)
    else Failing("model_error", "provider_timeout")
  }

  /** The bound of four is reached. */
  lemma FourCallsHappen()
    ensures |Run(DefaultRegistry(), Exhausting()).calls| == 4
    ensures Run(DefaultRegistry(), Exhausting()).result.status == "failed"
  {
    var rules, adapter := DefaultRegistry(), Exhausting();
    var failed, text := Failing("model_error", "provider_timeout"), Answer("text", [], true);
    var rule := DecideFor(rules, Source(failed).value);
    var next := DecideFor(rules, Source(text).value);
    assert rule.Allowed? && rule.spec.maxAttempts == 2 && next.Allowed? && next.spec.maxAttempts == 1;
    var calls1 := [Call(Original, failed)];
    var calls2, calls3 := calls1 + [Call(Original, failed)], calls1 + [Call(Original, failed)] + [Call(Original, text)];
    var noted1 := [Attempt(RepeatCall, 1, rule.key)];
    assert Run(rules, adapter) == Repeats(rules, adapter, rule, rule.key, calls1, [], 1);
    assert Run(rules, adapter) == Repeats(rules, adapter, rule, rule.key, calls2, noted1, 2);
    assert Run(rules, adapter)
        == Continues(adapter, next, text, next.key, calls3, noted1 + [Attempt(RepeatCall, 2, rule.key)], 1);
  }

  // ---------------------------------------------------------------- every retry was earned

  /** What a caller can see of a result that may be retried: its key has an enabled rule whose condition it meets. */
  ghost predicate CallsForRetry(rules: Registry, r: AgentRunResult, key: RuleKey, strategy: Strategy) {
    && Source(r).Some? && Source(r).value.key == key
    && key in rules && rules[key].enabled && rules[key].strategy == strategy
    && r.toolResults == []
    && match rules[key].precondition {
         case Unconditional => true
         case MetadataTransient => Source(r).value.metadata.transient == Some(true)
         case TextOnlyNoToolFragment => Source(r).value.metadata.partialKind == Some(TEXT_ONLY)
         case _ => false
       }
  }

  /** The j-th retry was called for by the call before it, or goes on with the continuation that was. */
  ghost predicate Earned(rules: Registry, calls: seq<Call>, attempts: seq<Attempt>, j: nat)
    requires j < |attempts| && |attempts| == |calls| - 1
  {
    var a := attempts[j];
    && a.source in rules && rules[a.source].strategy == a.strategy && 1 <= a.number <= rules[a.source].maxAttempts
    && (a.strategy == RepeatCall <==> calls[j + 1].request == Original)
    && if a.strategy == ContinueGeneration && a.number > 1
       then j > 0 && attempts[j - 1] == a.(number := a.number - 1) && !IsTextOnly(calls[j].result)
       else CallsForRetry(rules, calls[j].result, a.source, a.strategy)
  }

  ghost predicate AllEarned(rules: Registry, calls: seq<Call>, attempts: seq<Attempt>) {
    |attempts| == |calls| - 1 && forall j | 0 <= j < |attempts| :: Earned(rules, calls, attempts, j)
  }

  /** One more retry that the last call earned keeps all of them earned. */
  lemma OneMoreEarned(rules: Registry, calls: seq<Call>, attempts: seq<Attempt>, c: Call, a: Attempt)
    requires AllEarned(rules, calls, attempts) && |calls| > 0
    requires a.source in rules && rules[a.source].strategy == a.strategy && 1 <= a.number <= rules[a.source].maxAttempts
    requires a.strategy == RepeatCall <==> c.request == Original
    requires if a.strategy == ContinueGeneration && a.number > 1
             then |attempts| > 0 && attempts[|attempts| - 1] == a.(number := a.number - 1) && !IsTextOnly(Last(calls))
             else CallsForRetry(rules, Last(calls), a.source, a.strategy)
    ensures AllEarned(rules, calls + [c], attempts + [a])
  {
    var made, noted := calls + [c], attempts + [a];
    forall j | 0 <= j < |noted| ensures Earned(rules, made, noted, j) {
      if j < |attempts| {
        assert Earned(rules, calls, attempts, j);
      }
    }
  }

  lemma DecisionCalls(rules: Registry, r: AgentRunResult)
    requires ValidRegistry(rules) && Source(r).Some? && DecideFor(rules, Source(r).value).Allowed?
    ensures var d := DecideFor(rules, Source(r).value);
            && d.key in rules && d.spec == rules[d.key] && CallsForRetry(rules, r, d.key, d.spec.strategy)
            && (d.spec.strategy == RepeatCall || d.spec.strategy == ContinueGeneration) && d.spec.maxAttempts > 0
  {
    assert Validate(rules[Source(r).value.key]) == None;
  }

  lemma {:induction false} ContinuesEarned(rules: Registry, adapter: Adapter, rule: Decision,
                                           truncated: AgentRunResult, source: RuleKey, calls: seq<Call>,
                                           attempts: seq<Attempt>, k: nat)
    requires rule.Allowed? && source in rules && rule.spec == rules[source] && rule.spec.strategy == ContinueGeneration
    requires k >= 1 && |calls| > 0
    requires AllEarned(rules, calls, attempts)
    requires if k == 1 then CallsForRetry(rules, Last(calls), source, ContinueGeneration)
             else
               |attempts| > 0 && attempts[|attempts| - 1] == Attempt(ContinueGeneration, k - 1, source)
               && !IsTextOnly(Last(calls))
    ensures var o := Continues(adapter, rule, truncated, source, calls, attempts, k);
            AllEarned(rules, o.calls, o.attempts)
    decreases rule.spec.maxAttempts + 1 - k
  {
    if k <= rule.spec.maxAttempts {
      var request := Continuation(TextOf(truncated));
      var result := adapter(|calls|, request);
      var c, a := Call(request, result), Attempt(ContinueGeneration, k, source);
      OneMoreEarned(rules, calls, attempts, c, a);
      assert Last(calls + [c]) == result;
      if !IsTextOnly(result) {
        ContinuesEarned(rules, adapter, rule, truncated, source, calls + [c], attempts + [a], k + 1);
      }
    }
  }

  lemma {:induction false} RepeatsEarned(rules: Registry, adapter: Adapter, rule: Decision, source: RuleKey,
                                         calls: seq<Call>, attempts: seq<Attempt>, k: nat)
    requires ValidRegistry(rules) && rule.Allowed? && rule.key == source && source in rules
             && rule.spec == rules[source]
    requires rule.spec.strategy == RepeatCall && k >= 1 && |calls| > 0 && AllEarned(rules, calls, attempts)
    requires k <= rule.spec.maxAttempts ==> CallsForRetry(rules, Last(calls), source, RepeatCall)
    ensures var o := Repeats(rules, adapter, rule, source, calls, attempts, k);
            AllEarned(rules, o.calls, o.attempts)
    decreases rule.spec.maxAttempts + 1 - k
  {
    if k <= rule.spec.maxAttempts {
      var result := adapter(|calls|, Original);
      var c, a := Call(Original, result), Attempt(RepeatCall, k, source);
      OneMoreEarned(rules, calls, attempts, c, a);
      assert Last(calls + [c]) == result;
      if Source(result).Some? {
        var next := DecideFor(rules, Source(result).value);
        if next.Allowed? {
          DecisionCalls(rules, result);
          if next.spec.strategy != RepeatCall {
            ContinuesEarned(rules, adapter, next, result, next.key, calls + [c], attempts + [a], 1);
          } else if next.key == rule.key {
            RepeatsEarned(rules, adapter, rule, next.key, calls + [c], attempts + [a], k + 1);
          }
        }
      }
    }
  }

  /**
   * Every call a run makes beyond its first was called for: the call before it failed or was cut off under a key whose
   * enabled rule applies to it and reported no tool results, within that rule's attempts; or it is a further attempt of
   * a continuation that began so and has not yet given plain text.
   */
  lemma RetriesEarned(rules: Registry, adapter: Adapter)
    requires ValidRegistry(rules)
    ensures var o := Run(rules, adapter); AllEarned(rules, o.calls, o.attempts)
  {
    var result := adapter(0, Original);
    var calls: seq<Call> := [Call(Original, result)];
    assert AllEarned(rules, calls, []);
    if Source(result).Some? {
      var rule := DecideFor(rules, Source(result).value);
      if rule.Allowed? {
        DecisionCalls(rules, result);
        if rule.spec.strategy == RepeatCall {
          RepeatsEarned(rules, adapter, rule, rule.key, calls, [], 1);
        } else {
          ContinuesEarned(rules, adapter, rule, result, rule.key, calls, [], 1);
        }
      }
    }
  }

  // ---------------------------------------------------------------- no call after reported tool results

  lemma {:induction false} RepeatsQuietly(rules: Registry, adapter: Adapter, rule: Decision, source: RuleKey,
                                          calls: seq<Call>, attempts: seq<Attempt>, k: nat, repeats: int)
    requires ValidRegistry(rules) && Budgets(rules, repeats, 1)
    requires rule.Allowed? && |calls| > 0 && 1 <= k <= rule.spec.maxAttempts + 1
    requires forall i | 0 <= i < |calls| :: calls[i].result.toolResults == []
    ensures OnlyLastExecuted(Repeats(rules, adapter, rule, source, calls, attempts, k).calls)
    decreases rule.spec.maxAttempts + 1 - k
  {
    if k <= rule.spec.maxAttempts {
      var result := adapter(|calls|, Original);
      var made, noted := calls + [Call(Original, result)], attempts + [Attempt(RepeatCall, k, source)];
      if Source(result).Some? {
        var next := DecideFor(rules, Source(result).value);
        if next.Allowed? {
          AllowedFacts(rules, result);
          if next.spec.strategy != RepeatCall {
            ContinuesQuietly(adapter, next, result, next.key, made, noted);
          } else if next.key == rule.key {
            RepeatsQuietly(rules, adapter, rule, next.key, made, noted, k + 1, repeats);
          }
        }
      }
    }
  }

  predicate ContinuesTwice(key: RuleKey, spec: RetrySpec) {
    Reachable(key, spec) && spec.strategy != RepeatCall && spec.maxAttempts > 1
  }

  ghost function Largest(rules: Registry, keys: set<RuleKey>): (n: int)
    requires keys <= rules.Keys
    ensures forall k | k in keys :: rules[k].maxAttempts <= n
  {
    if keys == {} then 0
    else
      var k :| k in keys;
      var rest := Largest(rules, keys - {k});
      assert keys == keys - {k} + {k};
      if rules[k].maxAttempts > rest then rules[k].maxAttempts else rest
  }

  lemma NoRetryAfterTool(rules: Registry, adapter: Adapter)
    requires ValidRegistry(rules) && forall k | k in rules :: !ContinuesTwice(k, rules[k])
    ensures OnlyLastExecuted(Run(rules, adapter).calls)
  {
    var result := adapter(0, Original);
    var calls: seq<Call> := [Call(Original, result)];
    var repeats := Largest(rules, rules.Keys);
    assert Budgets(rules, repeats, 1);
    if Source(result).Some? {
      var rule := DecideFor(rules, Source(result).value);
      if rule.Allowed? {
        AllowedFacts(rules, result);
        if rule.spec.strategy == RepeatCall {
          assert Validate(rule.spec) == None;
          RepeatsQuietly(rules, adapter, rule, rule.key, calls, [], 1, repeats);
        } else {
          ContinuesQuietly(adapter, rule, result, rule.key, calls, []);
        }
      }
    }
  }

  /** Fails once under `key`, then executes a tool on every further call. */
  function FailThenTool(key: RuleKey): Adapter {
    (n: nat, request: AdapterRequest) => if n == 0 then Failing(key.0, key.1) else Answer("", ["tool"], false)
  }

  lemma RetryAfterTool(rules: Registry, key: RuleKey)
    requires ValidRegistry(rules) && key in rules && ContinuesTwice(key, rules[key])
    ensures !OnlyLastExecuted(Run(rules, FailThenTool(key)).calls)
  {
    var adapter := FailThenTool(key);
    var result, answer := Failing(key.0, key.1), Answer("", ["tool"], false);
    assert adapter(0, Original) == result && adapter(1, Continuation("")) == answer;
    assert |answer.toolResults| == 1;
    assert Validate(rules[key]) == None;
    assert FailureKey(result) == Some(key);
    var rule := DecideFor(rules, Source(result).value);
    assert rule == Allowed(key, rules[key]);
    var request := Continuation("");
    var calls1: seq<Call> := [Call(Original, result)];
    var calls2: seq<Call> := calls1 + [Call(request, answer)];
    var noted := [Attempt(ContinueGeneration, 1, key)];
    assert Run(rules, adapter) == Continues(adapter, rule, result, key, calls1, [], 1);
    assert TextOf(result) == "" && adapter(|calls1|, request) == answer && !IsTextOnly(answer);
    assert [] + noted == noted;
    assert Run(rules, adapter) == Continues(adapter, rule, result, key, calls2, noted, 2);
    KeepsCalls(adapter, rule, result, key, calls2, noted, 2);
    assert Run(rules, adapter).calls[1] == calls2[1];
  }

  lemma {:induction false} KeepsCalls(adapter: Adapter, rule: Decision, truncated: AgentRunResult, source: RuleKey,
                                      calls: seq<Call>, attempts: seq<Attempt>, k: nat)
    requires rule.Allowed?
    ensures var made := Continues(adapter, rule, truncated, source, calls, attempts, k).calls;
            calls <= made && (k <= rule.spec.maxAttempts ==> |made| > |calls|)
    decreases rule.spec.maxAttempts + 1 - k
  {
    if k <= rule.spec.maxAttempts {
      var request := Continuation(TextOf(truncated));
      var result := adapter(|calls|, request);
      if !IsTextOnly(result) {
        KeepsCalls(adapter, rule, truncated, source, calls + [Call(request, result)],
                   attempts + [Attempt(ContinueGeneration, k, source)], k + 1);
      }
    }
  }

  /**
   * No call ever follows a call that executed a tool, whatever the adapter does, exactly when no applicable
   * continuation rule allows a second attempt.
   */
  lemma ToolEndsTheRun(rules: Registry)
    requires ValidRegistry(rules)
    ensures (forall adapter :: OnlyLastExecuted(Run(rules, adapter).calls))
            <==> (forall k | k in rules :: !ContinuesTwice(k, rules[k]))
  {
    if forall k | k in rules :: !ContinuesTwice(k, rules[k]) {
      forall adapter ensures OnlyLastExecuted(Run(rules, adapter).calls) {
        NoRetryAfterTool(rules, adapter);
      }
    } else {
      var k :| k in rules && ContinuesTwice(k, rules[k]);
      RetryAfterTool(rules, k);
    }
  }

  /** Under the default rules at most the last call reports tool results. */
  lemma DefaultToolEndsTheRun(adapter: Adapter)
    ensures OnlyLastExecuted(Run(DefaultRegistry(), adapter).calls)
  {
    DefaultRegistryValid();
    NoRetryAfterTool(DefaultRegistry(), adapter);
  }

  // ---------------------------------------------------------------- truncated answers

  lemma {:induction false} ContinuesLast(adapter: Adapter, rule: Decision, truncated: AgentRunResult, source: RuleKey,
                                         calls: seq<Call>, attempts: seq<Attempt>, k: nat)
    requires rule.Allowed? && |calls| > 0
    requires k <= rule.spec.maxAttempts || calls[|calls| - 1].request.Continuation?
    ensures var o := Continues(adapter, rule, truncated, source, calls, attempts, k);
            |o.calls| >= |calls| && o.calls[|o.calls| - 1].request.Continuation? && !Truncated(o.result)
    decreases rule.spec.maxAttempts + 1 - k
  {
    if k <= rule.spec.maxAttempts {
      var request := Continuation(TextOf(truncated));
      var result := adapter(|calls|, request);
      if !IsTextOnly(result) {
        ContinuesLast(adapter, rule, truncated, source, calls + [Call(request, result)],
                      attempts + [Attempt(ContinueGeneration, k, source)], k + 1);
      }
    }
  }

  lemma {:induction false} RepeatsTruncated(rules: Registry, adapter: Adapter, rule: Decision, source: RuleKey,
                                            calls: seq<Call>, attempts: seq<Attempt>, k: nat)
    requires ValidRegistry(rules)
    requires rule.Allowed? && |calls| > 0
    requires calls[|calls| - 1].request == Original
    ensures var o := Repeats(rules, adapter, rule, source, calls, attempts, k);
            && |o.calls| >= |calls| && (k <= rule.spec.maxAttempts ==> |o.calls| > |calls|)
            && (Truncated(o.result) <==> o.calls[|o.calls| - 1].request == Original && Truncated(Last(o.calls)))
    decreases rule.spec.maxAttempts + 1 - k
  {
    if k <= rule.spec.maxAttempts {
      var result := adapter(|calls|, Original);
      var made, noted := calls + [Call(Original, result)], attempts + [Attempt(RepeatCall, k, source)];
      assert Last(made) == result;
      if Source(result).Some? {
        var next := DecideFor(rules, Source(result).value);
        if next.Allowed? {
          AllowedFacts(rules, result);
          assert Validate(next.spec) == None;
          if next.spec.strategy != RepeatCall {
            ContinuesLast(adapter, next, result, next.key, made, noted, 1);
          } else if next.key == rule.key {
            RepeatsTruncated(rules, adapter, rule, next.key, made, noted, k + 1);
          }
        }
      }
    }
  }

  /**
   * An answer cut off at the output limit is returned as completed exactly when it came from a repeated call:
   * a first answer cut off becomes a failure or a continuation, but a repeat that ends that way is handed back as it is
   * unless a continuation follows it.
   */
  lemma TruncatedSurfaces(rules: Registry, adapter: Adapter)
    requires ValidRegistry(rules)
    ensures var o := Run(rules, adapter);
            && |o.calls| > 0
            && (Truncated(o.result) <==>
                |o.calls| > 1 && o.calls[|o.calls| - 1].request == Original && Truncated(Last(o.calls)))
  {
    var result := adapter(0, Original);
    var calls: seq<Call> := [Call(Original, result)];
    if Source(result).Some? {
      var rule := DecideFor(rules, Source(result).value);
      if rule.Allowed? {
        AllowedFacts(rules, result);
        assert Validate(rule.spec) == None;
        if rule.spec.strategy == RepeatCall {
          RepeatsTruncated(rules, adapter, rule, rule.key, calls, [], 1);
        } else {
          ContinuesLast(adapter, rule, result, rule.key, calls, [], 1);
        }
      }
    }
  }

  function TimeoutThenCut(): Adapter {
    (n: nat, request: AdapterRequest) => if n == 0 then Failing("model_error", "provider_timeout")
    else Answer("cut", ["tool"], true)
  }

  /** Under the default rules a repeat that ran tools and was then cut off comes back as a completed answer. */
  lemma TruncatedRepeatReturned()
    ensures Truncated(Run(DefaultRegistry(), TimeoutThenCut()).result)
  {
    var rules, adapter := DefaultRegistry(), TimeoutThenCut();
    var failed, cut := Failing("model_error", "provider_timeout"), Answer("cut", ["tool"], true);
    assert adapter(0, Original) == failed && adapter(1, Original) == cut;
    assert |cut.toolResults| == 1;
    var rule := DecideFor(rules, Source(failed).value);
    assert rule.Allowed? && rule.spec.strategy == RepeatCall;
    assert Run(rules, adapter) == Repeats(rules, adapter, rule, rule.key, [Call(Original, failed)], [], 1);
  }
}
