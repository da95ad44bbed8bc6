/** The execution wrapper every agent inherits (agents/base_agent.py): a status
    machine IDLE -> RUNNING -> COMPLETED/ERROR, a bounded retry loop with
    exponential backoff, success/failure/retry counters, a dependency check, an
    output cache, statistics and reset.

    The agent's own `execute` is an input: `exec(i)` is what it does on the
    i-th attempt (0-based) of one `run`. Clock readings are inputs too (`start`
    and `end` of the run), and the backoff sleeps are returned as the list of
    delays, in seconds, that `run` waits for. */
module BaseAgentModel {
  import opened Wrappers
  import opened JsonValue
  import opened PyText

  datatype AgentStatus = Idle | Running | Completed | Error | Paused | Cancelled

  /** `AgentStatus.value` */
  function StatusValue(s: AgentStatus): string {
    match s
    case Idle => "idle"
    case Running => "running"
    case Completed => "completed"
    case Error => "error"
    case Paused => "paused"
    case Cancelled => "cancelled"
  }

  /** What the agent's `execute` does on one attempt: returns its payload
      dictionary or raises. */
  datatype ExecResult = ExecReturns(payload: map<string, Json>) | ExecRaises(error: PyError)


  /** The dictionary `run` returns. `timestamp` is the end-of-run clock reading. */
  datatype Envelope =
    | SuccessEnvelope(agent: string, phase: string, executionTime: real, attempt: nat,
                      result: map<string, Json>, timestamp: real)
    | ErrorEnvelope(agent: string, phase: string, executionTime: real, attempts: nat,
                    error: string, errorType: string, timestamp: real)
    | UnknownErrorEnvelope(agent: string, phase: string)
  {
    /** The envelope's "status" key. */
    function Status(): string {
      if SuccessEnvelope? then "success" else "error"
    }
  }

  /** The attributes `run`, `post_execute` and `reset_stats` change.
      `outputCache` is JNull when the Python attribute is None. */
  datatype Runtime = Runtime(
    status: AgentStatus, successCount: nat, failureCount: nat,
    lastExecutionTime: real, totalExecutionTime: real, lastRunAt: Option<real>,
    outputCache: Json, retryCount: nat)

  /** Every attribute of a BaseAgent, as one value. */
  datatype AgentState = AgentState(
    name: string, phase: string, description: string, dependencies: seq<string>,
    createdAt: real, config: map<string, Json>, context: map<string, Json>,
    maxRetries: int, rt: Runtime)

  /** The state `__init__` builds; `dependencies or []` turns None into []. */
  function InitialState(name: string, phase: string, description: string,
                        dependencies: Option<seq<string>>, now: real): (s: AgentState)
    ensures s.rt.status == Idle && s.rt.successCount == 0 && s.rt.failureCount == 0
    ensures s.rt.retryCount == 0 && s.rt.outputCache == JNull && s.rt.lastRunAt == None
    ensures s.maxRetries == 3 && s.config == map[] && s.context == map[] && s.createdAt == now
    ensures dependencies == None ==> s.dependencies == []
    ensures dependencies.Some? ==> s.dependencies == dependencies.value
  {
    AgentState(name, phase, description, dependencies.GetOr([]), now, map[], map[], 3,
               Runtime(Idle, 0, 0, 0.0, 0.0, None, JNull, 0))
  }

  /** Python's `name in container` for a string name, as `validate_dependencies`
      applies it to `input_data.get("agent_results", {})`: key test on a dict,
      element test on a list, substring test on a str, TypeError otherwise. */
  function MemberOf(name: string, container: Json): Outcome<bool> {
    match container
    case JObj(m) => Returns(name in m)
    case JList(xs) => Returns(JStr(name) in xs)
    case JStr(s) => Returns(Contains(s, name))
    case JNull => Raises(PyError("TypeError", "argument of type 'NoneType' is not iterable"))
    case JBool(_) => Raises(PyError("TypeError", "argument of type 'bool' is not iterable"))
    case JInt(_) => Raises(PyError("TypeError", "argument of type 'int' is not iterable"))
    case JFloat(_) => Raises(PyError("TypeError", "argument of type 'float' is not iterable"))
  }

  /** The loop of `validate_dependencies`: stops at the first missing name. */
  function AllMembers(deps: seq<string>, container: Json): Outcome<bool> {
    if deps == [] then Returns(true)
    else
      match MemberOf(deps[0], container)
      case Raises(e) => Raises(e)
      case Returns(found) => if !found then Returns(false) else AllMembers(deps[1..], container)
  }

  /** `validate_dependencies(input_data)` for the given dependency list. */
  function ValidateDependencies(deps: seq<string>, input: map<string, Json>): Outcome<bool> {
    if deps == [] then Returns(true)
    else AllMembers(deps, Get(input, "agent_results", JObj(map[])))
  }

  /** With results held in a dict (or absent, read as `{}`), the check passes
      exactly when every declared name is a key of that dict. */
  lemma {:induction false} DependenciesMetIff(deps: seq<string>, results: map<string, Json>)
    ensures AllMembers(deps, JObj(results)) == Returns(forall d :: d in deps ==> d in results)
  {
    if deps != [] {
      DependenciesMetIff(deps[1..], results);
      assert forall d :: d in deps <==> d == deps[0] || d in deps[1..];
    }
  }

  lemma ValidateDependenciesSpec(deps: seq<string>, input: map<string, Json>)
    requires "agent_results" !in input || input["agent_results"].JObj?
    ensures ValidateDependencies(deps, input) ==
      Returns(forall d :: d in deps ==>
                "agent_results" in input && d in input["agent_results"].fields)
  {
    if deps != [] {
      var results := if "agent_results" in input then input["agent_results"].fields else map[];
      DependenciesMetIff(deps, results);
    }
  }

  /** One pass through the body of the retry `try`: `pre_execute` (whose
      dependency check raises ValueError, or lets a TypeError escape) and then
      `execute`. `post_execute` cannot raise on a dict payload. */
  function Attempt(deps: seq<string>, name: string, input: map<string, Json>, exec: nat -> ExecResult, i: nat): ExecResult {
    match ValidateDependencies(deps, input)
    case Raises(e) => ExecRaises(e)
    case Returns(ok) =>
      if ok then exec(i)
      else ExecRaises(PyError("ValueError", "Dependencies not met for " + name))
  }

  /** The first attempt index in [from, maxRetries] whose attempt returns. */
  function FirstSuccess(s: AgentState, input: map<string, Json>, exec: nat -> ExecResult, from: nat): (r: Option<nat>)
    ensures r.Some? ==> from <= r.value <= s.maxRetries && Attempt(s.dependencies, s.name, input, exec, r.value).ExecReturns?
    ensures r.Some? ==> forall i :: from <= i < r.value ==> Attempt(s.dependencies, s.name, input, exec, i).ExecRaises?
    ensures r.None? ==> forall i :: from <= i <= s.maxRetries ==> Attempt(s.dependencies, s.name, input, exec, i).ExecRaises?
    decreases s.maxRetries + 1 - from
  {
    if from > s.maxRetries then None
    else if Attempt(s.dependencies, s.name, input, exec, from).ExecReturns? then Some(from)
    else FirstSuccess(s, input, exec, from + 1)
  }

  function Pow2(n: nat): (r: nat)
    ensures r >= 1
  {
    if n == 0 then 1 else 2 * Pow2(n - 1)
  }

  /** The sleeps `2 ** attempt` taken after failed attempts 1..j. */
  function Backoffs(j: nat): (r: seq<nat>)
  {
    if j == 0 then [] else Backoffs(j - 1) + [Pow2(j)]
  }

  /** `post_execute`: the payload's own "status" decides whether its "result"
      replaces the cache. */
  function CacheAfter(cache: Json, payload: map<string, Json>): Json {
    if Get(payload, "status", JNull) == JStr("success") then Get(payload, "result", JNull) else cache
  }

  /** The attributes after the attempt that returned `payload`. */
  function SucceededState(r: Runtime, payload: map<string, Json>, start: real, end: real): Runtime {
    r.(status := Completed, successCount := r.successCount + 1, retryCount := 0,
       lastExecutionTime := end - start, totalExecutionTime := r.totalExecutionTime + (end - start),
       outputCache := CacheAfter(r.outputCache, payload))
  }

  /** The attributes after the last allowed attempt raised. */
  function FailedState(r: Runtime, start: real, end: real): Runtime {
    r.(status := Error, failureCount := r.failureCount + 1, lastExecutionTime := end - start)
  }

  /** The whole effect of one `run`: the new run-time attributes, the envelope
      and the backoff delays waited for. Nothing else changes. */
  function RunSpec(s: AgentState, input: map<string, Json>, exec: nat -> ExecResult,
                   start: real, end: real): (Runtime, Envelope, seq<nat>)
  {
    var running := s.rt.(status := Running, lastRunAt := Some(start));
    if s.maxRetries < 0 then
      (running.(status := Idle), UnknownErrorEnvelope(s.name, s.phase), [])
    else
      match FirstSuccess(s, input, exec, 0)
      case Some(k) =>
        var payload := Attempt(s.dependencies, s.name, input, exec, k).payload;
        (SucceededState(running.(retryCount := if k == 0 then s.rt.retryCount else k), payload, start, end),
         SuccessEnvelope(s.name, s.phase, end - start, k + 1, payload, end),
         Backoffs(k))
      case None =>
        var last := Attempt(s.dependencies, s.name, input, exec, s.maxRetries as nat).error;
        (FailedState(running.(retryCount := s.maxRetries as nat + 1), start, end),
         ErrorEnvelope(s.name, s.phase, end - start, s.maxRetries as nat + 1, last.message, last.kind, end),
         Backoffs(s.maxRetries as nat))
  }

  /** RunSpec when attempt k is the first to return. */
  lemma RunSpecSuccess(s: AgentState, input: map<string, Json>, exec: nat -> ExecResult,
                       start: real, end: real, k: nat, payload: map<string, Json>, r: Runtime)
    requires FirstSuccess(s, input, exec, 0) == Some(k)
    requires Attempt(s.dependencies, s.name, input, exec, k) == ExecReturns(payload)
    requires r == s.rt.(status := Running, lastRunAt := Some(start),
                        retryCount := if k == 0 then s.rt.retryCount else k)
    ensures RunSpec(s, input, exec, start, end) ==
      (SucceededState(r, payload, start, end),
       SuccessEnvelope(s.name, s.phase, end - start, k + 1, payload, end), Backoffs(k))
  {
  }

  /** RunSpec when no attempt returns; `last` is what the final attempt raised. */
  lemma RunSpecFailure(s: AgentState, input: map<string, Json>, exec: nat -> ExecResult,
                       start: real, end: real, last: PyError, r: Runtime)
    requires s.maxRetries >= 0 && FirstSuccess(s, input, exec, 0) == None
    requires Attempt(s.dependencies, s.name, input, exec, s.maxRetries as nat) == ExecRaises(last)
    requires r == s.rt.(status := Running, lastRunAt := Some(start), retryCount := s.maxRetries as nat + 1)
    ensures RunSpec(s, input, exec, start, end) ==
      (FailedState(r, start, end),
       ErrorEnvelope(s.name, s.phase, end - start, s.maxRetries as nat + 1, last.message, last.kind, end),
       Backoffs(s.maxRetries as nat))
  {
  }

  lemma {:induction false} FirstSuccessNone(s: AgentState, input: map<string, Json>, exec: nat -> ExecResult, from: nat)
    requires forall i :: from <= i <= s.maxRetries ==> Attempt(s.dependencies, s.name, input, exec, i).ExecRaises?
    ensures FirstSuccess(s, input, exec, from) == None
    decreases s.maxRetries + 1 - from
  {
    if from <= s.maxRetries {
      FirstSuccessNone(s, input, exec, from + 1);
    }
  }

  lemma {:induction false} FirstSuccessAt(s: AgentState, input: map<string, Json>, exec: nat -> ExecResult, from: nat, k: nat)
    requires from <= k <= s.maxRetries
    requires forall i :: from <= i < k ==> Attempt(s.dependencies, s.name, input, exec, i).ExecRaises?
    requires Attempt(s.dependencies, s.name, input, exec, k).ExecReturns?
    ensures FirstSuccess(s, input, exec, from) == Some(k)
    decreases k - from
  {
    if from < k {
      FirstSuccessAt(s, input, exec, from + 1, k);
    }
  }

  /** Every attempt fails: max_retries + 1 attempts, an error envelope, one more
      failure, no more successes, status ERROR, retry_count = max_retries + 1,
      and a wait after every attempt but the last. */
  lemma RunAllAttemptsFail(s: AgentState, input: map<string, Json>, exec: nat -> ExecResult, start: real, end: real)
    requires s.maxRetries >= 0
    requires forall i :: 0 <= i <= s.maxRetries ==> Attempt(s.dependencies, s.name, input, exec, i).ExecRaises?
    ensures var (r, env, waits) := RunSpec(s, input, exec, start, end);
      && env.ErrorEnvelope? && env.Status() == "error" && env.attempts == s.maxRetries + 1
      && r.failureCount == s.rt.failureCount + 1 && r.successCount == s.rt.successCount
      && r.status == Error && r.retryCount == s.maxRetries + 1
      && r.outputCache == s.rt.outputCache && r.totalExecutionTime == s.rt.totalExecutionTime
      && |waits| == s.maxRetries
  {
    FirstSuccessNone(s, input, exec, 0);
    BackoffsShape(s.maxRetries as nat);
  }

  /** A missing dependency makes every attempt raise ValueError before
      `execute` runs, so it is retried like any other failure. */
  lemma {:induction false} MissingDependencyIsRetried(s: AgentState, input: map<string, Json>, exec: nat -> ExecResult, start: real, end: real)
    requires s.maxRetries >= 0
    requires ValidateDependencies(s.dependencies, input) == Returns(false)
    ensures var (r, env, _) := RunSpec(s, input, exec, start, end);
      && env.ErrorEnvelope? && env.attempts == s.maxRetries + 1 && env.errorType == "ValueError"
      && r.failureCount == s.rt.failureCount + 1 && r.status == Error
  {
    FirstSuccessNone(s, input, exec, 0);
  }

  /** The first k attempts fail and attempt k + 1 returns: a success envelope
      with attempt = k + 1, one more success, failures unchanged, status
      COMPLETED, retry_count back to 0, and k backoff waits. */
  lemma RunSucceedsAfterFailures(s: AgentState, input: map<string, Json>, exec: nat -> ExecResult, start: real, end: real, k: nat)
    requires k <= s.maxRetries
    requires forall i :: 0 <= i < k ==> Attempt(s.dependencies, s.name, input, exec, i).ExecRaises?
    requires Attempt(s.dependencies, s.name, input, exec, k).ExecReturns?
    ensures var (r, env, waits) := RunSpec(s, input, exec, start, end);
      && env.SuccessEnvelope? && env.Status() == "success" && env.attempt == k + 1
      && env.result == Attempt(s.dependencies, s.name, input, exec, k).payload
      && r.successCount == s.rt.successCount + 1 && r.failureCount == s.rt.failureCount
      && r.status == Completed && r.retryCount == 0
      && r.totalExecutionTime == s.rt.totalExecutionTime + (end - start)
      && |waits| == k
  {
    FirstSuccessAt(s, input, exec, 0, k);
    BackoffsShape(k);
  }

  /** The cache is overwritten only when the payload's own status is "success". */
  lemma RunCacheRule(s: AgentState, input: map<string, Json>, exec: nat -> ExecResult, start: real, end: real)
    ensures var (r, env, _) := RunSpec(s, input, exec, start, end);
      r.outputCache != s.rt.outputCache ==>
        env.SuccessEnvelope? && Get(env.result, "status", JNull) == JStr("success")
        && r.outputCache == Get(env.result, "result", JNull)
  {
  }

  lemma {:induction false} BackoffsShape(j: nat)
    ensures |Backoffs(j)| == j
    ensures forall i :: 0 <= i < j ==> Backoffs(j)[i] == Pow2(i + 1)
  {
    if j > 0 {
      BackoffsShape(j - 1);
    }
  }

  /** The waits of one run are 2^1, 2^2, ..., 2^j, one per failed attempt that
      is followed by another attempt; none follows the last attempt. */
  lemma {:induction false} RunBackoffs(s: AgentState, input: map<string, Json>, exec: nat -> ExecResult, start: real, end: real)
    ensures var (_, env, waits) := RunSpec(s, input, exec, start, end);
      && (forall i :: 0 <= i < |waits| ==> waits[i] == Pow2(i + 1))
      && (env.SuccessEnvelope? ==> |waits| == env.attempt - 1)
      && (env.ErrorEnvelope? ==> |waits| == env.attempts - 1)
      && (env.UnknownErrorEnvelope? ==> waits == [])
  {
    if s.maxRetries >= 0 {
      match FirstSuccess(s, input, exec, 0)
      case Some(k) => BackoffsShape(k);
      case None => BackoffsShape(s.maxRetries as nat);
    }
  }

  /** A negative max_retries skips the loop: the "Unknown execution error"
      envelope, status IDLE, and no counter changes. */
  lemma NegativeRetriesNeverRun(s: AgentState, input: map<string, Json>, exec: nat -> ExecResult, start: real, end: real)
    requires s.maxRetries < 0
    ensures var (r, env, waits) := RunSpec(s, input, exec, start, end);
      && env == UnknownErrorEnvelope(s.name, s.phase) && waits == []
      && r.status == Idle && r.successCount == s.rt.successCount
      && r.failureCount == s.rt.failureCount && r.retryCount == s.rt.retryCount
  {
  }

  /** The `get_stats` dictionary (without `round`; times are exact reals). */
  datatype Stats = Stats(
    name: string, phase: string, description: string, status: string,
    successCount: nat, failureCount: nat, successRate: real,
    lastExecutionTime: real, averageExecutionTime: real, totalExecutionTime: real,
    retryCount: nat, dependencies: seq<string>, createdAt: real, lastRunAt: Option<real>)

  /** `get_stats()`: reads the state and changes nothing. */
  function StatsOf(s: AgentState): (st: Stats)
    ensures 0.0 <= st.successRate <= 100.0
    ensures st.successRate * ((s.rt.successCount + s.rt.failureCount) as real) == 100.0 * s.rt.successCount as real
    ensures s.rt.successCount + s.rt.failureCount == 0 ==> st.successRate == 0.0 && st.averageExecutionTime == 0.0
    ensures st.successRate == 100.0 <==> s.rt.successCount > 0 && s.rt.failureCount == 0
    ensures st.successCount == s.rt.successCount && st.failureCount == s.rt.failureCount
    ensures st.retryCount == s.rt.retryCount && st.status == StatusValue(s.rt.status)
    ensures s.rt.successCount + s.rt.failureCount > 0 ==>
      st.averageExecutionTime * ((s.rt.successCount + s.rt.failureCount) as real) == s.rt.totalExecutionTime
    ensures st.totalExecutionTime == s.rt.totalExecutionTime && st.lastExecutionTime == s.rt.lastExecutionTime
    ensures st.name == s.name && st.phase == s.phase && st.description == s.description
    ensures st.dependencies == s.dependencies && st.createdAt == s.createdAt && st.lastRunAt == s.rt.lastRunAt
  {
    var r := s.rt;
    var total := r.successCount + r.failureCount;
    var rate := if total > 0 then r.successCount as real / total as real * 100.0 else 0.0;
    var avg := if total > 0 then r.totalExecutionTime / total as real else 0.0;
    Stats(s.name, s.phase, s.description, StatusValue(r.status), r.successCount, r.failureCount,
          rate, r.lastExecutionTime, avg, r.totalExecutionTime, r.retryCount, s.dependencies,
          s.createdAt, r.lastRunAt)
  }

  /** `reset_stats()`: counters, times, status and cache go back to their
      initial values; last_run_at is kept. */
  function ResetOf(r: Runtime): (r': Runtime)
    ensures r'.successCount == 0 && r'.failureCount == 0 && r'.retryCount == 0
    ensures r'.lastExecutionTime == 0.0 && r'.totalExecutionTime == 0.0
    ensures r'.status == Idle && r'.outputCache == JNull
    ensures r'.lastRunAt == r.lastRunAt
  {
    r.(successCount := 0, failureCount := 0, lastExecutionTime := 0.0, totalExecutionTime := 0.0,
       retryCount := 0, status := Idle, outputCache := JNull)
  }

  /** Resetting twice is resetting once; a reset agent's run-time attributes
      are those of a fresh agent apart from last_run_at; its statistics show
      zero counts, a zero rate and status "idle". */
  lemma ResetIdempotent(s: AgentState, name: string, phase: string, description: string,
                        dependencies: Option<seq<string>>, now: real)
    ensures ResetOf(ResetOf(s.rt)) == ResetOf(s.rt)
    ensures ResetOf(s.rt).(lastRunAt := None) == InitialState(name, phase, description, dependencies, now).rt
    ensures var st := StatsOf(s.(rt := ResetOf(s.rt)));
      st.successCount == 0 && st.failureCount == 0 && st.successRate == 0.0 && st.status == "idle"
  {
  }

  /** `configure(config)`: the config dict is updated, and max_retries is
      replaced only when the key is present (its value must be an int). */
  function ConfigureOf(s: AgentState, config: map<string, Json>): (r: AgentState)
    requires "max_retries" in config ==> config["max_retries"].JInt?
    ensures r.config.Keys == s.config.Keys + config.Keys
    ensures forall k :: k in config ==> r.config[k] == config[k]
    ensures forall k :: k in s.config && k !in config ==> r.config[k] == s.config[k]
    ensures "max_retries" in config ==> r.maxRetries == config["max_retries"].i
    ensures "max_retries" !in config ==> r.maxRetries == s.maxRetries
    ensures r.(config := s.config, maxRetries := s.maxRetries) == s
  {
    var merged := s.config + config;
    if "max_retries" in config then s.(config := merged, maxRetries := config["max_retries"].i)
    else s.(config := merged)
  }

  /** `set_context(context)`: the context dict is updated in place. */
  function SetContextOf(s: AgentState, context: map<string, Json>): (r: AgentState)
    ensures r.context.Keys == s.context.Keys + context.Keys
    ensures forall k :: k in context ==> r.context[k] == context[k]
    ensures forall k :: k in s.context && k !in context ==> r.context[k] == s.context[k]
    ensures r.(context := s.context) == s
  {
    s.(context := s.context + context)
  }

  /** A BaseAgent object. Its attributes are fields (those `__init__` alone
      sets are constants); `State()` reads them as one value, and each method
      states its effect through the functions above. */
  class BaseAgent {
    const name: string
    const phase: string
    const description: string
    const dependencies: seq<string>
    const createdAt: real
    var config: map<string, Json>
    var context: map<string, Json>
    var maxRetries: int
    var status: AgentStatus
    var successCount: nat
    var failureCount: nat
    var lastExecutionTime: real
    var totalExecutionTime: real
    var lastRunAt: Option<real>
    var outputCache: Json
    var retryCount: nat

    function RuntimeState(): Runtime
      reads this
    {
      Runtime(status, successCount, failureCount, lastExecutionTime, totalExecutionTime,
              lastRunAt, outputCache, retryCount)
    }

    function State(): AgentState
      reads this
    {
      AgentState(name, phase, description, dependencies, createdAt, config, context, maxRetries,
                 RuntimeState())
    }

    /** `__init__`; `now` is the `datetime.now()` reading for created_at. */
    constructor (name: string, phase: string, description: string, dependencies: Option<seq<string>>, now: real)
      ensures State() == InitialState(name, phase, description, dependencies, now)
    {
      this.name := name;
      this.phase := phase;
      this.description := description;
      this.dependencies := dependencies.GetOr([]);
      createdAt := now;
      config := map[];
      context := map[];
      maxRetries := 3;
      status := Idle;
      successCount := 0;
      failureCount := 0;
      lastExecutionTime := 0.0;
      totalExecutionTime := 0.0;
      lastRunAt := None;
      outputCache := JNull;
      retryCount := 0;
    }

    /** `pre_execute`: raises when the dependency check fails or raises. */
    method PreExecute(input: map<string, Json>) returns (r: Outcome<map<string, Json>>)
      ensures r.Returns? <==> ValidateDependencies(dependencies, input) == Returns(true)
      ensures r.Returns? ==> r.value == input
      ensures ValidateDependencies(dependencies, input).Raises? ==>
                r == Raises(ValidateDependencies(dependencies, input).error)
      ensures ValidateDependencies(dependencies, input) == Returns(false) ==>
                r == Raises(PyError("ValueError", "Dependencies not met for " + name))
    {
      match ValidateDependencies(dependencies, input)
      case Raises(e) => r := Raises(e);
      case Returns(ok) =>
        if !ok {
          r := Raises(PyError("ValueError", "Dependencies not met for " + name));
        } else {
          r := Returns(input);
        }
    }

    /** `post_execute`: caches the payload's "result" when its "status" is "success". */
    method PostExecute(payload: map<string, Json>) returns (r: map<string, Json>)
      modifies this`outputCache
      ensures r == payload
      ensures outputCache == CacheAfter(old(outputCache), payload)
    {
      if Get(payload, "status", JNull) == JStr("success") {
        outputCache := Get(payload, "result", JNull);
      }
      r := payload;
    }

    /** The body of the retry `try` up to `execute`: `pre_execute`, then the
        agent's `execute` for this attempt. */
    method TryOnce(input: map<string, Json>, exec: nat -> ExecResult, attempt: nat) returns (result: ExecResult)
      ensures result == Attempt(dependencies, name, input, exec, attempt)
    {
      var pre := PreExecute(input);
      result := if pre.Returns? then exec(attempt) else ExecRaises(pre.error);
    }

    /** What `run` does after an attempt returned `payload`: `post_execute`,
        the success counters and the success envelope. */
    method RecordSuccess(payload: map<string, Json>, attempt: nat, start: real, end: real) returns (env: Envelope)
      modifies this`outputCache, this`successCount, this`status, this`retryCount,
               this`lastExecutionTime, this`totalExecutionTime
      ensures RuntimeState() == SucceededState(old(RuntimeState()), payload, start, end)
      ensures env == SuccessEnvelope(name, phase, end - start, attempt + 1, payload, end)
    {
      var processed := PostExecute(payload);
      successCount := successCount + 1;
      status := Completed;
      retryCount := 0;
      var executionTime := end - start;
      lastExecutionTime := executionTime;
      totalExecutionTime := totalExecutionTime + executionTime;
      env := SuccessEnvelope(name, phase, executionTime, attempt + 1, processed, end);
    }

    /** What `run` does once the last allowed attempt raised `error`: the
        failure counters and the error envelope. */
    method RecordFailure(error: PyError, start: real, end: real) returns (env: Envelope)
      modifies this`failureCount, this`status, this`lastExecutionTime
      ensures RuntimeState() == FailedState(old(RuntimeState()), start, end)
      ensures env == ErrorEnvelope(name, phase, end - start, retryCount, error.message, error.kind, end)
    {
      failureCount := failureCount + 1;
      status := Error;
      var executionTime := end - start;
      lastExecutionTime := executionTime;
      env := ErrorEnvelope(name, phase, executionTime, retryCount, error.message, error.kind, end);
    }

    /** `run(input_data)` with its retry loop; only the run-time attributes change. */
    method Run(input: map<string, Json>, exec: nat -> ExecResult, start: real, end: real)
      returns (env: Envelope, waits: seq<nat>)
      modifies this`status, this`lastRunAt, this`successCount, this`failureCount, this`retryCount,
               this`lastExecutionTime, this`totalExecutionTime, this`outputCache
      ensures (RuntimeState(), env, waits) == RunSpec(old(State()), input, exec, start, end)
    {
      ghost var s0 := State();
      status := Running;
      lastRunAt := Some(start);
      var attempt: nat := 0;
      waits := [];
      while attempt <= maxRetries
        invariant RuntimeState() == s0.rt.(status := Running, lastRunAt := Some(start),
                                           retryCount := if attempt == 0 then s0.rt.retryCount else attempt)
        invariant s0.maxRetries >= 0 ==> attempt <= s0.maxRetries
        invariant s0.maxRetries < 0 ==> attempt == 0
        invariant FirstSuccess(s0, input, exec, 0) == FirstSuccess(s0, input, exec, attempt)
        invariant waits == Backoffs(attempt)
        decreases s0.maxRetries + 1 - attempt
      {
        var result := TryOnce(input, exec, attempt);
        if result.ExecReturns? {
          ghost var before := RuntimeState();
          env := RecordSuccess(result.payload, attempt, start, end);
          RunSpecSuccess(s0, input, exec, start, end, attempt, result.payload, before);
          return;
        }
        attempt := attempt + 1;
        retryCount := attempt;
        if attempt <= maxRetries {
          waits := waits + [Pow2(attempt)];
        } else {
          ghost var before := RuntimeState();
          env := RecordFailure(result.error, start, end);
          RunSpecFailure(s0, input, exec, start, end, result.error, before);
          return;
        }
      }
      status := Idle;
      env := UnknownErrorEnvelope(name, phase);
    }

    /** `get_stats()` */
    function GetStats(): (st: Stats)
      reads this
      ensures st == StatsOf(State())
    {
      StatsOf(State())
    }

    /** `reset_stats()` */
    method ResetStats()
      modifies this`successCount, this`failureCount, this`lastExecutionTime, this`totalExecutionTime,
               this`retryCount, this`status, this`outputCache
      ensures RuntimeState() == ResetOf(old(RuntimeState()))
    {
      successCount := 0;
      failureCount := 0;
      lastExecutionTime := 0.0;
      totalExecutionTime := 0.0;
      retryCount := 0;
      status := Idle;
      outputCache := JNull;
    }

    /** `configure(config)` */
    method Configure(config: map<string, Json>)
      requires "max_retries" in config ==> config["max_retries"].JInt?
      modifies this`config, this`maxRetries
      ensures State() == ConfigureOf(old(State()), config)
    {
      this.config := this.config + config;
      if "max_retries" in config {
        maxRetries := config["max_retries"].i;
      }
    }

    /** `set_context(context)` */
    method SetContext(context: map<string, Json>)
      modifies this`context
      ensures State() == SetContextOf(old(State()), context)
    {
      this.context := this.context + context;
    }

    /** `get_cached_output()` */
    function GetCachedOutput(): (r: Json)
      reads this
      ensures r == State().rt.outputCache
    {
      outputCache
    }
  }
}
