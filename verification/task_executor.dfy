/**
 * Execution: running a planned task's steps in step-number order, calling
 * each step's agent with the results gathered so far, and recording the
 * outcome on the step and task rows.
 */
module Executor {
  import opened Wrappers
  import opened JsonData
  import opened AgentModel
  import opened TaskModel
  import Registry
  import Strings

  /** An HTTP POST the executor makes to an agent. */
  datatype Call = Post(url: string, body: Json)

  /**
   * What a call to an agent comes back with: the decoded JSON body of a
   * successful response, an HTTP-level failure (transport error or a non-2xx
   * status), or any other exception (a body that is not JSON, say).
   */
  datatype AgentCall = Returned(body: Json) | HttpFailed(error: string) | Raised(error: string)

  /** The input handed to a step's agent. */
  function StepInput(step: TaskStep, context: Fields): Json {
    JObj([("description", JStr(step.description)), ("context", JObj(context)), ("step_input", step.inputData)])
  }

  /** The A2A message sent to an A2A agent: the executor never passes a session id, so it is "default". */
  function A2AMessage(agent: Agent, content: Json): Json {
    JObj([("sender", JStr(Strings.IntToString(agent.id))), ("receiver", JStr(agent.name)),
          ("message_type", JStr("request")), ("content", content),
          ("session_id", JStr("default")), ("metadata", JNull)])
  }

  /** The request made for a step, by agent type; a local agent is not called. */
  function AgentRequest(agent: Agent, input: Json): (r: Option<Call>)
    ensures r.None? <==> agent.agentType == Local
  {
    match agent.agentType
    case A2AServer => Some(Post(agent.endpoint + "/a2a/message", A2AMessage(agent, input)))
    case Api => Some(Post(agent.endpoint + "/process", input))
    case Local => None
  }

  /**
   * The dict returned for an HTTP failure: the error and a "failed" status,
   * and for an API agent also the agent's name.
   */
  function HttpFailure(agent: Agent, e: string): (j: Json)
    ensures Member(j, "error") == Some(JStr(e)) && Member(j, "status") == Some(JStr("failed"))
    ensures Member(j, "agent") == if agent.agentType == Api then Some(JStr(agent.name)) else None
  {
    assert "error"[0] != "status"[0] && "error"[0] != "agent"[0] && "agent"[0] != "status"[0];
    var status := [("status", JStr("failed"))];
    assert Get(status, "status") == Some(JStr("failed")) && Get(status, "agent") == None;
    if agent.agentType == Api then
      var f := [("error", JStr(e)), ("agent", JStr(agent.name))] + status;
      assert f[1..] == [("agent", JStr(agent.name))] + status;
      assert f[1..][1..] == status;
      assert Get(f[1..], "status") == Get(status, "status");
      assert Get(f[1..], "agent") == Some(JStr(agent.name));
      JObj(f)
    else
      var f := [("error", JStr(e))] + status;
      assert f[1..] == status;
      JObj(f)
  }

  function AgentIdText(id: Option<int>): string {
    if id.None? then "None" else Strings.IntToString(id.value)
  }

  /**
   * `execute_step`: `Err` is the exception the step raises; `Ok` the dict it
   * returns. An HTTP failure is reported inside the result, not raised.
   */
  function ExecuteStep(step: TaskStep, context: Fields, agents: seq<Agent>, respond: Call -> AgentCall): (r: Result<Json>)
    requires WellFormedAgents(agents)
  {
    if step.agentId.None? || FindAgent(agents, step.agentId.value).None? then
      Err("Agent " + AgentIdText(step.agentId) + " not found")
    else match FindAgent(agents, step.agentId.value)
      case Some(agent) =>
        var input := StepInput(step, context);
        match agent.agentType
        // The enum's value, as Python before 3.11 formats a str-mixin enum.
        case Local => Ok(JObj([("error", JStr("Unknown agent type: " + AgentTypeValue(agent.agentType)))]))
        case A2AServer =>
          (match respond(Post(agent.endpoint + "/a2a/message", A2AMessage(agent, input)))
           case Returned(body) => Ok(body)
           case HttpFailed(e) => Ok(HttpFailure(agent, e))
           case Raised(e) => Err(e))
        case Api =>
          (match respond(Post(agent.endpoint + "/process", input))
           case Returned(body) => Ok(body)
           case HttpFailed(e) => Ok(HttpFailure(agent, e))
           case Raised(e) => Err(e))
  }

  /**
   * Whether `execute_step` raises: the step names no agent or an unknown one,
   * or the agent is called and the call raises something other than an HTTP
   * error. A local agent is never called.
   */
  predicate StepRaises(step: TaskStep, context: Fields, agents: seq<Agent>, respond: Call -> AgentCall)
    requires WellFormedAgents(agents)
  {
    || step.agentId.None?
    || FindAgent(agents, step.agentId.value).None?
    || (var call := AgentRequest(FindAgent(agents, step.agentId.value).value, StepInput(step, context));
        call.Some? && respond(call.value).Raised?)
  }

  /**
   * A step raises exactly in those cases. A local agent yields an error dict
   * and an HTTP failure a "failed" dict, and neither stops the run.
   */
  lemma StepOutcome(step: TaskStep, context: Fields, agents: seq<Agent>, respond: Call -> AgentCall)
    requires WellFormedAgents(agents)
    ensures ExecuteStep(step, context, agents, respond).Err? <==> StepRaises(step, context, agents, respond)
    ensures (step.agentId.None? || FindAgent(agents, step.agentId.value).None?) ==>
      ExecuteStep(step, context, agents, respond) == Err("Agent " + AgentIdText(step.agentId) + " not found")
    ensures step.agentId.Some? && FindAgent(agents, step.agentId.value).Some? ==>
      var agent := FindAgent(agents, step.agentId.value).value;
      && (agent.agentType == Local ==>
            ExecuteStep(step, context, agents, respond) == Ok(JObj([("error", JStr("Unknown agent type: local"))])))
      && (agent.agentType != Local && respond(AgentRequest(agent, StepInput(step, context)).value).HttpFailed? ==>
            var failed := ExecuteStep(step, context, agents, respond);
            failed.Ok? && Member(failed.value, "status") == Some(JStr("failed")))
  {
    if step.agentId.Some? && FindAgent(agents, step.agentId.value).Some? {
      var agent := FindAgent(agents, step.agentId.value).value;
      if agent.agentType == Local {
        assert "Unknown agent type: " + AgentTypeValue(agent.agentType) == "Unknown agent type: local";
      }
    }
  }

  /** The context key under which a step's result is passed to later steps. */
  function ContextKey(stepNumber: int): string {
    "step_" + Strings.IntToString(stepNumber)
  }

  function CompletedRow(s: TaskStep, output: Json, now: int): TaskStep {
    s.(status := Completed, outputData := Some(output), completedAt := Some(now))
  }

  function FailedRow(s: TaskStep, error: string): TaskStep {
    s.(status := Failed, outputData := Some(JObj([("error", JStr(error))])))
  }

  function FailureResult(stepNumber: int, error: string): Json {
    JObj([("error", JStr("Failed at step " + Strings.IntToString(stepNumber) + ": " + error))])
  }

  /** Every row's id and task id point into tables of `n` steps and `m` tasks. */
  predicate RowsWithin(todo: seq<TaskStep>, n: int, m: int) {
    forall k :: 0 <= k < |todo| ==> 1 <= todo[k].id <= n && 1 <= todo[k].taskId <= m
  }

  /**
   * How running a list of steps ends: all done, or stopped at a step that
   * raised. Either way `results` holds the results of the steps that ran.
   */
  datatype Run =
    | Finished(steps: seq<TaskStep>, results: seq<Json>, context: Fields)
    | Stopped(steps: seq<TaskStep>, results: seq<Json>, stepNumber: int, error: string)

  /**
   * `execute_step` against a fixed agents table and transport, as a
   * function of the step and the context it is handed.
   */
  function Executing(agents: seq<Agent>, respond: Call -> AgentCall): (TaskStep, Fields) --> Result<Json> {
    (s: TaskStep, c: Fields) requires WellFormedAgents(agents) => ExecuteStep(s, c, agents, respond)
  }

  /** A step function that can be applied to every step and context. */
  ghost predicate Total(exec: (TaskStep, Fields) --> Result<Json>) {
    forall s, c :: exec.requires(s, c)
  }

  /**
   * The step loop of `execute_task`, from row `i` of `todo` on, each step
   * run by `exec`. Results are only ever appended: a run finishes with one
   * result per row, or stops before the last row.
   */
  function RunFrom(table: seq<TaskStep>, todo: seq<TaskStep>, i: nat, results: seq<Json>, context: Fields,
                   exec: (TaskStep, Fields) --> Result<Json>, key: int -> string, now: int): (run: Run)
    requires Total(exec)
    requires forall k :: 0 <= k < |todo| ==> 1 <= todo[k].id <= |table|
    requires i <= |todo|
    ensures |run.steps| == |table|
    decreases |todo| - i
  {
    if i == |todo| then Finished(table, results, context)
    else
      var s := todo[i];
      match exec(s, context)
      case Err(e) => Stopped(table[s.id - 1 := FailedRow(s, e)], results, s.stepNumber, e)
      case Ok(v) =>
        RunFrom(table[s.id - 1 := CompletedRow(s, v, now)], todo, i + 1, results + [v],
                Put(context, key(s.stepNumber), v), exec, key, now)
  }

  /**
   * A run from row `i` that started with `results` only appended to them:
   * one result per row when it finished, fewer when it stopped.
   */
  predicate Appended(run: Run, todo: seq<TaskStep>, i: nat, results: seq<Json>) {
    && |results| <= |run.results| && run.results[..|results|] == results
    && (run.Finished? <==> |run.results| == |results| + |todo| - i)
    && (run.Stopped? ==> |run.results| < |results| + |todo| - i)
  }

  /** Results are only ever appended: a run finishes with one result per row, or stops before the last row. */
  lemma {:induction false} RunFromAppends(table: seq<TaskStep>, todo: seq<TaskStep>, i: nat, results: seq<Json>,
                                          context: Fields, exec: (TaskStep, Fields) --> Result<Json>, key: int -> string, now: int)
    requires Total(exec)
    requires forall k :: 0 <= k < |todo| ==> 1 <= todo[k].id <= |table|
    requires i <= |todo|
    ensures Appended(RunFrom(table, todo, i, results, context, exec, key, now), todo, i, results)
    decreases |todo| - i
  {
    if i < |todo| {
      var s := todo[i];
      match exec(s, context)
      case Err(e) =>
      case Ok(v) =>
        var table' := table[s.id - 1 := CompletedRow(s, v, now)];
        var context' := Put(context, key(s.stepNumber), v);
        RunFromCompleted(table, todo, i, results, context, exec, key, now, v);
        RunFromAppends(table', todo, i + 1, results + [v], context', exec, key, now);
        var run := RunFrom(table', todo, i + 1, results + [v], context', exec, key, now);
        assert run.results[..|results|] == (run.results[..|results| + 1])[..|results|];
    }
  }

  /** A row that completes: the run goes on from the next row with its result recorded. */
  lemma RunFromCompleted(table: seq<TaskStep>, todo: seq<TaskStep>, i: nat, results: seq<Json>, context: Fields,
                         exec: (TaskStep, Fields) --> Result<Json>, key: int -> string, now: int, v: Json)
    requires Total(exec)
    requires forall k :: 0 <= k < |todo| ==> 1 <= todo[k].id <= |table|
    requires i < |todo| && exec(todo[i], context) == Ok(v)
    ensures RunFrom(table, todo, i, results, context, exec, key, now)
            == RunFrom(table[todo[i].id - 1 := CompletedRow(todo[i], v, now)], todo, i + 1, results + [v],
                       Put(context, key(todo[i].stepNumber), v), exec, key, now)
  {
  }

  /** The context a step is handed: the results of the steps `done` before it, each under its key. */
  function ContextAfter(context: Fields, done: seq<TaskStep>, results: seq<Json>, key: int -> string): Fields
    requires |done| == |results|
    decreases |done|
  {
    if done == [] then context
    else ContextAfter(Put(context, key(done[0].stepNumber), results[0]), done[1..], results[1..], key)
  }

  /** Distinct step numbers have distinct context keys. */
  lemma ContextKeyInjective(a: int, b: int)
    requires ContextKey(a) == ContextKey(b)
    ensures a == b
  {
    assert ContextKey(a)[5..] == Strings.IntToString(a);
    assert ContextKey(b)[5..] == Strings.IntToString(b);
    Strings.IntToStringInjective(a, b);
  }

  /** A key that none of the done steps writes reads as before. */
  lemma {:induction false} ContextAfterOther(context: Fields, done: seq<TaskStep>, results: seq<Json>, name: string)
    requires |done| == |results|
    requires forall j :: 0 <= j < |done| ==> ContextKey(done[j].stepNumber) != name
    ensures Get(ContextAfter(context, done, results, ContextKey), name) == Get(context, name)
    decreases |done|
  {
    if done != [] {
      PutGet(context, ContextKey(done[0].stepNumber), results[0], name);
      ContextAfterOther(Put(context, ContextKey(done[0].stepNumber), results[0]), done[1..], results[1..], name);
    }
  }

  /**
   * Later steps find an earlier step's result under `step_<n>`, unless a
   * step after it has the same number and overwrote it.
   */
  lemma {:induction false} ContextAfterGet(context: Fields, done: seq<TaskStep>, results: seq<Json>, j: nat)
    requires |done| == |results| && j < |done|
    requires forall j' :: j < j' < |done| ==> done[j'].stepNumber != done[j].stepNumber
    ensures Get(ContextAfter(context, done, results, ContextKey), ContextKey(done[j].stepNumber)) == Some(results[j])
    decreases |done|
  {
    var put := Put(context, ContextKey(done[0].stepNumber), results[0]);
    if j == 0 {
      forall j' | 0 <= j' < |done[1..]| ensures ContextKey(done[1..][j'].stepNumber) != ContextKey(done[0].stepNumber) {
        assert done[1..][j'] == done[j' + 1];
        if ContextKey(done[1..][j'].stepNumber) == ContextKey(done[0].stepNumber) {
          ContextKeyInjective(done[1..][j'].stepNumber, done[0].stepNumber);
        }
      }
      ContextAfterOther(put, done[1..], results[1..], ContextKey(done[0].stepNumber));
      PutGet(context, ContextKey(done[0].stepNumber), results[0], ContextKey(done[0].stepNumber));
    } else {
      ContextAfterGet(put, done[1..], results[1..], j - 1);
    }
  }

  /** Row `x` of the table is the row of one of `todo[lo..hi]`. */
  predicate Visited(todo: seq<TaskStep>, lo: int, hi: int, x: int) {
    exists j :: lo <= j < hi && 0 <= j < |todo| && todo[j].id == x + 1
  }

  /** The steps `todo[i..k]` each returned `rs[j - i]`, given the results before it. */
  predicate StepsReturned(todo: seq<TaskStep>, i: nat, k: nat, rs: seq<Json>, context: Fields,
                          exec: (TaskStep, Fields) --> Result<Json>, key: int -> string)
    requires Total(exec)
    requires i <= k <= |todo| && |rs| == k - i
  {
    forall j :: i <= j < k ==>
      exec(todo[j], ContextAfter(context, todo[i..j], rs[..j - i], key)) == Ok(rs[j - i])
  }

  /**
   * How a run from row `i` that got through `todo[i..k]` with results `rs`
   * ends: it finishes with the context those results make, or it stops at
   * `todo[k]`, which raised.
   */
  predicate RunEnds(run: Run, todo: seq<TaskStep>, i: nat, k: nat, rs: seq<Json>, context: Fields,
                    exec: (TaskStep, Fields) --> Result<Json>, key: int -> string)
    requires Total(exec)
    requires i <= k <= |todo| && |rs| == k - i
    requires run.Finished? <==> k == |todo|
  {
    && (run.Finished? ==> run.context == ContextAfter(context, todo[i..], rs, key))
    && (run.Stopped? ==>
          && run.stepNumber == todo[k].stepNumber
          && exec(todo[k], ContextAfter(context, todo[i..k], rs, key)) == Err(run.error))
  }

  /** The rows of `todo[i..k]` are COMPLETED with their results. */
  predicate RowsCompleted(rows: seq<TaskStep>, todo: seq<TaskStep>, i: nat, k: nat, rs: seq<Json>, now: int)
    requires i <= k <= |todo| && |rs| == k - i
    requires forall j :: 0 <= j < |todo| ==> 1 <= todo[j].id <= |rows|
  {
    forall j :: i <= j < k ==> rows[todo[j].id - 1] == CompletedRow(todo[j], rs[j - i], now)
  }

  /** Every row not among those of `todo[lo..hi]` is as in `table`. */
  predicate RowsKept(rows: seq<TaskStep>, table: seq<TaskStep>, todo: seq<TaskStep>, lo: int, hi: int)
    requires |rows| == |table|
  {
    forall x :: 0 <= x < |table| && !Visited(todo, lo, hi, x) ==> rows[x] == table[x]
  }

  /** The results a run added to the `results` it started with. */
  function NewResults(run: Run, results: seq<Json>): seq<Json>
    requires |results| <= |run.results|
  {
    run.results[|results|..]
  }

  /** The rows the run reaches: up to the one it stopped at. */
  function Reached(run: Run, k: nat): nat {
    if run.Finished? then k else k + 1
  }

  /**
   * A run from row `i` that started with `results` and `context`, as far as
   * the agents see it: it only appended results, each row it got through
   * returned its result given the results before it, and it either finished
   * or stopped at the next row, which raised.
   */
  predicate ReturnedOutcome(run: Run, todo: seq<TaskStep>, i: nat, results: seq<Json>, context: Fields,
                            exec: (TaskStep, Fields) --> Result<Json>, key: int -> string)
    requires Total(exec)
  {
    && i <= |todo| && Appended(run, todo, i, results)
    && var k := i + |NewResults(run, results)|;
       && (run.Finished? <==> k == |todo|)
       && StepsReturned(todo, i, k, NewResults(run, results), context, exec, key)
       && RunEnds(run, todo, i, k, NewResults(run, results), context, exec, key)
  }

  /** The step loop from row `i` on, as far as the agents see it. */
  lemma {:induction false} RunFromReturned(table: seq<TaskStep>, todo: seq<TaskStep>, i: nat, results: seq<Json>,
                                           context: Fields, exec: (TaskStep, Fields) --> Result<Json>,
                                           key: int -> string, now: int)
    requires Total(exec)
    requires forall k :: 0 <= k < |todo| ==> 1 <= todo[k].id <= |table|
    requires i <= |todo|
    ensures ReturnedOutcome(RunFrom(table, todo, i, results, context, exec, key, now), todo, i, results, context, exec, key)
    decreases |todo| - i, 1
  {
    if i == |todo| {
      ReturnedDone(table, todo, results, context, exec, key);
    } else {
      var s := todo[i];
      match exec(s, context)
      case Err(e) =>
        ReturnedErr(table[s.id - 1 := FailedRow(s, e)], todo, i, results, context, exec, key, e);
      case Ok(v) =>
        RunFromReturnedOk(table, todo, i, results, context, exec, key, now, v);
    }
  }

  /** The inductive step of `RunFromReturned`: row `i` returned `v`. */
  lemma {:induction false} RunFromReturnedOk(table: seq<TaskStep>, todo: seq<TaskStep>, i: nat, results: seq<Json>,
                                             context: Fields, exec: (TaskStep, Fields) --> Result<Json>,
                                             key: int -> string, now: int, v: Json)
    requires Total(exec)
    requires forall k :: 0 <= k < |todo| ==> 1 <= todo[k].id <= |table|
    requires i < |todo| && exec(todo[i], context) == Ok(v)
    ensures ReturnedOutcome(RunFrom(table, todo, i, results, context, exec, key, now), todo, i, results, context, exec, key)
    decreases |todo| - i, 0
  {
    var table' := table[todo[i].id - 1 := CompletedRow(todo[i], v, now)];
    var context' := Put(context, key(todo[i].stepNumber), v);
    RunFromCompleted(table, todo, i, results, context, exec, key, now, v);
    RunFromReturned(table', todo, i + 1, results + [v], context', exec, key, now);
    ReturnedOk(RunFrom(table', todo, i + 1, results + [v], context', exec, key, now), todo, i, results, context, exec, key, v);
  }

  lemma ReturnedDone(table: seq<TaskStep>, todo: seq<TaskStep>, results: seq<Json>, context: Fields,
                     exec: (TaskStep, Fields) --> Result<Json>, key: int -> string)
    requires Total(exec)
    ensures ReturnedOutcome(Finished(table, results, context), todo, |todo|, results, context, exec, key)
  {
    var run := Finished(table, results, context);
    assert NewResults(run, results) == [] && todo[|todo|..] == [];
  }

  lemma ReturnedErr(rows: seq<TaskStep>, todo: seq<TaskStep>, i: nat, results: seq<Json>, context: Fields,
                    exec: (TaskStep, Fields) --> Result<Json>, key: int -> string, e: string)
    requires Total(exec)
    requires i < |todo| && exec(todo[i], context) == Err(e)
    ensures ReturnedOutcome(Stopped(rows, results, todo[i].stepNumber, e), todo, i, results, context, exec, key)
  {
    var run := Stopped(rows, results, todo[i].stepNumber, e);
    assert NewResults(run, results) == [] && todo[i..i] == [];
  }

  /** Prepending a row that returned `v` to the run from the next row. */
  lemma ReturnedOk(run: Run, todo: seq<TaskStep>, i: nat, results: seq<Json>, context: Fields,
                   exec: (TaskStep, Fields) --> Result<Json>, key: int -> string, v: Json)
    requires Total(exec)
    requires i < |todo| && exec(todo[i], context) == Ok(v)
    requires ReturnedOutcome(run, todo, i + 1, results + [v], Put(context, key(todo[i].stepNumber), v), exec, key)
    ensures ReturnedOutcome(run, todo, i, results, context, exec, key)
  {
    AppendedShift(run, todo, i, results, v);
    var rs' := NewResults(run, results + [v]);
    NewResultsShift(run, results, v);
    var k := i + |NewResults(run, results)|;
    assert k == i + 1 + |rs'|;
    ReturnedShift(todo, i, k, v, rs', context, exec, key);
    EndsShift(run, todo, i, k, v, rs', context, exec, key);
  }

  /** A run from `i + 1` that appended to `results + [v]` appended to `results` from `i`. */
  lemma AppendedShift(run: Run, todo: seq<TaskStep>, i: nat, results: seq<Json>, v: Json)
    requires i < |todo| && Appended(run, todo, i + 1, results + [v])
    ensures Appended(run, todo, i, results)
  {
    assert run.results[..|results|] == (run.results[..|results| + 1])[..|results|];
  }

  /** The results added since `results` are `v` and those added since `results + [v]`. */
  lemma NewResultsShift(run: Run, results: seq<Json>, v: Json)
    requires |results| + 1 <= |run.results| && run.results[..|results| + 1] == results + [v]
    ensures NewResults(run, results) == [v] + NewResults(run, results + [v])
  {
    assert run.results[|results|] == (results + [v])[|results|];
  }

  /**
   * A run from row `i` that started with `results`, as the table sees it: the
   * rows it got through are COMPLETED with their results, the row it stopped
   * at is FAILED, and no other row of `table` changes.
   */
  predicate RowsOutcome(run: Run, table: seq<TaskStep>, todo: seq<TaskStep>, i: nat, results: seq<Json>, now: int) {
    && i <= |todo| && Appended(run, todo, i, results) && |run.steps| == |table|
    && (forall j :: 0 <= j < |todo| ==> 1 <= todo[j].id <= |table|)
    && var k := i + |NewResults(run, results)|;
       && RowsCompleted(run.steps, todo, i, k, NewResults(run, results), now)
       && (run.Stopped? ==> run.steps[todo[k].id - 1] == FailedRow(todo[k], run.error))
       && RowsKept(run.steps, table, todo, i, Reached(run, k))
  }

  /** The step loop from row `i` on, as the table sees it. */
  lemma {:induction false} RunFromRows(table: seq<TaskStep>, todo: seq<TaskStep>, i: nat, results: seq<Json>,
                                       context: Fields, exec: (TaskStep, Fields) --> Result<Json>,
                                       key: int -> string, now: int)
    requires Total(exec)
    requires forall k :: 0 <= k < |todo| ==> 1 <= todo[k].id <= |table|
    requires i <= |todo| && DistinctIds(todo)
    ensures RowsOutcome(RunFrom(table, todo, i, results, context, exec, key, now), table, todo, i, results, now)
    decreases |todo| - i
  {
    if i == |todo| {
      RowsDone(table, todo, results, context, now);
    } else {
      var s := todo[i];
      match exec(s, context)
      case Err(e) =>
        RowsErr(table, todo, i, results, e, now);
      case Ok(v) =>
        var table' := table[s.id - 1 := CompletedRow(s, v, now)];
        var context' := Put(context, key(s.stepNumber), v);
        RunFromCompleted(table, todo, i, results, context, exec, key, now, v);
        RunFromRows(table', todo, i + 1, results + [v], context', exec, key, now);
        RowsOk(RunFrom(table', todo, i + 1, results + [v], context', exec, key, now), table, todo, i, results, v, now);
    }
  }

  lemma RowsDone(table: seq<TaskStep>, todo: seq<TaskStep>, results: seq<Json>, context: Fields, now: int)
    requires forall k :: 0 <= k < |todo| ==> 1 <= todo[k].id <= |table|
    ensures RowsOutcome(Finished(table, results, context), table, todo, |todo|, results, now)
  {
    assert NewResults(Finished(table, results, context), results) == [];
  }

  lemma RowsErr(table: seq<TaskStep>, todo: seq<TaskStep>, i: nat, results: seq<Json>, e: string, now: int)
    requires forall k :: 0 <= k < |todo| ==> 1 <= todo[k].id <= |table|
    requires i < |todo|
    ensures RowsOutcome(Stopped(table[todo[i].id - 1 := FailedRow(todo[i], e)], results, todo[i].stepNumber, e),
                        table, todo, i, results, now)
  {
    var run := Stopped(table[todo[i].id - 1 := FailedRow(todo[i], e)], results, todo[i].stepNumber, e);
    assert NewResults(run, results) == [];
    VisitedFrom(todo, i, i + 1);
  }

  /** Prepending a row that completed with `v` to the run from the next row. */
  lemma RowsOk(run: Run, table: seq<TaskStep>, todo: seq<TaskStep>, i: nat, results: seq<Json>, v: Json, now: int)
    requires forall k :: 0 <= k < |todo| ==> 1 <= todo[k].id <= |table|
    requires i < |todo| && DistinctIds(todo)
    requires RowsOutcome(run, table[todo[i].id - 1 := CompletedRow(todo[i], v, now)], todo, i + 1, results + [v], now)
    ensures RowsOutcome(run, table, todo, i, results, now)
  {
    AppendedShift(run, todo, i, results, v);
    var rs' := NewResults(run, results + [v]);
    NewResultsShift(run, results, v);
    var k := i + |NewResults(run, results)|;
    assert k == i + 1 + |rs'|;
    KeptShift(run.steps, table, todo, i, Reached(run, k), CompletedRow(todo[i], v, now));
    NotRevisited(todo, i, Reached(run, k));
    CompletedShift(run.steps, todo, i, k, v, rs', now);
  }

  /** A row of `todo` is not reached again later, its id being distinct. */
  lemma NotRevisited(todo: seq<TaskStep>, i: nat, hi: int)
    requires i < |todo| && DistinctIds(todo)
    ensures !Visited(todo, i + 1, hi, todo[i].id - 1)
  {
  }

  lemma CompletedShift(rows: seq<TaskStep>, todo: seq<TaskStep>, i: nat, k: nat, v: Json, rs: seq<Json>, now: int)
    requires i < k <= |todo| && |rs| == k - i - 1
    requires forall j :: 0 <= j < |todo| ==> 1 <= todo[j].id <= |rows|
    requires rows[todo[i].id - 1] == CompletedRow(todo[i], v, now)
    requires RowsCompleted(rows, todo, i + 1, k, rs, now)
    ensures RowsCompleted(rows, todo, i, k, [v] + rs, now)
  {
  }

  /** Prepending a step that returned `v` to the steps that returned `rs`. */
  lemma ReturnedShift(todo: seq<TaskStep>, i: nat, k: nat, v: Json, rs: seq<Json>, context: Fields,
                      exec: (TaskStep, Fields) --> Result<Json>, key: int -> string)
    requires Total(exec)
    requires i < k <= |todo| && |rs| == k - i - 1
    requires exec(todo[i], context) == Ok(v)
    requires StepsReturned(todo, i + 1, k, rs, Put(context, key(todo[i].stepNumber), v), exec, key)
    ensures StepsReturned(todo, i, k, [v] + rs, context, exec, key)
  {
    var rs' := [v] + rs;
    forall j | i <= j < k
      ensures exec(todo[j], ContextAfter(context, todo[i..j], rs'[..j - i], key)) == Ok(rs'[j - i])
    {
      if j == i {
        assert todo[i..j] == [] && rs'[..0] == [];
      } else {
        ContextShift(todo, i, j, v, rs, context, key);
      }
    }
  }

  lemma ContextShift(todo: seq<TaskStep>, i: nat, j: nat, v: Json, rs: seq<Json>, context: Fields, key: int -> string)
    requires i < j <= |todo| && j - i - 1 <= |rs|
    ensures ContextAfter(context, todo[i..j], ([v] + rs)[..j - i], key)
            == ContextAfter(Put(context, key(todo[i].stepNumber), v), todo[i + 1..j], rs[..j - i - 1], key)
  {
    assert todo[i..j][1..] == todo[i + 1..j];
    assert ([v] + rs)[..j - i][1..] == rs[..j - i - 1];
  }

  /** How the run from row `i` ends, given how the run from `i + 1` ends. */
  lemma EndsShift(run: Run, todo: seq<TaskStep>, i: nat, k: nat, v: Json, rs: seq<Json>,
                  context: Fields, exec: (TaskStep, Fields) --> Result<Json>, key: int -> string)
    requires Total(exec)
    requires i < k <= |todo| && |rs| == k - i - 1
    requires run.Finished? <==> k == |todo|
    requires RunEnds(run, todo, i + 1, k, rs, Put(context, key(todo[i].stepNumber), v), exec, key)
    ensures RunEnds(run, todo, i, k, [v] + rs, context, exec, key)
  {
    if run.Finished? {
      assert todo[i..][1..] == todo[i + 1..];
    } else {
      ContextShift(todo, i, k, v, rs, context, key);
      assert ([v] + rs)[..k - i] == [v] + rs;
      assert rs[..k - i - 1] == rs;
    }
  }

  /** Rows kept by the run from `i + 1` over the table with row `todo[i]` set to `row`. */
  lemma KeptShift(rows: seq<TaskStep>, table: seq<TaskStep>, todo: seq<TaskStep>, i: nat, hi: int, row: TaskStep)
    requires i < |todo| && i < hi && 1 <= todo[i].id <= |table| && |rows| == |table|
    requires RowsKept(rows, table[todo[i].id - 1 := row], todo, i + 1, hi)
    ensures RowsKept(rows, table, todo, i, hi)
  {
    VisitedFrom(todo, i, hi);
  }

  /** `todo[i]`'s row is among those of `todo[i..hi]`, and so is every row of `todo[i + 1..hi]`. */
  lemma VisitedFrom(todo: seq<TaskStep>, i: nat, hi: int)
    requires i < |todo| && i < hi
    ensures Visited(todo, i, hi, todo[i].id - 1)
    ensures forall x :: Visited(todo, i + 1, hi, x) ==> Visited(todo, i, hi, x)
  {
  }

  predicate IdsAscending(s: seq<TaskStep>) {
    forall i, j :: 0 <= i < j < |s| ==> s[i].id < s[j].id
  }

  /** In a table whose ids are positions + 1, one task's rows come in ascending id order. */
  lemma {:induction false} StepsOfAscending(steps: seq<TaskStep>, taskId: int)
    requires forall i :: 0 <= i < |steps| ==> steps[i].id == i + 1
    ensures IdsAscending(StepsOf(steps, taskId))
  {
    if steps != [] {
      var init := steps[..|steps| - 1];
      StepsOfAscending(init, taskId);
      StepsOfMembers(init, taskId);
      forall x | x in StepsOf(init, taskId) ensures x.id < steps[|steps| - 1].id {
        var i :| 0 <= i < |init| && init[i] == x;
      }
    }
  }

  /** The rows `execute_task` walks through: all of the task's rows, by step number, each once. */
  lemma OrderedSteps(tasks: seq<Task>, steps: seq<TaskStep>, taskId: int)
    requires WellFormedTables(tasks, steps)
    ensures var todo := OrderByStepNumber(StepsOf(steps, taskId));
      && DistinctIds(todo)
      && SortedByStepNumber(todo)
      && (forall x :: x in todo <==> x in steps && x.taskId == taskId)
  {
    var mine := StepsOf(steps, taskId);
    StepsOfAscending(steps, taskId);
    StepsOfMembers(steps, taskId);
    OrderByStepNumberCorrect(mine);
    var todo := OrderByStepNumber(mine);
    forall x ensures x in todo <==> x in mine {
      assert x in todo <==> x in multiset(todo);
      assert x in mine <==> x in multiset(mine);
    }
  }

  /** Those rows point into the tables. */
  lemma OrderedStepsWithin(tasks: seq<Task>, steps: seq<TaskStep>, taskId: int)
    requires WellFormedTables(tasks, steps)
    ensures RowsWithin(OrderByStepNumber(StepsOf(steps, taskId)), |steps|, |tasks|)
  {
    OrderedSteps(tasks, steps, taskId);
    var todo := OrderByStepNumber(StepsOf(steps, taskId));
    forall k | 0 <= k < |todo| ensures 1 <= todo[k].id <= |steps| && 1 <= todo[k].taskId <= |tasks| {
      assert todo[k] in steps;
    }
  }

  lemma UpdateTwice<T>(s: seq<T>, i: int, a: T, b: T)
    requires 0 <= i < |s|
    ensures s[i := a][i := b] == s[i := b]
  {
  }

  /** The task's run as `execute_task` starts it: no results and an empty context. */
  function TaskRun(tasks: seq<Task>, steps: seq<TaskStep>, taskId: int, agents: seq<Agent>,
                   respond: Call -> AgentCall, now: int): (run: Run)
    requires WellFormedTables(tasks, steps) && WellFormedAgents(agents)
    ensures |run.steps| == |steps|
  {
    OrderedStepsWithin(tasks, steps, taskId);
    RunFrom(steps, OrderByStepNumber(StepsOf(steps, taskId)), 0, [], [], Executing(agents, respond), ContextKey, now)
  }

  /** The first result that is not a dict, on which `r.get` raises. */
  function FirstNonDict(results: seq<Json>): (r: Option<Json>)
    ensures r.None? <==> forall k :: 0 <= k < |results| ==> results[k].JObj?
    ensures r.Some? ==> r.value in results && !r.value.JObj?
  {
    if results == [] then None
    else if !results[0].JObj? then Some(results[0])
    else FirstNonDict(results[1..])
  }

  /** Python's name for the type of a JSON value. */
  function PyTypeName(j: Json): string {
    match j
    case JNull => "NoneType"
    case JBool(_) => "bool"
    case JInt(_) => "int"
    case JReal(_) => "float"
    case JStr(_) => "str"
    case JArr(_) => "list"
    case JObj(_) => "dict"
  }

  /** Results whose `status` is not "error". */
  function SuccessCount(results: seq<Json>): (n: nat)
    requires forall k :: 0 <= k < |results| ==> results[k].JObj?
    ensures n <= |results|
  {
    if results == [] then 0
    else (if Get(results[0].fields, "status") != Some(JStr("error")) then 1 else 0) + SuccessCount(results[1..])
  }

  /** All steps count as successful exactly when none has status "error", and none when all have. */
  lemma {:induction false} SuccessCountExtremes(results: seq<Json>)
    requires forall k :: 0 <= k < |results| ==> results[k].JObj?
    ensures SuccessCount(results) == |results| <==>
            forall k :: 0 <= k < |results| ==> Get(results[k].fields, "status") != Some(JStr("error"))
    ensures SuccessCount(results) == 0 <==>
            forall k :: 0 <= k < |results| ==> Get(results[k].fields, "status") == Some(JStr("error"))
  {
    if results != [] {
      SuccessCountExtremes(results[1..]);
      assert forall k :: 1 <= k < |results| ==> results[k] == results[1..][k - 1];
    }
  }

  /** `_generate_summary`: raises on the first result that is not a dict. */
  function Summary(results: seq<Json>): (r: Result<string>)
    ensures r.Err? <==> exists k :: 0 <= k < |results| && !results[k].JObj?
    ensures r.Ok? ==> r.value == "Completed " + Strings.NatToString(SuccessCount(results)) + "/"
                                 + Strings.NatToString(|results|) + " steps successfully."
  {
    match FirstNonDict(results)
    case Some(j) => Err("'" + PyTypeName(j) + "' object has no attribute 'get'")
    case None =>
      Ok("Completed " + Strings.NatToString(SuccessCount(results)) + "/" + Strings.NatToString(|results|) + " steps successfully.")
  }

  /** The result a completed task stores and returns. */
  function CompletionResult(results: seq<Json>, summary: string): Json {
    JObj([("status", JStr("completed")), ("steps", JArr(results)), ("summary", JStr(summary))])
  }

  /**
   * How `execute_task` ends once the step loop is over, starting from the
   * IN_PROGRESS task row: the value returned (or the exception raised) and
   * the task row left behind.
   */
  function Conclude(task: Task, run: Run, now: int): (r: (Result<Json>, Task))
    ensures r.1.id == task.id && r.1.sessionId == task.sessionId && r.1.description == task.description
    ensures r.1.plan == task.plan && r.1.assignedAgents == task.assignedAgents
    ensures r.1.createdAt == task.createdAt && r.1.metadata == task.metadata
  {
    match run
    case Stopped(_, _, n, e) => (Ok(FailureResult(n, e)), task.(status := Failed, result := Some(FailureResult(n, e))))
    case Finished(_, results, _) =>
      match Summary(results)
      case Err(m) => (Err(m), task)
      case Ok(summary) =>
        (Ok(CompletionResult(results, summary)),
         task.(status := Completed, result := Some(CompletionResult(results, summary)), completedAt := Some(now)))
  }

  /**
   * `execute_task` as a whole: what it returns (or raises) and the task and
   * step tables it leaves. An unknown id changes nothing.
   */
  function Executed(tasks: seq<Task>, steps: seq<TaskStep>, taskId: int, agents: seq<Agent>,
                    respond: Call -> AgentCall, now: int): (e: (Result<Json>, seq<Task>, seq<TaskStep>))
    requires WellFormedTables(tasks, steps) && WellFormedAgents(agents)
    ensures |e.1| == |tasks| && |e.2| == |steps|
    ensures forall t :: 0 <= t < |tasks| && t != taskId - 1 ==> e.1[t] == tasks[t]
  {
    if !(1 <= taskId <= |tasks|) then (Ok(TaskNotFound(taskId)), tasks, steps)
    else
      var run := TaskRun(tasks, steps, taskId, agents, respond, now);
      var outcome := Conclude(tasks[taskId - 1].(status := InProgress), run, now);
      (outcome.0, tasks[taskId - 1 := outcome.1], run.steps)
  }

  function TaskNotFound(taskId: int): Json {
    JObj([("error", JStr("Task " + Strings.IntToString(taskId) + " not found"))])
  }

  /** The rows of task `taskId`'s steps are the only step rows a run of that task can reach. */
  lemma ReachedRowsOfTask(tasks: seq<Task>, steps: seq<TaskStep>, taskId: int, hi: int)
    requires WellFormedTables(tasks, steps)
    ensures forall x :: 0 <= x < |steps| && Visited(OrderByStepNumber(StepsOf(steps, taskId)), 0, hi, x) ==>
      steps[x].taskId == taskId
  {
    var todo := OrderByStepNumber(StepsOf(steps, taskId));
    OrderedSteps(tasks, steps, taskId);
    forall x | 0 <= x < |steps| && Visited(todo, 0, hi, x) ensures steps[x].taskId == taskId {
      var j :| 0 <= j < hi && 0 <= j < |todo| && todo[j].id == x + 1;
      assert todo[j] in steps;
      var y :| 0 <= y < |steps| && steps[y] == todo[j];
    }
  }

  /**
   * The tables and result of a task run that stopped at `step`, which raised
   * `error`: the step is FAILED, and the task FAILED with "Failed at step n:
   * e", which is also returned.
   */
  predicate FailedAt(tasks: seq<Task>, taskId: int, step: TaskStep, error: string,
                     e: (Result<Json>, seq<Task>, seq<TaskStep>))
    requires 1 <= taskId <= |tasks| && |e.1| == |tasks| && 1 <= step.id <= |e.2|
  {
    var failure := FailureResult(step.stepNumber, error);
    && e.2[step.id - 1] == FailedRow(step, error)
    && e.0 == Ok(failure)
    && e.1[taskId - 1] == tasks[taskId - 1].(status := Failed, result := Some(failure))
  }

  /**
   * The result and task row of a task whose steps all completed with
   * `results`: COMPLETED with the results and their summary, or, when the
   * summary raises, that exception with the task left IN_PROGRESS.
   */
  predicate CompletedWith(tasks: seq<Task>, taskId: int, results: seq<Json>, now: int,
                          e: (Result<Json>, seq<Task>, seq<TaskStep>))
    requires 1 <= taskId <= |tasks| && |e.1| == |tasks|
  {
    match Summary(results)
    case Ok(summary) =>
      && e.0 == Ok(CompletionResult(results, summary))
      && e.1[taskId - 1] == tasks[taskId - 1].(status := Completed, result := Some(CompletionResult(results, summary)),
                                               completedAt := Some(now))
    case Err(m) => e.0 == Err(m) && e.1[taskId - 1] == tasks[taskId - 1].(status := InProgress)
  }

  /** Step rows of other tasks are as they were. */
  predicate OtherTasksKept(steps: seq<TaskStep>, rows: seq<TaskStep>, taskId: int)
    requires |rows| == |steps|
  {
    forall x :: 0 <= x < |steps| && steps[x].taskId != taskId ==> rows[x] == steps[x]
  }

  /**
   * `execute_task` on an existing task, step by step: its steps run in
   * step-number order, each handed the results of those before it. The
   * steps before `k` return `rs` and are COMPLETED with their results. The
   * run stops at the first step that raises (a missing agent, or a call that
   * raises other than by an HTTP error): that step is FAILED, the steps
   * after it are untouched, and the task is FAILED. If none raises, the task
   * is COMPLETED with all results and their summary, unless the summary
   * raises. Other tasks and their steps do not change.
   */
  lemma ExecutedOutcome(tasks: seq<Task>, steps: seq<TaskStep>, taskId: int, agents: seq<Agent>,
                        respond: Call -> AgentCall, now: int) returns (k: nat, rs: seq<Json>)
    requires WellFormedTables(tasks, steps) && WellFormedAgents(agents)
    requires 1 <= taskId <= |tasks|
    ensures RowsWithin(OrderByStepNumber(StepsOf(steps, taskId)), |steps|, |tasks|)
    ensures k <= |OrderByStepNumber(StepsOf(steps, taskId))| && |rs| == k
    ensures var todo := OrderByStepNumber(StepsOf(steps, taskId));
      forall j :: 0 <= j < k ==>
        && !StepRaises(todo[j], ContextAfter([], todo[..j], rs[..j], ContextKey), agents, respond)
        && ExecuteStep(todo[j], ContextAfter([], todo[..j], rs[..j], ContextKey), agents, respond) == Ok(rs[j])
    ensures var todo := OrderByStepNumber(StepsOf(steps, taskId));
      RowsCompleted(Executed(tasks, steps, taskId, agents, respond, now).2, todo, 0, k, rs, now)
    ensures var todo := OrderByStepNumber(StepsOf(steps, taskId));
      var c := ContextAfter([], todo[..k], rs, ContextKey);
      k < |todo| ==>
        && StepRaises(todo[k], c, agents, respond)
        && ExecuteStep(todo[k], c, agents, respond).Err?
        && FailedAt(tasks, taskId, todo[k], ExecuteStep(todo[k], c, agents, respond).msg,
                    Executed(tasks, steps, taskId, agents, respond, now))
        && RowsKept(Executed(tasks, steps, taskId, agents, respond, now).2, steps, todo, 0, k + 1)
    ensures k == |OrderByStepNumber(StepsOf(steps, taskId))| ==>
      CompletedWith(tasks, taskId, rs, now, Executed(tasks, steps, taskId, agents, respond, now))
    ensures OtherTasksKept(steps, Executed(tasks, steps, taskId, agents, respond, now).2, taskId)
  {
    OrderedSteps(tasks, steps, taskId);
    OrderedStepsWithin(tasks, steps, taskId);
    var todo := OrderByStepNumber(StepsOf(steps, taskId));
    var exec := Executing(agents, respond);
    var run := RunFrom(steps, todo, 0, [], [], exec, ContextKey, now);
    RunFromReturned(steps, todo, 0, [], [], exec, ContextKey, now);
    RunFromRows(steps, todo, 0, [], [], exec, ContextKey, now);
    k, rs := |run.results|, run.results;
    assert run == TaskRun(tasks, steps, taskId, agents, respond, now);
    var task := tasks[taskId - 1].(status := InProgress);
    var e := Executed(tasks, steps, taskId, agents, respond, now);
    assert e == (Conclude(task, run, now).0, tasks[taskId - 1 := Conclude(task, run, now).1], run.steps);
    ReachedStepsReturned(todo, run, agents, respond);
    StoppedStepRaised(todo, run, agents, respond);
    ReachedRowsOfTask(tasks, steps, taskId, Reached(run, k));
    ConcludedTables(tasks, steps, taskId, todo, run, e, now);
  }

  /** The steps a run got through returned its results and did not raise. */
  lemma ReachedStepsReturned(todo: seq<TaskStep>, run: Run, agents: seq<Agent>, respond: Call -> AgentCall)
    requires WellFormedAgents(agents)
    requires ReturnedOutcome(run, todo, 0, [], [], Executing(agents, respond), ContextKey)
    ensures |run.results| <= |todo|
    ensures forall j :: 0 <= j < |run.results| ==>
      && !StepRaises(todo[j], ContextAfter([], todo[..j], run.results[..j], ContextKey), agents, respond)
      && ExecuteStep(todo[j], ContextAfter([], todo[..j], run.results[..j], ContextKey), agents, respond) == Ok(run.results[j])
  {
    var rs := run.results;
    assert NewResults(run, []) == rs;
    forall j | 0 <= j < |rs|
      ensures !StepRaises(todo[j], ContextAfter([], todo[..j], rs[..j], ContextKey), agents, respond)
      ensures ExecuteStep(todo[j], ContextAfter([], todo[..j], rs[..j], ContextKey), agents, respond) == Ok(rs[j])
    {
      assert todo[0..j] == todo[..j] && rs[..j - 0] == rs[..j];
      StepOutcome(todo[j], ContextAfter([], todo[..j], rs[..j], ContextKey), agents, respond);
    }
  }

  /** The step a run stopped at raised. */
  lemma StoppedStepRaised(todo: seq<TaskStep>, run: Run, agents: seq<Agent>, respond: Call -> AgentCall)
    requires WellFormedAgents(agents)
    requires ReturnedOutcome(run, todo, 0, [], [], Executing(agents, respond), ContextKey)
    ensures |run.results| <= |todo|
    ensures run.Finished? <==> |run.results| == |todo|
    ensures run.Stopped? ==>
      var c := ContextAfter([], todo[..|run.results|], run.results, ContextKey);
      && run.stepNumber == todo[|run.results|].stepNumber
      && StepRaises(todo[|run.results|], c, agents, respond)
      && ExecuteStep(todo[|run.results|], c, agents, respond) == Err(run.error)
  {
    var k := |run.results|;
    assert NewResults(run, []) == run.results;
    if run.Stopped? {
      assert todo[0..k] == todo[..k];
      StepOutcome(todo[k], ContextAfter([], todo[..k], run.results, ContextKey), agents, respond);
    }
  }

  /** The tables `execute_task` leaves, given how its step loop ran. */
  lemma ConcludedTables(tasks: seq<Task>, steps: seq<TaskStep>, taskId: int, todo: seq<TaskStep>, run: Run,
                        e: (Result<Json>, seq<Task>, seq<TaskStep>), now: int)
    requires 1 <= taskId <= |tasks|
    requires RowsWithin(todo, |steps|, |tasks|) && DistinctIds(todo)
    requires RowsOutcome(run, steps, todo, 0, [], now)
    requires run.Stopped? ==> |run.results| < |todo| && run.stepNumber == todo[|run.results|].stepNumber
    requires forall x :: 0 <= x < |steps| && Visited(todo, 0, Reached(run, |run.results|), x) ==> steps[x].taskId == taskId
    requires var task := tasks[taskId - 1].(status := InProgress);
      e == (Conclude(task, run, now).0, tasks[taskId - 1 := Conclude(task, run, now).1], run.steps)
    ensures |run.results| <= |todo| && |e.2| == |steps|
    ensures RowsCompleted(e.2, todo, 0, |run.results|, run.results, now)
    ensures |run.results| < |todo| ==>
      && run.Stopped? && FailedAt(tasks, taskId, todo[|run.results|], run.error, e)
      && RowsKept(e.2, steps, todo, 0, |run.results| + 1)
    ensures |run.results| == |todo| ==> CompletedWith(tasks, taskId, run.results, now, e)
    ensures OtherTasksKept(steps, e.2, taskId)
  {
    assert NewResults(run, []) == run.results;
  }

  /** A task without steps completes at once, with "Completed 0/0 steps successfully." */
  lemma ExecutedNoSteps(tasks: seq<Task>, steps: seq<TaskStep>, taskId: int, agents: seq<Agent>,
                        respond: Call -> AgentCall, now: int)
    requires WellFormedTables(tasks, steps) && WellFormedAgents(agents)
    requires 1 <= taskId <= |tasks| && StepsOf(steps, taskId) == []
    ensures var done := CompletionResult([], "Completed 0/0 steps successfully.");
      Executed(tasks, steps, taskId, agents, respond, now)
      == (Ok(done), tasks[taskId - 1 := tasks[taskId - 1].(status := Completed, result := Some(done), completedAt := Some(now))],
          steps)
  {
    assert Strings.NatToString(0) == "0";
    assert FirstNonDict([]) == None && SuccessCount([]) == 0;
    assert "Completed " + "0" + "/" + "0" + " steps successfully." == "Completed 0/0 steps successfully.";
    assert TaskRun(tasks, steps, taskId, agents, respond, now) == Finished(steps, [], []);
  }

  /**
   * A task whose first step (by step number) has no agent assigned stops
   * there: that step is FAILED with "Agent None not found", so is the task,
   * and no other step row changes.
   */
  lemma ExecutedUnassignedFirst(tasks: seq<Task>, steps: seq<TaskStep>, taskId: int, agents: seq<Agent>,
                                respond: Call -> AgentCall, now: int)
    requires WellFormedTables(tasks, steps) && WellFormedAgents(agents)
    requires 1 <= taskId <= |tasks|
    requires var todo := OrderByStepNumber(StepsOf(steps, taskId)); todo != [] && todo[0].agentId.None?
    ensures var todo := OrderByStepNumber(StepsOf(steps, taskId));
      var e := Executed(tasks, steps, taskId, agents, respond, now);
      && RowsWithin(todo, |steps|, |tasks|)
      && FailedAt(tasks, taskId, todo[0], "Agent None not found", e)
      && RowsKept(e.2, steps, todo, 0, 1)
  {
    var todo := OrderByStepNumber(StepsOf(steps, taskId));
    var k, rs := ExecutedOutcome(tasks, steps, taskId, agents, respond, now);
    assert StepRaises(todo[0], ContextAfter([], todo[..0], rs[..0], ContextKey), agents, respond);
    assert k == 0;
    UnassignedStep(todo[0], ContextAfter([], todo[..0], rs, ContextKey), agents, respond);
  }

  /**
   * A task whose first step is assigned to a local agent does not stop
   * there: that step is COMPLETED with the "Unknown agent type: local"
   * error dict as its result.
   */
  lemma ExecutedLocalFirst(tasks: seq<Task>, steps: seq<TaskStep>, taskId: int, agents: seq<Agent>,
                           respond: Call -> AgentCall, now: int)
    requires WellFormedTables(tasks, steps) && WellFormedAgents(agents)
    requires 1 <= taskId <= |tasks|
    requires var todo := OrderByStepNumber(StepsOf(steps, taskId));
      && todo != [] && todo[0].agentId.Some? && FindAgent(agents, todo[0].agentId.value).Some?
      && FindAgent(agents, todo[0].agentId.value).value.agentType == Local
    ensures var todo := OrderByStepNumber(StepsOf(steps, taskId));
      && RowsWithin(todo, |steps|, |tasks|)
      && Executed(tasks, steps, taskId, agents, respond, now).2[todo[0].id - 1]
         == CompletedRow(todo[0], JObj([("error", JStr("Unknown agent type: local"))]), now)
  {
    var todo := OrderByStepNumber(StepsOf(steps, taskId));
    var k, rs := ExecutedOutcome(tasks, steps, taskId, agents, respond, now);
    var c := ContextAfter([], todo[..0], rs[..0], ContextKey);
    StepOutcome(todo[0], c, agents, respond);
    assert !StepRaises(todo[0], c, agents, respond);
    assert 0 < k;
  }

  lemma UnassignedStep(step: TaskStep, context: Fields, agents: seq<Agent>, respond: Call -> AgentCall)
    requires WellFormedAgents(agents) && step.agentId.None?
    ensures ExecuteStep(step, context, agents, respond) == Err("Agent None not found")
  {
    assert "Agent " + AgentIdText(None) + " not found" == "Agent None not found";
  }

  /** Runs tasks over the task tables, looking agents up in the registry. */
  class TaskExecutor {
    const tables: TaskTables
    const registry: Registry.AgentRegistry

    predicate Valid()
      reads this, tables, registry
    {
      tables.Valid() && registry.Valid()
    }

    constructor (tables: TaskTables, registry: Registry.AgentRegistry)
      requires tables.Valid() && registry.Valid()
      ensures this.tables == tables && this.registry == registry && Valid()
    {
      this.tables := tables;
      this.registry := registry;
    }

    /**
     * One row of the step loop: it is run and recorded as COMPLETED with its
     * result, which joins the results and the context, or as FAILED.
     */
    method RunStep(todo: seq<TaskStep>, i: nat, results: seq<Json>, context: Fields,
                   agents: seq<Agent>, respond: Call -> AgentCall, now: int)
      returns (out: Result<Json>, results': seq<Json>, context': Fields)
      requires Valid() && WellFormedAgents(agents)
      requires i < |todo| && RowsWithin(todo, |tables.steps|, |tables.tasks|)
      modifies tables
      ensures Valid() && tables.tasks == old(tables.tasks) && |tables.steps| == |old(tables.steps)|
      ensures out == ExecuteStep(todo[i], context, agents, respond)
      ensures out.Err? ==> results' == results && context' == context
      ensures out.Err? ==> RunFrom(old(tables.steps), todo, i, results, context, Executing(agents, respond), ContextKey, now)
                           == Stopped(tables.steps, results, todo[i].stepNumber, out.msg)
      ensures out.Ok? ==> RunFrom(old(tables.steps), todo, i, results, context, Executing(agents, respond), ContextKey, now)
                          == RunFrom(tables.steps, todo, i + 1, results', context', Executing(agents, respond), ContextKey, now)
    {
      var s := todo[i];
      out := ExecuteStep(s, context, agents, respond);
      if out.Err? {
        tables.SaveStep(FailedRow(s, out.msg));
        results', context' := results, context;
      } else {
        tables.SaveStep(CompletedRow(s, out.value, now));
        results' := results + [out.value];
        context' := Put(context, ContextKey(s.stepNumber), out.value);
      }
    }

    /**
     * The step loop of `execute_task`: each row in turn is run and marked
     * COMPLETED with its result, until one raises and is marked FAILED.
     */
    method RunSteps(todo: seq<TaskStep>, respond: Call -> AgentCall, now: int) returns (run: Run)
      requires Valid() && RowsWithin(todo, |tables.steps|, |tables.tasks|)
      modifies tables
      ensures Valid()
      ensures tables.tasks == old(tables.tasks)
      ensures run == RunFrom(old(tables.steps), todo, 0, [], [], Executing(registry.agents, respond), ContextKey, now)
      ensures tables.steps == run.steps
    {
      var agents := registry.agents;
      ghost var goal := RunFrom(tables.steps, todo, 0, [], [], Executing(agents, respond), ContextKey, now);
      var results: seq<Json> := [];
      var context: Fields := [];
      var i := 0;
      while i < |todo|
        invariant 0 <= i <= |todo|
        invariant tables.Valid() && tables.tasks == old(tables.tasks)
        invariant |tables.steps| == |old(tables.steps)|
        invariant RunFrom(tables.steps, todo, i, results, context, Executing(agents, respond), ContextKey, now) == goal
      {
        var out;
        out, results, context := RunStep(todo, i, results, context, agents, respond, now);
        if out.Err? {
          return Stopped(tables.steps, results, todo[i].stepNumber, out.msg);
        }
        i := i + 1;
      }
      run := Finished(tables.steps, results, context);
    }

    /**
     * `execute_task`: an unknown id is reported in the result. Otherwise the
     * task goes IN_PROGRESS and its steps run in step-number order; the first
     * step that raises is FAILED and fails the task, and when all complete
     * the task is COMPLETED with the results and their summary. A summary
     * that raises leaves the task IN_PROGRESS.
     */
    method ExecuteTask(taskId: int, respond: Call -> AgentCall, now: int) returns (r: Result<Json>)
      requires Valid()
      modifies tables
      ensures Valid()
      ensures (r, tables.tasks, tables.steps)
              == Executed(old(tables.tasks), old(tables.steps), taskId, registry.agents, respond, now)
    {
      if !(1 <= taskId <= |tables.tasks|) {
        return Ok(TaskNotFound(taskId));
      }
      ghost var expected := TaskRun(tables.tasks, tables.steps, taskId, registry.agents, respond, now);
      ghost var executed := Executed(tables.tasks, tables.steps, taskId, registry.agents, respond, now);
      ghost var before := tables.tasks;
      OrderedStepsWithin(tables.tasks, tables.steps, taskId);
      var todo := OrderByStepNumber(StepsOf(tables.steps, taskId));
      var task := tables.tasks[taskId - 1].(status := InProgress);
      tables.SaveTask(task);
      var run := RunSteps(todo, respond, now);
      assert run == expected;
      var outcome := Conclude(task, run, now);
      assert executed == (outcome.0, before[taskId - 1 := outcome.1], run.steps);
      assert task.id == taskId && outcome.1.id == taskId;
      UpdateTwice(before, taskId - 1, task, outcome.1);
      tables.SaveTask(outcome.1);
      r := outcome.0;
      assert tables.tasks == executed.1 && tables.steps == executed.2 && r == executed.0;
    }

    /** `cancel_task`: an unknown id is reported; otherwise the task becomes CANCELLED. */
    method CancelTask(taskId: int) returns (r: Json)
      requires Valid()
      modifies tables
      ensures Valid()
      ensures tables.steps == old(tables.steps)
      ensures !(1 <= taskId <= |old(tables.tasks)|) ==> r == TaskNotFound(taskId) && tables.tasks == old(tables.tasks)
      ensures 1 <= taskId <= |old(tables.tasks)| ==>
        && r == JObj([("status", JStr("cancelled")), ("task_id", JInt(taskId))])
        && tables.tasks == old(tables.tasks)[taskId - 1 := old(tables.tasks)[taskId - 1].(status := Cancelled)]
    {
      if !(1 <= taskId <= |tables.tasks|) {
        return TaskNotFound(taskId);
      }
      tables.SaveTask(tables.tasks[taskId - 1].(status := Cancelled));
      r := JObj([("status", JStr("cancelled")), ("task_id", JInt(taskId))]);
    }
  }
}
