/**
 * Planning: turning a task description and the planner model's reply into a
 * task row and one pending step row per plan step; editing a task; and
 * picking the steps still to run.
 */
module Planner {
  import opened Wrappers
  import opened JsonData
  import opened AgentModel
  import Registry
  import Strings
  import opened TaskModel

  /** The planner model's reply: a plan it parsed, or text that is not JSON. */
  datatype PlanReply = Parsed(plan: Plan) | NotJson

  /** The agents offered to the planner: the active ones, in table order. */
  function ActiveAgents(agents: seq<Agent>): (r: seq<Agent>)
    ensures forall a :: a in r <==> a in agents && a.status == Active
  {
    Registry.ListFrom(agents, None, Some(Active))
  }

  /** The one-step plan used when the reply is not JSON. */
  function FallbackPlan(description: string, active: seq<Agent>): Plan {
    Plan(
      [PlanStep(1, description,
                if active == [] then None else Some(active[0].id),
                Some(JStr(if active == [] then "unknown" else active[0].name)),
                Some(JArr([])),
                Some(JStr("Task completion")))],
      Some(JStr("unknown")),
      Some(JStr("medium")))
  }

  function PlanFor(reply: PlanReply, description: string, active: seq<Agent>): Plan {
    if reply.Parsed? then reply.plan else FallbackPlan(description, active)
  }

  /** `[step["agent_id"] for step in plan["steps"]]`. */
  function AgentIdsOf(steps: seq<PlanStep>): (r: seq<Option<int>>)
    ensures |r| == |steps|
  {
    if steps == [] then [] else [steps[0].agentId] + AgentIdsOf(steps[1..])
  }

  /** The new task row: PLANNING, agents from the steps, complexity defaulting to "medium". */
  function NewTask(id: nat, sessionId: string, description: string, plan: Plan, now: int): Task {
    Task(id, sessionId, description, plan, Planning, AgentIdsOf(plan.steps), None, now, None,
         JObj([("complexity", plan.complexity.GetOr(JStr("medium")))]))
  }

  /** The step row for one plan step: PENDING, with the dependencies (default []) as input. */
  function NewStep(id: nat, taskId: nat, s: PlanStep, now: int): TaskStep {
    TaskStep(id, taskId, s.stepNumber, s.agentId, s.description, Pending,
             JObj([("dependencies", s.dependencies.GetOr(JArr([])))]), None, now, None)
  }

  /** The step rows for a plan, ids counting up from `firstId`. */
  function NewSteps(firstId: nat, taskId: nat, steps: seq<PlanStep>, now: int): (r: seq<TaskStep>)
    ensures |r| == |steps|
    decreases |steps|
  {
    if steps == [] then [] else [NewStep(firstId, taskId, steps[0], now)] + NewSteps(firstId + 1, taskId, steps[1..], now)
  }

  /** Row `k` is plan step `k` with id `firstId + k`: pending, and of task `taskId`. */
  lemma {:induction false} NewStepsAt(firstId: nat, taskId: nat, steps: seq<PlanStep>, now: int)
    ensures forall k :: 0 <= k < |steps| ==> NewSteps(firstId, taskId, steps, now)[k] == NewStep(firstId + k, taskId, steps[k], now)
    ensures forall k :: 0 <= k < |steps| ==>
      NewSteps(firstId, taskId, steps, now)[k].taskId == taskId && NewSteps(firstId, taskId, steps, now)[k].status == Pending
    decreases |steps|
  {
    if steps != [] {
      NewStepsAt(firstId + 1, taskId, steps[1..], now);
      var r := NewSteps(firstId, taskId, steps, now);
      forall k | 1 <= k < |steps| ensures r[k] == NewStep(firstId + k, taskId, steps[k], now) {
        assert r[k] == NewSteps(firstId + 1, taskId, steps[1..], now)[k - 1];
        assert steps[1..][k - 1] == steps[k];
      }
    }
  }

  /** One more plan step adds one row, with the next id. */
  lemma NewStepsSnoc(firstId: nat, taskId: nat, steps: seq<PlanStep>, i: nat, now: int)
    requires i < |steps|
    ensures NewSteps(firstId, taskId, steps[..i + 1], now)
         == NewSteps(firstId, taskId, steps[..i], now) + [NewStep(firstId + i, taskId, steps[i], now)]
  {
    var a := NewSteps(firstId, taskId, steps[..i + 1], now);
    var b := NewSteps(firstId, taskId, steps[..i], now) + [NewStep(firstId + i, taskId, steps[i], now)];
    NewStepsAt(firstId, taskId, steps[..i + 1], now);
    NewStepsAt(firstId, taskId, steps[..i], now);
    assert |a| == |b|;
    forall k | 0 <= k < |a| ensures a[k] == b[k] {
      assert steps[..i + 1][k] == if k < i then steps[..i][k] else steps[i];
    }
  }

  /** One `key: value` item of an `update_plan` dict. */
  datatype TaskUpdate =
    | SetSessionId(sessionId: string)
    | SetDescription(description: string)
    | SetPlan(plan: Plan)
    | SetStatus(status: TaskStatus)
    | SetAssignedAgents(assignedAgents: seq<Option<int>>)
    | SetResult(result: Option<Json>)
    | SetCompletedAt(completedAt: Option<int>)
    | SetMetadata(metadata: Json)
    | NotAnAttribute(key: string)

  function ApplyUpdate(t: Task, u: TaskUpdate): Task {
    match u
    case SetSessionId(v) => t.(sessionId := v)
    case SetDescription(v) => t.(description := v)
    case SetPlan(v) => t.(plan := v)
    case SetStatus(v) => t.(status := v)
    case SetAssignedAgents(v) => t.(assignedAgents := v)
    case SetResult(v) => t.(result := v)
    case SetCompletedAt(v) => t.(completedAt := v)
    case SetMetadata(v) => t.(metadata := v)
    case NotAnAttribute(_) => t
  }

  function ApplyUpdates(t: Task, us: seq<TaskUpdate>): Task {
    if us == [] then t else ApplyUpdate(ApplyUpdates(t, us[..|us| - 1]), us[|us| - 1])
  }

  /**
   * Keys that name no attribute change nothing, and none of the modelled
   * update items touches the id or the creation time. The source has no such
   * guard: `TaskUpdate` simply has no item for `id` or `created_at`.
   */
  lemma {:induction false} UpdatesKeepIdentity(t: Task, us: seq<TaskUpdate>)
    ensures ApplyUpdates(t, us).id == t.id && ApplyUpdates(t, us).createdAt == t.createdAt
    ensures (forall i :: 0 <= i < |us| ==> us[i].NotAnAttribute?) ==> ApplyUpdates(t, us) == t
  {
    if us != [] {
      UpdatesKeepIdentity(t, us[..|us| - 1]);
    }
  }

  /** A later item for the same attribute wins. */
  lemma LastStatusWins(t: Task, us: seq<TaskUpdate>, s: TaskStatus)
    ensures ApplyUpdates(t, us + [SetStatus(s)]).status == s
  {
    assert (us + [SetStatus(s)])[..|us|] == us;
  }

  /** The pending steps of a task, in row order. */
  function PendingStepsOf(steps: seq<TaskStep>, taskId: int): (r: seq<TaskStep>)
    ensures |r| <= |steps|
  {
    if steps == [] then []
    else
      var last := steps[|steps| - 1];
      PendingStepsOf(steps[..|steps| - 1], taskId) + (if last.taskId == taskId && last.status == Pending then [last] else [])
  }

  /** The pending filter keeps exactly the task's pending rows. */
  lemma {:induction false} PendingStepsOfMembers(steps: seq<TaskStep>, taskId: int)
    ensures forall x :: x in PendingStepsOf(steps, taskId) <==> x in steps && x.taskId == taskId && x.status == Pending
  {
    if steps != [] {
      var init, last := steps[..|steps| - 1], steps[|steps| - 1];
      PendingStepsOfMembers(init, taskId);
      assert steps == init + [last];
    }
  }

  /** `get_next_steps`: the task's pending steps ordered by step number. */
  function NextSteps(steps: seq<TaskStep>, taskId: int): (r: seq<TaskStep>)
    ensures SortedByStepNumber(r)
    ensures multiset(r) == multiset(PendingStepsOf(steps, taskId))
    ensures forall x :: x in r <==> x in steps && x.taskId == taskId && x.status == Pending
  {
    var pending := PendingStepsOf(steps, taskId);
    PendingStepsOfMembers(steps, taskId);
    OrderByStepNumberCorrect(pending);
    var r := OrderByStepNumber(pending);
    assert forall x :: x in r <==> x in multiset(r);
    assert forall x :: x in pending <==> x in multiset(pending);
    r
  }

  /** Rows whose task ids are all at most `n` hold no step of task `n + 1`. */
  lemma {:induction false} NoStepsBeyond(steps: seq<TaskStep>, n: int)
    requires forall i :: 0 <= i < |steps| ==> steps[i].taskId <= n
    ensures StepsOf(steps, n + 1) == []
    ensures PendingStepsOf(steps, n + 1) == []
  {
    if steps != [] {
      NoStepsBeyond(steps[..|steps| - 1], n);
    }
  }

  /** Before a task is added, no row belongs to it. */
  lemma NoStepsForNewTask(tasks: seq<Task>, steps: seq<TaskStep>)
    requires WellFormedTables(tasks, steps)
    ensures StepsOf(steps, |tasks| + 1) == []
    ensures PendingStepsOf(steps, |tasks| + 1) == []
  {
    NoStepsBeyond(steps, |tasks|);
  }

  lemma StepsOfSnoc(xs: seq<TaskStep>, x: TaskStep, taskId: int)
    ensures StepsOf(xs + [x], taskId) == StepsOf(xs, taskId) + (if x.taskId == taskId then [x] else [])
  {
    var all := xs + [x];
    assert all[..|all| - 1] == xs;
  }

  lemma PendingStepsOfSnoc(xs: seq<TaskStep>, x: TaskStep, taskId: int)
    ensures PendingStepsOf(xs + [x], taskId) == PendingStepsOf(xs, taskId) + (if x.taskId == taskId && x.status == Pending then [x] else [])
  {
    var all := xs + [x];
    assert all[..|all| - 1] == xs;
  }

  /** Appending rows of one task adds exactly those rows to its steps. */
  lemma {:induction false} StepsOfAppend(steps: seq<TaskStep>, extra: seq<TaskStep>, taskId: int)
    requires forall k :: 0 <= k < |extra| ==> extra[k].taskId == taskId
    ensures StepsOf(steps + extra, taskId) == StepsOf(steps, taskId) + extra
    decreases |extra|
  {
    if extra == [] {
      assert steps + extra == steps;
    } else {
      var init, last := extra[..|extra| - 1], extra[|extra| - 1];
      assert init + [last] == extra;
      Seqs.AppendAssoc(steps, init, [last]);
      StepsOfAppend(steps, init, taskId);
      StepsOfSnoc(steps + init, last, taskId);
      Seqs.AppendAssoc(StepsOf(steps, taskId), init, [last]);
    }
  }

  /** Appending pending rows of one task adds exactly those rows to its pending steps. */
  lemma {:induction false} PendingStepsOfAppend(steps: seq<TaskStep>, extra: seq<TaskStep>, taskId: int)
    requires forall k :: 0 <= k < |extra| ==> extra[k].taskId == taskId && extra[k].status == Pending
    ensures PendingStepsOf(steps + extra, taskId) == PendingStepsOf(steps, taskId) + extra
    decreases |extra|
  {
    if extra == [] {
      assert steps + extra == steps;
    } else {
      var init, last := extra[..|extra| - 1], extra[|extra| - 1];
      assert init + [last] == extra;
      Seqs.AppendAssoc(steps, init, [last]);
      PendingStepsOfAppend(steps, init, taskId);
      PendingStepsOfSnoc(steps + init, last, taskId);
      Seqs.AppendAssoc(PendingStepsOf(steps, taskId), init, [last]);
    }
  }

  /** Task planning over the task tables, offering the registry's active agents. */
  class TaskPlanner {
    const tables: TaskTables
    const registry: Registry.AgentRegistry

    predicate Valid()
      reads this, tables, registry
    {
      tables.Valid() && registry.Valid()
    }

    constructor (tables: TaskTables, registry: Registry.AgentRegistry)
      requires tables.Valid() && registry.Valid()
      ensures this.tables == tables && this.registry == registry && Valid()
    {
      this.tables := tables;
      this.registry := registry;
    }

    /**
     * `create_execution_plan`: one PLANNING task for the parsed plan (or the
     * fallback plan), then one PENDING step row per plan step in plan order.
     */
    method CreateExecutionPlan(description: string, sessionId: string, reply: PlanReply, now: int) returns (task: Task)
      requires Valid()
      modifies tables
      ensures Valid()
      ensures var plan := PlanFor(reply, description, ActiveAgents(registry.agents));
        && task == NewTask(|old(tables.tasks)| + 1, sessionId, description, plan, now)
        && tables.tasks == old(tables.tasks) + [task]
        && tables.steps == old(tables.steps) + NewSteps(|old(tables.steps)| + 1, task.id, plan.steps, now)
    {
      var plan := PlanFor(reply, description, ActiveAgents(registry.agents));
      task := NewTask(|tables.tasks| + 1, sessionId, description, plan, now);
      tables.AddTask(task);
      ghost var before := tables.steps;
      var i := 0;
      while i < |plan.steps|
        invariant 0 <= i <= |plan.steps|
        invariant tables.Valid()
        invariant tables.tasks == old(tables.tasks) + [task]
        invariant tables.steps == before + NewSteps(|before| + 1, task.id, plan.steps[..i], now)
      {
        assert |tables.steps| == |before| + i;
        var row := NewStep(|tables.steps| + 1, task.id, plan.steps[i], now);
        NewStepsSnoc(|before| + 1, task.id, plan.steps, i, now);
        tables.AddStep(row);
        Seqs.AppendAssoc(before, NewSteps(|before| + 1, task.id, plan.steps[..i], now), [row]);
        i := i + 1;
      }
      assert plan.steps[..i] == plan.steps;
    }

    /** `update_plan`: an unknown id raises; otherwise the items are applied in order. */
    method UpdatePlan(taskId: int, updates: seq<TaskUpdate>) returns (r: Result<Task>)
      requires Valid()
      modifies tables
      ensures Valid()
      ensures tables.steps == old(tables.steps)
      ensures !(1 <= taskId <= |old(tables.tasks)|) ==>
        r == Err("Task " + Strings.IntToString(taskId) + " not found") && tables.tasks == old(tables.tasks)
      ensures 1 <= taskId <= |old(tables.tasks)| ==>
        && r == Ok(ApplyUpdates(old(tables.tasks)[taskId - 1], updates))
        && tables.tasks == old(tables.tasks)[taskId - 1 := r.value]
    {
      if !(1 <= taskId <= |tables.tasks|) {
        return Err("Task " + Strings.IntToString(taskId) + " not found");
      }
      var t := tables.tasks[taskId - 1];
      var i := 0;
      while i < |updates|
        invariant 0 <= i <= |updates|
        invariant t == ApplyUpdates(tables.tasks[taskId - 1], updates[..i])
      {
        assert updates[..i + 1][..i] == updates[..i];
        t := ApplyUpdate(t, updates[i]);
        i := i + 1;
      }
      assert updates[..i] == updates;
      UpdatesKeepIdentity(tables.tasks[taskId - 1], updates);
      tables.tasks := tables.tasks[taskId - 1 := t];
      r := Ok(t);
    }

    /** `get_next_steps`. */
    function GetNextSteps(taskId: int): (r: seq<TaskStep>)
      reads tables
      ensures SortedByStepNumber(r)
      ensures forall x :: x in r <==> x in tables.steps && x.taskId == taskId && x.status == Pending
    {
      NextSteps(tables.steps, taskId)
    }
  }

  /**
   * A freshly planned task's rows: its steps are exactly the new rows, all
   * pending and in plan order, and the agents the task lists are theirs.
   */
  lemma PlannedTaskSteps(tasks: seq<Task>, steps: seq<TaskStep>, plan: Plan, now: int)
    requires WellFormedTables(tasks, steps)
    ensures StepsOf(steps + NewSteps(|steps| + 1, |tasks| + 1, plan.steps, now), |tasks| + 1)
            == NewSteps(|steps| + 1, |tasks| + 1, plan.steps, now)
  {
    var rows := NewSteps(|steps| + 1, |tasks| + 1, plan.steps, now);
    NoStepsForNewTask(tasks, steps);
    NewStepsAt(|steps| + 1, |tasks| + 1, plan.steps, now);
    StepsOfAppend(steps, rows, |tasks| + 1);
  }

  /** ... and all of them are still to run. */
  lemma PlannedTaskPending(tasks: seq<Task>, steps: seq<TaskStep>, plan: Plan, now: int)
    requires WellFormedTables(tasks, steps)
    ensures PendingStepsOf(steps + NewSteps(|steps| + 1, |tasks| + 1, plan.steps, now), |tasks| + 1)
            == NewSteps(|steps| + 1, |tasks| + 1, plan.steps, now)
  {
    var rows := NewSteps(|steps| + 1, |tasks| + 1, plan.steps, now);
    NoStepsForNewTask(tasks, steps);
    NewStepsAt(|steps| + 1, |tasks| + 1, plan.steps, now);
    PendingStepsOfAppend(steps, rows, |tasks| + 1);
  }

  /** The task's assigned agents are, position by position, the agents of its step rows. */
  lemma AssignedAgentsMatchSteps(id: nat, sessionId: string, description: string, plan: Plan, firstId: nat, now: int)
    ensures var task := NewTask(id, sessionId, description, plan, now);
      var rows := NewSteps(firstId, id, plan.steps, now);
      |task.assignedAgents| == |rows| &&
      forall k :: 0 <= k < |rows| ==> rows[k].agentId == task.assignedAgents[k] && rows[k].status == Pending
  {
    AgentIdsAt(plan.steps);
    NewStepsAt(firstId, id, plan.steps, now);
  }

  lemma {:induction false} AgentIdsAt(steps: seq<PlanStep>)
    ensures forall k :: 0 <= k < |steps| ==> AgentIdsOf(steps)[k] == steps[k].agentId
  {
    if steps != [] {
      AgentIdsAt(steps[1..]);
    }
  }

  /**
   * Without a parsable reply the task gets one step: the whole description,
   * the first active agent (or none), and no dependencies.
   */
  lemma FallbackSteps(agents: seq<Agent>, firstId: nat, taskId: nat, description: string, now: int)
    ensures var active := ActiveAgents(agents);
      var rows := NewSteps(firstId, taskId, PlanFor(NotJson, description, active).steps, now);
      && |rows| == 1
      && rows[0].stepNumber == 1 && rows[0].description == description && rows[0].status == Pending
      && (rows[0].agentId.Some? <==> exists a :: a in agents && a.status == Active)
      && (rows[0].agentId.Some? ==> exists a :: a in agents && a.status == Active && a.id == rows[0].agentId.value)
      && rows[0].inputData == JObj([("dependencies", JArr([]))])
  {
    var active := ActiveAgents(agents);
    NewStepsAt(firstId, taskId, PlanFor(NotJson, description, active).steps, now);
    if active != [] {
      assert active[0] in active;
    }
  }
}
