/** The `tasks` and `task_steps` tables. */
module TaskModel {
  import opened Wrappers
  import opened JsonData
  import Seqs

  /** The life-cycle states shared by tasks and their steps. */
  datatype TaskStatus = Pending | Planning | InProgress | Completed | Failed | Cancelled

  const AllTaskStatuses: seq<TaskStatus> := [Pending, Planning, InProgress, Completed, Failed, Cancelled]

  function TaskStatusValue(s: TaskStatus): string {
    match s
    case Pending => "pending"
    case Planning => "planning"
    case InProgress => "in_progress"
    case Completed => "completed"
    case Failed => "failed"
    case Cancelled => "cancelled"
  }

  /** `TaskStatus` has exactly six members with distinct values. */
  lemma TaskStatusesExact()
    ensures forall s: TaskStatus :: s in AllTaskStatuses
    ensures |AllTaskStatuses| == 6
    ensures forall i, j :: 0 <= i < j < 6 ==> TaskStatusValue(AllTaskStatuses[i]) != TaskStatusValue(AllTaskStatuses[j])
  {
    forall s: TaskStatus ensures s in AllTaskStatuses {
      match s
      case Pending => assert AllTaskStatuses[0] == s;
      case Planning => assert AllTaskStatuses[1] == s;
      case InProgress => assert AllTaskStatuses[2] == s;
      case Completed => assert AllTaskStatuses[3] == s;
      case Failed => assert AllTaskStatuses[4] == s;
      case Cancelled => assert AllTaskStatuses[5] == s;
    }
  }

  /** The column default of `status` on both tables. */
  const DefaultTaskStatus: TaskStatus := Pending

  /**
   * One step of an execution plan as the planner's JSON carries it, for a
   * reply of the expected shape: `step_number`, `description` and `agent_id`
   * are present (the planner reads them with `[...]`); `agent_id` may be
   * null (`None`); the other keys may be missing (`None`).
   */
  datatype PlanStep = PlanStep(
    stepNumber: int,
    description: string,
    agentId: Option<int>,
    agentName: Option<Json>,
    dependencies: Option<Json>,
    expectedOutput: Option<Json>)

  /** An execution plan: its steps and the optional estimates. */
  datatype Plan = Plan(steps: seq<PlanStep>, estimatedDuration: Option<Json>, complexity: Option<Json>)

  /** One row of `tasks`. `metadata` is the `meta_data` column. */
  datatype Task = Task(
    id: nat,
    sessionId: string,
    description: string,
    plan: Plan,
    status: TaskStatus,
    assignedAgents: seq<Option<int>>,
    result: Option<Json>,
    createdAt: int,
    completedAt: Option<int>,
    metadata: Json)

  /** One row of `task_steps`: it belongs to task `taskId` and names agent `agentId`. */
  datatype TaskStep = TaskStep(
    id: nat,
    taskId: nat,
    stepNumber: int,
    agentId: Option<int>,
    description: string,
    status: TaskStatus,
    inputData: Json,
    outputData: Option<Json>,
    createdAt: int,
    completedAt: Option<int>)

  /** Ids are positions + 1 in both tables and every step belongs to an existing task. */
  predicate WellFormedTables(tasks: seq<Task>, steps: seq<TaskStep>) {
    && (forall i :: 0 <= i < |tasks| ==> tasks[i].id == i + 1)
    && (forall i :: 0 <= i < |steps| ==> steps[i].id == i + 1 && 1 <= steps[i].taskId <= |tasks|)
  }

  /** The two task tables, which the planner fills and the executor updates. */
  class TaskTables {
    var tasks: seq<Task>
    var steps: seq<TaskStep>

    predicate Valid()
      reads this
    {
      WellFormedTables(tasks, steps)
    }

    constructor ()
      ensures Valid() && tasks == [] && steps == []
    {
      tasks, steps := [], [];
    }

    /** Inserts a new task row with the next id. */
    method AddTask(task: Task)
      requires Valid() && task.id == |tasks| + 1
      modifies this
      ensures Valid()
      ensures tasks == old(tasks) + [task] && steps == old(steps)
    {
      tasks := tasks + [task];
    }

    /** Inserts a new step row with the next id, for an existing task. */
    method AddStep(row: TaskStep)
      requires Valid() && row.id == |steps| + 1 && 1 <= row.taskId <= |tasks|
      modifies this
      ensures Valid()
      ensures tasks == old(tasks) && steps == old(steps) + [row]
    {
      steps := steps + [row];
    }

    /** Writes back a changed step row: same id, an existing task. */
    method SaveStep(row: TaskStep)
      requires Valid() && 1 <= row.id <= |steps| && 1 <= row.taskId <= |tasks|
      modifies this
      ensures Valid()
      ensures tasks == old(tasks) && steps == old(steps)[row.id - 1 := row]
    {
      steps := steps[row.id - 1 := row];
    }

    /** Writes back a changed task row: same id. */
    method SaveTask(task: Task)
      requires Valid() && 1 <= task.id <= |tasks|
      modifies this
      ensures Valid()
      ensures tasks == old(tasks)[task.id - 1 := task] && steps == old(steps)
    {
      tasks := tasks[task.id - 1 := task];
    }
  }

  /** The rows of `steps` that belong to task `taskId`, in row order. */
  function StepsOf(steps: seq<TaskStep>, taskId: int): (r: seq<TaskStep>)
    ensures |r| <= |steps|
  {
    if steps == [] then []
    else StepsOf(steps[..|steps| - 1], taskId) + (if steps[|steps| - 1].taskId == taskId then [steps[|steps| - 1]] else [])
  }

  /** `filter(TaskStep.task_id == taskId)` keeps exactly the task's rows. */
  lemma {:induction false} StepsOfMembers(steps: seq<TaskStep>, taskId: int)
    ensures forall x :: x in StepsOf(steps, taskId) <==> x in steps && x.taskId == taskId
  {
    if steps != [] {
      var init, last := steps[..|steps| - 1], steps[|steps| - 1];
      StepsOfMembers(init, taskId);
      assert steps == init + [last];
    }
  }

  predicate SortedByStepNumber(s: seq<TaskStep>) {
    forall i, j :: 0 <= i < j < |s| ==> s[i].stepNumber <= s[j].stepNumber
  }

  /** Ids of the rows of `s`, in order. */
  function IdsOf(s: seq<TaskStep>): (r: seq<nat>)
    ensures |r| == |s|
  {
    if s == [] then [] else [s[0].id] + IdsOf(s[1..])
  }

  predicate DistinctIds(s: seq<TaskStep>) {
    forall i, j :: 0 <= i < j < |s| ==> s[i].id != s[j].id
  }

  /** Places `x` after every row whose step number is not larger. */
  function InsertByStepNumber(x: TaskStep, s: seq<TaskStep>): (r: seq<TaskStep>)
    ensures |r| == |s| + 1
  {
    if s == [] || x.stepNumber < s[0].stepNumber then [x] + s
    else [s[0]] + InsertByStepNumber(x, s[1..])
  }

  /** `order_by(step_number)`, stable: rows with equal step numbers keep row order. */
  function OrderByStepNumber(s: seq<TaskStep>): (r: seq<TaskStep>)
    ensures |r| == |s|
  {
    if s == [] then [] else InsertByStepNumber(s[|s| - 1], OrderByStepNumber(s[..|s| - 1]))
  }

  lemma {:induction false} InsertMembers(x: TaskStep, s: seq<TaskStep>)
    ensures forall y :: y in InsertByStepNumber(x, s) <==> y == x || y in s
  {
    if !(s == [] || x.stepNumber < s[0].stepNumber) {
      InsertMembers(x, s[1..]);
      assert s == [s[0]] + s[1..];
    }
  }

  lemma {:induction false} InsertSorted(x: TaskStep, s: seq<TaskStep>)
    requires SortedByStepNumber(s)
    ensures SortedByStepNumber(InsertByStepNumber(x, s))
  {
    if s == [] || x.stepNumber < s[0].stepNumber {
    } else {
      InsertSorted(x, s[1..]);
      InsertMembers(x, s[1..]);
      var rest := InsertByStepNumber(x, s[1..]);
      var r := [s[0]] + rest;
      forall i, j | 0 <= i < j < |r| ensures r[i].stepNumber <= r[j].stepNumber {
        if i == 0 {
          assert r[j] in rest;
        } else {
          assert r[i] == rest[i - 1] && r[j] == rest[j - 1];
        }
      }
    }
  }

  lemma {:induction false} InsertDistinct(x: TaskStep, s: seq<TaskStep>)
    requires DistinctIds(s)
    requires forall y :: y in s ==> y.id != x.id
    ensures DistinctIds(InsertByStepNumber(x, s))
  {
    if s == [] || x.stepNumber < s[0].stepNumber {
    } else {
      InsertDistinct(x, s[1..]);
      InsertMembers(x, s[1..]);
      var rest := InsertByStepNumber(x, s[1..]);
      forall y | y in rest ensures y.id != s[0].id {
        if y != x {
          var k :| 0 <= k < |s[1..]| && s[1..][k] == y;
          assert s[k + 1] == y;
        }
      }
      var r := [s[0]] + rest;
      forall i, j | 0 <= i < j < |r| ensures r[i].id != r[j].id {
        if i == 0 {
          assert r[j] in rest;
        } else {
          assert r[i] == rest[i - 1] && r[j] == rest[j - 1];
        }
      }
    }
  }

  lemma {:induction false} InsertMultiset(x: TaskStep, s: seq<TaskStep>)
    ensures multiset(InsertByStepNumber(x, s)) == multiset(s) + multiset{x}
  {
    if s == [] || x.stepNumber < s[0].stepNumber {
    } else {
      InsertMultiset(x, s[1..]);
      assert s == [s[0]] + s[1..];
    }
  }

  lemma {:induction false} OrderSorted(s: seq<TaskStep>)
    ensures SortedByStepNumber(OrderByStepNumber(s))
  {
    if s != [] {
      OrderSorted(s[..|s| - 1]);
      InsertSorted(s[|s| - 1], OrderByStepNumber(s[..|s| - 1]));
    }
  }

  lemma {:induction false} OrderMultiset(s: seq<TaskStep>)
    ensures multiset(OrderByStepNumber(s)) == multiset(s)
  {
    if s != [] {
      var init, last := s[..|s| - 1], s[|s| - 1];
      OrderMultiset(init);
      InsertMultiset(last, OrderByStepNumber(init));
      Seqs.MultisetSnoc(s);
    }
  }

  /** The rows before the last are still distinct, and none shares the last row's id. */
  lemma DistinctInit(s: seq<TaskStep>)
    requires s != [] && DistinctIds(s)
    ensures DistinctIds(s[..|s| - 1])
    ensures forall y :: y in s[..|s| - 1] ==> y.id != s[|s| - 1].id
  {
  }

  lemma {:induction false} OrderDistinct(s: seq<TaskStep>)
    requires DistinctIds(s)
    ensures DistinctIds(OrderByStepNumber(s))
  {
    if s != [] {
      var init, last := s[..|s| - 1], s[|s| - 1];
      DistinctInit(s);
      OrderDistinct(init);
      OrderMultiset(init);
      var sorted := OrderByStepNumber(init);
      forall y | y in sorted ensures y.id != last.id {
        assert y in multiset(sorted);
      }
      InsertDistinct(last, sorted);
    }
  }

  /**
   * Ordering by step number returns the same rows (a permutation), sorted,
   * and keeps row ids distinct.
   */
  lemma OrderByStepNumberCorrect(s: seq<TaskStep>)
    ensures SortedByStepNumber(OrderByStepNumber(s))
    ensures multiset(OrderByStepNumber(s)) == multiset(s)
    ensures DistinctIds(s) ==> DistinctIds(OrderByStepNumber(s))
  {
    OrderSorted(s);
    OrderMultiset(s);
    if DistinctIds(s) {
      OrderDistinct(s);
    }
  }
}
