/** The plan manager of the Amnesia client
    (Amnesia/src/components/features/PlanManager/PlanManager.tsx): plans
    holding task lists, a progress percentage per plan, and the two
    handlers that add a task to one plan and flip one task. The plan and
    task records come from a type module that is not part of this model;
    only the fields the component reads are kept. The clock reading that
    becomes a new task's id is a parameter. */
module AmnesiaPlanManager {
  import opened Common

  datatype Task = Task(id: int, content: string, completed: bool)

  datatype Plan = Plan(id: int, title: string, tasks: seq<Task>)

  function IsDone(): Task -> bool {
    (t: Task) => t.completed
  }

  /** `(completed / total) * 100`, computed exactly. */
  function Share(done: nat, total: nat): real
    requires 0 < total
  {
    (done as real / total as real) * 100.0
  }

  lemma ShareBounds(done: nat, total: nat)
    requires 0 < total && done <= total
    ensures 0.0 <= Share(done, total) <= 100.0
    ensures done == 0 ==> Share(done, total) == 0.0
    ensures done == total ==> Share(done, total) == 100.0
  {
    assert done as real / total as real <= 1.0;
  }

  /** Rounding a percentage in [0, 100] gives an integer in [0, 100]. */
  lemma RoundPercent(x: real)
    requires 0.0 <= x <= 100.0
    ensures 0 <= Round(x) <= 100
    ensures x == 0.0 ==> Round(x) == 0
    ensures x == 100.0 ==> Round(x) == 100
  {
  }

  /** No task is done: the filter keeps nothing. */
  lemma NoneDone(tasks: seq<Task>)
    requires forall t :: t in tasks ==> !t.completed
    ensures Filter(tasks, IsDone()) == []
  {
  }

  /** `calculateProgress`: the share of completed tasks as a rounded
      percentage, 0 for a plan without tasks. */
  function CalculateProgress(tasks: seq<Task>): (r: int)
    ensures 0 <= r <= 100
    ensures tasks == [] ==> r == 0
    ensures (forall t :: t in tasks ==> !t.completed) ==> r == 0
    ensures tasks != [] && (forall t :: t in tasks ==> t.completed) ==> r == 100
  {
    if |tasks| == 0 then 0
    else
      var done := |Filter(tasks, IsDone())|;
      ShareBounds(done, |tasks|);
      RoundPercent(Share(done, |tasks|));
      assert (forall t :: t in tasks ==> !t.completed) ==> done == 0 by {
        if forall t :: t in tasks ==> !t.completed {
          NoneDone(tasks);
        }
      }
      assert (forall t :: t in tasks ==> t.completed) ==> done == |tasks| by {
        if forall t :: t in tasks ==> t.completed {
          FilterKeepsAll(tasks, IsDone());
        }
      }
      Round(Share(done, |tasks|))
  }

  /** The plan list after `addTask(planId)` with the typed text, when that
      text is not blank. */
  function WithTask(plans: seq<Plan>, planId: int, task: Task): (r: seq<Plan>)
    ensures |r| == |plans|
    ensures forall i :: 0 <= i < |plans| && plans[i].id != planId ==> r[i] == plans[i]
    ensures forall i :: 0 <= i < |plans| && plans[i].id == planId ==>
              r[i] == plans[i].(tasks := plans[i].tasks + [task])
  {
    seq(|plans|, i requires 0 <= i < |plans| =>
      if plans[i].id == planId then plans[i].(tasks := plans[i].tasks + [task]) else plans[i])
  }

  /** The task list after flipping the task `taskId`. */
  function TasksToggled(tasks: seq<Task>, taskId: int): (r: seq<Task>)
    ensures |r| == |tasks|
    ensures forall i :: 0 <= i < |tasks| ==>
              r[i] == if tasks[i].id == taskId then tasks[i].(completed := !tasks[i].completed) else tasks[i]
  {
    seq(|tasks|, i requires 0 <= i < |tasks| =>
      if tasks[i].id == taskId then tasks[i].(completed := !tasks[i].completed) else tasks[i])
  }

  /** The plan list after `toggleTask(planId, taskId)`. */
  function PlansTaskToggled(plans: seq<Plan>, planId: int, taskId: int): (r: seq<Plan>)
    ensures |r| == |plans|
    ensures forall i :: 0 <= i < |plans| && plans[i].id != planId ==> r[i] == plans[i]
    ensures forall i :: 0 <= i < |plans| && plans[i].id == planId ==>
              r[i] == plans[i].(tasks := TasksToggled(plans[i].tasks, taskId))
  {
    seq(|plans|, i requires 0 <= i < |plans| =>
      if plans[i].id == planId then plans[i].(tasks := TasksToggled(plans[i].tasks, taskId)) else plans[i])
  }

  /** Flipping the same task twice restores every plan. */
  lemma {:induction false} ToggleTaskTwice(plans: seq<Plan>, planId: int, taskId: int)
    ensures PlansTaskToggled(PlansTaskToggled(plans, planId, taskId), planId, taskId) == plans
  {
    var once := PlansTaskToggled(plans, planId, taskId);
    var twice := PlansTaskToggled(once, planId, taskId);
    forall i | 0 <= i < |plans| ensures twice[i] == plans[i] {
      if plans[i].id == planId {
        var ts := plans[i].tasks;
        var back := TasksToggled(TasksToggled(ts, taskId), taskId);
        assert back == ts by {
          forall k | 0 <= k < |ts| ensures back[k] == ts[k] {
            assert TasksToggled(ts, taskId)[k].id == ts[k].id;
          }
        }
      }
    }
  }

  /** Adding a task raises the task count of the matching plans by one and
      leaves the completed count unchanged, so their progress can only
      fall. */
  lemma AddedTaskIsOpen(plans: seq<Plan>, planId: int, task: Task)
    requires !task.completed
    ensures forall i :: 0 <= i < |plans| && plans[i].id == planId ==>
              |WithTask(plans, planId, task)[i].tasks| == |plans[i].tasks| + 1
              && |Filter(WithTask(plans, planId, task)[i].tasks, IsDone())| == |Filter(plans[i].tasks, IsDone())|
  {
    forall i | 0 <= i < |plans| && plans[i].id == planId
      ensures |Filter(WithTask(plans, planId, task)[i].tasks, IsDone())| == |Filter(plans[i].tasks, IsDone())|
    {
      FilterConcat(plans[i].tasks, [task], IsDone());
    }
  }

  class PlanBoard {
    var plans: seq<Plan>
    var newTask: string

    constructor()
      ensures plans == [] && newTask == []
    {
      plans := [];
      newTask := [];
    }

    /** Typing into the task input. */
    method SetNewTask(text: string)
      modifies this
      ensures newTask == text && plans == old(plans)
    {
      newTask := text;
    }

    /** `addTask(planId)` (also bound to Enter in the input): with blank
        input nothing changes; otherwise one uncompleted task with the
        typed text goes to the end of the plans with that id, and the input
        is cleared. */
    method AddTask(planId: int, now: int)
      modifies this
      ensures IsBlank(old(newTask)) ==> plans == old(plans) && newTask == old(newTask)
      ensures !IsBlank(old(newTask)) ==>
                plans == WithTask(old(plans), planId, Task(now, old(newTask), false)) && newTask == []
    {
      if Trim(newTask) == [] {
        return;
      }
      plans := WithTask(plans, planId, Task(now, newTask, false));
      newTask := [];
    }

    /** `toggleTask(planId, taskId)`. */
    method ToggleTask(planId: int, taskId: int)
      modifies this
      ensures plans == PlansTaskToggled(old(plans), planId, taskId) && newTask == old(newTask)
    {
      plans := PlansTaskToggled(plans, planId, taskId);
    }
  }
}
