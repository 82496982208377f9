/** Capacity: WorkflowUsage of internal/core/usage.go, and how commands change it. */
module Usage {
  import opened Base
  import opened Model
  import opened IdOrder
  import opened Backoff
  import opened Sums
  import opened Reducer
  import opened Invariant
  import opened Steps
  import opened Forms
  import opened Preservation
  import opened Runs

  /** The tasks that one task holds reserved: itself, and the children it may still expand into. */
  function Reserves(t: Task): nat {
    if !Active(t.status) then 0
    else if t.definition.fanout.Some? && !t.fanoutExpanded then 1 + t.definition.fanout.value.maxItems
    else 1
  }

  function Readies(t: Task): nat {
    if t.status == TaskReady || (t.status == TaskCompensating && t.compensation && t.worker == "") then 1 else 0
  }

  function RunsNow(t: Task): nat {
    if t.status == TaskRunning || (t.status == TaskCompensating && t.compensation && t.worker != "") then 1 else 0
  }

  ghost function Reserved(s: Workflow): nat {
    Total(s.tasks, Reserves)
  }

  ghost function Running(s: Workflow): nat {
    Total(s.tasks, RunsNow)
  }

  datatype WorkflowUsage = WorkflowUsage(namespace: string, workflows: nat, tasks: nat, ready: nat, running: nat)

  /** What a workflow uses: nothing once it has ended. */
  ghost function UsageOf(s: Workflow): WorkflowUsage {
    if Terminal(s.status) then WorkflowUsage(s.namespace, 0, 0, 0, 0)
    else WorkflowUsage(s.namespace, 1, Reserved(s), Total(s.tasks, Readies), Running(s))
  }

  /** The counting loop of WorkflowUsage adds up the tasks in whatever order it meets them. */
  method ComputeUsage(s: Workflow) returns (usage: WorkflowUsage)
    ensures usage == UsageOf(s)
  {
    hide Total;
    usage := WorkflowUsage(s.namespace, 0, 0, 0, 0);
    if Terminal(s.status) { return; }
    usage := usage.(workflows := 1);
    var left := s.tasks;
    while left != map[]
      invariant usage.namespace == s.namespace && usage.workflows == 1
      invariant usage.tasks + Total(left, Reserves) == Reserved(s)
      invariant usage.ready + Total(left, Readies) == Total(s.tasks, Readies)
      invariant usage.running + Total(left, RunsNow) == Running(s)
      decreases |left|
    {
      var id :| id in left;
      var task := left[id];
      TotalFrom(left, Reserves, id);
      TotalFrom(left, Readies, id);
      TotalFrom(left, RunsNow, id);
      Smaller(left, id);
      left := left - {id};
      if task.status in {TaskCompleted, TaskFailed, TaskCancelled, TaskCompensated} {
        continue;
      }
      usage := usage.(tasks := usage.tasks + 1);
      if task.definition.fanout.Some? && !task.fanoutExpanded {
        usage := usage.(tasks := usage.tasks + task.definition.fanout.value.maxItems);
      }
      match task.status {
        case TaskReady => usage := usage.(ready := usage.ready + 1);
        case TaskRunning => usage := usage.(running := usage.running + 1);
        case TaskCompensating =>
          if !task.compensation { continue; }
          if task.worker == "" {
            usage := usage.(ready := usage.ready + 1);
          } else {
            usage := usage.(running := usage.running + 1);
          }
        case _ =>
      }
    }
    TotalZero(left, Reserves);
    TotalZero(left, Readies);
    TotalZero(left, RunsNow);
  }

  // ----- Commands never grow the reservation -----

  /** Nothing is reserved that was not, and nothing runs that did not. */
  ghost predicate Shrinks(tasks: map<Id, Task>, tasks': map<Id, Task>) {
    && Total(tasks', Reserves) <= Total(tasks, Reserves)
    && Total(tasks', RunsNow) <= Total(tasks, RunsNow)
  }

  lemma {:induction false} PointwiseShrinks(tasks: map<Id, Task>, tasks': map<Id, Task>)
    requires tasks.Keys == tasks'.Keys
    requires forall id | id in tasks ::
               Reserves(tasks'[id]) <= Reserves(tasks[id]) && RunsNow(tasks'[id]) <= RunsNow(tasks[id])
    ensures Shrinks(tasks, tasks')
  {
    TotalAtMost(tasks', tasks, Reserves);
    TotalAtMost(tasks', tasks, RunsNow);
  }

  lemma {:induction false} OneShrinks(tasks: map<Id, Task>, id: Id, t: Task)
    requires id in tasks && Reserves(t) <= Reserves(tasks[id]) && RunsNow(t) <= RunsNow(tasks[id])
    ensures Shrinks(tasks, tasks[id := t])
  {
    hide Shrinks;
    PointwiseShrinks(tasks, tasks[id := t]);
  }

  lemma {:induction false} ReserveUpdate(tasks: map<Id, Task>, id: Id, t: Task)
    requires id in tasks
    ensures Total(tasks[id := t], Reserves) == Total(tasks, Reserves) - Reserves(tasks[id]) + Reserves(t)
    ensures Total(tasks[id := t], RunsNow) == Total(tasks, RunsNow) - RunsNow(tasks[id]) + RunsNow(t)
  {
    TotalUpdate(tasks, Reserves, id, t);
    TotalUpdate(tasks, RunsNow, id, t);
  }

  /** With nothing open, nothing is reserved; a compensation that begins reserves one task. */
  lemma {:induction false} QuietReserves(s2: Workflow)
    requires Quiet(s2)
    ensures Reserved(s2) == 0 && Running(s2) == 0
  {
    hide SoundState;
    forall id | id in s2.tasks ensures Reserves(s2.tasks[id]) == 0 && RunsNow(s2.tasks[id]) == 0 {
      assert Settled(s2.tasks[id]);
    }
    TotalZero(s2.tasks, Reserves);
    TotalZero(s2.tasks, RunsNow);
  }

  lemma {:induction false} BeginReserves(s2: Workflow, at: int64, s': Workflow)
    requires Wound(s2) && BeginsCompensation(s2, at, s')
    ensures Reserved(s') == 1 && Running(s') == 0
  {
    hide GraphOk, SagaOk, TimersShaped;
    QuietReserves(s2);
    var next :| NextCompensation(s2.tasks) == Some(next)
        && s'.tasks == s2.tasks[next := CompensatingTask(s2.tasks[next])];
    assert SoundTask(s2.version, next, s2.tasks[next]);
    hide Wound, BeginsCompensation, NextCompensation;
    ReserveUpdate(s2.tasks, next, CompensatingTask(s2.tasks[next]));
  }

  lemma {:induction false} ConcludeReserves(s1: Workflow, status: WorkflowStatus, at: int64, s': Workflow)
    requires Unwindable(s1) && at >= 0 && Concludes(s1, status, at, s')
    ensures Reserved(s') <= 1 && Running(s') == 0
  {
    hide Quiet, Unwindable, WindsDown, BeginsCompensation;
    var s2 :| WindsDown(s1, at, s2)
              && (BeginsCompensation(s2, at, s') || (NextCompensation(s2.tasks).None? && Ends(s2, status, at, s')));
    WindDownWinds(s1, at, s2);
    if BeginsCompensation(s2, at, s') { BeginReserves(s2, at, s'); } else { QuietReserves(s2); }
  }

  lemma {:induction false} ActiveReserves(s: Workflow, id: Id)
    requires id in s.tasks && Active(s.tasks[id].status)
    ensures Reserved(s) >= 1
  {
    TotalMember(s.tasks, Reserves, id);
  }

  lemma {:induction false} FailShrinks(s: Workflow, id: Id, error: string, status: TimerStatus, at: int64,
                                       s1: Workflow, s': Workflow)
    requires Inv(s) && at >= 0 && AttemptFails(s, id, error, status, at, s1) && FailureFollows(s1, id, at, s')
    ensures Shrinks(s.tasks, s'.tasks)
  {
    hide Inv, Concludes, TimeoutSettled, RetryDelay;
    var t := FailedTask(s.tasks[id], error, at);
    if RetriesLeft(s1.tasks[id]) {
      HeldStatus(s, id);
      OneShrinks(s.tasks, id, RetriedTask(t));
      assert s'.tasks == s.tasks[id := RetriedTask(t)];
    } else if t.compensation {
      OneShrinks(s.tasks, id, t);
    } else {
      FailedUnwindable(s, id, error, status, at, s1);
      ConcludeReserves(s1, WorkflowFailed, at, s');
      ActiveReserves(s, id);
    }
  }

  lemma {:induction false} CancelShrinks(s: Workflow, c: Command, s': Workflow)
    requires Inv(s) && c.at >= 0 && Cancels(s, c, s')
    ensures Shrinks(s.tasks, s'.tasks)
  {
    hide Concludes, TasksOk, TimersOk, GraphOk, SagaOk, StatusOk;
    InvUnwindable(s);
    ConcludeReserves(s.(version := s.version + 1, updatedAt := c.at), WorkflowCancelled, c.at, s');
    var id := OpenTask(s);
    ActiveReserves(s, id);
  }

  /** A workflow that has not ended and is not compensating has an active task. */
  lemma {:induction false} OpenTask(s: Workflow) returns (id: Id)
    requires hide Inv;
             Inv(s) && s.status in {WorkflowScheduled, WorkflowRunning}
    ensures id in s.tasks && Active(s.tasks[id].status)
  {
    hide TasksOk, TimersOk, GraphOk, SagaOk;
    if s.status == WorkflowScheduled {
      id :| id in s.tasks;
      assert Fresh(s.tasks[id]);
    } else {
      id :| id in s.tasks && s.tasks[id].status != TaskCompleted;
      assert HeldBack(s.tasks, id);
    }
  }

  lemma {:induction false} FinishShrinks(s: Workflow, c: Command, s': Workflow)
    requires Inv(s) && c.at >= 0 && FinishesCompensation(s, c, s')
    ensures Shrinks(s.tasks, s'.tasks)
  {
    hide BeginsCompensation, Ends, TimeoutSettled, Wound, Quiet, ChosenCompensation, NextCompensation;
    var t := CompensatedTask(s.tasks[c.task], c.at);
    var s1 :| && Replaces(s, c.task, t, TimerCancelled, c.at, s1)
              && (BeginsCompensation(s1, c.at, s')
                  || (NextCompensation(s1.tasks).None? && Ends(s1, WorkflowCompensated, c.at, s')));
    assert TaskOk(s.id, s.version, c.task, s.tasks[c.task], s.timers);
    CompensationSettles(s, c.task, t, TimerCancelled, c.at, s1);
    hide Inv, Replaces;
    ActiveReserves(s, c.task);
    if BeginsCompensation(s1, c.at, s') {
      BeginReserves(s1, c.at, s');
    } else {
      QuietReserves(s1) by { WoundQuiet(s1); }
      assert s'.tasks == s1.tasks by { EndsFrame(s1, WorkflowCompensated, c.at, s'); }
    }
  }

  lemma {:induction false} WoundQuiet(s: Workflow)
    requires Wound(s)
    ensures Quiet(s)
  {
  }

  lemma {:induction false} EndsFrame(s2: Workflow, status: WorkflowStatus, at: int64, s': Workflow)
    requires Ends(s2, status, at, s')
    ensures s'.tasks == s2.tasks
  {
  }

  // ----- Completion shrinks strictly -----

  /** The children of an expansion reserve one task each. */
  lemma {:induction false} ChildrenReserve(tasks: map<Id, Task>, expanded: seq<ExpandedTask>)
    requires forall i | 0 <= i < |expanded| :: expanded[i].definition.fanout.None?
    ensures Total(WithChildren(tasks, expanded), Reserves) <= Total(tasks, Reserves) + |expanded|
    ensures Total(WithChildren(tasks, expanded), RunsNow) <= Total(tasks, RunsNow)
  {
    if expanded != [] {
      var front, last := expanded[..|expanded| - 1], expanded[|expanded| - 1];
      ChildrenReserve(tasks, front);
      var child := Task(last.definition, TaskPending, payload := last.payload);
      TotalUpdate(WithChildren(tasks, front), Reserves, last.definition.id, child);
      TotalUpdate(WithChildren(tasks, front), RunsNow, last.definition.id, child);
    }
  }

  lemma {:induction false} ExpandedReserve(tasks: map<Id, Task>, id: Id, fanout: FanoutDefinition,
                                           expanded: seq<ExpandedTask>)
    requires hide ExpandedTasks;
             id in tasks && tasks[id].status == TaskCompleted
    requires fanout.aggregate in WithChildren(tasks, expanded)
    requires forall i | 0 <= i < |expanded| :: expanded[i].definition.fanout.None?
    ensures Total(ExpandedTasks(tasks, id, fanout, expanded), Reserves) <= Total(tasks, Reserves) + |expanded|
    ensures Total(ExpandedTasks(tasks, id, fanout, expanded), RunsNow) <= Total(tasks, RunsNow)
  {
    hide WithChildren, SortIds, Total;
    ChildrenReserve(tasks, expanded);
    var all := WithChildren(tasks, expanded);
    var after := ExpandedTasks(tasks, id, fanout, expanded);
    var aggregate := all[fanout.aggregate];
    var dependencies := SortIds(aggregate.definition.dependencies + Children(expanded));
    var widened := aggregate.(definition := aggregate.definition.(dependencies := dependencies));
    var parent := tasks[id].(children := Children(expanded), fanoutExpanded := true);
    assert after == all[fanout.aggregate := widened][id := parent];
    hide ExpandedTasks;
    TotalUpdate(all, Reserves, fanout.aggregate, widened);
    TotalUpdate(all, RunsNow, fanout.aggregate, widened);
    TotalUpdate(all[fanout.aggregate := widened], Reserves, id, parent);
    TotalUpdate(all[fanout.aggregate := widened], RunsNow, id, parent);
  }

  /** What a completed task may still expand into. */
  function Expandable(t: Task): nat {
    if t.definition.fanout.Some? then t.definition.fanout.value.maxItems else 0
  }

  lemma {:induction false} ExpansionReserves(s1: Workflow, id: Id, at: int64, s2: Workflow)
    requires hide ExpandedTasks, Reserved, Running;
             Expands(s1, id, at, s2) && s1.tasks[id].status == TaskCompleted
    ensures Reserved(s2) <= Reserved(s1) + Expandable(s1.tasks[id])
    ensures Running(s2) <= Running(s1)
  {
    hide WithChildren, ExpandedTasks, Total;
    if s1.tasks[id].definition.fanout.Some? {
      var fanout := s1.tasks[id].definition.fanout.value;
      var expanded :|
        && CanonicalExpansion(s1.id, s1.tasks, s1.tasks[id].definition, fanout, expanded)
        && |expanded| <= fanout.maxItems && fanout.aggregate in WithChildren(s1.tasks, expanded)
        && WithChildren(s1.tasks, expanded)[fanout.aggregate].status == TaskPending
        && s2 == s1.(tasks := ExpandedTasks(s1.tasks, id, fanout, expanded), version := s2.version,
            updatedAt := s2.updatedAt);
      ExpandedReserve(s1.tasks, id, fanout, expanded);
    }
  }

  lemma {:induction false} ScanReserves(tasks: map<Id, Task>, timers: map<Id, Timer>)
    ensures Shrinks(tasks, ReadyAll(tasks, timers))
  {
    hide Shrinks;
    PointwiseShrinks(tasks, ReadyAll(tasks, timers));
  }

  /** Completing forward work gives back at least the completed task. */
  lemma {:induction false} CompleteShrinks(s: Workflow, c: Command, s': Workflow)
    requires Inv(s) && Completes(s, c, s')
    ensures Reserved(s') < Reserved(s) && Running(s') <= Running(s)
  {
    hide TimersOk, GraphOk, SagaOk, StatusOk, Expands, Advances, TimeoutSettled;
    var t := CompletedTask(s.tasks[c.task], c, s.version + 1);
    var s1, s2 :| && Replaces(s, c.task, t, TimerCancelled, c.at, s1)
                  && Expands(s1, c.task, c.at, s2) && Advances(s2, c.at, s');
    assert TaskOk(s.id, s.version, c.task, s.tasks[c.task], s.timers);
    hide Inv;
    ReserveUpdate(s.tasks, c.task, t);
    ExpansionReserves(s1, c.task, c.at, s2);
    AdvanceFrame(s2, c.at, s');
    ScanReserves(s2.tasks, s2.timers);
  }

  lemma {:induction false} AdvanceFrame(s2: Workflow, at: int64, s': Workflow)
    requires Advances(s2, at, s')
    ensures s'.tasks == ReadyAll(s2.tasks, s2.timers)
  {
    hide ReadyAll;
  }

  // ----- All commands -----

  /** A start reserves nothing new and adds exactly one running task. */
  lemma {:induction false} StartUsage(s: Workflow, c: Command, s': Workflow)
    requires Inv(s) && Starts(s, c, s')
    ensures Reserved(s') == Reserved(s) && Running(s') == Running(s) + 1
  {
    hide TimersOk, GraphOk, SagaOk, StatusOk;
    assert TaskOk(s.id, s.version, c.task, s.tasks[c.task], s.timers);
    hide TasksOk;
    ReserveUpdate(s.tasks, c.task, s'.tasks[c.task]);
  }

  lemma {:induction false} HeldShrinks(s: Workflow, c: Command, s': Workflow)
    requires Inv(s) && (Renews(s, c, s') || Expires(s, c, s'))
    ensures Shrinks(s.tasks, s'.tasks)
  {
    hide Inv, TimeoutSettled;
    OneShrinks(s.tasks, c.task, s'.tasks[c.task]);
  }

  lemma {:induction false} FireShrinks(s: Workflow, c: Command, s': Workflow)
    requires FiresStart(s, c, s') || (Inv(s) && FiresRetry(s, c, s'))
    ensures Shrinks(s.tasks, s'.tasks)
  {
    hide ReadyAll, Shrinks, StatusOk;
    if FiresStart(s, c, s') {
      ScanReserves(s.tasks, s'.timers);
    } else {
      var id := s.timers[c.timer].task;
      assert TaskOk(s.id, s.version, id, s.tasks[id], s.timers);
      OneShrinks(s.tasks, id, s'.tasks[id]);
    }
  }

  /** A workflow never reserves more than before, and only a start makes one more task run. */
  lemma {:induction false} EffectShrinks(s: Workflow, c: Command, s': Workflow)
    requires Inv(s) && c.at >= 0 && Effect(s, c, s')
    ensures Reserved(s') <= Reserved(s)
    ensures Running(s') <= Running(s) + (if c.kind == CommandStart then 1 else 0)
  {
    hide Inv, Starts, Completes, FinishesCompensation, Renews, Expires, FiresStart, FiresRetry, FailureFollows,
        AttemptFails, Cancels;
    match c.kind
    case CommandStart => StartUsage(s, c, s');
    case CommandComplete => if Completes(s, c, s') { CompleteShrinks(s, c, s'); } else { FinishShrinks(s, c, s'); }
    case CommandFail =>
      var s1 :| AttemptFails(s, c.task, c.error, TimerCancelled, c.at, s1) && FailureFollows(s1, c.task, c.at, s');
      FailShrinks(s, c.task, c.error, TimerCancelled, c.at, s1, s');
    case CommandRenew => HeldShrinks(s, c, s');
    case CommandExpire => HeldShrinks(s, c, s');
    case CommandFireTimer =>
      match s.timers[c.timer].purpose {
        case TimerWorkflowStart => FireShrinks(s, c, s');
        case TimerRetry => FireShrinks(s, c, s');
        case TimerTimeout =>
          var id := s.timers[c.timer].task;
          var s1 :| AttemptFails(s, id, "task timed out", TimerFired, c.at, s1) && FailureFollows(s1, id, c.at, s');
          FailShrinks(s, id, "task timed out", TimerFired, c.at, s1, s');
      }
    case CommandCancel => CancelShrinks(s, c, s');
  }

  /** reservedTasks: what a definition asks for at submission. */
  function ReservedTasks(tasks: seq<TaskDefinition>): nat {
    if tasks == [] then 0
    else
      var last := tasks[|tasks| - 1];
      ReservedTasks(tasks[..|tasks| - 1]) + 1 + (if last.fanout.Some? then last.fanout.value.maxItems else 0)
  }

  method ComputeReservedTasks(tasks: seq<TaskDefinition>) returns (total: nat)
    ensures total == ReservedTasks(tasks)
  {
    total := |tasks|;
    for i := 0 to |tasks|
      invariant total + i == |tasks| + ReservedTasks(tasks[..i])
    {
      assert tasks[..i + 1][..i] == tasks[..i];
      if tasks[i].fanout.Some? {
        total := total + tasks[i].fanout.value.maxItems;
      }
    }
    assert tasks[..|tasks|] == tasks;
  }
}
