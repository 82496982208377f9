/** The invariant of a workflow between commands. */
module Invariant {
  import opened Base
  import opened Model
  import opened Backoff
  import opened Definition
  import opened Reducer

  // ----- One task -----

  predicate DefinitionOk(id: Id, d: TaskDefinition) {
    && d.id == id && !Blank(id)
    && ValidRetry(d.retry, d.timeout)
    && (d.fanout.Some? ==> 0 < d.fanout.value.maxItems <= MAX_FANOUT_ITEMS
                           && ValidRetry(d.fanout.value.retry, d.fanout.value.timeout))
  }

  /** A fence is handed out with every attempt, and the retry budget is never overrun. */
  predicate CountersOk(t: Task) {
    t.fence == t.attempt && t.retryCount < t.definition.retry.maxAttempts
  }

  /** A held task names its attempt, its worker and its idempotency key, and its lease ends within
      its timeout; a task that waits names no attempt and no worker. */
  predicate LeaseOk(w: Id, id: Id, t: Task) {
    && (Leased(t) ==>
          && t.attempt >= 1 && t.attemptId == AttemptID(w, id, t.attempt) && t.worker != "" && t.startedAt >= 0
          && t.idempotency == (if t.compensation then CompensationIdempotencyKey(w, id) else IdempotencyKey(w, id))
          && (t.definition.timeout > 0 ==>
                && t.startedAt <= MAX_INT64 - t.definition.timeout
                && t.leaseUntil <= t.startedAt + t.definition.timeout))
    && (Active(t.status) && !Leased(t) ==> t.worker == "" && t.attemptId == NO_ID)
  }

  /** The task has completed at some point, whatever happened to it since. */
  predicate Done(t: Task) {
    t.status in {TaskCompleted, TaskCompensating, TaskCompensated} || t.compensation
  }

  predicate HistoryOk(version: uint64, t: Task) {
    && (t.status == TaskCompensating ==> t.compensation)
    && (t.compensation ==> t.status in {TaskCompensating, TaskPending, TaskFailed} && t.definition.compensation.Some?)
    && (Done(t) <==> t.completedSequence > 0)
    && t.completedSequence <= version
    && (t.fanoutExpanded <==> Done(t) && t.definition.fanout.Some?)
  }

  predicate IsScheduled(timers: map<Id, Timer>, id: Id) {
    id in timers && timers[id].status == TimerScheduled
  }

  /** A held task with a timeout has its timeout scheduled; a task waiting to be retried has its retry
      scheduled. */
  predicate TimersPresent(w: Id, id: Id, t: Task, timers: map<Id, Timer>) {
    && (Leased(t) && t.definition.timeout > 0 ==> IsScheduled(timers, TimerID(w, id, TimerTimeout, t.attempt)))
    && (t.status == TaskPending && t.retryCount > 0 ==> IsScheduled(timers, TimerID(w, id, TimerRetry, t.attempt)))
  }

  predicate TaskOk(w: Id, version: uint64, id: Id, t: Task, timers: map<Id, Timer>) {
    DefinitionOk(id, t.definition) && CountersOk(t) && LeaseOk(w, id, t) && HistoryOk(version, t)
        && TimersPresent(w, id, t, timers)
  }

  // ----- One timer -----

  predicate RetryTimerOk(w: Id, x: Timer, t: Task) {
    && x.id == TimerID(w, x.task, TimerRetry, x.attempt)
    && x.attempt <= t.attempt
    && (x.attempt == t.attempt ==> !Leased(t))
    && (x.status == TimerScheduled ==> x.attempt == t.attempt && t.status == TaskPending && t.retryCount > 0)
  }

  predicate TimeoutTimerOk(w: Id, x: Timer, t: Task) {
    && x.id == TimerID(w, x.task, TimerTimeout, x.attempt)
    && x.attempt <= t.attempt && x.fence == x.attempt
    && x.attemptId == AttemptID(w, x.task, x.attempt)
    && (x.status == TimerScheduled ==>
          && x.attempt == t.attempt && Leased(t) && t.definition.timeout > 0
          && x.deadline == t.startedAt + t.definition.timeout)
  }

  predicate StartTimerOk(w: Id, status: WorkflowStatus, x: Timer) {
    && x.id == TimerID(w, NO_ID, TimerWorkflowStart, 0) && x.task == NO_ID
    && (x.status == TimerScheduled ==> status == WorkflowScheduled)
  }

  predicate TimerOk(w: Id, status: WorkflowStatus, x: Timer, tasks: map<Id, Task>) {
    hide RetryTimerOk, TimeoutTimerOk;
    match x.purpose
    case TimerWorkflowStart => StartTimerOk(w, status, x)
    case TimerRetry => x.task in tasks && RetryTimerOk(w, x, tasks[x.task])
    case TimerTimeout => x.task in tasks && TimeoutTimerOk(w, x, tasks[x.task])
    case TimerUnknown => false
  }

  // ----- The workflow -----

  /** A task that no longer takes part in the workflow. */
  predicate Settled(t: Task) {
    !Active(t.status) && (t.compensation ==> t.status == TaskFailed)
  }

  predicate Closed(t: Task) {
    !t.compensation && Settled(t)
  }

  /** `id` is the one compensation in progress. */
  predicate CurrentCompensation(tasks: map<Id, Task>, id: Id) {
    && id in tasks && tasks[id].compensation && tasks[id].status in {TaskCompensating, TaskPending}
    && (tasks[id].status == TaskPending ==> tasks[id].retryCount > 0)
    && forall x | x in tasks && x != id :: Closed(tasks[x])
  }

  predicate NothingCompensable(tasks: map<Id, Task>) {
    forall id | id in tasks :: !Compensable(tasks, id)
  }

  /** In a running workflow a task is held back exactly while a dependency is not completed. */
  predicate HeldBack(tasks: map<Id, Task>, id: Id)
    requires id in tasks
  {
    && tasks[id].status in {TaskPending, TaskReady, TaskRunning, TaskCompleted} && !tasks[id].compensation
    && (tasks[id].status == TaskPending && tasks[id].retryCount == 0 <==> !DependenciesCompleted(tasks, tasks[id]))
  }

  predicate Fresh(t: Task) {
    t.status == TaskPending && !t.compensation && t.retryCount == 0
  }

  ghost predicate StatusOk(status: WorkflowStatus, tasks: map<Id, Task>) {
    hide Closed, CurrentCompensation, HeldBack;
    match status
    case WorkflowScheduled => (forall id | id in tasks :: Fresh(tasks[id])) && exists id :: id in tasks
    case WorkflowRunning => (forall id | id in tasks :: HeldBack(tasks, id)) && !AllCompleted(tasks)
    case WorkflowCompensating => exists id :: CurrentCompensation(tasks, id)
    case WorkflowCompleted => AllCompleted(tasks)
    case WorkflowFailed => forall id | id in tasks :: Settled(tasks[id])
    case WorkflowCancelled => (forall id | id in tasks :: Closed(tasks[id])) && NothingCompensable(tasks)
    case WorkflowCompensated => (forall id | id in tasks :: Closed(tasks[id])) && NothingCompensable(tasks)
  }

  function DependencyGraph(tasks: map<Id, Task>): map<Id, seq<Id>> {
    map id | id in tasks :: tasks[id].definition.dependencies
  }

  predicate FanoutEdge(tasks: map<Id, Task>, id: Id)
    requires id in tasks
  {
    tasks[id].definition.fanout.Some? ==>
      var aggregate := tasks[id].definition.fanout.value.aggregate;
      aggregate != id && aggregate in tasks && id in tasks[aggregate].definition.dependencies
  }

  /** Dependencies stay within the workflow, can be ranked, and every fan-out feeds its aggregate. */
  ghost predicate GraphOk(tasks: map<Id, Task>) {
    && (forall id, d | id in tasks && d in tasks[id].definition.dependencies :: d in tasks)
    && Acyclic(DependencyGraph(tasks))
    && (forall id | id in tasks :: FanoutEdge(tasks, id))
  }

  /** A compensation has begun for the task. */
  predicate Undoing(t: Task) {
    t.status == TaskCompensated || t.compensation
  }

  /** Completions are numbered apart, and compensation has taken the latest of them. */
  ghost predicate SagaOk(tasks: map<Id, Task>) {
    && (forall a, b | a in tasks && b in tasks && a != b && tasks[a].completedSequence > 0 ::
          tasks[a].completedSequence != tasks[b].completedSequence)
    && (forall u, c | u in tasks && Undoing(tasks[u]) && Compensable(tasks, c) ::
          tasks[u].completedSequence > tasks[c].completedSequence)
  }

  ghost predicate TasksOk(s: Workflow) {
    hide TaskOk;
    forall id | id in s.tasks :: TaskOk(s.id, s.version, id, s.tasks[id], s.timers)
  }

  ghost predicate TimersOk(s: Workflow) {
    hide TimerOk;
    && (forall k | k in s.timers :: s.timers[k].id == k && TimerOk(s.id, s.status, s.timers[k], s.tasks))
    && (s.status == WorkflowScheduled ==> IsScheduled(s.timers, TimerID(s.id, NO_ID, TimerWorkflowStart, 0)))
  }

  ghost predicate Inv(s: Workflow) {
    && !Blank(s.id) && s.version >= 1 && s.updatedAt >= 0
    && TasksOk(s) && TimersOk(s) && StatusOk(s.status, s.tasks) && GraphOk(s.tasks) && SagaOk(s.tasks)
  }

  // ----- What the invariant says about lookups -----

  /** The scheduled timeout of a held task is the one with its current attempt number. */
  lemma {:induction false} TimeoutLookup(s: Workflow, id: Id)
    requires TasksOk(s) && TimersOk(s) && id in s.tasks && Leased(s.tasks[id])
    ensures var t := s.tasks[id];
            var key := TimerID(s.id, id, TimerTimeout, t.attempt);
            ScheduledTimer(s.timers, TimerTimeout, id, t.attemptId) ==
            if t.definition.timeout > 0 then Some(s.timers[key]) else None
  {
    var t := s.tasks[id];
    var key := TimerID(s.id, id, TimerTimeout, t.attempt);
    var found := ScheduledTimer(s.timers, TimerTimeout, id, t.attemptId);
    if found.Some? {
      var k :| k in s.timers && s.timers[k] == found.value && TimerMatches(found.value, TimerTimeout, id, t.attemptId);
      assert TimerOk(s.id, s.status, s.timers[k], s.tasks);
    }
    if t.definition.timeout > 0 {
      assert IsScheduled(s.timers, key);
      assert TimerOk(s.id, s.status, s.timers[key], s.tasks);
      assert TimerMatches(s.timers[key], TimerTimeout, id, t.attemptId);
    }
  }

  /** A retry is awaited exactly by a pending task with a nonzero retry count. */
  lemma {:induction false} WaitingLookup(s: Workflow, id: Id)
    requires hide TasksOk, TimersOk;
             TasksOk(s) && TimersOk(s) && id in s.tasks
    ensures Waiting(s.timers, id) <==> s.tasks[id].status == TaskPending && s.tasks[id].retryCount > 0
  {
    var t := s.tasks[id];
    if Waiting(s.timers, id) {
      var k :| k in s.timers && TimerMatches(s.timers[k], TimerRetry, id, NO_ID);
      assert TimerOk(s.id, s.status, s.timers[k], s.tasks);
    }
    if t.status == TaskPending && t.retryCount > 0 {
      var key := TimerID(s.id, id, TimerRetry, t.attempt);
      assert IsScheduled(s.timers, key);
      assert TimerOk(s.id, s.status, s.timers[key], s.tasks);
      assert TimerMatches(s.timers[key], TimerRetry, id, NO_ID);
    }
  }

  lemma {:induction false} HeldStatus(s: Workflow, id: Id)
    requires hide Inv;
             Inv(s) && id in s.tasks && Leased(s.tasks[id])
    ensures s.status == (if s.tasks[id].compensation then WorkflowCompensating else WorkflowRunning)
    ensures s.tasks[id].status == (if s.tasks[id].compensation then TaskCompensating else TaskRunning)
  {
    hide TimersOk, GraphOk, SagaOk;
    assert TaskOk(s.id, s.version, id, s.tasks[id], s.timers);
    assert s.status == WorkflowScheduled ==> Fresh(s.tasks[id]);
    assert s.status == WorkflowRunning ==> HeldBack(s.tasks, id);
    assert s.status == WorkflowFailed ==> Settled(s.tasks[id]);
    assert s.status in {WorkflowCancelled, WorkflowCompensated} ==> Closed(s.tasks[id]);
    if s.status == WorkflowCompensating {
      var current :| CurrentCompensation(s.tasks, current);
      assert current != id ==> Closed(s.tasks[id]);
    }
  }
}
