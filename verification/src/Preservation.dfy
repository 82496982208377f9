/** Every accepted command keeps the workflow invariant. */
module Preservation {
  import opened Base
  import opened Definition
  import opened CanonicalForms
  import opened Submission
  import opened Model
  import opened Backoff
  import opened Reducer
  import opened Invariant
  import opened Steps
  import opened Forms
  import opened IdOrder

  // ----- Frames -----

  lemma {:induction false} SameGraph(tasks: map<Id, Task>, tasks': map<Id, Task>)
    requires GraphOk(tasks) && tasks.Keys == tasks'.Keys
    requires forall id | id in tasks :: tasks'[id].definition == tasks[id].definition
    ensures GraphOk(tasks')
  {
    assert DependencyGraph(tasks) == DependencyGraph(tasks');
    forall id | id in tasks' ensures FanoutEdge(tasks', id) {
      assert FanoutEdge(tasks, id);
    }
  }

  /** Changing one task without completing it or starting to compensate it. */
  lemma {:induction false} SameSaga(tasks: map<Id, Task>, id: Id, t: Task)
    requires SagaOk(tasks) && id in tasks
    requires t.completedSequence == tasks[id].completedSequence && t.definition == tasks[id].definition
    requires Undoing(t) ==> Undoing(tasks[id])
    requires t.status == TaskCompleted ==> tasks[id].status == TaskCompleted
    ensures SagaOk(tasks[id := t])
  {
  }

  lemma {:induction false} SameGraphAt(tasks: map<Id, Task>, id: Id, t: Task)
    requires GraphOk(tasks) && id in tasks && t.definition == tasks[id].definition
    ensures GraphOk(tasks[id := t])
  {
    hide GraphOk;
    SameGraph(tasks, tasks[id := t]);
  }

  /** The identifier is one of the timers of the task. */
  predicate TimerOf(w: Id, id: Id, k: Id) {
    k.Digest? && k.kind.TimerKind? && k.first == w && k.second == id
  }

  /** Only timers of the task differ. */
  ghost predicate OnlyTimersOf(w: Id, id: Id, timers: map<Id, Timer>, timers': map<Id, Timer>) {
    && timers.Keys <= timers'.Keys
    && forall k | k in timers' && !TimerOf(w, id, k) :: k in timers && timers'[k] == timers[k]
  }

  ghost predicate OwnTimersOk(s: Workflow, id: Id) {
    hide TimerOk;
    forall k | k in s.timers && TimerOf(s.id, id, k) :: s.timers[k].id == k
        && TimerOk(s.id, s.status, s.timers[k], s.tasks)
  }

  /** `s'` differs from `s` in one task and its timers. */
  ghost predicate OneTaskChanged(s: Workflow, s': Workflow, id: Id) {
    && id in s.tasks && id in s'.tasks && s'.tasks == s.tasks[id := s'.tasks[id]]
    && s'.id == s.id && s'.status == s.status && s'.version >= s.version && s'.updatedAt >= 0
    && s'.tasks[id].definition == s.tasks[id].definition
    && OnlyTimersOf(s.id, id, s.timers, s'.timers)
  }

  lemma {:induction false} OtherTasksKept(s: Workflow, s': Workflow, id: Id)
    requires hide LeaseOk, StatusOk, TimersOk;
             Inv(s) && OneTaskChanged(s, s', id)
    requires TaskOk(s'.id, s'.version, id, s'.tasks[id], s'.timers)
    ensures TasksOk(s')
  {
    hide SagaOk, GraphOk, StatusOk, TimersOk;
    forall x | x in s'.tasks ensures TaskOk(s'.id, s'.version, x, s'.tasks[x], s'.timers) {
      if x != id {
        assert TaskOk(s.id, s.version, x, s.tasks[x], s.timers);
        assert s'.tasks[x] == s.tasks[x];
        assert !TimerOf(s.id, id, TimerID(s.id, x, TimerTimeout, s.tasks[x].attempt));
        assert !TimerOf(s.id, id, TimerID(s.id, x, TimerRetry, s.tasks[x].attempt));
      }
    }
  }

  lemma {:induction false} OtherTimersKept(s: Workflow, s': Workflow, id: Id)
    requires TimersOk(s) && id != NO_ID && OneTaskChanged(s, s', id) && OwnTimersOk(s', id)
    ensures TimersOk(s')
  {
    forall k | k in s'.timers ensures s'.timers[k].id == k && TimerOk(s'.id, s'.status, s'.timers[k], s'.tasks) {
      if !TimerOf(s.id, id, k) {
        OtherTimerKept(s, s', id, k);
      }
    }
    assert !TimerOf(s.id, id, TimerID(s.id, NO_ID, TimerWorkflowStart, 0));
    hide TimerOk, OwnTimersOk;
  }

  lemma {:induction false} OtherTimerKept(s: Workflow, s': Workflow, id: Id, k: Id)
    requires hide OneTaskChanged, TimerOk, TimersOk;
             TimersOk(s) && OneTaskChanged(s, s', id) && k in s'.timers && !TimerOf(s.id, id, k)
    ensures s'.timers[k].id == k && TimerOk(s'.id, s'.status, s'.timers[k], s'.tasks)
  {
    assert s'.timers[k] == s.timers[k];
    assert TimerOk(s.id, s.status, s.timers[k], s.tasks);
  }

  /** The task is being worked on forward. */
  predicate Working(t: Task) {
    && t.status in {TaskPending, TaskReady, TaskRunning} && !t.compensation
    && (t.status == TaskPending ==> t.retryCount > 0)
  }

  /** The task is being compensated. */
  predicate Compensates(t: Task) {
    && t.status in {TaskPending, TaskCompensating} && t.compensation
    && (t.status == TaskPending ==> t.retryCount > 0)
  }

  /** The task moves within its work: nothing completes, nothing ends. */
  predicate WorkMoves(status: WorkflowStatus, t: Task, t': Task) {
    || (status == WorkflowRunning && Working(t) && Working(t'))
    || (status == WorkflowCompensating && Compensates(t) && Compensates(t'))
  }

  lemma {:induction false} StatusKept(status: WorkflowStatus, tasks: map<Id, Task>, id: Id, t': Task)
    requires hide StatusOk, WorkMoves;
             StatusOk(status, tasks) && id in tasks && t'.definition == tasks[id].definition
    requires WorkMoves(status, tasks[id], t')
    ensures StatusOk(status, tasks[id := t'])
  {
    var tasks' := tasks[id := t'];
    if status == WorkflowRunning {
      forall x | x in tasks' ensures HeldBack(tasks', x) {
        assert HeldBack(tasks, x);
        assert tasks'[x].definition == tasks[x].definition;
        assert forall d :: IsCompleted(tasks', d) <==> IsCompleted(tasks, d);
      }
      assert tasks'[id].status != TaskCompleted;
    } else {
      var current :| CurrentCompensation(tasks, current);
      assert current == id;
      assert CurrentCompensation(tasks', id);
    }
  }

  /** A step of the work on one task keeps the invariant. */
  lemma {:induction false} WorkStepKeeps(s: Workflow, s': Workflow, id: Id)
    requires hide LeaseOk, StatusOk, TasksOk, TimerOk, TimersOk;
             Inv(s) && OneTaskChanged(s, s', id)
    requires TaskOk(s'.id, s'.version, id, s'.tasks[id], s'.timers) && OwnTimersOk(s', id)
    requires WorkMoves(s.status, s.tasks[id], s'.tasks[id])
    requires s'.tasks[id].completedSequence == s.tasks[id].completedSequence
    ensures Inv(s')
  {
    OtherTasksKept(s, s', id);
    assert TaskOk(s.id, s.version, id, s.tasks[id], s.timers);
    OtherTimersKept(s, s', id);
    StatusKept(s.status, s.tasks, id, s'.tasks[id]);
    hide TaskOk, TimersOk, StatusOk, OwnTimersOk, OnlyTimersOf;
    SameGraphAt(s.tasks, id, s'.tasks[id]);
    SameSaga(s.tasks, id, s'.tasks[id]);
  }

  lemma {:induction false} StartKeeps(s: Workflow, c: Command, s': Workflow)
    requires Inv(s) && c.at >= 0 && Starts(s, c, s')
    ensures Inv(s')
  {
    hide StatusOk, SagaOk, GraphOk;
    var t, t' := s.tasks[c.task], s'.tasks[c.task];
    assert TaskOk(s.id, s.version, c.task, t, s.timers);
    forall k | k in s'.timers && TimerOf(s.id, c.task, k)
      ensures s'.timers[k].id == k && TimerOk(s.id, s.status, s'.timers[k], s'.tasks)
    {
      if k in s.timers && s.timers[k] == s'.timers[k] {
        assert TimerOk(s.id, s.status, s.timers[k], s.tasks);
      }
    }
    WorkStepKeeps(s, s', c.task);
  }

  lemma {:induction false} RenewKeeps(s: Workflow, c: Command, s': Workflow)
    requires Inv(s) && c.at >= 0 && Renews(s, c, s')
    ensures Inv(s')
  {
    hide StatusOk, SagaOk, GraphOk, OwnTimersOk;
    var t := s.tasks[c.task];
    assert TaskOk(s.id, s.version, c.task, t, s.timers);
    if t.definition.timeout > 0 {
      assert TimerOk(s.id, s.status, s.timers[TimeoutKey(s, c.task)], s.tasks);
    }
    RenewTimers(s, c, s');
    hide TimersOk, TasksOk;
    WorkStepKeeps(s, s', c.task);
  }

  lemma {:induction false} RenewTimers(s: Workflow, c: Command, s': Workflow)
    requires Inv(s) && Renews(s, c, s')
    ensures OwnTimersOk(s', c.task)
  {
    hide StatusOk, SagaOk, GraphOk, TasksOk;
    forall k | k in s'.timers && TimerOf(s.id, c.task, k)
      ensures s'.timers[k].id == k && TimerOk(s.id, s.status, s'.timers[k], s'.tasks)
    {
      assert TimerOk(s.id, s.status, s.timers[k], s.tasks);
    }
  }

  /** The timers of a task after its timeout is settled. */
  lemma {:induction false} SettledTimers(s: Workflow, id: Id, status: TimerStatus)
    requires hide Inv, RetryTimerOk, TimeoutSettled;
             Inv(s) && id in s.tasks && Leased(s.tasks[id]) && status != TimerScheduled
    ensures OnlyTimersOf(s.id, id, s.timers, TimeoutSettled(s, id, status))
    ensures forall k | k in TimeoutSettled(s, id, status) && TimerOf(s.id, id, k) ::
              var x := TimeoutSettled(s, id, status)[k];
              && x.id == k && x.task == id && x.status != TimerScheduled
              && (x.purpose == TimerRetry || x.purpose == TimerTimeout)
              && (x.purpose == TimerRetry ==> RetryTimerOk(s.id, x, s.tasks[id]))
              && (x.purpose == TimerTimeout ==> x.attempt <= s.tasks[id].attempt && x.fence == x.attempt
                                                && x.attemptId == AttemptID(s.id, id, x.attempt))
  {
    hide StatusOk, SagaOk, GraphOk;
    var timers := TimeoutSettled(s, id, status);
    assert TaskOk(s.id, s.version, id, s.tasks[id], s.timers);
    forall k | k in timers && TimerOf(s.id, id, k)
      ensures var x := timers[k];
              && x.id == k && x.task == id && x.status != TimerScheduled
              && (x.purpose == TimerRetry || x.purpose == TimerTimeout)
              && (x.purpose == TimerRetry ==> RetryTimerOk(s.id, x, s.tasks[id]))
              && (x.purpose == TimerTimeout ==> x.attempt <= s.tasks[id].attempt && x.fence == x.attempt
                                                && x.attemptId == AttemptID(s.id, id, x.attempt))
    {
      assert k in s.timers && TimerOk(s.id, s.status, s.timers[k], s.tasks);
    }
  }

  lemma {:induction false} ExpireKeeps(s: Workflow, c: Command, s': Workflow)
    requires Inv(s) && c.at >= 0 && Expires(s, c, s')
    ensures Inv(s')
  {
    hide StatusOk, SagaOk, GraphOk;
    var t, t' := s.tasks[c.task], s'.tasks[c.task];
    assert TaskOk(s.id, s.version, c.task, t, s.timers);
    SettledTimers(s, c.task, TimerCancelled);
    hide TimeoutSettled, TimersOk;
    WorkStepKeeps(s, s', c.task);
  }

  lemma {:induction false} RetryKeeps(s: Workflow, id: Id, error: string, status: TimerStatus, at: int64,
                                      s1: Workflow, s': Workflow)
    requires Inv(s) && at >= 0 && AttemptFails(s, id, error, status, at, s1) && Retries(s1, id, at, s')
    ensures Inv(s')
  {
    hide StatusOk, SagaOk, GraphOk, RetryDelay, OwnTimersOk;
    var t, t' := s.tasks[id], s'.tasks[id];
    assert TaskOk(s.id, s.version, id, t, s.timers);
    SettledTimers(s, id, status);
    RetryTimers(s, id, error, status, at, s1, s');
    RetryTask(s, id, error, status, at, s1, s');
    hide TimeoutSettled, TimersOk, TasksOk, TaskOk;
    WorkStepKeeps(s, s', id);
  }

  lemma {:induction false} RetryTask(s: Workflow, id: Id, error: string, status: TimerStatus, at: int64, s1: Workflow,
                                     s': Workflow)
    requires hide LeaseOk, StatusOk, TasksOk, TimersOk;
             Inv(s) && at >= 0 && AttemptFails(s, id, error, status, at, s1) && Retries(s1, id, at, s')
    ensures TaskOk(s'.id, s'.version, id, s'.tasks[id], s'.timers)
  {
    hide StatusOk, SagaOk, GraphOk, RetryDelay, TimersOk;
    assert TaskOk(s.id, s.version, id, s.tasks[id], s.timers);
    hide TimeoutSettled, TasksOk;
  }

  lemma {:induction false} RetryTimers(s: Workflow, id: Id, error: string, status: TimerStatus, at: int64,
                                       s1: Workflow, s': Workflow)
    requires Inv(s) && at >= 0 && AttemptFails(s, id, error, status, at, s1) && Retries(s1, id, at, s')
    ensures OwnTimersOk(s', id)
  {
    hide StatusOk, SagaOk, GraphOk, RetryDelay;
    assert TaskOk(s.id, s.version, id, s.tasks[id], s.timers);
    SettledTimers(s, id, status);
    hide TimeoutSettled, TimersOk, TasksOk;
  }

  lemma {:induction false} FireRetryKeeps(s: Workflow, c: Command, s': Workflow)
    requires Inv(s) && c.at >= 0 && FiresRetry(s, c, s')
    ensures Inv(s')
  {
    hide StatusOk, SagaOk, GraphOk;
    var id := s.timers[c.timer].task;
    var t, t' := s.tasks[id], s'.tasks[id];
    assert TaskOk(s.id, s.version, id, t, s.timers);
    assert TimerOk(s.id, s.status, s.timers[c.timer], s.tasks);
    forall k | k in s'.timers && TimerOf(s.id, id, k)
      ensures s'.timers[k].id == k && TimerOk(s.id, s.status, s'.timers[k], s'.tasks)
    {
      assert TimerOk(s.id, s.status, s.timers[k], s.tasks);
    }
    WorkStepKeeps(s, s', id);
  }

  // ----- Winding down -----

  /** What a timer keeps of its shape whatever happens to its task. */
  predicate TimerShape(w: Id, x: Timer, tasks: map<Id, Task>) {
    match x.purpose
    case TimerWorkflowStart => x.id == TimerID(w, NO_ID, TimerWorkflowStart, 0) && x.task == NO_ID
    case TimerRetry => && x.task in tasks && x.id == TimerID(w, x.task, TimerRetry, x.attempt)
                       && x.attempt <= tasks[x.task].attempt
    case TimerTimeout => && x.task in tasks && x.id == TimerID(w, x.task, TimerTimeout, x.attempt)
                         && x.attempt <= tasks[x.task].attempt && x.fence == x.attempt
                         && x.attemptId == AttemptID(w, x.task, x.attempt)
    case TimerUnknown => false
  }

  predicate SoundTask(version: uint64, id: Id, t: Task) {
    DefinitionOk(id, t.definition) && CountersOk(t) && HistoryOk(version, t)
  }

  ghost predicate TimersShaped(s: Workflow) {
    forall k | k in s.timers :: s.timers[k].id == k && TimerShape(s.id, s.timers[k], s.tasks)
  }

  ghost predicate SoundState(s: Workflow) {
    hide Blank, GraphOk, SagaOk, SoundTask, TimersShaped;
    && !Blank(s.id) && s.version >= 1 && s.updatedAt >= 0
    && (forall id | id in s.tasks :: SoundTask(s.version, id, s.tasks[id]))
    && TimersShaped(s) && GraphOk(s.tasks) && SagaOk(s.tasks)
  }

  /** The task belongs to forward work. */
  predicate Forward(t: Task) {
    !t.compensation && t.status in {TaskPending, TaskReady, TaskRunning, TaskCompleted, TaskFailed}
  }

  /** A state whose forward work can be wound down. */
  ghost predicate Unwindable(s: Workflow) {
    hide SoundState;
    SoundState(s) && forall id | id in s.tasks :: Forward(s.tasks[id])
  }


  predicate NoneScheduled(timers: map<Id, Timer>) {
    forall k | k in timers :: timers[k].status != TimerScheduled
  }

  /** A state with no open work. */
  ghost predicate Quiet(s: Workflow) {
    hide SoundState;
    SoundState(s) && (forall id | id in s.tasks :: Settled(s.tasks[id])) && NoneScheduled(s.timers)
  }

  /** A state with no open work that can go on to compensate. */
  ghost predicate Wound(s: Workflow) {
    hide Closed, Quiet;
    Quiet(s) && forall id | id in s.tasks :: Closed(s.tasks[id])
  }

  lemma {:induction false} WoundTimers(s1: Workflow, at: int64, s2: Workflow)
    requires Unwindable(s1) && WindsDown(s1, at, s2)
    ensures TimersShaped(s2) && NoneScheduled(s2.timers)
  {
    hide GraphOk, SagaOk, SoundTask, Forward;
    forall k | k in s2.timers
      ensures s2.timers[k].id == k && s2.timers[k].status != TimerScheduled && TimerShape(s2.id, s2.timers[k], s2.tasks)
    {
      assert TimerShape(s1.id, s1.timers[k], s1.tasks);
    }
  }

  lemma {:induction false} WoundTasks(s1: Workflow, at: int64, s2: Workflow)
    requires hide Closed, SoundTask, Unwindable, WindsDown;
             Unwindable(s1) && WindsDown(s1, at, s2)
    ensures forall id | id in s2.tasks :: SoundTask(s2.version, id, s2.tasks[id]) && Closed(s2.tasks[id])
  {
    hide GraphOk, SagaOk, TimersShaped, DefinitionOk, CancelTimers;
    forall id | id in s2.tasks ensures SoundTask(s2.version, id, s2.tasks[id]) && Closed(s2.tasks[id]) {
      assert SoundTask(s1.version, id, s1.tasks[id]) && Forward(s1.tasks[id]);
    }
  }

  lemma {:induction false} WoundSaga(s1: Workflow, at: int64, s2: Workflow)
    requires Unwindable(s1) && WindsDown(s1, at, s2)
    ensures SagaOk(s2.tasks)
  {
    hide GraphOk, TimersShaped, DefinitionOk, CancelTimers;
    assert s2.tasks.Keys == s1.tasks.Keys;
    assert forall id | id in s2.tasks :: s2.tasks[id].completedSequence == s1.tasks[id].completedSequence;
    forall id | id in s2.tasks ensures !Undoing(s2.tasks[id]) { assert Forward(s1.tasks[id]); }
    hide WindsDown, CancelAll, SoundTask;
  }

  lemma {:induction false} WindDownWinds(s1: Workflow, at: int64, s2: Workflow)
    requires Unwindable(s1) && at >= 0 && WindsDown(s1, at, s2)
    ensures Wound(s2)
  {
    WoundTasks(s1, at, s2);
    WoundSaga(s1, at, s2);
    WoundTimers(s1, at, s2);
    hide TimersShaped, NoneScheduled, SoundTask, Closed, SagaOk, Forward, GraphOk;
    WoundGraph(s1, at, s2);
  }

  lemma {:induction false} WoundGraph(s1: Workflow, at: int64, s2: Workflow)
    requires GraphOk(s1.tasks) && WindsDown(s1, at, s2)
    ensures GraphOk(s2.tasks)
  {
    hide GraphOk, CancelTimers;
    SameGraph(s1.tasks, s2.tasks);
  }

  /** Timers that are not scheduled are in order as long as they keep their shape and their task is
      not held. */
  lemma {:induction false} ShapedTimersOk(s: Workflow)
    requires hide TimersOk, TimersShaped;
             TimersShaped(s) && NoneScheduled(s.timers) && s.status != WorkflowScheduled
    requires forall id | id in s.tasks :: !Leased(s.tasks[id])
    ensures TimersOk(s)
  {
    forall k | k in s.timers ensures s.timers[k].id == k && TimerOk(s.id, s.status, s.timers[k], s.tasks) {
      assert TimerShape(s.id, s.timers[k], s.tasks);
    }
  }

  lemma {:induction false} QuietEnds(s2: Workflow, status: WorkflowStatus, at: int64, s': Workflow)
    requires hide Closed, Inv, NextCompensation, Quiet;
             Quiet(s2) && at >= 0 && Ends(s2, status, at, s')
    requires status in {WorkflowFailed, WorkflowCancelled, WorkflowCompensated}
    requires status != WorkflowFailed ==>
               NextCompensation(s2.tasks).None? && forall id | id in s2.tasks :: Closed(s2.tasks[id])
    ensures Inv(s')
  {
    ShapedTimersOk(s');
    hide GraphOk, SagaOk, TimersOk, TimersShaped, NoneScheduled;
  }

  /** The chosen compensation is later than everything left to compensate. */
  lemma {:induction false} ChosenSaga(tasks: map<Id, Task>, next: Id)
    requires hide NextCompensation, SagaOk;
             SagaOk(tasks) && NextCompensation(tasks) == Some(next)
    requires forall id | id in tasks :: tasks[id].status == TaskCompleted ==> tasks[id].completedSequence > 0
    ensures SagaOk(tasks[next := CompensatingTask(tasks[next])])
  {
    var tasks' := tasks[next := CompensatingTask(tasks[next])];
    forall u, c | u in tasks' && Undoing(tasks'[u]) && Compensable(tasks', c)
      ensures tasks'[u].completedSequence > tasks'[c].completedSequence
    {
      assert Compensable(tasks, c) && c != next;
      if u == next {
        assert CompensatesBefore(tasks, next, c);
      } else {
        assert Undoing(tasks[u]);
      }
    }
  }

  /** The state once compensation of `next` begins. */
  function Compensation(s2: Workflow, next: Id, at: int64): Workflow
    requires next in s2.tasks && s2.version < MAX_UINT64
  {
    s2.(status := WorkflowCompensating, tasks := s2.tasks[next := CompensatingTask(s2.tasks[next])],
        version := s2.version + 1, updatedAt := at)
  }

  lemma {:induction false} CompensationTasks(s2: Workflow, next: Id, at: int64)
    requires hide TasksOk, Wound;
             Wound(s2) && Compensable(s2.tasks, next) && s2.version < MAX_UINT64
    ensures TasksOk(Compensation(s2, next, at))
  {
    hide GraphOk, SagaOk, TimersShaped, NoneScheduled, DefinitionOk;
    var s' := Compensation(s2, next, at);
    forall id | id in s'.tasks ensures TaskOk(s'.id, s'.version, id, s'.tasks[id], s'.timers) {
      assert SoundTask(s2.version, id, s2.tasks[id]) && Closed(s2.tasks[id]);
    }
  }

  lemma {:induction false} CompensationStatus(s2: Workflow, next: Id, at: int64)
    requires hide StatusOk, Wound;
             Wound(s2) && Compensable(s2.tasks, next) && s2.version < MAX_UINT64
    ensures StatusOk(WorkflowCompensating, Compensation(s2, next, at).tasks)
  {
    hide SoundState, NoneScheduled;
    var s' := Compensation(s2, next, at);
    assert forall id | id in s'.tasks && id != next :: Closed(s2.tasks[id]) && s'.tasks[id] == s2.tasks[id];
    assert CurrentCompensation(s'.tasks, next);
  }

  lemma {:induction false} CompensationTimers(s2: Workflow, next: Id, at: int64)
    requires hide TimersOk, Wound;
             Wound(s2) && next in s2.tasks && s2.version < MAX_UINT64
    ensures TimersOk(Compensation(s2, next, at))
  {
    hide GraphOk, SagaOk, SoundTask;
    var s' := Compensation(s2, next, at);
    forall k | k in s'.timers ensures s'.timers[k].id == k && TimerShape(s'.id, s'.timers[k], s'.tasks) {
      assert TimerShape(s2.id, s2.timers[k], s2.tasks);
    }
    ShapedTimersOk(s');
  }

  lemma {:induction false} WoundCompensates(s2: Workflow, at: int64, s': Workflow)
    requires Wound(s2) && at >= 0 && BeginsCompensation(s2, at, s')
    ensures Inv(s')
  {
    var next :| NextCompensation(s2.tasks) == Some(next) && s' == Compensation(s2, next, at);
    assert forall id | id in s2.tasks :: SoundTask(s2.version, id, s2.tasks[id]);
    ChosenSaga(s2.tasks, next);
    SameGraphAt(s2.tasks, next, CompensatingTask(s2.tasks[next]));
    CompensationTasks(s2, next, at);
    CompensationStatus(s2, next, at);
    CompensationTimers(s2, next, at);
    hide GraphOk, SagaOk, NextCompensation, SoundTask, TasksOk, TimersOk, StatusOk, TimersShaped, NoneScheduled;
  }

  lemma {:induction false} ConcludeKeeps(s1: Workflow, status: WorkflowStatus, at: int64, s': Workflow)
    requires Unwindable(s1) && at >= 0 && Concludes(s1, status, at, s') && status in {WorkflowFailed, WorkflowCancelled}
    ensures Inv(s')
  {
    hide Quiet, Unwindable, WindsDown, BeginsCompensation, Ends, Inv;
    var s2 :| WindsDown(s1, at, s2)
              && (BeginsCompensation(s2, at, s') || (NextCompensation(s2.tasks).None? && Ends(s2, status, at, s')));
    WindDownWinds(s1, at, s2);
    if BeginsCompensation(s2, at, s') {
      WoundCompensates(s2, at, s');
    } else {
      QuietEnds(s2, status, at, s');
    }
  }

  lemma {:induction false} InvUnwindable(s: Workflow)
    requires Inv(s) && s.status in {WorkflowScheduled, WorkflowRunning}
    ensures Unwindable(s)
  {
    hide GraphOk, SagaOk;
    forall k | k in s.timers ensures s.timers[k].id == k && TimerShape(s.id, s.timers[k], s.tasks) {
      assert TimerOk(s.id, s.status, s.timers[k], s.tasks);
    }
    forall id | id in s.tasks ensures Forward(s.tasks[id]) && SoundTask(s.version, id, s.tasks[id]) {
      assert TaskOk(s.id, s.version, id, s.tasks[id], s.timers);
      if s.status == WorkflowRunning { assert HeldBack(s.tasks, id); } else { assert Fresh(s.tasks[id]); }
    }
  }

  lemma {:induction false} CancelKeeps(s: Workflow, c: Command, s': Workflow)
    requires Inv(s) && c.at >= 0 && Cancels(s, c, s')
    ensures Inv(s')
  {
    hide Concludes, Inv;
    InvUnwindable(s);
    ConcludeKeeps(s.(version := s.version + 1, updatedAt := c.at), WorkflowCancelled, c.at, s');
  }

  lemma {:induction false} FailedTimers(s: Workflow, id: Id, error: string, status: TimerStatus, at: int64,
                                        s1: Workflow)
    requires TimersShaped(s) && AttemptFails(s, id, error, status, at, s1)
    ensures TimersShaped(s1)
  {
    forall k | k in s1.timers ensures s1.timers[k].id == k && TimerShape(s1.id, s1.timers[k], s1.tasks) {
      assert k in s.timers && TimerShape(s.id, s.timers[k], s.tasks);
    }
  }

  lemma {:induction false} FailedUnwindable(s: Workflow, id: Id, error: string, status: TimerStatus, at: int64,
                                            s1: Workflow)
    requires Inv(s) && s.status == WorkflowRunning && at >= 0 && AttemptFails(s, id, error, status, at, s1)
    ensures Unwindable(s1)
  {
    InvUnwindable(s);
    hide Inv;
    FailedTimers(s, id, error, status, at, s1);
    hide TimersShaped, TimeoutSettled, GraphOk, SagaOk, SoundTask, Forward;
    SameGraphAt(s.tasks, id, s1.tasks[id]);
    SameSaga(s.tasks, id, s1.tasks[id]);
    FailedTasks(s, id, error, status, at, s1);
  }

  lemma {:induction false} FailedTasks(s: Workflow, id: Id, error: string, status: TimerStatus, at: int64, s1: Workflow)
    requires hide AttemptFails, SoundTask;
             AttemptFails(s, id, error, status, at, s1) && s.status == WorkflowRunning
    requires forall x | x in s.tasks :: SoundTask(s.version, x, s.tasks[x]) && Forward(s.tasks[x])
    ensures forall x | x in s1.tasks :: SoundTask(s1.version, x, s1.tasks[x]) && Forward(s1.tasks[x])
  {
    hide TimeoutSettled, DefinitionOk;
    forall x | x in s1.tasks ensures SoundTask(s1.version, x, s1.tasks[x]) && Forward(s1.tasks[x]) {
      assert SoundTask(s.version, x, s.tasks[x]) && Forward(s.tasks[x]);
    }
  }

  lemma {:induction false} FailKeeps(s: Workflow, id: Id, error: string, status: TimerStatus, at: int64, s1: Workflow,
                                     s': Workflow)
    requires Inv(s) && at >= 0 && AttemptFails(s, id, error, status, at, s1) && FailureFollows(s1, id, at, s')
    ensures Inv(s')
  {
    hide Inv, Retries, Concludes, Replaces, Ends;
    assert s1.tasks[id] == FailedTask(s.tasks[id], error, at) by { FailedTaskAt(s, id, error, status, at, s1); }
    if RetriesLeft(s1.tasks[id]) {
      RetryKeeps(s, id, error, status, at, s1, s');
    } else if s.tasks[id].compensation {
      CompensationFails(s, id, error, status, at, s1);
      QuietEnds(s1, WorkflowFailed, at, s');
    } else {
      FailedUnwindable(s, id, error, status, at, s1);
      ConcludeKeeps(s1, WorkflowFailed, at, s');
    }
  }

  lemma {:induction false} FailedTaskAt(s: Workflow, id: Id, error: string, status: TimerStatus, at: int64,
                                        s1: Workflow)
    requires AttemptFails(s, id, error, status, at, s1)
    ensures id in s1.tasks && s1.tasks[id] == FailedTask(s.tasks[id], error, at)
  {
  }

  // ----- Ending a compensation -----

  /** The one held task of a compensating workflow is settled: nothing is open any more. */
  lemma {:induction false} CompensationSettles(s: Workflow, id: Id, t: Task, status: TimerStatus, at: int64,
                                               s1: Workflow)
    requires hide Inv, Quiet, Replaces, SoundTask, Wound;
             Inv(s) && s.status == WorkflowCompensating && id in s.tasks && Leased(s.tasks[id])
             && s.tasks[id].compensation
    requires status != TimerScheduled && at >= 0 && Replaces(s, id, t, status, at, s1)
    requires Settled(t) && Undoing(t) && t.status != TaskCompleted && t.definition == s.tasks[id].definition
    requires t.completedSequence == s.tasks[id].completedSequence && t.attempt == s.tasks[id].attempt
    requires SoundTask(s1.version, id, t)
    ensures Quiet(s1)
    ensures !t.compensation ==> Wound(s1)
  {
    SameGraphAt(s.tasks, id, t);
    SameSaga(s.tasks, id, t);
    SettlingTasks(s, id, t, status, at, s1);
    SettlingTimers(s, id, t, status, at, s1);
    hide Inv, GraphOk, SagaOk, TimersShaped, NoneScheduled, SoundTask, Settled, TimeoutSettled;
    assert SoundState(s1) by { assert !Blank(s.id) && s.version >= 1 by { InvHeader(s); } }
  }

  lemma {:induction false} InvHeader(s: Workflow)
    requires Inv(s)
    ensures !Blank(s.id) && s.version >= 1
  {
    hide StatusOk, TasksOk, TimersOk;
  }

  lemma {:induction false} SettlingTasks(s: Workflow, id: Id, t: Task, status: TimerStatus, at: int64, s1: Workflow)
    requires hide Inv, Replaces, SoundTask;
             Inv(s) && s.status == WorkflowCompensating && id in s.tasks && Leased(s.tasks[id])
    requires Replaces(s, id, t, status, at, s1) && Settled(t) && SoundTask(s1.version, id, t)
    ensures forall x | x in s1.tasks :: SoundTask(s1.version, x, s1.tasks[x]) && Settled(s1.tasks[x])
    ensures forall x | x in s1.tasks && x != id :: !s1.tasks[x].compensation
  {
    hide GraphOk, SagaOk, TimersOk, TimeoutSettled;
    var current :| CurrentCompensation(s.tasks, current);
    assert current == id;
    forall x | x in s1.tasks
      ensures SoundTask(s1.version, x, s1.tasks[x]) && Settled(s1.tasks[x]) && (x != id ==> !s1.tasks[x].compensation)
    {
      assert TaskOk(s.id, s.version, x, s.tasks[x], s.timers);
    }
  }

  lemma {:induction false} SettlingTimer(s: Workflow, id: Id, t: Task, status: TimerStatus, at: int64, s1: Workflow,
                                         k: Id)
    requires hide Closed, Replaces, TimerShape, TimersOk;
             TimersOk(s) && s.status == WorkflowCompensating && id in s.tasks && Leased(s.tasks[id])
             && status != TimerScheduled
    requires Replaces(s, id, t, status, at, s1) && t.attempt == s.tasks[id].attempt && k in s1.timers
    requires forall x | x in s.tasks && x != id :: Closed(s.tasks[x])
    ensures s1.timers[k].id == k && s1.timers[k].status != TimerScheduled && TimerShape(s1.id, s1.timers[k], s1.tasks)
  {
    assert k in s.timers && TimerOk(s.id, s.status, s.timers[k], s.tasks);
  }

  lemma {:induction false} SettlingTimers(s: Workflow, id: Id, t: Task, status: TimerStatus, at: int64, s1: Workflow)
    requires hide Inv, Replaces, TimersShaped;
             Inv(s) && s.status == WorkflowCompensating && id in s.tasks && Leased(s.tasks[id])
    requires status != TimerScheduled && Replaces(s, id, t, status, at, s1) && t.attempt == s.tasks[id].attempt
    ensures TimersShaped(s1) && NoneScheduled(s1.timers)
  {
    hide GraphOk, SagaOk, TasksOk, Replaces, TimersOk;
    var current :| CurrentCompensation(s.tasks, current);
    assert current == id;
    assert forall x | x in s.tasks && x != id :: Closed(s.tasks[x]);
    hide StatusOk, CurrentCompensation;
    forall k | k in s1.timers
      ensures s1.timers[k].id == k && s1.timers[k].status != TimerScheduled && TimerShape(s1.id, s1.timers[k], s1.tasks)
    {
      SettlingTimer(s, id, t, status, at, s1, k);
    }
  }

  lemma {:induction false} CompensationFails(s: Workflow, id: Id, error: string, status: TimerStatus, at: int64,
                                             s1: Workflow)
    requires hide SoundState, StatusOk, TasksOk, TimersOk;
             Inv(s) && at >= 0 && AttemptFails(s, id, error, status, at, s1) && s.tasks[id].compensation
    ensures Quiet(s1)
  {
    hide GraphOk, SagaOk, TimersOk, StatusOk, TimeoutSettled;
    assert TaskOk(s.id, s.version, id, s.tasks[id], s.timers);
    CompensationSettles(s, id, FailedTask(s.tasks[id], error, at), status, at, s1);
  }

  lemma {:induction false} FinishCompensationKeeps(s: Workflow, c: Command, s': Workflow)
    requires Inv(s) && c.at >= 0 && FinishesCompensation(s, c, s')
    ensures Inv(s')
  {
    hide GraphOk, SagaOk, TimersOk, StatusOk, TimeoutSettled, BeginsCompensation, Ends, ChosenCompensation,
        NextCompensation;
    var t := CompensatedTask(s.tasks[c.task], c.at);
    var s1 :| && Replaces(s, c.task, t, TimerCancelled, c.at, s1)
              && (BeginsCompensation(s1, c.at, s')
                  || (NextCompensation(s1.tasks).None? && Ends(s1, WorkflowCompensated, c.at, s')));
    assert TaskOk(s.id, s.version, c.task, s.tasks[c.task], s.timers);
    CompensationSettles(s, c.task, t, TimerCancelled, c.at, s1);
    hide Inv, Replaces, Quiet;
    if BeginsCompensation(s1, c.at, s') {
      WoundCompensates(s1, c.at, s');
    } else {
      QuietEnds(s1, WorkflowCompensated, c.at, s');
    }
  }

  // ----- Finding ready tasks -----

  /** A task that is not held back by its dependencies has them all completed. */
  predicate Released(tasks: map<Id, Task>, id: Id)
    requires id in tasks
  {
    && tasks[id].status in {TaskPending, TaskReady, TaskRunning, TaskCompleted} && !tasks[id].compensation
    && ((tasks[id].status == TaskPending && tasks[id].retryCount == 0) || DependenciesCompleted(tasks, tasks[id]))
  }

  /** A state whose ready tasks have not been looked for yet. */
  ghost predicate Unscanned(s: Workflow) {
    hide Blank, GraphOk, Released, SagaOk, TasksOk, TimersOk;
    && !Blank(s.id) && s.version >= 1 && s.updatedAt >= 0 && s.status != WorkflowScheduled
    && TasksOk(s) && TimersOk(s) && GraphOk(s.tasks) && SagaOk(s.tasks)
    && forall id | id in s.tasks :: Released(s.tasks, id)
  }

  lemma {:induction false} ScannedTasks(s2: Workflow, s': Workflow)
    requires TasksOk(s2) && TimersOk(s2) && s'.id == s2.id && s'.version >= s2.version && s'.timers == s2.timers
    requires s'.tasks == ReadyAll(s2.tasks, s2.timers)
    ensures TasksOk(s')
  {
    hide TimersOk;
    forall id | id in s'.tasks ensures TaskOk(s'.id, s'.version, id, s'.tasks[id], s'.timers) {
      assert TaskOk(s2.id, s2.version, id, s2.tasks[id], s2.timers);
    }
  }

  lemma {:induction false} ScannedTimers(s2: Workflow, s': Workflow)
    requires TasksOk(s2) && TimersOk(s2) && s'.id == s2.id && s'.timers == s2.timers
    requires s2.status != WorkflowScheduled && s'.status != WorkflowScheduled
    requires s'.tasks == ReadyAll(s2.tasks, s2.timers)
    ensures TimersOk(s')
  {
    forall k | k in s'.timers ensures s'.timers[k].id == k && TimerOk(s'.id, s'.status, s'.timers[k], s'.tasks) {
      var x := s2.timers[k];
      assert TimerOk(s2.id, s2.status, x, s2.tasks);
      if x.purpose != TimerWorkflowStart { WaitingLookup(s2, x.task); }
    }
  }

  lemma {:induction false} ScannedHeldBack(s2: Workflow, id: Id)
    requires TasksOk(s2) && TimersOk(s2) && id in s2.tasks && Released(s2.tasks, id)
    ensures HeldBack(ReadyAll(s2.tasks, s2.timers), id)
  {
    hide TaskOk, TasksOk, TimersOk;
    var tasks' := ReadyAll(s2.tasks, s2.timers);
    WaitingLookup(s2, id);
    assert forall d :: IsCompleted(tasks', d) <==> IsCompleted(s2.tasks, d);
    assert DependenciesCompleted(tasks', tasks'[id]) <==> DependenciesCompleted(s2.tasks, s2.tasks[id]);
  }

  lemma {:induction false} ScannedGraph(tasks: map<Id, Task>, timers: map<Id, Timer>)
    requires GraphOk(tasks) && SagaOk(tasks)
    ensures GraphOk(ReadyAll(tasks, timers)) && SagaOk(ReadyAll(tasks, timers))
  {
    hide Eligible, GraphOk, SagaOk;
    var tasks' := ReadyAll(tasks, timers);
    SameGraph(tasks, tasks');
    assert forall id | id in tasks :: tasks'[id].status == TaskCompleted ==> tasks[id].status == TaskCompleted by {
      EligiblePending(tasks, timers);
    }
    SagaCarried(tasks, tasks');
  }

  lemma {:induction false} EligiblePending(tasks: map<Id, Task>, timers: map<Id, Timer>)
    ensures forall id | Eligible(tasks, timers, id) :: id in tasks && tasks[id].status == TaskPending
  {
  }

  lemma {:induction false} SagaCarried(tasks: map<Id, Task>, tasks': map<Id, Task>)
    requires SagaOk(tasks) && tasks.Keys == tasks'.Keys
    requires forall id | id in tasks ::
               && tasks'[id].completedSequence == tasks[id].completedSequence
               && tasks'[id].definition == tasks[id].definition
               && (Undoing(tasks'[id]) ==> Undoing(tasks[id]))
               && (tasks'[id].status == TaskCompleted ==> tasks[id].status == TaskCompleted)
    ensures SagaOk(tasks')
  {
    assert forall c :: Compensable(tasks', c) ==> Compensable(tasks, c);
  }

  lemma {:induction false} AdvanceKeeps(s2: Workflow, at: int64, s': Workflow)
    requires Unscanned(s2) && at >= 0 && Advances(s2, at, s')
    ensures Inv(s')
  {
    ScannedTasks(s2, s');
    ScannedTimers(s2, s');
    ScannedGraph(s2.tasks, s2.timers);
    forall id | id in s'.tasks ensures HeldBack(s'.tasks, id) {
      ScannedHeldBack(s2, id);
    }
    hide TasksOk, TimersOk, GraphOk, SagaOk, HeldBack, Released, ReadyAll;
  }

  lemma {:induction false} FireStartKeeps(s: Workflow, c: Command, s': Workflow)
    requires hide ReadyAll, StatusOk, TasksOk, TimersOk;
             Inv(s) && c.at >= 0 && FiresStart(s, c, s')
    requires s.timers[c.timer].purpose == TimerWorkflowStart
    ensures Inv(s')
  {
    hide TaskOk, TasksOk, TimersOk;
    var s2 := s.(status := WorkflowRunning, timers := s.timers[c.timer := s.timers[c.timer].(status := TimerFired)],
                 version := s'.version, updatedAt := c.at);
    StartedUnscanned(s, c, s2);
    FreshNotCompleted(s, s2.timers);
    hide Inv, Unscanned, ReadyAll, AllCompleted;
    AdvanceKeeps(s2, c.at, s');
  }

  lemma {:induction false} FreshNotCompleted(s: Workflow, timers: map<Id, Timer>)
    requires Inv(s) && s.status == WorkflowScheduled
    ensures !AllCompleted(ReadyAll(s.tasks, timers))
  {
    hide GraphOk, SagaOk, TimersOk, TasksOk, Eligible;
    var id :| id in s.tasks;
    assert Fresh(s.tasks[id]);
    assert ReadyAll(s.tasks, timers)[id].status != TaskCompleted;
  }

  lemma {:induction false} StartedUnscanned(s: Workflow, c: Command, s2: Workflow)
    requires hide Inv, Unscanned;
             Inv(s) && s.status == WorkflowScheduled && c.at >= 0 && c.timer in s.timers
    requires s.timers[c.timer].purpose == TimerWorkflowStart
    requires s2 == s.(status := WorkflowRunning,
             timers := s.timers[c.timer := s.timers[c.timer].(status := TimerFired)],
                      version := s2.version, updatedAt := c.at)
    requires s2.version > s.version
    ensures Unscanned(s2)
  {
    hide GraphOk, SagaOk;
    forall id | id in s2.tasks ensures TaskOk(s2.id, s2.version, id, s2.tasks[id], s2.timers)
        && Released(s2.tasks, id) {
      assert TaskOk(s.id, s.version, id, s.tasks[id], s.timers) && Fresh(s.tasks[id]);
    }
    assert TimerOk(s.id, s.status, s.timers[c.timer], s.tasks);
    forall k | k in s2.timers ensures s2.timers[k].id == k && TimerOk(s2.id, s2.status, s2.timers[k], s2.tasks) {
      assert TimerOk(s.id, s.status, s.timers[k], s.tasks);
    }
  }

  lemma {:induction false} FreshGraph(d: WorkflowDefinition)
    requires ValidDefinition(d)
    ensures GraphOk(FreshTasks(d.tasks))
  {
    hide TaskTable;
    var tasks, table := FreshTasks(d.tasks), TaskTable(d.tasks);
    assert DependencyGraph(tasks) == Graph(table);
    forall id | id in tasks
      ensures FanoutEdge(tasks, id) && forall x | x in tasks[id].definition.dependencies :: x in tasks
    {
      FreshTask(d, id);
      if tasks[id].definition.fanout.Some? { FreshTask(d, tasks[id].definition.fanout.value.aggregate); }
    }
  }

  lemma {:induction false} FreshTasksOk(d: WorkflowDefinition, w: Id, version: uint64, timers: map<Id, Timer>)
    requires hide SagaOk, TaskOk, ValidDefinition;
             ValidDefinition(d)
    ensures forall id | id in FreshTasks(d.tasks) ::
              TaskOk(w, version, id, FreshTasks(d.tasks)[id], timers) && Fresh(FreshTasks(d.tasks)[id])
    ensures SagaOk(FreshTasks(d.tasks))
    ensures exists id :: id in FreshTasks(d.tasks)
  {
    var tasks := FreshTasks(d.tasks);
    TaskTableAt(d.tasks, 0);
    assert d.tasks[0].id in tasks;
    forall id | id in tasks
      ensures TaskOk(w, version, id, tasks[id], timers) && Fresh(tasks[id])
      ensures tasks[id].completedSequence == 0 && !Undoing(tasks[id])
    {
      FreshTask(d, id);
    }
    hide TaskTable, ValidDefinition, TaskOk;
  }

  /** The submitted workflow before its start timer or its ready tasks. */
  lemma {:induction false} SubmittedTasks(c: Command, version: uint64, timers: map<Id, Timer>)
    requires hide GraphOk, SagaOk, Submitted, TaskOk, ValidDefinition;
             c.definition.Some? && ValidDefinition(c.definition.value)
    ensures var tasks := Submitted(c).tasks;
            && GraphOk(tasks) && SagaOk(tasks)
            && (forall id | id in tasks :: TaskOk(c.workflow, version, id, tasks[id], timers) && Fresh(tasks[id]))
            && exists id :: id in tasks
  {
    hide ValidDefinition, GraphOk, SagaOk, TaskOk, FreshTasks, CanonicalTasks;
    var d := RunDefinition(c.definition.value);
    CanonicalValid(c.definition.value);
    CanonicalValid(Canonical(c.definition.value));
    FreshGraph(d);
    FreshTasksOk(d, c.workflow, version, timers);
  }

  lemma {:induction false} SubmitKeeps(c: Command, s': Workflow)
    requires Submits(c, s')
    ensures Inv(s')
  {
    hide ValidDefinition, GraphOk, SagaOk, TaskOk, FreshTasks, CanonicalTasks, ReadyAll;
    var first := Submitted(c);
    if first.status == WorkflowScheduled {
      SubmittedTasks(c, 2, s'.timers);
    } else {
      SubmittedTasks(c, 1, map[]);
      assert Unscanned(first);
      FreshOpen(first.tasks);
      hide Unscanned;
      AdvanceKeeps(first, c.at, s');
    }
  }

  lemma {:induction false} FreshOpen(tasks: map<Id, Task>)
    requires (forall id | id in tasks :: Fresh(tasks[id])) && exists id :: id in tasks
    ensures !AllCompleted(ReadyAll(tasks, map[]))
  {
    hide Eligible;
    var id :| id in tasks;
    assert Fresh(tasks[id]) && ReadyAll(tasks, map[])[id].status != TaskCompleted;
  }

  // ----------------------------------------------------------------------------------------------------
  // Completing a task, expanding its fan-out and finding what became ready keeps the invariant.
  // ----------------------------------------------------------------------------------------------------

  // ----- The completed task -----

  /** The state with the expansion of the completed task already recorded. */
  function Flagged(s1: Workflow, id: Id): Workflow
    requires id in s1.tasks
  {
    s1.(tasks := s1.tasks[id := s1.tasks[id].(fanoutExpanded := s1.tasks[id].definition.fanout.Some?)])
  }

  /** The task that completes, its expansion recorded. */
  function FlaggedTask(t: Task, c: Command, sequence: uint64): Task {
    CompletedTask(t, c, sequence).(fanoutExpanded := t.definition.fanout.Some?)
  }

  ghost predicate TaskCompletes(s: Workflow, c: Command, s1: Workflow) {
    hide Replaces;
    && Holds(s, c) && !s.tasks[c.task].compensation && s.version < MAX_UINT64 && c.at >= 0
    && Replaces(s, c.task, CompletedTask(s.tasks[c.task], c, s.version + 1), TimerCancelled, c.at, s1)
  }

  lemma {:induction false} CompletedTasksOk(s: Workflow, c: Command, s1: Workflow)
    requires hide StatusOk, TaskOk, TimersOk;
             Inv(s) && TaskCompletes(s, c, s1)
    ensures TasksOk(Flagged(s1, c.task))
  {
    hide GraphOk, SagaOk, StatusOk;
    var f := Flagged(s1, c.task);
    SettledTimers(s, c.task, TimerCancelled);
    hide TimersOk;
    forall x | x in f.tasks ensures TaskOk(f.id, f.version, x, f.tasks[x], f.timers) {
      assert TaskOk(s.id, s.version, x, s.tasks[x], s.timers);
      assert x != c.task ==> !TimerOf(s.id, c.task, TimerID(s.id, x, TimerTimeout, s.tasks[x].attempt));
      assert x != c.task ==> !TimerOf(s.id, c.task, TimerID(s.id, x, TimerRetry, s.tasks[x].attempt));
    }
  }

  lemma {:induction false} CompletedTimersOk(s: Workflow, c: Command, s1: Workflow)
    requires hide StatusOk, TasksOk, TimerOk;
             Inv(s) && TaskCompletes(s, c, s1)
    ensures TimersOk(Flagged(s1, c.task))
  {
    hide GraphOk, SagaOk, StatusOk;
    var f := Flagged(s1, c.task);
    assert TaskOk(s.id, s.version, c.task, s.tasks[c.task], s.timers);
    SettledTimers(s, c.task, TimerCancelled);
    hide TimeoutSettled;
    OtherTimersKept(s, f, c.task);
  }

  lemma {:induction false} CompletedSaga(s: Workflow, c: Command, s1: Workflow)
    requires hide StatusOk, TasksOk, TimersOk;
             Inv(s) && TaskCompletes(s, c, s1)
    ensures SagaOk(Flagged(s1, c.task).tasks)
  {
    hide GraphOk, TimersOk, TaskCompletes, Flagged;
    FlaggedShape(s, c, s1);
    var t := FlaggedTask(s.tasks[c.task], c, s.version + 1);
    forall x | x in s.tasks ensures s.tasks[x].completedSequence < t.completedSequence && !Undoing(s.tasks[x]) {
      assert TaskOk(s.id, s.version, x, s.tasks[x], s.timers);
      assert HeldBack(s.tasks, x);
    }
    hide StatusOk, TasksOk, Inv;
    LatestSaga(s.tasks, c.task, t);
  }

  lemma {:induction false} FlaggedShape(s: Workflow, c: Command, s1: Workflow)
    requires hide TaskCompletes;
             TaskCompletes(s, c, s1)
    ensures s.status == WorkflowRunning && c.task in s.tasks && c.task in s1.tasks && s.version < MAX_UINT64
    ensures Flagged(s1, c.task).tasks == s.tasks[c.task := FlaggedTask(s.tasks[c.task], c, s.version + 1)]
    ensures s1.tasks[c.task].definition == s.tasks[c.task].definition && !s.tasks[c.task].compensation
  {
    hide TimeoutSettled;
  }

  /** While nothing is being undone, a task may complete as the latest. */
  lemma {:induction false} LatestSaga(tasks: map<Id, Task>, id: Id, t: Task)
    requires SagaOk(tasks) && id in tasks && !Undoing(t)
             && forall x | x in tasks :: tasks[x].completedSequence < t.completedSequence && !Undoing(tasks[x])
    ensures SagaOk(tasks[id := t])
  {
    var after := tasks[id := t];
    assert forall x | x in after :: !Undoing(after[x]);
  }

  lemma {:induction false} CompletedReleased(s: Workflow, c: Command, s1: Workflow, x: Id)
    requires hide StatusOk, TasksOk, TimersOk;
             Inv(s) && TaskCompletes(s, c, s1) && x in s.tasks
    ensures Released(Flagged(s1, c.task).tasks, x)
  {
    hide GraphOk, SagaOk, TimersOk, TasksOk, TimeoutSettled;
    assert HeldBack(s.tasks, x);
    var f := Flagged(s1, c.task);
    assert forall d :: IsCompleted(s.tasks, d) ==> IsCompleted(f.tasks, d);
    assert f.tasks[x].definition == s.tasks[x].definition;
  }

  lemma {:induction false} CompletedUnscanned(s: Workflow, c: Command, s1: Workflow)
    requires hide StatusOk, TasksOk, TimersOk;
             Inv(s) && TaskCompletes(s, c, s1)
    ensures Unscanned(Flagged(s1, c.task))
  {
    hide TasksOk, TimersOk, SagaOk, GraphOk, StatusOk, Released, TimeoutSettled;
    var f := Flagged(s1, c.task);
    CompletedTasksOk(s, c, s1);
    CompletedTimersOk(s, c, s1);
    CompletedSaga(s, c, s1);
    forall x | x in f.tasks ensures Released(f.tasks, x) { CompletedReleased(s, c, s1, x); }
    assert f.tasks == s.tasks[c.task := FlaggedTask(s.tasks[c.task], c, s.version + 1)];
    SameGraphAt(s.tasks, c.task, FlaggedTask(s.tasks[c.task], c, s.version + 1));
  }

  // ----- Fan-out -----

  /** `t` is the child that the expansion makes under the identifier `x`. */
  ghost predicate ComesFrom(expanded: seq<ExpandedTask>, x: Id, t: Task) {
    exists i :: 0 <= i < |expanded| && expanded[i].definition.id == x && t == ChildTask(expanded[i])
  }

  lemma {:induction false} ComesFromLonger(expanded: seq<ExpandedTask>, x: Id, t: Task)
    requires expanded != []
    ensures ComesFrom(expanded[..|expanded| - 1], x, t) ==> ComesFrom(expanded, x, t)
    ensures x == expanded[|expanded| - 1].definition.id && t == ChildTask(expanded[|expanded| - 1])
            ==> ComesFrom(expanded, x, t)
  {
    var front := expanded[..|expanded| - 1];
    if ComesFrom(front, x, t) {
      var i :| 0 <= i < |front| && front[i].definition.id == x && t == ChildTask(front[i]);
      assert expanded[i].definition.id == x;
    }
  }

  lemma {:induction false} ChildrenAdded(tasks: map<Id, Task>, expanded: seq<ExpandedTask>)
    requires forall i | 0 <= i < |expanded| :: expanded[i].definition.id !in tasks
    ensures tasks.Keys <= WithChildren(tasks, expanded).Keys
    ensures forall x | x in tasks :: WithChildren(tasks, expanded)[x] == tasks[x]
    ensures forall i | 0 <= i < |expanded| :: expanded[i].definition.id in WithChildren(tasks, expanded)
    ensures forall x | x in WithChildren(tasks, expanded)
            && x !in tasks :: ComesFrom(expanded, x, WithChildren(tasks, expanded)[x])
  {
    hide ComesFrom, ChildTask;
    if expanded != [] {
      var front := expanded[..|expanded| - 1];
      assert forall i | 0 <= i < |front| :: front[i] == expanded[i];
      ChildrenAdded(tasks, front);
      var all := WithChildren(tasks, expanded);
      forall x | x in all && x !in tasks ensures ComesFrom(expanded, x, all[x]) {
        ComesFromLonger(expanded, x, all[x]);
      }
    }
  }

  /** A child made by the expansion of `parent`. */
  predicate Child(w: Id, parent: TaskDefinition, fanout: FanoutDefinition, x: Id, t: Task) {
    && t.status == TaskPending && t == Task(t.definition, TaskPending, payload := t.payload)
    && t.definition.id == x && x.Digest?
    && t.definition.dependencies == [parent.id] && t.definition.retry == fanout.retry
        && t.definition.timeout == fanout.timeout
    && t.definition.fanout.None?
  }

  /** The aggregate task waits for the fan-out parent and has not been tried. */
  predicate AggregateOpen(tasks: map<Id, Task>, id: Id, aggregate: Id) {
    && aggregate in tasks && aggregate != id
    && tasks[aggregate].status == TaskPending && tasks[aggregate].retryCount == 0
    && id in tasks[aggregate].definition.dependencies
  }

  /** The aggregate gains exactly the new tasks as dependencies. */
  ghost predicate AggregateGrows(tasks: map<Id, Task>, aggregate: Id, tasks2: map<Id, Task>)
    requires aggregate in tasks && aggregate in tasks2
  {
    var given, grown := tasks[aggregate].definition.dependencies, tasks2[aggregate].definition.dependencies;
    && tasks2[aggregate] == tasks[aggregate].(definition := tasks[aggregate].definition.(dependencies := grown))
    && (forall d | d in given :: d in grown)
    && (forall d | d in grown :: d in given || (d in tasks2 && d !in tasks))
    && (forall d | d in tasks2 && d !in tasks :: d in grown)
  }

  ghost predicate OthersKept(tasks: map<Id, Task>, aggregate: Id, tasks2: map<Id, Task>) {
    && tasks.Keys <= tasks2.Keys
    && forall x | x in tasks && x != aggregate :: tasks2[x] == tasks[x].(children := tasks2[x].children)
  }

  ghost predicate NewChildren(w: Id, tasks: map<Id, Task>, id: Id, fanout: FanoutDefinition, tasks2: map<Id, Task>)
    requires id in tasks
  {
    forall x | x in tasks2 && x !in tasks :: Child(w, tasks[id].definition, fanout, x, tasks2[x])
  }

  /** `tasks2` is `tasks` with the children of `id` added, the aggregate waiting for them and
      otherwise unchanged. */
  ghost predicate Expansion(w: Id, tasks: map<Id, Task>, id: Id, tasks2: map<Id, Task>) {
    && id in tasks && tasks[id].definition.fanout.Some?
    && var fanout := tasks[id].definition.fanout.value;
       && AggregateOpen(tasks, id, fanout.aggregate)
       && OthersKept(tasks, fanout.aggregate, tasks2)
       && AggregateGrows(tasks, fanout.aggregate, tasks2)
       && NewChildren(w, tasks, id, fanout, tasks2)
  }

  lemma {:induction false} ChildrenMembers(expanded: seq<ExpandedTask>, d: Id)
    ensures d in Children(expanded) <==> exists i :: 0 <= i < |expanded| && expanded[i].definition.id == d
  {
    if d in Children(expanded) {
      var i :| 0 <= i < |Children(expanded)| && Children(expanded)[i] == d;
      assert expanded[i].definition.id == d;
    }
    if i :| 0 <= i < |expanded| && expanded[i].definition.id == d {
      assert Children(expanded)[i] == d;
    }
  }

  lemma {:induction false} AggregateDependencies(given: seq<Id>, expanded: seq<ExpandedTask>, d: Id)
    ensures hide SortIds;
            d in SortIds(given + Children(expanded)) <==>
            d in given || exists i :: 0 <= i < |expanded| && expanded[i].definition.id == d
  {
    SortIdsMembers(given + Children(expanded));
    ChildrenMembers(expanded, d);
    hide SortIds;
  }

  lemma {:induction false} AggregateGrown(tasks: map<Id, Task>, id: Id, fanout: FanoutDefinition,
                                          expanded: seq<ExpandedTask>)
    requires id in tasks && AggregateOpen(tasks, id, fanout.aggregate)
    requires forall i | 0 <= i < |expanded| :: expanded[i].definition.id !in tasks
    requires fanout.aggregate in WithChildren(tasks, expanded)
    ensures AggregateGrows(tasks, fanout.aggregate, ExpandedTasks(tasks, id, fanout, expanded))
  {
    ChildrenAdded(tasks, expanded);
    var tasks2 := ExpandedTasks(tasks, id, fanout, expanded);
    var given := tasks[fanout.aggregate].definition.dependencies;
    var grown := tasks2[fanout.aggregate].definition.dependencies;
    assert grown == SortIds(given + Children(expanded));
    assert tasks2[fanout.aggregate]
        == tasks[fanout.aggregate].(definition := tasks[fanout.aggregate].definition.(dependencies := grown));
    assert forall d :: d in tasks2 <==> d in WithChildren(tasks, expanded);
    hide SortIds, WithChildren, ExpandedTasks, Children;
    forall d
      ensures d in given ==> d in grown
      ensures d in grown ==> d in given || (d in tasks2 && d !in tasks)
      ensures d in tasks2 && d !in tasks ==> d in grown
    {
      AggregateDependencies(given, expanded, d);
    }
  }

  lemma {:induction false} CanonicalChild(w: Id, tasks: map<Id, Task>, id: Id, fanout: FanoutDefinition,
                                          expanded: seq<ExpandedTask>, x: Id, t: Task)
    requires hide CanonicalExpansion;
             id in tasks && CanonicalExpansion(w, tasks, tasks[id].definition, fanout, expanded)
             && ComesFrom(expanded, x, t)
    ensures Child(w, tasks[id].definition, fanout, x, t)
  {
  }

  lemma {:induction false} ChildrenShaped(w: Id, tasks: map<Id, Task>, id: Id, fanout: FanoutDefinition,
                                          expanded: seq<ExpandedTask>)
    requires hide CanonicalExpansion, ExpandedTasks;
             id in tasks && AggregateOpen(tasks, id, fanout.aggregate)
    requires CanonicalExpansion(w, tasks, tasks[id].definition, fanout, expanded)
    requires fanout.aggregate in WithChildren(tasks, expanded)
    ensures NewChildren(w, tasks, id, fanout, ExpandedTasks(tasks, id, fanout, expanded))
  {
    ChildrenAdded(tasks, expanded);
    var all, tasks2 := WithChildren(tasks, expanded), ExpandedTasks(tasks, id, fanout, expanded);
    hide SortIds, WithChildren, Child, CanonicalExpansion, ComesFrom;
    forall x | x in tasks2 && x !in tasks ensures Child(w, tasks[id].definition, fanout, x, tasks2[x]) {
      assert x in all && tasks2[x] == all[x];
      CanonicalChild(w, tasks, id, fanout, expanded, x, all[x]);
    }
  }

  lemma {:induction false} OthersUntouched(tasks: map<Id, Task>, id: Id, fanout: FanoutDefinition,
                                           expanded: seq<ExpandedTask>)
    requires hide ExpandedTasks;
             id in tasks && AggregateOpen(tasks, id, fanout.aggregate)
    requires forall i | 0 <= i < |expanded| :: expanded[i].definition.id !in tasks
    requires fanout.aggregate in WithChildren(tasks, expanded)
    ensures OthersKept(tasks[id := tasks[id].(fanoutExpanded := true)], fanout.aggregate,
            ExpandedTasks(tasks, id, fanout, expanded))
  {
    ChildrenAdded(tasks, expanded);
    hide SortIds, WithChildren, ComesFrom, Children;
    var tasks2 := ExpandedTasks(tasks, id, fanout, expanded);
    var all := WithChildren(tasks, expanded);
    forall x | x in tasks && x != fanout.aggregate
      ensures x in tasks2
              && tasks2[x] == tasks[id := tasks[id].(fanoutExpanded := true)][x].(children := tasks2[x].children)
    {
      assert x in all && all[x] == tasks[x];
      assert x in tasks2 && (x != id ==> tasks2[x] == all[x]);
    }
    hide ExpandedTasks, AggregateOpen;
  }

  lemma {:induction false} ExpansionShape(w: Id, tasks: map<Id, Task>, id: Id, fanout: FanoutDefinition,
                                          expanded: seq<ExpandedTask>)
    requires hide CanonicalExpansion, ExpandedTasks, Expansion;
             id in tasks && tasks[id].definition.fanout == Some(fanout) && AggregateOpen(tasks, id, fanout.aggregate)
    requires CanonicalExpansion(w, tasks, tasks[id].definition, fanout, expanded)
    requires fanout.aggregate in WithChildren(tasks, expanded)
    ensures Expansion(w, tasks[id := tasks[id].(fanoutExpanded := true)], id,
            ExpandedTasks(tasks, id, fanout, expanded))
  {
    hide ExpandedTasks, OthersKept, Child, WithChildren;
    forall i | 0 <= i < |expanded| ensures expanded[i].definition.id !in tasks {}
    hide CanonicalExpansion;
    AggregateGrown(tasks, id, fanout, expanded);
    ChildrenShaped(w, tasks, id, fanout, expanded);
    OthersUntouched(tasks, id, fanout, expanded);
  }

  lemma {:induction false} ExpandedTasksOk(s1: Workflow, id: Id, s2: Workflow)
    requires TasksOk(s1) && id in s1.tasks && s2.id == s1.id && s2.version >= s1.version && s2.timers == s1.timers
    requires Expansion(s1.id, s1.tasks, id, s2.tasks)
    ensures TasksOk(s2)
  {
    hide TaskOk, Expansion;
    forall x | x in s2.tasks ensures TaskOk(s2.id, s2.version, x, s2.tasks[x], s2.timers) {
      assert TaskOk(s1.id, s1.version, id, s1.tasks[id], s1.timers);
      if x in s1.tasks {
        assert TaskOk(s1.id, s1.version, x, s1.tasks[x], s1.timers);
        KeptTaskOk(s1, id, s2, x);
      } else {
        ChildTaskOk(s1, id, s2, x);
      }
    }
  }

  lemma {:induction false} KeptTaskOk(s1: Workflow, id: Id, s2: Workflow, x: Id)
    requires hide Expansion, TaskOk;
             id in s1.tasks && s2.id == s1.id && s2.version >= s1.version && s2.timers == s1.timers
             && Expansion(s1.id, s1.tasks, id, s2.tasks)
    requires x in s1.tasks && x in s2.tasks && TaskOk(s1.id, s1.version, x, s1.tasks[x], s1.timers)
    ensures TaskOk(s2.id, s2.version, x, s2.tasks[x], s2.timers)
  {
    hide NewChildren;
  }

  lemma {:induction false} ChildTaskOk(s1: Workflow, id: Id, s2: Workflow, x: Id)
    requires hide Expansion, TaskOk;
             id in s1.tasks && s2.id == s1.id && s2.version >= s1.version && s2.timers == s1.timers
             && Expansion(s1.id, s1.tasks, id, s2.tasks) && TaskOk(s1.id, s1.version, id, s1.tasks[id], s1.timers)
    requires x !in s1.tasks && x in s2.tasks
    ensures TaskOk(s2.id, s2.version, x, s2.tasks[x], s2.timers)
  {
    hide OthersKept, AggregateGrows, AggregateOpen;
    assert Child(s1.id, s1.tasks[id].definition, s1.tasks[id].definition.fanout.value, x, s2.tasks[x]);
  }

  lemma {:induction false} ExpandedTimersOk(s1: Workflow, id: Id, s2: Workflow)
    requires TimersOk(s1) && id in s1.tasks && s2.id == s1.id && s2.timers == s1.timers && s2.status == s1.status
    requires Expansion(s1.id, s1.tasks, id, s2.tasks)
    ensures TimersOk(s2)
  {
    forall k | k in s2.timers ensures s2.timers[k].id == k && TimerOk(s2.id, s2.status, s2.timers[k], s2.tasks) {
      assert TimerOk(s1.id, s1.status, s1.timers[k], s1.tasks);
    }
  }

  lemma {:induction false} ExpandedReleased(w: Id, tasks: map<Id, Task>, id: Id, tasks2: map<Id, Task>, x: Id)
    requires hide Expansion, Released;
             Expansion(w, tasks, id, tasks2) && x in tasks2
    requires forall y | y in tasks :: Released(tasks, y)
    ensures Released(tasks2, x)
  {
    if x in tasks {
      assert Released(tasks, x);
      assert forall d :: IsCompleted(tasks, d) ==> IsCompleted(tasks2, d);
    } else {
      assert Child(w, tasks[id].definition, tasks[id].definition.fanout.value, x, tasks2[x]);
    }
  }

  lemma {:induction false} ExpandedSaga(w: Id, tasks: map<Id, Task>, id: Id, tasks2: map<Id, Task>)
    requires Expansion(w, tasks, id, tasks2) && SagaOk(tasks)
    ensures SagaOk(tasks2)
  {
    forall x | x in tasks2
      ensures x in tasks ==>
                tasks2[x].completedSequence == tasks[x].completedSequence
                && (Undoing(tasks2[x]) ==> Undoing(tasks[x]))
      ensures x !in tasks ==> tasks2[x].completedSequence == 0 && !Undoing(tasks2[x]) && tasks2[x].status == TaskPending
      ensures Compensable(tasks2, x) ==> Compensable(tasks, x)
    {
      if x !in tasks { assert Child(w, tasks[id].definition, tasks[id].definition.fanout.value, x, tasks2[x]); }
    }
  }

  /** Doubling the ranks makes room for the children between parent and aggregate. */
  function Respaced(rank: map<Id, nat>, tasks2: map<Id, Task>, tasks: map<Id, Task>, id: Id): map<Id, nat>
    requires tasks.Keys <= rank.Keys && id in tasks
  {
    map x | x in tasks2.Keys + rank.Keys :: if x in rank && (x in tasks || x !in tasks2) then 2 * rank[x]
        else 2 * rank[id] + 1
  }

  lemma {:induction false} ExpandedRanking(w: Id, tasks: map<Id, Task>, id: Id, tasks2: map<Id, Task>)
    requires Expansion(w, tasks, id, tasks2) && GraphOk(tasks) && tasks[id].definition.id == id
    ensures Acyclic(DependencyGraph(tasks2))
  {
    var graph, graph2 := DependencyGraph(tasks), DependencyGraph(tasks2);
    var rank :| Ranks(graph, rank);
    var aggregate := tasks[id].definition.fanout.value.aggregate;
    assert id in graph[aggregate] && rank[id] < rank[aggregate];
    var rank2 := Respaced(rank, tasks2, tasks, id);
    forall x, d | x in graph2 && d in graph2[x] ensures d in rank2 && rank2[d] < rank2[x] {
      if x !in tasks {
        assert Child(w, tasks[id].definition, tasks[id].definition.fanout.value, x, tasks2[x]);
      } else if x != aggregate || d in tasks[aggregate].definition.dependencies {
        assert d in graph[x] && d in tasks;
      }
    }
    assert Ranks(graph2, rank2);
  }

  lemma {:induction false} ExpandedGraph(w: Id, tasks: map<Id, Task>, id: Id, tasks2: map<Id, Task>)
    requires Expansion(w, tasks, id, tasks2) && GraphOk(tasks) && tasks[id].definition.id == id
    ensures GraphOk(tasks2)
  {
    ExpandedRanking(w, tasks, id, tasks2);
    hide Acyclic;
    forall x, d | x in tasks2 && d in tasks2[x].definition.dependencies ensures d in tasks2 {
      if x !in tasks { assert Child(w, tasks[id].definition, tasks[id].definition.fanout.value, x, tasks2[x]); }
    }
    forall x | x in tasks2 ensures FanoutEdge(tasks2, x) {
      if x in tasks {
        assert FanoutEdge(tasks, x);
      } else {
        assert Child(w, tasks[id].definition, tasks[id].definition.fanout.value, x, tasks2[x]);
      }
    }
  }

  lemma {:induction false} ExpansionUnscanned(s1: Workflow, id: Id, s2: Workflow)
    requires Unscanned(s1) && id in s1.tasks && Expansion(s1.id, s1.tasks, id, s2.tasks)
    requires s2 == s1.(tasks := s2.tasks, version := s2.version, updatedAt := s2.updatedAt)
    requires s2.version >= s1.version && s2.updatedAt >= 0
    ensures Unscanned(s2)
  {
    ExpandedTasksOk(s1, id, s2);
    ExpandedTimersOk(s1, id, s2);
    forall x | x in s2.tasks ensures Released(s2.tasks, x) { ExpandedReleased(s1.id, s1.tasks, id, s2.tasks, x); }
    ExpandedSaga(s1.id, s1.tasks, id, s2.tasks);
    assert TaskOk(s1.id, s1.version, id, s1.tasks[id], s1.timers);
    ExpandedGraph(s1.id, s1.tasks, id, s2.tasks);
    hide TasksOk, TimersOk, GraphOk, SagaOk, Released, Expansion;
  }

  /** The aggregate of a task that is still running waits for it. */
  lemma {:induction false} AggregateWaits(s: Workflow, id: Id)
    requires hide Inv;
             Inv(s) && s.status == WorkflowRunning && id in s.tasks && s.tasks[id].status != TaskCompleted
    requires s.tasks[id].definition.fanout.Some?
    ensures var aggregate := s.tasks[id].definition.fanout.value.aggregate;
            AggregateOpen(s.tasks, id, aggregate)
  {
    hide SagaOk, TimersOk, TasksOk;
    assert FanoutEdge(s.tasks, id);
    var aggregate := s.tasks[id].definition.fanout.value.aggregate;
    assert HeldBack(s.tasks, aggregate);
    assert !IsCompleted(s.tasks, id);
  }

  lemma {:induction false} CompletesUnscanned(s: Workflow, c: Command, s1: Workflow, s2: Workflow)
    requires Inv(s) && TaskCompletes(s, c, s1) && Expands(s1, c.task, c.at, s2)
    ensures Unscanned(s2)
  {
    hide Inv, Unscanned, Expands;
    CompletedUnscanned(s, c, s1);
    FlaggedShape(s, c, s1);
    if s1.tasks[c.task].definition.fanout.Some? {
      assert s.tasks[c.task].status != TaskCompleted && s1.updatedAt >= 0;
      AggregateWaits(s, c.task);
      StaysOpen(s, c, s1, s1.tasks[c.task].definition.fanout.value.aggregate);
      hide TaskCompletes, Flagged;
      FanoutUnscanned(s1, c.task, c.at, s2);
    } else {
      NotFlagged(s, c, s1);
      hide TaskCompletes, Flagged;
      NothingExpands(s1, c.task, c.at, s2);
    }
  }

  lemma {:induction false} NothingExpands(s1: Workflow, id: Id, at: int64, s2: Workflow)
    requires hide ExpandedTasks;
             Expands(s1, id, at, s2) && s1.tasks[id].definition.fanout.None?
    ensures s2 == s1
  {
  }

  lemma {:induction false} StaysOpen(s: Workflow, c: Command, s1: Workflow, aggregate: Id)
    requires TaskCompletes(s, c, s1) && AggregateOpen(s.tasks, c.task, aggregate)
    ensures AggregateOpen(s1.tasks, c.task, aggregate)
  {
    hide TimeoutSettled;
  }

  lemma {:induction false} FanoutUnscanned(s1: Workflow, id: Id, at: int64, s2: Workflow)
    requires hide ExpandedTasks, TasksOk, TimersOk;
             Expands(s1, id, at, s2) && s1.tasks[id].definition.fanout.Some? && at >= 0 && s1.updatedAt >= 0
    requires AggregateOpen(s1.tasks, id, s1.tasks[id].definition.fanout.value.aggregate) && Unscanned(Flagged(s1, id))
    ensures Unscanned(s2)
  {
    hide CanonicalExpansion, WithChildren, ExpandedTasks, Expansion, Unscanned, AggregateOpen;
    var fanout := s1.tasks[id].definition.fanout.value;
    var expanded :|
      && CanonicalExpansion(s1.id, s1.tasks, s1.tasks[id].definition, fanout, expanded)
      && |expanded| <= fanout.maxItems && fanout.aggregate in WithChildren(s1.tasks, expanded)
      && s2 == s1.(tasks := ExpandedTasks(s1.tasks, id, fanout, expanded), version := s2.version,
          updatedAt := s2.updatedAt);
    ExpansionShape(s1.id, s1.tasks, id, fanout, expanded);
    ExpansionUnscanned(Flagged(s1, id), id, s2);
  }

  lemma {:induction false} NotFlagged(s: Workflow, c: Command, s1: Workflow)
    requires hide StatusOk, TasksOk, TimersOk;
             Inv(s) && TaskCompletes(s, c, s1) && s1.tasks[c.task].definition.fanout.None?
    ensures Flagged(s1, c.task) == s1
  {
    hide TimersOk, GraphOk, SagaOk, StatusOk, TimeoutSettled;
    assert TaskOk(s.id, s.version, c.task, s.tasks[c.task], s.timers);
    assert s1.tasks[c.task].fanoutExpanded == false;
  }

  lemma {:induction false} CompleteKeeps(s: Workflow, c: Command, s': Workflow)
    requires Inv(s) && c.at >= 0 && Completes(s, c, s')
    ensures Inv(s')
  {
    hide Inv, Replaces, Expands, Advances, Unscanned;
    var s1, s2 :|
      && Replaces(s, c.task, CompletedTask(s.tasks[c.task], c, s.version + 1), TimerCancelled, c.at, s1)
      && Expands(s1, c.task, c.at, s2)
      && Advances(s2, c.at, s');
    CompletesUnscanned(s, c, s1, s2);
    AdvanceKeeps(s2, c.at, s');
  }
}
