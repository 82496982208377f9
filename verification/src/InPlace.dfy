/** Transitions, plans and decisions of internal/core/reducer.go and internal/core/workflow_transitions.go as they
    run, on mutable state objects. Each is proved against the function of module Reducer that says what it must do. */
module InPlace {
  import opened Base
  import opened Model
  import opened IdOrder
  import opened Backoff
  import opened Definition
  import opened Reducer
  import opened Lawfulness
  import opened Validate

  /** The outcome `r` and the state `after` are what `expected` asks for; a refusal promises nothing about
      the state. */
  ghost predicate Meets(r: Result<()>, after: Workflow, expected: Result<Workflow>) {
    match expected
    case Ok(w) => r.Ok? && after == w
    case Err(error) => r == Err(error)
  }

  class State {
    const id: Id
    const name: string
    const namespace: string
    var status: WorkflowStatus
    var version: uint64
    var updatedAt: int64
    var tasks: map<Id, Task>
    var timers: map<Id, Timer>

    constructor (w: Workflow)
      ensures Value() == w
    {
      id, name, namespace := w.id, w.name, w.namespace;
      status, version, updatedAt, tasks, timers := w.status, w.version, w.updatedAt, w.tasks, w.timers;
    }

    function Value(): Workflow
      reads this
    {
      Workflow(id, name, namespace, status, version, updatedAt, tasks, timers)
    }

    /** cloneStateForUpdate and cloneState. */
    method Clone() returns (copy: State)
      ensures fresh(copy) && copy.Value() == Value()
    {
      copy := new State(Value());
    }

    /** scheduledTimer: whichever match comes first. */
    method FindTimeout(task: Id, attemptId: Id) returns (r: Option<Timer>)
      requires Lawful(Value()) && attemptId != NO_ID
      ensures r == ScheduledTimer(timers, TimerTimeout, task, attemptId)
    {
      if k :| k in timers && TimerMatches(timers[k], TimerTimeout, task, attemptId) {
        AnyTimeoutIsTheOne(Value(), task, attemptId, k);
        return Some(timers[k]);
      }
      return None;
    }

    /** nextCompensation keeps the best candidate so far. */
    method FindCompensation() returns (r: Option<Id>)
      requires Lawful(Value())
      ensures r == NextCompensation(tasks)
    {
      var selected := NO_ID;
      var left := tasks.Keys;
      assert NO_ID in tasks ==> LawfulTask(id, NO_ID, tasks[NO_ID]);
      while left != {}
        invariant left <= tasks.Keys
        invariant selected == NO_ID ==> forall x | Compensable(tasks, x) :: x in left
        invariant selected != NO_ID ==> Compensable(tasks, selected) && selected !in left
        invariant selected != NO_ID ==> forall x | Compensable(tasks, x) && x !in left
                  && x != selected :: CompensatesBefore(tasks, selected, x)
        decreases |left|
      {
        var x :| x in left;
        left := left - {x};
        if Compensable(tasks, x) {
          if selected == NO_ID {
            selected := x;
          } else {
            Trichotomy(selected, x);
            if CompensatesBefore(tasks, x, selected) {
              forall y | Compensable(tasks, y) && y !in left && y != x ensures CompensatesBefore(tasks, x, y) {
                if y != selected
                    && tasks[x].completedSequence == tasks[selected].completedSequence == tasks[y].completedSequence {
                  Transitive(y, selected, x);
                }
              }
              selected := x;
            }
          }
        }
      }
      if selected == NO_ID { return None; }
      assert ChosenCompensation(tasks, selected);
      ChosenUnique(tasks, selected, NextCompensation(tasks).value);
      return Some(selected);
    }

    method ApplyReady(e: Event) returns (r: Result<()>)
      modifies this`tasks
      ensures hide Reducer.ApplyReady;
              Meets(r, Value(), Reducer.ApplyReady(old(Value()), e))
    {
      if e.task !in tasks || tasks[e.task].status != TaskPending { return Err(ErrInvalidTransition); }
      var task := tasks[e.task];
      if task.compensation {
        if status != WorkflowCompensating { return Err(ErrInvalidTransition); }
      } else {
        if status != WorkflowRunning { return Err(ErrInvalidTransition); }
        if !DependenciesCompleted(tasks, task) { return Err(ErrInvalidTransition); }
      }
      if Waiting(timers, e.task) { return Err(ErrInvalidTransition); }
      task := task.(status := if task.compensation then TaskCompensating else TaskReady);
      tasks := tasks[e.task := task];
      return Ok(());
    }

    method ApplyStarted(e: Event) returns (r: Result<()>)
      modifies this`tasks
      ensures hide Reducer.ApplyStarted;
              Meets(r, Value(), Reducer.ApplyStarted(old(Value()), e))
    {
      if e.task !in tasks { return Err(ErrInvalidTransition); }
      var task := tasks[e.task];
      var forward := status == WorkflowRunning && task.status == TaskReady && !task.compensation && !e.compensation;
      var compensation :=
        && status == WorkflowCompensating && task.status == TaskCompensating && task.worker == ""
        && task.compensation && e.compensation;
      var idempotency := IdempotencyKey(id, e.task);
      if compensation { idempotency := CompensationIdempotencyKey(id, e.task); }
      if (!forward && !compensation) || task.attempt == MAX_UINT32 || task.fence == MAX_UINT64
         || e.attempt != Next32(task.attempt) || e.attemptId != AttemptID(id, e.task, e.attempt)
         || BlankText(e.worker) || e.leaseUntil <= e.at || e.fence != Next64(task.fence)
             || e.idempotency != idempotency {
        return Err(ErrInvalidTransition);
      }
      if task.definition.timeout > 0 && (e.at > MAX_INT64 - task.definition.timeout
          || e.leaseUntil > e.at + task.definition.timeout) {
        return Err(ErrInvalidTransition);
      }
      if forward { task := task.(status := TaskRunning); }
      task := task.(attempt := e.attempt, attemptId := e.attemptId, inputs := e.inputs, startedAt := e.at,
                    worker := e.worker, leaseUntil := e.leaseUntil, fence := e.fence, idempotency := e.idempotency,
                        error := "");
      tasks := tasks[e.task := task];
      return Ok(());
    }

    method ApplyCompleted(e: Event) returns (r: Result<()>)
      requires hide Lawful, Reducer.ApplyCompleted;
               Lawful(Value())
      modifies this`tasks
      ensures Meets(r, Value(), Reducer.ApplyCompleted(old(Value()), e))
    {
      if status != WorkflowRunning || e.task !in tasks { return Err(ErrInvalidTransition); }
      var task := tasks[e.task];
      if task.status != TaskRunning || e.compensation || task.compensation || !SameAttempt(task, e)
          || e.at >= task.leaseUntil {
        return Err(ErrInvalidTransition);
      }
      assert LawfulTask(id, e.task, task);
      hide ScheduledTimer;
      var timer := FindTimeout(e.task, e.attemptId);
      if timer.Some? && e.at >= timer.value.deadline { return Err(ErrInvalidTransition); }
      task := task.(status := TaskCompleted, output := e.output, finishedAt := e.at, completedSequence := e.sequence);
      tasks := tasks[e.task := task];
      return Ok(());
    }

    /** The guard that applyFailed, applyRenewed and applyExpired share. */
    predicate HeldBy(e: Event)
      requires e.task in tasks
      reads this
    {
      var task := tasks[e.task];
      var forward := status == WorkflowRunning && task.status == TaskRunning && !task.compensation && !e.compensation;
      var compensation :=
        && status == WorkflowCompensating && task.status == TaskCompensating && task.worker != ""
        && task.compensation && e.compensation;
      (forward || compensation) && SameAttempt(task, e)
    }

    method ApplyFailed(e: Event) returns (r: Result<()>)
      requires hide Lawful, Reducer.ApplyFailed;
               Lawful(Value())
      modifies this`tasks
      ensures Meets(r, Value(), Reducer.ApplyFailed(old(Value()), e))
    {
      if e.task !in tasks || !HeldBy(e) { return Err(ErrInvalidTransition); }
      var task := tasks[e.task];
      if e.at >= task.leaseUntil { return Err(ErrInvalidTransition); }
      assert LawfulTask(id, e.task, task);
      hide ScheduledTimer;
      var timer := FindTimeout(e.task, e.attemptId);
      if timer.Some? && e.at >= timer.value.deadline { return Err(ErrInvalidTransition); }
      task := task.(status := TaskFailed, error := e.error, finishedAt := e.at, compensation := e.compensation);
      tasks := tasks[e.task := task];
      return Ok(());
    }

    method ApplyRenewed(e: Event) returns (r: Result<()>)
      requires hide Lawful, Reducer.ApplyRenewed;
               Lawful(Value())
      modifies this`tasks
      ensures Meets(r, Value(), Reducer.ApplyRenewed(old(Value()), e))
    {
      if e.task !in tasks || !HeldBy(e) { return Err(ErrInvalidTransition); }
      var task := tasks[e.task];
      if e.at >= task.leaseUntil || e.leaseUntil <= task.leaseUntil { return Err(ErrInvalidTransition); }
      assert LawfulTask(id, e.task, task);
      hide ScheduledTimer;
      var timer := FindTimeout(e.task, e.attemptId);
      if timer.Some? && e.leaseUntil > timer.value.deadline { return Err(ErrInvalidTransition); }
      task := task.(leaseUntil := e.leaseUntil);
      tasks := tasks[e.task := task];
      return Ok(());
    }

    method ApplyExpired(e: Event) returns (r: Result<()>)
      requires hide Lawful, Reducer.ApplyExpired;
               Lawful(Value())
      modifies this`tasks
      ensures Meets(r, Value(), Reducer.ApplyExpired(old(Value()), e))
    {
      if e.task !in tasks || !HeldBy(e) { return Err(ErrInvalidTransition); }
      var task := tasks[e.task];
      if e.leaseUntil != task.leaseUntil || e.at < task.leaseUntil { return Err(ErrInvalidTransition); }
      assert LawfulTask(id, e.task, task);
      hide ScheduledTimer;
      var timer := FindTimeout(e.task, e.attemptId);
      if timer.Some? && timer.value.deadline <= task.leaseUntil { return Err(ErrInvalidTransition); }
      if task.status == TaskCompensating {
        task := task.(status := TaskCompensating);
      } else {
        task := task.(status := TaskReady);
      }
      task := task.(attemptId := NO_ID, inputs := map[], startedAt := 0, worker := "", leaseUntil := 0);
      tasks := tasks[e.task := task];
      return Ok(());
    }

    method ApplyWorkflowCompleted() returns (r: Result<()>)
      modifies this`status
      ensures Meets(r, Value(), Reducer.ApplyWorkflowCompleted(old(Value())))
    {
      if status != WorkflowRunning || !AllCompleted(tasks)
          || HasScheduledTimers(timers) { return Err(ErrInvalidTransition); }
      status := WorkflowCompleted;
      return Ok(());
    }

    method ApplyWorkflowFailed(e: Event) returns (r: Result<()>)
      modifies this`status
      ensures hide Reducer.ApplyWorkflowFailed;
              Meets(r, Value(), Reducer.ApplyWorkflowFailed(old(Value()), e))
    {
      if status != WorkflowRunning && status != WorkflowCompensating { return Err(ErrInvalidTransition); }
      if e.task !in tasks || tasks[e.task].status != TaskFailed { return Err(ErrInvalidTransition); }
      if HasActive(tasks) || HasScheduledTimers(timers) { return Err(ErrInvalidTransition); }
      status := WorkflowFailed;
      return Ok(());
    }

    method ApplyWorkflowStarted(e: Event) returns (r: Result<()>)
      modifies this`status
      ensures Meets(r, Value(), Reducer.ApplyWorkflowStarted(old(Value()), e))
    {
      if status != WorkflowScheduled || e.timer.None? || e.timer.value.purpose != TimerWorkflowStart {
        return Err(ErrInvalidTransition);
      }
      if e.timer.value.id !in timers
          || timers[e.timer.value.id].status != TimerFired { return Err(ErrInvalidTransition); }
      status := WorkflowRunning;
      return Ok(());
    }

    method ApplyTimerScheduled(e: Event) returns (r: Result<()>)
      modifies this`timers
      ensures hide Reducer.ApplyTimerScheduled;
              Meets(r, Value(), Reducer.ApplyTimerScheduled(old(Value()), e))
    {
      if e.timer.None? || e.timer.value.status != TimerScheduled || e.timer.value.id == NO_ID
         || e.timer.value.deadline < e.at || !TimerEventMatches(e, e.timer.value) {
        return Err(ErrInvalidTransition);
      }
      var timer := e.timer.value;
      if timer.id in timers { return Err(ErrInvalidTransition); }
      match timer.purpose {
        case TimerWorkflowStart =>
          if status != WorkflowScheduled || timer.task != NO_ID
              || timer.id != TimerID(id, NO_ID, TimerWorkflowStart, 0) {
            return Err(ErrInvalidTransition);
          }
        case TimerRetry =>
          if timer.task !in tasks { return Err(ErrInvalidTransition); }
          var task := tasks[timer.task];
          var delay := ComputeRetryDelay(task.definition.retry, task.retryCount);
          if task.status != TaskFailed || AddsPast(task.finishedAt, delay) || timer.deadline != task.finishedAt + delay
             || timer.id != TimerID(id, timer.task, TimerRetry, task.attempt) || timer.attemptId != task.attemptId
             || timer.attempt != task.attempt || timer.fence != task.fence {
            return Err(ErrInvalidTransition);
          }
        case TimerTimeout =>
          if timer.task !in tasks { return Err(ErrInvalidTransition); }
          var task := tasks[timer.task];
          var timeout := task.definition.timeout;
          if !Leased(task) || timeout <= 0 || task.startedAt > MAX_INT64 - timeout
              || timer.deadline != task.startedAt + timeout
             || task.leaseUntil > timer.deadline || timer.id != TimerID(id, timer.task, TimerTimeout, task.attempt)
             || timer.attemptId != task.attemptId || timer.attempt != task.attempt || timer.fence != task.fence {
            return Err(ErrInvalidTransition);
          }
        case TimerUnknown => return Err(ErrInvalidTransition);
      }
      timers := timers[timer.id := timer];
      return Ok(());
    }

    method ApplyTimerTransition(e: Event, next: TimerStatus) returns (r: Result<()>)
      modifies this`timers
      ensures hide Reducer.ApplyTimerTransition;
              Meets(r, Value(), Reducer.ApplyTimerTransition(old(Value()), e, next))
    {
      if e.timer.None? || e.timer.value.status != next
          || !TimerEventMatches(e, e.timer.value) { return Err(ErrInvalidTransition); }
      if e.timer.value.id !in timers
          || timers[e.timer.value.id].status != TimerScheduled { return Err(ErrInvalidTransition); }
      var current := timers[e.timer.value.id];
      var expected := current.(status := next);
      if expected != e.timer.value { return Err(ErrInvalidTransition); }
      if next == TimerFired && e.at < current.deadline { return Err(ErrInvalidTransition); }
      timers := timers[current.id := expected];
      return Ok(());
    }

    method ApplyTaskRetryScheduled(e: Event) returns (r: Result<()>)
      modifies this`tasks
      ensures hide Reducer.ApplyTaskRetryScheduled;
              Meets(r, Value(), Reducer.ApplyTaskRetryScheduled(old(Value()), e))
    {
      if e.task !in tasks { return Err(ErrInvalidTransition); }
      var task := tasks[e.task];
      if task.status != TaskFailed || task.compensation != e.compensation
          || e.timer.None? { return Err(ErrInvalidTransition); }
      if e.timer.value.id !in timers { return Err(ErrInvalidTransition); }
      var timer := timers[e.timer.value.id];
      if timer.status != TimerScheduled || timer.purpose != TimerRetry || timer.task != e.task
          || e.attemptId != timer.attemptId
         || e.attempt != timer.attempt || e.fence != timer.fence
             || Next32(task.retryCount) >= task.definition.retry.maxAttempts {
        return Err(ErrInvalidTransition);
      }
      task := task.(status := TaskPending, retryCount := Next32(task.retryCount), attemptId := NO_ID, inputs := map[],
                    startedAt := 0, worker := "", leaseUntil := 0);
      tasks := tasks[e.task := task];
      return Ok(());
    }

    method ApplyTaskTimedOut(e: Event) returns (r: Result<()>)
      modifies this`tasks
      ensures hide Reducer.ApplyTaskTimedOut;
              Meets(r, Value(), Reducer.ApplyTaskTimedOut(old(Value()), e))
    {
      if e.task !in tasks { return Err(ErrInvalidTransition); }
      var task := tasks[e.task];
      var leased :=
        || (status == WorkflowRunning && task.status == TaskRunning && !e.compensation)
        || (status == WorkflowCompensating && task.status == TaskCompensating && task.worker != "" && e.compensation);
      if !leased || !SameAttempt(task, e) { return Err(ErrInvalidTransition); }
      var key := TimerID(id, e.task, TimerTimeout, e.attempt);
      if key !in timers { return Err(ErrInvalidTransition); }
      var timer := timers[key];
      if timer.status != TimerFired || e.at < timer.deadline || timer.deadline > task.leaseUntil
         || timer.attemptId != e.attemptId || timer.fence != e.fence {
        return Err(ErrInvalidTransition);
      }
      task := task.(status := TaskFailed, error := e.error, finishedAt := e.at, compensation := e.compensation);
      tasks := tasks[e.task := task];
      return Ok(());
    }

    method ApplyTaskCancelled(e: Event) returns (r: Result<()>)
      modifies this`tasks
      ensures hide Reducer.ApplyTaskCancelled;
              Meets(r, Value(), Reducer.ApplyTaskCancelled(old(Value()), e))
    {
      if status != WorkflowScheduled && status != WorkflowRunning { return Err(ErrInvalidTransition); }
      if e.task !in tasks { return Err(ErrInvalidTransition); }
      var task := tasks[e.task];
      match task.status {
        case TaskPending =>
        case TaskReady =>
        case TaskRunning =>
          if task.attemptId != e.attemptId || task.worker != e.worker
              || task.fence != e.fence { return Err(ErrFenced); }
        case _ => return Err(ErrInvalidTransition);
      }
      task := task.(status := TaskCancelled, finishedAt := e.at, worker := "", leaseUntil := 0, compensation := false);
      tasks := tasks[e.task := task];
      return Ok(());
    }

    method ApplyWorkflowCompensating(e: Event) returns (r: Result<()>)
      requires hide Lawful, Reducer.ApplyWorkflowCompensating;
               Lawful(Value())
      modifies this`tasks, this`status
      ensures Meets(r, Value(), Reducer.ApplyWorkflowCompensating(old(Value()), e))
    {
      hide Lawful, NextCompensation;
      var next := FindCompensation();
      if (status != WorkflowRunning && status != WorkflowCompensating)
          || next != Some(e.task) { return Err(ErrInvalidTransition); }
      var task := tasks[e.task];
      status := WorkflowCompensating;
      task := task.(status := TaskCompensating, retryCount := 0, payload := task.output, compensation := true,
                    attemptId := NO_ID, inputs := map[], startedAt := 0, finishedAt := 0, worker := "", leaseUntil := 0,
                    idempotency := NO_ID);
      tasks := tasks[e.task := task];
      return Ok(());
    }

    method ApplyTaskCompensated(e: Event) returns (r: Result<()>)
      requires hide Lawful, Reducer.ApplyTaskCompensated;
               Lawful(Value())
      modifies this`tasks
      ensures Meets(r, Value(), Reducer.ApplyTaskCompensated(old(Value()), e))
    {
      if status != WorkflowCompensating || e.task !in tasks { return Err(ErrInvalidTransition); }
      var task := tasks[e.task];
      if task.status != TaskCompensating || task.worker == "" || !task.compensation || !e.compensation
         || !SameAttempt(task, e) || e.at >= task.leaseUntil {
        return Err(ErrInvalidTransition);
      }
      assert LawfulTask(id, e.task, task);
      hide ScheduledTimer;
      var timer := FindTimeout(e.task, e.attemptId);
      if timer.Some? && e.at >= timer.value.deadline { return Err(ErrInvalidTransition); }
      task := task.(status := TaskCompensated, finishedAt := e.at, worker := "", leaseUntil := 0,
          compensation := false);
      tasks := tasks[e.task := task];
      return Ok(());
    }

    method ApplyWorkflowCancelled() returns (r: Result<()>)
      requires hide Lawful, Reducer.ApplyWorkflowCancelled;
               Lawful(Value())
      modifies this`status
      ensures Meets(r, Value(), Reducer.ApplyWorkflowCancelled(old(Value())))
    {
      hide Lawful, NextCompensation;
      var next := FindCompensation();
      if (status != WorkflowScheduled && status != WorkflowRunning) || next.Some? || HasActive(tasks)
          || HasScheduledTimers(timers) {
        return Err(ErrInvalidTransition);
      }
      status := WorkflowCancelled;
      return Ok(());
    }

    method ApplyWorkflowCompensated() returns (r: Result<()>)
      requires hide Lawful, Reducer.ApplyWorkflowCompensated;
               Lawful(Value())
      modifies this`status
      ensures Meets(r, Value(), Reducer.ApplyWorkflowCompensated(old(Value())))
    {
      hide Lawful, NextCompensation;
      var next := FindCompensation();
      if status != WorkflowCompensating || next.Some? || HasActive(tasks) || HasScheduledTimers(timers) {
        return Err(ErrInvalidTransition);
      }
      status := WorkflowCompensated;
      return Ok(());
    }

    /** applyFanoutExpanded inserts the children as it checks them, so a refusal can come after some of
        them are in the table. */
    method ApplyFanoutExpanded(e: Event) returns (r: Result<()>)
      modifies this`tasks
      ensures hide Reducer.ApplyFanoutExpanded;
              Meets(r, Value(), Reducer.ApplyFanoutExpanded(old(Value()), e))
    {
      if status != WorkflowRunning || e.task !in tasks { return Err(ErrInvalidTransition); }
      var parent := tasks[e.task];
      if parent.status != TaskCompleted || parent.definition.fanout.None? || parent.fanoutExpanded
         || Low32(|e.expanded|) > parent.definition.fanout.value.maxItems {
        return Err(ErrInvalidTransition);
      }
      var fanout := parent.definition.fanout.value;
      var inserted := InsertChildren(parent.definition, fanout, e.expanded);
      if !inserted { return Err(ErrInvalidTransition); }
      hide CanonicalExpansion, WithChildren, SortIds;
      if fanout.aggregate !in tasks { return Err(ErrInvalidTransition); }
      var aggregate := tasks[fanout.aggregate];
      if aggregate.status != TaskPending
          || e.task !in aggregate.definition.dependencies { return Err(ErrInvalidTransition); }
      var children := Children(e.expanded);
      var dependencies := SortIds(aggregate.definition.dependencies + children);
      aggregate := aggregate.(definition := aggregate.definition.(dependencies := dependencies));
      tasks := tasks[fanout.aggregate := aggregate];
      tasks := tasks[e.task := parent.(children := children, fanoutExpanded := true)];
      return Ok(());
    }

    method InsertChildren(parent: TaskDefinition, fanout: FanoutDefinition, expanded: seq<ExpandedTask>)
      returns (ok: bool)
      modifies this`tasks
      ensures ok <==> CanonicalExpansion(id, old(tasks), parent, fanout, expanded)
      ensures ok ==> tasks == WithChildren(old(tasks), expanded)
    {
      hide CanonicalExpansion;
      ghost var before := tasks;
      CanonicalByChild(id, before, parent, fanout, expanded);
      for i := 0 to |expanded|
        invariant tasks == WithChildren(before, expanded[..i])
        invariant forall j | 0 <= j < i :: ChildOk(id, before, parent, fanout, expanded, j)
      {
        var child := expanded[i];
        assert CanonicalExpansion(id, before, parent, fanout, expanded)
            ==> ChildOk(id, before, parent, fanout, expanded, i);
        if i > 0 && !TextBefore(expanded[i - 1].key, child.key) { return false; }
        if child.key == "" || child.definition != ExpandedDefinition(id, parent, fanout, child.key) { return false; }
        ChildPresent(id, before, parent, fanout, expanded, i);
        if child.definition.id in tasks { return false; }
        assert expanded[..i + 1][..i] == expanded[..i];
        tasks := tasks[child.definition.id := ChildTask(child)];
      }
      assert expanded[..|expanded|] == expanded;
      return true;
    }

    /** The switch of applyEvent. */
    method Move(e: Event) returns (r: Result<()>)
      requires hide Lawful, Transition;
               Lawful(Value())
      modifies this
      ensures Meets(r, Value(), Transition(old(Value()), e))
    {
      hide Meets, Reducer.ApplyReady, Reducer.ApplyStarted, Reducer.ApplyCompleted, Reducer.ApplyFailed,
          Reducer.ApplyRenewed,
        Reducer.ApplyExpired, Reducer.ApplyWorkflowCompleted, Reducer.ApplyWorkflowFailed, Reducer.ApplyWorkflowStarted,
        Reducer.ApplyFanoutExpanded, Reducer.ApplyTimerScheduled, Reducer.ApplyTimerTransition,
            Reducer.ApplyTaskRetryScheduled,
        Reducer.ApplyTaskTimedOut, Reducer.ApplyTaskCancelled, Reducer.ApplyWorkflowCompensating,
            Reducer.ApplyTaskCompensated,
        Reducer.ApplyWorkflowCancelled, Reducer.ApplyWorkflowCompensated, Lawful;
      match e.kind {
        case EventTaskReady => r := ApplyReady(e);
        case EventTaskStarted => r := ApplyStarted(e);
        case EventTaskCompleted => r := ApplyCompleted(e);
        case EventTaskFailed => r := ApplyFailed(e);
        case EventWorkflowCompleted => r := ApplyWorkflowCompleted();
        case EventWorkflowFailed => r := ApplyWorkflowFailed(e);
        case EventLeaseRenewed => r := ApplyRenewed(e);
        case EventLeaseExpired => r := ApplyExpired(e);
        case EventWorkflowStarted => r := ApplyWorkflowStarted(e);
        case EventFanoutExpanded => r := ApplyFanoutExpanded(e);
        case EventTimerScheduled => r := ApplyTimerScheduled(e);
        case EventTimerFired => r := ApplyTimerTransition(e, TimerFired);
        case EventTimerCancelled => r := ApplyTimerTransition(e, TimerCancelled);
        case EventTaskRetryScheduled => r := ApplyTaskRetryScheduled(e);
        case EventTaskTimedOut => r := ApplyTaskTimedOut(e);
        case EventTaskCancelled => r := ApplyTaskCancelled(e);
        case EventWorkflowCancellationRequested => r := ApplyCancellationRequested(e);
        case EventWorkflowCompensating => r := ApplyWorkflowCompensating(e);
        case EventTaskCompensated => r := ApplyTaskCompensated(e);
        case EventWorkflowCancelled => r := ApplyWorkflowCancelled();
        case EventWorkflowCompensated => r := ApplyWorkflowCompensated();
        case EventWorkflowSubmitted => r := Refuse(e);
        case EventUnknown => r := Refuse(e);
      }
    }

    method ApplyCancellationRequested(e: Event) returns (r: Result<()>)
      requires e.kind == EventWorkflowCancellationRequested
      ensures Meets(r, Value(), Transition(Value(), e))
    {
      hide Reducer.ApplyFailed, Reducer.ApplyFanoutExpanded, Reducer.ApplyStarted, Reducer.ApplyTimerScheduled,
          Reducer.ApplyWorkflowCancelled, Reducer.ApplyWorkflowCompensated, Reducer.ApplyWorkflowCompensating;
      if status != WorkflowScheduled && status != WorkflowRunning { return Err(ErrInvalidTransition); }
      return Ok(());
    }

    method Refuse(e: Event) returns (r: Result<()>)
      requires e.kind == EventWorkflowSubmitted || e.kind == EventUnknown
      ensures Meets(r, Value(), Transition(Value(), e))
    {
      hide Reducer.ApplyFailed, Reducer.ApplyFanoutExpanded, Reducer.ApplyStarted, Reducer.ApplyTimerScheduled,
          Reducer.ApplyWorkflowCancelled, Reducer.ApplyWorkflowCompensated, Reducer.ApplyWorkflowCompensating;
      return Err(ErrInvalidTransition);
    }
  }

  function Content(state: State?): Option<Workflow>
    reads state
  {
    if state == null then None else Some(state.Value())
  }

  /** The object that applyEvent and the planners return. */
  ghost predicate Yields(r: Result<State>, expected: Result<Workflow>)
    reads if r.Ok? then {r.value} else {}
  {
    match expected
    case Ok(w) => r.Ok? && r.value.Value() == w
    case Err(error) => r == Err(error)
  }

  /** applySubmission */
  method ApplySubmission(e: Event) returns (r: Result<State>)
    ensures hide Reducer.ApplySubmission;
            r.Ok? ==> fresh(r.value)
    ensures Yields(r, Reducer.ApplySubmission(e))
  {
    hide ValidDefinition, Canonical, FreshTasks;
    var checked := ValidateDefinition(e.definition);
    if checked.Err? { return Err(checked.error); }
    var definition := Canonical(e.definition.value);
    var begun := if definition.startAt > e.at then WorkflowScheduled else WorkflowRunning;
    var state := new State(Workflow(e.workflow, definition.name, definition.namespace, begun, e.sequence, e.at,
        FreshTasks(definition.tasks), map[]));
    return Ok(state);
  }

  /** applyEvent: on the given state, or on a copy of it when `isolated`. */
  method ApplyOne(state: State?, e: Event, isolated: bool) returns (r: Result<State>)
    requires hide Lawful, Reducer.ApplyEvent;
             state != null ==> Lawful(state.Value())
    modifies if isolated || state == null then {} else {state}
    ensures Yields(r, Reducer.ApplyEvent(old(Content(state)), e))
    ensures r.Ok? ==> if isolated || state == null then fresh(r.value) else r.value == state
    ensures r.Ok? ==> Lawful(r.value.Value())
  {
    hide Lawful, Transition, Reducer.ApplySubmission;
    ghost var before := Content(state);
    if Blank(e.workflow) || Blank(e.request) || e.hash == NoHash || e.at < 0 { return Err(ErrInvalidTransition); }
    if e.sequence == 0 || e.id != EventID(e.workflow, e.sequence, e.kind) { return Err(ErrSequence); }
    if Reducer.ApplyEvent(before, e).Ok? { ApplyLawful(before, e); }
    if state == null {
      if e.kind != EventWorkflowSubmitted || e.sequence != 1 { return Err(ErrSequence); }
      r := ApplySubmission(e);
      return;
    }
    if e.workflow != state.id || e.sequence != Next64(state.version) { return Err(ErrSequence); }
    if e.at < state.updatedAt { return Err(ErrTimeRegression); }
    var next: State := state;
    if isolated { next := state.Clone(); }
    var moved := next.Move(e);
    if moved.Err? { return Err(moved.error); }
    next.version := e.sequence;
    next.updatedAt := e.at;
    return Ok(next);
  }

  /** What a canonical expansion asks of one child. */
  predicate ChildOk(w: Id, tasks: map<Id, Task>, parent: TaskDefinition, fanout: FanoutDefinition,
                    expanded: seq<ExpandedTask>, i: nat)
    requires i < |expanded|
  {
    && KeyFollows(expanded, i) && expanded[i].key != ""
    && expanded[i].definition == ExpandedDefinition(w, parent, fanout, expanded[i].key)
    && expanded[i].definition.id !in tasks
  }

  lemma {:induction false} CanonicalByChild(w: Id, tasks: map<Id, Task>, parent: TaskDefinition,
                                            fanout: FanoutDefinition, expanded: seq<ExpandedTask>)
    ensures CanonicalExpansion(w, tasks, parent, fanout, expanded) <==>
            forall i | 0 <= i < |expanded| :: ChildOk(w, tasks, parent, fanout, expanded, i)
  {
    hide ExpandedDefinition, KeyFollows;
    if forall i | 0 <= i < |expanded| :: ChildOk(w, tasks, parent, fanout, expanded, i) {
      forall i | 0 <= i < |expanded|
        ensures && KeyFollows(expanded, i) && expanded[i].key != "" && expanded[i].definition.id !in tasks
                && expanded[i].definition == ExpandedDefinition(w, parent, fanout, expanded[i].key)
      {
        assert ChildOk(w, tasks, parent, fanout, expanded, i);
      }
    }
  }

  /** A child that follows its siblings is in the table only if it was there before them. */
  lemma {:induction false} ChildPresent(w: Id, tasks: map<Id, Task>, parent: TaskDefinition, fanout: FanoutDefinition,
                                        expanded: seq<ExpandedTask>, n: nat)
    requires n < |expanded| && forall i | 0 <= i < n :: ChildOk(w, tasks, parent, fanout, expanded, i)
    requires KeyFollows(expanded, n)
    requires expanded[n].definition == ExpandedDefinition(w, parent, fanout, expanded[n].key)
    ensures expanded[n].definition.id in WithChildren(tasks, expanded[..n]) <==> expanded[n].definition.id in tasks
  {
    hide KeyFollows, WithChildren;
    var front, id := expanded[..n], expanded[n].definition.id;
    forall i | 0 <= i < n ensures KeyFollows(expanded, i) {
      assert ChildOk(w, tasks, parent, fanout, expanded, i);
    }
    forall i | 0 <= i < n ensures front[i].definition.id != id {
      assert ChildOk(w, tasks, parent, fanout, expanded, i);
      KeysIncrease(expanded, i, n);
      TextTrichotomy(expanded[i].key, expanded[n].key);
      hide TextBefore;
    }
    TableMembers(tasks, front, id);
  }

  lemma {:induction false} KeysIncrease(expanded: seq<ExpandedTask>, i: nat, n: nat)
    requires i < n < |expanded| && forall k | 0 <= k <= n :: KeyFollows(expanded, k)
    ensures TextBefore(expanded[i].key, expanded[n].key)
  {
    assert KeyFollows(expanded, n);
    if i < n - 1 {
      KeysIncrease(expanded, i, n - 1);
      TextTransitive(expanded[i].key, expanded[n - 1].key, expanded[n].key);
    }
  }

  lemma {:induction false} TableMembers(tasks: map<Id, Task>, expanded: seq<ExpandedTask>, id: Id)
    requires forall i | 0 <= i < |expanded| :: expanded[i].definition.id != id
    ensures id in WithChildren(tasks, expanded) <==> id in tasks
  {
    if expanded != [] { TableMembers(tasks, expanded[..|expanded| - 1], id); }
  }

  // ----------------------------------------------------------------------------------------------------
  // The planners of internal/core/reducer.go and internal/core/workflow_transitions.go as they run: an event plan
  // owns a state object, on which every planned event is applied in place. A plan works on a copy of the given state,
  // or, when staged, on the given state itself.
  // ----------------------------------------------------------------------------------------------------

  ghost predicate MeetsPlan(r: Result<()>, after: Plan, expected: Result<Plan>) {
    match expected
    case Ok(p) => r.Ok? && after == p && Lawful(p.state)
    case Err(error) => r == Err(error)
  }

  lemma {:induction false} AddLawful(p: Plan, e: Event)
    requires hide Lawful, Reducer.Add;
             Lawful(p.state) && Reducer.Add(p, e).Ok?
    ensures Lawful(Reducer.Add(p, e).value.state)
  {
    hide Lawful, Reducer.ApplyEvent;
    ApplyLawful(Some(p.state), PlanStamp(e, p.state.version));
  }

  class EventPlan {
    const state: State
    var events: seq<Event>

    constructor (state: State, events: seq<Event>)
      ensures this.state == state && this.events == events
    {
      this.state, this.events := state, events;
    }

    ghost function Value(): Plan
      reads this, state
    {
      Plan(state.Value(), events)
    }

    /** eventPlan.add */
    method Add(e: Event) returns (r: Result<()>)
      requires hide Lawful, MeetsPlan, Reducer.Add;
               Lawful(state.Value())
      modifies this, state
      ensures MeetsPlan(r, Value(), Reducer.Add(old(Value()), e))
    {
      hide Lawful, Reducer.ApplyEvent;
      ghost var p := Value();
      if Reducer.Add(p, e).Ok? { AddLawful(p, e); }
      var next := ApplyOne(state, PlanStamp(e, state.version), false);
      if next.Err? { return Err(next.error); }
      events := events + [e];
      return Ok(());
    }

    method AddTimeoutCancellation(task: Id, attemptId: Id, at: int64) returns (r: Result<()>)
      requires hide Lawful, MeetsPlan, Reducer.AddTimerCancellation;
               Lawful(state.Value()) && attemptId != NO_ID
      modifies this, state
      ensures MeetsPlan(r, Value(), Reducer.AddTimerCancellation(old(Value()), TimerTimeout, task, attemptId, at))
    {
      hide Lawful, Reducer.Add, ScheduledTimer;
      var timer := state.FindTimeout(task, attemptId);
      if timer.None? { return Ok(()); }
      r := Add(TimerEvent(EventTimerCancelled, state.id, timer.value, at));
    }

    method AddReadyTasks(at: int64) returns (r: Result<()>)
      requires hide Lawful, MeetsPlan, Reducer.AddReadyTasks;
               Lawful(state.Value())
      modifies this, state
      ensures MeetsPlan(r, Value(), Reducer.AddReadyTasks(old(Value()), at))
    {
      hide Lawful, Reducer.Add, Eligible, SortedIds;
      if state.status != WorkflowRunning { return Ok(()); }
      var ids := SortedIds(state.tasks.Keys);
      ghost var p := Value();
      for i := 0 to |ids|
        invariant Lawful(state.Value()) && AddReadyLoop(p, ids, at) == AddReadyLoop(Value(), ids[i..], at)
      {
        assert ids[i..][0] == ids[i] && ids[i..][1..] == ids[i + 1..];
        if Eligible(state.tasks, state.timers, ids[i]) {
          r := Add(ReadyEvent(state.id, ids[i], at));
          if r.Err? { return; }
        }
      }
      assert ids[|ids|..] == [];
      return Ok(());
    }

    method AddActiveCancellations(at: int64, reason: string) returns (r: Result<()>)
      requires hide Lawful, MeetsPlan, Reducer.AddActiveCancellations;
               Lawful(state.Value())
      modifies this, state
      ensures MeetsPlan(r, Value(), Reducer.AddActiveCancellations(old(Value()), at, reason))
    {
      hide Lawful, Reducer.Add, SortedIds;
      var ids := SortedIds(state.tasks.Keys);
      ghost var p := Value();
      for i := 0 to |ids|
        invariant Lawful(state.Value())
                  && CancelTasksLoop(p, ids, at, reason) == CancelTasksLoop(Value(), ids[i..], at, reason)
      {
        assert ids[i..][0] == ids[i] && ids[i..][1..] == ids[i + 1..];
        if ids[i] in state.tasks && Cancellable(state.tasks[ids[i]].status) {
          r := Add(CancelEvent(state.id, ids[i], state.tasks[ids[i]], at, reason));
          if r.Err? { return; }
        }
      }
      assert ids[|ids|..] == [];
      return Ok(());
    }

    method AddScheduledTimerCancellations(at: int64) returns (r: Result<()>)
      requires hide Lawful, MeetsPlan, Reducer.AddScheduledTimerCancellations;
               Lawful(state.Value())
      modifies this, state
      ensures MeetsPlan(r, Value(), Reducer.AddScheduledTimerCancellations(old(Value()), at))
    {
      hide Lawful, Reducer.Add, SortedIds;
      var ids := SortedIds(ScheduledIds(state.timers));
      ghost var p := Value();
      for i := 0 to |ids|
        invariant Lawful(state.Value()) && CancelTimersLoop(p, ids, at) == CancelTimersLoop(Value(), ids[i..], at)
      {
        assert ids[i..][0] == ids[i] && ids[i..][1..] == ids[i + 1..];
        if ids[i] !in state.timers { return Err(ErrInvalidTransition); }
        r := Add(TimerEvent(EventTimerCancelled, state.id, state.timers[ids[i]], at));
        if r.Err? { return; }
      }
      assert ids[|ids|..] == [];
      return Ok(());
    }

    method AddTerminalFailure(task: Id, reason: string, at: int64) returns (r: Result<()>)
      requires hide Lawful, MeetsPlan, Reducer.AddTerminalFailure;
               Lawful(state.Value())
      modifies this, state
      ensures MeetsPlan(r, Value(), Reducer.AddTerminalFailure(old(Value()), task, reason, at))
    {
      hide Lawful, Reducer.Add, Reducer.AddActiveCancellations, Reducer.AddScheduledTimerCancellations;
      r := AddActiveCancellations(at, reason);
      if r.Err? { return; }
      r := AddScheduledTimerCancellations(at);
      if r.Err? { return; }
      var next := state.FindCompensation();
      if next.Some? {
        r := Add(Event(EventWorkflowCompensating, state.id, at, task := next.value, reason := reason));
        return;
      }
      r := Add(Event(EventWorkflowFailed, state.id, at, task := task, error := reason));
    }

    /** addRetry: the outcome says whether the attempt is retried. */
    method AddRetry(id: Id, compensation: bool, at: int64) returns (r: Result<bool>)
      requires hide Lawful, Reducer.AddRetry;
               Lawful(state.Value())
      modifies this, state
      ensures match Reducer.AddRetry(old(Value()), id, compensation, at)
              case Err(error) => r == Err(error)
              case Ok(None) => r == Ok(false) && Value() == old(Value())
              case Ok(Some(p)) => r == Ok(true) && Value() == p && Lawful(p.state)
    {
      hide Lawful, Reducer.Add;
      if id !in state.tasks { return Err(ErrInvalidTransition); }
      var task := state.tasks[id];
      if Next32(task.retryCount) >= task.definition.retry.maxAttempts { return Ok(false); }
      var delay := ComputeRetryDelay(task.definition.retry, task.retryCount);
      if AddsPast(at, delay) { return Err(ErrTimeOverflow); }
      var timer := Timer(TimerID(state.id, id, TimerRetry, task.attempt), id, TimerRetry, at + delay, task.attemptId,
                         task.attempt, task.fence, TimerScheduled);
      var added := Add(TimerEvent(EventTimerScheduled, state.id, timer, at));
      if added.Err? { return Err(added.error); }
      added := Add(Event(EventTaskRetryScheduled, state.id, at, task := id, attemptId := task.attemptId,
                         attempt := task.attempt, fence := task.fence, timer := Some(timer),
                             compensation := compensation));
      if added.Err? { return Err(added.error); }
      return Ok(true);
    }

    /** The end that decideFail and the timeout branch of decideFireTimer share. */
    method AddFailureOutcome(id: Id, compensation: bool, reason: string, failure: string, at: int64)
      returns (r: Result<()>)
      requires hide Lawful, MeetsPlan, Reducer.AddFailureOutcome;
               Lawful(state.Value())
      modifies this, state
      ensures MeetsPlan(r, Value(), Reducer.AddFailureOutcome(old(Value()), id, compensation, reason, failure, at))
    {
      hide Lawful, Reducer.Add, Reducer.AddRetry, Reducer.AddTerminalFailure;
      var retried := AddRetry(id, compensation, at);
      if retried.Err? { return Err(retried.error); }
      if !retried.value {
        if compensation {
          r := Add(Event(EventWorkflowFailed, state.id, at, task := id, error := failure));
        } else {
          r := AddTerminalFailure(id, reason, at);
        }
        return;
      }
      return Ok(());
    }

    method AddExpansion(workflow: Id, task: Task, c: Command) returns (r: Result<()>)
      requires hide Lawful, MeetsPlan, Reducer.AddExpansion;
               Lawful(state.Value())
      modifies this, state
      ensures MeetsPlan(r, Value(), Reducer.AddExpansion(old(Value()), workflow, task, c))
    {
      hide Lawful, Reducer.Add, MaterializeFanout;
      if task.definition.fanout.Some? {
        var expanded := Materialize(state.Value(), task.definition, task.definition.fanout.value, c.fanout);
        if expanded.Err? { return Err(expanded.error); }
        r := Add(Event(EventFanoutExpanded, workflow, c.at, task := c.task, expanded := expanded.value));
        return;
      }
      if |c.fanout| != 0 { return Err(ErrInvalidCommand); }
      return Ok(());
    }
  }

  /** materializeFanout derives the children one after another, in the order of their keys. */
  method Materialize(s: Workflow, parent: TaskDefinition, fanout: FanoutDefinition, items: seq<FanoutItem>)
    returns (r: Result<seq<ExpandedTask>>)
    ensures r == MaterializeFanout(s, parent, fanout, items)
  {
    hide CanonicalItems, ExpandedDefinition;
    if Low32(|items|) > fanout.maxItems || |items| > MAX_FANOUT_ITEMS { return Err(ErrInvalidCommand); }
    var sorted := CanonicalItems(items);
    var result: seq<ExpandedTask> := [];
    ghost var whole := MaterializeFrom(s, parent, fanout, sorted, 0);
    assert whole == Onto(result, whole) by { if whole.Ok? { assert [] + whole.value == whole.value; } }
    for i := 0 to |sorted|
      invariant whole == Onto(result, MaterializeFrom(s, parent, fanout, sorted, i))
    {
      var item := sorted[i];
      if BlankText(item.key) || (i > 0 && item.key == sorted[i - 1].key) { return Err(ErrInvalidCommand); }
      if FanoutTaskID(s.id, parent.id, item.key) in s.tasks { return Err(ErrInvalidTransition); }
      var child := ExpandedTask(item.key, ExpandedDefinition(s.id, parent, fanout, item.key), item.payload);
      OntoNext(result, child, MaterializeFrom(s, parent, fanout, sorted, i + 1));
      result := result + [child];
    }
    assert result + [] == result;
    return Ok(result);
  }

  ghost function Onto(found: seq<ExpandedTask>, rest: Result<seq<ExpandedTask>>): Result<seq<ExpandedTask>> {
    if rest.Err? then rest else Ok(found + rest.value)
  }

  lemma {:induction false} OntoNext(found: seq<ExpandedTask>, child: ExpandedTask, rest: Result<seq<ExpandedTask>>)
    ensures Onto(found, Onto([child], rest)) == Onto(found + [child], rest)
  {
    if rest.Ok? { assert found + ([child] + rest.value) == found + [child] + rest.value; }
  }

  // ----------------------------------------------------------------------------------------------------
  // decideCommand as it runs. With `staged`, planning changes the given state object in place; without, it works on a
  // copy. Either way it accepts the same commands, plans the same events and reaches the same state, because both are
  // proved against Reducer.Decide.
  // ----------------------------------------------------------------------------------------------------

  /** The plan that a planner returns is the expected one. */
  ghost predicate Delivers(r: Result<EventPlan>, expected: Result<Plan>)
    reads if r.Ok? then {r.value, r.value.state} else {}
  {
    hide Lawful;
    match expected
    case Ok(p) => r.Ok? && r.value.Value() == p && Lawful(p.state)
    case Err(error) => r == Err(error)
  }

  /** newEventPlan and newStagedEventPlan on an existing state. */
  method NewPlan(state: State, staged: bool) returns (plan: EventPlan)
    ensures fresh(plan) && plan.events == [] && plan.state.Value() == state.Value()
    ensures if staged then plan.state == state else fresh(plan.state)
  {
    if staged {
      plan := new EventPlan(state, []);
    } else {
      var copy := state.Clone();
      plan := new EventPlan(copy, []);
    }
  }

  method DecideSubmit(state: State?, c: Command) returns (r: Result<EventPlan>)
    ensures hide Delivers, Reducer.DecideSubmit;
            Delivers(r, Reducer.DecideSubmit(Content(state), c))
    ensures r.Ok? ==> state == null && fresh(r.value) && fresh(r.value.state)
  {
    hide Lawful, Reducer.Add, Reducer.AddReadyTasks, Reducer.ApplyEvent, ValidDefinition, Canonical;
    if state != null { return Err(ErrWorkflowExists); }
    if Blank(c.workflow) { return Err(ErrInvalidCommand); }
    var valid := ValidateDefinition(c.definition);
    if valid.Err? { return Err(valid.error); }
    var definition := Canonical(c.definition.value);
    var event := Event(EventWorkflowSubmitted, c.workflow, c.at, definition := Some(definition));
    var first := ApplyOne(null, PlanStamp(event, 0), false);
    if first.Err? { return Err(first.error); }
    var plan := new EventPlan(first.value, [event]);
    var added;
    if definition.startAt > c.at {
      var timer := Timer(TimerID(c.workflow, NO_ID, TimerWorkflowStart, 0), NO_ID, TimerWorkflowStart,
                         definition.startAt, NO_ID, 0, 0, TimerScheduled);
      added := plan.Add(TimerEvent(EventTimerScheduled, c.workflow, timer, c.at));
    } else {
      added := plan.AddReadyTasks(c.at);
    }
    if added.Err? { return Err(added.error); }
    return Ok(plan);
  }

  method DecideStart(state: State, c: Command, staged: bool) returns (r: Result<EventPlan>)
    requires hide Delivers, Lawful, Reducer.DecideStart;
             Lawful(state.Value())
    modifies if staged then {state} else {}
    ensures Delivers(r, Reducer.DecideStart(old(state.Value()), c))
    ensures r.Ok? ==> fresh(r.value) && if staged then r.value.state == state else fresh(r.value.state)
  {
    hide Lawful, Reducer.Add;
    if state.status != WorkflowRunning && state.status != WorkflowCompensating { return Err(ErrInvalidTransition); }
    if c.task !in state.tasks { return Err(ErrInvalidCommand); }
    var task := state.tasks[c.task];
    var compensation := state.status == WorkflowCompensating && task.status == TaskCompensating && task.worker == ""
        && task.compensation;
    if task.status != TaskReady && !compensation { return Err(ErrInvalidTransition); }
    if Blank(c.attemptId) || BlankText(c.worker) || c.leaseUntil <= c.at { return Err(ErrInvalidCommand); }
    if task.attempt == MAX_UINT32 { return Err(ErrAttemptOverflow); }
    if task.fence == MAX_UINT64 { return Err(ErrFencingOverflow); }
    var attempt := task.attempt + 1;
    if c.attemptId != AttemptID(state.id, c.task, attempt) { return Err(ErrInvalidCommand); }
    var inputs := if compensation then map[] else DependencyOutputs(state.tasks, task);
    var idempotency := if compensation then CompensationIdempotencyKey(state.id, c.task)
        else IdempotencyKey(state.id, c.task);
    var event := Event(EventTaskStarted, state.id, c.at, task := c.task, attemptId := c.attemptId, attempt := attempt,
                       inputs := inputs, worker := c.worker, leaseUntil := c.leaseUntil, fence := task.fence + 1,
                       idempotency := idempotency, compensation := compensation);
    assert event == StartedEvent(state.Value(), task, c);
    hide StartedEvent, Reducer.AddTimeout;
    var plan := NewPlan(state, staged);
    var added := plan.Add(event);
    if added.Err? { return Err(added.error); }
    added := AddTimeout(plan, state.id, task.definition.timeout, attempt, c);
    if added.Err? { return Err(added.error); }
    return Ok(plan);
  }

  /** The end of decideStart. */
  method AddTimeout(plan: EventPlan, workflow: Id, timeout: int64, attempt: uint32, c: Command) returns (r: Result<()>)
    requires hide Lawful, MeetsPlan, Reducer.AddTimeout;
             Lawful(plan.state.Value())
    modifies plan, plan.state
    ensures MeetsPlan(r, plan.Value(), Reducer.AddTimeout(old(plan.Value()), workflow, timeout, attempt, c))
  {
    hide Lawful, Reducer.Add;
    if timeout > 0 {
      if c.at > MAX_INT64 - timeout { return Err(ErrTimeOverflow); }
      var deadline := c.at + timeout;
      if c.leaseUntil > deadline { return Err(ErrInvalidCommand); }
      if c.task !in plan.state.tasks { return Err(ErrInvalidCommand); }
      var timer := Timer(TimerID(workflow, c.task, TimerTimeout, attempt), c.task, TimerTimeout, deadline,
          c.attemptId, attempt,
                         plan.state.tasks[c.task].fence, TimerScheduled);
      r := plan.Add(TimerEvent(EventTimerScheduled, workflow, timer, c.at));
      return;
    }
    return Ok(());
  }

  /** leasedTask */
  method FindLeased(state: State, c: Command) returns (r: Result<Task>)
    requires hide Lawful;
             Lawful(state.Value())
    ensures r == LeasedTask(state.Value(), c)
    ensures r.Ok? ==> c.attemptId != NO_ID
  {
    if c.task !in state.tasks { return Err(ErrInvalidCommand); }
    var task := state.tasks[c.task];
    assert LawfulTask(state.id, c.task, task);
    var forward := state.status == WorkflowRunning && task.status == TaskRunning && !task.compensation;
    var compensation := state.status == WorkflowCompensating && task.status == TaskCompensating && task.worker != ""
        && task.compensation;
    if (!forward && !compensation) || task.attemptId != c.attemptId || task.worker != c.worker
        || task.fence != c.fence {
      return Err(ErrFenced);
    }
    return Ok(task);
  }

  method DecideComplete(state: State, c: Command, staged: bool) returns (r: Result<EventPlan>)
    requires hide Delivers, Lawful, Reducer.DecideComplete;
             Lawful(state.Value())
    modifies if staged then {state} else {}
    ensures Delivers(r, Reducer.DecideComplete(old(state.Value()), c))
    ensures r.Ok? ==> fresh(r.value) && if staged then r.value.state == state else fresh(r.value.state)
  {
    hide Lawful, ScheduledTimer, LeasedTask, Reducer.PlanCompensated, Reducer.PlanCompleted;
    var leased := FindLeased(state, c);
    if leased.Err? { return Err(leased.error); }
    var task := leased.value;
    if c.at >= task.leaseUntil { return Err(ErrLeaseExpired); }
    var timeout := state.FindTimeout(c.task, c.attemptId);
    if timeout.Some? && c.at >= timeout.value.deadline { return Err(ErrLeaseExpired); }
    if task.compensation {
      r := PlanCompensated(state, task, c, staged);
    } else {
      r := PlanCompleted(state, task, c, staged);
    }
  }

  method PlanCompensated(state: State, task: Task, c: Command, staged: bool) returns (r: Result<EventPlan>)
    requires hide Delivers, Lawful, Reducer.PlanCompensated;
             c.attemptId != NO_ID
    requires Lawful(state.Value())
    modifies if staged then {state} else {}
    ensures Delivers(r, Reducer.PlanCompensated(old(state.Value()), task, c))
    ensures r.Ok? ==> fresh(r.value) && if staged then r.value.state == state else fresh(r.value.state)
  {
    hide Lawful, Reducer.Add, Reducer.AddTimerCancellation, NextCompensation;
    var plan := NewPlan(state, staged);
    var added := plan.Add(AttemptEvent(EventTaskCompensated, state.Value(), task, c).(output := c.output));
    if added.Err? { return Err(added.error); }
    added := plan.AddTimeoutCancellation(c.task, c.attemptId, c.at);
    if added.Err? { return Err(added.error); }
    var next := plan.state.FindCompensation();
    if next.Some? {
      added := plan.Add(Event(EventWorkflowCompensating, state.id, c.at, task := next.value));
    } else {
      added := plan.Add(Event(EventWorkflowCompensated, state.id, c.at));
    }
    if added.Err? { return Err(added.error); }
    return Ok(plan);
  }

  method PlanCompleted(state: State, task: Task, c: Command, staged: bool) returns (r: Result<EventPlan>)
    requires hide Delivers, Lawful, Reducer.PlanCompleted;
             c.attemptId != NO_ID
    requires Lawful(state.Value())
    modifies if staged then {state} else {}
    ensures Delivers(r, Reducer.PlanCompleted(old(state.Value()), task, c))
    ensures r.Ok? ==> fresh(r.value) && if staged then r.value.state == state else fresh(r.value.state)
  {
    hide Lawful, Reducer.Add, Reducer.AddTimerCancellation, Reducer.AddExpansion, Reducer.AddReadyTasks, AllCompleted;
    var plan := NewPlan(state, staged);
    var added := plan.Add(AttemptEvent(EventTaskCompleted, state.Value(), task, c).(output := c.output));
    if added.Err? { return Err(added.error); }
    added := plan.AddTimeoutCancellation(c.task, c.attemptId, c.at);
    if added.Err? { return Err(added.error); }
    added := plan.AddExpansion(state.id, task, c);
    if added.Err? { return Err(added.error); }
    added := plan.AddReadyTasks(c.at);
    if added.Err? { return Err(added.error); }
    if AllCompleted(plan.state.tasks) {
      added := plan.Add(Event(EventWorkflowCompleted, state.id, c.at));
      if added.Err? { return Err(added.error); }
    }
    return Ok(plan);
  }

  method DecideFail(state: State, c: Command, staged: bool) returns (r: Result<EventPlan>)
    requires hide Delivers, Lawful, Reducer.DecideFail;
             Lawful(state.Value())
    modifies if staged then {state} else {}
    ensures Delivers(r, Reducer.DecideFail(old(state.Value()), c))
    ensures r.Ok? ==> fresh(r.value) && if staged then r.value.state == state else fresh(r.value.state)
  {
    hide Lawful, Reducer.Add, ScheduledTimer, LeasedTask, Reducer.AddTimerCancellation, Reducer.AddFailureOutcome;
    var leased := FindLeased(state, c);
    if leased.Err? { return Err(leased.error); }
    var task := leased.value;
    if c.at >= task.leaseUntil { return Err(ErrLeaseExpired); }
    if BlankText(c.error) { return Err(ErrInvalidCommand); }
    var timeout := state.FindTimeout(c.task, c.attemptId);
    if timeout.Some? && c.at >= timeout.value.deadline { return Err(ErrLeaseExpired); }
    var plan := NewPlan(state, staged);
    var added := plan.Add(AttemptEvent(EventTaskFailed, state.Value(), task, c).(error := c.error));
    if added.Err? { return Err(added.error); }
    added := plan.AddTimeoutCancellation(c.task, c.attemptId, c.at);
    if added.Err? { return Err(added.error); }
    added := plan.AddFailureOutcome(c.task, task.compensation, c.error, c.error, c.at);
    if added.Err? { return Err(added.error); }
    return Ok(plan);
  }

  method DecideRenew(state: State, c: Command, staged: bool) returns (r: Result<EventPlan>)
    requires hide Delivers, Lawful, Reducer.DecideRenew;
             Lawful(state.Value())
    modifies if staged then {state} else {}
    ensures Delivers(r, Reducer.DecideRenew(old(state.Value()), c))
    ensures r.Ok? ==> fresh(r.value) && if staged then r.value.state == state else fresh(r.value.state)
  {
    hide Lawful, Reducer.Add, ScheduledTimer, LeasedTask;
    var leased := FindLeased(state, c);
    if leased.Err? { return Err(leased.error); }
    var task := leased.value;
    if c.at >= task.leaseUntil { return Err(ErrLeaseExpired); }
    if c.leaseUntil <= task.leaseUntil { return Err(ErrInvalidCommand); }
    var timeout := state.FindTimeout(c.task, c.attemptId);
    if timeout.Some? && c.leaseUntil > timeout.value.deadline { return Err(ErrInvalidCommand); }
    var plan := NewPlan(state, staged);
    var added := plan.Add(AttemptEvent(EventLeaseRenewed, state.Value(), task, c).(leaseUntil := c.leaseUntil));
    if added.Err? { return Err(added.error); }
    return Ok(plan);
  }

  method DecideExpire(state: State, c: Command, staged: bool) returns (r: Result<EventPlan>)
    requires hide Delivers, Lawful, Reducer.DecideExpire;
             Lawful(state.Value())
    modifies if staged then {state} else {}
    ensures Delivers(r, Reducer.DecideExpire(old(state.Value()), c))
    ensures r.Ok? ==> fresh(r.value) && if staged then r.value.state == state else fresh(r.value.state)
  {
    hide Lawful, Reducer.Add, ScheduledTimer, LeasedTask, Reducer.AddTimerCancellation;
    var leased := FindLeased(state, c);
    if leased.Err? { return Err(leased.error); }
    var task := leased.value;
    if c.at < task.leaseUntil { return Err(ErrInvalidTransition); }
    var timeout := state.FindTimeout(c.task, c.attemptId);
    if timeout.Some? && timeout.value.deadline <= task.leaseUntil
        && c.at >= timeout.value.deadline { return Err(ErrInvalidTransition); }
    var plan := NewPlan(state, staged);
    var added := plan.Add(AttemptEvent(EventLeaseExpired, state.Value(), task, c));
    if added.Err? { return Err(added.error); }
    added := plan.AddTimeoutCancellation(c.task, c.attemptId, c.at);
    if added.Err? { return Err(added.error); }
    return Ok(plan);
  }

  method DecideFireTimer(state: State, c: Command, staged: bool) returns (r: Result<EventPlan>)
    requires hide Delivers, Lawful, Reducer.DecideFireTimer;
             Lawful(state.Value())
    modifies if staged then {state} else {}
    ensures Delivers(r, Reducer.DecideFireTimer(old(state.Value()), c))
    ensures r.Ok? ==> fresh(r.value) && if staged then r.value.state == state else fresh(r.value.state)
  {
    hide Lawful, Reducer.Add, Reducer.AddReadyTasks, Reducer.AddFailureOutcome;
    if c.timer !in state.timers || state.timers[c.timer].status != TimerScheduled { return Err(ErrInvalidTransition); }
    var timer := state.timers[c.timer];
    if c.at < timer.deadline { return Err(ErrInvalidTransition); }
    var plan := NewPlan(state, staged);
    var added := plan.Add(TimerEvent(EventTimerFired, state.id, timer, c.at));
    if added.Err? { return Err(added.error); }
    match timer.purpose {
      case TimerWorkflowStart =>
        added := plan.Add(Event(EventWorkflowStarted, state.id, c.at, timer := Some(timer)));
        if added.Err? { return Err(added.error); }
        added := plan.AddReadyTasks(c.at);
      case TimerRetry =>
        added := plan.Add(Event(EventTaskReady, state.id, c.at, task := timer.task, timer := Some(timer)));
      case TimerTimeout =>
        if timer.task !in plan.state.tasks { return Err(ErrFenced); }
        var task := plan.state.tasks[timer.task];
        if task.attemptId != timer.attemptId || task.fence != timer.fence { return Err(ErrFenced); }
        if task.leaseUntil < timer.deadline { return Err(ErrInvalidTransition); }
        added := plan.Add(Event(EventTaskTimedOut, state.id, c.at, task := timer.task, attemptId := timer.attemptId,
                                attempt := timer.attempt, worker := task.worker, leaseUntil := task.leaseUntil,
                                fence := timer.fence, idempotency := task.idempotency, error := "task timed out",
                                compensation := task.compensation));
        if added.Err? { return Err(added.error); }
        added := plan.AddFailureOutcome(timer.task, task.compensation, "task timed out", "compensation timed out",
            c.at);
      case TimerUnknown => return Err(ErrInvalidTransition);
    }
    if added.Err? { return Err(added.error); }
    return Ok(plan);
  }

  method DecideCancel(state: State, c: Command, staged: bool) returns (r: Result<EventPlan>)
    requires hide Delivers, Lawful, Reducer.DecideCancel;
             Lawful(state.Value())
    modifies if staged then {state} else {}
    ensures Delivers(r, Reducer.DecideCancel(old(state.Value()), c))
    ensures r.Ok? ==> fresh(r.value) && if staged then r.value.state == state else fresh(r.value.state)
  {
    hide Lawful, Reducer.Add, TrimSpace, Reducer.AddActiveCancellations, Reducer.AddScheduledTimerCancellations;
    if state.status != WorkflowScheduled && state.status != WorkflowRunning { return Err(ErrInvalidTransition); }
    var reason := TrimSpace(c.reason);
    if reason == "" { return Err(ErrInvalidCommand); }
    var plan := NewPlan(state, staged);
    var added := plan.Add(Event(EventWorkflowCancellationRequested, state.id, c.at, reason := reason));
    if added.Err? { return Err(added.error); }
    added := plan.AddActiveCancellations(c.at, reason);
    if added.Err? { return Err(added.error); }
    added := plan.AddScheduledTimerCancellations(c.at);
    if added.Err? { return Err(added.error); }
    var next := plan.state.FindCompensation();
    if next.Some? {
      added := plan.Add(Event(EventWorkflowCompensating, state.id, c.at, task := next.value, reason := reason));
    } else {
      added := plan.Add(Event(EventWorkflowCancelled, state.id, c.at, reason := reason));
    }
    if added.Err? { return Err(added.error); }
    return Ok(plan);
  }

  /** decideCommand: decidePlan without `staged`, decideStagedPlan with it. */
  method DecideCommand(state: State?, c: Command, staged: bool) returns (r: Result<EventPlan>)
    requires hide Delivers, Lawful, Reducer.Decide;
             state != null ==> Lawful(state.Value())
    modifies if staged && state != null then {state} else {}
    ensures Delivers(r, Reducer.Decide(old(Content(state)), c))
    ensures r.Ok? ==> fresh(r.value) && if staged && state != null then r.value.state == state else fresh(r.value.state)
  {
    hide Lawful, Reducer.DecideSubmit, Reducer.DecideStart, Reducer.DecideComplete, Reducer.DecideFail,
        Reducer.DecideRenew,
      Reducer.DecideExpire, Reducer.DecideFireTimer, Reducer.DecideCancel;
    if Blank(c.request) || c.at < 0 { return Err(ErrInvalidCommand); }
    if state != null && c.at < state.updatedAt { return Err(ErrTimeRegression); }
    if c.kind == CommandSubmit {
      r := DecideSubmit(state, c);
      return;
    }
    if c.kind == CommandUnknown { return Err(ErrInvalidCommand); }
    if state == null { return Err(ErrWorkflowNotFound); }
    match c.kind {
      case CommandStart => r := DecideStart(state, c, staged);
      case CommandComplete => r := DecideComplete(state, c, staged);
      case CommandFail => r := DecideFail(state, c, staged);
      case CommandRenew => r := DecideRenew(state, c, staged);
      case CommandExpire => r := DecideExpire(state, c, staged);
      case CommandFireTimer => r := DecideFireTimer(state, c, staged);
      case CommandCancel => r := DecideCancel(state, c, staged);
    }
  }
}
