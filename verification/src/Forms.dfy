/** What each accepted command does to the whole state. */
module Forms {
  import opened Base
  import opened Model
  import opened IdOrder
  import opened Backoff
  import opened Reducer
  import opened Invariant
  import opened Steps

  // ----- Start -----

  function StartedTask(s: Workflow, t: Task, c: Command): Task
    requires hide StartedEvent;
             t.attempt < MAX_UINT32 && t.fence < MAX_UINT64
  {
    var e := StartedEvent(s, t, c);
    t.(status := if StartsCompensation(s, t) then TaskCompensating else TaskRunning,
       attempt := e.attempt, attemptId := e.attemptId, inputs := e.inputs, startedAt := e.at, worker := e.worker,
       leaseUntil := e.leaseUntil, fence := e.fence, idempotency := e.idempotency, error := "")
  }

  function TimeoutKey(s: Workflow, id: Id): Id
    requires id in s.tasks
  {
    TimerID(s.id, id, TimerTimeout, s.tasks[id].attempt)
  }

  /** An accepted start. */
  ghost predicate Starts(s: Workflow, c: Command, s': Workflow) {
    hide StartedTask;
    && c.task in s.tasks && s.tasks[c.task].attempt < MAX_UINT32 && s.tasks[c.task].fence < MAX_UINT64
    && var t := s.tasks[c.task];
       var t' := StartedTask(s, t, c);
       var timeout := t.definition.timeout;
       && ((s.status == WorkflowRunning && t.status == TaskReady && !t.compensation) || StartsCompensation(s, t))
       && c.worker != "" && c.at < c.leaseUntil && c.attemptId == AttemptID(s.id, c.task, t'.attempt)
       && s'.version > s.version
       && s' == s.(tasks := s.tasks[c.task := t'], timers := s'.timers, version := s'.version, updatedAt := c.at)
       && (if timeout > 0 then
             && c.at <= MAX_INT64 - timeout && c.leaseUntil <= c.at + timeout
             && s'.timers == s.timers[TimerID(s.id, c.task, TimerTimeout, t'.attempt) :=
                                      TimeoutTimer(s.id, c, t'.attempt, t'.fence, c.at + timeout)]
           else s'.timers == s.timers)
  }

  lemma {:induction false} StartedForm(s: Workflow, c: Command)
    requires hide Add, StartedEvent, StartedTask;
             c.task in s.tasks && s.tasks[c.task].attempt < MAX_UINT32 && s.tasks[c.task].fence < MAX_UINT64
    requires Add(Plan(s, []), StartedEvent(s, s.tasks[c.task], c)).Ok?
    ensures var t := s.tasks[c.task];
            && s.version < MAX_UINT64 && ((s.status == WorkflowRunning && t.status == TaskReady && !t.compensation)
                || StartsCompensation(s, t))
            && Add(Plan(s, []), StartedEvent(s, t, c)).value.state == Stepped(s,
                s.(tasks := s.tasks[c.task := StartedTask(s, t, c)]), c.at)
  {
    hide Add;
    AddsStarted(Plan(s, []), StartedEvent(s, s.tasks[c.task], c));
  }

  lemma {:induction false} StartForm(s: Workflow, c: Command)
    requires hide DecideStart, Starts;
             DecideStart(s, c).Ok?
    ensures Starts(s, c, DecideStart(s, c).value.state)
  {
    hide Add, StartsCompensation;
    StartedForm(s, c);
    var t := s.tasks[c.task];
    var p1 := Add(Plan(s, []), StartedEvent(s, t, c)).value;
    StartedFence(s, t, c);
    hide StartedEvent;
    if t.definition.timeout > 0 {
      var timer := TimeoutTimer(s.id, c, t.attempt + 1, p1.state.tasks[c.task].fence, c.at + t.definition.timeout);
      AddsTimerScheduled(p1, TimerEvent(EventTimerScheduled, s.id, timer, c.at));
    }
  }

  lemma {:induction false} StartedFence(s: Workflow, t: Task, c: Command)
    requires hide StartedTask;
             t.attempt < MAX_UINT32 && t.fence < MAX_UINT64
    ensures StartedTask(s, t, c).fence == t.fence + 1 && StartedTask(s, t, c).attempt == t.attempt + 1
  {
  }

  // ----- Commands from the attempt that holds the task -----

  /** The command comes from the attempt that holds its task. */
  predicate Holds(s: Workflow, c: Command) {
    && c.task in s.tasks
    && var t := s.tasks[c.task];
       && Leased(t) && t.attemptId == c.attemptId && t.worker == c.worker && t.fence == c.fence
       && ((s.status == WorkflowRunning && t.status == TaskRunning && !t.compensation)
           || (s.status == WorkflowCompensating && t.status == TaskCompensating && t.compensation))
  }

  /** The timers with the timeout of the held task settled as `status`. */
  function TimeoutSettled(s: Workflow, id: Id, status: TimerStatus): map<Id, Timer>
    requires id in s.tasks
  {
    if s.tasks[id].definition.timeout > 0 && TimeoutKey(s, id) in s.timers then
      s.timers[TimeoutKey(s, id) := s.timers[TimeoutKey(s, id)].(status := status)]
    else s.timers
  }

  /** `s1` is `s` with one task replaced, its timeout settled, and the version moved on. */
  predicate Replaces(s: Workflow, id: Id, t: Task, status: TimerStatus, at: int64, s1: Workflow)
  {
    && id in s.tasks && s1.version > s.version
    && s1 == s.(tasks := s.tasks[id := t], timers := TimeoutSettled(s, id, status), version := s1.version,
        updatedAt := at)
  }

  /** Cancelling the timeout of a held task after an event about it. */
  lemma {:induction false} TimeoutCancellation(s: Workflow, p: Plan, id: Id, at: int64)
    requires hide AddTimerCancellation, Inv, Timely, TimeoutSettled;
             Inv(s) && id in s.tasks && Leased(s.tasks[id])
    requires p.state.timers == s.timers && p.state.id == s.id && Timely(p.state, at)
    ensures var r := AddTimerCancellation(p, TimerTimeout, id, s.tasks[id].attemptId, at);
            && (p.state.version < MAX_UINT64 ==> r.Ok?)
            && (r.Ok? ==>
                  && r.value.state.version >= p.state.version
                  && r.value.state == p.state.(timers := TimeoutSettled(s, id, TimerCancelled),
                                               version := r.value.state.version, updatedAt := r.value.state.updatedAt)
                  && r.value.state.updatedAt in {p.state.updatedAt, at})
  {
    TimeoutLookup(s, id);
    if s.tasks[id].definition.timeout > 0 {
      assert TaskOk(s.id, s.version, id, s.tasks[id], s.timers);
      assert IsScheduled(s.timers, TimeoutKey(s, id));
      TimerCancelAddition(p, TimeoutKey(s, id), at);
    }
    hide Add, Inv;
  }

  /** An accepted renewal. */
  ghost predicate Renews(s: Workflow, c: Command, s': Workflow) {
    && Holds(s, c) && s.version < MAX_UINT64
    && var t := s.tasks[c.task];
       && c.at < t.leaseUntil < c.leaseUntil
       && (t.definition.timeout > 0 ==>
             TimeoutKey(s, c.task) in s.timers && c.leaseUntil <= s.timers[TimeoutKey(s, c.task)].deadline)
       && s' == s.(tasks := s.tasks[c.task := t.(leaseUntil := c.leaseUntil)], version := s.version + 1,
           updatedAt := c.at)
  }

  lemma {:induction false} RenewForm(s: Workflow, c: Command)
    requires hide DecideRenew, Inv, Renews;
             Inv(s) && DecideRenew(s, c).Ok?
    ensures Renews(s, c, DecideRenew(s, c).value.state)
  {
    hide Add, TimersOk, StatusOk, SagaOk, GraphOk;
    var t := s.tasks[c.task];
    assert TaskOk(s.id, s.version, c.task, t, s.timers);
    TimeoutLookup(s, c.task);
    AddsRenewed(Plan(s, []), AttemptEvent(EventLeaseRenewed, s, t, c).(leaseUntil := c.leaseUntil));
    hide Inv;
  }

  function ExpiredTask(t: Task): Task {
    t.(status := if t.compensation then TaskCompensating else TaskReady,
       attemptId := NO_ID, inputs := map[], startedAt := 0, worker := "", leaseUntil := 0)
  }

  /** An accepted lease expiry. */
  ghost predicate Expires(s: Workflow, c: Command, s': Workflow) {
    hide Replaces;
    && Holds(s, c) && c.at >= s.tasks[c.task].leaseUntil
    && Replaces(s, c.task, ExpiredTask(s.tasks[c.task]), TimerCancelled, c.at, s')
  }

  lemma {:induction false} ExpireForm(s: Workflow, c: Command)
    requires hide DecideExpire, Expires, Inv;
             Inv(s) && DecideExpire(s, c).Ok?
    ensures Expires(s, c, DecideExpire(s, c).value.state)
  {
    hide Inv, Add, AddTimerCancellation;
    var t := s.tasks[c.task];
    var e := AttemptEvent(EventLeaseExpired, s, t, c);
    AddsExpired(Plan(s, []), e);
    var p1 := Add(Plan(s, []), e).value;
    TimeoutCancellation(s, p1, c.task, c.at);
    hide TimeoutSettled;
  }

  // ----- Ending an attempt without success -----

  function FailedTask(t: Task, error: string, at: int64): Task {
    t.(status := TaskFailed, error := error, finishedAt := at)
  }

  /** The held attempt of `id` has failed at `at`; what follows from the failure is not decided yet. */
  ghost predicate AttemptFails(s: Workflow, id: Id, error: string, status: TimerStatus, at: int64, s1: Workflow) {
    hide Replaces;
    && id in s.tasks && Leased(s.tasks[id])
    && ((s.status == WorkflowRunning && !s.tasks[id].compensation)
        || (s.status == WorkflowCompensating && s.tasks[id].compensation))
    && status != TimerScheduled
    && Replaces(s, id, FailedTask(s.tasks[id], error, at), status, at, s1)
  }

  function RetriedTask(t: Task): Task {
    t.(status := TaskPending, retryCount := Next32(t.retryCount), attemptId := NO_ID, inputs := map[], startedAt := 0,
       worker := "", leaseUntil := 0)
  }

  /** The failed attempt in `s1` is retried. */
  ghost predicate Retries(s1: Workflow, id: Id, at: int64, s': Workflow) {
    hide RetryDelay;
    && id in s1.tasks && s'.version > s1.version
    && var t := s1.tasks[id];
       var delay := RetryDelay(t.definition.retry, t.retryCount);
       && RetriesLeft(t) && !AddsPast(at, delay)
       && s' == s1.(tasks := s1.tasks[id := RetriedTask(t)],
                    timers := s1.timers[TimerID(s1.id, id, TimerRetry, t.attempt) := RetryTimer(s1, id, t, at + delay)],
                    version := s'.version, updatedAt := at)
  }

  lemma {:induction false} RetryTimed(p: Plan, timer: Timer, at: int64)
    requires hide Add;
             timer.status == TimerScheduled
    ensures var r := Add(p, TimerEvent(EventTimerScheduled, p.state.id, timer, at));
            r.Ok? ==> && p.state.version < MAX_UINT64
                      && r.value.state == p.state.(timers := p.state.timers[timer.id := timer],
                                                   version := p.state.version + 1, updatedAt := at)
  {
    hide Add;
    AddsTimerScheduled(p, TimerEvent(EventTimerScheduled, p.state.id, timer, at));
  }

  function RetryEvent(s: Workflow, id: Id, t: Task, timer: Timer, compensation: bool, at: int64): Event {
    Event(EventTaskRetryScheduled, s.id, at, task := id, attemptId := t.attemptId, attempt := t.attempt,
          fence := t.fence, timer := Some(timer), compensation := compensation)
  }

  lemma {:induction false} RetryNoted(p: Plan, id: Id, t: Task, timer: Timer, compensation: bool, at: int64)
    requires hide Add;
             id in p.state.tasks && p.state.tasks[id] == t
    ensures var r := Add(p, RetryEvent(p.state, id, t, timer, compensation, at));
            r.Ok? ==> && p.state.version < MAX_UINT64
                      && r.value.state == p.state.(tasks := p.state.tasks[id := RetriedTask(t)],
                                                   version := p.state.version + 1, updatedAt := at)
  {
    hide Add;
    AddsRetryScheduled(p, RetryEvent(p.state, id, t, timer, compensation, at));
  }

  lemma {:induction false} RetryForm(p: Plan, id: Id, compensation: bool, at: int64)
    requires hide AddRetry, Retries;
             AddRetry(p, id, compensation, at).Ok?
    ensures AddRetry(p, id, compensation, at).value.None? ==> id in p.state.tasks && !RetriesLeft(p.state.tasks[id])
    ensures AddRetry(p, id, compensation, at).value.Some? ==>
              var q := AddRetry(p, id, compensation, at).value.value;
              Retries(p.state, id, at, q.state)
  {
    hide Add, RetryDelay;
    var t := p.state.tasks[id];
    if RetriesLeft(t) {
      var delay := RetryDelay(t.definition.retry, t.retryCount);
      var timer := RetryTimer(p.state, id, t, at + delay);
      RetryTimed(p, timer, at);
      var p1 := Add(p, TimerEvent(EventTimerScheduled, p.state.id, timer, at)).value;
      RetryNoted(p1, id, t, timer, compensation, at);
    }
  }

  /** Forward work is wound down: every open task and every scheduled timer is cancelled. */
  ghost predicate WindsDown(s1: Workflow, at: int64, s2: Workflow) {
    && s2.version >= s1.version && s2.updatedAt in {s1.updatedAt, at}
    && s2 == s1.(tasks := CancelAll(s1.tasks, at), timers := CancelTimers(s1.timers), version := s2.version,
        updatedAt := s2.updatedAt)
  }

  /** The next compensation begins. */
  ghost predicate BeginsCompensation(s2: Workflow, at: int64, s': Workflow) {
    hide NextCompensation;
    && s2.version < MAX_UINT64
    && exists next :: NextCompensation(s2.tasks) == Some(next)
                      && s' == s2.(status := WorkflowCompensating,
                          tasks := s2.tasks[next := CompensatingTask(s2.tasks[next])],
                                   version := s2.version + 1, updatedAt := at)
  }

  /** Nothing is left to compensate and the workflow ends as `status`. */
  ghost predicate Ends(s2: Workflow, status: WorkflowStatus, at: int64, s': Workflow) {
    s2.version < MAX_UINT64 && s' == s2.(status := status, version := s2.version + 1, updatedAt := at)
  }

  /** Winding down, then compensating or ending as `status`. */
  ghost predicate Concludes(s1: Workflow, status: WorkflowStatus, at: int64, s': Workflow) {
    exists s2 :: WindsDown(s1, at, s2)
                 && (BeginsCompensation(s2, at, s') || (NextCompensation(s2.tasks).None? && Ends(s2, status, at, s')))
  }

  lemma {:induction false} WindDownForm(p: Plan, at: int64, reason: string)
    requires hide AddActiveCancellations, AddScheduledTimerCancellations, Timely, WindsDown;
             p.state.status in {WorkflowScheduled, WorkflowRunning} && Timely(p.state, at)
             && TimersKeyed(p.state.timers)
    requires AddActiveCancellations(p, at, reason).Ok?
    requires AddScheduledTimerCancellations(AddActiveCancellations(p, at, reason).value, at).Ok?
    ensures var q := AddScheduledTimerCancellations(AddActiveCancellations(p, at, reason).value, at).value;
            WindsDown(p.state, at, q.state)
  {
    hide AddActiveCancellations, AddScheduledTimerCancellations;
    AddActiveCancellationsForm(p, at, reason);
    var q := AddActiveCancellations(p, at, reason).value;
    AddScheduledTimerCancellationsForm(q, at);
  }

  lemma {:induction false} TerminalFailureForm(p: Plan, task: Id, reason: string, at: int64)
    requires hide AddTerminalFailure, Concludes, Timely;
             p.state.status == WorkflowRunning && Timely(p.state, at) && TimersKeyed(p.state.timers)
    requires AddTerminalFailure(p, task, reason, at).Ok?
    ensures Concludes(p.state, WorkflowFailed, at, AddTerminalFailure(p, task, reason, at).value.state)
  {
    hide Add, AddActiveCancellations, AddScheduledTimerCancellations, ChosenCompensation, NextCompensation, Timely,
        WindsDown;
    WindDownForm(p, at, reason);
    var p2 := AddScheduledTimerCancellations(AddActiveCancellations(p, at, reason).value, at).value;
    match NextCompensation(p2.state.tasks) {
      case Some(next) =>
        AddsCompensating(p2, Event(EventWorkflowCompensating, p2.state.id, at, task := next, reason := reason));
      case None =>
        AddsWorkflowFailed(p2, Event(EventWorkflowFailed, p2.state.id, at, task := task, error := reason));
    }
  }

  /** What follows a failed attempt. */
  ghost predicate FailureFollows(s1: Workflow, id: Id, at: int64, s': Workflow) {
    hide Concludes, Retries;
    && id in s1.tasks
    && if RetriesLeft(s1.tasks[id]) then Retries(s1, id, at, s')
       else if s1.tasks[id].compensation then Ends(s1, WorkflowFailed, at, s')
       else Concludes(s1, WorkflowFailed, at, s')
  }

  lemma {:induction false} FailureOutcomeForm(p: Plan, id: Id, compensation: bool, reason: string, failure: string,
                                              at: int64)
    requires hide AddFailureOutcome, FailureFollows, Timely;
             id in p.state.tasks && p.state.tasks[id].compensation == compensation
    requires !compensation ==> p.state.status == WorkflowRunning
    requires Timely(p.state, at) && TimersKeyed(p.state.timers)
    requires AddFailureOutcome(p, id, compensation, reason, failure, at).Ok?
    ensures FailureFollows(p.state, id, at, AddFailureOutcome(p, id, compensation, reason, failure, at).value.state)
  {
    hide Add, AddRetry, AddTerminalFailure, Concludes;
    RetryForm(p, id, compensation, at);
    if AddRetry(p, id, compensation, at).value.None? {
      if compensation {
        AddsWorkflowFailed(p, Event(EventWorkflowFailed, p.state.id, at, task := id, error := failure));
      } else {
        TerminalFailureForm(p, id, reason, at);
      }
    }
  }

  /** An accepted failure report. */
  ghost predicate Fails(s: Workflow, c: Command, s': Workflow) {
    hide AttemptFails, FailureFollows;
    && Holds(s, c) && c.at < s.tasks[c.task].leaseUntil
    && exists s1 :: AttemptFails(s, c.task, c.error, TimerCancelled, c.at, s1) && FailureFollows(s1, c.task, c.at, s')
  }

  lemma {:induction false} FailForm(s: Workflow, c: Command)
    requires hide DecideFail, Fails, Inv;
             Inv(s) && DecideFail(s, c).Ok?
    ensures Fails(s, c, DecideFail(s, c).value.state)
  {
    hide Add, AddTimerCancellation, AddFailureOutcome;
    var t := s.tasks[c.task];
    var e := AttemptEvent(EventTaskFailed, s, t, c).(error := c.error);
    AddsFailed(Plan(s, []), e);
    var p1 := Add(Plan(s, []), e).value;
    assert p1.state == Stepped(s, s.(tasks := s.tasks[c.task := FailedTask(t, c.error, c.at)]), c.at);
    TimeoutCancellation(s, p1, c.task, c.at);
    var p2 := AddTimerCancellation(p1, TimerTimeout, c.task, c.attemptId, c.at).value;
    SettledKeyed(s, c.task, TimerCancelled);
    assert AttemptFails(s, c.task, c.error, TimerCancelled, c.at, p2.state);
    hide Inv, Replaces;
    FailureOutcomeForm(p2, c.task, t.compensation, c.error, c.error, c.at);
  }

  lemma {:induction false} SettledKeyed(s: Workflow, id: Id, status: TimerStatus)
    requires hide Inv, TimeoutSettled;
             Inv(s) && id in s.tasks
    ensures TimersKeyed(TimeoutSettled(s, id, status))
  {
    hide StatusOk, TasksOk;
  }

  // ----- Timers -----

  /** A due start timer starts the workflow. */
  ghost predicate FiresStart(s: Workflow, c: Command, s': Workflow) {
    hide ReadyAll;
    && s.status == WorkflowScheduled && c.timer in s.timers && s'.version > s.version
    && var timers := s.timers[c.timer := s.timers[c.timer].(status := TimerFired)];
       s' == s.(status := WorkflowRunning, tasks := ReadyAll(s.tasks, timers), timers := timers,
           version := s'.version, updatedAt := c.at)
  }

  /** A due retry timer makes its task startable. */
  ghost predicate FiresRetry(s: Workflow, c: Command, s': Workflow) {
    && c.timer in s.timers && s.timers[c.timer].status == TimerScheduled && s.timers[c.timer].purpose == TimerRetry
    && s.timers[c.timer].task in s.tasks && s'.version > s.version
    && var id := s.timers[c.timer].task;
       var t := s.tasks[id];
       && t.status == TaskPending && (if t.compensation then s.status == WorkflowCompensating
           else s.status == WorkflowRunning)
       && s' == s.(tasks := s.tasks[id := t.(status := if t.compensation then TaskCompensating else TaskReady)],
                   timers := s.timers[c.timer := s.timers[c.timer].(status := TimerFired)],
                   version := s'.version, updatedAt := c.at)
  }

  /** A due timeout fails the attempt it was scheduled for. */
  ghost predicate FiresTimeout(s: Workflow, c: Command, s': Workflow) {
    hide AttemptFails, FailureFollows;
    && c.timer in s.timers && s.timers[c.timer].status == TimerScheduled && s.timers[c.timer].purpose == TimerTimeout
    && var timer := s.timers[c.timer];
       && timer.task in s.tasks && c.timer == TimeoutKey(s, timer.task)
           && timer.deadline == s.tasks[timer.task].leaseUntil <= c.at
       && exists s1 :: AttemptFails(s, timer.task, "task timed out", TimerFired, c.at, s1)
           && FailureFollows(s1, timer.task, c.at, s')
  }

  /** Firing the timer of a command. */
  lemma {:induction false} TimerFiring(s: Workflow, c: Command)
    requires hide Add;
             c.timer in s.timers && s.timers[c.timer].status == TimerScheduled && s.timers[c.timer].id == c.timer
    requires c.at >= s.timers[c.timer].deadline
    ensures var e := TimerEvent(EventTimerFired, s.id, s.timers[c.timer], c.at);
            && (Add(Plan(s, []), e).Ok? <==> Follows(s, e))
            && (Add(Plan(s, []), e).Ok? ==>
                  Add(Plan(s, []), e).value ==
                  Plan(Stepped(s, s.(timers := s.timers[c.timer := s.timers[c.timer].(status := TimerFired)]), c.at),
                      [e]))
  {
    AddsTimerFired(Plan(s, []), TimerEvent(EventTimerFired, s.id, s.timers[c.timer], c.at));
    hide Add;
  }

  lemma {:induction false} FireStartForm(s: Workflow, c: Command)
    requires hide Inv, DecideFireTimer, FiresStart;
             Inv(s) && DecideFireTimer(s, c).Ok? && c.timer in s.timers
             && s.timers[c.timer].purpose == TimerWorkflowStart
    ensures FiresStart(s, c, DecideFireTimer(s, c).value.state)
  {
    hide Add, AddReadyTasks, AddFailureOutcome;
    var timer := s.timers[c.timer];
    TimerFiring(s, c);
    var p := Add(Plan(s, []), TimerEvent(EventTimerFired, s.id, timer, c.at)).value;
    var e := Event(EventWorkflowStarted, s.id, c.at, timer := Some(timer));
    AddsWorkflowStarted(p, e);
    var p1 := Add(p, e).value;
    hide Inv;
    AddReadyForm(p1, c.at);
  }

  lemma {:induction false} FireRetryForm(s: Workflow, c: Command)
    requires hide Inv, DecideFireTimer, FiresRetry;
             Inv(s) && DecideFireTimer(s, c).Ok? && c.timer in s.timers && s.timers[c.timer].purpose == TimerRetry
    ensures FiresRetry(s, c, DecideFireTimer(s, c).value.state)
  {
    hide Add, AddReadyTasks, AddFailureOutcome;
    var timer := s.timers[c.timer];
    TimerFiring(s, c);
    var p := Add(Plan(s, []), TimerEvent(EventTimerFired, s.id, timer, c.at)).value;
    AddsReady(p, Event(EventTaskReady, s.id, c.at, task := timer.task, timer := Some(timer)));
    hide Inv;
  }

  /** The event that reports a timeout. */
  function TimedOutEvent(s: Workflow, timer: Timer, task: Task, at: int64): Event {
    Event(EventTaskTimedOut, s.id, at, task := timer.task, attemptId := timer.attemptId, attempt := timer.attempt,
          worker := task.worker, leaseUntil := task.leaseUntil, fence := timer.fence, idempotency := task.idempotency,
          error := "task timed out", compensation := task.compensation)
  }

  lemma {:induction false} FireTimeoutForm(s: Workflow, c: Command)
    requires hide Inv, DecideFireTimer, FiresTimeout;
             Inv(s) && DecideFireTimer(s, c).Ok? && c.timer in s.timers && s.timers[c.timer].purpose == TimerTimeout
    ensures FiresTimeout(s, c, DecideFireTimer(s, c).value.state)
  {
    hide Add, AddReadyTasks, AddFailureOutcome, StatusOk, SagaOk, GraphOk;
    var timer := s.timers[c.timer];
    assert TimerOk(s.id, s.status, timer, s.tasks);
    var t := s.tasks[timer.task];
    assert TaskOk(s.id, s.version, timer.task, t, s.timers);
    TimerFiring(s, c);
    SettledKeyed(s, timer.task, TimerFired);
    hide Inv, TasksOk, TimersOk;
    var p := Add(Plan(s, []), TimerEvent(EventTimerFired, s.id, timer, c.at)).value;
    var e := TimedOutEvent(s, timer, t, c.at);
    AddsTimedOut(p, e);
    var p1 := Add(p, e).value;
    assert AttemptFails(s, timer.task, "task timed out", TimerFired, c.at, p1.state);
    FailureOutcomeForm(p1, timer.task, t.compensation, "task timed out", "compensation timed out", c.at);
  }

  // ----- Cancel -----

  /** An accepted cancellation. */
  ghost predicate Cancels(s: Workflow, c: Command, s': Workflow) {
    hide Concludes;
    && s.status in {WorkflowScheduled, WorkflowRunning} && s.version < MAX_UINT64
    && Concludes(s.(version := s.version + 1, updatedAt := c.at), WorkflowCancelled, c.at, s')
  }

  lemma {:induction false} CancellationForm(p: Plan, reason: string, at: int64)
    requires hide AddCancellation, Concludes, Timely;
             p.state.status in {WorkflowScheduled, WorkflowRunning} && Timely(p.state, at)
             && TimersKeyed(p.state.timers)
    requires AddCancellation(p, reason, at).Ok?
    ensures Concludes(p.state, WorkflowCancelled, at, AddCancellation(p, reason, at).value.state)
  {
    hide Add, AddActiveCancellations, AddScheduledTimerCancellations, ChosenCompensation, NextCompensation, Timely,
        WindsDown;
    WindDownForm(p, at, reason);
    var p2 := AddScheduledTimerCancellations(AddActiveCancellations(p, at, reason).value, at).value;
    match NextCompensation(p2.state.tasks) {
      case Some(next) =>
        AddsCompensating(p2, Event(EventWorkflowCompensating, p2.state.id, at, task := next, reason := reason));
      case None =>
        AddsWorkflowCancelled(p2, Event(EventWorkflowCancelled, p2.state.id, at, reason := reason));
    }
  }

  lemma {:induction false} CancelForm(s: Workflow, c: Command)
    requires hide Cancels, DecideCancel, Inv;
             Inv(s) && DecideCancel(s, c).Ok?
    ensures Cancels(s, c, DecideCancel(s, c).value.state)
  {
    hide Add, AddCancellation, TrimSpace, Concludes;
    var reason := TrimSpace(c.reason);
    var e := Event(EventWorkflowCancellationRequested, s.id, c.at, reason := reason);
    AddsCancellationRequested(Plan(s, []), e);
    var p := Add(Plan(s, []), e).value;
    assert p.state == s.(version := s.version + 1, updatedAt := c.at);
    assert TimersKeyed(s.timers);
    hide Inv;
    CancellationForm(p, reason, c.at);
  }

  // ----- Complete -----

  function CompensatedTask(t: Task, at: int64): Task {
    t.(status := TaskCompensated, finishedAt := at, worker := "", leaseUntil := 0, compensation := false)
  }

  /** An accepted completion of a compensation. */
  ghost predicate FinishesCompensation(s: Workflow, c: Command, s': Workflow) {
    hide BeginsCompensation, NextCompensation, Replaces;
    && Holds(s, c) && c.at < s.tasks[c.task].leaseUntil && s.tasks[c.task].compensation
    && exists s1 ::
      && Replaces(s, c.task, CompensatedTask(s.tasks[c.task], c.at), TimerCancelled, c.at, s1)
      && (BeginsCompensation(s1, c.at, s') || (NextCompensation(s1.tasks).None?
          && Ends(s1, WorkflowCompensated, c.at, s')))
  }

  lemma {:induction false} CompensationEndForm(p: Plan, at: int64)
    requires hide AddCompensationEnd, BeginsCompensation, NextCompensation;
             AddCompensationEnd(p, p.state.id, at).Ok?
    ensures var s' := AddCompensationEnd(p, p.state.id, at).value.state;
            BeginsCompensation(p.state, at, s') || (NextCompensation(p.state.tasks).None?
                && Ends(p.state, WorkflowCompensated, at, s'))
  {
    hide Add;
    match NextCompensation(p.state.tasks) {
      case Some(next) => AddsCompensating(p, Event(EventWorkflowCompensating, p.state.id, at, task := next));
      case None => AddsWorkflowCompensated(p, Event(EventWorkflowCompensated, p.state.id, at));
    }
  }

  lemma {:induction false} FinishCompensationForm(s: Workflow, c: Command)
    requires hide DecideComplete, FinishesCompensation, Inv;
             Inv(s) && DecideComplete(s, c).Ok? && c.task in s.tasks && s.tasks[c.task].compensation
    ensures FinishesCompensation(s, c, DecideComplete(s, c).value.state)
  {
    hide Add, AddTimerCancellation, AddCompensationEnd, PlanCompleted;
    var t := s.tasks[c.task];
    var e := AttemptEvent(EventTaskCompensated, s, t, c).(output := c.output);
    AddsCompensated(Plan(s, []), e);
    var p1 := Add(Plan(s, []), e).value;
    assert p1.state == Stepped(s, s.(tasks := s.tasks[c.task := CompensatedTask(t, c.at)]), c.at);
    TimeoutCancellation(s, p1, c.task, c.at);
    hide Inv;
    var p2 := AddTimerCancellation(p1, TimerTimeout, c.task, c.attemptId, c.at).value;
    assert Replaces(s, c.task, CompensatedTask(t, c.at), TimerCancelled, c.at, p2.state);
    hide Replaces, BeginsCompensation, Ends, NextCompensation;
    CompensationEndForm(p2, c.at);
  }

  function CompletedTask(t: Task, c: Command, sequence: uint64): Task {
    t.(status := TaskCompleted, output := c.output, finishedAt := c.at, completedSequence := sequence)
  }

  /** The task table after the expansion of a completed fan-out parent. */
  function ExpandedTasks(tasks: map<Id, Task>, id: Id, fanout: FanoutDefinition,
                         expanded: seq<ExpandedTask>): map<Id, Task>
    requires hide SortIds;
             id in tasks && fanout.aggregate in WithChildren(tasks, expanded)
  {
    var all := WithChildren(tasks, expanded);
    var aggregate := all[fanout.aggregate];
    var dependencies := SortIds(aggregate.definition.dependencies + Children(expanded));
    all[fanout.aggregate := aggregate.(definition := aggregate.definition.(dependencies := dependencies))]
       [id := tasks[id].(children := Children(expanded), fanoutExpanded := true)]
  }

  /** The completed task `id` of `s1` is expanded into at most its declared number of children, or has
      no fan-out. */
  ghost predicate Expands(s1: Workflow, id: Id, at: int64, s2: Workflow) {
    hide CanonicalExpansion, ExpandedTasks;
    && id in s1.tasks && s2.version >= s1.version && s2.updatedAt in {s1.updatedAt, at}
    && match s1.tasks[id].definition.fanout
       case None => s2 == s1
       case Some(fanout) =>
         exists expanded ::
           && CanonicalExpansion(s1.id, s1.tasks, s1.tasks[id].definition, fanout, expanded)
           && |expanded| <= fanout.maxItems
           && fanout.aggregate in WithChildren(s1.tasks, expanded)
           && WithChildren(s1.tasks, expanded)[fanout.aggregate].status == TaskPending
           && s2 == s1.(tasks := ExpandedTasks(s1.tasks, id, fanout, expanded), version := s2.version,
               updatedAt := s2.updatedAt)
  }

  lemma {:induction false} MaterializedLength(s: Workflow, parent: TaskDefinition, fanout: FanoutDefinition,
                                              items: seq<FanoutItem>, i: nat)
    requires i <= |items| && MaterializeFrom(s, parent, fanout, items, i).Ok?
    ensures |MaterializeFrom(s, parent, fanout, items, i).value| == |items| - i
    decreases |items| - i
  {
    if i < |items| { MaterializedLength(s, parent, fanout, items, i + 1); }
  }

  lemma {:induction false} CanonicalItemsLength(items: seq<FanoutItem>)
    ensures |CanonicalItems(items)| == |items|
  {
    if items != [] {
      CanonicalItemsLength(items[1..]);
      InsertItemLength(items[0], CanonicalItems(items[1..]));
    }
  }

  lemma {:induction false} InsertItemLength(item: FanoutItem, items: seq<FanoutItem>)
    ensures |InsertItem(item, items)| == |items| + 1
  {
    if items != [] { InsertItemLength(item, items[1..]); }
  }

  lemma {:induction false} ExpansionForm(p: Plan, t: Task, c: Command)
    requires hide AddExpansion, Expands;
             AddExpansion(p, p.state.id, t, c).Ok?
    requires c.task in p.state.tasks && p.state.tasks[c.task].definition == t.definition
    ensures Expands(p.state, c.task, c.at, AddExpansion(p, p.state.id, t, c).value.state)
  {
    hide Add, MaterializeFrom, CanonicalItems, CanonicalExpansion, WithChildren, SortIds;
    if t.definition.fanout.Some? {
      var fanout := t.definition.fanout.value;
      var expanded := MaterializeFanout(p.state, t.definition, fanout, c.fanout).value;
      MaterializedLength(p.state, t.definition, fanout, CanonicalItems(c.fanout), 0);
      CanonicalItemsLength(c.fanout);
      assert |expanded| == |c.fanout| <= MAX_FANOUT_ITEMS;
      AddsFanoutExpanded(p, Event(EventFanoutExpanded, p.state.id, c.at, task := c.task, expanded := expanded));
    }
  }

  /** The workflow after its ready tasks are found and, when all have completed, its end is recorded. */
  ghost predicate Advances(s2: Workflow, at: int64, s': Workflow) {
    var tasks := ReadyAll(s2.tasks, s2.timers);
    && s'.version >= s2.version && s'.updatedAt in {s2.updatedAt, at}
    && s' == s2.(tasks := tasks, status := if AllCompleted(tasks) then WorkflowCompleted else WorkflowRunning,
                 version := s'.version, updatedAt := s'.updatedAt)
  }

  /** An accepted completion of forward work. */
  ghost predicate Completes(s: Workflow, c: Command, s': Workflow) {
    hide Advances, Expands, Replaces;
    && Holds(s, c) && c.at < s.tasks[c.task].leaseUntil && !s.tasks[c.task].compensation && s.version < MAX_UINT64
    && exists s1, s2 ::
      && Replaces(s, c.task, CompletedTask(s.tasks[c.task], c, s.version + 1), TimerCancelled, c.at, s1)
      && Expands(s1, c.task, c.at, s2)
      && Advances(s2, c.at, s')
  }

  lemma {:induction false} AdvanceForm(p: Plan, workflow: Id, at: int64)
    requires hide Add, AddReadyTasks, Advances, Timely;
             p.state.status == WorkflowRunning && Timely(p.state, at) && workflow == p.state.id
    requires AddReadyTasks(p, at).Ok?
    requires AllCompleted(AddReadyTasks(p, at).value.state.tasks) ==>
               Add(AddReadyTasks(p, at).value, Event(EventWorkflowCompleted, workflow, at)).Ok?
    ensures var p4 := AddReadyTasks(p, at).value;
            Advances(p.state, at, (if AllCompleted(p4.state.tasks)
                then Add(p4, Event(EventWorkflowCompleted, workflow, at)).value else p4).state)
  {
    hide Add, AddReadyTasks, AllCompleted;
    AddReadyForm(p, at);
    var p4 := AddReadyTasks(p, at).value;
    if AllCompleted(p4.state.tasks) {
      AddsWorkflowCompleted(p4, Event(EventWorkflowCompleted, workflow, at));
    }
  }

  /** The completion itself, with the timeout cancelled. */
  lemma {:induction false} CompletionForm(s: Workflow, c: Command, p1: Plan, p2: Plan)
    requires hide Add, AddTimerCancellation, Inv, Replaces, Timely;
             Inv(s) && Holds(s, c) && s.version < MAX_UINT64
    requires Add(Plan(s, []), AttemptEvent(EventTaskCompleted, s, s.tasks[c.task], c).(output := c.output)) == Ok(p1)
    requires AddTimerCancellation(p1, TimerTimeout, c.task, c.attemptId, c.at) == Ok(p2)
    ensures Replaces(s, c.task, CompletedTask(s.tasks[c.task], c, s.version + 1), TimerCancelled, c.at, p2.state)
    ensures p2.state.id == s.id && p2.state.status == s.status && Timely(p2.state, c.at)
    ensures c.task in p2.state.tasks && p2.state.tasks[c.task].definition == s.tasks[c.task].definition
  {
    hide Inv, Add, AddTimerCancellation;
    var t := s.tasks[c.task];
    AddsCompleted(Plan(s, []), AttemptEvent(EventTaskCompleted, s, t, c).(output := c.output));
    assert p1.state == Stepped(s, s.(tasks := s.tasks[c.task := CompletedTask(t, c, s.version + 1)]), c.at);
    hide ApplyCompleted;
    TimeoutCancellation(s, p1, c.task, c.at);
    hide TimeoutSettled;
  }

  lemma {:induction false} CompleteForm(s: Workflow, c: Command)
    requires hide Completes, DecideComplete, Inv;
             Inv(s) && DecideComplete(s, c).Ok? && c.task in s.tasks && !s.tasks[c.task].compensation
    ensures Completes(s, c, DecideComplete(s, c).value.state)
  {
    hide Inv, Add, AddTimerCancellation, AddExpansion, AddReadyTasks, AllCompleted, PlanCompensated, Expands,
        Advances, Replaces;
    var t := s.tasks[c.task];
    var e := AttemptEvent(EventTaskCompleted, s, t, c).(output := c.output);
    AddForm(Plan(s, []), e);
    var p1 := Add(Plan(s, []), e).value;
    var p2 := AddTimerCancellation(p1, TimerTimeout, c.task, c.attemptId, c.at).value;
    CompletionForm(s, c, p1, p2);
    ExpansionForm(p2, t, c);
    var p3 := AddExpansion(p2, s.id, t, c).value;
    ExpandsFrame(p2.state, c.task, c.at, p3.state);
    AdvanceForm(p3, s.id, c.at);
    assert Advances(p3.state, c.at, DecideComplete(s, c).value.state);
  }

  lemma {:induction false} ExpandsFrame(s1: Workflow, id: Id, at: int64, s2: Workflow)
    requires Expands(s1, id, at, s2)
    ensures s2.id == s1.id && s2.status == s1.status && s2.timers == s1.timers && s2.updatedAt in {s1.updatedAt, at}
  {
    hide ExpandedTasks;
  }
}
