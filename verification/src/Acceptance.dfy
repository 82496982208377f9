/** When commands are accepted: expiry and timeout once both are due, and the commands of a well-behaved caller. */
module Acceptance {
  import opened Base
  import opened Model
  import opened IdOrder
  import opened Backoff
  import opened Reducer
  import opened Invariant
  import opened Steps
  import opened Forms
  import opened Preservation
  import opened Runs
  import opened Definition
  import opened Submission

  /** The version counter has room for all the events that one command can produce. */
  predicate Room(s: Workflow) {
    s.version + |s.tasks| + |s.timers| + 8 <= MAX_UINT64
  }

  lemma {:induction false} SortedLength(ids: set<Id>)
    ensures |SortedIds(ids)| == |ids|
  {
    if ids != {} { SortedLength(ids - {Least(ids)}); }
  }

  lemma {:induction false} ScheduledFew(timers: map<Id, Timer>)
    ensures |ScheduledIds(timers)| <= |timers|
  {
    SubsetSize(ScheduledIds(timers), timers.Keys);
  }

  lemma {:induction false} SubsetSize<T>(a: set<T>, b: set<T>)
    requires a <= b
    ensures |a| <= |b|
  {
    if x :| x in a {
      SubsetSize(a - {x}, b - {x});
    }
  }

  // ----- Lease expiry -----

  lemma {:induction false} ExpireAccepted(s: Workflow, c: Command)
    requires hide DecideExpire, Inv;
             Inv(s) && Room(s) && Holds(s, c) && c.at >= s.updatedAt && c.at >= s.tasks[c.task].leaseUntil
    requires s.tasks[c.task].definition.timeout > 0 && TimeoutKey(s, c.task) in s.timers
    requires s.timers[TimeoutKey(s, c.task)].deadline <= c.at
    ensures DecideExpire(s, c).Ok? <==> s.tasks[c.task].leaseUntil < s.timers[TimeoutKey(s, c.task)].deadline
  {
    hide Add, AddTimerCancellation;
    var t := s.tasks[c.task];
    var e := AttemptEvent(EventLeaseExpired, s, t, c);
    TimeoutLookup(s, c.task);
    AddsExpired(Plan(s, []), e);
    if t.leaseUntil < s.timers[TimeoutKey(s, c.task)].deadline {
      var p1 := Add(Plan(s, []), e).value;
      TimeoutCancellation(s, p1, c.task, c.at);
    }
    hide Inv;
  }

  // ----- What follows a failure is accepted -----

  lemma {:induction false} RetryAccepted(p: Plan, id: Id, at: int64)
    requires hide AddRetry, RetryDelay, Timely;
             id in p.state.tasks && Timely(p.state, at) && p.state.version + 2 <= MAX_UINT64
    requires var t := p.state.tasks[id];
             && t.status == TaskFailed && t.finishedAt == at && RetriesLeft(t)
             && TimerID(p.state.id, id, TimerRetry, t.attempt) !in p.state.timers
    ensures var t := p.state.tasks[id];
            AddRetry(p, id, t.compensation, at).Ok? <==> !AddsPast(at, RetryDelay(t.definition.retry, t.retryCount))
    ensures var t := p.state.tasks[id];
            AddRetry(p, id, t.compensation, at).Ok? ==> AddRetry(p, id, t.compensation, at).value.Some?
  {
    hide Add, RetryDelay;
    var t := p.state.tasks[id];
    var delay := RetryDelay(t.definition.retry, t.retryCount);
    if !AddsPast(at, delay) {
      var timer := RetryTimer(p.state, id, t, at + delay);
      var e1 := TimerEvent(EventTimerScheduled, p.state.id, timer, at);
      RetryTimerAccepted(p, id, at, at + delay);
      var p1 := Add(p, e1).value;
      AddsRetryScheduled(p1, Event(EventTaskRetryScheduled, p1.state.id, at, task := id, attemptId := t.attemptId,
                                   attempt := t.attempt, fence := t.fence, timer := Some(timer),
                                       compensation := t.compensation));
    }
  }

  lemma {:induction false} RetryTimerAccepted(p: Plan, id: Id, at: int64, deadline: int64)
    requires hide Add, RetryDelay, Timely;
             id in p.state.tasks && Timely(p.state, at) && p.state.version + 1 <= MAX_UINT64
    requires var t := p.state.tasks[id];
             && t.status == TaskFailed && t.finishedAt == at && RetriesLeft(t)
             && !AddsPast(at, RetryDelay(t.definition.retry, t.retryCount))
             && deadline == at + RetryDelay(t.definition.retry, t.retryCount)
    requires TimerID(p.state.id, id, TimerRetry, p.state.tasks[id].attempt) !in p.state.timers
    ensures var timer := RetryTimer(p.state, id, p.state.tasks[id], deadline);
            var added := Add(p, TimerEvent(EventTimerScheduled, p.state.id, timer, at));
            && added.Ok?
            && added.value.state == p.state.(timers := p.state.timers[timer.id := timer],
                version := p.state.version + 1, updatedAt := at)
  {
    hide Add, RetryDelay;
    AddsTimerScheduled(p, TimerEvent(EventTimerScheduled, p.state.id,
        RetryTimer(p.state, id, p.state.tasks[id], deadline), at));
  }

  lemma {:induction false} WindDownAccepted(p: Plan, at: int64, reason: string)
    requires hide AddActiveCancellations, AddScheduledTimerCancellations, Timely;
             p.state.status == WorkflowRunning && Timely(p.state, at) && TimersKeyed(p.state.timers)
    requires p.state.version + |p.state.tasks| + |p.state.timers| <= MAX_UINT64
    ensures AddActiveCancellations(p, at, reason).Ok?
    ensures AddScheduledTimerCancellations(AddActiveCancellations(p, at, reason).value, at).Ok?
    ensures AddScheduledTimerCancellations(AddActiveCancellations(p, at, reason).value, at).value.state.version
            <= p.state.version + |p.state.tasks| + |p.state.timers|
  {
    hide Add, CancelTasksLoop, CancelTimersLoop;
    SortedLength(p.state.tasks.Keys);
    SortedLength(ScheduledIds(p.state.timers));
    ScheduledFew(p.state.timers);
    CancelTasksGrowth(p, SortedIds(p.state.tasks.Keys), at, reason);
    AddActiveCancellationsForm(p, at, reason);
    var q := AddActiveCancellations(p, at, reason).value;
    CancelTimersGrowth(q, SortedIds(ScheduledIds(q.state.timers)), at);
    AddScheduledTimerCancellationsForm(q, at);
    hide CancelAll, CancelTimers, SortedIds, ScheduledIds;
  }

  lemma {:induction false} CancelTasksGrowth(p: Plan, ids: seq<Id>, at: int64, reason: string)
    ensures hide CancelTasksLoop;
            CancelTasksLoop(p, ids, at, reason).Ok?
            ==> CancelTasksLoop(p, ids, at, reason).value.state.version <= p.state.version + |ids|
    decreases |ids|
  {
    hide Add;
    if ids != [] {
      if ids[0] in p.state.tasks && Cancellable(p.state.tasks[ids[0]].status) {
        var e := CancelEvent(p.state.id, ids[0], p.state.tasks[ids[0]], at, reason);
        AddsCancelled(p, e);
        if Add(p, e).Ok? { CancelTasksGrowth(Add(p, e).value, ids[1..], at, reason); }
      } else {
        CancelTasksGrowth(p, ids[1..], at, reason);
      }
    }
  }

  lemma {:induction false} CancelTimersGrowth(p: Plan, ids: seq<Id>, at: int64)
    ensures hide CancelTimersLoop;
            CancelTimersLoop(p, ids, at).Ok?
            ==> CancelTimersLoop(p, ids, at).value.state.version <= p.state.version + |ids|
    decreases |ids|
  {
    hide Add;
    if ids != [] && ids[0] in p.state.timers {
      var e := TimerEvent(EventTimerCancelled, p.state.id, p.state.timers[ids[0]], at);
      AddsTimerCancelled(p, e);
      if Add(p, e).Ok? { CancelTimersGrowth(Add(p, e).value, ids[1..], at); }
    }
  }

  lemma {:induction false} TerminalAccepted(p: Plan, id: Id, reason: string, at: int64)
    requires hide AddTerminalFailure, Timely, Unwindable;
             Unwindable(p.state) && p.state.status == WorkflowRunning && Timely(p.state, at)
    requires id in p.state.tasks && p.state.tasks[id].status == TaskFailed
    requires p.state.version + |p.state.tasks| + |p.state.timers| + 1 <= MAX_UINT64
    ensures AddTerminalFailure(p, id, reason, at).Ok?
  {
    hide Add, AddActiveCancellations, AddScheduledTimerCancellations, Unwindable, WindsDown, CancelAll, Quiet;
    assert TimersKeyed(p.state.timers) by { UnwindableKeyed(p.state); }
    WindDownAccepted(p, at, reason);
    WindDownForm(p, at, reason);
    var p2 := AddScheduledTimerCancellations(AddActiveCancellations(p, at, reason).value, at).value;
    WindDownWinds(p.state, at, p2.state);
    WoundIdle(p2.state);
    WindDownFrame(p.state, id, at, p2.state);
    ConclusionAccepted(p2, id, reason, at);
  }

  lemma {:induction false} UnwindableKeyed(s: Workflow)
    requires Unwindable(s)
    ensures TimersKeyed(s.timers)
  {
    hide GraphOk, SagaOk, SoundTask, Forward;
  }

  lemma {:induction false} WindDownFrame(s1: Workflow, id: Id, at: int64, s2: Workflow)
    requires hide Timely, WindsDown;
             WindsDown(s1, at, s2) && id in s1.tasks && s1.tasks[id].status == TaskFailed && Timely(s1, at)
    ensures id in s2.tasks && s2.tasks[id] == s1.tasks[id] && s2.status == s1.status && s2.id == s1.id && Timely(s2, at)
  {
    hide CancelTimers;
  }

  lemma {:induction false} ConclusionAccepted(p2: Plan, id: Id, reason: string, at: int64)
    requires hide Add, NextCompensation, Timely;
             p2.state.status == WorkflowRunning && Timely(p2.state, at) && p2.state.version < MAX_UINT64
    requires id in p2.state.tasks && p2.state.tasks[id].status == TaskFailed
    requires !HasActive(p2.state.tasks) && !HasScheduledTimers(p2.state.timers)
    ensures NextCompensation(p2.state.tasks).Some? ==>
              Add(p2, Event(EventWorkflowCompensating, p2.state.id, at,
                  task := NextCompensation(p2.state.tasks).value, reason := reason)).Ok?
    ensures Add(p2, Event(EventWorkflowFailed, p2.state.id, at, task := id, error := reason)).Ok?
  {
    hide Add, HasActive, HasScheduledTimers, ChosenCompensation, NextCompensation;
    if NextCompensation(p2.state.tasks).Some? {
      var next := NextCompensation(p2.state.tasks).value;
      AddsCompensating(p2, Event(EventWorkflowCompensating, p2.state.id, at, task := next, reason := reason));
    }
    AddsWorkflowFailed(p2, Event(EventWorkflowFailed, p2.state.id, at, task := id, error := reason));
  }

  lemma {:induction false} WoundIdle(s: Workflow)
    requires Quiet(s)
    ensures !HasActive(s.tasks) && !HasScheduledTimers(s.timers)
  {
    hide SoundState;
    forall id | id in s.tasks ensures !Active(s.tasks[id].status) { assert Settled(s.tasks[id]); }
  }

  lemma {:induction false} NoRetryTimerYet(s: Workflow, id: Id, status: TimerStatus)
    requires hide Inv, TimeoutSettled;
             Inv(s) && id in s.tasks && Leased(s.tasks[id])
    ensures TimerID(s.id, id, TimerRetry, s.tasks[id].attempt) !in TimeoutSettled(s, id, status)
  {
    hide GraphOk, SagaOk, StatusOk, TasksOk;
    var k := TimerID(s.id, id, TimerRetry, s.tasks[id].attempt);
    assert k in s.timers ==> TimerOk(s.id, s.status, s.timers[k], s.tasks);
  }

  /** After a failed attempt the plan goes through unless the retry deadline overflows. */
  lemma {:induction false} FailureAccepted(s: Workflow, p: Plan, id: Id, error: string, status: TimerStatus,
                                           reason: string, failure: string, at: int64)
    requires hide AddFailureOutcome, RetryDelay, StatusOk, TasksOk, TimersOk;
             Inv(s) && Room(s) && at >= 0 && AttemptFails(s, id, error, status, at, p.state)
             && p.state.version <= s.version + 4
    ensures var t := s.tasks[id];
            AddFailureOutcome(p, id, t.compensation, reason, failure, at).Ok? <==>
            !(RetriesLeft(t) && AddsPast(at, RetryDelay(t.definition.retry, t.retryCount)))
  {
    hide Add, AddRetry, AddTerminalFailure, RetryDelay, Room;
    FailedTaskAt(s, id, error, status, at, p.state);
    FailedHeader(s, id, error, status, at, p.state);
    hide TasksOk, TimersOk, StatusOk, GraphOk, SagaOk, TimeoutSettled, Quiet;
    var t := p.state.tasks[id];
    if RetriesLeft(t) {
      NoRetryTimerYet(s, id, status);
      RetryAccepted(p, id, at);
    } else {
      assert AddRetry(p, id, t.compensation, at) == Ok(None) by { RetrySpent(p, id, at); }
      if t.compensation {
        CompensationFails(s, id, error, status, at, p.state);
        QuietFailureAccepted(p, id, failure, at);
      } else {
        FailedUnwindable(s, id, error, status, at, p.state);
        TerminalAccepted(p, id, reason, at);
      }
    }
    hide Inv, Quiet, AttemptFails;
  }

  lemma {:induction false} QuietFailureAccepted(p: Plan, id: Id, failure: string, at: int64)
    requires hide Add, Quiet, Timely;
             Quiet(p.state) && Timely(p.state, at) && p.state.version < MAX_UINT64
    requires id in p.state.tasks && p.state.tasks[id].status == TaskFailed && p.state.status == WorkflowCompensating
    ensures Add(p, Event(EventWorkflowFailed, p.state.id, at, task := id, error := failure)).Ok?
  {
    WoundIdle(p.state);
    hide Add, Quiet, HasActive, HasScheduledTimers;
    AddsWorkflowFailed(p, Event(EventWorkflowFailed, p.state.id, at, task := id, error := failure));
  }

  lemma {:induction false} RetrySpent(p: Plan, id: Id, at: int64)
    requires hide AddRetry;
             id in p.state.tasks && !RetriesLeft(p.state.tasks[id])
    ensures AddRetry(p, id, p.state.tasks[id].compensation, at) == Ok(None)
  {
    hide Add;
  }

  lemma {:induction false} FailedHeader(s: Workflow, id: Id, error: string, status: TimerStatus, at: int64,
                                        s1: Workflow)
    requires hide StatusOk, TasksOk, TimeoutSettled, TimersOk;
             Inv(s) && Room(s) && at >= 0 && AttemptFails(s, id, error, status, at, s1) && s1.version <= s.version + 4
    ensures Timely(s1, at) && s1.version + |s1.tasks| + |s1.timers| + 2 <= MAX_UINT64
    ensures s1.status == s.status && s1.id == s.id && s1.timers == TimeoutSettled(s, id, status)
  {
    hide TasksOk, TimersOk, StatusOk, GraphOk, SagaOk;
    assert s1.tasks.Keys == s.tasks.Keys;
    assert s1.timers.Keys == s.timers.Keys;
    assert |s1.tasks| == |s1.tasks.Keys| && |s.tasks| == |s.tasks.Keys|;
    assert |s1.timers| == |s1.timers.Keys| && |s.timers| == |s.timers.Keys|;
  }

  // ----- Timeout -----

  lemma {:induction false} FireAccepted(s: Workflow, c: Command, id: Id)
    requires hide DecideFireTimer, Inv, RetryDelay;
             Inv(s) && Room(s) && c.at >= s.updatedAt && id in s.tasks && Leased(s.tasks[id])
             && s.tasks[id].definition.timeout > 0
    requires c.timer == TimeoutKey(s, id) && c.timer in s.timers && s.timers[c.timer].deadline <= c.at
    requires s.status in {WorkflowRunning, WorkflowCompensating}
    ensures var t := s.tasks[id];
            DecideFireTimer(s, c).Ok? <==>
            && t.leaseUntil == s.timers[c.timer].deadline
            && !(RetriesLeft(t) && AddsPast(c.at, RetryDelay(t.definition.retry, t.retryCount)))
  {
    hide Add, AddReadyTasks, AddFailureOutcome, RetryDelay;
    assert TaskOk(s.id, s.version, id, s.tasks[id], s.timers);
    var timer := s.timers[c.timer];
    assert TimerOk(s.id, s.status, timer, s.tasks);
    var t := s.tasks[id];
    HeldStatus(s, id);
    TimerFiring(s, c);
    hide TasksOk, TimersOk, StatusOk, GraphOk, SagaOk;
    var p := Add(Plan(s, []), TimerEvent(EventTimerFired, s.id, timer, c.at)).value;
    if t.leaseUntil >= timer.deadline {
      TimeoutFails(s, c, id, p);
      var p1 := Add(p, TimedOutEvent(s, timer, t, c.at)).value;
      FailureAccepted(s, p1, id, "task timed out", TimerFired, "task timed out", "compensation timed out", c.at);
    }
  }

  lemma {:induction false} TimeoutFails(s: Workflow, c: Command, id: Id, p: Plan)
    requires hide Add, AttemptFails, Inv;
             Inv(s) && c.at >= s.updatedAt && id in s.tasks && Leased(s.tasks[id]) && s.tasks[id].definition.timeout > 0
    requires c.timer == TimeoutKey(s, id) && c.timer in s.timers && s.timers[c.timer].deadline <= c.at
    requires s.timers[c.timer].status == TimerScheduled && s.timers[c.timer].task == id && s.version + 2 <= MAX_UINT64
    requires s.tasks[id].leaseUntil >= s.timers[c.timer].deadline
    requires p.state == Stepped(s, s.(timers := s.timers[c.timer := s.timers[c.timer].(status := TimerFired)]), c.at)
    ensures var e := TimedOutEvent(s, s.timers[c.timer], s.tasks[id], c.at);
            && Add(p, e).Ok? && Add(p, e).value.state.version == s.version + 2
            && AttemptFails(s, id, "task timed out", TimerFired, c.at, Add(p, e).value.state)
  {
    hide Add;
    assert TaskOk(s.id, s.version, id, s.tasks[id], s.timers);
    assert TimerOk(s.id, s.status, s.timers[c.timer], s.tasks);
    HeldStatus(s, id);
    AddsTimedOut(p, TimedOutEvent(s, s.timers[c.timer], s.tasks[id], c.at));
    hide Inv;
  }

  /** The holder of `id` gives up its lease. */
  predicate ExpiryOf(s: Workflow, id: Id, c: Command) {
    && id in s.tasks && c.kind == CommandExpire && c.task == id && !Blank(c.request)
    && c.attemptId == s.tasks[id].attemptId && c.worker == s.tasks[id].worker && c.fence == s.tasks[id].fence
  }

  /** The timeout of `id` is fired. */
  predicate TimeoutOf(s: Workflow, id: Id, c: Command) {
    id in s.tasks && c.kind == CommandFireTimer && c.timer == TimeoutKey(s, id) && !Blank(c.request)
  }

  /** Once the lease and the timeout of a held task are both due, lease expiry is accepted exactly when
      the lease ends before the timeout, and the timeout exactly when they end together, barring a retry
      deadline past the 64-bit range; so never both, and without that overflow always one. */
  lemma {:induction false} DeadlineRace(commands: seq<Command>, id: Id, expire: Command, fire: Command)
    requires hide Decide, RetryDelay, Run;
             Run(commands).Some? && Room(Run(commands).value)
    requires var s := Run(commands).value;
             && ExpiryOf(s, id, expire) && TimeoutOf(s, id, fire)
             && Leased(s.tasks[id]) && s.tasks[id].definition.timeout > 0
             && expire.at >= s.updatedAt && expire.at >= s.tasks[id].startedAt + s.tasks[id].definition.timeout
             && fire.at >= s.updatedAt && fire.at >= s.tasks[id].startedAt + s.tasks[id].definition.timeout
    ensures var s := Run(commands).value;
            var t := s.tasks[id];
            var deadline := t.startedAt + t.definition.timeout;
            var overflows := RetriesLeft(t) && AddsPast(fire.at, RetryDelay(t.definition.retry, t.retryCount));
            && (Decide(Some(s), expire).Ok? <==> t.leaseUntil < deadline)
            && (Decide(Some(s), fire).Ok? <==> t.leaseUntil == deadline && !overflows)
            && (!overflows ==> (Decide(Some(s), expire).Ok? <==> Decide(Some(s), fire).Err?))
  {
    hide Run, Decide, DecideExpire, DecideFireTimer, RetryDelay;
    ReachableInv(commands);
    var s := Run(commands).value;
    RaceDue(s, id);
    HeldStatus(s, id);
    DispatchExpire(s, expire);
    DispatchFire(s, fire);
    ExpireAccepted(s, expire);
    FireAccepted(s, fire, id);
    hide Inv;
  }

  lemma {:induction false} RaceDue(s: Workflow, id: Id)
    requires hide Inv;
             Inv(s) && id in s.tasks && Leased(s.tasks[id]) && s.tasks[id].definition.timeout > 0
    ensures s.updatedAt >= 0 && TimeoutKey(s, id) in s.timers
    ensures s.tasks[id].leaseUntil <= s.timers[TimeoutKey(s, id)].deadline == s.tasks[id].startedAt
            + s.tasks[id].definition.timeout
  {
    hide StatusOk, GraphOk, SagaOk;
    assert TaskOk(s.id, s.version, id, s.tasks[id], s.timers);
    assert TimerOk(s.id, s.status, s.timers[TimeoutKey(s, id)], s.tasks);
  }

  lemma {:induction false} DispatchExpire(s: Workflow, c: Command)
    requires c.kind == CommandExpire && !Blank(c.request) && c.at >= 0 && c.at >= s.updatedAt
    ensures Decide(Some(s), c) == DecideExpire(s, c)
  {
    hide DecideExpire, DecideCancel, DecideComplete, DecideFail, DecideFireTimer, DecideRenew, DecideStart,
        DecideSubmit;
  }

  lemma {:induction false} DispatchFire(s: Workflow, c: Command)
    requires c.kind == CommandFireTimer && !Blank(c.request) && c.at >= 0 && c.at >= s.updatedAt
    ensures Decide(Some(s), c) == DecideFireTimer(s, c)
  {
    hide DecideFireTimer, DecideCancel, DecideComplete, DecideExpire, DecideFail, DecideRenew, DecideStart,
        DecideSubmit;
  }

  // ----------------------------------------------------------------------------------------------------
  // When the commands of a well-behaved caller are accepted: a start with a lease that fits, a completion under its
  // lease, a start timer that is due, and a submission of a valid definition.
  // ----------------------------------------------------------------------------------------------------

  // ----- Start -----

  lemma {:induction false} TimeoutNew(s: Workflow, id: Id, n: uint32)
    requires hide TimersOk;
             TimersOk(s) && id in s.tasks && n > s.tasks[id].attempt
    ensures TimerID(s.id, id, TimerTimeout, n) !in s.timers
  {
    forall k | k in s.timers
        ensures k != TimerID(s.id, id, TimerTimeout, n) { assert TimerOk(s.id, s.status, s.timers[k], s.tasks); }
  }

  /** The lease ends after the start, and within the timeout, which fits in 64 bits. */
  predicate LeaseFits(c: Command, timeout: int64) {
    c.at < c.leaseUntil && (timeout > 0 ==> c.at <= MAX_INT64 - timeout && c.leaseUntil <= c.at + timeout)
  }

  lemma {:induction false} LeaseAccepted(s: Workflow, c: Command)
    requires hide Add, Inv, StartedEvent;
             Inv(s) && Room(s) && s.status == WorkflowRunning && c.task in s.tasks
             && s.tasks[c.task].status == TaskReady
    requires s.tasks[c.task].attempt < MAX_UINT32 && c.attemptId == AttemptID(s.id, c.task, s.tasks[c.task].attempt + 1)
    requires !BlankText(c.worker) && c.at >= s.updatedAt && LeaseFits(c, s.tasks[c.task].definition.timeout)
    ensures s.tasks[c.task].fence == s.tasks[c.task].attempt && !s.tasks[c.task].compensation
    ensures Add(Plan(s, []), StartedEvent(s, s.tasks[c.task], c)).Ok?
  {
    hide Add, Inv, LeaseFits;
    ReadyTask(s, c.task);
    StartedAccepted(s, c);
  }

  lemma {:induction false} ReadyTask(s: Workflow, id: Id)
    requires hide Blank, Inv;
             Inv(s) && s.status == WorkflowRunning && id in s.tasks && s.tasks[id].status == TaskReady
    ensures s.tasks[id].fence == s.tasks[id].attempt && !s.tasks[id].compensation && !Blank(s.id) && s.updatedAt >= 0
  {
    hide TimersOk, GraphOk, SagaOk;
    assert TaskOk(s.id, s.version, id, s.tasks[id], s.timers) && HeldBack(s.tasks, id);
  }

  lemma {:induction false} StartedAccepted(s: Workflow, c: Command)
    requires hide Add, StartedEvent, Timely;
             Timely(s, c.at) && s.version < MAX_UINT64 && s.status == WorkflowRunning && c.task in s.tasks
             && !BlankText(c.worker)
    requires var t := s.tasks[c.task];
             && t.status == TaskReady && t.fence == t.attempt < MAX_UINT32 && !t.compensation
             && c.attemptId == AttemptID(s.id, c.task, t.attempt + 1) && LeaseFits(c, t.definition.timeout)
    ensures Add(Plan(s, []), StartedEvent(s, s.tasks[c.task], c)).Ok?
  {
    hide Add;
    AddsStarted(Plan(s, []), StartedEvent(s, s.tasks[c.task], c));
  }

  /** A ready task's start is accepted when its lease fits. */
  lemma {:induction false} StartAccepted(s: Workflow, c: Command)
    requires hide DecideStart, Inv;
             Inv(s) && Room(s) && s.status == WorkflowRunning && c.task in s.tasks
             && s.tasks[c.task].status == TaskReady
    requires s.tasks[c.task].attempt < MAX_UINT32 && c.attemptId == AttemptID(s.id, c.task, s.tasks[c.task].attempt + 1)
    requires !BlankText(c.worker) && c.at >= s.updatedAt && LeaseFits(c, s.tasks[c.task].definition.timeout)
    ensures DecideStart(s, c).Ok?
  {
    hide Add, AddTimeout, Inv;
    LeaseAccepted(s, c);
    var t := s.tasks[c.task];
    StartedForm(s, c);
    var p := Add(Plan(s, []), StartedEvent(s, t, c)).value;
    hide StartedEvent;
    TimeoutAccepted(s, c, p);
  }

  /** What a start leaves of its task. */
  predicate LeasedAs(w: Id, t: Task, t': Task, c: Command)
    requires t.attempt < MAX_UINT32
  {
    && t'.status == TaskRunning && t'.attempt == t.attempt + 1 == t'.fence
        && t'.attemptId == AttemptID(w, c.task, t.attempt + 1)
    && t'.startedAt == c.at && t'.leaseUntil == c.leaseUntil && t'.worker == c.worker && t'.definition == t.definition
  }

  lemma {:induction false} StartedLeased(s: Workflow, t: Task, c: Command)
    requires hide StartedTask;
             t.attempt < MAX_UINT32 && t.fence == t.attempt && !t.compensation
             && c.attemptId == AttemptID(s.id, c.task, t.attempt + 1)
    ensures LeasedAs(s.id, t, StartedTask(s, t, c), c)
  {
  }

  lemma {:induction false} TimeoutAccepted(s: Workflow, c: Command, p: Plan)
    requires hide AddTimeout, Inv, StartedTask;
             Inv(s) && Room(s) && c.task in s.tasks && s.tasks[c.task].attempt < MAX_UINT32
             && s.tasks[c.task].fence == s.tasks[c.task].attempt
    requires !s.tasks[c.task].compensation && c.attemptId == AttemptID(s.id, c.task, s.tasks[c.task].attempt + 1)
             && c.at >= s.updatedAt
    requires LeaseFits(c, s.tasks[c.task].definition.timeout)
    requires p.state == Stepped(s, s.(tasks := s.tasks[c.task := StartedTask(s, s.tasks[c.task], c)]), c.at)
    ensures AddTimeout(p, s.id, s.tasks[c.task].definition.timeout, s.tasks[c.task].attempt + 1, c).Ok?
  {
    hide StartedTask, TasksOk, TimersOk, StatusOk, GraphOk, SagaOk, AddTimeout, LeaseFits, LeasedAs;
    TimeoutNew(s, c.task, s.tasks[c.task].attempt + 1);
    StartedLeased(s, s.tasks[c.task], c);
    assert p.state.tasks[c.task] == StartedTask(s, s.tasks[c.task], c) && p.state.timers == s.timers
        && p.state.id == s.id;
    assert Timely(p.state, c.at) && p.state.version < MAX_UINT64;
    TimeoutScheduled(p, c, s.tasks[c.task]);
  }

  lemma {:induction false} TimeoutScheduled(p: Plan, c: Command, t: Task)
    requires hide AddTimeout, Timely;
             Timely(p.state, c.at) && p.state.version < MAX_UINT64 && c.task in p.state.tasks && t.attempt < MAX_UINT32
    requires LeasedAs(p.state.id, t, p.state.tasks[c.task], c)
             && c.attemptId == AttemptID(p.state.id, c.task, t.attempt + 1)
    requires LeaseFits(c, t.definition.timeout)
             && TimerID(p.state.id, c.task, TimerTimeout, t.attempt + 1) !in p.state.timers
    ensures AddTimeout(p, p.state.id, t.definition.timeout, t.attempt + 1, c).Ok?
  {
    hide Add;
    var timeout := t.definition.timeout;
    if timeout > 0 {
      var timer := TimeoutTimer(p.state.id, c, t.attempt + 1, p.state.tasks[c.task].fence, c.at + timeout);
      AddsTimerScheduled(p, TimerEvent(EventTimerScheduled, p.state.id, timer, c.at));
      assert AcceptsTimer(p.state, timer);
    }
  }

  // ----- Firing the start timer -----

  /** The start timer of a scheduled workflow is accepted from its deadline on. */
  lemma {:induction false} FireStartAccepted(s: Workflow, c: Command)
    requires hide DecideFireTimer, Inv;
             Inv(s) && Room(s) && c.at >= s.updatedAt && c.timer in s.timers
             && s.timers[c.timer].status == TimerScheduled
    requires s.timers[c.timer].purpose == TimerWorkflowStart && c.at >= s.timers[c.timer].deadline
    ensures DecideFireTimer(s, c).Ok?
  {
    hide Add, AddReadyTasks, AddFailureOutcome, TasksOk, StatusOk, GraphOk, SagaOk;
    var timer := s.timers[c.timer];
    assert TimerOk(s.id, s.status, timer, s.tasks) && timer.id == c.timer;
    hide TimersOk;
    TimerFiring(s, c);
    var p := Add(Plan(s, []), TimerEvent(EventTimerFired, s.id, timer, c.at)).value;
    var e := Event(EventWorkflowStarted, s.id, c.at, timer := Some(timer));
    AddsWorkflowStarted(p, e);
    var p1 := Add(p, e).value;
    SortedLength(s.tasks.Keys);
    AddReadyForm(p1, c.at);
  }

  // ----- Expansion -----

  /** Keys do not fall. */
  predicate KeysRise(items: seq<FanoutItem>) {
    forall i | 0 < i < |items| :: !TextBefore(items[i].key, items[i - 1].key)
  }

  lemma {:induction false} InsertRises(item: FanoutItem, items: seq<FanoutItem>)
    requires KeysRise(items)
    ensures KeysRise(InsertItem(item, items)) && InsertItem(item, items) != []
    ensures InsertItem(item, items)[0] in [item] + (if items == [] then [] else [items[0]])
  {
    if items != [] && TextBefore(items[0].key, item.key) {
      var rest := InsertItem(item, items[1..]);
      assert KeysRise(items[1..]) by {
        forall i | 0 < i < |items[1..]|
            ensures !TextBefore(items[1..][i].key, items[1..][i - 1].key) {
            assert !TextBefore(items[i + 1].key, items[i].key); }
      }
      InsertRises(item, items[1..]);
      var all := [items[0]] + rest;
      assert !TextBefore(rest[0].key, items[0].key) by {
        TextTrichotomy(items[0].key, item.key);
        if rest[0] != item { assert rest[0] == items[1]; }
      }
      forall i | 0 < i < |all| ensures !TextBefore(all[i].key, all[i - 1].key) {
        if i > 1 { assert all[i] == rest[i - 1] && all[i - 1] == rest[i - 2]; }
      }
    } else if items != [] {
      TextTrichotomy(items[0].key, item.key);
      var all := [item] + items;
      forall i | 0 < i < |all| ensures !TextBefore(all[i].key, all[i - 1].key) {
        if i > 1 { assert all[i] == items[i - 1] && all[i - 1] == items[i - 2]; }
      }
    }
  }

  lemma {:induction false} CanonicalRises(items: seq<FanoutItem>)
    ensures KeysRise(CanonicalItems(items))
  {
    if items != [] {
      CanonicalRises(items[1..]);
      InsertRises(items[0], CanonicalItems(items[1..]));
    }
  }

  /** What materializing gives, item by item. */
  lemma {:induction false} MaterializedAt(s: Workflow, parent: TaskDefinition, fanout: FanoutDefinition,
                                          items: seq<FanoutItem>, i: nat, k: nat)
    requires hide MaterializeFrom;
             i <= |items| && MaterializeFrom(s, parent, fanout, items, i).Ok?
             && k < |MaterializeFrom(s, parent, fanout, items, i).value|
    ensures |MaterializeFrom(s, parent, fanout, items, i).value| == |items| - i
    ensures var child := MaterializeFrom(s, parent, fanout, items, i).value[k];
            && child.key == items[i + k].key && !BlankText(child.key)
                && (i + k > 0 ==> child.key != items[i + k - 1].key)
            && child.definition == ExpandedDefinition(s.id, parent, fanout, child.key)
                && child.definition.id !in s.tasks
    decreases |items| - i
  {
    MaterializedLength(s, parent, fanout, items, i);
    if k > 0 { MaterializedAt(s, parent, fanout, items, i + 1, k - 1); }
  }

  /** What materializing gives is a canonical expansion. */
  lemma {:induction false} MaterializedCanonical(s: Workflow, parent: TaskDefinition, fanout: FanoutDefinition,
                                                 items: seq<FanoutItem>)
    requires hide CanonicalExpansion, MaterializeFanout;
             MaterializeFanout(s, parent, fanout, items).Ok?
    ensures CanonicalExpansion(s.id, s.tasks, parent, fanout, MaterializeFanout(s, parent, fanout, items).value)
    ensures |MaterializeFanout(s, parent, fanout, items).value| == |items|
  {
    var sorted := CanonicalItems(items);
    var expanded := MaterializeFrom(s, parent, fanout, sorted, 0).value;
    CanonicalItemsLength(items);
    MaterializedLength(s, parent, fanout, sorted, 0);
    CanonicalRises(items);
    hide CanonicalItems, MaterializeFrom, ExpandedDefinition;
    forall i | 0 <= i < |expanded|
      ensures KeyFollows(expanded, i) && expanded[i].key != ""
              && expanded[i].definition == ExpandedDefinition(s.id, parent, fanout, expanded[i].key)
                  && expanded[i].definition.id !in s.tasks
    {
      MaterializedAt(s, parent, fanout, sorted, 0, i);
      if i > 0 {
        MaterializedAt(s, parent, fanout, sorted, 0, i - 1);
        TextTrichotomy(expanded[i - 1].key, expanded[i].key);
      }
    }
  }

  /** Some items cannot be told apart from tasks that are there. */
  predicate Collides(s: Workflow, parent: Id, items: seq<FanoutItem>) {
    exists i :: 0 <= i < |items| && FanoutTaskID(s.id, parent, items[i].key) in s.tasks
  }

  lemma {:induction false} MaterializesFrom(s: Workflow, parent: TaskDefinition, fanout: FanoutDefinition,
                                            items: seq<FanoutItem>, i: nat)
    requires i <= |items| && forall k | i <= k < |items| ::
               !BlankText(items[k].key) && (k > 0 ==> items[k].key != items[k - 1].key)
    requires forall k | i <= k < |items| :: FanoutTaskID(s.id, parent.id, items[k].key) !in s.tasks
    ensures MaterializeFrom(s, parent, fanout, items, i).Ok?
    decreases |items| - i
  {
    if i < |items| { MaterializesFrom(s, parent, fanout, items, i + 1); }
  }

  // ----- Complete -----

  lemma {:induction false} ExpansionAccepted(p: Plan, id: Id, t: Task, c: Command)
    requires hide AddExpansion, MaterializeFanout, Timely;
             p.state.status == WorkflowRunning && Timely(p.state, c.at) && p.state.version < MAX_UINT64 && c.task == id
    requires id in p.state.tasks && p.state.tasks[id].status == TaskCompleted
             && p.state.tasks[id].definition == t.definition
    requires !p.state.tasks[id].fanoutExpanded && t.definition.id == id
    requires t.definition.fanout.None? ==> c.fanout == []
    requires t.definition.fanout.Some? ==>
               && AggregateOpen(p.state.tasks, id, t.definition.fanout.value.aggregate)
                   && |c.fanout| <= t.definition.fanout.value.maxItems
               && MaterializeFanout(p.state, t.definition, t.definition.fanout.value, c.fanout).Ok?
    ensures AddExpansion(p, p.state.id, t, c).Ok?
    ensures AddExpansion(p, p.state.id, t, c).value.state.version <= p.state.version + 1
    ensures |AddExpansion(p, p.state.id, t, c).value.state.tasks| <= |p.state.tasks| + |c.fanout|
  {
    hide Add, MaterializeFanout, ApplyFanoutExpanded;
    if t.definition.fanout.Some? {
      var fanout := t.definition.fanout.value;
      MaterializedCanonical(p.state, t.definition, fanout, c.fanout);
      var expanded := MaterializeFanout(p.state, t.definition, fanout, c.fanout).value;
      var e := Event(EventFanoutExpanded, p.state.id, c.at, task := id, expanded := expanded);
      ExpandedApplies(p.state, PlanStamp(e, p.state.version), t.definition, fanout);
      AddsFanoutExpanded(p, e);
      ExpandedCount(p.state, PlanStamp(e, p.state.version));
    }
  }

  lemma {:induction false} ExpandedApplies(s: Workflow, e: Event, parent: TaskDefinition, fanout: FanoutDefinition)
    requires hide ApplyFanoutExpanded, CanonicalExpansion;
             s.status == WorkflowRunning && e.task in s.tasks && s.tasks[e.task].status == TaskCompleted
    requires s.tasks[e.task].definition == parent && parent.fanout == Some(fanout) && !s.tasks[e.task].fanoutExpanded
    requires AggregateOpen(s.tasks, e.task, fanout.aggregate) && |e.expanded| <= fanout.maxItems
    requires CanonicalExpansion(s.id, s.tasks, parent, fanout, e.expanded)
    ensures ApplyFanoutExpanded(s, e).Ok?
  {
    hide CanonicalExpansion, WithChildren, SortIds, Children;
    forall i | 0 <= i < |e.expanded| ensures e.expanded[i].definition.id !in s.tasks {
      CanonicalFresh(s.id, s.tasks, parent, fanout, e.expanded, i);
    }
    ChildrenAdded(s.tasks, e.expanded);
  }

  lemma {:induction false} CanonicalFresh(w: Id, tasks: map<Id, Task>, parent: TaskDefinition,
                                          fanout: FanoutDefinition, expanded: seq<ExpandedTask>, i: nat)
    requires CanonicalExpansion(w, tasks, parent, fanout, expanded) && i < |expanded|
    ensures expanded[i].definition.id !in tasks
  {
  }

  lemma {:induction false} ChildrenCount(tasks: map<Id, Task>, expanded: seq<ExpandedTask>)
    ensures |WithChildren(tasks, expanded)| <= |tasks| + |expanded|
  {
    if expanded != [] {
      var front, last := expanded[..|expanded| - 1], expanded[|expanded| - 1];
      ChildrenCount(tasks, front);
      OneMore(WithChildren(tasks, front), last.definition.id, ChildTask(last));
    }
  }

  lemma {:induction false} OneMore(tasks: map<Id, Task>, id: Id, t: Task)
    ensures |tasks[id := t]| <= |tasks| + 1 && (id in tasks ==> |tasks[id := t]| == |tasks|)
  {
    assert tasks[id := t].Keys == tasks.Keys + {id};
    assert |tasks[id := t]| == |tasks[id := t].Keys| && |tasks| == |tasks.Keys|;
  }

  lemma {:induction false} ExpandedCount(s: Workflow, e: Event)
    requires hide ApplyFanoutExpanded;
             ApplyFanoutExpanded(s, e).Ok?
    ensures |ApplyFanoutExpanded(s, e).value.tasks| <= |s.tasks| + |e.expanded|
  {
    hide WithChildren, SortIds, CanonicalExpansion, Children;
    ChildrenCount(s.tasks, e.expanded);
    var all, s' := WithChildren(s.tasks, e.expanded), ApplyFanoutExpanded(s, e).value;
    var aggregate := s.tasks[e.task].definition.fanout.value.aggregate;
    assert s'.tasks.Keys == all.Keys + {e.task} by { ChildrenStay(s.tasks, e.expanded); }
    ChildrenStay(s.tasks, e.expanded);
    assert s'.tasks.Keys == all.Keys;
    assert |s'.tasks| == |s'.tasks.Keys| && |all| == |all.Keys|;
  }

  lemma {:induction false} ChildrenStay(tasks: map<Id, Task>, expanded: seq<ExpandedTask>)
    ensures tasks.Keys <= WithChildren(tasks, expanded).Keys
  {
    if expanded != [] { ChildrenStay(tasks, expanded[..|expanded| - 1]); }
  }

  /** What follows a completion is accepted: the ready scan, and the end when everything is completed. */
  lemma {:induction false} AdvanceAccepted(p: Plan, at: int64)
    requires hide Add, AddReadyTasks, ReadyAll, Timely;
             p.state.status == WorkflowRunning && Timely(p.state, at)
             && p.state.version + |p.state.tasks| + 1 <= MAX_UINT64
    requires AllCompleted(ReadyAll(p.state.tasks, p.state.timers)) ==> !HasScheduledTimers(p.state.timers)
    ensures AddReadyTasks(p, at).Ok?
    ensures var p4 := AddReadyTasks(p, at).value;
            AllCompleted(p4.state.tasks) ==> Add(p4, Event(EventWorkflowCompleted, p.state.id, at)).Ok?
  {
    hide Add, AddReadyTasks, AllCompleted, HasScheduledTimers, ReadyAll;
    SortedLength(p.state.tasks.Keys);
    AddReadyForm(p, at);
    ReadyCount(p, at);
    var p4 := AddReadyTasks(p, at).value;
    AddsWorkflowCompleted(p4, Event(EventWorkflowCompleted, p.state.id, at));
  }

  lemma {:induction false} ReadyCount(p: Plan, at: int64)
    requires hide AddReadyTasks;
             AddReadyTasks(p, at).Ok?
    ensures AddReadyTasks(p, at).value.state.version <= p.state.version + |p.state.tasks|
  {
    hide AddReadyLoop;
    SortedLength(p.state.tasks.Keys);
    if p.state.status == WorkflowRunning { ReadyLoopCount(p, SortedIds(p.state.tasks.Keys), at); }
  }

  lemma {:induction false} ReadyLoopCount(p: Plan, ids: seq<Id>, at: int64)
    requires hide AddReadyLoop;
             AddReadyLoop(p, ids, at).Ok?
    ensures AddReadyLoop(p, ids, at).value.state.version <= p.state.version + |ids|
    decreases |ids|
  {
    hide Add;
    if ids != [] {
      if Eligible(p.state.tasks, p.state.timers, ids[0]) {
        var e := ReadyEvent(p.state.id, ids[0], at);
        AddForm(p, e);
        ReadyLoopCount(Add(p, e).value, ids[1..], at);
      } else {
        ReadyLoopCount(p, ids[1..], at);
      }
    }
  }

  /** The command reports on a running forward attempt, in time. */
  ghost predicate InTime(s: Workflow, c: Command) {
    && Holds(s, c) && s.status == WorkflowRunning && c.at >= s.updatedAt && c.at < s.tasks[c.task].leaseUntil
    && (s.tasks[c.task].definition.timeout > 0
        ==> c.at < s.tasks[c.task].startedAt + s.tasks[c.task].definition.timeout)
  }

  /** The items that a completion reports fit the task's fan-out. */
  ghost predicate ItemsFit(s: Workflow, c: Command) {
    hide MaterializeFanout;
    && c.task in s.tasks
    && match s.tasks[c.task].definition.fanout
       case None => c.fanout == []
       case Some(fanout) =>
         |c.fanout| <= fanout.maxItems
         && MaterializeFanout(s, s.tasks[c.task].definition, fanout, c.fanout).Ok?
  }

  lemma {:induction false} NotDue(s: Workflow, c: Command)
    requires Inv(s) && InTime(s, c)
    ensures !TimeoutDue(s.timers, c.task, c.attemptId, c.at) && !Blank(s.id) && s.updatedAt >= 0
  {
    hide StatusOk, GraphOk, SagaOk, TaskOk;
    var t := s.tasks[c.task];
    assert TaskOk(s.id, s.version, c.task, t, s.timers);
    TimeoutLookup(s, c.task);
    assert t.definition.timeout > 0 ==> TimerOk(s.id, s.status, s.timers[TimeoutKey(s, c.task)], s.tasks);
  }

  lemma {:induction false} CompletionAccepted(s: Workflow, c: Command)
    requires hide Add, AddTimerCancellation, StatusOk, TasksOk, TimersOk;
             Inv(s) && Room(s) && InTime(s, c)
    ensures !TimeoutDue(s.timers, c.task, c.attemptId, c.at) && LeasedTask(s, c) == Ok(s.tasks[c.task])
            && !s.tasks[c.task].compensation
    ensures var e := AttemptEvent(EventTaskCompleted, s, s.tasks[c.task], c).(output := c.output);
            && Add(Plan(s, []), e).Ok?
            && var p1 := Add(Plan(s, []), e).value;
               && AddTimerCancellation(p1, TimerTimeout, c.task, c.attemptId, c.at).Ok?
               && AddTimerCancellation(p1, TimerTimeout, c.task, c.attemptId, c.at).value.state.version <= s.version + 2
  {
    hide Add, Inv;
    var t := s.tasks[c.task];
    NotDue(s, c);
    hide TimeoutDue;
    var e := AttemptEvent(EventTaskCompleted, s, t, c).(output := c.output);
    AddsCompleted(Plan(s, []), e);
    var p1 := Add(Plan(s, []), e).value;
    hide AddTimerCancellation;
    TimeoutCancellation(s, p1, c.task, c.at);
    CancellationCount(p1, c.task, c.attemptId, c.at);
  }

  lemma {:induction false} CancellationCount(p: Plan, task: Id, attemptId: Id, at: int64)
    requires hide AddTimerCancellation;
             AddTimerCancellation(p, TimerTimeout, task, attemptId, at).Ok?
    ensures AddTimerCancellation(p, TimerTimeout, task, attemptId, at).value.state.version <= p.state.version + 1
  {
    hide Add;
    var timer := ScheduledTimer(p.state.timers, TimerTimeout, task, attemptId);
    if timer.Some? { AddForm(p, TimerEvent(EventTimerCancelled, p.state.id, timer.value, at)); }
  }

  /** Once every task is completed, no timer is scheduled. */
  lemma {:induction false} NothingScheduled(s: Workflow, c: Command, s1: Workflow, s2: Workflow)
    requires hide Inv, ReadyAll, Replaces;
             Inv(s) && Holds(s, c) && s.status == WorkflowRunning && s.version < MAX_UINT64
             && !s.tasks[c.task].compensation
    requires Replaces(s, c.task, CompletedTask(s.tasks[c.task], c, s.version + 1), TimerCancelled, c.at, s1)
    requires s2.timers == s1.timers && (forall x | x in s1.tasks ::
               x in s2.tasks && s2.tasks[x].status == s1.tasks[x].status)
    ensures AllCompleted(ReadyAll(s2.tasks, s2.timers)) ==> !HasScheduledTimers(s2.timers)
  {
    hide StatusOk, GraphOk, SagaOk, CompletedTask, TasksOk;
    var tasks := ReadyAll(s2.tasks, s2.timers);
    if AllCompleted(tasks) {
      forall k | k in s2.timers ensures s2.timers[k].status != TimerScheduled {
        if k in s.timers { assert TimerOk(s.id, s.status, s.timers[k], s.tasks); }
        var x := s2.timers[k].task;
        if x in s.tasks && x != c.task { assert s1.tasks[x] == s.tasks[x]; assert x in tasks
            && tasks[x].status == TaskCompleted; }
      }
    }
  }

  lemma {:induction false} ExpandKeepsStatus(s1: Workflow, id: Id, at: int64, s2: Workflow)
    requires hide Expands;
             Expands(s1, id, at, s2)
    ensures s2.timers == s1.timers && forall x | x in s1.tasks ::
              x in s2.tasks && s2.tasks[x].status == s1.tasks[x].status
  {
    if s1.tasks[id].definition.fanout.Some? {
      var fanout := s1.tasks[id].definition.fanout.value;
      var expanded: seq<ExpandedTask> :|
          && CanonicalExpansion(s1.id, s1.tasks, s1.tasks[id].definition, fanout, expanded)
                      && |expanded| <= fanout.maxItems
                      && fanout.aggregate in WithChildren(s1.tasks, expanded)
                      && WithChildren(s1.tasks, expanded)[fanout.aggregate].status == TaskPending
                      && s2 == s1.(tasks := ExpandedTasks(s1.tasks, id, fanout, expanded), version := s2.version,
                          updatedAt := s2.updatedAt);
      forall i | 0 <= i < |expanded|
          ensures expanded[i].definition.id !in s1.tasks {
          CanonicalFresh(s1.id, s1.tasks, s1.tasks[id].definition, fanout, expanded, i); }
      ChildrenAdded(s1.tasks, expanded);
      hide CanonicalExpansion;
      ExpandedStatus(s1.tasks, id, fanout, expanded);
      hide ExpandedTasks;
    }
  }

  lemma {:induction false} ExpandedStatus(tasks: map<Id, Task>, id: Id, fanout: FanoutDefinition,
                                          expanded: seq<ExpandedTask>)
    requires hide ExpandedTasks;
             id in tasks && fanout.aggregate in WithChildren(tasks, expanded)
             && tasks.Keys <= WithChildren(tasks, expanded).Keys
    requires forall x | x in tasks :: WithChildren(tasks, expanded)[x] == tasks[x]
    ensures var tasks2 := ExpandedTasks(tasks, id, fanout, expanded); forall x | x in tasks ::
              x in tasks2 && tasks2[x].status == tasks[x].status
  {
    hide WithChildren, Children, SortIds;
  }

  /** Materializing looks at the identifier and the task names only. */
  lemma {:induction false} MaterializesAlike(s: Workflow, s1: Workflow, parent: TaskDefinition,
                                             fanout: FanoutDefinition, items: seq<FanoutItem>, i: nat)
    requires s.id == s1.id && s.tasks.Keys == s1.tasks.Keys && i <= |items|
    ensures MaterializeFrom(s, parent, fanout, items, i) == MaterializeFrom(s1, parent, fanout, items, i)
    decreases |items| - i
  {
    if i < |items| { MaterializesAlike(s, s1, parent, fanout, items, i + 1); }
  }

  /** A completion in time is accepted when its items fit. */
  lemma {:induction false} CompleteAccepted(s: Workflow, c: Command)
    requires Inv(s) && Room(s) && InTime(s, c) && ItemsFit(s, c)
             && s.version + |s.tasks| + |c.fanout| + 4 <= MAX_UINT64
    ensures DecideComplete(s, c).Ok?
  {
    hide Inv, Add, AddTimerCancellation, AddExpansion, AddReadyTasks, AllCompleted, Expands, Replaces,
        MaterializeFanout, CompletedTask, InTime, TimeoutDue, ItemsFit, PlanCompensated;
    CompletionAccepted(s, c);
    assert Holds(s, c) && s.status == WorkflowRunning && c.at < s.tasks[c.task].leaseUntil by { Timed(s, c); }
    var t := s.tasks[c.task];
    var e := AttemptEvent(EventTaskCompleted, s, t, c).(output := c.output);
    var p1 := Add(Plan(s, []), e).value;
    var p2 := AddTimerCancellation(p1, TimerTimeout, c.task, c.attemptId, c.at).value;
    CompletionForm(s, c, p1, p2);
    CompletedPlan(s, c, p2);
    ExpansionAccepted(p2, c.task, t, c);
    ExpansionForm(p2, t, c);
    var p3 := AddExpansion(p2, s.id, t, c).value;
    ExpandsFrame(p2.state, c.task, c.at, p3.state);
    ExpandKeepsStatus(p2.state, c.task, c.at, p3.state);
    NothingScheduled(s, c, p2.state, p3.state);
    AdvanceAccepted(p3, c.at);
  }

  lemma {:induction false} Timed(s: Workflow, c: Command)
    requires InTime(s, c)
    ensures Holds(s, c) && s.status == WorkflowRunning && c.at < s.tasks[c.task].leaseUntil
  {
  }

  /** The state in which a completion is expanded. */
  lemma {:induction false} CompletedPlan(s: Workflow, c: Command, p2: Plan)
    requires hide Inv, ItemsFit, MaterializeFanout, Replaces;
             Inv(s) && Holds(s, c) && s.status == WorkflowRunning && s.version < MAX_UINT64 && ItemsFit(s, c)
             && !s.tasks[c.task].compensation
    requires Replaces(s, c.task, CompletedTask(s.tasks[c.task], c, s.version + 1), TimerCancelled, c.at, p2.state)
    ensures c.task in p2.state.tasks && |p2.state.tasks| == |s.tasks|
    ensures p2.state.tasks[c.task].status == TaskCompleted && !p2.state.tasks[c.task].fanoutExpanded
            && s.tasks[c.task].definition.id == c.task
    ensures match s.tasks[c.task].definition.fanout
            case None => c.fanout == []
            case Some(fanout) =>
              && AggregateOpen(p2.state.tasks, c.task, fanout.aggregate) && |c.fanout| <= fanout.maxItems
              && MaterializeFanout(p2.state, s.tasks[c.task].definition, fanout, c.fanout).Ok?
  {
    hide StatusOk, GraphOk, SagaOk, TimersOk, TimeoutSettled;
    assert TaskOk(s.id, s.version, c.task, s.tasks[c.task], s.timers);
    OneMore(s.tasks, c.task, p2.state.tasks[c.task]);
    if s.tasks[c.task].definition.fanout.Some? {
      var fanout := s.tasks[c.task].definition.fanout.value;
      AggregateWaits(s, c.task);
      MaterializesAlike(s, p2.state, s.tasks[c.task].definition, fanout, CanonicalItems(c.fanout), 0);
    }
  }

  // ----- Submit -----

  /** The submission of a valid definition of not too many tasks is accepted. */
  lemma {:induction false} SubmitAccepted(c: Command)
    requires hide Blank, DecideSubmit, Submitted, ValidDefinition;
             c.at >= 0 && !Blank(c.workflow) && c.definition.Some? && ValidDefinition(c.definition.value)
    requires |Submitted(c).tasks| + 2 <= MAX_UINT64
    ensures DecideSubmit(None, c).Ok?
  {
    hide Add, AddReadyTasks, ValidDefinition, CanonicalTasks, FreshTasks, ApplyEvent, ReadyAll;
    SubmissionApplies(c);
    var d := c.definition.value;
    var event := Event(EventWorkflowSubmitted, c.workflow, c.at, definition := Some(Canonical(d)));
    var p := Plan(Submitted(c), [event]);
    if Canonical(d).startAt > c.at {
      StartScheduledOk(p, d.startAt, c.at);
    } else {
      SortedLength(p.state.tasks.Keys);
      AddReadyForm(p, c.at);
    }
  }

  lemma {:induction false} StartScheduledOk(p: Plan, deadline: int64, at: int64)
    requires p.state.timers == map[] && p.state.status == WorkflowScheduled && p.state.version < MAX_UINT64
             && Timely(p.state, at) && at <= deadline
    ensures Add(p, TimerEvent(EventTimerScheduled, p.state.id, StartTimer(p.state.id, deadline), at)).Ok?
  {
    hide Add;
    AddsTimerScheduled(p, TimerEvent(EventTimerScheduled, p.state.id, StartTimer(p.state.id, deadline), at));
  }
}
