/** The workflow state machine as functions: internal/core/reducer.go and
    internal/core/workflow_transitions.go. `ApplyEvent` folds one event into a state; `Decide` plans
    the events of a command. */
module Reducer {
  import opened Base
  import opened Model
  import opened IdOrder
  import opened Backoff
  import opened Definition

  // ----- Lookups -----

  predicate TimerMatches(timer: Timer, purpose: TimerPurpose, task: Id, attemptId: Id) {
    && timer.status == TimerScheduled && timer.purpose == purpose && timer.task == task
    && (attemptId == NO_ID || timer.attemptId == attemptId)
  }

  /** scheduledTimer returns whichever match the map iteration meets first. */
  ghost function ScheduledTimer(timers: map<Id, Timer>, purpose: TimerPurpose, task: Id,
                                attemptId: Id): (r: Option<Timer>)
    ensures r.Some? <==> exists id :: id in timers && TimerMatches(timers[id], purpose, task, attemptId)
    ensures r.Some? ==> exists id ::
              id in timers && timers[id] == r.value && TimerMatches(r.value, purpose, task, attemptId)
  {
    if exists id :: id in timers && TimerMatches(timers[id], purpose, task, attemptId) then
      var id :| id in timers && TimerMatches(timers[id], purpose, task, attemptId);
      Some(timers[id])
    else None
  }

  predicate Waiting(timers: map<Id, Timer>, task: Id) {
    exists id :: id in timers && TimerMatches(timers[id], TimerRetry, task, NO_ID)
  }

  predicate HasScheduledTimers(timers: map<Id, Timer>) {
    exists id :: id in timers && timers[id].status == TimerScheduled
  }

  predicate HasActive(tasks: map<Id, Task>) {
    exists id :: id in tasks && Active(tasks[id].status)
  }

  predicate IsCompleted(tasks: map<Id, Task>, id: Id) {
    id in tasks && tasks[id].status == TaskCompleted
  }

  predicate DependenciesCompleted(tasks: map<Id, Task>, task: Task) {
    forall d | d in task.definition.dependencies :: IsCompleted(tasks, d)
  }

  predicate AllCompleted(tasks: map<Id, Task>) {
    forall id | id in tasks :: tasks[id].status == TaskCompleted
  }

  predicate Compensable(tasks: map<Id, Task>, id: Id) {
    id in tasks && tasks[id].status == TaskCompleted && tasks[id].definition.compensation.Some?
  }

  /** `a` is chosen over `b` for compensation. */
  predicate CompensatesBefore(tasks: map<Id, Task>, a: Id, b: Id)
    requires a in tasks && b in tasks
  {
    || tasks[a].completedSequence > tasks[b].completedSequence
    || (tasks[a].completedSequence == tasks[b].completedSequence && Before(b, a))
  }

  ghost predicate ChosenCompensation(tasks: map<Id, Task>, id: Id) {
    hide CompensatesBefore;
    Compensable(tasks, id) && forall c | Compensable(tasks, c) && c != id :: CompensatesBefore(tasks, id, c)
  }

  ghost function NextCompensation(tasks: map<Id, Task>): (r: Option<Id>)
    ensures r.None? <==> !exists id :: Compensable(tasks, id)
    ensures r.Some? ==> ChosenCompensation(tasks, r.value)
  {
    hide ChosenCompensation;
    if exists id :: Compensable(tasks, id) then
      ChosenExists(tasks);
      var id :| ChosenCompensation(tasks, id);
      Some(id)
    else None
  }

  lemma {:induction false} ChosenExists(tasks: map<Id, Task>)
    requires exists id :: Compensable(tasks, id)
    ensures exists id :: ChosenCompensation(tasks, id)
  {
    var candidates := set id | id in tasks && Compensable(tasks, id);
    var id :| Compensable(tasks, id);
    assert id in candidates;
    var m := ChosenAmong(tasks, candidates);
    assert ChosenCompensation(tasks, m);
  }

  lemma {:induction false} ChosenAmong(tasks: map<Id, Task>, candidates: set<Id>) returns (m: Id)
    requires candidates != {} && forall c | c in candidates :: c in tasks
    ensures m in candidates && forall c | c in candidates && c != m :: CompensatesBefore(tasks, m, c)
  {
    m :| m in candidates;
    var rest := candidates - {m};
    if rest != {} {
      var n := ChosenAmong(tasks, rest);
      Trichotomy(m, n);
      if CompensatesBefore(tasks, m, n) {
        forall c | c in candidates && c != m ensures CompensatesBefore(tasks, m, c) {
          if c != n {
            assert CompensatesBefore(tasks, n, c);
            if Before(n, m) && Before(c, n) { Transitive(c, n, m); }
          }
        }
      } else {
        m := n;
      }
    }
  }

  // ----- Applying events -----

  /** applyEvent: envelope checks, then the transition of the event's kind, then version and time. */
  ghost function ApplyEvent(state: Option<Workflow>, e: Event): Result<Workflow> {
    hide ApplySubmission, Blank, Transition;
    var _ :- Need(!Blank(e.workflow) && !Blank(e.request) && e.hash != NoHash && e.at >= 0, ErrInvalidTransition);
    var _ :- Need(e.sequence != 0 && e.id == EventID(e.workflow, e.sequence, e.kind), ErrSequence);
    match state
    case None =>
      var _ :- Need(e.kind == EventWorkflowSubmitted && e.sequence == 1, ErrSequence);
      ApplySubmission(e)
    case Some(s) =>
      var _ :- Need(e.workflow == s.id && e.sequence == Next64(s.version), ErrSequence);
      var _ :- Need(e.at >= s.updatedAt, ErrTimeRegression);
      var next :- Transition(s, e);
      Ok(next.(version := e.sequence, updatedAt := e.at))
  }

  ghost function Transition(s: Workflow, e: Event): Result<Workflow> {
    hide ApplyCompleted, ApplyExpired, ApplyFailed, ApplyFanoutExpanded, ApplyReady, ApplyRenewed, ApplyStarted,
      ApplyTaskCancelled, ApplyTaskCompensated, ApplyTaskRetryScheduled, ApplyTaskTimedOut, ApplyTimerScheduled,
      ApplyTimerTransition, ApplyWorkflowCancelled, ApplyWorkflowCompensated, ApplyWorkflowCompensating,
      ApplyWorkflowCompleted, ApplyWorkflowFailed;
    match e.kind
    case EventTaskReady => ApplyReady(s, e)
    case EventTaskStarted => ApplyStarted(s, e)
    case EventTaskCompleted => ApplyCompleted(s, e)
    case EventTaskFailed => ApplyFailed(s, e)
    case EventWorkflowCompleted => ApplyWorkflowCompleted(s)
    case EventWorkflowFailed => ApplyWorkflowFailed(s, e)
    case EventLeaseRenewed => ApplyRenewed(s, e)
    case EventLeaseExpired => ApplyExpired(s, e)
    case EventWorkflowStarted => ApplyWorkflowStarted(s, e)
    case EventFanoutExpanded => ApplyFanoutExpanded(s, e)
    case EventTimerScheduled => ApplyTimerScheduled(s, e)
    case EventTimerFired => ApplyTimerTransition(s, e, TimerFired)
    case EventTimerCancelled => ApplyTimerTransition(s, e, TimerCancelled)
    case EventTaskRetryScheduled => ApplyTaskRetryScheduled(s, e)
    case EventTaskTimedOut => ApplyTaskTimedOut(s, e)
    case EventTaskCancelled => ApplyTaskCancelled(s, e)
    case EventWorkflowCancellationRequested =>
      var _ :- Need(s.status in {WorkflowScheduled, WorkflowRunning}, ErrInvalidTransition);
      Ok(s)
    case EventWorkflowCompensating => ApplyWorkflowCompensating(s, e)
    case EventTaskCompensated => ApplyTaskCompensated(s, e)
    case EventWorkflowCancelled => ApplyWorkflowCancelled(s)
    case EventWorkflowCompensated => ApplyWorkflowCompensated(s)
    case EventWorkflowSubmitted => Err(ErrInvalidTransition)
    case EventUnknown => Err(ErrInvalidTransition)
  }

  /** The task table of a submitted definition. */
  function FreshTasks(tasks: seq<TaskDefinition>): map<Id, Task> {
    var table := TaskTable(tasks);
    map id | id in table :: Task(table[id], TaskPending)
  }

  ghost function ApplySubmission(e: Event): Result<Workflow> {
    hide Canonical, ValidDefinition;
    var _ :- Need(e.definition.Some? && ValidDefinition(e.definition.value), ErrInvalidDefinition);
    var definition := Canonical(e.definition.value);
    Ok(Workflow(
         e.workflow, definition.name, definition.namespace,
         if definition.startAt > e.at then WorkflowScheduled else WorkflowRunning,
         e.sequence, e.at, FreshTasks(definition.tasks), map[]))
  }

  ghost function ApplyReady(s: Workflow, e: Event): Result<Workflow> {
    var _ :- Need(e.task in s.tasks && s.tasks[e.task].status == TaskPending, ErrInvalidTransition);
    var task := s.tasks[e.task];
    var _ :- Need(if task.compensation then s.status == WorkflowCompensating
            else s.status == WorkflowRunning && DependenciesCompleted(s.tasks, task), ErrInvalidTransition);
    var _ :- Need(!Waiting(s.timers, e.task), ErrInvalidTransition);
    Ok(s.(tasks := s.tasks[e.task := task.(status := if task.compensation then TaskCompensating else TaskReady)]))
  }

  /** A forward attempt of the event's task is running and the event is about it. */
  predicate ForwardLease(s: Workflow, task: Task, e: Event) {
    s.status == WorkflowRunning && task.status == TaskRunning && !task.compensation && !e.compensation
  }

  /** A compensation attempt of the event's task is running and the event is about it. */
  predicate CompensationLease(s: Workflow, task: Task, e: Event) {
    && s.status == WorkflowCompensating && task.status == TaskCompensating && task.worker != ""
    && task.compensation && e.compensation
  }

  /** The event names the attempt that holds the task. */
  predicate SameAttempt(task: Task, e: Event) {
    && task.attemptId == e.attemptId && task.attempt == e.attempt && task.worker == e.worker
    && task.fence == e.fence && task.idempotency == e.idempotency
  }

  /** A scheduled timeout of the attempt is due at `at`. */
  ghost predicate TimeoutDue(timers: map<Id, Timer>, task: Id, attemptId: Id, at: int64) {
    var timer := ScheduledTimer(timers, TimerTimeout, task, attemptId);
    timer.Some? && at >= timer.value.deadline
  }

  ghost function ApplyStarted(s: Workflow, e: Event): Result<Workflow> {
    var _ :- Need(e.task in s.tasks, ErrInvalidTransition);
    var task := s.tasks[e.task];
    var forward := s.status == WorkflowRunning && task.status == TaskReady && !task.compensation && !e.compensation;
    var compensation :=
      && s.status == WorkflowCompensating && task.status == TaskCompensating && task.worker == ""
      && task.compensation && e.compensation;
    var idempotency := if compensation then CompensationIdempotencyKey(s.id, e.task) else IdempotencyKey(s.id, e.task);
    var _ :- Need((forward || compensation) && task.attempt != MAX_UINT32 && task.fence != MAX_UINT64
            && e.attempt == Next32(task.attempt) && e.attemptId == AttemptID(s.id, e.task, e.attempt)
            && !BlankText(e.worker) && e.leaseUntil > e.at
            && e.fence == Next64(task.fence) && e.idempotency == idempotency, ErrInvalidTransition);
    var _ :- Need(task.definition.timeout > 0 ==>
              && e.at <= MAX_INT64 - task.definition.timeout
              && e.leaseUntil <= e.at + task.definition.timeout, ErrInvalidTransition);
    Ok(s.(tasks := s.tasks[e.task := task.(
            status := if forward then TaskRunning else task.status,
            attempt := e.attempt, attemptId := e.attemptId, inputs := e.inputs, startedAt := e.at,
            worker := e.worker, leaseUntil := e.leaseUntil, fence := e.fence, idempotency := e.idempotency,
            error := "")]))
  }

  ghost function ApplyCompleted(s: Workflow, e: Event): Result<Workflow> {
    hide TimeoutDue;
    var _ :- Need(e.task in s.tasks && ForwardLease(s, s.tasks[e.task], e) && SameAttempt(s.tasks[e.task], e)
            && e.at < s.tasks[e.task].leaseUntil, ErrInvalidTransition);
    var _ :- Need(!TimeoutDue(s.timers, e.task, e.attemptId, e.at), ErrInvalidTransition);
    Ok(s.(tasks := s.tasks[e.task := s.tasks[e.task].(
            status := TaskCompleted, output := e.output, finishedAt := e.at, completedSequence := e.sequence)]))
  }

  ghost function ApplyFailed(s: Workflow, e: Event): Result<Workflow> {
    hide TimeoutDue;
    var _ :- Need(e.task in s.tasks, ErrInvalidTransition);
    var task := s.tasks[e.task];
    var _ :- Need((ForwardLease(s, task, e) || CompensationLease(s, task, e)) && SameAttempt(task, e)
            && e.at < task.leaseUntil, ErrInvalidTransition);
    var _ :- Need(!TimeoutDue(s.timers, e.task, e.attemptId, e.at), ErrInvalidTransition);
    Ok(s.(tasks := s.tasks[e.task := task.(
            status := TaskFailed, error := e.error, finishedAt := e.at, compensation := e.compensation)]))
  }

  ghost function ApplyRenewed(s: Workflow, e: Event): Result<Workflow> {
    var _ :- Need(e.task in s.tasks, ErrInvalidTransition);
    var task := s.tasks[e.task];
    var _ :- Need((ForwardLease(s, task, e) || CompensationLease(s, task, e)) && SameAttempt(task, e)
            && e.at < task.leaseUntil && e.leaseUntil > task.leaseUntil, ErrInvalidTransition);
    var timer := ScheduledTimer(s.timers, TimerTimeout, e.task, e.attemptId);
    var _ :- Need(timer.Some? ==> e.leaseUntil <= timer.value.deadline, ErrInvalidTransition);
    Ok(s.(tasks := s.tasks[e.task := task.(leaseUntil := e.leaseUntil)]))
  }

  ghost function ApplyExpired(s: Workflow, e: Event): Result<Workflow> {
    var _ :- Need(e.task in s.tasks, ErrInvalidTransition);
    var task := s.tasks[e.task];
    var _ :- Need((ForwardLease(s, task, e) || CompensationLease(s, task, e)) && SameAttempt(task, e)
            && e.leaseUntil == task.leaseUntil && e.at >= task.leaseUntil, ErrInvalidTransition);
    var timer := ScheduledTimer(s.timers, TimerTimeout, e.task, e.attemptId);
    var _ :- Need(timer.Some? ==> timer.value.deadline > task.leaseUntil, ErrInvalidTransition);
    Ok(s.(tasks := s.tasks[e.task := task.(
            status := if CompensationLease(s, task, e) then TaskCompensating else TaskReady,
            attemptId := NO_ID, inputs := map[], startedAt := 0, worker := "", leaseUntil := 0)]))
  }

  ghost function ApplyWorkflowCompleted(s: Workflow): Result<Workflow> {
    var _ :- Need(s.status == WorkflowRunning && AllCompleted(s.tasks)
        && !HasScheduledTimers(s.timers), ErrInvalidTransition);
    Ok(s.(status := WorkflowCompleted))
  }

  ghost function ApplyWorkflowFailed(s: Workflow, e: Event): Result<Workflow> {
    var _ :- Need(s.status in {WorkflowRunning, WorkflowCompensating}, ErrInvalidTransition);
    var _ :- Need(e.task in s.tasks && s.tasks[e.task].status == TaskFailed, ErrInvalidTransition);
    var _ :- Need(!HasActive(s.tasks) && !HasScheduledTimers(s.timers), ErrInvalidTransition);
    Ok(s.(status := WorkflowFailed))
  }

  ghost function ApplyWorkflowStarted(s: Workflow, e: Event): Result<Workflow> {
    var _ :- Need(s.status == WorkflowScheduled && e.timer.Some?
        && e.timer.value.purpose == TimerWorkflowStart, ErrInvalidTransition);
    var _ :- Need(e.timer.value.id in s.timers && s.timers[e.timer.value.id].status == TimerFired,
        ErrInvalidTransition);
    Ok(s.(status := WorkflowRunning))
  }

  predicate TimerEventMatches(e: Event, timer: Timer) {
    e.task == timer.task && e.attemptId == timer.attemptId && e.attempt == timer.attempt && e.fence == timer.fence
  }

  /** The timer names the current attempt of its task. */
  predicate CurrentTimer(s: Workflow, timer: Timer)
    requires timer.task in s.tasks
  {
    var task := s.tasks[timer.task];
    && timer.id == TimerID(s.id, timer.task, timer.purpose, task.attempt)
    && timer.attemptId == task.attemptId && timer.attempt == task.attempt && timer.fence == task.fence
  }

  /** A negative delay makes the 64-bit guard MaxInt64-delay wrap below every time, so it refuses. */
  predicate AddsPast(at: int64, delay: int64) {
    delay < 0 || at > MAX_INT64 - delay
  }

  predicate AcceptsTimer(s: Workflow, timer: Timer) {
    hide RetryDelay;
    match timer.purpose
    case TimerWorkflowStart =>
      && s.status == WorkflowScheduled && timer.task == NO_ID
      && timer.id == TimerID(s.id, NO_ID, TimerWorkflowStart, 0)
    case TimerRetry =>
      && timer.task in s.tasks && s.tasks[timer.task].status == TaskFailed
      && (var task := s.tasks[timer.task];
          var delay := RetryDelay(task.definition.retry, task.retryCount);
          && !AddsPast(task.finishedAt, delay)
          && timer.deadline == task.finishedAt + delay)
      && CurrentTimer(s, timer)
    case TimerTimeout =>
      && timer.task in s.tasks && Leased(s.tasks[timer.task])
      && (var task := s.tasks[timer.task];
          && task.definition.timeout > 0
          && task.startedAt <= MAX_INT64 - task.definition.timeout
          && timer.deadline == task.startedAt + task.definition.timeout
          && task.leaseUntil <= timer.deadline)
      && CurrentTimer(s, timer)
    case TimerUnknown => false
  }

  ghost function ApplyTimerScheduled(s: Workflow, e: Event): Result<Workflow> {
    hide AcceptsTimer;
    var _ :- Need(e.timer.Some? && e.timer.value.status == TimerScheduled && e.timer.value.id != NO_ID
            && e.timer.value.deadline >= e.at && TimerEventMatches(e, e.timer.value), ErrInvalidTransition);
    var timer := e.timer.value;
    var _ :- Need(timer.id !in s.timers, ErrInvalidTransition);
    var _ :- Need(AcceptsTimer(s, timer), ErrInvalidTransition);
    Ok(s.(timers := s.timers[timer.id := timer]))
  }

  ghost function ApplyTimerTransition(s: Workflow, e: Event, status: TimerStatus): Result<Workflow> {
    var _ :- Need(e.timer.Some? && e.timer.value.status == status
        && TimerEventMatches(e, e.timer.value), ErrInvalidTransition);
    var id := e.timer.value.id;
    var _ :- Need(id in s.timers && s.timers[id].status == TimerScheduled, ErrInvalidTransition);
    var current := s.timers[id];
    var _ :- Need(current.(status := status) == e.timer.value, ErrInvalidTransition);
    var _ :- Need(status == TimerFired ==> e.at >= current.deadline, ErrInvalidTransition);
    Ok(s.(timers := s.timers[current.id := current.(status := status)]))
  }

  /** uint32(n) */
  function Low32(n: nat): uint32 {
    n % 0x1_0000_0000
  }

  function ExpandedDefinition(workflow: Id, parent: TaskDefinition, fanout: FanoutDefinition,
                              key: string): TaskDefinition {
    TaskDefinition(FanoutTaskID(workflow, parent.id, key), fanout.taskType, [parent.id], fanout.retry,
                   fanout.timeout, fanout.compensation, None)
  }

  predicate KeyFollows(expanded: seq<ExpandedTask>, i: nat)
    requires i < |expanded|
  {
    i > 0 ==> TextBefore(expanded[i - 1].key, expanded[i].key)
  }

  /** The expansion is canonical: keys strictly increase, every child is derived from its key, and no
      child exists yet. */
  predicate CanonicalExpansion(workflow: Id, tasks: map<Id, Task>, parent: TaskDefinition, fanout: FanoutDefinition,
                               expanded: seq<ExpandedTask>) {
    && (forall i | 0 <= i < |expanded| :: KeyFollows(expanded, i))
    && (forall i | 0 <= i < |expanded| ::
          && expanded[i].key != ""
          && expanded[i].definition == ExpandedDefinition(workflow, parent, fanout, expanded[i].key)
          && expanded[i].definition.id !in tasks)
  }

  function Children(expanded: seq<ExpandedTask>): seq<Id> {
    seq(|expanded|, i requires 0 <= i < |expanded| => expanded[i].definition.id)
  }

  function ChildTask(child: ExpandedTask): Task {
    Task(child.definition, TaskPending, payload := child.payload)
  }

  /** The task table with the expanded children inserted in order. */
  function WithChildren(tasks: map<Id, Task>, expanded: seq<ExpandedTask>): map<Id, Task> {
    if expanded == [] then tasks
    else
      var last := expanded[|expanded| - 1];
      WithChildren(tasks, expanded[..|expanded| - 1])[last.definition.id := ChildTask(last)]
  }

  ghost function ApplyFanoutExpanded(s: Workflow, e: Event): Result<Workflow> {
    hide CanonicalExpansion, SortIds;
    var _ :- Need(s.status == WorkflowRunning, ErrInvalidTransition);
    var _ :- Need(e.task in s.tasks && s.tasks[e.task].status == TaskCompleted
        && s.tasks[e.task].definition.fanout.Some?
            && !s.tasks[e.task].fanoutExpanded
            && Low32(|e.expanded|) <= s.tasks[e.task].definition.fanout.value.maxItems, ErrInvalidTransition);
    var parent := s.tasks[e.task];
    var fanout := parent.definition.fanout.value;
    var _ :- Need(CanonicalExpansion(s.id, s.tasks, parent.definition, fanout, e.expanded), ErrInvalidTransition);
    var tasks := WithChildren(s.tasks, e.expanded);
    var _ :- Need(fanout.aggregate in tasks && tasks[fanout.aggregate].status == TaskPending
            && e.task in tasks[fanout.aggregate].definition.dependencies, ErrInvalidTransition);
    var aggregate := tasks[fanout.aggregate];
    var dependencies := SortIds(aggregate.definition.dependencies + Children(e.expanded));
    Ok(s.(tasks := tasks
                   [fanout.aggregate := aggregate.(definition := aggregate.definition.(dependencies := dependencies))]
                   [e.task := parent.(children := Children(e.expanded), fanoutExpanded := true)]))
  }

  predicate RetriesLeft(task: Task) {
    Next32(task.retryCount) < task.definition.retry.maxAttempts
  }

  ghost function ApplyTaskRetryScheduled(s: Workflow, e: Event): Result<Workflow> {
    var _ :- Need(e.task in s.tasks && s.tasks[e.task].status == TaskFailed
            && s.tasks[e.task].compensation == e.compensation && e.timer.Some?, ErrInvalidTransition);
    var task := s.tasks[e.task];
    var _ :- Need(e.timer.value.id in s.timers
            && (var timer := s.timers[e.timer.value.id];
                && timer.status == TimerScheduled && timer.purpose == TimerRetry
                && TimerEventMatches(e, timer))
            && RetriesLeft(task), ErrInvalidTransition);
    Ok(s.(tasks := s.tasks[e.task := task.(
            status := TaskPending, retryCount := Next32(task.retryCount), attemptId := NO_ID, inputs := map[],
            startedAt := 0, worker := "", leaseUntil := 0)]))
  }

  ghost function ApplyTaskTimedOut(s: Workflow, e: Event): Result<Workflow> {
    var _ :- Need(e.task in s.tasks, ErrInvalidTransition);
    var task := s.tasks[e.task];
    var _ :- Need((|| (s.status == WorkflowRunning && task.status == TaskRunning && !e.compensation)
             || (s.status == WorkflowCompensating && task.status == TaskCompensating && task.worker != ""
                 && e.compensation))
            && SameAttempt(task, e), ErrInvalidTransition);
    var id := TimerID(s.id, e.task, TimerTimeout, e.attempt);
    var _ :- Need(id in s.timers
            && (var timer := s.timers[id];
                && timer.status == TimerFired && e.at >= timer.deadline && timer.deadline <= task.leaseUntil
                && timer.attemptId == e.attemptId && timer.fence == e.fence), ErrInvalidTransition);
    Ok(s.(tasks := s.tasks[e.task := task.(
            status := TaskFailed, error := e.error, finishedAt := e.at, compensation := e.compensation)]))
  }

  ghost function ApplyTaskCancelled(s: Workflow, e: Event): Result<Workflow> {
    var _ :- Need(s.status in {WorkflowScheduled, WorkflowRunning}, ErrInvalidTransition);
    var _ :- Need(e.task in s.tasks, ErrInvalidTransition);
    var task := s.tasks[e.task];
    var _ :- Need(task.status in {TaskPending, TaskReady, TaskRunning}, ErrInvalidTransition);
    var _ :- Need(task.status == TaskRunning ==>
              task.attemptId == e.attemptId && task.worker == e.worker && task.fence == e.fence, ErrFenced);
    Ok(s.(tasks := s.tasks[e.task := CancelledTask(task, e.at)]))
  }

  function CancelledTask(task: Task, at: int64): Task {
    task.(status := TaskCancelled, finishedAt := at, worker := "", leaseUntil := 0, compensation := false)
  }

  ghost function ApplyWorkflowCompensating(s: Workflow, e: Event): Result<Workflow> {
    hide NextCompensation;
    var _ :- Need(s.status in {WorkflowRunning, WorkflowCompensating}
        && NextCompensation(s.tasks) == Some(e.task), ErrInvalidTransition);
    Ok(s.(status := WorkflowCompensating, tasks := s.tasks[e.task := CompensatingTask(s.tasks[e.task])]))
  }

  function CompensatingTask(task: Task): Task {
    task.(status := TaskCompensating, retryCount := 0, payload := task.output, compensation := true,
          attemptId := NO_ID, inputs := map[], startedAt := 0, finishedAt := 0, worker := "", leaseUntil := 0,
          idempotency := NO_ID)
  }

  ghost function ApplyTaskCompensated(s: Workflow, e: Event): Result<Workflow> {
    hide TimeoutDue;
    var _ :- Need(e.task in s.tasks && CompensationLease(s, s.tasks[e.task], e) && SameAttempt(s.tasks[e.task], e)
            && e.at < s.tasks[e.task].leaseUntil, ErrInvalidTransition);
    var _ :- Need(!TimeoutDue(s.timers, e.task, e.attemptId, e.at), ErrInvalidTransition);
    Ok(s.(tasks := s.tasks[e.task := s.tasks[e.task].(
            status := TaskCompensated, finishedAt := e.at, worker := "", leaseUntil := 0, compensation := false)]))
  }

  ghost function ApplyWorkflowCancelled(s: Workflow): Result<Workflow> {
    hide NextCompensation;
    var _ :- Need(s.status in {WorkflowScheduled, WorkflowRunning} && NextCompensation(s.tasks).None?
            && !HasActive(s.tasks) && !HasScheduledTimers(s.timers), ErrInvalidTransition);
    Ok(s.(status := WorkflowCancelled))
  }

  ghost function ApplyWorkflowCompensated(s: Workflow): Result<Workflow> {
    hide NextCompensation;
    var _ :- Need(s.status == WorkflowCompensating && NextCompensation(s.tasks).None?
            && !HasActive(s.tasks) && !HasScheduledTimers(s.timers), ErrInvalidTransition);
    Ok(s.(status := WorkflowCompensated))
  }

  // ----- Planning -----

  /** eventPlan: the state reached so far and the events that reached it. */
  datatype Plan = Plan(state: Workflow, events: seq<Event>)

  /** The envelope a plan gives an event to validate it. */
  function PlanStamp(e: Event, version: uint64): Event {
    e.(request := Text("plan"), hash := PlanHash, sequence := Next64(version),
       id := EventID(e.workflow, Next64(version), e.kind))
  }

  ghost function Add(p: Plan, e: Event): Result<Plan> {
    hide ApplyEvent, PlanStamp;
    var next :- ApplyEvent(Some(p.state), PlanStamp(e, p.state.version));
    Ok(Plan(next, p.events + [e]))
  }

  function TimerEvent(kind: EventKind, workflow: Id, timer: Timer, at: int64): Event {
    var status := match kind
      case EventTimerFired => TimerFired
      case EventTimerCancelled => TimerCancelled
      case _ => TimerScheduled;
    Event(kind, workflow, at, task := timer.task, attemptId := timer.attemptId, attempt := timer.attempt,
          fence := timer.fence, timer := Some(timer.(status := status)))
  }

  ghost function AddTimerCancellation(p: Plan, purpose: TimerPurpose, task: Id, attemptId: Id,
                                      at: int64): Result<Plan> {
    match ScheduledTimer(p.state.timers, purpose, task, attemptId)
    case None => Ok(p)
    case Some(timer) => Add(p, TimerEvent(EventTimerCancelled, p.state.id, timer, at))
  }

  /** The task should become ready. */
  predicate Eligible(tasks: map<Id, Task>, timers: map<Id, Timer>, id: Id) {
    && id in tasks && tasks[id].status == TaskPending && !tasks[id].compensation
    && !Waiting(timers, id) && DependenciesCompleted(tasks, tasks[id])
  }

  function ReadyEvent(workflow: Id, task: Id, at: int64): Event {
    Event(EventTaskReady, workflow, at, task := task)
  }

  ghost function AddReadyTasks(p: Plan, at: int64): Result<Plan> {
    if p.state.status != WorkflowRunning then Ok(p)
    else AddReadyLoop(p, SortedIds(p.state.tasks.Keys), at)
  }

  ghost function AddReadyLoop(p: Plan, ids: seq<Id>, at: int64): Result<Plan>
    decreases |ids|
  {
    hide Add, Eligible;
    if ids == [] then Ok(p)
    else if Eligible(p.state.tasks, p.state.timers, ids[0]) then
      var q :- Add(p, ReadyEvent(p.state.id, ids[0], at));
      AddReadyLoop(q, ids[1..], at)
    else AddReadyLoop(p, ids[1..], at)
  }

  /** Insertion sort of fan-out items by key. */
  function InsertItem(item: FanoutItem, items: seq<FanoutItem>): seq<FanoutItem> {
    if items == [] then [item]
    else if TextBefore(items[0].key, item.key) then [items[0]] + InsertItem(item, items[1..])
    else [item] + items
  }

  function CanonicalItems(items: seq<FanoutItem>): seq<FanoutItem> {
    if items == [] then [] else InsertItem(items[0], CanonicalItems(items[1..]))
  }

  /** materializeFanout for a task that supports fan-out. */
  function MaterializeFanout(s: Workflow, parent: TaskDefinition, fanout: FanoutDefinition,
                             items: seq<FanoutItem>): Result<seq<ExpandedTask>> {
    hide CanonicalItems, MaterializeFrom;
    var _ :- Need(Low32(|items|) <= fanout.maxItems && |items| <= MAX_FANOUT_ITEMS, ErrInvalidCommand);
    MaterializeFrom(s, parent, fanout, CanonicalItems(items), 0)
  }

  function MaterializeFrom(s: Workflow, parent: TaskDefinition, fanout: FanoutDefinition, items: seq<FanoutItem>,
                           i: nat): Result<seq<ExpandedTask>>
    requires i <= |items|
    decreases |items| - i
  {
    if i == |items| then Ok([])
    else
      var _ :- Need(!BlankText(items[i].key) && (i > 0 ==> items[i].key != items[i - 1].key), ErrInvalidCommand);
      var _ :- Need(FanoutTaskID(s.id, parent.id, items[i].key) !in s.tasks, ErrInvalidTransition);
      var rest :- MaterializeFrom(s, parent, fanout, items, i + 1);
      Ok([ExpandedTask(items[i].key, ExpandedDefinition(s.id, parent, fanout, items[i].key), items[i].payload)] + rest)
  }

  function CancelEvent(workflow: Id, id: Id, task: Task, at: int64, reason: string): Event {
    Event(EventTaskCancelled, workflow, at, task := id, attemptId := task.attemptId, attempt := task.attempt,
          worker := task.worker, fence := task.fence, reason := reason, compensation := task.compensation)
  }

  predicate Cancellable(status: TaskStatus) {
    status in {TaskPending, TaskReady, TaskRunning}
  }

  ghost function AddActiveCancellations(p: Plan, at: int64, reason: string): Result<Plan> {
    CancelTasksLoop(p, SortedIds(p.state.tasks.Keys), at, reason)
  }

  ghost function CancelTasksLoop(p: Plan, ids: seq<Id>, at: int64, reason: string): Result<Plan>
    decreases |ids|
  {
    hide Add;
    if ids == [] then Ok(p)
    else if ids[0] in p.state.tasks && Cancellable(p.state.tasks[ids[0]].status) then
      var q :- Add(p, CancelEvent(p.state.id, ids[0], p.state.tasks[ids[0]], at, reason));
      CancelTasksLoop(q, ids[1..], at, reason)
    else CancelTasksLoop(p, ids[1..], at, reason)
  }

  function ScheduledIds(timers: map<Id, Timer>): set<Id> {
    set id | id in timers && timers[id].status == TimerScheduled
  }

  ghost function AddScheduledTimerCancellations(p: Plan, at: int64): Result<Plan> {
    CancelTimersLoop(p, SortedIds(ScheduledIds(p.state.timers)), at)
  }

  ghost function CancelTimersLoop(p: Plan, ids: seq<Id>, at: int64): Result<Plan>
    decreases |ids|
  {
    hide Add;
    if ids == [] then Ok(p)
    else
      var _ :- Need(ids[0] in p.state.timers, ErrInvalidTransition);
      var q :- Add(p, TimerEvent(EventTimerCancelled, p.state.id, p.state.timers[ids[0]], at));
      CancelTimersLoop(q, ids[1..], at)
  }

  ghost function AddTerminalFailure(p: Plan, task: Id, reason: string, at: int64): Result<Plan> {
    hide Add, AddActiveCancellations, AddScheduledTimerCancellations, NextCompensation;
    var p1 :- AddActiveCancellations(p, at, reason);
    var p2 :- AddScheduledTimerCancellations(p1, at);
    match NextCompensation(p2.state.tasks)
    case Some(next) =>
      Add(p2, Event(EventWorkflowCompensating, p2.state.id, at, task := next, reason := reason))
    case None =>
      Add(p2, Event(EventWorkflowFailed, p2.state.id, at, task := task, error := reason))
  }

  function RetryTimer(s: Workflow, id: Id, task: Task, deadline: int64): Timer {
    Timer(TimerID(s.id, id, TimerRetry, task.attempt), id, TimerRetry, deadline, task.attemptId, task.attempt,
          task.fence, TimerScheduled)
  }

  /** addRetry: None when the retry budget is spent. */
  ghost function AddRetry(p: Plan, id: Id, compensation: bool, at: int64): Result<Option<Plan>> {
    hide Add, RetryDelay;
    var _ :- Need(id in p.state.tasks, ErrInvalidTransition);
    var task := p.state.tasks[id];
    if !RetriesLeft(task) then Ok(None)
    else
      var delay := RetryDelay(task.definition.retry, task.retryCount);
      var _ :- Need(!AddsPast(at, delay), ErrTimeOverflow);
      var timer := RetryTimer(p.state, id, task, at + delay);
      var p1 :- Add(p, TimerEvent(EventTimerScheduled, p.state.id, timer, at));
      var p2 :- Add(p1, Event(EventTaskRetryScheduled, p1.state.id, at, task := id, attemptId := task.attemptId,
                              attempt := task.attempt, fence := task.fence, timer := Some(timer),
                              compensation := compensation));
      Ok(Some(p2))
  }

  // ----- Deciding commands -----

  /** decideCommand. `state` is None when the workflow does not exist. */
  ghost function Decide(state: Option<Workflow>, c: Command): Result<Plan> {
    hide Blank, DecideCancel, DecideComplete, DecideExpire, DecideFail, DecideFireTimer, DecideRenew, DecideStart,
      DecideSubmit;
    var _ :- Need(!Blank(c.request), ErrInvalidCommand);
    var _ :- Need(c.at >= 0, ErrInvalidCommand);
    var _ :- Need(state.Some? ==> c.at >= state.value.updatedAt, ErrTimeRegression);
    match c.kind
    case CommandSubmit => DecideSubmit(state, c)
    case CommandUnknown => Err(ErrInvalidCommand)
    case _ =>
      var _ :- Need(state.Some?, ErrWorkflowNotFound);
      match c.kind
      case CommandStart => DecideStart(state.value, c)
      case CommandComplete => DecideComplete(state.value, c)
      case CommandFail => DecideFail(state.value, c)
      case CommandRenew => DecideRenew(state.value, c)
      case CommandExpire => DecideExpire(state.value, c)
      case CommandFireTimer => DecideFireTimer(state.value, c)
      case _ => DecideCancel(state.value, c)
  }

  ghost function DecideSubmit(state: Option<Workflow>, c: Command): Result<Plan> {
    hide Add, AddReadyTasks, ApplyEvent, Blank, Canonical, PlanStamp, ValidDefinition;
    var _ :- Need(state.None?, ErrWorkflowExists);
    var _ :- Need(!Blank(c.workflow), ErrInvalidCommand);
    var _ :- Need(c.definition.Some? && ValidDefinition(c.definition.value), ErrInvalidDefinition);
    var definition := Canonical(c.definition.value);
    var event := Event(EventWorkflowSubmitted, c.workflow, c.at, definition := Some(definition));
    var first :- ApplyEvent(None, PlanStamp(event, 0));
    var p := Plan(first, [event]);
    if definition.startAt > c.at then
      var timer := Timer(TimerID(c.workflow, NO_ID, TimerWorkflowStart, 0), NO_ID, TimerWorkflowStart,
                         definition.startAt, NO_ID, 0, 0, TimerScheduled);
      Add(p, TimerEvent(EventTimerScheduled, c.workflow, timer, c.at))
    else AddReadyTasks(p, c.at)
  }

  /** decideStart runs a compensation. */
  predicate StartsCompensation(s: Workflow, task: Task) {
    s.status == WorkflowCompensating && task.status == TaskCompensating && task.worker == "" && task.compensation
  }

  /** The outputs of the direct dependencies. */
  function DependencyOutputs(tasks: map<Id, Task>, task: Task): map<Id, map<string, string>> {
    map d | d in task.definition.dependencies :: if d in tasks then tasks[d].output else map[]
  }

  function StartedEvent(s: Workflow, task: Task, c: Command): Event
    requires task.attempt < MAX_UINT32 && task.fence < MAX_UINT64
  {
    var compensation := StartsCompensation(s, task);
    Event(EventTaskStarted, s.id, c.at, task := c.task, attemptId := c.attemptId, attempt := task.attempt + 1,
          inputs := if compensation then map[] else DependencyOutputs(s.tasks, task), worker := c.worker,
          leaseUntil := c.leaseUntil, fence := task.fence + 1,
          idempotency := if compensation then CompensationIdempotencyKey(s.id, c.task)
              else IdempotencyKey(s.id, c.task),
          compensation := compensation)
  }

  function TimeoutTimer(workflow: Id, c: Command, attempt: uint32, fence: uint64, deadline: int64): Timer {
    Timer(TimerID(workflow, c.task, TimerTimeout, attempt), c.task, TimerTimeout, deadline, c.attemptId, attempt,
          fence, TimerScheduled)
  }

  ghost function DecideStart(s: Workflow, c: Command): Result<Plan> {
    hide Add, AddTimeout, Blank, StartedEvent;
    var _ :- Need(s.status in {WorkflowRunning, WorkflowCompensating}, ErrInvalidTransition);
    var _ :- Need(c.task in s.tasks, ErrInvalidCommand);
    var task := s.tasks[c.task];
    var _ :- Need(task.status == TaskReady || StartsCompensation(s, task), ErrInvalidTransition);
    var _ :- Need(!Blank(c.attemptId), ErrInvalidCommand);
    var _ :- Need(!BlankText(c.worker), ErrInvalidCommand);
    var _ :- Need(c.leaseUntil > c.at, ErrInvalidCommand);
    var _ :- Need(task.attempt < MAX_UINT32, ErrAttemptOverflow);
    var _ :- Need(task.fence < MAX_UINT64, ErrFencingOverflow);
    var attempt := task.attempt + 1;
    var _ :- Need(c.attemptId == AttemptID(s.id, c.task, attempt), ErrInvalidCommand);
    var p :- Add(Plan(s, []), StartedEvent(s, task, c));
    AddTimeout(p, s.id, task.definition.timeout, attempt, c)
  }

  /** The timeout of a started attempt. */
  ghost function AddTimeout(p: Plan, workflow: Id, timeout: int64, attempt: uint32, c: Command): Result<Plan> {
    hide Add;
    if timeout > 0 then
      var _ :- Need(c.at <= MAX_INT64 - timeout, ErrTimeOverflow);
      var _ :- Need(c.leaseUntil <= c.at + timeout, ErrInvalidCommand);
      var _ :- Need(c.task in p.state.tasks, ErrInvalidCommand);
      var timer := TimeoutTimer(workflow, c, attempt, p.state.tasks[c.task].fence, c.at + timeout);
      Add(p, TimerEvent(EventTimerScheduled, workflow, timer, c.at))
    else Ok(p)
  }

  /** leasedTask: the command comes from the attempt that holds the task. */
  ghost function LeasedTask(s: Workflow, c: Command): Result<Task> {
    var _ :- Need(c.task in s.tasks, ErrInvalidCommand);
    var task := s.tasks[c.task];
    var forward := s.status == WorkflowRunning && task.status == TaskRunning && !task.compensation;
    var compensation := s.status == WorkflowCompensating && task.status == TaskCompensating && task.worker != ""
        && task.compensation;
    var _ :- Need((forward || compensation) && task.attemptId == c.attemptId && task.worker == c.worker
        && task.fence == c.fence, ErrFenced);
    Ok(task)
  }

  /** The event that reports on the command's attempt. */
  function AttemptEvent(kind: EventKind, s: Workflow, task: Task, c: Command): Event {
    Event(kind, s.id, c.at, task := c.task, attemptId := c.attemptId, attempt := task.attempt, worker := c.worker,
          leaseUntil := task.leaseUntil, fence := c.fence, idempotency := task.idempotency,
          compensation := task.compensation)
  }

  ghost function DecideComplete(s: Workflow, c: Command): Result<Plan> {
    hide PlanCompensated, PlanCompleted, TimeoutDue;
    var task :- LeasedTask(s, c);
    var _ :- Need(c.at < task.leaseUntil, ErrLeaseExpired);
    var _ :- Need(!TimeoutDue(s.timers, c.task, c.attemptId, c.at), ErrLeaseExpired);
    if task.compensation then PlanCompensated(s, task, c) else PlanCompleted(s, task, c)
  }

  ghost function PlanCompensated(s: Workflow, task: Task, c: Command): Result<Plan> {
    hide Add, AddCompensationEnd, AddTimerCancellation;
    var p1 :- Add(Plan(s, []), AttemptEvent(EventTaskCompensated, s, task, c).(output := c.output));
    var p2 :- AddTimerCancellation(p1, TimerTimeout, c.task, c.attemptId, c.at);
    AddCompensationEnd(p2, s.id, c.at)
  }

  /** What follows a finished compensation. */
  ghost function AddCompensationEnd(p: Plan, workflow: Id, at: int64): Result<Plan> {
    hide Add, NextCompensation;
    match NextCompensation(p.state.tasks)
    case Some(next) => Add(p, Event(EventWorkflowCompensating, workflow, at, task := next))
    case None => Add(p, Event(EventWorkflowCompensated, workflow, at))
  }

  ghost function PlanCompleted(s: Workflow, task: Task, c: Command): Result<Plan> {
    hide Add, AddExpansion, AddReadyTasks, AddTimerCancellation;
    var p1 :- Add(Plan(s, []), AttemptEvent(EventTaskCompleted, s, task, c).(output := c.output));
    var p2 :- AddTimerCancellation(p1, TimerTimeout, c.task, c.attemptId, c.at);
    var p3 :- AddExpansion(p2, s.id, task, c);
    var p4 :- AddReadyTasks(p3, c.at);
    if AllCompleted(p4.state.tasks) then Add(p4, Event(EventWorkflowCompleted, s.id, c.at)) else Ok(p4)
  }

  ghost function AddExpansion(p: Plan, workflow: Id, task: Task, c: Command): Result<Plan> {
    hide Add, MaterializeFanout;
    match task.definition.fanout
    case Some(fanout) =>
      var expanded :- MaterializeFanout(p.state, task.definition, fanout, c.fanout);
      Add(p, Event(EventFanoutExpanded, workflow, c.at, task := c.task, expanded := expanded))
    case None =>
      var _ :- Need(|c.fanout| == 0, ErrInvalidCommand);
      Ok(p)
  }

  /** What follows a failed attempt: a retry, or the end of the compensation or of the forward work. */
  ghost function AddFailureOutcome(p: Plan, id: Id, compensation: bool, reason: string, failure: string,
                                   at: int64): Result<Plan> {
    hide Add, AddRetry, AddTerminalFailure;
    var retried :- AddRetry(p, id, compensation, at);
    match retried
    case Some(q) => Ok(q)
    case None =>
      if compensation then Add(p, Event(EventWorkflowFailed, p.state.id, at, task := id, error := failure))
      else AddTerminalFailure(p, id, reason, at)
  }

  ghost function DecideFail(s: Workflow, c: Command): Result<Plan> {
    hide Add, AddFailureOutcome, AddTimerCancellation, TimeoutDue;
    var task :- LeasedTask(s, c);
    var _ :- Need(c.at < task.leaseUntil, ErrLeaseExpired);
    var _ :- Need(!BlankText(c.error), ErrInvalidCommand);
    var _ :- Need(!TimeoutDue(s.timers, c.task, c.attemptId, c.at), ErrLeaseExpired);
    var p1 :- Add(Plan(s, []), AttemptEvent(EventTaskFailed, s, task, c).(error := c.error));
    var p2 :- AddTimerCancellation(p1, TimerTimeout, c.task, c.attemptId, c.at);
    AddFailureOutcome(p2, c.task, task.compensation, c.error, c.error, c.at)
  }

  ghost function DecideRenew(s: Workflow, c: Command): Result<Plan> {
    hide Add;
    var task :- LeasedTask(s, c);
    var _ :- Need(c.at < task.leaseUntil, ErrLeaseExpired);
    var _ :- Need(c.leaseUntil > task.leaseUntil, ErrInvalidCommand);
    var timer := ScheduledTimer(s.timers, TimerTimeout, c.task, c.attemptId);
    var _ :- Need(timer.Some? ==> c.leaseUntil <= timer.value.deadline, ErrInvalidCommand);
    Add(Plan(s, []), AttemptEvent(EventLeaseRenewed, s, task, c).(leaseUntil := c.leaseUntil))
  }

  ghost function DecideExpire(s: Workflow, c: Command): Result<Plan> {
    hide Add, AddTimerCancellation;
    var task :- LeasedTask(s, c);
    var _ :- Need(c.at >= task.leaseUntil, ErrInvalidTransition);
    var timer := ScheduledTimer(s.timers, TimerTimeout, c.task, c.attemptId);
    var _ :- Need(!(timer.Some? && timer.value.deadline <= task.leaseUntil && c.at >= timer.value.deadline),
        ErrInvalidTransition);
    var p :- Add(Plan(s, []), AttemptEvent(EventLeaseExpired, s, task, c));
    AddTimerCancellation(p, TimerTimeout, c.task, c.attemptId, c.at)
  }

  ghost function DecideFireTimer(s: Workflow, c: Command): Result<Plan> {
    hide Add, AddFailureOutcome, AddReadyTasks;
    var _ :- Need(c.timer in s.timers && s.timers[c.timer].status == TimerScheduled, ErrInvalidTransition);
    var timer := s.timers[c.timer];
    var _ :- Need(c.at >= timer.deadline, ErrInvalidTransition);
    var p :- Add(Plan(s, []), TimerEvent(EventTimerFired, s.id, timer, c.at));
    match timer.purpose
    case TimerWorkflowStart =>
      var p1 :- Add(p, Event(EventWorkflowStarted, s.id, c.at, timer := Some(timer)));
      AddReadyTasks(p1, c.at)
    case TimerRetry => Add(p, Event(EventTaskReady, s.id, c.at, task := timer.task, timer := Some(timer)))
    case TimerTimeout =>
      var _ :- Need(timer.task in p.state.tasks && p.state.tasks[timer.task].attemptId == timer.attemptId
              && p.state.tasks[timer.task].fence == timer.fence, ErrFenced);
      var task := p.state.tasks[timer.task];
      var _ :- Need(task.leaseUntil >= timer.deadline, ErrInvalidTransition);
      var p1 :- Add(p, Event(EventTaskTimedOut, s.id, c.at, task := timer.task, attemptId := timer.attemptId,
                             attempt := timer.attempt, worker := task.worker, leaseUntil := task.leaseUntil,
                             fence := timer.fence, idempotency := task.idempotency, error := "task timed out",
                             compensation := task.compensation));
      AddFailureOutcome(p1, timer.task, task.compensation, "task timed out", "compensation timed out", c.at)
    case TimerUnknown => Err(ErrInvalidTransition)
  }

  /** strings.TrimSpace */
  function TrimSpace(s: string): string {
    if |s| > 0 && IsSpace(s[0]) then TrimSpace(s[1..])
    else if |s| > 0 && IsSpace(s[|s| - 1]) then TrimSpace(s[..|s| - 1])
    else s
  }

  ghost function DecideCancel(s: Workflow, c: Command): Result<Plan> {
    hide Add, AddCancellation;
    var _ :- Need(s.status in {WorkflowScheduled, WorkflowRunning}, ErrInvalidTransition);
    var reason := TrimSpace(c.reason);
    var _ :- Need(reason != "", ErrInvalidCommand);
    var p :- Add(Plan(s, []), Event(EventWorkflowCancellationRequested, s.id, c.at, reason := reason));
    AddCancellation(p, reason, c.at)
  }

  /** What follows a cancellation request. */
  ghost function AddCancellation(p: Plan, reason: string, at: int64): Result<Plan> {
    hide Add, AddActiveCancellations, AddScheduledTimerCancellations, NextCompensation;
    var p1 :- AddActiveCancellations(p, at, reason);
    var p2 :- AddScheduledTimerCancellations(p1, at);
    match NextCompensation(p2.state.tasks)
    case Some(next) => Add(p2, Event(EventWorkflowCompensating, p2.state.id, at, task := next, reason := reason))
    case None => Add(p2, Event(EventWorkflowCancelled, p2.state.id, at, reason := reason))
  }
}
