/** A plan is its own replay: the events that a command plans, applied one after another to the state it
    started from, give the state it planned, and number on from its version. */
module Plans {
  import opened Base
  import opened Model
  import opened IdOrder
  import opened Definition
  import opened Reducer

  function Version(state: Option<Workflow>): uint64 {
    if state.Some? then state.value.version else 0
  }

  /** The events of a plan, applied as planning applies them. */
  ghost function PlanAll(state: Option<Workflow>, events: seq<Event>): Result<Option<Workflow>> {
    hide ApplyEvent, PlanStamp;
    if events == [] then Ok(state)
    else
      var before :- PlanAll(state, events[..|events| - 1]);
      var after :- ApplyEvent(before, PlanStamp(events[|events| - 1], Version(before)));
      Ok(Some(after))
  }

  ghost predicate Built(start: Option<Workflow>, p: Plan) {
    PlanAll(start, p.events) == Ok(Some(p.state))
  }

  lemma {:induction false} AddBuilt(start: Option<Workflow>, p: Plan, e: Event)
    requires hide Add, Built;
             Built(start, p)
    ensures Add(p, e).Ok? ==> Built(start, Add(p, e).value)
  {
    hide ApplyEvent;
    if Add(p, e).Ok? {
      var q := Add(p, e).value;
      assert q.events[..|q.events| - 1] == p.events;
    }
  }

  lemma {:induction false} TimerCancellationBuilt(start: Option<Workflow>, p: Plan, purpose: TimerPurpose, task: Id,
                                                  attemptId: Id, at: int64)
    requires hide AddTimerCancellation, Built;
             Built(start, p)
    ensures var r := AddTimerCancellation(p, purpose, task, attemptId, at); r.Ok? ==> Built(start, r.value)
  {
    hide Add, Built;
    match ScheduledTimer(p.state.timers, purpose, task, attemptId)
    case None =>
    case Some(timer) => AddBuilt(start, p, TimerEvent(EventTimerCancelled, p.state.id, timer, at));
  }

  lemma {:induction false} ReadyLoopBuilt(start: Option<Workflow>, p: Plan, ids: seq<Id>, at: int64)
    requires hide AddReadyLoop, Built;
             Built(start, p)
    ensures AddReadyLoop(p, ids, at).Ok? ==> Built(start, AddReadyLoop(p, ids, at).value)
    decreases |ids|
  {
    hide Add, Built, Eligible;
    if ids != [] {
      if Eligible(p.state.tasks, p.state.timers, ids[0]) {
        var e := ReadyEvent(p.state.id, ids[0], at);
        AddBuilt(start, p, e);
        if Add(p, e).Ok? { ReadyLoopBuilt(start, Add(p, e).value, ids[1..], at); }
      } else {
        ReadyLoopBuilt(start, p, ids[1..], at);
      }
    }
  }

  lemma {:induction false} ReadyBuilt(start: Option<Workflow>, p: Plan, at: int64)
    requires hide AddReadyTasks, Built;
             Built(start, p)
    ensures AddReadyTasks(p, at).Ok? ==> Built(start, AddReadyTasks(p, at).value)
  {
    hide Built, AddReadyLoop;
    ReadyLoopBuilt(start, p, SortedIds(p.state.tasks.Keys), at);
  }

  lemma {:induction false} CancelTasksBuilt(start: Option<Workflow>, p: Plan, ids: seq<Id>, at: int64, reason: string)
    requires hide Built, CancelTasksLoop;
             Built(start, p)
    ensures CancelTasksLoop(p, ids, at, reason).Ok? ==> Built(start, CancelTasksLoop(p, ids, at, reason).value)
    decreases |ids|
  {
    hide Add, Built;
    if ids != [] {
      if ids[0] in p.state.tasks && Cancellable(p.state.tasks[ids[0]].status) {
        var e := CancelEvent(p.state.id, ids[0], p.state.tasks[ids[0]], at, reason);
        AddBuilt(start, p, e);
        if Add(p, e).Ok? { CancelTasksBuilt(start, Add(p, e).value, ids[1..], at, reason); }
      } else {
        CancelTasksBuilt(start, p, ids[1..], at, reason);
      }
    }
  }

  lemma {:induction false} CancelTimersBuilt(start: Option<Workflow>, p: Plan, ids: seq<Id>, at: int64)
    requires hide Built, CancelTimersLoop;
             Built(start, p)
    ensures CancelTimersLoop(p, ids, at).Ok? ==> Built(start, CancelTimersLoop(p, ids, at).value)
    decreases |ids|
  {
    hide Add, Built;
    if ids != [] && ids[0] in p.state.timers {
      var e := TimerEvent(EventTimerCancelled, p.state.id, p.state.timers[ids[0]], at);
      AddBuilt(start, p, e);
      if Add(p, e).Ok? { CancelTimersBuilt(start, Add(p, e).value, ids[1..], at); }
    }
  }

  lemma {:induction false} WindDownBuilt(start: Option<Workflow>, p: Plan, at: int64, reason: string)
    requires hide AddActiveCancellations, AddScheduledTimerCancellations, Built;
             Built(start, p)
    ensures AddActiveCancellations(p, at, reason).Ok? ==> Built(start, AddActiveCancellations(p, at, reason).value)
    ensures AddScheduledTimerCancellations(p, at).Ok? ==> Built(start, AddScheduledTimerCancellations(p, at).value)
  {
    hide Built, CancelTasksLoop, CancelTimersLoop;
    CancelTasksBuilt(start, p, SortedIds(p.state.tasks.Keys), at, reason);
    CancelTimersBuilt(start, p, SortedIds(ScheduledIds(p.state.timers)), at);
  }

  lemma {:induction false} TerminalFailureBuilt(start: Option<Workflow>, p: Plan, task: Id, reason: string, at: int64)
    requires hide AddTerminalFailure, Built;
             Built(start, p)
    ensures AddTerminalFailure(p, task, reason, at).Ok? ==> Built(start, AddTerminalFailure(p, task, reason, at).value)
  {
    hide Add, Built, AddActiveCancellations, AddScheduledTimerCancellations, NextCompensation;
    if AddTerminalFailure(p, task, reason, at).Ok? {
      WindDownBuilt(start, p, at, reason);
      var p1 := AddActiveCancellations(p, at, reason).value;
      WindDownBuilt(start, p1, at, reason);
      var p2 := AddScheduledTimerCancellations(p1, at).value;
      match NextCompensation(p2.state.tasks)
      case Some(next) => AddBuilt(start, p2, Event(EventWorkflowCompensating, p2.state.id, at, task := next,
          reason := reason));
      case None => AddBuilt(start, p2, Event(EventWorkflowFailed, p2.state.id, at, task := task, error := reason));
    }
  }

  lemma {:induction false} RetryBuilt(start: Option<Workflow>, p: Plan, id: Id, compensation: bool, at: int64)
    requires hide AddRetry, Built;
             Built(start, p)
    ensures var r := AddRetry(p, id, compensation, at); r.Ok? && r.value.Some? ==> Built(start, r.value.value)
  {
    hide Add, Built;
    var r := AddRetry(p, id, compensation, at);
    if r.Ok? && r.value.Some? {
      var t := p.state.tasks[id];
      var timer := RetryTimer(p.state, id, t, at + Backoff.RetryDelay(t.definition.retry, t.retryCount));
      var e := TimerEvent(EventTimerScheduled, p.state.id, timer, at);
      AddBuilt(start, p, e);
      var p1 := Add(p, e).value;
      AddBuilt(start, p1, Event(EventTaskRetryScheduled, p1.state.id, at, task := id, attemptId := t.attemptId,
                                attempt := t.attempt, fence := t.fence, timer := Some(timer),
                                    compensation := compensation));
    }
  }

  lemma {:induction false} FailureOutcomeBuilt(start: Option<Workflow>, p: Plan, id: Id, compensation: bool,
                                               reason: string, failure: string, at: int64)
    requires hide AddFailureOutcome, Built;
             Built(start, p)
    ensures var r := AddFailureOutcome(p, id, compensation, reason, failure, at); r.Ok? ==> Built(start, r.value)
  {
    hide Add, Built, AddRetry, AddTerminalFailure;
    RetryBuilt(start, p, id, compensation, at);
    AddBuilt(start, p, Event(EventWorkflowFailed, p.state.id, at, task := id, error := failure));
    TerminalFailureBuilt(start, p, id, reason, at);
  }

  lemma {:induction false} CancellationBuilt(start: Option<Workflow>, p: Plan, reason: string, at: int64)
    requires hide AddCancellation, Built;
             Built(start, p)
    ensures AddCancellation(p, reason, at).Ok? ==> Built(start, AddCancellation(p, reason, at).value)
  {
    hide Add, Built, AddActiveCancellations, AddScheduledTimerCancellations, NextCompensation;
    if AddCancellation(p, reason, at).Ok? {
      WindDownBuilt(start, p, at, reason);
      var p1 := AddActiveCancellations(p, at, reason).value;
      WindDownBuilt(start, p1, at, reason);
      var p2 := AddScheduledTimerCancellations(p1, at).value;
      match NextCompensation(p2.state.tasks)
      case Some(next) => AddBuilt(start, p2, Event(EventWorkflowCompensating, p2.state.id, at, task := next,
          reason := reason));
      case None => AddBuilt(start, p2, Event(EventWorkflowCancelled, p2.state.id, at, reason := reason));
    }
  }

  lemma {:induction false} ExpansionBuilt(start: Option<Workflow>, p: Plan, workflow: Id, task: Task, c: Command)
    requires hide AddExpansion, Built;
             Built(start, p)
    ensures AddExpansion(p, workflow, task, c).Ok? ==> Built(start, AddExpansion(p, workflow, task, c).value)
  {
    hide Add, Built, MaterializeFanout;
    if task.definition.fanout.Some? {
      var expanded := MaterializeFanout(p.state, task.definition, task.definition.fanout.value, c.fanout);
      if expanded.Ok? {
          AddBuilt(start, p, Event(EventFanoutExpanded, workflow, c.at, task := c.task, expanded := expanded.value)); }
    }
  }

  lemma {:induction false} CompensationEndBuilt(start: Option<Workflow>, p: Plan, workflow: Id, at: int64)
    requires hide AddCompensationEnd, Built;
             Built(start, p)
    ensures AddCompensationEnd(p, workflow, at).Ok? ==> Built(start, AddCompensationEnd(p, workflow, at).value)
  {
    hide Add, Built, NextCompensation;
    match NextCompensation(p.state.tasks)
    case Some(next) => AddBuilt(start, p, Event(EventWorkflowCompensating, workflow, at, task := next));
    case None => AddBuilt(start, p, Event(EventWorkflowCompensated, workflow, at));
  }

  lemma {:induction false} EmptyBuilt(s: Workflow)
    ensures Built(Some(s), Plan(s, []))
  {
  }

  lemma {:induction false} SubmitBuilt(c: Command)
    requires hide Built, DecideSubmit;
             DecideSubmit(None, c).Ok?
    ensures Built(None, DecideSubmit(None, c).value)
  {
    hide Add, AddReadyTasks, ApplyEvent, ValidDefinition;
    var definition := Canonical(c.definition.value);
    hide Canonical;
    var event := Event(EventWorkflowSubmitted, c.workflow, c.at, definition := Some(definition));
    var p := Plan(ApplyEvent(None, PlanStamp(event, 0)).value, [event]);
    assert p.events[..|p.events| - 1] == [] && PlanAll(None, []) == Ok(None);
    assert Built(None, p);
    hide Built;
    ReadyBuilt(None, p, c.at);
    var timer := Timer(TimerID(c.workflow, NO_ID, TimerWorkflowStart, 0), NO_ID, TimerWorkflowStart,
                       definition.startAt, NO_ID, 0, 0, TimerScheduled);
    AddBuilt(None, p, TimerEvent(EventTimerScheduled, c.workflow, timer, c.at));
  }

  lemma {:induction false} StartBuilt(s: Workflow, c: Command)
    requires hide Built, DecideStart;
             DecideStart(s, c).Ok?
    ensures Built(Some(s), DecideStart(s, c).value)
  {
    hide Add, Built;
    EmptyBuilt(s);
    var t := s.tasks[c.task];
    var e := StartedEvent(s, t, c);
    AddBuilt(Some(s), Plan(s, []), e);
    var p := Add(Plan(s, []), e).value;
    hide StartedEvent;
    if t.definition.timeout > 0 {
      var timer := TimeoutTimer(s.id, c, t.attempt + 1, p.state.tasks[c.task].fence, c.at + t.definition.timeout);
      AddBuilt(Some(s), p, TimerEvent(EventTimerScheduled, s.id, timer, c.at));
    }
  }

  lemma {:induction false} CompleteBuilt(s: Workflow, c: Command)
    requires hide Built, DecideComplete;
             DecideComplete(s, c).Ok?
    ensures Built(Some(s), DecideComplete(s, c).value)
  {
    hide Add, Built, AddTimerCancellation, AddCompensationEnd, AddExpansion, AddReadyTasks, AllCompleted;
    EmptyBuilt(s);
    var t := s.tasks[c.task];
    var kind := if t.compensation then EventTaskCompensated else EventTaskCompleted;
    var e := AttemptEvent(kind, s, t, c).(output := c.output);
    AddBuilt(Some(s), Plan(s, []), e);
    var p1 := Add(Plan(s, []), e).value;
    TimerCancellationBuilt(Some(s), p1, TimerTimeout, c.task, c.attemptId, c.at);
    var p2 := AddTimerCancellation(p1, TimerTimeout, c.task, c.attemptId, c.at).value;
    if t.compensation {
      CompensationEndBuilt(Some(s), p2, s.id, c.at);
    } else {
      ExpansionBuilt(Some(s), p2, s.id, t, c);
      var p3 := AddExpansion(p2, s.id, t, c).value;
      ReadyBuilt(Some(s), p3, c.at);
      AddBuilt(Some(s), AddReadyTasks(p3, c.at).value, Event(EventWorkflowCompleted, s.id, c.at));
    }
  }

  lemma {:induction false} AttemptBuilt(s: Workflow, c: Command)
    ensures hide Built, DecideExpire, DecideFail, DecideRenew;
            DecideFail(s, c).Ok? ==> Built(Some(s), DecideFail(s, c).value)
    ensures DecideRenew(s, c).Ok? ==> Built(Some(s), DecideRenew(s, c).value)
    ensures DecideExpire(s, c).Ok? ==> Built(Some(s), DecideExpire(s, c).value)
  {
    hide Add, Built, AddTimerCancellation, AddFailureOutcome, TimeoutDue, ScheduledTimer;
    EmptyBuilt(s);
    if c.task in s.tasks {
      var t := s.tasks[c.task];
      var fail := AttemptEvent(EventTaskFailed, s, t, c).(error := c.error);
      AddBuilt(Some(s), Plan(s, []), fail);
      AddBuilt(Some(s), Plan(s, []), AttemptEvent(EventLeaseRenewed, s, t, c).(leaseUntil := c.leaseUntil));
      var expire := AttemptEvent(EventLeaseExpired, s, t, c);
      AddBuilt(Some(s), Plan(s, []), expire);
      hide AttemptEvent;
      if Add(Plan(s, []), fail).Ok? {
        var p1 := Add(Plan(s, []), fail).value;
        TimerCancellationBuilt(Some(s), p1, TimerTimeout, c.task, c.attemptId, c.at);
        var p2 := AddTimerCancellation(p1, TimerTimeout, c.task, c.attemptId, c.at);
        if p2.Ok? { FailureOutcomeBuilt(Some(s), p2.value, c.task, t.compensation, c.error, c.error, c.at); }
      }
      if Add(Plan(s, []), expire).Ok? {
        TimerCancellationBuilt(Some(s), Add(Plan(s, []), expire).value, TimerTimeout, c.task, c.attemptId, c.at);
      }
    }
  }

  lemma {:induction false} FireBuilt(s: Workflow, c: Command)
    requires hide Built, DecideFireTimer;
             DecideFireTimer(s, c).Ok?
    ensures Built(Some(s), DecideFireTimer(s, c).value)
  {
    hide Add, Built, AddReadyTasks, AddFailureOutcome;
    EmptyBuilt(s);
    var timer := s.timers[c.timer];
    var e := TimerEvent(EventTimerFired, s.id, timer, c.at);
    AddBuilt(Some(s), Plan(s, []), e);
    var p := Add(Plan(s, []), e).value;
    match timer.purpose
    case TimerWorkflowStart =>
      var started := Event(EventWorkflowStarted, s.id, c.at, timer := Some(timer));
      AddBuilt(Some(s), p, started);
      ReadyBuilt(Some(s), Add(p, started).value, c.at);
    case TimerRetry => AddBuilt(Some(s), p, Event(EventTaskReady, s.id, c.at, task := timer.task,
        timer := Some(timer)));
    case TimerTimeout =>
      var task := p.state.tasks[timer.task];
      var expired := Event(EventTaskTimedOut, s.id, c.at, task := timer.task, attemptId := timer.attemptId,
                           attempt := timer.attempt, worker := task.worker, leaseUntil := task.leaseUntil,
                           fence := timer.fence, idempotency := task.idempotency, error := "task timed out",
                           compensation := task.compensation);
      AddBuilt(Some(s), p, expired);
      FailureOutcomeBuilt(Some(s), Add(p, expired).value, timer.task, task.compensation, "task timed out",
          "compensation timed out", c.at);
  }

  lemma {:induction false} CancelBuilt(s: Workflow, c: Command)
    requires hide Built, DecideCancel;
             DecideCancel(s, c).Ok?
    ensures Built(Some(s), DecideCancel(s, c).value)
  {
    hide Add, Built, AddCancellation, TrimSpace;
    EmptyBuilt(s);
    var e := Event(EventWorkflowCancellationRequested, s.id, c.at, reason := TrimSpace(c.reason));
    AddBuilt(Some(s), Plan(s, []), e);
    CancellationBuilt(Some(s), Add(Plan(s, []), e).value, TrimSpace(c.reason), c.at);
  }

  /** Every accepted command is built event by event from the state it found. */
  lemma {:induction false} DecideBuilt(state: Option<Workflow>, c: Command)
    requires hide Built, Decide;
             Decide(state, c).Ok?
    ensures Built(state, Decide(state, c).value)
  {
    hide Built, DecideSubmit, DecideStart, DecideComplete, DecideFail, DecideRenew, DecideExpire, DecideFireTimer,
        DecideCancel;
    match c.kind
    case CommandSubmit => SubmitOnNothing(state, c); SubmitBuilt(c);
    case CommandStart => StartBuilt(state.value, c);
    case CommandComplete => CompleteBuilt(state.value, c);
    case CommandFail => AttemptBuilt(state.value, c);
    case CommandRenew => AttemptBuilt(state.value, c);
    case CommandExpire => AttemptBuilt(state.value, c);
    case CommandFireTimer => FireBuilt(state.value, c);
    case CommandCancel => CancelBuilt(state.value, c);
    case CommandUnknown =>
  }

  lemma {:induction false} SubmitOnNothing(state: Option<Workflow>, c: Command)
    requires DecideSubmit(state, c).Ok?
    ensures state.None?
  {
    hide Add, AddReadyTasks, ApplyEvent, ValidDefinition, Canonical;
  }

  // ----- Numbering -----

  lemma {:induction false} PlanNumbers(state: Option<Workflow>, events: seq<Event>)
    requires hide PlanAll;
             PlanAll(state, events).Ok?
    ensures Version(PlanAll(state, events).value) == Version(state) + |events|
  {
    hide Transition, ApplySubmission;
    if events != [] {
      PlanNumbers(state, events[..|events| - 1]);
      var before := PlanAll(state, events[..|events| - 1]).value;
      ApplyNumbers(before, PlanStamp(events[|events| - 1], Version(before)));
    }
  }

  /** An applied event carries the next number, and leaves it as the version. */
  lemma {:induction false} ApplyNumbers(state: Option<Workflow>, e: Event)
    requires hide ApplyEvent;
             ApplyEvent(state, e).Ok?
    ensures e.sequence == Version(state) + 1 && ApplyEvent(state, e).value.version == e.sequence
  {
    hide Transition;
    if state.None? { assert ApplyEvent(state, e) == ApplySubmission(e); }
    hide ValidDefinition, Canonical, FreshTasks;
  }
}
