/** What one planned event does to a plan, and what the loops of a plan do. */
module Steps {
  import opened Base
  import opened Model
  import opened Reducer
  import opened IdOrder

  /** The event can follow in the plan, its transition aside. */
  predicate Follows(s: Workflow, e: Event) {
    !Blank(e.workflow) && e.workflow == s.id && 0 <= e.at && s.updatedAt <= e.at && s.version < MAX_UINT64
  }

  function Stepped(s: Workflow, next: Workflow, at: int64): Workflow
    requires s.version < MAX_UINT64
  {
    next.(version := s.version + 1, updatedAt := at)
  }

  lemma {:induction false} PlanRequestNotBlank()
    ensures !Blank(Text("plan"))
  {
    assert !IsSpace("plan"[0]);
  }

  /** What adding one event to a plan does. */
  lemma {:induction false} AddForm(p: Plan, e: Event)
    ensures hide Add, PlanStamp, Transition;
            Add(p, e).Ok? <==> Follows(p.state, e) && Transition(p.state, PlanStamp(e, p.state.version)).Ok?
    ensures Add(p, e).Ok? ==>
              Add(p, e).value == Plan(Stepped(p.state, Transition(p.state, PlanStamp(e, p.state.version)).value,
                  e.at), p.events + [e])
  {
    hide Transition;
    PlanRequestNotBlank();
  }

  /** `q` is the plan `p` extended by `e`, whose transition gives `next`. */
  predicate Extended(p: Plan, e: Event, next: Workflow, q: Plan) {
    p.state.version < MAX_UINT64 && q == Plan(Stepped(p.state, next, e.at), p.events + [e])
  }

  /** Adding `e` to `p` succeeds exactly when it follows and its transition `r` succeeds. */
  ghost predicate Adds(p: Plan, e: Event, r: Result<Workflow>) {
    hide Add, Follows;
    && (Add(p, e).Ok? <==> Follows(p.state, e) && r.Ok?)
    && (Add(p, e).Ok? ==> Extended(p, e, r.value, Add(p, e).value))
  }

  // One lemma for each kind of event, so that a proof about one kind need not look at the others.

  lemma {:induction false} AddsReady(p: Plan, e: Event)
    requires e.kind == EventTaskReady
    ensures Adds(p, e, ApplyReady(p.state, PlanStamp(e, p.state.version)))
  {
    hide Add, ApplyReady;
    AddForm(p, e);
  }

  lemma {:induction false} AddsStarted(p: Plan, e: Event)
    requires e.kind == EventTaskStarted
    ensures Adds(p, e, ApplyStarted(p.state, PlanStamp(e, p.state.version)))
  {
    hide Add, ApplyStarted;
    AddForm(p, e);
  }

  lemma {:induction false} AddsCompleted(p: Plan, e: Event)
    requires e.kind == EventTaskCompleted
    ensures Adds(p, e, ApplyCompleted(p.state, PlanStamp(e, p.state.version)))
  {
    hide Add, ApplyCompleted;
    AddForm(p, e);
  }

  lemma {:induction false} AddsFailed(p: Plan, e: Event)
    requires e.kind == EventTaskFailed
    ensures Adds(p, e, ApplyFailed(p.state, PlanStamp(e, p.state.version)))
  {
    hide Add, ApplyFailed;
    AddForm(p, e);
  }

  lemma {:induction false} AddsWorkflowCompleted(p: Plan, e: Event)
    requires e.kind == EventWorkflowCompleted
    ensures Adds(p, e, ApplyWorkflowCompleted(p.state))
  {
    hide Add, ApplyWorkflowCompleted;
    AddForm(p, e);
  }

  lemma {:induction false} AddsWorkflowFailed(p: Plan, e: Event)
    requires e.kind == EventWorkflowFailed
    ensures Adds(p, e, ApplyWorkflowFailed(p.state, PlanStamp(e, p.state.version)))
  {
    hide Add, ApplyWorkflowFailed;
    AddForm(p, e);
  }

  lemma {:induction false} AddsRenewed(p: Plan, e: Event)
    requires e.kind == EventLeaseRenewed
    ensures Adds(p, e, ApplyRenewed(p.state, PlanStamp(e, p.state.version)))
  {
    hide Add, ApplyRenewed;
    AddForm(p, e);
  }

  lemma {:induction false} AddsExpired(p: Plan, e: Event)
    requires e.kind == EventLeaseExpired
    ensures Adds(p, e, ApplyExpired(p.state, PlanStamp(e, p.state.version)))
  {
    hide Add, ApplyExpired;
    AddForm(p, e);
  }

  lemma {:induction false} AddsWorkflowStarted(p: Plan, e: Event)
    requires e.kind == EventWorkflowStarted
    ensures Adds(p, e, ApplyWorkflowStarted(p.state, PlanStamp(e, p.state.version)))
  {
    hide Add;
    AddForm(p, e);
  }

  lemma {:induction false} AddsFanoutExpanded(p: Plan, e: Event)
    requires e.kind == EventFanoutExpanded
    ensures Adds(p, e, ApplyFanoutExpanded(p.state, PlanStamp(e, p.state.version)))
  {
    hide Add, ApplyFanoutExpanded;
    AddForm(p, e);
  }

  lemma {:induction false} AddsTimerScheduled(p: Plan, e: Event)
    requires e.kind == EventTimerScheduled
    ensures Adds(p, e, ApplyTimerScheduled(p.state, PlanStamp(e, p.state.version)))
  {
    hide AcceptsTimer, Add, ApplyTimerScheduled;
    AddForm(p, e);
  }

  lemma {:induction false} AddsTimerFired(p: Plan, e: Event)
    requires e.kind == EventTimerFired
    ensures Adds(p, e, ApplyTimerTransition(p.state, PlanStamp(e, p.state.version), TimerFired))
  {
    hide Add;
    AddForm(p, e);
  }

  lemma {:induction false} AddsTimerCancelled(p: Plan, e: Event)
    requires e.kind == EventTimerCancelled
    ensures Adds(p, e, ApplyTimerTransition(p.state, PlanStamp(e, p.state.version), TimerCancelled))
  {
    hide Add;
    AddForm(p, e);
  }

  lemma {:induction false} AddsRetryScheduled(p: Plan, e: Event)
    requires e.kind == EventTaskRetryScheduled
    ensures Adds(p, e, ApplyTaskRetryScheduled(p.state, PlanStamp(e, p.state.version)))
  {
    hide Add, ApplyTaskRetryScheduled;
    AddForm(p, e);
  }

  lemma {:induction false} AddsTimedOut(p: Plan, e: Event)
    requires e.kind == EventTaskTimedOut
    ensures Adds(p, e, ApplyTaskTimedOut(p.state, PlanStamp(e, p.state.version)))
  {
    hide Add, ApplyTaskTimedOut;
    AddForm(p, e);
  }

  lemma {:induction false} AddsCancelled(p: Plan, e: Event)
    requires e.kind == EventTaskCancelled
    ensures Adds(p, e, ApplyTaskCancelled(p.state, PlanStamp(e, p.state.version)))
  {
    hide Add;
    AddForm(p, e);
  }

  lemma {:induction false} AddsCompensating(p: Plan, e: Event)
    requires e.kind == EventWorkflowCompensating
    ensures Adds(p, e, ApplyWorkflowCompensating(p.state, PlanStamp(e, p.state.version)))
  {
    hide Add, ApplyWorkflowCompensating, NextCompensation;
    AddForm(p, e);
  }

  lemma {:induction false} AddsCompensated(p: Plan, e: Event)
    requires e.kind == EventTaskCompensated
    ensures Adds(p, e, ApplyTaskCompensated(p.state, PlanStamp(e, p.state.version)))
  {
    hide Add, ApplyTaskCompensated;
    AddForm(p, e);
  }

  lemma {:induction false} AddsWorkflowCancelled(p: Plan, e: Event)
    requires e.kind == EventWorkflowCancelled
    ensures Adds(p, e, ApplyWorkflowCancelled(p.state))
  {
    hide Add, ApplyWorkflowCancelled, NextCompensation;
    AddForm(p, e);
  }

  lemma {:induction false} AddsWorkflowCompensated(p: Plan, e: Event)
    requires e.kind == EventWorkflowCompensated
    ensures Adds(p, e, ApplyWorkflowCompensated(p.state))
  {
    hide Add, ApplyWorkflowCompensated, NextCompensation;
    AddForm(p, e);
  }

  lemma {:induction false} AddsCancellationRequested(p: Plan, e: Event)
    requires e.kind == EventWorkflowCancellationRequested
    ensures Adds(p, e, if p.state.status in {WorkflowScheduled, WorkflowRunning} then Ok(p.state)
            else Err(ErrInvalidTransition))
  {
    hide Add;
    AddForm(p, e);
  }

  // ----------------------------------------------------------------------------------------------------
  // Closed forms of the planning loops: addReadyTasks, addActiveCancellations and addScheduledTimerCancellations act
  // on all their targets at once, whatever the order.
  // ----------------------------------------------------------------------------------------------------

  /** `q` follows `p` by events that change tasks and timers only. */
  ghost predicate Continues(p: Plan, q: Plan, tasks: map<Id, Task>, timers: map<Id, Timer>, at: int64) {
    && p.state.version <= q.state.version
    && q.state.updatedAt in {p.state.updatedAt, at}
    && q.state == p.state.(tasks := tasks, timers := timers, version := q.state.version, updatedAt := q.state.updatedAt)
  }

  predicate Timely(s: Workflow, at: int64) {
    !Blank(s.id) && 0 <= at && s.updatedAt <= at
  }

  // ----- addReadyTasks -----

  /** The tasks among `ids` that are eligible become ready. */
  function ReadyAmong(tasks: map<Id, Task>, timers: map<Id, Timer>, ids: seq<Id>): map<Id, Task> {
    map x | x in tasks :: if x in ids && Eligible(tasks, timers, x) then tasks[x].(status := TaskReady) else tasks[x]
  }

  /** Every eligible task becomes ready. */
  function ReadyAll(tasks: map<Id, Task>, timers: map<Id, Timer>): map<Id, Task> {
    map x | x in tasks :: if Eligible(tasks, timers, x) then tasks[x].(status := TaskReady) else tasks[x]
  }

  lemma {:induction false} ReadyAddition(p: Plan, id: Id, at: int64)
    requires hide Add;
             p.state.status == WorkflowRunning && Timely(p.state, at) && Eligible(p.state.tasks, p.state.timers, id)
    ensures p.state.version < MAX_UINT64 <==> Add(p, ReadyEvent(p.state.id, id, at)).Ok?
    ensures p.state.version < MAX_UINT64 ==>
              var s := p.state;
              Add(p, ReadyEvent(s.id, id, at)).value ==
              Plan(s.(tasks := s.tasks[id := s.tasks[id].(status := TaskReady)], version := s.version + 1,
                  updatedAt := at),
                   p.events + [ReadyEvent(s.id, id, at)])
  {
    AddsReady(p, ReadyEvent(p.state.id, id, at));
    hide Add;
  }

  /** Readying one task neither enables nor disables another. */
  lemma {:induction false} ReadyIndependent(tasks: map<Id, Task>, timers: map<Id, Timer>, id: Id, ids: seq<Id>)
    requires hide ReadyAmong;
             ids != [] && ids[0] == id && Eligible(tasks, timers, id)
    ensures ReadyAmong(tasks[id := tasks[id].(status := TaskReady)], timers, ids[1..]) == ReadyAmong(tasks, timers, ids)
  {
    var tasks' := tasks[id := tasks[id].(status := TaskReady)];
    assert forall d :: IsCompleted(tasks', d) <==> IsCompleted(tasks, d);
    forall x | x in tasks
      ensures ReadyAmong(tasks', timers, ids[1..])[x] == ReadyAmong(tasks, timers, ids)[x]
    {
      assert x in ids <==> x == id || x in ids[1..];
    }
    assert ReadyAmong(tasks', timers, ids[1..]).Keys == ReadyAmong(tasks, timers, ids).Keys;
  }

  lemma {:induction false} ReadyLoopForm(p: Plan, ids: seq<Id>, at: int64)
    requires hide AddReadyLoop, ReadyAmong, Timely;
             p.state.status == WorkflowRunning && Timely(p.state, at)
    ensures p.state.version + |ids| <= MAX_UINT64 ==> AddReadyLoop(p, ids, at).Ok?
    ensures AddReadyLoop(p, ids, at).Ok? ==>
              Continues(p, AddReadyLoop(p, ids, at).value, ReadyAmong(p.state.tasks, p.state.timers, ids),
                  p.state.timers, at)
    decreases |ids|
  {
    hide Add;
    var s := p.state;
    if ids == [] {
      assert ReadyAmong(s.tasks, s.timers, ids) == s.tasks;
    } else if Eligible(s.tasks, s.timers, ids[0]) {
      ReadyAddition(p, ids[0], at);
      if s.version < MAX_UINT64 {
        var q := Add(p, ReadyEvent(s.id, ids[0], at)).value;
        ReadyIndependent(s.tasks, s.timers, ids[0], ids);
        ReadyLoopForm(q, ids[1..], at);
      }
    } else {
      assert ReadyAmong(s.tasks, s.timers, ids) == ReadyAmong(s.tasks, s.timers, ids[1..]);
      ReadyLoopForm(p, ids[1..], at);
    }
  }

  lemma {:induction false} AddReadyForm(p: Plan, at: int64)
    requires hide AddReadyTasks, ReadyAll, SortedIds, Timely;
             p.state.status == WorkflowRunning && Timely(p.state, at)
    ensures p.state.version + |SortedIds(p.state.tasks.Keys)| <= MAX_UINT64 ==> AddReadyTasks(p, at).Ok?
    ensures AddReadyTasks(p, at).Ok? ==>
              Continues(p, AddReadyTasks(p, at).value, ReadyAll(p.state.tasks, p.state.timers), p.state.timers, at)
  {
    var ids := SortedIds(p.state.tasks.Keys);
    ReadyLoopForm(p, ids, at);
    assert ReadyAmong(p.state.tasks, p.state.timers, ids) == ReadyAll(p.state.tasks, p.state.timers);
    hide ReadyAmong, ReadyAll, AddReadyLoop;
  }

  // ----- addActiveCancellations -----

  function CancelAmong(tasks: map<Id, Task>, ids: seq<Id>, at: int64): map<Id, Task> {
    map x | x in tasks :: if x in ids && Cancellable(tasks[x].status) then CancelledTask(tasks[x], at) else tasks[x]
  }

  /** Every pending, ready or running task is cancelled. */
  function CancelAll(tasks: map<Id, Task>, at: int64): map<Id, Task> {
    map x | x in tasks :: if Cancellable(tasks[x].status) then CancelledTask(tasks[x], at) else tasks[x]
  }

  lemma {:induction false} CancelAddition(p: Plan, id: Id, at: int64, reason: string)
    requires hide Add, Timely;
             p.state.status in {WorkflowScheduled, WorkflowRunning} && Timely(p.state, at)
    requires id in p.state.tasks && Cancellable(p.state.tasks[id].status)
    ensures var e := CancelEvent(p.state.id, id, p.state.tasks[id], at, reason);
            && (p.state.version < MAX_UINT64 <==> Add(p, e).Ok?)
            && (p.state.version < MAX_UINT64 ==>
                  var s := p.state;
                  Add(p, e).value ==
                  Plan(s.(tasks := s.tasks[id := CancelledTask(s.tasks[id], at)], version := s.version + 1,
                      updatedAt := at),
                       p.events + [e]))
  {
    AddsCancelled(p, CancelEvent(p.state.id, id, p.state.tasks[id], at, reason));
    hide Add;
  }

  lemma {:induction false} CancelTasksForm(p: Plan, ids: seq<Id>, at: int64, reason: string)
    requires hide CancelAmong, CancelTasksLoop, Timely;
             p.state.status in {WorkflowScheduled, WorkflowRunning} && Timely(p.state, at)
    ensures p.state.version + |ids| <= MAX_UINT64 ==> CancelTasksLoop(p, ids, at, reason).Ok?
    ensures CancelTasksLoop(p, ids, at, reason).Ok? ==>
              Continues(p, CancelTasksLoop(p, ids, at, reason).value, CancelAmong(p.state.tasks, ids, at),
                  p.state.timers, at)
    decreases |ids|
  {
    hide Add;
    var s := p.state;
    if ids == [] {
      assert CancelAmong(s.tasks, ids, at) == s.tasks;
    } else if ids[0] in s.tasks && Cancellable(s.tasks[ids[0]].status) {
      CancelAddition(p, ids[0], at, reason);
      if s.version < MAX_UINT64 {
        var q := Add(p, CancelEvent(s.id, ids[0], s.tasks[ids[0]], at, reason)).value;
        assert CancelAmong(q.state.tasks, ids[1..], at) == CancelAmong(s.tasks, ids, at);
        CancelTasksForm(q, ids[1..], at, reason);
      }
    } else {
      assert CancelAmong(s.tasks, ids, at) == CancelAmong(s.tasks, ids[1..], at);
      CancelTasksForm(p, ids[1..], at, reason);
    }
  }

  lemma {:induction false} AddActiveCancellationsForm(p: Plan, at: int64, reason: string)
    requires hide AddActiveCancellations, CancelAll, SortedIds, Timely;
             p.state.status in {WorkflowScheduled, WorkflowRunning} && Timely(p.state, at)
    ensures p.state.version + |SortedIds(p.state.tasks.Keys)| <= MAX_UINT64
            ==> AddActiveCancellations(p, at, reason).Ok?
    ensures AddActiveCancellations(p, at, reason).Ok? ==>
              Continues(p, AddActiveCancellations(p, at, reason).value, CancelAll(p.state.tasks, at), p.state.timers,
                  at)
  {
    hide SortedIds, Timely;
    var ids := SortedIds(p.state.tasks.Keys);
    CancelTasksForm(p, ids, at, reason);
    assert CancelAmong(p.state.tasks, ids, at) == CancelAll(p.state.tasks, at);
    hide CancelAmong, CancelAll, CancelTasksLoop;
  }

  // ----- addScheduledTimerCancellations -----

  function CancelTimersAmong(timers: map<Id, Timer>, ids: seq<Id>): map<Id, Timer> {
    map x | x in timers :: if x in ids then timers[x].(status := TimerCancelled) else timers[x]
  }

  /** Every scheduled timer is cancelled. */
  function CancelTimers(timers: map<Id, Timer>): map<Id, Timer> {
    map x | x in timers :: if timers[x].status == TimerScheduled then timers[x].(status := TimerCancelled)
        else timers[x]
  }

  /** Timers are filed under their own identifier. */
  predicate TimersKeyed(timers: map<Id, Timer>) {
    forall k | k in timers :: timers[k].id == k
  }

  lemma {:induction false} TimerCancelAddition(p: Plan, id: Id, at: int64)
    requires hide Add, Timely;
             Timely(p.state, at) && id in p.state.timers
    requires p.state.timers[id].status == TimerScheduled && p.state.timers[id].id == id
    ensures var e := TimerEvent(EventTimerCancelled, p.state.id, p.state.timers[id], at);
            && (p.state.version < MAX_UINT64 <==> Add(p, e).Ok?)
            && (p.state.version < MAX_UINT64 ==>
                  var s := p.state;
                  Add(p, e).value ==
                  Plan(s.(timers := s.timers[id := s.timers[id].(status := TimerCancelled)], version := s.version + 1,
                      updatedAt := at),
                       p.events + [e]))
  {
    AddsTimerCancelled(p, TimerEvent(EventTimerCancelled, p.state.id, p.state.timers[id], at));
    hide Add;
  }

  lemma {:induction false} CancelTimersForm(p: Plan, ids: seq<Id>, at: int64)
    requires hide CancelTimersLoop, Increasing, Timely;
             Timely(p.state, at) && TimersKeyed(p.state.timers) && Increasing(ids)
    requires forall x | x in ids :: x in p.state.timers && p.state.timers[x].status == TimerScheduled
    ensures p.state.version + |ids| <= MAX_UINT64 ==> CancelTimersLoop(p, ids, at).Ok?
    ensures CancelTimersLoop(p, ids, at).Ok? ==>
              Continues(p, CancelTimersLoop(p, ids, at).value, p.state.tasks, CancelTimersAmong(p.state.timers, ids),
                  at)
    decreases |ids|
  {
    hide Add;
    var s := p.state;
    if ids == [] {
      assert CancelTimersAmong(s.timers, ids) == s.timers;
    } else {
      TimerCancelAddition(p, ids[0], at);
      if s.version < MAX_UINT64 {
        var q := Add(p, TimerEvent(EventTimerCancelled, s.id, s.timers[ids[0]], at)).value;
        forall x | x in ids[1..] ensures x != ids[0] && x in ids {
          Trichotomy(x, x);
        }
        assert CancelTimersAmong(q.state.timers, ids[1..]) == CancelTimersAmong(s.timers, ids);
        CancelTimersForm(q, ids[1..], at);
      }
    }
  }

  lemma {:induction false} AddScheduledTimerCancellationsForm(p: Plan, at: int64)
    requires hide AddScheduledTimerCancellations, SortedIds, Timely;
             Timely(p.state, at) && TimersKeyed(p.state.timers)
    ensures p.state.version + |SortedIds(ScheduledIds(p.state.timers))| <= MAX_UINT64
            ==> AddScheduledTimerCancellations(p, at).Ok?
    ensures AddScheduledTimerCancellations(p, at).Ok? ==>
              Continues(p, AddScheduledTimerCancellations(p, at).value, p.state.tasks, CancelTimers(p.state.timers), at)
  {
    hide SortedIds, Timely;
    var ids := SortedIds(ScheduledIds(p.state.timers));
    CancelTimersForm(p, ids, at);
    assert CancelTimersAmong(p.state.timers, ids) == CancelTimers(p.state.timers);
    hide CancelTimersAmong, CancelTimers, CancelTimersLoop;
  }
}
