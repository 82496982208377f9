/** Facts that every sequence of applied events keeps, whatever the events: enough to make the lookups
    of the state machine independent of the order in which a map is walked. */
module Lawfulness {
  import opened Base
  import opened CanonicalForms
  import opened Model
  import opened IdOrder
  import opened Definition
  import opened Reducer

  /** A held task carries the identifier of its attempt, and a pending task names no worker. */
  predicate LawfulTask(w: Id, id: Id, t: Task) {
    && id != NO_ID
    && (Leased(t) ==> t.attemptId == AttemptID(w, id, t.attempt))
    && (t.status == TaskPending ==> t.worker == "")
  }

  /** A timer is kept under its identifier, and a timeout is named after the attempt it guards. */
  predicate LawfulTimer(w: Id, k: Id, x: Timer) {
    && x.id == k
    && (x.purpose == TimerTimeout ==>
          x.id == TimerID(w, x.task, TimerTimeout, x.attempt) && x.attemptId == AttemptID(w, x.task, x.attempt))
  }

  predicate Lawful(s: Workflow) {
    && (forall id | id in s.tasks :: LawfulTask(s.id, id, s.tasks[id]))
    && (forall k | k in s.timers :: LawfulTimer(s.id, k, s.timers[k]))
  }

  lemma {:induction false} OneTaskLawful(s: Workflow, id: Id, t: Task, s': Workflow)
    requires Lawful(s) && LawfulTask(s.id, id, t)
    requires s'.id == s.id && s'.tasks == s.tasks[id := t] && s'.timers == s.timers
    ensures Lawful(s')
  {
  }

  lemma {:induction false} OneTimerLawful(s: Workflow, k: Id, x: Timer, s': Workflow)
    requires Lawful(s) && LawfulTimer(s.id, k, x)
    requires s'.id == s.id && s'.tasks == s.tasks && s'.timers == s.timers[k := x]
    ensures Lawful(s')
  {
  }

  lemma {:induction false} ChildrenLawful(w: Id, tasks: map<Id, Task>, expanded: seq<ExpandedTask>)
    requires forall id | id in tasks :: LawfulTask(w, id, tasks[id])
    requires forall i | 0 <= i < |expanded| :: expanded[i].definition.id != NO_ID
    ensures forall id | id in WithChildren(tasks, expanded) :: LawfulTask(w, id, WithChildren(tasks, expanded)[id])
  {
    if expanded != [] { ChildrenLawful(w, tasks, expanded[..|expanded| - 1]); }
  }

  lemma {:induction false} ExpansionLawful(s: Workflow, e: Event)
    requires hide ApplyFanoutExpanded, Lawful;
             Lawful(s) && ApplyFanoutExpanded(s, e).Ok?
    ensures Lawful(ApplyFanoutExpanded(s, e).value)
  {
    hide SortIds, WithChildren;
    ChildrenLawful(s.id, s.tasks, e.expanded);
    var s' := ApplyFanoutExpanded(s, e).value;
    var all := WithChildren(s.tasks, e.expanded);
    var aggregate := s.tasks[e.task].definition.fanout.value.aggregate;
    hide CanonicalExpansion;
    forall id | id in s'.tasks ensures LawfulTask(s.id, id, s'.tasks[id]) {
      if id != e.task && id != aggregate { assert s'.tasks[id] == all[id]; }
    }
  }

  /** One transition keeps a state lawful. */
  lemma {:induction false} TransitionLawful(s: Workflow, e: Event)
    requires hide Lawful, Transition;
             Lawful(s) && Transition(s, e).Ok?
    ensures Lawful(Transition(s, e).value) && Transition(s, e).value.id == s.id
  {
    hide Lawful, DependenciesCompleted, Waiting, ApplyFanoutExpanded, NextCompensation, HasActive, HasScheduledTimers,
        AllCompleted;
    var s' := Transition(s, e).value;
    match e.kind {
      case EventFanoutExpanded => ExpansionLawful(s, e); ExpansionKeepsId(s, e);
      case EventTimerScheduled => ScheduledLawful(s, e);
      case EventTimerFired => TimerTransitionLawful(s, e, TimerFired);
      case EventTimerCancelled => TimerTransitionLawful(s, e, TimerCancelled);
      case EventTaskReady | EventTaskStarted | EventTaskRetryScheduled | EventTaskCancelled
         | EventWorkflowCompensating => TaskMovesLawful(s, e);
      case EventTaskCompleted | EventTaskFailed | EventLeaseRenewed | EventLeaseExpired | EventTaskTimedOut
         | EventTaskCompensated => AttemptMovesLawful(s, e);
      case _ => SameTablesLawful(s, s');
    }
  }

  lemma {:induction false} ExpansionKeepsId(s: Workflow, e: Event)
    requires hide ApplyFanoutExpanded;
             ApplyFanoutExpanded(s, e).Ok?
    ensures ApplyFanoutExpanded(s, e).value.id == s.id
  {
    hide SortIds, WithChildren, CanonicalExpansion;
  }

  lemma {:induction false} SameTablesLawful(s: Workflow, s': Workflow)
    requires Lawful(s) && s'.id == s.id && s'.tasks == s.tasks && s'.timers == s.timers
    ensures Lawful(s')
  {
  }

  lemma {:induction false} TaskMovesLawful(s: Workflow, e: Event)
    requires hide Lawful, Transition;
             Lawful(s)
             && e.kind in {EventTaskReady, EventTaskStarted, EventTaskRetryScheduled, EventTaskCancelled,
             EventWorkflowCompensating}
    requires Transition(s, e).Ok?
    ensures Lawful(Transition(s, e).value) && Transition(s, e).value.id == s.id
  {
    hide DependenciesCompleted, Waiting, ApplyFanoutExpanded, ApplyWorkflowCancelled, ApplyWorkflowCompensated;
    var s' := Transition(s, e).value;
    assert LawfulTask(s.id, e.task, s.tasks[e.task]);
    hide Lawful;
    OneTaskLawful(s, e.task, s'.tasks[e.task], s');
  }

  lemma {:induction false} AttemptMovesLawful(s: Workflow, e: Event)
    requires hide Lawful, Transition;
             Lawful(s)
    requires e.kind in {EventTaskCompleted, EventTaskFailed, EventLeaseRenewed, EventLeaseExpired, EventTaskTimedOut,
             EventTaskCompensated}
    requires Transition(s, e).Ok?
    ensures Lawful(Transition(s, e).value) && Transition(s, e).value.id == s.id
  {
    hide TimeoutDue, ScheduledTimer, ApplyFanoutExpanded, ApplyTimerScheduled, ApplyWorkflowCancelled,
        ApplyWorkflowCompensated, ApplyWorkflowCompensating;
    var s' := Transition(s, e).value;
    assert LawfulTask(s.id, e.task, s.tasks[e.task]);
    hide Lawful;
    OneTaskLawful(s, e.task, s'.tasks[e.task], s');
  }

  lemma {:induction false} ScheduledLawful(s: Workflow, e: Event)
    requires hide ApplyTimerScheduled, Lawful;
             Lawful(s) && ApplyTimerScheduled(s, e).Ok?
    ensures Lawful(ApplyTimerScheduled(s, e).value) && ApplyTimerScheduled(s, e).value.id == s.id
  {
    var timer := e.timer.value;
    if timer.purpose == TimerTimeout { assert LawfulTask(s.id, timer.task, s.tasks[timer.task]); }
    OneTimerLawful(s, timer.id, timer, ApplyTimerScheduled(s, e).value);
  }

  lemma {:induction false} TimerTransitionLawful(s: Workflow, e: Event, status: TimerStatus)
    requires hide ApplyTimerTransition, Lawful;
             Lawful(s) && ApplyTimerTransition(s, e, status).Ok?
    ensures Lawful(ApplyTimerTransition(s, e, status).value) && ApplyTimerTransition(s, e, status).value.id == s.id
  {
    var current := s.timers[e.timer.value.id];
    assert LawfulTimer(s.id, e.timer.value.id, current);
    OneTimerLawful(s, current.id, current.(status := status), ApplyTimerTransition(s, e, status).value);
  }

  lemma {:induction false} SubmissionLawful(e: Event)
    requires hide ApplySubmission, Lawful;
             ApplySubmission(e).Ok?
    ensures Lawful(ApplySubmission(e).value)
  {
    hide Canonical, CanonicalTasks, ValidDefinition;
    var d := Canonical(e.definition.value);
    CanonicalValid(e.definition.value);
    forall id | id in FreshTasks(d.tasks) ensures LawfulTask(e.workflow, id, FreshTasks(d.tasks)[id]) {
      FreshTask(d, id);
    }
  }

  /** Applying any event to a lawful state gives a lawful state. */
  lemma {:induction false} ApplyLawful(state: Option<Workflow>, e: Event)
    requires hide ApplyEvent, Lawful;
             (state.Some? ==> Lawful(state.value)) && ApplyEvent(state, e).Ok?
    ensures Lawful(ApplyEvent(state, e).value) && ApplyEvent(state, e).value.id == e.workflow
  {
    hide Lawful, Transition, ApplySubmission;
    match state {
      case None => SubmissionLawful(e); SubmissionId(e);
      case Some(s) =>
        TransitionLawful(s, e);
        SameTablesLawful(Transition(s, e).value, ApplyEvent(state, e).value);
    }
  }

  lemma {:induction false} SubmissionId(e: Event)
    requires hide ApplySubmission;
             ApplySubmission(e).Ok?
    ensures ApplySubmission(e).value.id == e.workflow
  {
    hide Canonical, ValidDefinition;
  }

  // ----- Lookups -----

  /** At most one scheduled timeout carries a given attempt identifier. */
  lemma {:induction false} TimeoutsUnique(s: Workflow, task: Id, attemptId: Id, j: Id, k: Id)
    requires Lawful(s) && attemptId != NO_ID && j in s.timers && k in s.timers
    requires TimerMatches(s.timers[j], TimerTimeout, task, attemptId)
             && TimerMatches(s.timers[k], TimerTimeout, task, attemptId)
    ensures j == k
  {
    assert LawfulTimer(s.id, j, s.timers[j]) && LawfulTimer(s.id, k, s.timers[k]);
  }

  /** Whichever matching timeout is met first is the one. */
  lemma {:induction false} AnyTimeoutIsTheOne(s: Workflow, task: Id, attemptId: Id, k: Id)
    requires hide Lawful;
             Lawful(s) && attemptId != NO_ID && k in s.timers
             && TimerMatches(s.timers[k], TimerTimeout, task, attemptId)
    ensures ScheduledTimer(s.timers, TimerTimeout, task, attemptId) == Some(s.timers[k])
  {
    var found := ScheduledTimer(s.timers, TimerTimeout, task, attemptId);
    var j :| j in s.timers && s.timers[j] == found.value && TimerMatches(found.value, TimerTimeout, task, attemptId);
    TimeoutsUnique(s, task, attemptId, j, k);
  }

  /** The compensation to run next is determined. */
  lemma {:induction false} ChosenUnique(tasks: map<Id, Task>, a: Id, b: Id)
    requires ChosenCompensation(tasks, a) && ChosenCompensation(tasks, b)
    ensures a == b
  {
    Trichotomy(a, b);
  }
}
