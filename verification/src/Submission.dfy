/** Submitting a definition: the new workflow satisfies the invariant. */
module Submission {
  import opened Base
  import opened CanonicalForms
  import opened Model
  import opened Definition
  import opened Reducer
  import opened Steps

  // ----- The new workflow -----

  function StartTimer(w: Id, deadline: int64): Timer {
    Timer(TimerID(w, NO_ID, TimerWorkflowStart, 0), NO_ID, TimerWorkflowStart, deadline, NO_ID, 0, 0, TimerScheduled)
  }

  /** The definition that a submitted workflow runs. */
  function RunDefinition(d: WorkflowDefinition): WorkflowDefinition {
    Canonical(Canonical(d))
  }

  /** The workflow as submitted. */
  function Submitted(c: Command): Workflow
    requires hide RunDefinition;
             c.definition.Some?
  {
    var d := RunDefinition(c.definition.value);
    Workflow(c.workflow, d.name, d.namespace, if d.startAt > c.at then WorkflowScheduled else WorkflowRunning, 1, c.at,
             FreshTasks(d.tasks), map[])
  }

  /** An accepted submission: a scheduled workflow with its start timer, or a running one with its
      first ready tasks. */
  ghost predicate Submits(c: Command, s': Workflow) {
    hide Blank, ReadyAll, Submitted, ValidDefinition;
    && c.definition.Some? && ValidDefinition(c.definition.value) && !Blank(c.workflow) && c.at >= 0
    && var first := Submitted(c);
       if first.status == WorkflowScheduled then
         var timer := StartTimer(c.workflow, c.definition.value.startAt);
         s' == first.(timers := map[timer.id := timer], version := 2)
       else
         && s'.version >= 1
         && s' == first.(tasks := ReadyAll(first.tasks, map[]), version := s'.version)
  }

  lemma {:induction false} SubmissionApplies(c: Command)
    requires hide ApplyEvent, Blank, Canonical, PlanStamp, Submitted, ValidDefinition;
             c.definition.Some? && ValidDefinition(c.definition.value) && !Blank(c.workflow) && c.at >= 0
    ensures var e := Event(EventWorkflowSubmitted, c.workflow, c.at, definition := Some(Canonical(c.definition.value)));
            ApplyEvent(None, PlanStamp(e, 0)) == Ok(Submitted(c))
  {
    CanonicalValid(c.definition.value);
    PlanRequestNotBlank();
    hide ValidDefinition, Canonical, FreshTasks, Transition;
  }

  lemma {:induction false} SubmitForm(c: Command)
    requires hide DecideSubmit, Submits;
             c.at >= 0 && DecideSubmit(None, c).Ok?
    ensures Submits(c, DecideSubmit(None, c).value.state)
  {
    hide Add, AddReadyTasks, ValidDefinition, CanonicalTasks, FreshTasks, ApplyEvent, ReadyAll;
    SubmissionApplies(c);
    var d := c.definition.value;
    var event := Event(EventWorkflowSubmitted, c.workflow, c.at, definition := Some(Canonical(d)));
    var p := Plan(Submitted(c), [event]);
    if Canonical(d).startAt > c.at {
      StartScheduled(p, d.startAt, c.at);
    } else {
      AddReadyForm(p, c.at);
    }
  }

  lemma {:induction false} StartScheduled(p: Plan, deadline: int64, at: int64)
    requires hide Add;
             p.state.timers == map[]
    ensures var e := TimerEvent(EventTimerScheduled, p.state.id, StartTimer(p.state.id, deadline), at);
            Add(p, e).Ok? ==> && p.state.version < MAX_UINT64
                              && Add(p, e).value.state ==
                                 p.state.(timers := map[StartTimer(p.state.id, deadline).id := StartTimer(p.state.id,
                                     deadline)],
                                          version := p.state.version + 1, updatedAt := at)
  {
    hide Add;
    AddsTimerScheduled(p, TimerEvent(EventTimerScheduled, p.state.id, StartTimer(p.state.id, deadline), at));
  }
}
