/** The prepared events of a command replay to the state it planned: the envelope of an event does not
    reach its transition. */
module Replays {
  import opened Base
  import opened Model
  import opened IdOrder
  import opened Definition
  import opened Reducer
  import opened Plans
  import opened Ledgers

  /** Request identifier and hash do not matter to a transition. */
  lemma {:induction false} TransitionIgnoresEnvelope(s: Workflow, e: Event, request: Id, hash: Hash)
    ensures Transition(s, e.(request := request, hash := hash)) == Transition(s, e)
  {
    hide CanonicalExpansion, WithChildren, SortIds, NextCompensation, ScheduledTimer, HasActive, HasScheduledTimers,
        AllCompleted;
    var e' := e.(request := request, hash := hash);
    match e.kind
    case EventFanoutExpanded => assert ApplyFanoutExpanded(s, e') == ApplyFanoutExpanded(s, e);
    case EventTimerScheduled => assert ApplyTimerScheduled(s, e') == ApplyTimerScheduled(s, e);
    case EventTimerFired => assert ApplyTimerTransition(s, e', TimerFired) == ApplyTimerTransition(s, e, TimerFired);
    case EventTimerCancelled => assert ApplyTimerTransition(s, e', TimerCancelled) == ApplyTimerTransition(s, e,
        TimerCancelled);
    case _ =>
  }

  /** A planned event applies alike under the envelope it is stored with. */
  lemma {:induction false} EnvelopeApplies(state: Option<Workflow>, e: Event, request: Id, hash: Hash)
    requires hide ApplyEvent, Blank, PlanStamp;
             !Blank(request) && hash != NoHash && Version(state) < MAX_UINT64
    requires ApplyEvent(state, PlanStamp(e, Version(state))).Ok?
    ensures ApplyEvent(state, Stamp(e, Version(state) + 1, request, hash)) == ApplyEvent(state,
            PlanStamp(e, Version(state)))
  {
    hide Transition, ApplySubmission;
    var planned, stored := PlanStamp(e, Version(state)), Stamp(e, Version(state) + 1, request, hash);
    assert stored == planned.(request := request, hash := hash);
    if state.Some? {
      TransitionIgnoresEnvelope(state.value, planned, request, hash);
    } else {
      SubmissionIgnoresEnvelope(planned, request, hash);
    }
  }

  lemma {:induction false} SubmissionIgnoresEnvelope(e: Event, request: Id, hash: Hash)
    ensures ApplySubmission(e.(request := request, hash := hash)) == ApplySubmission(e)
  {
    hide ValidDefinition, Canonical, FreshTasks;
  }

  /** Stored events replay as they were planned. */
  lemma {:induction false} StoredReplays(state: Option<Workflow>, events: seq<Event>, request: Id, hash: Hash)
    requires hide ApplyAll, Blank, PlanAll, StampAll;
             !Blank(request) && hash != NoHash
    requires PlanAll(state, events).Ok? && Version(state) + |events| <= MAX_UINT64
    ensures ApplyAll(state, StampAll(events, Version(state), request, hash)) == PlanAll(state, events)
  {
    hide ApplyEvent;
    if events != [] {
      var front, last := events[..|events| - 1], events[|events| - 1];
      StoredReplays(state, front, request, hash);
      PlanNumbers(state, front);
      var stored := StampAll(events, Version(state), request, hash);
      assert stored[..|stored| - 1] == StampAll(front, Version(state), request, hash);
      EnvelopeApplies(PlanAll(state, front).value, last, request, hash);
    } else {
      assert StampAll(events, Version(state), request, hash) == [];
    }
  }

  /** The events that a command prepares, applied one by one, give the state it planned; and they are
      numbered on from the version it found. */
  lemma {:induction false} PreparedReplays(state: Option<Workflow>, c: Command, hash: Hash)
    requires hide ApplyAll, PlanCommand;
             hash != NoHash && PlanCommand(state, c, hash).Ok?
    ensures var p := PlanCommand(state, c, hash).value;
            && ApplyAll(state, p.events) == Ok(Some(p.next))
            && p.next.version == Version(state) + |p.events| && p.events != []
            && forall i | 0 <= i < |p.events| :: p.events[i].sequence == Version(state) + i + 1
  {
    hide PlanAll, ApplyAll, Decide;
    var attempted := Attempted(state, c).value;
    RequestGiven(state, attempted);
    var plan := Decide(state, attempted).value;
    DecideBuilt(state, attempted);
    PlanNumbers(state, plan.events);
    StoredReplays(state, plan.events, c.request, hash);
  }

  lemma {:induction false} RequestGiven(state: Option<Workflow>, c: Command)
    requires Decide(state, c).Ok?
    ensures !Blank(c.request)
  {
    hide DecideSubmit, DecideStart, DecideComplete, DecideFail, DecideRenew, DecideExpire, DecideFireTimer,
        DecideCancel;
  }

  lemma {:induction false} ApplyAllJoins(state: Option<Workflow>, a: seq<Event>, b: seq<Event>)
    requires hide ApplyAll;
             ApplyAll(state, a).Ok?
    ensures ApplyAll(state, a + b) == ApplyAll(ApplyAll(state, a).value, b)
  {
    hide ApplyEvent;
    if b == [] {
      assert a + b == a;
    } else {
      ApplyAllJoins(state, a, b[..|b| - 1]);
      assert (a + b)[..|a + b| - 1] == a + b[..|b| - 1];
    }
  }

  /** A history numbers its events from one. */
  lemma {:induction false} HistoryNumbers(events: seq<Event>)
    requires hide ApplyAll;
             ApplyAll(None, events).Ok?
    ensures Version(ApplyAll(None, events).value) == |events|
    ensures forall i | 0 <= i < |events| :: events[i].sequence == i + 1
  {
    hide ApplyEvent;
    if events != [] {
      HistoryNumbers(events[..|events| - 1]);
      ApplyNumbers(ApplyAll(None, events[..|events| - 1]).value, events[|events| - 1]);
    }
  }
}
