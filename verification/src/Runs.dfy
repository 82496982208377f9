/** Runs of commands against one workflow, and what holds in every state they reach. */
module Runs {
  import opened Base
  import opened Model
  import opened Reducer
  import opened Invariant
  import opened Forms
  import opened Preservation
  import opened Submission

  /** What an accepted command on an existing workflow does. */
  ghost predicate Effect(s: Workflow, c: Command, s': Workflow) {
    match c.kind
    case CommandStart => Starts(s, c, s')
    case CommandComplete => Completes(s, c, s') || FinishesCompensation(s, c, s')
    case CommandFail => Fails(s, c, s')
    case CommandRenew => Renews(s, c, s')
    case CommandExpire => Expires(s, c, s')
    case CommandFireTimer => FiresTyped(s, c, s')
    case CommandCancel => Cancels(s, c, s')
    case _ => false
  }

  /** Firing a timer does what its purpose asks for. */
  ghost predicate FiresTyped(s: Workflow, c: Command, s': Workflow) {
    hide FiresStart, FiresTimeout;
    && c.timer in s.timers
    && match s.timers[c.timer].purpose
       case TimerWorkflowStart => FiresStart(s, c, s')
       case TimerRetry => FiresRetry(s, c, s')
       case TimerTimeout => FiresTimeout(s, c, s')
       case TimerUnknown => false
  }

  lemma {:induction false} DecideEffect(s: Workflow, c: Command)
    requires hide Decide, Effect, Inv;
             Inv(s) && Decide(Some(s), c).Ok?
    ensures c.at >= 0 && c.at >= s.updatedAt && Effect(s, c, Decide(Some(s), c).value.state)
  {
    hide Inv, Starts, Completes, FinishesCompensation, Fails, Renews, Expires, FiresStart, FiresRetry, FiresTimeout,
        Cancels;
    hide DecideStart, DecideComplete, DecideFail, DecideRenew, DecideExpire, DecideFireTimer, DecideCancel;
    match c.kind
    case CommandStart => StartForm(s, c);
    case CommandComplete => CompleteEffect(s, c);
    case CommandFail => FailForm(s, c);
    case CommandRenew => RenewForm(s, c);
    case CommandExpire => ExpireForm(s, c);
    case CommandFireTimer => FireEffect(s, c);
    case CommandCancel => CancelForm(s, c);
    case _ =>
  }

  lemma {:induction false} CompleteEffect(s: Workflow, c: Command)
    requires hide Completes, DecideComplete, FinishesCompensation, Inv;
             Inv(s) && DecideComplete(s, c).Ok?
    ensures Completes(s, c, DecideComplete(s, c).value.state)
            || FinishesCompensation(s, c, DecideComplete(s, c).value.state)
  {
    hide Inv, PlanCompensated, PlanCompleted, Completes, FinishesCompensation;
    if s.tasks[c.task].compensation { FinishCompensationForm(s, c); } else { CompleteForm(s, c); }
  }

  lemma {:induction false} FireEffect(s: Workflow, c: Command)
    requires hide DecideFireTimer, FiresTyped, Inv;
             Inv(s) && DecideFireTimer(s, c).Ok?
    ensures FiresTyped(s, c, DecideFireTimer(s, c).value.state)
  {
    hide Inv, Add, AddFailureOutcome, AddReadyTasks, FiresStart, FiresRetry, FiresTimeout;
    match s.timers[c.timer].purpose
    case TimerWorkflowStart => FireStartForm(s, c);
    case TimerRetry => FireRetryForm(s, c);
    case TimerTimeout => FireTimeoutForm(s, c);
    case TimerUnknown =>
  }

  lemma {:induction false} EffectKeeps(s: Workflow, c: Command, s': Workflow)
    requires Inv(s) && c.at >= 0 && Effect(s, c, s')
    ensures Inv(s')
  {
    hide Inv, Starts, Completes, FinishesCompensation, Renews, Expires, FiresStart, FiresRetry, FailureFollows,
        AttemptFails, Cancels;
    match c.kind
    case CommandStart => StartKeeps(s, c, s');
    case CommandComplete =>
      if Completes(s, c, s') { CompleteKeeps(s, c, s'); } else { FinishCompensationKeeps(s, c, s'); }
    case CommandFail =>
      var s1 :| AttemptFails(s, c.task, c.error, TimerCancelled, c.at, s1) && FailureFollows(s1, c.task, c.at, s');
      FailKeeps(s, c.task, c.error, TimerCancelled, c.at, s1, s');
    case CommandRenew => RenewKeeps(s, c, s');
    case CommandExpire => ExpireKeeps(s, c, s');
    case CommandFireTimer =>
      match s.timers[c.timer].purpose {
        case TimerWorkflowStart => FireStartKeeps(s, c, s');
        case TimerRetry => FireRetryKeeps(s, c, s');
        case TimerTimeout =>
          var id := s.timers[c.timer].task;
          var s1 :| AttemptFails(s, id, "task timed out", TimerFired, c.at, s1) && FailureFollows(s1, id, c.at, s');
          FailKeeps(s, id, "task timed out", TimerFired, c.at, s1, s');
      }
    case CommandCancel => CancelKeeps(s, c, s');
  }

  /** Every accepted command leads from one good state to another. */
  lemma {:induction false} DecideKeeps(state: Option<Workflow>, c: Command)
    requires hide Decide, Inv;
             state.Some? ==> Inv(state.value)
    requires Decide(state, c).Ok?
    ensures Inv(Decide(state, c).value.state)
  {
    hide Inv, Effect, DecideSubmit, DecideStart, DecideComplete, DecideFail, DecideRenew, DecideExpire,
        DecideFireTimer, DecideCancel;
    match state {
      case Some(s) =>
        DecideEffect(s, c);
        EffectKeeps(s, c, Decide(state, c).value.state);
      case None =>
        SubmitForm(c);
        SubmitKeeps(c, Decide(state, c).value.state);
    }
  }

  // ----- Runs -----

  /** The state after one command; a refused command changes nothing. */
  ghost function Next(state: Option<Workflow>, c: Command): Option<Workflow> {
    match Decide(state, c)
    case Ok(p) => Some(p.state)
    case Err(_) => state
  }

  /** The state of a workflow after a run of commands, starting from nothing. */
  ghost function Run(commands: seq<Command>): Option<Workflow> {
    hide Next;
    if commands == [] then None
    else Next(Run(commands[..|commands| - 1]), commands[|commands| - 1])
  }

  /** The state after the first `n` commands of a run. */
  ghost function After(commands: seq<Command>, n: nat): Option<Workflow>
    requires hide Decide, Next, Run;
             n <= |commands|
  {
    Run(commands[..n])
  }

  lemma {:induction false} AfterStep(commands: seq<Command>, n: nat)
    requires hide After, Next;
             n < |commands|
    ensures After(commands, n + 1) == Next(After(commands, n), commands[n])
  {
    hide Next;
    assert commands[..n + 1][..n] == commands[..n];
  }

  /** The invariant holds in every reachable state. */
  lemma {:induction false} ReachableInv(commands: seq<Command>)
    requires hide Inv, Run;
             Run(commands).Some?
    ensures Inv(Run(commands).value)
  {
    hide Inv, Decide;
    var before := Run(commands[..|commands| - 1]);
    if before.Some? { ReachableInv(commands[..|commands| - 1]); }
    var c := commands[|commands| - 1];
    if Decide(before, c).Ok? { DecideKeeps(before, c); }
  }
}
