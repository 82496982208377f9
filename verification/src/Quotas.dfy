/** Admission: the limits of internal/scheduler/scheduler.go, and why checking them only at submissions and
    starts is enough. */
module Quotas {
  import opened Base
  import opened Settings
  import opened CanonicalForms
  import opened Model
  import opened IdOrder
  import opened Definition
  import opened Sums
  import opened Reducer
  import opened Invariant
  import opened Steps
  import opened Forms
  import opened Submission
  import opened Runs
  import opened Theorems
  import opened Usage
  import opened Ledgers

  // ----- What the workflows of an engine use -----

  datatype Scope = Everywhere | Within(namespace: string)

  datatype Resource = Workflows | Tasks | Ready | Running

  function Amount(usage: WorkflowUsage, resource: Resource): nat {
    match resource
    case Workflows => usage.workflows
    case Tasks => usage.tasks
    case Ready => usage.ready
    case Running => usage.running
  }

  predicate InScope(scope: Scope, namespace: string) {
    scope == Everywhere || scope == Within(namespace)
  }

  ghost function Weigh(scope: Scope, resource: Resource): Workflow -> nat {
    hide Amount, UsageOf;
    (w: Workflow) => if InScope(scope, w.namespace) then Amount(UsageOf(w), resource) else 0
  }

  /** What the workflows in scope use of a resource, counted afresh. */
  ghost function Used(states: map<Id, Workflow>, scope: Scope, resource: Resource): nat {
    Total(states, Weigh(scope, resource))
  }

  function Limit(config: Config, scope: Scope, resource: Resource): int
    requires resource != Ready
  {
    var limits := if scope.Everywhere? then config.global else ConfigOf(config, scope.namespace).limits;
    match resource
    case Workflows => limits.workflows
    case Tasks => limits.tasks
    case Running => limits.running
  }

  ghost predicate Obeyed(config: Config, states: map<Id, Workflow>, scope: Scope, resource: Resource)
    requires hide Limit, Used;
             resource != Ready
  {
    Used(states, scope, resource) <= Limit(config, scope, resource)
  }

  /** No limit is exceeded anywhere. */
  ghost predicate Obeys(config: Config, states: map<Id, Workflow>) {
    hide Obeyed;
    forall scope, resource | resource != Ready :: Obeyed(config, states, scope, resource)
  }

  // ----- The reservation of a submission -----

  lemma {:induction false} ReservedJoin(a: seq<TaskDefinition>, b: seq<TaskDefinition>)
    ensures ReservedTasks(a + b) == ReservedTasks(a) + ReservedTasks(b)
  {
    if b == [] {
      assert a + b == a;
    } else {
      ReservedJoin(a, b[..|b| - 1]);
      assert (a + b)[..|a + b| - 1] == a + b[..|b| - 1];
    }
  }

  lemma {:induction false} ReservedInsert(t: TaskDefinition, tasks: seq<TaskDefinition>)
    ensures ReservedTasks(InsertTask(t, tasks)) == ReservedTasks([t]) + ReservedTasks(tasks)
  {
    if tasks != [] {
      assert tasks == [tasks[0]] + tasks[1..];
      ReservedJoin([tasks[0]], tasks[1..]);
      if Before(tasks[0].id, t.id) {
        ReservedInsert(t, tasks[1..]);
        ReservedJoin([tasks[0]], InsertTask(t, tasks[1..]));
      } else {
        ReservedJoin([t], tasks);
      }
    }
  }

  /** Putting a definition in canonical order does not change what it reserves. */
  lemma {:induction false} ReservedCanonical(tasks: seq<TaskDefinition>)
    ensures ReservedTasks(CanonicalTasks(tasks)) == ReservedTasks(tasks)
  {
    if tasks != [] {
      assert tasks == [tasks[0]] + tasks[1..];
      ReservedJoin([tasks[0]], tasks[1..]);
      ReservedCanonical(tasks[1..]);
      ReservedInsert(CanonicalTask(tasks[0]), CanonicalTasks(tasks[1..]));
      assert ReservedTasks([CanonicalTask(tasks[0])]) == ReservedTasks([tasks[0]]) by {
        assert [tasks[0]][..0] == [] && [CanonicalTask(tasks[0])][..0] == [];
      }
    }
  }

  /** A fresh task table reserves what its definition asks for, and runs nothing. */
  lemma {:induction false} FreshReserves(tasks: seq<TaskDefinition>)
    requires UniqueIds(tasks)
    ensures Total(FreshTasks(tasks), Reserves) == ReservedTasks(tasks) && Total(FreshTasks(tasks), RunsNow) == 0
  {
    if tasks == [] {
      TotalZero(FreshTasks(tasks), Reserves);
      TotalZero(FreshTasks(tasks), RunsNow);
    } else {
      var front, last := tasks[..|tasks| - 1], tasks[|tasks| - 1];
      FreshReserves(front);
      var t := Task(last, TaskPending);
      assert last.id !in TaskTable(front) by {
        if last.id in TaskTable(front) { TaskTableFrom(front, last.id); }
      }
      assert FreshTasks(tasks) == FreshTasks(front)[last.id := t];
      TotalUpdate(FreshTasks(front), Reserves, last.id, t);
      TotalUpdate(FreshTasks(front), RunsNow, last.id, t);
    }
  }

  /** A submitted workflow reserves no more than its definition asks for, and runs nothing. */
  lemma {:induction false} SubmitUsage(c: Command, s': Workflow)
    requires hide ReadyAll, Submitted, UsageOf, ValidDefinition;
             Submits(c, s')
    ensures UsageOf(s').namespace == c.definition.value.namespace && UsageOf(s').workflows <= 1
    ensures UsageOf(s').tasks <= ReservedTasks(c.definition.value.tasks) && UsageOf(s').running == 0
  {
    hide Total, ReadyAll, ReservedTasks;
    var d := c.definition.value;
    var run := RunDefinition(d);
    assert UniqueIds(run.tasks) && ReservedTasks(run.tasks) == ReservedTasks(d.tasks) by {
      CanonicalValid(d);
      CanonicalValid(Canonical(d));
      ReservedCanonical(d.tasks);
      ReservedCanonical(Canonical(d).tasks);
    }
    FreshReserves(run.tasks);
    ScanReserves(FreshTasks(run.tasks), map[]);
    hide FreshTasks, CanonicalTasks, ValidDefinition;
    assert s'.tasks in {FreshTasks(run.tasks), ReadyAll(FreshTasks(run.tasks), map[])};
  }

  // ----- One accepted command -----

  /** The state that a command finds: one in the table, or one that has ended and left it. */
  ghost predicate Found(states: map<Id, Workflow>, id: Id, state: Option<Workflow>) {
    if id in states then state == Some(states[id]) else state.Some? ==> Terminal(state.value.status)
  }

  ghost function UsedBy(state: Option<Workflow>, scope: Scope, resource: Resource): nat {
    hide Weigh;
    if state.Some? then Weigh(scope, resource)(state.value) else 0
  }

  /** The running totals: what a command changes is the usage of its own workflow. */
  lemma {:induction false} UsedAfter(states: map<Id, Workflow>, id: Id, state: Option<Workflow>, next: Workflow,
                                     scope: Scope, resource: Resource)
    requires Found(states, id, state)
    ensures Used(states[id := next], scope, resource) ==
            Used(states, scope, resource) - UsedBy(state, scope, resource) + Weigh(scope, resource)(next)
  {
    TotalUpdate(states, Weigh(scope, resource), id, next);
    hide Total;
  }

  /** checkAdmission and checkRunning agree to the command, given the totals of the states before it. */
  ghost predicate Admits(config: Config, states: map<Id, Workflow>, c: Command, namespace: string) {
    hide AdmitsIn, Limit, Usage.Running, Used;
    match c.kind
    case CommandSubmit =>
      c.definition.Some? && forall scope | InScope(scope, c.definition.value.namespace) ::
          AdmitsIn(config, states, c.definition.value, scope)
    case CommandStart =>
      forall scope | InScope(scope, namespace) :: Used(states, scope, Running) + 1 <= Limit(config, scope, Running)
    case _ => true
  }

  ghost predicate AdmitsIn(config: Config, states: map<Id, Workflow>, definition: WorkflowDefinition, scope: Scope) {
    hide Limit, Used;
    && Used(states, scope, Workflows) + 1 <= Limit(config, scope, Workflows)
    && ReservedTasks(definition.tasks) <= Limit(config, scope, Tasks) - Used(states, scope, Tasks)
  }

  lemma {:induction false} EffectNamespace(s: Workflow, c: Command, s': Workflow)
    requires Effect(s, c, s')
    ensures s'.namespace == s.namespace
  {
    hide CancelAll, ReadyAll, CancelTimers, ExpandedTasks, TimeoutSettled;
  }

  /** What an accepted command can add to the usage of its workflow. */
  lemma {:induction false} UsageStep(s: Workflow, c: Command, next: Workflow, scope: Scope, resource: Resource)
    requires Inv(s) && c.at >= 0 && Effect(s, c, next) && resource != Ready
    ensures Weigh(scope, resource)(next) <=
            Weigh(scope, resource)(s) + (if c.kind == CommandStart && resource == Running
                && InScope(scope, s.namespace) then 1 else 0)
  {
    hide Inv, Effect, Total;
    EffectNamespace(s, c, next);
    EffectNotTerminal(s, c, next);
    EffectShrinks(s, c, next);
  }

  lemma {:induction false} AcceptedEffect(state: Option<Workflow>, c: Command)
    requires hide Decide, Effect, Inv, Submits;
             (state.Some? ==> Inv(state.value)) && Decide(state, c).Ok?
    ensures c.at >= 0 && state.None? ==> c.kind == CommandSubmit && Submits(c, Decide(state, c).value.state)
    ensures c.at >= 0 && (state.Some? ==>
              c.kind != CommandSubmit && Effect(state.value, c, Decide(state, c).value.state))
  {
    hide Inv, Submits, Effect, DecideSubmit, DecideStart, DecideComplete, DecideFail, DecideRenew, DecideExpire,
        DecideFireTimer, DecideCancel;
    if state.Some? {
      DecideEffect(state.value, c);
      NotSubmit(state.value, c, Decide(state, c).value.state);
    } else {
      SubmitForm(c);
    }
  }

  lemma {:induction false} NotSubmit(s: Workflow, c: Command, s': Workflow)
    requires Effect(s, c, s')
    ensures c.kind != CommandSubmit
  {
    hide Cancels, Completes, Expires, Fails, FinishesCompensation, FiresTyped, Starts;
  }

  /** One admitted command exceeds no limit. */
  lemma {:induction false} StepObeys(config: Config, states: map<Id, Workflow>, id: Id, state: Option<Workflow>,
                                     c: Command)
    requires hide Admits, Decide, Inv, Obeys;
             Found(states, id, state) && (state.Some? ==> Inv(state.value)) && Decide(state, c).Ok?
    requires Obeys(config, states) && Admits(config, states, c, NamespaceOf(state))
    ensures Obeys(config, states[id := Decide(state, c).value.state])
  {
    hide Inv, Decide, Submits, Effect, Weigh, Used;
    var next := Decide(state, c).value.state;
    var after := states[id := next];
    AcceptedEffect(state, c);
    forall scope, resource | resource != Ready ensures Obeyed(config, after, scope, resource) {
      assert Obeyed(config, states, scope, resource);
      UsedAfter(states, id, state, next, scope, resource);
      if state.Some? {
        UsageStep(state.value, c, next, scope, resource);
      } else {
        SubmitWeighs(c, next, scope, resource);
      }
    }
  }

  lemma {:induction false} SubmitWeighs(c: Command, next: Workflow, scope: Scope, resource: Resource)
    requires hide ReadyAll, Submitted, Usage.Running, ValidDefinition, Weigh;
             Submits(c, next) && resource != Ready
    ensures !InScope(scope, c.definition.value.namespace) ==> Weigh(scope, resource)(next) == 0
    ensures Weigh(scope, Workflows)(next) <= 1 && Weigh(scope, Tasks)(next) <= ReservedTasks(c.definition.value.tasks)
            && Weigh(scope, Running)(next) == 0
  {
    hide Total, ReservedTasks, RunDefinition, Submitted, ValidDefinition;
    SubmitUsage(c, next);
    hide Submits;
  }

  // ----- Batches of commands -----

  /** Every state of the engine has been reached by commands, and what has left it has ended. */
  ghost predicate Good(ledger: Ledger, loaders: Loaders) {
    hide Inv;
    && (forall id | id in ledger.states :: Inv(ledger.states[id]))
    && (loaders.Loaders? ==> forall id ::
          id !in ledger.states && loaders.state(id).Ok? && loaders.state(id).value.Some? ==>
          Inv(loaders.state(id).value.value) && Terminal(loaders.state(id).value.value.status))
  }

  function NamespaceOf(state: Option<Workflow>): string {
    if state.Some? then state.value.namespace else ""
  }

  /** One command of prepareBatch: staged, then checked against the totals before it. */
  ghost function StageOne(config: Config, ledger: Ledger, loaders: Loaders, c: Command): Result<(Answer, Ledger)> {
    hide Admits, Handle;
    var state :- ResolveState(ledger, loaders, Addressed(c).workflow);
    var handled :- Handle(ledger, loaders, c);
    var _ :- Need(handled.0.Repeat? || Admits(config, ledger.states, c, NamespaceOf(state)), ErrBackpressure);
    Ok(handled)
  }

  /** A batch of prepareBatch; a refusal of any command refuses them all. */
  ghost function StageAll(config: Config, ledger: Ledger, loaders: Loaders,
                          commands: seq<Command>): Result<(seq<Answer>, Ledger)> {
    hide StageOne;
    if commands == [] then Ok(([], ledger))
    else
      var before :- StageAll(config, ledger, loaders, commands[..|commands| - 1]);
      var last :- StageOne(config, before.1, loaders, commands[|commands| - 1]);
      Ok((before.0 + [last.0], last.1))
  }

  lemma {:induction false} PlannedNext(state: Option<Workflow>, c: Command, hash: Hash)
    requires hide Attempted, Decide, Inv, PlanCommand;
             PlanCommand(state, c, hash).Ok? && (state.Some? ==> Inv(state.value))
    ensures var attempted := Attempted(state, c);
            && attempted.Ok? && attempted.value.kind == c.kind && attempted.value.definition == c.definition
            && Decide(state, attempted.value).Ok?
                && Decide(state, attempted.value).value.state == PlanCommand(state, c, hash).value.next
            && Inv(PlanCommand(state, c, hash).value.next)
  {
    hide Inv, Decide;
    DecideKeeps(state, Attempted(state, c).value);
  }

  lemma {:induction false} FoundState(ledger: Ledger, loaders: Loaders, id: Id)
    requires hide Good, Inv;
             Good(ledger, loaders) && ResolveState(ledger, loaders, id).Ok?
    ensures var state := ResolveState(ledger, loaders, id).value;
              Found(ledger.states, id, state) && (state.Some? ==> Inv(state.value))
  {
    hide Inv;
  }

  /** A handled command leaves a good engine good. */
  lemma {:induction false} HandleGood(ledger: Ledger, loaders: Loaders, c: Command)
    requires hide Good, Handle;
             Good(ledger, loaders) && Handle(ledger, loaders, c).Ok?
    ensures Good(Handle(ledger, loaders, c).value.1, loaders)
  {
    hide PlanCommand, Inv, Decide, Attempted, StoreIndex, UpdateActive, Counted;
    if Handle(ledger, loaders, c).value.0.Fresh? {
      var addressed, hash := Addressed(c), HashCommand(c);
      FoundState(ledger, loaders, addressed.workflow);
      PlannedNext(ResolveState(ledger, loaders, addressed.workflow).value, addressed, hash);
    }
  }

  lemma {:induction false} StagedHandled(config: Config, ledger: Ledger, loaders: Loaders, c: Command)
    requires StageOne(config, ledger, loaders, c).Ok?
    ensures Handle(ledger, loaders, c) == StageOne(config, ledger, loaders, c)
  {
    hide Handle, Admits;
  }

  lemma {:induction false} StageOneObeys(config: Config, ledger: Ledger, loaders: Loaders, c: Command)
    requires hide Good, Obeys, StageOne;
             Good(ledger, loaders) && Obeys(config, ledger.states) && StageOne(config, ledger, loaders, c).Ok?
    ensures var after := StageOne(config, ledger, loaders, c).value.1;
              Good(after, loaders) && Obeys(config, after.states)
  {
    hide Inv, Decide, PlanCommand, Admits, Obeys, Attempted, Good, Canonical, HashCommand;
    HandleGood(ledger, loaders, c);
    var handled := Handle(ledger, loaders, c).value;
    if handled.0.Fresh? {
      var addressed, hash := Addressed(c), HashCommand(c);
      var state := ResolveState(ledger, loaders, addressed.workflow).value;
      FoundState(ledger, loaders, addressed.workflow);
      PlannedNext(state, addressed, hash);
      var attempted := Attempted(state, addressed).value;
      AdmitsAlike(config, ledger.states, c, attempted, NamespaceOf(state));
      StepObeys(config, ledger.states, addressed.workflow, state, attempted);
      var p := handled.0.planned;
      assert p.workflow == addressed.workflow by { PlannedFor(state, addressed, hash); }
    }
  }

  lemma {:induction false} PlannedFor(state: Option<Workflow>, c: Command, hash: Hash)
    requires hide PlanCommand;
             PlanCommand(state, c, hash).Ok?
    ensures PlanCommand(state, c, hash).value.workflow == c.workflow
  {
    hide Decide;
  }

  lemma {:induction false} AdmitsAlike(config: Config, states: map<Id, Workflow>, c: Command, d: Command,
                                       namespace: string)
    requires d.kind == c.kind && d.definition == c.definition
    ensures Admits(config, states, c, namespace) <==> Admits(config, states, d, namespace)
  {
    hide AdmitsIn, Used;
  }

  /** Staging batches never exceeds a limit, although tasks are checked only when a workflow is submitted
      and running tasks only when one is started. */
  lemma {:induction false} StageAllObeys(config: Config, ledger: Ledger, loaders: Loaders, commands: seq<Command>)
    requires hide Good, Obeys, StageAll;
             Good(ledger, loaders) && Obeys(config, ledger.states) && StageAll(config, ledger, loaders, commands).Ok?
    ensures var after := StageAll(config, ledger, loaders, commands).value.1;
              Good(after, loaders) && Obeys(config, after.states)
  {
    hide Good, Obeys, StageOne;
    if commands != [] {
      StageAllObeys(config, ledger, loaders, commands[..|commands| - 1]);
      StageOneObeys(config, StageAll(config, ledger, loaders, commands[..|commands| - 1]).value.1, loaders,
          commands[|commands| - 1]);
    }
  }

  /** A whole run of StageBatch calls, each of which takes effect whole or not at all. */
  ghost function StageRun(config: Config, batches: seq<seq<Command>>): Ledger {
    hide StageAll;
    if batches == [] then EMPTY
    else
      var before := StageRun(config, batches[..|batches| - 1]);
      match StageAll(config, before, NoLoaders, batches[|batches| - 1])
      case Ok((_, after)) => after
      case Err(_) => before
  }

  lemma {:induction false} QuotasHold(config: Config, batches: seq<seq<Command>>)
    requires hide Good, Limit, Obeys, StageRun;
             forall scope, resource | resource != Ready :: Limit(config, scope, resource) >= 0
    ensures Good(StageRun(config, batches), NoLoaders) && Obeys(config, StageRun(config, batches).states)
  {
    hide StageAll, Good, Obeys;
    if batches == [] {
      EmptyObeys(config);
    } else {
      QuotasHold(config, batches[..|batches| - 1]);
      var before, last := StageRun(config, batches[..|batches| - 1]), batches[|batches| - 1];
      if StageAll(config, before, NoLoaders, last).Ok? { StageAllObeys(config, before, NoLoaders, last); }
    }
  }

  lemma {:induction false} EmptyObeys(config: Config)
    requires hide Good, Limit, Obeys;
             forall scope, resource | resource != Ready :: Limit(config, scope, resource) >= 0
    ensures Good(EMPTY, NoLoaders) && Obeys(config, EMPTY.states)
  {
    hide Limit, Inv;
    forall scope, resource | resource != Ready ensures Obeyed(config, EMPTY.states, scope, resource) {
      assert Limit(config, scope, resource) >= 0;
      TotalZero(EMPTY.states, Weigh(scope, resource));
    }
  }

  function Chosen(states: map<Id, Workflow>, ids: set<Id>): map<Id, Workflow> {
    map id | id in states && id in ids :: states[id]
  }

  /** Workflows that have ended weigh nothing. */
  lemma {:induction false} OnlyActive(states: map<Id, Workflow>, ids: set<Id>, scope: Scope, resource: Resource)
    requires hide Used;
             forall id | id in states && id !in ids :: Terminal(states[id].status)
    ensures Used(Chosen(states, ids), scope, resource) == Used(states, scope, resource)
    decreases |states|
  {
    hide Weigh, Total, Chosen;
    if states == map[] {
      ChosenNone(ids);
    } else {
      var id :| id in states;
      var rest := states - {id};
      Smaller(states, id);
      ChosenStep(states, ids, id);
      OnlyActive(rest, ids, scope, resource);
      TotalFrom(states, Weigh(scope, resource), id);
      if id in ids {
        TotalFrom(Chosen(states, ids), Weigh(scope, resource), id);
      } else {
        EndedWeighsNothing(states[id], scope, resource);
      }
    }
  }

  lemma {:induction false} ChosenNone(ids: set<Id>)
    ensures Chosen(map[], ids) == map[]
  {
  }

  lemma {:induction false} ChosenStep(states: map<Id, Workflow>, ids: set<Id>, id: Id)
    requires id in states
    ensures id in ids ==> id in Chosen(states, ids) && Chosen(states, ids)[id] == states[id]
    ensures Chosen(states - {id}, ids) == if id in ids then Chosen(states, ids) - {id} else Chosen(states, ids)
  {
  }

  lemma {:induction false} EndedWeighsNothing(w: Workflow, scope: Scope, resource: Resource)
    requires Terminal(w.status)
    ensures Weigh(scope, resource)(w) == 0
  {
  }
}
