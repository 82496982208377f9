/** internal/scheduler/scheduler.go as it runs: running totals, admission of batches, and the scan of an engine for
    the tasks that can be leased. */
module Scheduler {
  import opened Base
  import opened Lawfulness
  import opened Settings
  import opened Model
  import opened Sums
  import opened Reducer
  import opened InPlace
  import opened Usage
  import opened Ledgers
  import opened CoreEngine
  import opened Quotas
  import opened Fairness
  import opened Selection

  // ----- Totals -----

  datatype Counts = Counts(workflows: int, tasks: int, ready: int, running: int)

  const NO_COUNTS := Counts(0, 0, 0, 0)

  /** usage: the totals of all namespaces together, and of each. */
  datatype Totals = Totals(all: Counts, byNamespace: map<string, Counts>)

  function NamespaceCounts(totals: Totals, namespace: string): Counts {
    if namespace in totals.byNamespace then totals.byNamespace[namespace] else NO_COUNTS
  }

  function CountOf(counts: Counts, resource: Resource): int {
    match resource
    case Workflows => counts.workflows
    case Tasks => counts.tasks
    case Ready => counts.ready
    case Running => counts.running
  }

  function Count(totals: Totals, scope: Scope, resource: Resource): int {
    CountOf(if scope.Everywhere? then totals.all else NamespaceCounts(totals, scope.namespace), resource)
  }

  function Moved(counts: Counts, usage: WorkflowUsage, direction: int): Counts {
    Counts(counts.workflows + usage.workflows * direction, counts.tasks + usage.tasks * direction,
           counts.ready + usage.ready * direction, counts.running + usage.running * direction)
  }

  /** accountWorkflow adds a workflow to the totals, or takes it out. */
  method Account(totals: Totals, usage: WorkflowUsage, direction: int) returns (moved: Totals)
    requires direction == 1 || direction == -1
    requires usage.workflows == 0 ==> usage.tasks == usage.ready == usage.running == 0
    ensures forall scope, resource ::
              Count(moved, scope, resource) ==
              Count(totals, scope, resource) + (if InScope(scope, usage.namespace) then Amount(usage, resource)
                  else 0) * direction
  {
    if usage.workflows == 0 { return totals; }
    moved := Totals(Moved(totals.all, usage, direction),
                    totals.byNamespace[usage.namespace := Moved(NamespaceCounts(totals, usage.namespace), usage,
                        direction)]);
  }

  /** The totals are what a fresh count of the states gives. */
  ghost predicate Tallies(totals: Totals, states: map<Id, Workflow>) {
    forall scope, resource :: Count(totals, scope, resource) == Used(states, scope, resource)
  }

  /** WorkflowUsage of an engine: what a resident or loaded workflow uses. */
  method WorkflowUsage(engine: Engine, id: Id) returns (r: Result<Option<Usage.WorkflowUsage>>)
    requires hide Engine.Valid, Engine.Value, StagingTransaction.Valid, UsageOf;
             engine.Valid()
    ensures match ResolveState(engine.Value(), engine.loaders, id)
            case Err(error) => r == Err(error)
            case Ok(None) => r == Ok(None)
            case Ok(Some(w)) => r == Ok(Some(UsageOf(w)))
  {
    hide Lawful, LawfulStates, LawfulLoaders, Coherent, Contents, UsageOf;
    var state := engine.ResolveState(id);
    if state.Err? { return Err(state.error); }
    if state.value == null { return Ok(None); }
    var usage := ComputeUsage(state.value.Value());
    return Ok(Some(usage));
  }

  /** The rest of the count: what the workflows in `left` weigh. */
  ghost predicate Counting(totals: Totals, states: map<Id, Workflow>, left: set<Id>) {
    forall scope, resource ::
      Count(totals, scope, resource) + Used(Chosen(states, left), scope, resource) == Used(states, scope, resource)
  }

  lemma {:induction false} CountingStarts(states: map<Id, Workflow>, active: set<Id>)
    requires active == ActiveOf(states)
    ensures Counting(Totals(NO_COUNTS, map[]), states, active)
  {
    hide Used, Chosen;
    forall scope, resource ensures Used(Chosen(states, active), scope, resource) == Used(states, scope, resource) {
      OnlyActive(states, active, scope, resource);
    }
  }

  lemma {:induction false} CountingStep(totals: Totals, states: map<Id, Workflow>, left: set<Id>, id: Id, moved: Totals)
    requires hide Count, Counting, Weigh;
             Counting(totals, states, left) && id in left && id in states
    requires forall scope, resource :: Count(moved, scope, resource) == Count(totals, scope, resource) + Weigh(scope,
             resource)(states[id]) * 1
    ensures Counting(moved, states, left - {id})
  {
    hide Weigh, Total, Chosen, Count;
    forall scope, resource
      ensures Count(moved, scope, resource) + Used(Chosen(states, left - {id}), scope, resource) == Used(states,
              scope, resource)
    {
      assert Count(totals, scope, resource) + Used(Chosen(states, left), scope, resource) == Used(states, scope,
          resource);
      ChosenLess(states, left, id);
      TotalFrom(Chosen(states, left), Weigh(scope, resource), id);
    }
  }

  lemma {:induction false} ChosenLess(states: map<Id, Workflow>, left: set<Id>, id: Id)
    requires id in left && id in states
    ensures id in Chosen(states, left) && Chosen(states, left)[id] == states[id]
    ensures Chosen(states, left) - {id} == Chosen(states, left - {id})
  {
  }

  lemma {:induction false} CountingEnds(totals: Totals, states: map<Id, Workflow>)
    requires Counting(totals, states, {})
    ensures Tallies(totals, states)
  {
    hide Weigh, Total, Count;
    assert Chosen(states, {}) == map[];
    forall scope, resource ensures Count(totals, scope, resource) == Used(states, scope, resource) {
      assert Count(totals, scope, resource) + Used(Chosen(states, {}), scope, resource) == Used(states, scope,
          resource);
      TotalZero(Chosen(states, {}), Weigh(scope, resource));
    }
  }

  /** inspect without capabilities: a fresh count over the active workflows. */
  method Inspect(engine: Engine) returns (totals: Totals)
    requires hide Engine.Valid, Engine.Value, StagingTransaction.Valid, Tallies;
             engine.Valid()
    ensures Tallies(totals, engine.Value().states)
  {
    hide Lawful, LawfulStates, LawfulLoaders, Counting, Used, Weigh, Tallies, Amount, UsageOf, Count;
    totals := Totals(NO_COUNTS, map[]);
    var left := engine.active;
    ghost var states := engine.Value().states;
    CountingStarts(states, left);
    while left != {}
      invariant left <= engine.active && Counting(totals, states, left)
      decreases |left|
    {
      var id :| id in left;
      assert id in ActiveOf(states);
      var usage := WorkflowUsage(engine, id);
      var moved := AccountUsage(totals, usage.value.value, 1, states[id]);
      CountingStep(totals, states, left, id, moved);
      totals := moved;
      left := left - {id};
    }
    CountingEnds(totals, states);
  }

  /** Accounting for a workflow by what it weighs. */
  method AccountUsage(totals: Totals, usage: Usage.WorkflowUsage, direction: int, ghost w: Workflow)
    returns (moved: Totals)
    requires (direction == 1 || direction == -1) && usage == UsageOf(w)
    ensures forall scope, resource ::
              Count(moved, scope, resource) == Count(totals, scope, resource) + Weigh(scope, resource)(w) * direction
  {
    hide Total;
    moved := Account(totals, usage, direction);
    hide Count;
    assert usage.namespace == w.namespace;
  }

  // ----- Admission -----

  /** checkAdmission: globally, then in the namespace. */
  method CheckAdmission(config: Config, totals: Totals, definition: WorkflowDefinition) returns (ok: bool)
    ensures ok <==> forall scope | InScope(scope, definition.namespace) ::
                      && Count(totals, scope, Workflows) + 1 <= Limit(config, scope, Workflows)
                      && ReservedTasks(definition.tasks) <= Limit(config, scope, Tasks) - Count(totals, scope, Tasks)
  {
    hide ReservedTasks;
    var requested := ComputeReservedTasks(definition.tasks);
    var namespace := Within(definition.namespace);
    assert InScope(Everywhere, definition.namespace) && InScope(namespace, definition.namespace);
    if Count(totals, Everywhere, Workflows) + 1 > config.global.workflows { return false; }
    if requested > config.global.tasks - Count(totals, Everywhere, Tasks) { return false; }
    var limits := ConfigOf(config, definition.namespace).limits;
    if Count(totals, namespace, Workflows) + 1 > limits.workflows { return false; }
    if requested > limits.tasks - Count(totals, namespace, Tasks) { return false; }
    return true;
  }

  /** checkRunning: globally, then in the namespace. */
  method CheckRunning(config: Config, totals: Totals, name: string) returns (ok: bool)
    ensures ok <==> forall scope | InScope(scope, name) ::
            Count(totals, scope, Running) + 1 <= Limit(config, scope, Running)
  {
    var namespace := Within(name);
    assert InScope(Everywhere, name) && InScope(namespace, name);
    if Count(totals, Everywhere, Running) + 1 > config.global.running { return false; }
    if Count(totals, namespace, Running) + 1 > ConfigOf(config, name).limits.running { return false; }
    return true;
  }

  /** The checks against the running totals agree with the checks against a fresh count. */
  method Admit(config: Config, totals: Totals, c: Command, namespace: string, ghost states: map<Id, Workflow>)
    returns (ok: bool)
    requires Tallies(totals, states) && (c.kind == CommandSubmit ==> c.definition.Some?)
    ensures ok <==> Admits(config, states, c, namespace)
  {
    hide Count, Used, Limit, ReservedTasks, InScope;
    ok := true;
    if c.kind == CommandSubmit { ok := CheckAdmission(config, totals, c.definition.value); }
    if c.kind == CommandStart { ok := CheckRunning(config, totals, namespace); }
  }

  /** Taking out what the workflow used and adding what it uses now keeps the totals exact. */
  method Reaccount(totals: Totals, ghost states: map<Id, Workflow>, ghost id: Id, ghost state: Option<Workflow>,
                   ghost next: Workflow,
                   before: Option<Usage.WorkflowUsage>, after: Usage.WorkflowUsage) returns (moved: Totals)
    requires hide Tallies, UsageOf;
             Tallies(totals, states) && Found(states, id, state) && after == UsageOf(next)
    requires before == if state.Some? then Some(UsageOf(state.value)) else None
    ensures Tallies(moved, states[id := next])
  {
    hide Count, Used, Weigh, UsageOf;
    moved := totals;
    if before.Some? { moved := AccountUsage(moved, before.value, -1, state.value); }
    ghost var less := moved;
    moved := AccountUsage(moved, after, 1, next);
    forall scope, resource ensures Count(moved, scope, resource) == Used(states[id := next], scope, resource) {
      assert Count(totals, scope, resource) == Used(states, scope, resource);
      UsedAfter(states, id, state, next, scope, resource);
      assert Count(less, scope, resource) == Count(totals, scope, resource) - UsedBy(state, scope, resource);
    }
  }

  lemma {:induction false} FreshAfter(ledger: Ledger, loaders: Loaders, c: Command)
    requires hide Handle;
             Handle(ledger, loaders, c).Ok? && Handle(ledger, loaders, c).value.0.Fresh?
    ensures var (answer, after) := Handle(ledger, loaders, c).value;
            && answer.planned.workflow == Addressed(c).workflow
            && after.states == ledger.states[Addressed(c).workflow := answer.planned.next]
            && (c.kind == CommandSubmit ==> c.definition.Some?)
  {
    hide PlanCommand, HashCommand;
    var addressed := Addressed(c);
    var state := ResolveState(ledger, loaders, addressed.workflow).value;
    PlannedFor(state, addressed, HashCommand(c));
    if c.kind == CommandSubmit { SubmitDefined(state, addressed, HashCommand(c)); }
  }

  lemma {:induction false} SubmitDefined(state: Option<Workflow>, c: Command, hash: Hash)
    requires PlanCommand(state, c, hash).Ok? && c.kind == CommandSubmit
    ensures c.definition.Some?
  {
    hide Add, AddReadyTasks, Reducer.ApplyEvent, Definition.ValidDefinition, Definition.Canonical;
  }

  /** One command of the loop of prepareBatch. */
  method StageCommand(tx: StagingTransaction, config: Config, totals: Totals, c: Command)
    returns (r: Result<(Answer, Totals)>)
    requires hide Engine.Valid, Engine.Value, Good, StageOne, StagingTransaction.Valid, Tallies;
             tx.Valid() && tx.open && tx.workflows <= tx.engine.states.Keys
    requires Good(tx.engine.Value(), tx.engine.loaders) && Tallies(totals, tx.engine.Value().states)
    modifies tx, tx.engine, tx.Owned()
    ensures tx.Valid() && (tx.open ==> fresh(tx.Owned() - old(tx.Owned())) && tx.workflows <= tx.engine.states.Keys)
    ensures !tx.open ==> tx.engine.Value() == tx.base
    ensures match StageOne(config, old(tx.engine.Value()), tx.engine.loaders, c)
            case Err(error) => r == Err(error)
            case Ok((answer, after)) =>
              r.Ok? && r.value.0 == answer && tx.open && tx.engine.Value() == after && Tallies(r.value.1, after.states)
  {
    hide Lawful, LawfulStates, LawfulLoaders, Coherent, Contents, Handle, Tallies, Admits, Good, UsageOf, Separate;
    var workflow := Addressed(c).workflow;
    ghost var ledger := tx.engine.Value();
    ghost var state := ResolveState(ledger, tx.engine.loaders, workflow);
    var before := WorkflowUsage(tx.engine, workflow);
    if before.Err? { return Err(before.error); }
    FoundState(ledger, tx.engine.loaders, workflow);
    var answer := tx.PrepareAndApply(c);
    if answer.Err? { return Err(answer.error); }
    if answer.value.Repeat? {
      RepeatKeeps(ledger, tx.engine.loaders, c);
      return Ok((answer.value, totals));
    }
    FreshAfter(ledger, tx.engine.loaders, c);
    r := AccountFor(tx, config, totals, c, ledger.states, state.value, before.value, answer.value);
  }

  /** The limits and the running totals after an accepted command. */
  method AccountFor(tx: StagingTransaction, config: Config, totals: Totals, c: Command, ghost states: map<Id, Workflow>,
                    ghost state: Option<Workflow>, before: Option<Usage.WorkflowUsage>, answer: Answer)
                        returns (r: Result<(Answer, Totals)>)
    requires hide Admits, Engine.Valid, Engine.Value, StagingTransaction.Valid, Tallies, UsageOf;
             tx.Valid() && answer.Fresh?
             && tx.engine.Value().states == states[Addressed(c).workflow := answer.planned.next]
    requires Tallies(totals, states) && Found(states, Addressed(c).workflow, state)
             && (c.kind == CommandSubmit ==> c.definition.Some?)
    requires before == if state.Some? then Some(UsageOf(state.value)) else None
    ensures if Admits(config, states, c, NamespaceOf(state)) then r.Ok? && r.value.0 == answer
            && Tallies(r.value.1, tx.engine.Value().states)
            else r == Err(ErrBackpressure)
  {
    hide Lawful, LawfulStates, LawfulLoaders, Coherent, Contents, Tallies, Admits, UsageOf, Separate;
    var namespace := if before.Some? then before.value.namespace else "";
    UsageNamespace(state);
    var admitted := Admit(config, totals, c, namespace, states);
    if !admitted { return Err(ErrBackpressure); }
    var after := WorkflowUsage(tx.engine, Addressed(c).workflow);
    var moved := Reaccount(totals, states, Addressed(c).workflow, state, answer.planned.next, before,
        after.value.value);
    return Ok((answer, moved));
  }

  lemma {:induction false} UsageNamespace(state: Option<Workflow>)
    ensures state.Some? ==> UsageOf(state.value).namespace == NamespaceOf(state)
  {
  }

  lemma {:induction false} RepeatKeeps(ledger: Ledger, loaders: Loaders, c: Command)
    requires hide Handle;
             Handle(ledger, loaders, c).Ok? && Handle(ledger, loaders, c).value.0.Repeat?
    ensures Handle(ledger, loaders, c).value.1 == ledger
  {
    hide PlanFresh, HashCommand, Ledgers.Prepare;
  }

  /** prepareBatch: commands are staged one after another, each checked against totals that always equal a
      fresh count. Kept (StageBatch), the engine is as if each command had been handled and admitted on its
      own; dropped (PrepareBatch), or refused, it is as it was. */
  method PrepareBatch(engine: Engine, config: Config, commands: seq<Command>, retain: bool)
    returns (r: Result<seq<Answer>>)
    requires hide Engine.Valid, Engine.Value, Good, StageAll, StagingTransaction.Valid;
             engine.Valid() && Good(engine.Value(), engine.loaders)
    modifies engine
    ensures engine.Valid()
    ensures match StageAll(config, old(engine.Value()), engine.loaders, commands)
            case Err(error) => r == Err(error) && engine.Value() == old(engine.Value())
            case Ok((answers, after)) => r == Ok(answers) && engine.Value() == if retain then after
                else old(engine.Value())
  {
    hide Lawful, LawfulStates, LawfulLoaders, Coherent, Contents, Tallies, StageOne, Good, Separate, Count, Used;
    var tx := new StagingTransaction(engine);
    var totals := Inspect(engine);
    var answers: seq<Answer> := [];
    ghost var start := engine.Value();
    for i := 0 to |commands|
      invariant tx.Valid() && tx.open && tx.engine == engine && tx.base == start && fresh(tx) && fresh(tx.Owned())
      invariant tx.workflows <= engine.states.Keys && Tallies(totals, engine.Value().states)
      invariant Good(engine.Value(), engine.loaders)
      invariant StageAll(config, start, engine.loaders, commands[..i]) == Ok((answers, engine.Value()))
    {
      assert commands[..i + 1][..i] == commands[..i];
      ghost var ledger := engine.Value();
      var staged := StageCommand(tx, config, totals, commands[i]);
      if staged.Err? {
        tx.Rollback();
        StuckStage(config, start, engine.loaders, commands, i + 1);
        return Err(staged.error);
      }
      StagedHandled(config, ledger, engine.loaders, commands[i]);
      HandleGood(ledger, engine.loaders, commands[i]);
      answers, totals := answers + [staged.value.0], staged.value.1;
    }
    assert commands[..|commands|] == commands;
    if retain { tx.Commit(); } else { tx.Rollback(); }
    return Ok(answers);
  }

  lemma {:induction false} StuckStage(config: Config, ledger: Ledger, loaders: Loaders, commands: seq<Command>, n: nat)
    requires hide StageAll;
             n <= |commands| && StageAll(config, ledger, loaders, commands[..n]).Err?
    ensures StageAll(config, ledger, loaders, commands) == Err(StageAll(config, ledger, loaders, commands[..n]).error)
  {
    hide StageOne;
    if n < |commands| {
      assert commands[..|commands| - 1][..n] == commands[..n];
      StuckStage(config, ledger, loaders, commands[..|commands| - 1], n);
    } else {
      assert commands[..n] == commands;
    }
  }

  // ----------------------------------------------------------------------------------------------------
  // inspect of internal/scheduler/scheduler.go for the capabilities of a worker: what Plan looks at, taken from the
  // workflows of an engine; and Plan and Commit over a stretch.
  // ----------------------------------------------------------------------------------------------------

  /** The capability that a worker needs to be given the task, if it may be given at all. */
  function CapabilityOf(t: Task): Option<string> {
    if t.status == TaskReady then Some(t.definition.taskType)
    else if t.status == TaskCompensating && t.compensation && t.worker == "" then t.definition.compensation
    else None
  }

  /** The workflow offers the task to workers with some of the capabilities. */
  predicate Offers(id: Id, w: Workflow, capabilities: set<string>, c: Candidate) {
    && c.workflow == id && c.namespace == w.namespace && c.updatedAt == w.updatedAt && c.task in w.tasks
    && CapabilityOf(w.tasks[c.task]) == Some(c.capability) && c.capability in capabilities
  }

  /** The scan of one workflow. */
  method Offered(id: Id, w: Workflow, capabilities: set<string>) returns (found: seq<Candidate>)
    ensures forall c :: c in found <==> Offers(id, w, capabilities, c)
  {
    found := [];
    var rest := w.tasks.Keys;
    while rest != {}
      invariant rest <= w.tasks.Keys && forall c :: c in found <==> Offers(id, w, capabilities, c) && c.task !in rest
      decreases |rest|
    {
      var x :| x in rest;
      rest := rest - {x};
      var capability := CapabilityOf(w.tasks[x]);
      if capability.Some? && capability.value in capabilities {
        found := found + [Candidate(id, x, w.namespace, capability.value, w.updatedAt)];
      }
    }
  }

  /** An open workflow of the engine offers the task, in this namespace. */
  ghost predicate OffersIn(states: map<Id, Workflow>, among: set<Id>, capabilities: set<string>, namespace: string,
                           c: Candidate) {
    c.namespace == namespace && c.workflow in among && c.workflow in states
        && Offers(c.workflow, states[c.workflow], capabilities, c)
  }

  ghost predicate Listed(candidates: map<string, seq<Candidate>>, states: map<Id, Workflow>, among: set<Id>,
                         capabilities: set<string>) {
    forall namespace, c :: (namespace in candidates && c in candidates[namespace])
        <==> OffersIn(states, among, capabilities, namespace, c)
  }

  method AddOffered(candidates: map<string, seq<Candidate>>, ghost states: map<Id, Workflow>, ghost among: set<Id>,
                    capabilities: set<string>,
                    id: Id, w: Workflow)
    returns (more: map<string, seq<Candidate>>)
    requires Listed(candidates, states, among, capabilities) && id in states && w == states[id] && id !in among
    ensures Listed(more, states, among + {id}, capabilities)
  {
    hide Offers;
    var found := Offered(id, w, capabilities);
    forall c | Offers(id, w, capabilities, c) ensures c.namespace == w.namespace
        && c.workflow == id { OfferedBy(id, w, capabilities, c); }
    more := candidates[w.namespace := (if w.namespace in candidates then candidates[w.namespace] else []) + found];
    forall namespace, c
      ensures (namespace in more && c in more[namespace])
              <==> OffersIn(states, among + {id}, capabilities, namespace, c)
    {
      assert (namespace in candidates && c in candidates[namespace])
          <==> OffersIn(states, among, capabilities, namespace, c);
      if c in found { assert Offers(id, w, capabilities, c); }
      if namespace != w.namespace && Offers(id, w, capabilities, c) { OfferedBy(id, w, capabilities, c); }
    }
  }

  lemma {:induction false} OfferedBy(id: Id, w: Workflow, capabilities: set<string>, c: Candidate)
    requires Offers(id, w, capabilities, c)
    ensures c.namespace == w.namespace && c.workflow == id
  {
  }

  /** The scan of some workflows. */
  method ListOffered(open: map<Id, Workflow>, capabilities: set<string>)
    returns (candidates: map<string, seq<Candidate>>)
    ensures Listed(candidates, open, open.Keys, capabilities)
  {
    hide Listed;
    candidates := map[];
    var left := open.Keys;
    ghost var done: set<Id> := {};
    NoneListed(open, capabilities);
    while left != {}
      invariant left !! done && left + done == open.Keys && Listed(candidates, open, done, capabilities)
      decreases |left|
    {
      var id :| id in left;
      candidates := AddOffered(candidates, open, done, capabilities, id, open[id]);
      left, done := left - {id}, done + {id};
    }
    assert done == open.Keys;
  }

  /** The workflows in the active set. */
  method OpenWorkflows(engine: Engine) returns (open: map<Id, Workflow>)
    requires hide Engine.Valid, Engine.Value;
             engine.Valid()
    ensures open.Keys == ActiveOf(engine.Value().states)
            && forall id | id in open :: open[id] == engine.Value().states[id]
  {
    hide Lawful, LawfulStates, LawfulLoaders, IndexOf;
    open := map id | id in engine.active && id in engine.states :: engine.states[id].Value();
  }

  lemma {:induction false} ListedSame(candidates: map<string, seq<Candidate>>, open: map<Id, Workflow>,
                                      states: map<Id, Workflow>, capabilities: set<string>)
    requires Listed(candidates, open, open.Keys, capabilities) && open.Keys <= states.Keys
             && forall id | id in open :: open[id] == states[id]
    ensures Listed(candidates, states, open.Keys, capabilities)
  {
    hide Offers;
    forall namespace, c
      ensures (namespace in candidates && c in candidates[namespace])
              <==> OffersIn(states, open.Keys, capabilities, namespace, c)
    {
      assert (namespace in candidates && c in candidates[namespace])
          <==> OffersIn(open, open.Keys, capabilities, namespace, c);
    }
  }

  /** inspect for some capabilities: the running counts are those of a recount, and the candidates are exactly the tasks
      that the open workflows of the engine offer, each under its namespace. */
  method InspectFor(engine: Engine, capabilities: set<string>) returns (view: View)
    requires hide Engine.Valid, Engine.Value, Listed, Usage.Running, Used;
             engine.Valid()
    ensures view.running == Used(engine.Value().states, Everywhere, Running)
    ensures forall x :: RunningIn(view, x) == Used(engine.Value().states, Within(x), Running)
    ensures Listed(view.candidates, engine.Value().states, ActiveOf(engine.Value().states), capabilities)
  {
    hide Engine.Valid, Used, Listed;
    var totals := Inspect(engine);
    ghost var states := engine.Value().states;
    var open := OpenWorkflows(engine);
    var candidates := ListOffered(open, capabilities);
    ListedSame(candidates, open, states, capabilities);
    view := View(totals.all.running, map x | x in totals.byNamespace :: totals.byNamespace[x].running, candidates);
    forall x ensures RunningIn(view, x) == Used(states, Within(x), Running) {
      assert Count(totals, Within(x), Running) == Used(states, Within(x), Running);
    }
    assert Count(totals, Everywhere, Running) == Used(states, Everywhere, Running);
  }

  lemma {:induction false} NoneListed(states: map<Id, Workflow>, capabilities: set<string>)
    ensures Listed(map[], states, {}, capabilities)
  {
    hide Offers;
  }

  // ----- A stretch -----

  /** What the stretch asks of each view: the same eligible namespaces, and room for one more running task. */
  ghost predicate Steady(config: Config, names: seq<string>, view: View) {
    hide EligibleNames;
    && EligibleNames(config, view) == names && view.running < config.global.running
    && forall x, c | x in view.candidates && c in view.candidates[x] :: c.workflow != NO_ID
  }

  /** Planning and committing over a stretch with a fixed eligible set, from empty credits: pick after pick the
      scheduler serves the namespaces that module Fairness speaks of, and its credits are the ones there. */
  method Serve(scheduler: Selection.Scheduler, names: seq<string>, views: seq<View>) returns (leases: seq<Lease>)
    requires hide Credits, Pick, Steady;
             scheduler.current == map[] && names != [] && (forall x :: ConfigOf(scheduler.config, x).weight >= 1)
    requires |names| * Sum(names, WeightOf(scheduler.config)) <= MAX_INT64
    requires forall i | 0 <= i < |views| :: Steady(scheduler.config, names, views[i])
    modifies scheduler
    ensures scheduler.current == Credits(names, WeightOf(scheduler.config), |views|) && |leases| == |views|
    ensures forall i | 0 <= i < |leases| ::
              var pick := Pick(names, WeightOf(scheduler.config), i);
              pick in views[i].candidates && leases[i].task in views[i].candidates[pick]
  {
    hide Sum, EligibleNames, Pick, Credits, Steady;
    leases := [];
    var weight := WeightOf(scheduler.config);
    assert Credits(names, weight, 0) == map[] by { NoCredits(names, weight); }
    if views != [] { Distinct(scheduler.config, names, views[0]); }
    for i := 0 to |views|
      invariant scheduler.current == Credits(names, weight, i) && |leases| == i
      invariant forall k | 0 <= k < i :: var pick := Pick(names, weight, k);
                  pick in views[k].candidates && leases[k].task in views[k].candidates[pick]
    {
      var lease := ServeOne(scheduler, names, views[i], i);
      leases := leases + [lease];
    }
  }

  lemma {:induction false} NoCredits(names: seq<string>, weight: string -> int)
    requires names != []
    ensures Credits(names, weight, 0) == map[]
  {
  }

  method ServeOne(scheduler: Selection.Scheduler, names: seq<string>, view: View, ghost n: nat) returns (lease: Lease)
    requires hide Credits, Pick, Steady;
             Fairness.Eligible(names, WeightOf(scheduler.config))
             && scheduler.current == Credits(names, WeightOf(scheduler.config), n)
    requires (forall x :: ConfigOf(scheduler.config, x).weight >= 1)
             && |names| * Sum(names, WeightOf(scheduler.config)) <= MAX_INT64
    requires Steady(scheduler.config, names, view)
    modifies scheduler
    ensures scheduler.current == Credits(names, WeightOf(scheduler.config), n + 1)
    ensures var pick := Pick(names, WeightOf(scheduler.config), n);
              pick in view.candidates && lease.task in view.candidates[pick]
  {
    hide Sum, Charged, Fits, EligibleNames, Selected;
    GuardsPass(names, WeightOf(scheduler.config), n);
    var plan := scheduler.Plan(view);
    var ok := scheduler.Commit(plan.value);
    lease := plan.value;
  }

  lemma {:induction false} Distinct(config: Config, names: seq<string>, view: View)
    requires Steady(config, names, view) && names != [] && forall x :: ConfigOf(config, x).weight >= 1
    ensures Fairness.Eligible(names, WeightOf(config))
  {
    hide EligibleNames;
  }
}
