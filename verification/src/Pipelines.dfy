/** Planning ahead of commit: a planner that mirrors the log decides as the log would, what keeps it in step, and the
    pipeline and the Raft log it plans against as one machine. */
module Pipelines {
  import opened Base
  import opened Theorems
  import opened Settings
  import opened Model
  import opened Reducer
  import opened Invariant
  import opened Lawfulness
  import opened Usage
  import opened Ledgers
  import opened Chronicle
  import opened Retention
  import opened Quotas

  /** The committed state, the staged entries that follow it in the log, and the planner. */
  datatype World = World(durable: Ledger, pending: seq<Batch>, planner: Ledger)

  /** The same state, or the same ended workflow with its contents compacted away. */
  predicate Similar(a: Workflow, b: Workflow) {
    a == b || (Terminal(b.status) && a == Header(b))
  }

  predicate Alike(a: Option<Workflow>, b: Option<Workflow>) {
    if a.None? then b.None? else b.Some? && Similar(a.value, b.value)
  }

  /** The same answer, but for the events of a compacted receipt. */
  predicate SameAnswer(a: Answer, b: Answer) {
    match a
    case Fresh(p) => b == a
    case Repeat(x) => b.Repeat? && x.hash == b.record.hash && x.workflow == b.record.workflow
  }

  /** What the planner holds is what the log gives, and what it does not hold is as committed. */
  ghost predicate Mirrors(planner: Ledger, durable: Ledger, full: Ledger) {
    hide Similar;
    && (forall id | id in planner.states :: id in full.states && Similar(planner.states[id], full.states[id]))
    && (forall id | id in full.states && id !in planner.states :: Terminal(full.states[id].status))
    && (forall id | id !in planner.states :: Lookup(full.states, id) == Lookup(durable.states, id))
    && (forall r | r in planner.requests :: r in full.requests && SameReceipt(planner.requests[r], full.requests[r]))
    && (forall r | r !in planner.requests :: LookupRecord(full, r) == LookupRecord(durable, r))
  }

  predicate SameReceipt(a: Record, b: Record) {
    a.hash == b.hash && a.workflow == b.workflow
  }

  ghost predicate Sound(ledger: Ledger) {
    hide Inv, Lawful;
    && (forall id | id in ledger.states ::
          id != NO_ID && ledger.states[id].id == id && Inv(ledger.states[id]) && Lawful(ledger.states[id]))
    && NO_ID !in ledger.requests
  }

  // ----- One command -----

  lemma {:induction false} StatesAlike(planner: Ledger, durable: Ledger, full: Ledger, id: Id)
    requires hide Alike, Mirrors, Sound;
             Mirrors(planner, durable, full) && Sound(durable) && Sound(full)
    ensures var a, b := ResolveState(planner, Stored(durable), id), ResolveState(full, NoLoaders, id);
            a.Ok? && b.Ok? && Alike(a.value, b.value) && b.value == Lookup(full.states, id)
  {
    hide Inv, Lawful, Header;
  }

  lemma {:induction false} RequestsAlike(planner: Ledger, durable: Ledger, full: Ledger, r: Id)
    requires hide Mirrors, Sound;
             Mirrors(planner, durable, full) && Sound(durable) && Sound(full)
    ensures var a, b := ResolveRequest(planner, Stored(durable), r), ResolveRequest(full, NoLoaders, r);
            && a.Ok? && b.Ok? && b.value == LookupRecord(full, r)
            && (if a.value.None? then b.value.None? else b.value.Some? && SameReceipt(a.value.value, b.value.value))
  {
    hide Inv, Lawful, Similar;
    assert r !in planner.requests ==> LookupRecord(full, r) == LookupRecord(durable, r);
  }

  /** A command that is planned found a workflow that has not ended. */
  lemma {:induction false} PlannedOpen(w: Workflow, c: Command, hash: Hash)
    requires Inv(w) && Terminal(w.status)
    ensures PlanCommand(Some(w), c, hash).Err?
  {
    hide Inv, Decide;
    var attempted := Attempted(Some(w), c);
    if attempted.Ok? { EndedRefuses(w, attempted.value); }
  }

  lemma {:induction false} PlansAlike(a: Option<Workflow>, b: Option<Workflow>, c: Command, hash: Hash)
    requires hide Alike, Inv, PlanCommand;
             Alike(a, b) && (b.Some? ==> Inv(b.value))
    ensures PlanCommand(a, c, hash).Ok? <==> PlanCommand(b, c, hash).Ok?
    ensures PlanCommand(a, c, hash).Ok? ==> a == b
  {
    hide Inv, PlanCommand;
    if a != b {
      HeaderGood(b.value);
      PlannedOpen(a.value, c, hash);
      PlannedOpen(b.value, c, hash);
    }
  }

  /** The planner and the engine of the whole log prepare a command alike. */
  lemma {:induction false} PreparesAlike(planner: Ledger, durable: Ledger, full: Ledger, c: Command)
    requires hide Mirrors, Prepare, Sound;
             Mirrors(planner, durable, full) && Sound(durable) && Sound(full)
    ensures var a, b := Prepare(planner, Stored(durable), c), Prepare(full, NoLoaders, c);
            (a.Ok? <==> b.Ok?) && (a.Ok? ==> SameAnswer(a.value, b.value))
  {
    hide Mirrors, PlanCommand, Inv, Lawful, Similar;
    var addressed, hash := Addressed(c), HashCommand(c);
    hide HashCommand;
    RequestsAlike(planner, durable, full, c.request);
    StatesAlike(planner, durable, full, addressed.workflow);
    var a, b := ResolveState(planner, Stored(durable), addressed.workflow).value,
        ResolveState(full, NoLoaders, addressed.workflow).value;
    FullState(full, addressed.workflow);
    PlansAlike(a, b, addressed, hash);
  }

  lemma {:induction false} FullState(full: Ledger, id: Id)
    requires hide Inv, Lawful, Sound;
             Sound(full)
    ensures id in full.states ==>
              Inv(full.states[id]) && full.states[id].id == id && Lawful(full.states[id]) && id != NO_ID
  {
    hide Inv, Lawful;
  }

  /** A prepared batch applies to the state it was prepared from, and gives what was planned. */
  lemma {:induction false} PreparedApplies(full: Ledger, c: Command)
    requires hide Accept, ApplyBatch, BatchOf, HashCommand, Prepare, Sound;
             Sound(full) && Prepare(full, NoLoaders, c).Ok? && Prepare(full, NoLoaders, c).value.Fresh?
    ensures var p := Prepare(full, NoLoaders, c).value.planned;
            && p.workflow != NO_ID && c.request != NO_ID && c.request !in full.requests
            && ApplyBatch(full, NoLoaders, BatchOf(c, p)) ==
               Ok((Applied(Outcome(p.workflow, p.events, false)),
                   Accept(full, c.request, HashCommand(c), p.workflow, p.events, p.next)))
  {
    hide PlanCommand, Inv, Lawful, ApplyAll, Accept, Sound;
    var addressed, hash := Addressed(c), HashCommand(c);
    hide HashCommand;
    var state := ResolveState(full, NoLoaders, addressed.workflow).value;
    FullState(full, addressed.workflow);
    PlannedWorkflow(state, addressed, hash);
    PlannedNamed(state, addressed, hash);
    var p := PlanCommand(state, addressed, hash).value;
    forall i | 0 <= i < |p.events| ensures BatchMatches(BatchOf(c, p), p.events[i]) { assert p.events[i] in p.events; }
  }

  lemma {:induction false} PlannedNamed(state: Option<Workflow>, c: Command, hash: Hash)
    requires hide Blank, Lawful, PlanCommand;
             hash != NoHash && PlanCommand(state, c, hash).Ok?
             && (state.Some? ==> state.value.id == c.workflow && Lawful(state.value))
    ensures !Blank(c.workflow)
  {
    hide PlanCommand, ApplyAll, Lawful;
    PlannedWorkflow(state, c, hash);
    var p := PlanCommand(state, c, hash).value;
    AppliedNamed(state, p.events);
    assert p.events[|p.events| - 1] in p.events;
  }

  /** The log entry of an accepted command. */
  function BatchOf(c: Command, p: Planned): Batch {
    hide HashCommand;
    Batch(BATCH_VERSION, c.request, HashCommand(c), p.workflow, p.events)
  }

  lemma {:induction false} MirrorsAccept(planner: Ledger, durable: Ledger, full: Ledger, request: Id, hash: Hash,
                                         workflow: Id, events: seq<Event>, next: Workflow)
    requires Mirrors(planner, durable, full)
    ensures Mirrors(Accept(planner, request, hash, workflow, events, next), durable,
            Accept(full, request, hash, workflow, events, next))
  {
    hide StoreIndex, UpdateActive, Counted, Header;
  }

  lemma {:induction false} SoundAccept(full: Ledger, c: Command)
    requires hide Accept, HashCommand, Prepare, Sound;
             Sound(full) && Prepare(full, NoLoaders, c).Ok? && Prepare(full, NoLoaders, c).value.Fresh?
    ensures var p := Prepare(full, NoLoaders, c).value.planned;
            Sound(Accept(full, c.request, HashCommand(c), p.workflow, p.events, p.next))
  {
    hide PlanCommand, Inv, Lawful, StoreIndex, UpdateActive, Counted, Decide, Attempted;
    var addressed, hash := Addressed(c), HashCommand(c);
    hide HashCommand;
    var state := ResolveState(full, NoLoaders, addressed.workflow).value;
    FullState(full, addressed.workflow);
    PlannedWorkflow(state, addressed, hash);
    PlannedNext(state, addressed, hash);
  }

  /** The planner and the engine of the whole log handle a command alike, and stay alike. */
  lemma {:induction false} HandlesAlike(planner: Ledger, durable: Ledger, full: Ledger, c: Command)
    requires hide Handle, Mirrors, Sound;
             Mirrors(planner, durable, full) && Sound(durable) && Sound(full)
    ensures var a, b := Handle(planner, Stored(durable), c), Handle(full, NoLoaders, c);
            && (a.Ok? <==> b.Ok?)
            && (a.Ok? ==>
                  SameAnswer(a.value.0, b.value.0) && Mirrors(a.value.1, durable, b.value.1) && Sound(b.value.1))
  {
    hide Mirrors, Prepare, Inv, Lawful, Sound, Accept, HashCommand;
    PreparesAlike(planner, durable, full, c);
    var b := Prepare(full, NoLoaders, c);
    if b.Ok? && b.value.Fresh? {
      var p := b.value.planned;
      MirrorsAccept(planner, durable, full, c.request, HashCommand(c), p.workflow, p.events, p.next);
      SoundAccept(full, c);
    }
  }

  // ----- Quotas -----

  lemma {:induction false} UsedAlike(planner: Ledger, durable: Ledger, full: Ledger, scope: Scope, resource: Resource)
    requires hide Mirrors, Used;
             Mirrors(planner, durable, full)
    ensures Used(planner.states, scope, resource) == Used(full.states, scope, resource)
  {
    hide Used, Chosen, Mirrors;
    var open := set id | id in full.states && !Terminal(full.states[id].status);
    OpenAlike(planner, durable, full, open);
    OnlyActive(full.states, open, scope, resource);
    OnlyActive(planner.states, open, scope, resource);
  }

  /** What has not ended is in both, and the same. */
  lemma {:induction false} OpenAlike(planner: Ledger, durable: Ledger, full: Ledger, open: set<Id>)
    requires hide Mirrors;
             Mirrors(planner, durable, full) && open == set id | id in full.states && !Terminal(full.states[id].status)
    ensures Chosen(planner.states, open) == Chosen(full.states, open)
    ensures forall id | id in planner.states && id !in open :: Terminal(planner.states[id].status)
  {
    hide SameReceipt, LookupRecord, Lookup;
  }

  lemma {:induction false} AdmitsMirrored(config: Config, planner: Ledger, durable: Ledger, full: Ledger, c: Command,
                                          namespace: string)
    requires Mirrors(planner, durable, full)
    ensures Admits(config, planner.states, c, namespace) <==> Admits(config, full.states, c, namespace)
  {
    hide Mirrors, Used, Limit, ReservedTasks, InScope;
    forall scope, resource ensures Used(planner.states, scope, resource) == Used(full.states, scope, resource) {
      UsedAlike(planner, durable, full, scope, resource);
    }
    forall scope, definition ensures AdmitsIn(config, planner.states, definition, scope)
        <==> AdmitsIn(config, full.states, definition, scope) {}
  }

  /** A staged command is admitted or refused as the engine of the whole log would. */
  lemma {:induction false} StagesAlike(config: Config, planner: Ledger, durable: Ledger, full: Ledger, c: Command)
    requires hide Mirrors, Sound, StageOne;
             Mirrors(planner, durable, full) && Sound(durable) && Sound(full)
    ensures var a, b := StageOne(config, planner, Stored(durable), c), StageOne(config, full, NoLoaders, c);
            && (a.Ok? <==> b.Ok?)
            && (a.Ok? ==>
                  SameAnswer(a.value.0, b.value.0) && Mirrors(a.value.1, durable, b.value.1) && Sound(b.value.1))
  {
    hide Mirrors, Handle, Inv, Lawful, Sound, Admits, Similar, Header;
    StatesAlike(planner, durable, full, Addressed(c).workflow);
    HandlesAlike(planner, durable, full, c);
    var a := ResolveState(planner, Stored(durable), Addressed(c).workflow).value;
    var b := ResolveState(full, NoLoaders, Addressed(c).workflow).value;
    AlikeNamespace(a, b);
    AdmitsMirrored(config, planner, durable, full, c, NamespaceOf(b));
  }

  lemma {:induction false} AlikeNamespace(a: Option<Workflow>, b: Option<Workflow>)
    requires Alike(a, b)
    ensures NamespaceOf(a) == NamespaceOf(b)
  {
  }

  predicate SameAnswers(a: seq<Answer>, b: seq<Answer>) {
    |a| == |b| && forall i | 0 <= i < |a| :: SameAnswer(a[i], b[i])
  }

  /** Speculation is exact: a batch of commands is accepted or refused by the planner exactly as by the engine
      that the log through the last staged entry gives, and both plan the same entries. */
  lemma {:induction false} SpeculationExact(config: Config, planner: Ledger, durable: Ledger, full: Ledger,
                                            commands: seq<Command>)
    requires hide Mirrors, SameAnswers, Sound, StageAll;
             Mirrors(planner, durable, full) && Sound(durable) && Sound(full)
    ensures var a, b := StageAll(config, planner, Stored(durable), commands),
            StageAll(config, full, NoLoaders, commands);
            && (a.Ok? <==> b.Ok?)
            && (a.Ok? ==>
                  SameAnswers(a.value.0, b.value.0) && Mirrors(a.value.1, durable, b.value.1) && Sound(b.value.1))
  {
    hide Mirrors, StageOne, Sound, SameAnswer;
    if commands != [] {
      var front, last := commands[..|commands| - 1], commands[|commands| - 1];
      SpeculationExact(config, planner, durable, full, front);
      var a, b := StageAll(config, planner, Stored(durable), front), StageAll(config, full, NoLoaders, front);
      if a.Ok? { StagesAlike(config, a.value.1, durable, b.value.1, last); }
    }
  }

  // ----- The staged entries apply -----

  /** The entries of the accepted commands. */
  function Entries(commands: seq<Command>, answers: seq<Answer>): seq<Batch>
    requires |commands| == |answers|
  {
    if commands == [] then []
    else
      var rest := Entries(commands[..|commands| - 1], answers[..|answers| - 1]);
      match answers[|answers| - 1]
      case Repeat(_) => rest
      case Fresh(p) => rest + [BatchOf(commands[|commands| - 1], p)]
  }

  function Outcomes(batches: seq<Batch>): seq<Application> {
    seq(|batches|, i requires 0 <= i < |batches| => Applied(Outcome(batches[i].workflow, batches[i].events, false)))
  }

  /** Every entry applies without error, as staged, and every state on the way is sound. */
  ghost predicate Applies(ledger: Ledger, batches: seq<Batch>) {
    hide ApplyBatches, Sound;
    && Sound(ledger)
    && (if batches == [] then true
        else
          && Applies(ledger, batches[..|batches| - 1])
          && ApplyBatches(ledger, NoLoaders, batches).Ok?
          && ApplyBatches(ledger, NoLoaders, batches).value.0 == Outcomes(batches)
          && Sound(ApplyBatches(ledger, NoLoaders, batches).value.1))
  }

  ghost function LogResult(ledger: Ledger, batches: seq<Batch>): Ledger
    requires hide Sound, ApplyBatch, Outcomes;
             Applies(ledger, batches)
  {
    ApplyBatches(ledger, NoLoaders, batches).value.1
  }

  lemma {:induction false} AppliesMore(ledger: Ledger, batches: seq<Batch>, batch: Batch, next: Ledger)
    requires hide Applies, ApplyBatch, LogResult, Sound;
             Applies(ledger, batches) && Sound(next)
    requires ApplyBatch(LogResult(ledger, batches), NoLoaders,
             batch) == Ok((Applied(Outcome(batch.workflow, batch.events, false)), next))
    ensures Applies(ledger, batches + [batch]) && LogResult(ledger, batches + [batch]) == next
  {
    hide ApplyBatch, Sound;
    var all := batches + [batch];
    assert all[..|all| - 1] == batches;
    assert batches == [] ==> ApplyBatches(ledger, NoLoaders, batches) == Ok(([], ledger));
    assert Outcomes(all) == Outcomes(batches) + [Applied(Outcome(batch.workflow, batch.events, false))];
  }

  ghost predicate EntriesOk(durable: Ledger, pending: seq<Batch>, commands: seq<Command>,
                            staged: (seq<Answer>, Ledger)) {
    hide Applies, Entries, LogResult;
    && |staged.0| == |commands| && Applies(durable, pending + Entries(commands, staged.0))
    && LogResult(durable, pending + Entries(commands, staged.0)) == staged.1
  }

  lemma {:induction false} EntriesJoin(durable: Ledger, pending: seq<Batch>, front: seq<Command>,
                                       staged: (seq<Answer>, Ledger), c: Command, handled: (Answer, Ledger))
    requires hide Applies, BatchOf, Entries, LogResult;
             EntriesOk(durable, pending, front, staged)
             && EntryOk(durable, pending + Entries(front, staged.0), c, handled)
    ensures EntriesOk(durable, pending, front + [c], (staged.0 + [handled.0], handled.1))
  {
    hide Applies, LogResult, BatchOf;
    var commands, answers := front + [c], staged.0 + [handled.0];
    assert commands[..|commands| - 1] == front && answers[..|answers| - 1] == staged.0;
    if handled.0.Fresh? {
      assert Entries(commands, answers) == Entries(front, staged.0) + [BatchOf(c, handled.0.planned)];
      assert pending + Entries(commands, answers) == pending + Entries(front,
          staged.0) + [BatchOf(c, handled.0.planned)];
    }
  }

  /** Staging on the engine of the whole log extends the log by entries that apply. */
  lemma {:induction false} EntriesApply(config: Config, durable: Ledger, pending: seq<Batch>, commands: seq<Command>)
    requires hide Applies, EntriesOk, LogResult, StageAll;
             Applies(durable, pending) && StageAll(config, LogResult(durable, pending), NoLoaders, commands).Ok?
    ensures EntriesOk(durable, pending, commands, StageAll(config, LogResult(durable, pending), NoLoaders,
            commands).value)
  {
    hide StageOne, Applies, LogResult;
    var full := LogResult(durable, pending);
    if commands == [] {
      assert pending + [] == pending;
    } else {
      var front, last := commands[..|commands| - 1], commands[|commands| - 1];
      EntriesApply(config, durable, pending, front);
      var staged := StageAll(config, full, NoLoaders, front).value;
      hide Entries;
      EntryApplies(config, durable, pending + Entries(front, staged.0), last);
      hide EntryOk;
      var handled := StageOne(config, staged.1, NoLoaders, last).value;
      EntriesJoin(durable, pending, front, staged, last, handled);
      assert front + [last] == commands;
      hide EntriesOk;
    }
  }

  /** A repeated command leaves the log as it was; an accepted one extends it by its entry. */
  ghost predicate EntryOk(durable: Ledger, pending: seq<Batch>, c: Command, handled: (Answer, Ledger))
    requires hide ApplyBatches, BatchOf, LogResult, Sound;
             Applies(durable, pending)
  {
    if handled.0.Repeat? then handled.1 == LogResult(durable, pending)
    else
      && Applies(durable, pending + [BatchOf(c, handled.0.planned)])
      && LogResult(durable, pending + [BatchOf(c, handled.0.planned)]) == handled.1
  }

  lemma {:induction false} EntryApplies(config: Config, durable: Ledger, pending: seq<Batch>, c: Command)
    requires hide Applies, EntryOk, LogResult, StageOne;
             Applies(durable, pending) && StageOne(config, LogResult(durable, pending), NoLoaders, c).Ok?
    ensures EntryOk(durable, pending, c, StageOne(config, LogResult(durable, pending), NoLoaders, c).value)
  {
    hide Prepare, Admits, Inv, Lawful, ApplyBatch, ApplyBatches, Accept, HashCommand, LogResult, StageOne;
    var full := LogResult(durable, pending);
    assert Sound(full) by { AppliesSound(durable, pending); }
    hide Sound, Applies;
    StagedHandled(config, full, NoLoaders, c);
    var answer := StageOne(config, full, NoLoaders, c).value.0;
    if answer.Fresh? {
      PreparedApplies(full, c);
      SoundAccept(full, c);
      var p := answer.planned;
      AppliesMore(durable, pending, BatchOf(c, p),
          Accept(full, c.request, HashCommand(c), p.workflow, p.events, p.next));
    }
  }

  lemma {:induction false} AppliesSound(ledger: Ledger, batches: seq<Batch>)
    requires hide Applies, LogResult, Sound;
             Applies(ledger, batches)
    ensures Sound(LogResult(ledger, batches))
  {
    hide Sound, ApplyBatch;
  }

  // ----------------------------------------------------------------------------------------------------
  // What keeps a planner in step with the log: staging, compacting and evicting on it, and committing a prefix of what
  // it is ahead by.
  // ----------------------------------------------------------------------------------------------------

  /** The planner holds every workflow and request that a staged entry touches. */
  predicate Held(planner: Ledger, b: Batch) {
    && b.workflow in planner.states && b.request in planner.requests
    && planner.requests[b.request].workflow == b.workflow
  }

  ghost predicate InStep(w: World) {
    hide Applies, LogResult, Mirrors;
    && Applies(w.durable, w.pending)
    && Mirrors(w.planner, w.durable, LogResult(w.durable, w.pending))
    && forall b | b in w.pending :: Held(w.planner, b)
  }

  // ----- What a log leaves alone -----

  lemma {:induction false} Untouched(ledger: Ledger, batches: seq<Batch>, id: Id, r: Id)
    requires hide ApplyBatches;
             ApplyBatches(ledger, NoLoaders, batches).Ok?
    ensures (forall b | b in batches :: b.workflow != id) ==>
              Lookup(ApplyBatches(ledger, NoLoaders, batches).value.1.states, id) == Lookup(ledger.states, id)
    ensures (forall b | b in batches :: b.request != r) ==>
              LookupRecord(ApplyBatches(ledger, NoLoaders, batches).value.1, r) == LookupRecord(ledger, r)
  {
    hide ApplyAll, StoreIndex, UpdateActive, Counted;
    if batches != [] {
      var front, last := batches[..|batches| - 1], batches[|batches| - 1];
      assert batches == front + [last];
      Untouched(ledger, front, id, r);
      OneTouches(ApplyBatches(ledger, NoLoaders, front).value.1, last, id, r);
      hide ApplyBatch;
    }
  }

  lemma {:induction false} OneTouches(ledger: Ledger, b: Batch, id: Id, r: Id)
    requires hide ApplyBatch;
             ApplyBatch(ledger, NoLoaders, b).Ok?
    ensures b.workflow != id
            ==> Lookup(ApplyBatch(ledger, NoLoaders, b).value.1.states, id) == Lookup(ledger.states, id)
    ensures b.request != r ==> LookupRecord(ApplyBatch(ledger, NoLoaders, b).value.1, r) == LookupRecord(ledger, r)
  {
    hide ApplyAll, StoreIndex, UpdateActive, Counted;
  }

  /** The last entry of a log that applies. */
  lemma {:induction false} AppliesLast(ledger: Ledger, batches: seq<Batch>)
    requires hide Applies, ApplyBatch, LogResult, Sound;
             batches != [] && Applies(ledger, batches)
    ensures var front, last := batches[..|batches| - 1], batches[|batches| - 1];
            && Applies(ledger, front) && Sound(LogResult(ledger, batches))
            && ApplyBatch(LogResult(ledger, front), NoLoaders, last) ==
               Ok((Applied(Outcome(last.workflow, last.events, false)), LogResult(ledger, batches)))
  {
    hide ApplyBatch, Sound;
    var front := batches[..|batches| - 1];
    var applications := ApplyBatches(ledger, NoLoaders, batches).value.0;
    assert applications[|front|] == Outcomes(batches)[|front|];
    assert Applies(ledger, front);
    assert |ApplyBatches(ledger, NoLoaders, front).value.0| == |front| by {
      if front == [] { assert ApplyBatches(ledger, NoLoaders, front) == Ok(([], ledger)); }
    }
  }

  lemma {:induction false} LogJoins(ledger: Ledger, a: seq<Batch>, b: seq<Batch>)
    requires hide Applies, LogResult;
             Applies(ledger, a + b)
    ensures Applies(ledger, a) && Applies(LogResult(ledger, a), b)
            && LogResult(LogResult(ledger, a), b) == LogResult(ledger, a + b)
  {
    hide ApplyBatch, Sound;
    if b == [] {
      assert a + b == a;
      AppliesSound(ledger, a);
    } else {
      hide Applies, LogResult;
      var front, last := b[..|b| - 1], b[|b| - 1];
      assert (a + b)[..|a + b| - 1] == a + front && (a + b)[|a + b| - 1] == last;
      AppliesLast(ledger, a + b);
      LogJoins(ledger, a, front);
      AppliesMore(LogResult(ledger, a), front, last, LogResult(ledger, a + b));
      assert front + [last] == b;
    }
  }

  // ----- Beginning, compacting, evicting, committing -----

  /** A pipeline begins with an empty tail. */
  function Begin(durable: Ledger): World {
    hide Retained;
    World(durable, [], Retained(durable))
  }

  lemma {:induction false} BeginInStep(durable: Ledger)
    requires Sound(durable)
    ensures InStep(Begin(durable))
  {
    hide Inv, Lawful, IndexOf, ActiveOf;
    var w := Begin(durable);
    assert LogResult(durable, []) == durable;
    forall id | id !in w.planner.states ensures Lookup(durable.states, id) == Lookup(w.durable.states, id) {}
  }

  lemma {:induction false} CompactInStep(w: World, id: Id)
    requires InStep(w)
    ensures InStep(w.(planner := CompactTerminal(w.planner, id)))
  {
    hide Applies, Sound, Mirrors;
    var after := CompactTerminal(w.planner, id);
    CompactMirrors(w.planner, w.durable, LogResult(w.durable, w.pending), id);
    hide LogResult;
    forall b | b in w.pending ensures Held(after, b) { assert Held(w.planner, b); }
  }

  lemma {:induction false} CompactShape(planner: Ledger, id: Id)
    ensures var after := CompactTerminal(planner, id);
            && after.states.Keys == planner.states.Keys && after.requests.Keys == planner.requests.Keys
            && (forall x | x in planner.states :: after.states[x] == planner.states[x]
                                                  || (Terminal(planner.states[x].status)
                                                      && after.states[x] == Header(planner.states[x])))
            && (forall r | r in planner.requests :: SameReceipt(after.requests[r], planner.requests[r]))
  {
    hide Header;
  }

  lemma {:induction false} CompactMirrors(planner: Ledger, durable: Ledger, full: Ledger, id: Id)
    requires Mirrors(planner, durable, full)
    ensures Mirrors(CompactTerminal(planner, id), durable, full)
  {
    hide CompactTerminal, Similar;
    CompactShape(planner, id);
    var after := CompactTerminal(planner, id);
    forall x | x in after.states ensures x in full.states && Similar(after.states[x], full.states[x]) {
      SimilarCompacted(planner.states[x], after.states[x], full.states[x]);
    }
  }

  lemma {:induction false} SimilarCompacted(a: Workflow, compacted: Workflow, b: Workflow)
    requires Similar(a, b) && (compacted == a || (Terminal(a.status) && compacted == Header(a)))
    ensures Similar(compacted, b)
  {
  }

  lemma {:induction false} EvictInStep(w: World, id: Id)
    requires InStep(w) && forall b | b in w.pending :: b.workflow != id
    ensures InStep(w.(planner := EvictTerminal(w.planner, id)))
  {
    hide Applies, Sound, Header, ApplyBatches;
    var after, full := EvictTerminal(w.planner, id), LogResult(w.durable, w.pending);
    TailOk(w);
    forall b | b in w.pending ensures Held(after, b) { assert Held(w.planner, b); }
    forall x | x !in after.states ensures Lookup(full.states, x) == Lookup(w.durable.states, x) {
      if x == id { Untouched(w.durable, w.pending, x, NO_ID); }
    }
    forall r | r !in after.requests ensures LookupRecord(full, r) == LookupRecord(w.durable, r) {
      if r in w.planner.requests && w.planner.requests[r].workflow == id {
        forall b | b in w.pending ensures b.request != r { assert Held(w.planner, b); }
        Untouched(w.durable, w.pending, NO_ID, r);
      }
    }
    EvictMirrors(w.planner, w.durable, full, id);
  }

  lemma {:induction false} TailOk(w: World)
    requires Applies(w.durable, w.pending)
    ensures ApplyBatches(w.durable, NoLoaders, w.pending).Ok?
  {
    hide Sound, ApplyBatch;
  }

  lemma {:induction false} EvictMirrors(planner: Ledger, durable: Ledger, full: Ledger, id: Id)
    requires Mirrors(planner, durable, full)
    requires var after := EvictTerminal(planner, id);
             && (forall x | x !in after.states :: Lookup(full.states, x) == Lookup(durable.states, x))
             && (forall r | r !in after.requests :: LookupRecord(full, r) == LookupRecord(durable, r))
    ensures Mirrors(EvictTerminal(planner, id), durable, full)
  {
  }

  lemma {:induction false} CommitInStep(w: World, n: nat)
    requires hide ApplyBatches, InStep;
             InStep(w) && n <= |w.pending|
    ensures ApplyBatches(w.durable, NoLoaders, w.pending[..n]).Ok?
    ensures InStep(World(ApplyBatches(w.durable, NoLoaders, w.pending[..n]).value.1, w.pending[n..], w.planner))
  {
    hide Sound, Header, ApplyBatches;
    var done, rest := w.pending[..n], w.pending[n..];
    assert w.pending == done + rest;
    LogJoins(w.durable, done, rest);
    var durable, full := LogResult(w.durable, done), LogResult(w.durable, w.pending);
    TailOk(World(w.durable, done, w.planner));
    hide Applies;
    forall id | id !in w.planner.states ensures Lookup(full.states, id) == Lookup(durable.states, id) {
      forall b | b in done ensures b.workflow != id { assert b in w.pending && Held(w.planner, b); }
      Untouched(w.durable, done, id, NO_ID);
    }
    forall r | r !in w.planner.requests ensures LookupRecord(full, r) == LookupRecord(durable, r) {
      forall b | b in done ensures b.request != r { assert b in w.pending && Held(w.planner, b); }
      Untouched(w.durable, done, NO_ID, r);
    }
  }

  // ----- Staging -----

  lemma {:induction false} EntriesSame(commands: seq<Command>, a: seq<Answer>, b: seq<Answer>)
    requires hide Entries;
             |commands| == |a| && SameAnswers(a, b)
    ensures Entries(commands, a) == Entries(commands, b)
  {
    hide BatchOf;
    if commands != [] {
      assert SameAnswer(a[|a| - 1], b[|b| - 1]);
      EntriesSame(commands[..|commands| - 1], a[..|a| - 1], b[..|b| - 1]);
    }
  }

  /** Staging only adds to the planner, and adds what it stages. */
  lemma {:induction false} StagedHeld(config: Config, planner: Ledger, loaders: Loaders, commands: seq<Command>)
    requires hide Entries, StageAll;
             StageAll(config, planner, loaders, commands).Ok?
    ensures var (answers, after) := StageAll(config, planner, loaders, commands).value;
            && |answers| == |commands|
            && (forall b | Held(planner, b) :: Held(after, b))
            && (forall b | b in Entries(commands, answers) :: Held(after, b))
  {
    hide StageOne, Held, BatchOf;
    if commands != [] {
      var front, last := commands[..|commands| - 1], commands[|commands| - 1];
      StagedHeld(config, planner, loaders, front);
      var (answers, mid) := StageAll(config, planner, loaders, front).value;
      var all := StageAll(config, planner, loaders, commands).value.0;
      assert all[..|all| - 1] == answers;
      OneHeld(config, mid, loaders, last);
    }
  }

  lemma {:induction false} OneHeld(config: Config, planner: Ledger, loaders: Loaders, c: Command)
    requires hide BatchOf, StageOne;
             StageOne(config, planner, loaders, c).Ok?
    ensures var handled := StageOne(config, planner, loaders, c).value;
            && (forall b | Held(planner, b) :: Held(handled.1, b))
            && (handled.0.Fresh? ==> Held(handled.1, BatchOf(c, handled.0.planned)))
  {
    hide PlanFresh, Admits, StoreIndex, UpdateActive, Counted, HashCommand, StageOne;
    StagedHandled(config, planner, loaders, c);
    var handled := StageOne(config, planner, loaders, c).value;
    if handled.0.Fresh? { NewRequest(planner, loaders, c); }
  }

  lemma {:induction false} NewRequest(planner: Ledger, loaders: Loaders, c: Command)
    requires hide Prepare;
             Prepare(planner, loaders, c).Ok? && Prepare(planner, loaders, c).value.Fresh?
    ensures c.request !in planner.requests
  {
    hide PlanFresh, HashCommand;
  }

  lemma {:induction false} StageInStep(config: Config, w: World, commands: seq<Command>)
    requires hide Entries, InStep, StageAll;
             InStep(w) && StageAll(config, w.planner, Stored(w.durable), commands).Ok?
    ensures var (answers, planner) := StageAll(config, w.planner, Stored(w.durable), commands).value;
            |answers| == |commands| && InStep(World(w.durable, w.pending + Entries(commands, answers), planner))
  {
    hide Mirrors, StageAll, Held, ApplyBatches, BatchOf, Entries, LogResult;
    var full := LogResult(w.durable, w.pending);
    AppliesSound(w.durable, w.pending);
    assert Sound(w.durable);
    hide Sound, Applies;
    SpeculationExact(config, w.planner, w.durable, full, commands);
    EntriesApply(config, w.durable, w.pending, commands);
    StagedHeld(config, w.planner, Stored(w.durable), commands);
    var a, b := StageAll(config, w.planner, Stored(w.durable), commands).value,
        StageAll(config, full, NoLoaders, commands).value;
    EntriesSame(commands, a.0, b.0);
  }

  // ----------------------------------------------------------------------------------------------------
  // The proposal pipeline of internal/coordinator/runtime.go and the Raft log it plans against, as one machine: the
  // loop opens a planner at the applied tail of the log, a goroutine prepares proposals on it, prepared groups are
  // appended, and in between Raft moves, entries are applied, and finished proposals are answered and their workflows
  // evicted.
  // ----------------------------------------------------------------------------------------------------

  /** One position of the log: what one proposal appended, or any other node did. */
  datatype Entry = Entry(term: nat, batches: seq<Batch>)

  /** What preparing a proposal came to: an answer, or entries to append. */
  datatype Prepared = Settled | Staged(batches: seq<Batch>, workflows: seq<Id>)

  /** activeProposal */
  datatype Active = Active(workflows: seq<Id>, expected: nat)

  /** What the loop, the preparing goroutine and Raft hold on one node. The log is the whole history; `durable` is the
      engine of what has been applied, and `led` the last term this node led in. */
  datatype Node = Node(
    term: nat, leader: bool, led: nat, log: seq<Entry>, applied: nat, durable: Ledger,
    planner: Option<Ledger>, pipelineTerm: nat, pipelineLast: nat, active: seq<Active>, evictions: set<Id>,
    prepareActive: bool, prepareFailed: bool, waiting: seq<seq<Command>>, prepared: seq<Prepared>)

  const STARTED := Node(0, false, 0, [], 0, EMPTY, None, 0, 0, [], {}, false, false, [], [])

  datatype Step =
    | Open                                                      // startProposal takes a planner
    | Start(group: seq<seq<Command>>)                           // startPreparation hands a group over
    | Work(refused: bool)                                    // the goroutine prepares the next proposal
    | Finish(accepted: bool)                                    // finishPreparation
    | Sweep(found: set<nat>, order: seq<Id>)                    // checkProposal and the evictions it leads to
    | Fail                                                      // failPipeline
    | Apply(upto: nat)                                          // committed entries are applied
    | Motion(term: nat, leader: bool, log: seq<Entry>)          // Raft moves on

  // ----- The pieces of a step -----

  /** pipelineValid */
  predicate PipelineValid(n: Node) {
    n.leader && n.term == n.pipelineTerm && |n.log| == n.pipelineLast
  }

  function AppliedTerm(n: Node): nat {
    if 0 < n.applied <= |n.log| then n.log[n.applied - 1].term else 0
  }

  /** The batches of some entries, in log order. */
  function Flat(entries: seq<Entry>): seq<Batch> {
    if entries == [] then [] else Flat(entries[..|entries| - 1]) + entries[|entries| - 1].batches
  }

  /** The entries of a prepared group. */
  function Appended(term: nat, prepared: seq<Prepared>): seq<Entry> {
    if prepared == [] then []
    else
      var front := Appended(term, prepared[..|prepared| - 1]);
      match prepared[|prepared| - 1]
      case Settled => front
      case Staged(batches, _) => front + [Entry(term, batches)]
  }

  /** Its proposals, expected one after the other past the tail. */
  function Activated(last: nat, prepared: seq<Prepared>): seq<Active> {
    if prepared == [] then []
    else
      var front := Activated(last, prepared[..|prepared| - 1]);
      match prepared[|prepared| - 1]
      case Settled => front
      case Staged(_, workflows) => front + [Active(workflows, last + |front| + 1)]
  }

  function Added(workflows: seq<Id>, id: Id): seq<Id> {
    if id == NO_ID || id in workflows then workflows else workflows + [id]
  }

  /** proposalWorkflowIDs */
  function WorkflowsOf(commands: seq<Command>, batches: seq<Batch>): seq<Id> {
    if batches != [] then Added(WorkflowsOf(commands, batches[..|batches| - 1]), batches[|batches| - 1].workflow)
    else if commands != [] then
      Added(WorkflowsOf(commands[..|commands| - 1], []), Addressed(commands[|commands| - 1]).workflow)
    else []
  }

  function CompactAll(planner: Ledger, ids: seq<Id>): Ledger {
    if ids == [] then planner else CompactTerminal(CompactAll(planner, ids[..|ids| - 1]), ids[|ids| - 1])
  }

  function EvictAll(planner: Ledger, ids: seq<Id>): Ledger {
    if ids == [] then planner else EvictTerminal(EvictAll(planner, ids[..|ids| - 1]), ids[|ids| - 1])
  }

  /** A proposal that a sweep looks up and finds. */
  predicate Done(a: Active, found: set<nat>, applied: nat) {
    a.expected <= applied && a.expected in found
  }

  /** The proposals that a sweep leaves active, in order. */
  function Kept(active: seq<Active>, found: set<nat>, applied: nat): seq<Active> {
    if active == [] then []
    else
      var front := Kept(active[..|active| - 1], found, applied);
      if Done(active[|active| - 1], found, applied) then front else front + [active[|active| - 1]]
  }

  function Committed(active: seq<Active>, found: set<nat>, applied: nat): set<Id> {
    set i, id | 0 <= i < |active| && Done(active[i], found, applied) && id in active[i].workflows :: id
  }

  function Busy(active: seq<Active>): set<Id> {
    set i, id | 0 <= i < |active| && id in active[i].workflows :: id
  }

  /** resetPipeline */
  function Reset(n: Node): Node {
    n.(planner := None, pipelineTerm := 0, pipelineLast := 0, evictions := {})
  }

  /** failPipeline */
  function Failed(n: Node): Node {
    if n.prepareActive
    then n.(active := [], prepareFailed := true, pipelineTerm := 0, pipelineLast := 0, evictions := {})
    else Reset(n.(active := []))
  }

  /** StageBatch on the planner, and the compaction of what ended. */
  ghost function PreparedNext(config: Config, n: Node, planner: Ledger, commands: seq<Command>): Node {
    hide StageAll, Stored, Entries, WorkflowsOf, CompactAll;
    match StageAll(config, planner, Stored(n.durable), commands)
    case Err(_) => n.(prepared := n.prepared + [Settled])
    case Ok((answers, after)) =>
      if |answers| != |commands| || Entries(commands, answers) == []
      then n.(planner := Some(after), prepared := n.prepared + [Settled])
      else
        var batches := Entries(commands, answers);
        var workflows := WorkflowsOf(commands, batches);
        n.(planner := Some(CompactAll(after, workflows)), prepared := n.prepared + [Staged(batches, workflows)])
  }

  /** A group that is ready goes to Raft. */
  function Finished(n: Node): Node {
    n.(prepareActive := false, prepared := [], log := n.log + Appended(n.term, n.prepared),
       active := n.active + Activated(n.pipelineLast, n.prepared),
       pipelineLast := n.pipelineLast + |Appended(n.term, n.prepared)|)
  }

  /** The sweep over the active proposals, and evictCommittedPlannerWorkflows: what is to be evicted waits for a
      preparation to end, and what an active proposal touches is left out. */
  function Swept(n: Node, planner: Ledger, found: set<nat>, order: seq<Id>): Node {
    var active := Kept(n.active, found, n.applied);
    var evictions := n.evictions + Committed(n.active, found, n.applied);
    if n.prepareActive then n.(active := active, evictions := evictions)
    else if (set id | id in order) != evictions - Busy(active) then n
    else
      var m := n.(active := active, evictions := {}, planner := Some(EvictAll(planner, order)));
      if active == [] then Reset(m) else m
  }

  /** Some batches turn one engine into another. */
  ghost predicate Gives(before: Ledger, batches: seq<Batch>, after: Ledger) {
    hide ApplyBatches;
    match ApplyBatches(before, NoLoaders, batches)
    case Ok(done) => done.1 == after
    case Err(_) => false
  }

  /** What Raft promises between two looks: terms do not go back, what is applied stays, a node leads a term once, and
      while it leads its log is only appended to. */
  predicate Moves(n: Node, term: nat, leader: bool, log: seq<Entry>) {
    && n.term <= term && n.applied <= |n.log| && n.log[..n.applied] <= log
    && (leader ==> 0 < term)
    && (leader && !(n.leader && n.term == term) ==> n.led < term)
    && (leader && n.leader && n.term == term ==> n.log <= log)
  }

  /** One step; a step that cannot be taken changes nothing. Entries that are applied lead to states that the engine
      keeps its invariants on, whichever node they come from. */
  ghost function Next(config: Config, n: Node, step: Step): Node {
    hide PreparedNext, Gives, Sound, Flat, Swept, Finished, Retained;
    match step
    case Open =>
      if n.leader && n.planner.None? && !n.prepareActive && AppliedTerm(n) == n.term && n.applied == |n.log|
      then n.(planner := Some(Retained(n.durable)), pipelineTerm := n.term, pipelineLast := |n.log|) else n
    case Start(group) =>
      if n.planner.Some? && PipelineValid(n) && !n.prepareActive && group != []
      then n.(prepareActive := true, waiting := group) else n
    case Work(refused) =>
      if !n.prepareActive || n.waiting == [] || n.planner.None? then n
      else if refused then n.(waiting := n.waiting[1..], prepared := n.prepared + [Settled])
      else PreparedNext(config, n.(waiting := n.waiting[1..]), n.planner.value, n.waiting[0])
    case Finish(accepted) =>
      if !n.prepareActive || n.waiting != [] then n
      else if n.prepareFailed then Reset(n.(prepareActive := false, prepareFailed := false, prepared := []))
      else if PipelineValid(n) && accepted then Finished(n)
      else Failed(n.(prepareActive := false, prepared := []))
    case Sweep(found, order) =>
      if n.planner.Some? && PipelineValid(n) then Swept(n, n.planner.value, found, order) else n
    case Fail => Failed(n)
    case Apply(upto) =>
      if n.applied <= upto <= |n.log|
         && exists after :: Gives(n.durable, Flat(n.log[n.applied..upto]), after) && Sound(after)
      then
        var after :| Gives(n.durable, Flat(n.log[n.applied..upto]), after) && Sound(after);
        n.(applied := upto, durable := after)
      else n
    case Motion(term, leader, log) =>
      if Moves(n, term, leader, log)
      then n.(term := term, leader := leader, log := log, led := if leader then term else n.led) else n
  }

  // ----- The invariant -----

  /** The batches that the planner is ahead by: those of the log that are not applied, and those still being
      prepared. */
  function Tail(log: seq<Entry>, applied: nat, term: nat, prepared: seq<Prepared>): seq<Batch> {
    if applied <= |log| then Flat(log[applied..] + Appended(term, prepared)) else []
  }

  function TailOf(n: Node): seq<Batch> {
    Tail(n.log, n.applied, n.term, n.prepared)
  }

  predicate Within(batches: seq<Batch>, workflows: seq<Id>) {
    forall b | b in batches :: b.workflow in workflows
  }

  /** Every position past the applied index is an active proposal's, and touches only its workflows. */
  predicate Covered(active: seq<Active>, log: seq<Entry>, applied: nat) {
    forall i | applied <= i < |log| :: Claimed(active, log[i], i + 1)
  }

  predicate Claimed(active: seq<Active>, e: Entry, expected: nat) {
    exists a :: a in active && a.expected == expected && Within(e.batches, a.workflows)
  }

  predicate Listed(prepared: seq<Prepared>) {
    forall p | p in prepared && p.Staged? :: Within(p.batches, p.workflows)
  }

  /** The planner is in step with the log through its last position and with what is being prepared. */
  ghost predicate Coupled(n: Node) {
    hide InStep, TailOf, Covered, Listed;
    n.planner.Some? && PipelineValid(n) ==>
      InStep(World(n.durable, TailOf(n), n.planner.value)) && Covered(n.active, n.log, n.applied) && Listed(n.prepared)
  }

  predicate Flagged(n: Node) {
    && n.applied <= |n.log| && n.led <= n.term && (n.leader ==> n.led == n.term && 0 < n.term)
    && (!n.prepareActive ==> n.prepared == [] && n.waiting == [] && !n.prepareFailed)
    && (n.prepareFailed ==> n.pipelineTerm == 0)
    && (n.prepareActive ==> n.planner.Some?)
    && n.pipelineTerm <= n.led
    && (n.leader && n.term == n.pipelineTerm ==> n.pipelineLast <= |n.log|)
  }

  ghost predicate Valid(n: Node) {
    hide Coupled, Sound, Gives, Flat;
    Flagged(n) && Coupled(n) && Sound(n.durable) && Gives(EMPTY, Flat(n.log[..n.applied]), n.durable)
  }

  // ----- Logs -----

  lemma {:induction false} FlatJoin(a: seq<Entry>, b: seq<Entry>)
    ensures Flat(a + b) == Flat(a) + Flat(b)
  {
    if b == [] {
      assert a + b == a;
    } else {
      FlatJoin(a, b[..|b| - 1]);
      assert (a + b)[..|a + b| - 1] == a + b[..|b| - 1];
    }
  }

  lemma {:induction false} FlatMember(entries: seq<Entry>, b: Batch)
    requires b in Flat(entries)
    ensures exists i :: 0 <= i < |entries| && b in entries[i].batches
  {
    if b !in entries[|entries| - 1].batches {
      FlatMember(entries[..|entries| - 1], b);
      var i :| 0 <= i < |entries| - 1 && b in entries[..|entries| - 1][i].batches;
      assert b in entries[i].batches;
    }
  }

  lemma {:induction false} GivesJoin(before: Ledger, a: seq<Batch>, mid: Ledger, b: seq<Batch>, after: Ledger)
    requires Gives(before, a, mid) && Gives(mid, b, after)
    ensures Gives(before, a + b, after)
  {
    hide ApplyBatch;
    if b == [] {
      assert a + b == a;
    } else {
      var front := ApplyBatches(mid, NoLoaders, b[..|b| - 1]).value.1;
      assert Gives(mid, b[..|b| - 1], front);
      GivesJoin(before, a, mid, b[..|b| - 1], front);
      assert (a + b)[..|a + b| - 1] == a + b[..|b| - 1];
    }
  }

  /** The proposals of a group are expected where its entries come, and touch what they list. */
  lemma {:induction false} GroupMatches(term: nat, last: nat, prepared: seq<Prepared>)
    requires Listed(prepared)
    ensures |Appended(term, prepared)| == |Activated(last, prepared)|
    ensures forall k | 0 <= k < |Activated(last, prepared)| ::
              Activated(last, prepared)[k].expected == last + k + 1
              && Within(Appended(term, prepared)[k].batches, Activated(last, prepared)[k].workflows)
  {
    hide Within;
    if prepared != [] {
      assert forall p | p in prepared[..|prepared| - 1] :: p in prepared;
      GroupMatches(term, last, prepared[..|prepared| - 1]);
      assert prepared[|prepared| - 1] in prepared;
    }
  }

  lemma {:induction false} AppendedMore(term: nat, prepared: seq<Prepared>, p: Prepared)
    ensures Appended(term, prepared + [p]) ==
            var before := Appended(term, prepared);
            if p.Staged? then before + [Entry(term, p.batches)] else before
  {
    assert (prepared + [p])[..|prepared|] == prepared;
  }

  /** What is being prepared comes last. */
  lemma {:induction false} TailMore(log: seq<Entry>, applied: nat, term: nat, prepared: seq<Prepared>, p: Prepared)
    requires applied <= |log|
    ensures Tail(log, applied, term, prepared + [p]) ==
            var before := Tail(log, applied, term, prepared);
            if p.Staged? then before + p.batches else before
  {
    hide Flat, Appended;
    AppendedMore(term, prepared, p);
    if p.Staged? {
      var before := log[applied..] + Appended(term, prepared);
      FlatJoin(before, [Entry(term, p.batches)]);
      FlatOne(Entry(term, p.batches));
      assert log[applied..] + (Appended(term, prepared) + [Entry(term, p.batches)]) ==
             before + [Entry(term, p.batches)];
    }
  }

  lemma {:induction false} FlatOne(e: Entry)
    ensures Flat([e]) == e.batches
  {
    assert [e][..0] == [] && Flat([]) == [];
  }

  // ----- Workflows of a proposal -----

  lemma {:induction false} WorkflowsListed(commands: seq<Command>, batches: seq<Batch>)
    requires forall b | b in batches :: b.workflow != NO_ID
    ensures Within(batches, WorkflowsOf(commands, batches))
  {
    hide Addressed;
    if batches != [] {
      WorkflowsListed(commands, batches[..|batches| - 1]);
      forall b | b in batches ensures b.workflow in WorkflowsOf(commands, batches) {
        assert b in batches[..|batches| - 1] || b == batches[|batches| - 1];
      }
    }
  }

  /** What is staged names its workflows. */
  lemma {:induction false} TailNamed(w: World)
    requires InStep(w)
    ensures forall b | b in w.pending :: b.workflow != NO_ID
  {
    assert Sound(LogResult(w.durable, w.pending)) by { hide Sound; AppliesSound(w.durable, w.pending); }
    hide Applies, LogResult, Similar, SameReceipt, LookupRecord;
    forall b | b in w.pending ensures b.workflow != NO_ID { assert Held(w.planner, b); }
  }

  lemma {:induction false} CompactsInStep(w: World, ids: seq<Id>)
    requires InStep(w)
    ensures InStep(w.(planner := CompactAll(w.planner, ids)))
  {
    hide InStep, CompactTerminal;
    if ids != [] {
      var mid := w.(planner := CompactAll(w.planner, ids[..|ids| - 1]));
      CompactsInStep(w, ids[..|ids| - 1]);
      CompactInStep(mid, ids[|ids| - 1]);
    } else {
      assert w.(planner := w.planner) == w;
    }
  }

  predicate Idle(batches: seq<Batch>, id: Id) {
    forall b | b in batches :: b.workflow != id
  }

  lemma {:induction false} EvictsInStep(w: World, ids: seq<Id>)
    requires InStep(w) && forall id | id in ids :: Idle(w.pending, id)
    ensures InStep(w.(planner := EvictAll(w.planner, ids)))
  {
    hide InStep, EvictTerminal;
    if ids != [] {
      var mid := w.(planner := EvictAll(w.planner, ids[..|ids| - 1]));
      forall id | id in ids[..|ids| - 1] ensures Idle(w.pending, id) { assert id in ids; }
      EvictsInStep(w, ids[..|ids| - 1]);
      assert ids[|ids| - 1] in ids;
      EvictInStep(mid, ids[|ids| - 1]);
    } else {
      assert w.(planner := w.planner) == w;
    }
  }

  // ----- Every step keeps the invariant -----

  lemma {:induction false} OpenKeeps(config: Config, n: Node)
    requires Valid(n)
    ensures Valid(Next(config, n, Open))
  {
    hide Sound, Gives, InStep, Retained, StageAll;
    var m := Next(config, n, Open);
    if m != n {
      BeginInStep(n.durable);
      assert n.log[n.applied..] + Appended(n.term, n.prepared) == [];
      assert TailOf(m) == [];
    }
  }

  lemma {:induction false} PrepareKeeps(config: Config, n: Node, refused: bool)
    requires Valid(n)
    ensures Valid(Next(config, n, Work(refused)))
  {
    hide Sound, Gives, InStep, Within, Covered, Tail, PreparedNext;
    if n.prepareActive && n.waiting != [] && n.planner.Some? {
      var rest := n.(waiting := n.waiting[1..]);
      if refused {
        TailMore(n.log, n.applied, n.term, n.prepared, Settled);
      } else {
        StagedKeeps(config, rest, n.planner.value, n.waiting[0]);
      }
    }
  }

  lemma {:induction false} StagedKeeps(config: Config, n: Node, planner: Ledger, commands: seq<Command>)
    requires Valid(n) && n.prepareActive && n.planner == Some(planner)
    ensures Valid(PreparedNext(config, n, planner, commands))
  {
    hide Sound, Gives, InStep, Within, Covered, StageAll, Entries, WorkflowsOf, CompactAll, Tail;
    TailMore(n.log, n.applied, n.term, n.prepared, Settled);
    assert TailOf(n) + [] == TailOf(n);
    var staged := StageAll(config, planner, Stored(n.durable), commands);
    if PipelineValid(n) && staged.Ok? {
      StageInStep(config, World(n.durable, TailOf(n), planner), commands);
      var batches := Entries(commands, staged.value.0);
      var after := World(n.durable, TailOf(n) + batches, staged.value.1);
      TailNamed(after);
      var workflows := WorkflowsOf(commands, batches);
      WorkflowsListed(commands, batches);
      CompactsInStep(after, workflows);
      TailMore(n.log, n.applied, n.term, n.prepared, Staged(batches, workflows));
    }
  }

  /** A group that Raft has appended is as far ahead as it was while being prepared. */
  lemma {:induction false} FinishedTail(n: Node)
    requires n.applied <= |n.log|
    ensures TailOf(Finished(n)) == TailOf(n)
  {
    hide Flat;
    assert Finished(n).log[n.applied..] + [] == n.log[n.applied..] + Appended(n.term, n.prepared);
  }

  lemma {:induction false} FinishedCovers(n: Node)
    requires n.applied <= |n.log| == n.pipelineLast && Covered(n.active, n.log, n.applied) && Listed(n.prepared)
    ensures var m := Finished(n); Covered(m.active, m.log, m.applied)
  {
    hide Within, Appended, Activated, Claimed;
    var m, more, group := Finished(n), Appended(n.term, n.prepared), Activated(n.pipelineLast, n.prepared);
    GroupMatches(n.term, n.pipelineLast, n.prepared);
    forall i | m.applied <= i < |m.log| ensures Claimed(m.active, m.log[i], i + 1) {
      if i < |n.log| {
        assert Claimed(n.active, n.log[i], i + 1);
        ClaimedAmong(n.active, m.active, m.log[i], i + 1);
      } else {
        var a := group[i - |n.log|];
        assert m.log[i] == more[i - |n.log|] && a in m.active;
        ClaimedBy(m.active, a, m.log[i]);
      }
    }
  }

  lemma {:induction false} ClaimedBy(active: seq<Active>, a: Active, e: Entry)
    requires a in active && Within(e.batches, a.workflows)
    ensures Claimed(active, e, a.expected)
  {
    hide Within;
  }

  lemma {:induction false} ClaimedAmong(active: seq<Active>, more: seq<Active>, e: Entry, expected: nat)
    requires Claimed(active, e, expected) && forall a | a in active :: a in more || a.expected != expected
    ensures Claimed(more, e, expected)
  {
    hide Within;
    var a :| a in active && a.expected == expected && Within(e.batches, a.workflows);
    assert a in more;
  }

  lemma {:induction false} FinishKeeps(config: Config, n: Node, accepted: bool)
    requires Valid(n)
    ensures Valid(Next(config, n, Finish(accepted)))
  {
    hide Sound, Gives, InStep, Within, Flat, Tail, Covered, Appended, Activated, StageAll;
    if n.prepareActive && n.waiting == [] && !n.prepareFailed && PipelineValid(n) && accepted {
      FinishedTail(n);
      FinishedCovers(n);
      assert Finished(n).log[..n.applied] == n.log[..n.applied];
    }
  }

  lemma {:induction false} KeptMember(active: seq<Active>, found: set<nat>, applied: nat, a: Active)
    requires a in active && !Done(a, found, applied)
    ensures a in Kept(active, found, applied)
  {
    if active[|active| - 1] != a { KeptMember(active[..|active| - 1], found, applied, a); }
  }

  /** A sweep leaves every position that is not applied with its proposal. */
  lemma {:induction false} KeptCovers(active: seq<Active>, log: seq<Entry>, found: set<nat>, applied: nat)
    requires Covered(active, log, applied)
    ensures Covered(Kept(active, found, applied), log, applied)
  {
    hide Claimed;
    forall i | applied <= i < |log| ensures Claimed(Kept(active, found, applied), log[i], i + 1) {
      forall a | a in active ensures a in Kept(active, found, applied) || a.expected != i + 1 {
        if a.expected == i + 1 { KeptMember(active, found, applied, a); }
      }
      ClaimedAmong(active, Kept(active, found, applied), log[i], i + 1);
    }
  }

  /** What no active proposal touches, no staged entry touches: the filter of evictCommittedPlannerWorkflows. */
  lemma {:induction false} IdleUntouched(active: seq<Active>, log: seq<Entry>, applied: nat, term: nat, id: Id)
    requires Covered(active, log, applied) && applied <= |log| && id !in Busy(active)
    ensures Idle(Tail(log, applied, term, []), id)
  {
    assert log[applied..] + Appended(term, []) == log[applied..];
    forall b | b in Tail(log, applied, term, []) ensures b.workflow != id {
      FlatMember(log[applied..], b);
      var i :| 0 <= i < |log| - applied && b in log[applied..][i].batches;
      assert log[applied..][i] == log[applied + i];
      assert Claimed(active, log[applied + i], applied + i + 1);
      var a :| a in active && a.expected == applied + i + 1 && Within(log[applied + i].batches, a.workflows);
      assert b.workflow in Busy(active);
    }
  }

  lemma {:induction false} SweepKeeps(config: Config, n: Node, found: set<nat>, order: seq<Id>)
    requires Valid(n)
    ensures Valid(Next(config, n, Sweep(found, order)))
  {
    hide Sound, Gives, InStep, Covered, Tail, Kept, Busy, Committed, EvictAll, StageAll;
    if n.planner.Some? && PipelineValid(n) {
      KeptCovers(n.active, n.log, found, n.applied);
      var active := Kept(n.active, found, n.applied);
      if !n.prepareActive
         && (set id | id in order) == n.evictions + Committed(n.active, found, n.applied) - Busy(active)
      {
        EvictedInStep(n, found, order);
      }
    }
  }

  lemma {:induction false} EvictedInStep(n: Node, found: set<nat>, order: seq<Id>)
    requires hide Valid, EvictAll, Kept, Busy, Committed;
             Valid(n) && n.planner.Some? && PipelineValid(n) && !n.prepareActive
    requires (set id | id in order) ==
             n.evictions + Committed(n.active, found, n.applied) - Busy(Kept(n.active, found, n.applied))
    ensures InStep(World(n.durable, TailOf(n), EvictAll(n.planner.value, order)))
  {
    hide Sound, Gives, InStep, Covered, Tail, Kept, Busy, Committed, EvictAll;
    KeptCovers(n.active, n.log, found, n.applied);
    var w := World(n.durable, TailOf(n), n.planner.value);
    forall id | id in order ensures Idle(w.pending, id) {
      assert id in (set x | x in order);
      IdleUntouched(Kept(n.active, found, n.applied), n.log, n.applied, n.term, id);
    }
    EvictsInStep(w, order);
  }

  lemma {:induction false} ApplyKeeps(config: Config, n: Node, upto: nat)
    requires Valid(n)
    ensures Valid(Next(config, n, Apply(upto)))
  {
    hide Sound, Gives, InStep, Flat, Appended, Claimed, StageAll;
    var m := Next(config, n, Apply(upto));
    if m != n {
      var mid, rest := n.log[n.applied..upto], n.log[upto..] + Appended(n.term, n.prepared);
      FlatJoin(n.log[..n.applied], mid);
      assert n.log[..n.applied] + mid == n.log[..upto];
      GivesJoin(EMPTY, Flat(n.log[..n.applied]), n.durable, Flat(mid), m.durable);
      if n.planner.Some? && PipelineValid(n) {
        FlatJoin(mid, rest);
        assert n.log[n.applied..] + Appended(n.term, n.prepared) == mid + rest;
        AppliedInStep(World(n.durable, TailOf(n), n.planner.value), Flat(mid), Flat(rest), m.durable);
      }
    }
  }

  lemma {:induction false} AppliedInStep(w: World, done: seq<Batch>, rest: seq<Batch>, after: Ledger)
    requires InStep(w) && w.pending == done + rest && Gives(w.durable, done, after)
    ensures InStep(World(after, rest, w.planner))
  {
    hide InStep, ApplyBatches;
    CommitInStep(w, |done|);
    assert w.pending[..|done|] == done && w.pending[|done|..] == rest;
  }

  lemma {:induction false} MotionKeeps(config: Config, n: Node, term: nat, leader: bool, log: seq<Entry>)
    requires Valid(n)
    ensures Valid(Next(config, n, Motion(term, leader, log)))
  {
    hide Sound, Gives, InStep, Covered, Tail, StageAll;
    if Moves(n, term, leader, log) {
      assert log[..n.applied] == n.log[..n.applied];
      if leader && term == n.pipelineTerm && |log| == n.pipelineLast { assert log == n.log; }
    }
  }

  lemma {:induction false} StepKeeps(config: Config, n: Node, step: Step)
    requires Valid(n)
    ensures Valid(Next(config, n, step))
  {
    hide Valid, Next;
    match step
    case Open => OpenKeeps(config, n);
    case Start(group) => StartKeeps(config, n, group);
    case Work(refused) => PrepareKeeps(config, n, refused);
    case Finish(accepted) => FinishKeeps(config, n, accepted);
    case Sweep(found, order) => SweepKeeps(config, n, found, order);
    case Fail => FailKeeps(config, n);
    case Apply(upto) => ApplyKeeps(config, n, upto);
    case Motion(term, leader, log) => MotionKeeps(config, n, term, leader, log);
  }

  lemma {:induction false} StartKeeps(config: Config, n: Node, group: seq<seq<Command>>)
    requires Valid(n)
    ensures Valid(Next(config, n, Start(group)))
  {
    hide Sound, Gives, InStep, Covered, Tail, PreparedNext, Swept, Finished;
  }

  lemma {:induction false} FailKeeps(config: Config, n: Node)
    requires Valid(n)
    ensures Valid(Next(config, n, Fail))
  {
    hide Sound, Gives, InStep, Covered, Tail, PreparedNext, Swept, Finished;
  }

  // ----- Runs -----

  ghost function From(config: Config, n: Node, steps: seq<Step>): Node {
    hide Next;
    if steps == [] then n else Next(config, From(config, n, steps[..|steps| - 1]), steps[|steps| - 1])
  }

  ghost function Follow(config: Config, steps: seq<Step>): Node {
    From(config, STARTED, steps)
  }

  lemma {:induction false} AlwaysValid(config: Config, n: Node, steps: seq<Step>)
    requires hide Valid;
             Valid(n)
    ensures Valid(From(config, n, steps))
  {
    hide Valid, Next;
    if steps != [] {
      AlwaysValid(config, n, steps[..|steps| - 1]);
      StepKeeps(config, From(config, n, steps[..|steps| - 1]), steps[|steps| - 1]);
    }
  }

  lemma {:induction false} StartedValid()
    ensures Valid(STARTED)
  {
    assert STARTED.log[..0] == [] && Flat([]) == [];
  }

  /** The planner and an engine accept and reject a proposal alike, with the same answers. */
  ghost predicate DecideAlike(config: Config, planner: Ledger, durable: Ledger, full: Ledger, commands: seq<Command>) {
    hide StageAll, Stored, SameAnswers;
    var a, b := StageAll(config, planner, Stored(durable), commands), StageAll(config, full, NoLoaders, commands);
    (a.Ok? <==> b.Ok?) && (a.Ok? ==> SameAnswers(a.value.0, b.value.0))
  }

  /** The log through the last position of the pipeline, and what is being prepared, applies without error from the
      beginning, and the planner decides a proposal as the engine that this gives. */
  ghost predicate Exact(config: Config, n: Node, commands: seq<Command>) {
    hide Gives, DecideAlike, Flat, Appended;
    n.planner.Some? && n.pipelineLast <= |n.log|
    && exists full :: Gives(EMPTY, Flat(n.log[..n.pipelineLast] + Appended(n.term, n.prepared)), full)
                      && DecideAlike(config, n.planner.value, n.durable, full, commands)
  }

  lemma {:induction false} LogGives(n: Node, full: Ledger)
    requires hide Coupled, Gives, Flat, Appended, TailOf, Sound;
             Valid(n) && PipelineValid(n) && Gives(n.durable, TailOf(n), full)
    ensures Gives(EMPTY, Flat(n.log[..n.pipelineLast] + Appended(n.term, n.prepared)), full)
  {
    hide Flat, Appended, Gives, Sound, Coupled;
    var tail := n.log[n.applied..] + Appended(n.term, n.prepared);
    GivesJoin(EMPTY, Flat(n.log[..n.applied]), n.durable, TailOf(n), full);
    FlatJoin(n.log[..n.applied], tail);
    assert n.log[..n.applied] + tail == n.log[..n.pipelineLast] + Appended(n.term, n.prepared);
  }

  lemma {:induction false} ValidExact(config: Config, n: Node, commands: seq<Command>)
    requires Valid(n) && n.planner.Some? && PipelineValid(n)
    ensures Exact(config, n, commands)
  {
    hide Flat, Appended, Tail, StageAll, SameAnswers, Gives, Sound, Mirrors, Applies, LogResult, Held, Covered, Listed;
    assert InStep(World(n.durable, TailOf(n), n.planner.value));
    var full := LogResult(n.durable, TailOf(n));
    TailGives(n.durable, TailOf(n));
    LogGives(n, full);
    AppliesSound(n.durable, TailOf(n));
    SpeculationExact(config, n.planner.value, n.durable, full, commands);
    assert DecideAlike(config, n.planner.value, n.durable, full, commands);
  }

  /** In every run, whenever the pipeline is valid the planner decides exactly as the engine of the log. */
  lemma {:induction false} PlannerExact(config: Config, steps: seq<Step>, commands: seq<Command>)
    ensures var n := Follow(config, steps); n.planner.Some? && PipelineValid(n) ==> Exact(config, n, commands)
  {
    hide Valid, Next, Exact, PipelineValid, From;
    StartedValid();
    AlwaysValid(config, STARTED, steps);
    var n := Follow(config, steps);
    if n.planner.Some? && PipelineValid(n) { ValidExact(config, n, commands); }
  }

  lemma {:induction false} TailGives(durable: Ledger, batches: seq<Batch>)
    requires hide Applies, Gives, LogResult;
             Applies(durable, batches)
    ensures Gives(durable, batches, LogResult(durable, batches))
  {
    hide Sound, ApplyBatch;
    TailOk(World(durable, batches, durable));
  }

  /** The store takes its own entries without error, up to any of them. */
  ghost predicate OwnEntriesApply(n: Node) {
    hide Gives, Flat, Sound;
    forall upto | n.applied <= upto <= |n.log| ::
      exists after :: Gives(n.durable, Flat(n.log[n.applied..upto]), after) && Sound(after)
  }

  lemma {:induction false} ValidApplies(n: Node)
    requires Valid(n) && n.planner.Some? && PipelineValid(n)
    ensures OwnEntriesApply(n)
  {
    hide Flat, Appended, Gives, Sound, Within;
    forall upto | n.applied <= upto <= |n.log|
      ensures exists after :: Gives(n.durable, Flat(n.log[n.applied..upto]), after) && Sound(after)
    {
      var mid, rest := n.log[n.applied..upto], n.log[upto..] + Appended(n.term, n.prepared);
      FlatJoin(mid, rest);
      assert n.log[n.applied..] + Appended(n.term, n.prepared) == mid + rest;
      LogJoins(n.durable, Flat(mid), Flat(rest));
      TailGives(n.durable, Flat(mid));
      AppliesSound(n.durable, Flat(mid));
    }
  }

  /** In every run, whenever the pipeline is valid, applying its entries is never refused. */
  lemma {:induction false} NeverRefused(config: Config, steps: seq<Step>)
    ensures var n := Follow(config, steps); n.planner.Some? && PipelineValid(n) ==> OwnEntriesApply(n)
  {
    hide Valid, Next, OwnEntriesApply, PipelineValid, From;
    StartedValid();
    AlwaysValid(config, STARTED, steps);
    var n := Follow(config, steps);
    if n.planner.Some? && PipelineValid(n) { ValidApplies(n); }
  }
}
