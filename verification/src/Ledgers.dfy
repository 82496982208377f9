/** The engine of internal/core/engine.go as a value: workflow states, request receipts, the journal, and
    what preparing and applying a command does to them. */
module Ledgers {
  import opened Base
  import opened Model
  import opened Definition
  import opened Reducer
  import opened Lawfulness
  import opened Plans

  const BATCH_VERSION := 1

  /** requestRecord: what an accepted request was answered with. */
  datatype Record = Record(hash: Hash, workflow: Id, events: seq<Event>)

  /** core.Result */
  datatype Outcome = Outcome(workflow: Id, events: seq<Event>, duplicate: bool)

  datatype Metrics = Metrics(received: nat, accepted: nat, duplicates: nat, transitions: nat,
      byKind: multiset<EventKind>)

  const NO_METRICS := Metrics(0, 0, 0, 0, multiset{})

  /** StateLoader and RequestLoader; a load can fail. */
  datatype Loaders = NoLoaders | Loaders(state: Id -> Result<Option<Workflow>>, request: Id -> Result<Option<Record>>)

  datatype Ledger = Ledger(
    states: map<Id, Workflow>, active: set<Id>, requests: map<Id, Record>, index: map<Id, set<Id>>,
    journal: seq<Event>, journaled: bool, metrics: Metrics)

  const EMPTY := Ledger(map[], {}, map[], map[], [], true, NO_METRICS)

  // ----- Hashes -----

  /** HashCommand keeps what a command of its kind uses; never the time, nor the request identifier. */
  function HashCommand(c: Command): (hash: Hash)
    ensures hash.HashOf?
  {
    hide Canonical, CanonicalItems;
    var kept := match c.kind
      case CommandSubmit =>
        var definition := if c.definition.Some? then Some(Canonical(c.definition.value)) else None;
        Command(c.kind, NO_ID, 0, definition := definition,
                workflow := if c.workflow == NO_ID && definition.Some?
                    then WorkflowID(definition.value.namespace, c.request) else c.workflow)
      case CommandStart =>
        Command(c.kind, NO_ID, 0, workflow := c.workflow, task := c.task, attemptId := c.attemptId, worker := c.worker)
      case CommandComplete =>
        Command(c.kind, NO_ID, 0, workflow := c.workflow, task := c.task, attemptId := c.attemptId, worker := c.worker,
                fence := c.fence, output := c.output, fanout := CanonicalItems(c.fanout))
      case CommandFail =>
        Command(c.kind, NO_ID, 0, workflow := c.workflow, task := c.task, attemptId := c.attemptId, worker := c.worker,
                fence := c.fence, error := c.error)
      case CommandRenew =>
        Command(c.kind, NO_ID, 0, workflow := c.workflow, task := c.task, attemptId := c.attemptId, worker := c.worker,
                fence := c.fence, leaseUntil := c.leaseUntil)
      case CommandExpire =>
        Command(c.kind, NO_ID, 0, workflow := c.workflow, task := c.task, attemptId := c.attemptId, worker := c.worker,
                fence := c.fence)
      case CommandFireTimer => Command(c.kind, NO_ID, 0, workflow := c.workflow, timer := c.timer)
      case CommandCancel => Command(c.kind, NO_ID, 0, workflow := c.workflow, reason := c.reason)
      case CommandUnknown =>
        c.(request := NO_ID, at := 0, fanout := CanonicalItems(c.fanout),
           definition := if c.definition.Some? then Some(Canonical(c.definition.value)) else None);
    HashOf(kept)
  }

  // ----- Events of one workflow -----

  /** The envelope a prepared event carries. */
  function Stamp(e: Event, sequence: uint64, request: Id, hash: Hash): Event {
    e.(sequence := sequence, id := EventID(e.workflow, sequence, e.kind), request := request, hash := hash)
  }

  /** The events of a plan, numbered on from `version`. */
  function StampAll(events: seq<Event>, version: nat, request: Id, hash: Hash): seq<Event>
    requires version + |events| <= MAX_UINT64
  {
    seq(|events|, i requires 0 <= i < |events| => Stamp(events[i], version + i + 1, request, hash))
  }

  /** applyOwnedEvents and the folds of Replay and Restore. */
  ghost function ApplyAll(state: Option<Workflow>, events: seq<Event>): Result<Option<Workflow>> {
    hide ApplyEvent;
    if events == [] then Ok(state)
    else
      var before :- ApplyAll(state, events[..|events| - 1]);
      var after :- ApplyEvent(before, events[|events| - 1]);
      Ok(Some(after))
  }

  // ----- Preparing a command -----

  function ResolveState(ledger: Ledger, loaders: Loaders, id: Id): Result<Option<Workflow>> {
    if id in ledger.states then Ok(Some(ledger.states[id]))
    else if loaders.NoLoaders? || id == NO_ID then Ok(None)
    else loaders.state(id)
  }

  function ResolveRequest(ledger: Ledger, loaders: Loaders, id: Id): Result<Option<Record>> {
    if id in ledger.requests then Ok(Some(ledger.requests[id]))
    else if loaders.NoLoaders? || id == NO_ID then Ok(None)
    else loaders.request(id)
  }

  /** A submission without a workflow identifier gets one derived from its request. */
  function Addressed(c: Command): Command {
    if c.kind == CommandSubmit && c.workflow == NO_ID && c.definition.Some?
    then c.(workflow := WorkflowID(c.definition.value.namespace, c.request))
    else c
  }

  /** A start is given the identifier of the next attempt, and refused if it names another. */
  function Attempted(state: Option<Workflow>, c: Command): Result<Command> {
    if c.kind == CommandStart && state.Some? && c.task in state.value.tasks then
      var expected := AttemptID(c.workflow, c.task, Next32(state.value.tasks[c.task].attempt));
      var _ :- Need(c.attemptId == NO_ID || c.attemptId == expected, ErrInvalidCommand);
      Ok(c.(attemptId := expected))
    else Ok(c)
  }

  /** What planning a command that is not a duplicate gives: the stamped events and the next state. */
  datatype Planned = Planned(workflow: Id, events: seq<Event>, next: Workflow)

  ghost function PlanCommand(state: Option<Workflow>, c: Command, hash: Hash): Result<Planned> {
    hide Attempted, Decide, StampAll;
    var attempted :- Attempted(state, c);
    var plan :- Decide(state, attempted);
    var _ :- Need(plan.events != [], ErrInvalidTransition);
    DecideBuilt(state, attempted);
    PlanNumbers(state, plan.events);
    Ok(Planned(c.workflow, StampAll(plan.events, Version(state), c.request, hash), plan.state))
  }

  /** The answer to a command: the stored one to a repeated request, or a fresh plan. */
  datatype Answer = Repeat(record: Record) | Fresh(planned: Planned)

  ghost function Prepare(ledger: Ledger, loaders: Loaders, c: Command): Result<Answer> {
    hide Blank, HashCommand, PlanFresh;
    var _ :- Need(!Blank(c.request), ErrInvalidCommand);
    var hash := HashCommand(c);
    var known :- ResolveRequest(ledger, loaders, c.request);
    if known.Some? then
      var _ :- Need(known.value.hash == hash, ErrRequestConflict);
      Ok(Repeat(known.value))
    else
      var planned :- PlanFresh(ledger, loaders, c, hash);
      Ok(Fresh(planned))
  }

  /** Planning a request that has not been seen. */
  ghost function PlanFresh(ledger: Ledger, loaders: Loaders, c: Command, hash: Hash): Result<Planned> {
    hide PlanCommand;
    var addressed := Addressed(c);
    var state :- ResolveState(ledger, loaders, addressed.workflow);
    PlanCommand(state, addressed, hash)
  }

  // ----- Applying -----

  /** storeRequest keeps the index of requests by workflow. */
  function StoreIndex(requests: map<Id, Record>, index: map<Id, set<Id>>, request: Id,
                      record: Record): map<Id, set<Id>> {
    var dropped := if request in requests then DropIndex(index, request, requests[request].workflow) else index;
    dropped[record.workflow := (if record.workflow in dropped then dropped[record.workflow] else {}) + {request}]
  }

  /** removeRequestIndex */
  function DropIndex(index: map<Id, set<Id>>, request: Id, workflow: Id): map<Id, set<Id>> {
    if workflow !in index then index
    else if index[workflow] - {request} == {} then index - {workflow}
    else index[workflow := index[workflow] - {request}]
  }

  function UpdateActive(active: set<Id>, id: Id, state: Workflow): set<Id> {
    if Terminal(state.status) then active - {id} else active + {id}
  }

  /** A workflow brought into the table. */
  function Resident(ledger: Ledger, id: Id, w: Workflow): Ledger {
    ledger.(states := ledger.states[id := w], active := UpdateActive(ledger.active, id, w))
  }

  function Kinds(events: seq<Event>): multiset<EventKind> {
    if events == [] then multiset{} else Kinds(events[..|events| - 1]) + multiset{events[|events| - 1].kind}
  }

  function Counted(metrics: Metrics, events: seq<Event>): Metrics {
    metrics.(accepted := metrics.accepted + 1, transitions := metrics.transitions + |events|,
        byKind := metrics.byKind + Kinds(events))
  }

  /** The ledger after an accepted batch. */
  function Accept(ledger: Ledger, request: Id, hash: Hash, workflow: Id, events: seq<Event>, next: Workflow): Ledger {
    var record := Record(hash, workflow, events);
    Ledger(
      ledger.states[workflow := next], UpdateActive(ledger.active, workflow, next),
      ledger.requests[request := record], StoreIndex(ledger.requests, ledger.index, request, record),
      if ledger.journaled then ledger.journal + events else ledger.journal, ledger.journaled,
      Counted(ledger.metrics, events))
  }

  /** PrepareAndApply: preparing, then accepting a fresh plan. */
  ghost function Handle(ledger: Ledger, loaders: Loaders, c: Command): Result<(Answer, Ledger)> {
    hide Accept, HashCommand, Prepare;
    var answer :- Prepare(ledger, loaders, c);
    match answer
    case Repeat(_) => Ok((answer, ledger))
    case Fresh(p) => Ok((answer, Accept(ledger, c.request, HashCommand(c), p.workflow, p.events, p.next)))
  }

  // ----- Batches from the log -----

  datatype Application = Conflict | Applied(outcome: Outcome)

  predicate BatchMatches(batch: Batch, e: Event) {
    e.request == batch.request && e.hash == batch.hash && e.workflow == batch.workflow
  }

  /** One step of applyBatches. */
  ghost function ApplyBatch(ledger: Ledger, loaders: Loaders, batch: Batch): Result<(Application, Ledger)> {
    hide ApplyEvent, Accept, Blank;
    var _ :- Need(batch.version == BATCH_VERSION, ErrBatchVersion);
    var _ :- Need(!Blank(batch.request) && batch.hash != NoHash, ErrInvalidTransition);
    var known :- ResolveRequest(ledger, loaders, batch.request);
    if known.Some? then
      if known.value.hash != batch.hash then Ok((Conflict, ledger))
      else Ok((Applied(Outcome(known.value.workflow, known.value.events, true)), ledger))
    else
      var _ :- Need(!Blank(batch.workflow) && batch.events != [], ErrInvalidTransition);
      var _ :- Need(forall i | 0 <= i < |batch.events| :: BatchMatches(batch, batch.events[i]), ErrInvalidTransition);
      var state :- ResolveState(ledger, loaders, batch.workflow);
      var next :- ApplyAll(state, batch.events);
      Ok((Applied(Outcome(batch.workflow, batch.events, false)),
          Accept(ledger, batch.request, batch.hash, batch.workflow, batch.events, next.value)))
  }

  /** Batches applied one at a time. */
  ghost function ApplyBatches(ledger: Ledger, loaders: Loaders, batches: seq<Batch>): Result<(seq<Application>,
                              Ledger)> {
    hide ApplyBatch;
    if batches == [] then Ok(([], ledger))
    else
      var done :- ApplyBatches(ledger, loaders, batches[..|batches| - 1]);
      var last :- ApplyBatch(done.1, loaders, batches[|batches| - 1]);
      Ok((done.0 + [last.0], last.1))
  }

  // ----- What every ledger keeps -----

  function ActiveOf(states: map<Id, Workflow>): set<Id> {
    set id | id in states && !Terminal(states[id].status)
  }

  function RequestsOf(requests: map<Id, Record>, workflow: Id): set<Id> {
    set r | r in requests && requests[r].workflow == workflow
  }

  function IndexOf(requests: map<Id, Record>): map<Id, set<Id>> {
    map w | w in (set r | r in requests :: requests[r].workflow) :: RequestsOf(requests, w)
  }

  /** The indexes say what the tables say. */
  ghost predicate Coherent(ledger: Ledger) {
    ledger.active == ActiveOf(ledger.states) && ledger.index == IndexOf(ledger.requests)
  }

  lemma {:induction false} IndexMember(requests: map<Id, Record>, workflow: Id)
    ensures workflow in IndexOf(requests) <==> exists r :: r in requests && requests[r].workflow == workflow
    ensures workflow in IndexOf(requests) <==> RequestsOf(requests, workflow) != {}
  {
    if r :| r in requests && requests[r].workflow == workflow {
      assert r in RequestsOf(requests, workflow);
    }
    if RequestsOf(requests, workflow) != {} {
      var r :| r in RequestsOf(requests, workflow);
    }
  }

  /** removeRequestIndex takes one request out of the index. */
  lemma {:induction false} DropIndexKeeps(requests: map<Id, Record>, request: Id)
    requires request in requests
    ensures DropIndex(IndexOf(requests), request, requests[request].workflow) == IndexOf(requests - {request})
  {
    var w, fewer := requests[request].workflow, requests - {request};
    var dropped, expected := DropIndex(IndexOf(requests), request, w), IndexOf(fewer);
    IndexMember(requests, w);
    assert RequestsOf(fewer, w) == RequestsOf(requests, w) - {request};
    forall x ensures x in dropped <==> x in expected {
      IndexMember(requests, x);
      IndexMember(fewer, x);
      if x != w { assert RequestsOf(fewer, x) == RequestsOf(requests, x); }
    }
    forall x | x in expected ensures dropped[x] == expected[x] {
      if x != w { assert RequestsOf(fewer, x) == RequestsOf(requests, x); }
    }
  }

  lemma {:induction false} AddIndexKeeps(requests: map<Id, Record>, request: Id, record: Record)
    requires request !in requests
    ensures StoreIndex(requests, IndexOf(requests), request, record) == IndexOf(requests[request := record])
  {
    var w, more := record.workflow, requests[request := record];
    var stored, expected := StoreIndex(requests, IndexOf(requests), request, record), IndexOf(more);
    IndexMember(requests, w);
    assert RequestsOf(more, w) == RequestsOf(requests, w) + {request};
    forall x ensures x in stored <==> x in expected {
      IndexMember(requests, x);
      IndexMember(more, x);
      if x != w { assert RequestsOf(more, x) == RequestsOf(requests, x); }
    }
    forall x | x in expected ensures stored[x] == expected[x] {
      if x != w { assert RequestsOf(more, x) == RequestsOf(requests, x); }
    }
  }

  /** storeRequest keeps the index exact, whether the request is new or replaced. */
  lemma {:induction false} StoreIndexKeeps(requests: map<Id, Record>, request: Id, record: Record)
    ensures StoreIndex(requests, IndexOf(requests), request, record) == IndexOf(requests[request := record])
  {
    hide IndexOf, DropIndex;
    if request in requests {
      var fewer := requests - {request};
      DropIndexKeeps(requests, request);
      AddIndexKeeps(fewer, request, record);
      assert fewer[request := record] == requests[request := record];
    } else {
      AddIndexKeeps(requests, request, record);
    }
  }

  lemma {:induction false} UpdateActiveKeeps(states: map<Id, Workflow>, id: Id, state: Workflow)
    ensures UpdateActive(ActiveOf(states), id, state) == ActiveOf(states[id := state])
  {
  }

  /** Bringing in what is there changes nothing, and bringing in what is then replaced does not show. */
  lemma {:induction false} ResidentUnseen(ledger: Ledger, id: Id, w: Workflow)
    requires hide Accept, Coherent, Resident;
             Coherent(ledger)
    ensures id in ledger.states && ledger.states[id] == w ==> Resident(ledger, id, w) == ledger
    ensures forall request, hash, events, next ::
              Accept(Resident(ledger, id, w), request, hash, id, events, next) == Accept(ledger, request, hash, id,
                  events, next)
  {
    if id in ledger.states && ledger.states[id] == w {
      UpdateActiveKeeps(ledger.states, id, w);
      assert ledger.states[id := w] == ledger.states;
    }
    hide StoreIndex, Counted;
    forall request, hash, events, next
      ensures Accept(Resident(ledger, id, w), request, hash, id, events, next) == Accept(ledger, request, hash, id,
              events, next)
    {
      assert ledger.states[id := w][id := next] == ledger.states[id := next];
    }
  }

  lemma {:induction false} AcceptCoherent(ledger: Ledger, request: Id, hash: Hash, workflow: Id, events: seq<Event>,
                                          next: Workflow)
    requires Coherent(ledger)
    ensures Coherent(Accept(ledger, request, hash, workflow, events, next))
  {
    hide IndexOf, StoreIndex, ActiveOf, UpdateActive;
    StoreIndexKeeps(ledger.requests, request, Record(hash, workflow, events));
    UpdateActiveKeeps(ledger.states, workflow, next);
  }

  ghost predicate LawfulStates(ledger: Ledger) {
    hide Lawful;
    forall id | id in ledger.states :: id != NO_ID && ledger.states[id].id == id && Lawful(ledger.states[id])
  }

  lemma {:induction false} AcceptLawful(ledger: Ledger, request: Id, hash: Hash, workflow: Id, events: seq<Event>,
                                        next: Workflow)
    requires LawfulStates(ledger) && workflow != NO_ID && next.id == workflow && Lawful(next)
    ensures LawfulStates(Accept(ledger, request, hash, workflow, events, next))
  {
    hide Lawful, StoreIndex, UpdateActive, Counted;
  }

  ghost predicate LawfulLoaders(loaders: Loaders) {
    hide Lawful;
    loaders.Loaders? ==> forall id :: loaders.state(id).Ok? && loaders.state(id).value.Some? ==>
                         loaders.state(id).value.value.id == id && Lawful(loaders.state(id).value.value)
  }

  function Lookup(states: map<Id, Workflow>, id: Id): Option<Workflow> {
    if id in states then Some(states[id]) else None
  }

  /** What is left of a compacted workflow. */
  function Header(w: Workflow): Workflow {
    w.(tasks := map[], timers := map[])
  }
}
