/** The engine of internal/core on the heap: commands, checkpoints, staging transactions, and batches from the log. */
module CoreEngine {
  import opened Base
  import opened Model
  import opened Reducer
  import opened Lawfulness
  import opened InPlace
  import opened Plans
  import opened Ledgers
  import opened Chronicle
  import Sums

  /** The contents of a table of state objects. */
  ghost function Contents(states: map<Id, State>): map<Id, Workflow>
    reads states.Values
  {
    map id | id in states :: states[id].Value()
  }

  /** No two entries share an object. */
  predicate Separate(states: map<Id, State>) {
    forall i, j | i in states && j in states && i != j :: states[i] != states[j]
  }

  /** Outside `except`, the active workflows are those that have not ended. */
  ghost predicate ActiveOutside(states: map<Id, State>, active: set<Id>, except: set<Id>)
    reads states.Values
  {
    forall id | id !in except :: id in active <==> id in states && !Terminal(states[id].status)
  }

  lemma {:induction false} AllActive(states: map<Id, State>, active: set<Id>)
    requires ActiveOutside(states, active, {})
    ensures active == ActiveOf(Contents(states))
  {
  }

  lemma {:induction false} CoherentOutside(states: map<Id, State>, except: set<Id>)
    ensures ActiveOutside(states, ActiveOf(Contents(states)), except)
  {
  }

  /** The outcome of planning on a state object: the object holding the next state, and the stamped events. */
  datatype Prepared = Prepared(next: State, events: seq<Event>)

  ghost predicate PreparedAs(r: Result<Prepared>, expected: Result<Planned>)
    reads if r.Ok? then {r.value.next} else {}
  {
    hide Engine.Value, Lawful;
    match expected
    case Ok(p) => r.Ok? && r.value.next.Value() == p.next && r.value.events == p.events && Lawful(p.next)
    case Err(error) => r == Err(error)
  }

  /** The end of prepareWith: planning on the resolved state, and stamping. */
  method PlanOn(state: State?, c: Command, hash: Hash, staged: bool) returns (r: Result<Prepared>)
    requires hide Engine.Value, Lawful, PlanCommand, PreparedAs;
             state != null ==> Lawful(state.Value())
    modifies if staged && state != null then {state} else {}
    ensures PreparedAs(r, PlanCommand(old(Content(state)), c, hash))
    ensures r.Ok? ==> if staged && state != null then r.value.next == state else fresh(r.value.next)
  {
    hide Lawful, Decide;
    var attempted := c;
    if c.kind == CommandStart && state != null && c.task in state.tasks {
      var expected := AttemptID(c.workflow, c.task, Next32(state.tasks[c.task].attempt));
      if c.attemptId != NO_ID && c.attemptId != expected { return Err(ErrInvalidCommand); }
      attempted := c.(attemptId := expected);
    }
    var version: uint64 := if state != null then state.version else 0;
    ghost var before := Content(state);
    assert Attempted(before, c) == Ok(attempted);
    var plan := DecideCommand(state, attempted, staged);
    if plan.Err? { return Err(plan.error); }
    if plan.value.events == [] { return Err(ErrInvalidTransition); }
    DecideBuilt(before, attempted);
    PlanNumbers(before, plan.value.events);
    hide PlanAll;
    var events := StampEvents(plan.value.events, version, c.request, hash);
    return Ok(Prepared(plan.value.state, events));
  }

  /** The stamping loop of prepareWith. */
  method StampEvents(events: seq<Event>, version: uint64, request: Id, hash: Hash) returns (stamped: seq<Event>)
    requires version + |events| <= MAX_UINT64
    ensures stamped == StampAll(events, version, request, hash)
  {
    hide Stamp;
    stamped := [];
    var sequence: uint64 := version;
    for i := 0 to |events|
      invariant sequence == version + i && |stamped| == i
      invariant forall k | 0 <= k < i :: stamped[k] == Stamp(events[k], version + k + 1, request, hash)
    {
      sequence := sequence + 1;
      stamped := stamped + [Stamp(events[i], sequence, request, hash)];
    }
  }

  /** EngineCheckpoint: what the touched entries were, and how far the journal went. */
  datatype Checkpoint = Saved(
    states: map<Id, Option<State>>, requests: map<Id, Option<Record>>, journal: nat, metrics: Metrics)

  function LookUp<V>(table: map<Id, V>, id: Id): Option<V> {
    if id in table then Some(table[id]) else None
  }

  /** The table with the saved entries put back. */
  function Patched<V>(table: map<Id, V>, saved: map<Id, Option<V>>): map<Id, V> {
    map id | id in table.Keys + saved.Keys && (id in saved ==> saved[id].Some?) ::
      if id in saved then saved[id].value else table[id]
  }

  lemma {:induction false} PatchedStep<V>(table: map<Id, V>, saved: map<Id, Option<V>>, id: Id, value: Option<V>)
    ensures Patched(table, saved[id := value]) ==
            if value.Some? then Patched(table, saved)[id := value.value] else Patched(table, saved) - {id}
  {
  }

  lemma {:induction false} PatchedNothing<V>(table: map<Id, V>)
    ensures Patched(table, map[]) == table
  {
  }

  class Engine {
    var states: map<Id, State>
    var active: set<Id>
    var requests: map<Id, Record>
    var index: map<Id, set<Id>>
    var journal: seq<Event>
    var journaled: bool
    var metrics: Metrics
    const loaders: Loaders

    constructor (loaders: Loaders)
      requires LawfulLoaders(loaders)
      ensures Valid() && Value() == EMPTY && this.loaders == loaders
    {
      states, active, requests, index, journal, journaled, metrics := map[], {}, map[], map[], [], true, NO_METRICS;
      this.loaders := loaders;
      new;
      assert ActiveOf(map[]) == {} && IndexOf(map[]) == map[];
      assert Contents(states) == map[];
    }

    ghost function Value(): Ledger
      reads this, states.Values
    {
      Ledger(Contents(states), active, requests, index, journal, journaled, metrics)
    }

    ghost predicate Valid()
      reads this, states.Values
    {
      hide Coherent, Engine.Value, LawfulLoaders, LawfulStates;
      Separate(states) && LawfulStates(Value()) && Coherent(Value()) && LawfulLoaders(loaders)
    }

    /** resolveState: a resident state, or one the loader decodes afresh. */
    method ResolveState(id: Id) returns (r: Result<State?>)
      requires hide Engine.Valid, Engine.Value, Lawful;
               Valid()
      ensures match Ledgers.ResolveState(Value(), loaders, id)
              case Err(error) => r == Err(error)
              case Ok(None) => r == Ok(null)
              case Ok(Some(w)) => r.Ok? && r.value != null && r.value.Value() == w && Lawful(w) && w.id == id
      ensures r.Ok? && r.value != null ==> if id in states then r.value == states[id] else fresh(r.value)
      ensures r == Ok(null) ==> id !in states
    {
      hide Lawful, Coherent;
      if id in states {
        assert Value().states[id] == states[id].Value();
        return Ok(states[id]);
      }
      if loaders.NoLoaders? || id == NO_ID { return Ok(null); }
      var loaded := loaders.state(id);
      if loaded.Err? { return Err(loaded.error); }
      if loaded.value.None? { return Ok(null); }
      var decoded := new State(loaded.value.value);
      return Ok(decoded);
    }

    /** storeRequest */
    method StoreRequest(request: Id, record: Record)
      modifies this`requests, this`index
      ensures requests == old(requests)[request := record]
      ensures index == StoreIndex(old(requests), old(index), request, record)
    {
      if request in requests { RemoveRequestIndex(request, requests[request].workflow); }
      requests := requests[request := record];
      var kept := if record.workflow in index then index[record.workflow] else {};
      index := index[record.workflow := kept + {request}];
    }

    /** deleteRequest */
    method DeleteRequest(request: Id)
      modifies this`requests, this`index
      ensures requests == old(requests) - {request}
      ensures index == if request in old(requests)
              then DropIndex(old(index), request, old(requests)[request].workflow) else old(index)
    {
      if request !in requests { return; }
      var workflow := requests[request].workflow;
      requests := requests - {request};
      RemoveRequestIndex(request, workflow);
    }

    method RemoveRequestIndex(request: Id, workflow: Id)
      modifies this`index
      ensures index == DropIndex(old(index), request, workflow)
    {
      if workflow !in index { return; }
      var left := index[workflow] - {request};
      if left == {} {
        index := index - {workflow};
      } else {
        index := index[workflow := left];
      }
    }

    /** The engine stands as `before`, but for the state object of one workflow, which planning in place may
        have changed. */
    ghost predicate StandsApart(before: Ledger, workflow: Id)
      reads this, states.Values
    {
      hide Coherent, Contents, LawfulLoaders, LawfulStates;
      && Separate(states) && LawfulStates(before) && Coherent(before) && LawfulLoaders(loaders)
      && Contents(states) - {workflow} == before.states - {workflow}
      && active == before.active && requests == before.requests && index == before.index
      && journal == before.journal && journaled == before.journaled && metrics == before.metrics
    }

    lemma {:induction false} StandsItself(workflow: Id)
      requires Valid()
      ensures StandsApart(Value(), workflow)
    {
    }

    /** applyPrepared: the next state may be a new object, or the one already in the table. */
    method ApplyPrepared(request: Id, hash: Hash, workflow: Id, events: seq<Event>, next: State, ghost before: Ledger)
      requires hide Accept, Engine.StandsApart, Engine.Valid, Engine.Value, Lawful;
               StandsApart(before, workflow) && Lawful(next.Value()) && next.id == workflow && workflow != NO_ID
      requires Separate(states[workflow := next])
      modifies this
      ensures Valid() && Value() == Accept(before, request, hash, workflow, events, next.Value())
      ensures states == old(states)[workflow := next]
              && requests == old(requests)[request := Record(hash, workflow, events)]
      ensures journal == (if journaled then old(journal) + events else old(journal)) && journaled == old(journaled)
    {
      hide Lawful, LawfulStates, Coherent, LawfulLoaders, StoreIndex, Counted, Contents, UpdateActive;
      AcceptCoherent(before, request, hash, workflow, events, next.Value());
      AcceptLawful(before, request, hash, workflow, events, next.Value());
      ContentsUpdated(states, workflow, next);
      SameOutside(Contents(states), before.states, workflow, next.Value());
      states := states[workflow := next];
      active := UpdateActive(active, workflow, next.Value());
      if journaled { journal := journal + events; }
      StoreRequest(request, Record(hash, workflow, events));
      metrics := Counted(metrics, events);
      assert Value() == Accept(before, request, hash, workflow, events, next.Value());
    }

    /** Put a state object in the table, as the staging and the batch paths do. */
    method Install(id: Id, state: State)
      requires hide Engine.Valid, Engine.Value, Lawful, Resident;
               Valid() && Lawful(state.Value()) && state.id == id && id != NO_ID && Separate(states[id := state])
      modifies this`states, this`active
      ensures Valid() && states == old(states)[id := state] && Value() == Resident(old(Value()), id, state.Value())
    {
      hide Lawful, LawfulLoaders, IndexOf, Contents, UpdateActive, ActiveOf;
      ghost var before := Value();
      ContentsUpdated(states, id, state);
      UpdateActiveKeeps(before.states, id, state.Value());
      states := states[id := state];
      active := UpdateActive(active, id, state.Value());
      assert Value() == Resident(before, id, state.Value());
    }

    /** Checkpoint of an engine, with no entries saved yet. */
    method BeginCheckpoint() returns (checkpoint: Checkpoint)
      ensures checkpoint == Saved(map[], map[], |journal|, metrics)
    {
      checkpoint := Saved(map[], map[], |journal|, metrics);
    }

    /** ExtendCheckpoint saves an entry the first time it is named. */
    method ExtendCheckpoint(checkpoint: Checkpoint, workflow: Id, request: Id) returns (extended: Checkpoint)
      ensures extended == checkpoint.(
                states := if workflow != NO_ID && workflow !in checkpoint.states
                          then checkpoint.states[workflow := LookUp(states, workflow)] else checkpoint.states,
                requests := if request != NO_ID && request !in checkpoint.requests
                            then checkpoint.requests[request := LookUp(requests, request)] else checkpoint.requests)
    {
      extended := checkpoint;
      if workflow != NO_ID {
        if workflow !in checkpoint.states {
          extended := extended.(states := extended.states[workflow := LookUp(states, workflow)]);
        }
      }
      if request != NO_ID {
        if request !in checkpoint.requests {
          extended := extended.(requests := extended.requests[request := LookUp(requests, request)]);
        }
      }
    }

    /** Rollback puts the saved entries back and cuts the journal. Of the saved workflows it asks nothing: a
        refused plan may have left their states half changed. */
    method Rollback(checkpoint: Checkpoint)
      requires hide Coherent, Engine.Value;
               ActiveOutside(states, active, checkpoint.states.Keys) && index == IndexOf(requests)
      modifies this
      ensures states == Patched(old(states), checkpoint.states)
              && requests == Patched(old(requests), checkpoint.requests)
      ensures journal == (if checkpoint.journal <= |old(journal)| then old(journal)[..checkpoint.journal]
              else old(journal))
      ensures journaled == old(journaled) && metrics == checkpoint.metrics && Coherent(Value())
    {
      hide IndexOf, Patched, ActiveOutside;
      RollbackStates(checkpoint.states);
      RollbackRequests(checkpoint.requests);
      if checkpoint.journal <= |journal| { journal := journal[..checkpoint.journal]; }
      metrics := checkpoint.metrics;
      AllActive(states, active);
    }

    method RollbackStates(saved: map<Id, Option<State>>)
      requires ActiveOutside(states, active, saved.Keys)
      modifies this`states, this`active
      ensures states == Patched(old(states), saved) && ActiveOutside(states, active, {})
    {
      hide Patched, ActiveOutside;
      var left := saved;
      ghost var done: map<Id, Option<State>> := map[];
      PatchedNothing(states);
      while left != map[]
        invariant forall id :: (id in left || id in done) <==> id in saved
        invariant (forall id | id in left :: left[id] == saved[id]) && (forall id | id in done :: done[id] == saved[id])
        invariant states == Patched(old(states), done) && ActiveOutside(states, active, left.Keys)
        decreases |left|
      {
        var id :| id in left;
        var value := left[id];
        PatchedStep(old(states), done, id, value);
        Sums.Smaller(left, id);
        RestoreEntry(id, value, left.Keys);
        done := done[id := value];
        assert (left - {id}).Keys == left.Keys - {id};
        left := left - {id};
      }
      assert done == saved;
      assert left.Keys == {};
    }

    method RestoreEntry(id: Id, value: Option<State>, ghost left: set<Id>)
      requires ActiveOutside(states, active, left)
      modifies this`states, this`active
      ensures states == if value.Some? then old(states)[id := value.value] else old(states) - {id}
      ensures ActiveOutside(states, active, left - {id})
    {
      if value.Some? {
        states := states[id := value.value];
        active := UpdateActive(active, id, value.value.Value());
      } else {
        states := states - {id};
        active := active - {id};
      }
    }

    method RollbackRequests(saved: map<Id, Option<Record>>)
      requires index == IndexOf(requests)
      modifies this`requests, this`index
      ensures requests == Patched(old(requests), saved) && index == IndexOf(requests)
    {
      hide IndexOf, StoreIndex, DropIndex, Patched;
      var left := saved;
      ghost var done: map<Id, Option<Record>> := map[];
      PatchedNothing(requests);
      while left != map[]
        invariant forall id :: (id in left || id in done) <==> id in saved
        invariant (forall id | id in left :: left[id] == saved[id]) && (forall id | id in done :: done[id] == saved[id])
        invariant requests == Patched(old(requests), done) && index == IndexOf(requests)
        decreases |left|
      {
        var id :| id in left;
        var value := left[id];
        PatchedStep(old(requests), done, id, value);
        Sums.Smaller(left, id);
        if value.Some? {
          StoreIndexKeeps(requests, id, value.value);
          StoreRequest(id, value.value);
        } else {
          if id in requests { DropIndexKeeps(requests, id); } else { assert requests - {id} == requests; }
          DeleteRequest(id);
        }
        done := done[id := value];
        left := left - {id};
      }
      assert done == saved;
    }

    /** resolveRequest */
    method FindRequest(id: Id) returns (r: Result<Option<Record>>)
      ensures r == Ledgers.ResolveRequest(Value(), loaders, id)
    {
      if id in requests { return Ok(Some(requests[id])); }
      if loaders.NoLoaders? || id == NO_ID { return Ok(None); }
      return loaders.request(id);
    }

    /** PrepareAndApply on isolated copies: a refused or repeated command leaves the engine as it was. */
    method PrepareAndApply(c: Command) returns (r: Result<Answer>)
      requires hide Engine.Valid, Engine.Value, Handle;
               Valid()
      modifies this
      ensures Valid()
      ensures match Handle(old(Value()), loaders, c)
              case Err(error) => r == Err(error) && Value() == old(Value()) && states == old(states)
              case Ok((answer, after)) => r == Ok(answer) && Value() == after
    {
      hide Lawful, LawfulStates, LawfulLoaders, PlanFresh, Coherent, Accept, HashCommand, Contents, Separate;
      if Blank(c.request) { return Err(ErrInvalidCommand); }
      var hash := HashCommand(c);
      var known := FindRequest(c.request);
      if known.Err? { return Err(known.error); }
      if known.value.Some? {
        if known.value.value.hash != hash { return Err(ErrRequestConflict); }
        return Ok(Repeat(known.value.value));
      }
      r := HandleFresh(c, hash);
    }

    /** Planning a request not seen before, on the resolved state or on a copy of it. */
    method PlanResolved(c: Command, hash: Hash) returns (r: Result<Prepared>)
      requires hide Engine.Value, Lawful, LawfulLoaders, LawfulStates, PlanFresh;
               Valid() && hash != NoHash
      ensures PreparedAs(r, PlanFresh(Value(), loaders, c, hash))
      ensures r.Ok? ==>
                fresh(r.value.next) && PlanFresh(Value(), loaders, c, hash).value.workflow == Addressed(c).workflow
      ensures r.Ok? ==> r.value.next.id == Addressed(c).workflow && Addressed(c).workflow != NO_ID
    {
      hide Lawful, LawfulStates, LawfulLoaders, PlanCommand, Coherent, Contents, Separate;
      var addressed := Addressed(c);
      var state := ResolveState(addressed.workflow);
      hide Engine.Valid;
      if state.Err? { return Err(state.error); }
      r := PlanOn(state.value, addressed, hash, false);
      if r.Ok? { PlannedWorkflow(Content(state.value), addressed, hash); }
    }

    /** The part of PrepareAndApply that plans a request not seen before. */
    method HandleFresh(c: Command, hash: Hash) returns (r: Result<Answer>)
      requires hide Accept, Engine.Valid, Engine.Value, PlanFresh;
               Valid() && hash != NoHash
      modifies this
      ensures Valid()
      ensures match PlanFresh(old(Value()), loaders, c, hash)
              case Err(error) => r == Err(error) && Value() == old(Value()) && states == old(states)
              case Ok(p) =>
                r == Ok(Fresh(p))
                && Value() == Accept(old(Value()), c.request, hash, p.workflow, p.events, p.next)
    {
      hide Lawful, LawfulStates, LawfulLoaders, PlanFresh, Coherent, Accept, Contents, Separate, StandsApart;
      var addressed := Addressed(c);
      var prepared := PlanResolved(c, hash);
      if prepared.Err? { return Err(prepared.error); }
      FreshSeparate(states, addressed.workflow, prepared.value.next);
      var answer := Fresh(Planned(addressed.workflow, prepared.value.events, prepared.value.next.Value()));
      StandsItself(addressed.workflow);
      ApplyPrepared(c.request, hash, addressed.workflow, prepared.value.events, prepared.value.next, Value());
      return Ok(answer);
    }
  }

  lemma {:induction false} PatchedSave<V>(table: map<Id, V>, saved: map<Id, Option<V>>, id: Id)
    requires id !in saved
    ensures Patched(table, saved[id := LookUp(table, id)]) == Patched(table, saved)
  {
  }

  lemma {:induction false} PatchedCovered<V>(table: map<Id, V>, saved: map<Id, Option<V>>, id: Id, value: V)
    requires id in saved
    ensures Patched(table[id := value], saved) == Patched(table, saved)
  {
  }

  lemma {:induction false} SameOutside(a: map<Id, Workflow>, b: map<Id, Workflow>, id: Id, w: Workflow)
    requires a - {id} == b - {id}
    ensures a[id := w] == b[id := w]
  {
    forall x | x in a[id := w] && x != id ensures x in b && a[x] == b[x] {
      assert x in a - {id};
      assert (a - {id})[x] == (b - {id})[x];
    }
    forall x | x in b && x != id ensures x in a {
      assert x in b - {id};
    }
  }

  lemma {:induction false} FreshSeparate(states: map<Id, State>, id: Id, state: State)
    requires Separate(states) && state !in states.Values
    ensures Separate(states[id := state])
  {
  }

  lemma {:induction false} ContentsUpdated(states: map<Id, State>, id: Id, state: State)
    ensures Contents(states[id := state]) == Contents(states)[id := state.Value()]
  {
  }

  // ----------------------------------------------------------------------------------------------------
  // StagingTransaction of internal/core/staging.go: commands planned in place, on copies of the states they touch, with
  // a checkpoint that undoes them all.
  // ----------------------------------------------------------------------------------------------------

  class StagingTransaction {
    const engine: Engine
    var checkpoint: Checkpoint
    var workflows: set<Id>
    var open: bool
    /** The engine as it was when the transaction began. */
    ghost const base: Ledger
    ghost const originals: map<Id, State>

    constructor (engine: Engine)
      requires hide Engine.Valid, Engine.Value, StagingTransaction.Valid;
               engine.Valid()
      ensures Valid() && open && this.engine == engine && base == engine.Value() && originals == engine.states
      ensures fresh(this) && workflows == {}
    {
      this.engine := engine;
      workflows, open := {}, true;
      base, originals := engine.Value(), engine.states;
      new;
      checkpoint := engine.BeginCheckpoint();
      PatchedNothing(engine.states);
      PatchedNothing(engine.requests);
    }

    /** Undoing the checkpoint would give back the very objects and records of the beginning. */
    ghost predicate Undoable()
      reads this, engine
    {
      && Patched(engine.states, checkpoint.states) == originals
      && Patched(engine.requests, checkpoint.requests) == base.requests
      && checkpoint.journal == |base.journal| <= |engine.journal|
          && engine.journal[..checkpoint.journal] == base.journal
      && engine.journaled == base.journaled && checkpoint.metrics == base.metrics
    }

    /** The states of the touched workflows are copies that belong to the transaction. */
    ghost predicate Owning()
      reads this, engine
    {
      && workflows <= checkpoint.states.Keys
      && forall id | id in workflows && id in engine.states :: engine.states[id] !in originals.Values
    }

    ghost function Owned(): set<object>
      reads this, engine
    {
      set id | id in workflows && id in engine.states :: engine.states[id]
    }

    ghost predicate Valid()
      reads this, engine, engine.states.Values, originals.Values
    {
      hide Coherent, Contents, Engine.Valid, LawfulStates;
      && engine.Valid()
      && (open ==> && Undoable() && Owning() && Contents(originals) == base.states && Separate(originals)
                   && LawfulStates(base) && Coherent(base))
    }

    method Commit()
      requires hide Engine.Valid, Engine.Value, StagingTransaction.Valid;
               Valid()
      modifies this`open
      ensures Valid() && !open && engine.Value() == old(engine.Value())
    {
      hide Engine.Valid;
      open := false;
    }

    /** Rollback restores the states, the active set, the requests, their index, the journal and the counters
        of the beginning, and the original state objects. */
    method Rollback()
      requires hide Engine.Valid, Engine.Value, StagingTransaction.Valid;
               Valid()
      modifies this`open, engine
      ensures Valid() && !open
      ensures old(open) ==> engine.Value() == base && engine.states == originals
      ensures !old(open) ==> engine.Value() == old(engine.Value()) && engine.states == old(engine.states)
    {
      hide Engine.Valid;
      if !open { return; }
      ValidRecoverable();
      UndoEngine();
      open := false;
    }

    /** What undoing needs: everything outside the checkpoint is in order, whatever became of the copies. */
    ghost predicate Recoverable()
      reads this, engine, engine.states.Values, originals.Values
    {
      hide Coherent, Contents, LawfulLoaders, LawfulStates;
      && Undoable() && Contents(originals) == base.states && Separate(originals) && LawfulStates(base) && Coherent(base)
      && LawfulLoaders(engine.loaders) && engine.index == IndexOf(engine.requests)
      && ActiveOutside(engine.states, engine.active, checkpoint.states.Keys)
    }

    method UndoEngine()
      requires hide Engine.Valid, Engine.Value, StagingTransaction.Recoverable, StagingTransaction.Valid;
               Recoverable()
      modifies engine
      ensures engine.Valid() && engine.Value() == base && engine.states == originals
    {
      hide Patched, Contents, Lawful, LawfulStates, LawfulLoaders, Separate, ActiveOf, IndexOf, ActiveOutside;
      engine.Rollback(checkpoint);
      assert engine.Value() == base;
    }

    lemma {:induction false} ValidRecoverable()
      requires Valid() && open
      ensures Recoverable()
    {
      CoherentOutside(engine.states, checkpoint.states.Keys);
      hide Patched, Contents, Lawful, LawfulStates, LawfulLoaders, Separate, ActiveOf, IndexOf, ActiveOutside;
    }

    /** The first time a workflow is named, its entry is saved. */
    method Save(id: Id)
      requires hide Engine.Valid, StagingTransaction.Valid;
               Valid() && open && id != NO_ID && id !in workflows
      modifies this`checkpoint
      ensures Valid() && id in checkpoint.states && checkpoint.requests == old(checkpoint.requests)
    {
      hide Lawful, LawfulStates, LawfulLoaders, ActiveOf, IndexOf, Contents, Separate, Patched;
      if id !in checkpoint.states { PatchedSave(engine.states, checkpoint.states, id); }
      checkpoint := engine.ExtendCheckpoint(checkpoint, id, NO_ID);
    }

    /** The saved entry is replaced by a copy of the state, which the transaction owns. */
    method Adopt(id: Id, state: State) returns (copy: State)
      requires hide Engine.Valid, Engine.Value, Lawful, Resident, StagingTransaction.Valid;
               Valid() && open && id != NO_ID && id in checkpoint.states && id !in workflows
      requires Lawful(state.Value()) && state.id == id
      modifies this`workflows, engine
      ensures Valid() && open && workflows == old(workflows) + {id}
      ensures fresh(copy) && copy.Value() == state.Value() && engine.states == old(engine.states)[id := copy]
      ensures engine.Value() == Resident(old(engine.Value()), id, state.Value())
    {
      hide Lawful, LawfulStates, LawfulLoaders, ActiveOf, IndexOf, Contents, Separate, Patched, Resident;
      copy := state.Clone();
      FreshSeparate(engine.states, id, copy);
      PatchedCovered(engine.states, checkpoint.states, id, copy);
      engine.Install(id, copy);
      workflows := workflows + {id};
    }

    /** resolveState of a transaction. */
    method ResolveState(id: Id) returns (r: Result<State?>)
      requires hide Engine.Valid, Engine.Value, Lawful, StagingTransaction.Valid;
               Valid() && open && workflows <= engine.states.Keys
      modifies this, engine
      ensures Valid() && open
      ensures fresh(Owned() - old(Owned())) && checkpoint.requests == old(checkpoint.requests)
      ensures r == Ok(null) ==> id !in engine.states
      ensures match Ledgers.ResolveState(old(engine.Value()), engine.loaders, id)
              case Err(error) => r == Err(error)
              case Ok(None) => r == Ok(null) && engine.Value() == old(engine.Value())
                  && engine.states == old(engine.states)
                               && workflows == if id != NO_ID then old(workflows) + {id} else old(workflows)
              case Ok(Some(w)) =>
                && r.Ok? && r.value != null && r.value.Value() == w && Lawful(w) && w.id == id && id != NO_ID
                && engine.states == old(engine.states)[id := r.value] && workflows == old(workflows) + {id}
                && engine.Value() == Resident(old(engine.Value()), id, w)
    {
      hide Lawful, LawfulStates, LawfulLoaders, ActiveOf, IndexOf, Contents, Separate, Patched, Resident;
      r := engine.ResolveState(id);
      if id == NO_ID {
        NoNameless(engine.Value());
        return;
      }
      if id in workflows {
        ResidentUnseen(engine.Value(), id, engine.states[id].Value());
        KnownContents(engine.states, id);
        assert engine.states[id := engine.states[id]] == engine.states && workflows + {id} == workflows;
        return;
      }
      Save(id);
      if r.Err? { return; }
      if r.value == null {
        workflows := workflows + {id};
        return;
      }
      var copy := Adopt(id, r.value);
      return Ok(copy);
    }

    /** Planning in place, on the copy that the transaction owns. */
    method StagePlan(state: State?, c: Command, hash: Hash) returns (r: Result<Prepared>)
      requires hide Engine.StandsApart, Engine.Valid, Engine.Value, Lawful, PlanCommand, PreparedAs,
                 StagingTransaction.Recoverable, StagingTransaction.Valid;
               Valid() && open
      requires state != null ==> && Lawful(state.Value()) && c.workflow in workflows && c.workflow in engine.states
                                 && engine.states[c.workflow] == state
      requires state == null ==> c.workflow !in engine.states
      modifies if state != null then {state} else {}
      ensures Recoverable() && engine.StandsApart(old(engine.Value()), c.workflow)
      ensures PreparedAs(r, PlanCommand(old(Content(state)), c, hash))
      ensures r.Ok? ==> (if state != null then r.value.next == state else fresh(r.value.next))
                        && Separate(engine.states[c.workflow := r.value.next]) && r.value.next !in originals.Values
    {
      hide Lawful, LawfulStates, LawfulLoaders, IndexOf, Patched, PlanCommand;
      ValidRecoverable();
      r := PlanOn(state, c, hash, true);
    }

    /** The staged state and the record enter the tables. */
    method StageAccept(c: Command, hash: Hash, workflow: Id, prepared: Prepared, ghost before: Ledger)
      requires hide Accept, Engine.StandsApart, Engine.Valid, Engine.Value, Lawful, StagingTransaction.Recoverable,
                 StagingTransaction.Valid;
               Recoverable() && Owning() && open && engine.StandsApart(before, workflow)
      requires c.request in checkpoint.requests && workflow in workflows && workflow != NO_ID
      requires Lawful(prepared.next.Value()) && prepared.next.id == workflow && prepared.next !in originals.Values
      requires Separate(engine.states[workflow := prepared.next])
      modifies engine
      ensures Valid() && engine.states == old(engine.states)[workflow := prepared.next]
      ensures engine.Value() == Accept(before, c.request, hash, workflow, prepared.events, prepared.next.Value())
    {
      hide Lawful, LawfulStates, LawfulLoaders, ActiveOf, IndexOf, Contents, Separate, Patched, Accept, ActiveOutside;
      PatchedCovered(engine.states, checkpoint.states, workflow, prepared.next);
      PatchedCovered(engine.requests, checkpoint.requests, c.request, Record(hash, workflow, prepared.events));
      engine.ApplyPrepared(c.request, hash, workflow, prepared.events, prepared.next, before);
    }

    /** What follows once the state is resolved. */
    method StageResolved(c: Command, addressed: Command, hash: Hash, state: State?) returns (r: Result<Answer>)
      requires hide Accept, Engine.Valid, Engine.Value, Lawful, PlanCommand, StagingTransaction.Recoverable,
                 StagingTransaction.Valid;
               Valid() && open && c.request in checkpoint.requests && hash != NoHash
      requires state != null ==>
                 && Lawful(state.Value()) && addressed.workflow in workflows && addressed.workflow in engine.states
                 && engine.states[addressed.workflow] == state && state.id == addressed.workflow
      requires state == null ==>
                 addressed.workflow !in engine.states
                 && (addressed.workflow != NO_ID ==> addressed.workflow in workflows)
      modifies engine, if state != null then {state} else {}
      ensures Recoverable()
      ensures match PlanCommand(old(Content(state)), addressed, hash)
              case Err(error) => r == Err(error) && engine.states == old(engine.states)
              case Ok(p) =>
                && r == Ok(Fresh(p)) && Valid() && p.workflow == addressed.workflow != NO_ID
                    && addressed.workflow in engine.states
                && engine.states == old(engine.states)[addressed.workflow := engine.states[addressed.workflow]]
                && (if state != null then engine.states[addressed.workflow] == state
                    else fresh(engine.states[addressed.workflow]))
                && engine.Value() == Accept(old(engine.Value()), c.request, hash, p.workflow, p.events, p.next)
    {
      hide Lawful, LawfulStates, LawfulLoaders, Coherent, IndexOf, Contents, Separate, Patched, PlanCommand, Accept,
          Recoverable, ActiveOutside;
      ghost var before, content := engine.Value(), Content(state);
      var prepared := StagePlan(state, addressed, hash);
      if prepared.Err? { return Err(prepared.error); }
      PlannedWorkflow(content, addressed, hash);
      var answer := Fresh(Planned(addressed.workflow, prepared.value.events, prepared.value.next.Value()));
      StageAccept(c, hash, addressed.workflow, prepared.value, before);
      ValidRecoverable();
      return Ok(answer);
    }

    /** The planning part of prepareAndApply, on a request not seen before. A refusal leaves the copies in any
        state, but the beginning can still be recovered. */
    method StageFresh(c: Command, hash: Hash) returns (r: Result<Answer>)
      requires hide Accept, Engine.Valid, Engine.Value, PlanFresh, StagingTransaction.Recoverable,
                 StagingTransaction.Valid;
               Valid() && open && workflows <= engine.states.Keys && hash != NoHash
      requires c.request in checkpoint.requests
      modifies this, engine, Owned()
      ensures Recoverable() && open && fresh(Owned() - old(Owned()))
      ensures match PlanFresh(old(engine.Value()), engine.loaders, c, hash)
              case Err(error) => r == Err(error)
              case Ok(p) =>
                && r == Ok(Fresh(p)) && Valid() && workflows <= engine.states.Keys
                && engine.Value() == Accept(old(engine.Value()), c.request, hash, p.workflow, p.events, p.next)
    {
      hide Lawful, LawfulStates, LawfulLoaders, Coherent, IndexOf, Contents, Separate, Patched, Resident, PlanCommand,
          Accept, Recoverable, ActiveOutside, Owning, Undoable, StagingTransaction.Recoverable;
      var addressed := Addressed(c);
      ghost var v := engine.Value();
      var state := ResolveState(addressed.workflow);
      ValidRecoverable();
      if state.Err? { return Err(state.error); }
      ghost var content := Content(state.value);
      if content.Some? { ResidentUnseen(v, addressed.workflow, content.value); }
      r := StageResolved(c, addressed, hash, state.value);
    }

    /** The record of the request is saved before anything else. */
    method SaveRequest(request: Id)
      requires hide Engine.Valid, StagingTransaction.Valid;
               Valid() && open && request != NO_ID
      modifies this`checkpoint
      ensures Valid() && request in checkpoint.requests
    {
      hide Lawful, LawfulStates, LawfulLoaders, ActiveOf, IndexOf, Contents, Separate, Patched;
      if request !in checkpoint.requests { PatchedSave(engine.requests, checkpoint.requests, request); }
      checkpoint := engine.ExtendCheckpoint(checkpoint, NO_ID, request);
    }

    /** prepareWith and applyPrepared on the transaction. */
    method Prepare(c: Command) returns (r: Result<Answer>)
      requires hide Engine.Valid, Engine.Value, Handle, Ledgers.Prepare, StagingTransaction.Recoverable,
                 StagingTransaction.Valid;
               Valid() && open && workflows <= engine.states.Keys
               && (c.request != NO_ID ==> c.request in checkpoint.requests)
      modifies this, engine, Owned()
      ensures Recoverable() && open && fresh(Owned() - old(Owned()))
      ensures match Handle(old(engine.Value()), engine.loaders, c)
              case Err(error) => r == Err(error)
              case Ok((answer, after)) =>
                r == Ok(answer) && Valid() && workflows <= engine.states.Keys && engine.Value() == after
    {
      hide Lawful, LawfulStates, LawfulLoaders, Coherent, Contents, Separate, PlanFresh, Accept, Recoverable, Owning,
          Undoable, HashCommand, Engine.Valid, StagingTransaction.Recoverable, StagingTransaction.Valid;
      ValidRecoverable();
      if Blank(c.request) { return Err(ErrInvalidCommand); }
      var hash := HashCommand(c);
      var known := engine.FindRequest(c.request);
      if known.Err? { return Err(known.error); }
      if known.value.Some? {
        if known.value.value.hash != hash { return Err(ErrRequestConflict); }
        return Ok(Repeat(known.value.value));
      }
      r := StageFresh(c, hash);
    }

    /** prepareAndApply. While the transaction is open, a command that the engine would accept on isolated
        copies is answered alike and leaves the engine alike; any other command undoes the whole transaction. */
    method PrepareAndApply(c: Command) returns (r: Result<Answer>)
      requires hide Engine.Valid, Engine.Value, Handle, StagingTransaction.Valid;
               Valid() && (open ==> workflows <= engine.states.Keys)
      modifies this, engine, Owned()
      ensures Valid() && (open ==> fresh(Owned() - old(Owned())) && workflows <= engine.states.Keys)
      ensures !old(open) ==> r == Err(ErrInvalidTransition) && !open && engine.Value() == old(engine.Value())
      ensures old(open) ==>
                match Handle(old(engine.Value()), engine.loaders, c)
                case Err(error) => r == Err(error) && !open && engine.Value() == base && engine.states == originals
                case Ok((answer, after)) => r == Ok(answer) && open && engine.Value() == after
    {
      hide Lawful, LawfulStates, LawfulLoaders, Coherent, Contents, Separate, Handle, Recoverable, Owning, Undoable,
          Engine.Valid, HashCommand, Ledgers.Prepare, PlanFresh;
      if !open { return Err(ErrInvalidTransition); }
      if c.request != NO_ID { SaveRequest(c.request); }
      r := Prepare(c);
      if r.Err? {
        UndoEngine();
        open := false;
      }
    }
  }

  lemma {:induction false} NoNameless(ledger: Ledger)
    requires LawfulStates(ledger)
    ensures NO_ID !in ledger.states
  {
  }

  lemma {:induction false} KnownContents(states: map<Id, State>, id: Id)
    requires id in states
    ensures id in Contents(states) && Contents(states)[id] == states[id].Value()
  {
  }

  // ----------------------------------------------------------------------------------------------------
  // applyBatches of internal/core/engine.go: batches from the log are applied to provisional copies, and only when
  // all of them apply does the engine change.
  // ----------------------------------------------------------------------------------------------------

  /** applyOwnedEvents: the events are applied in place. */
  method ApplyOwned(state: State?, events: seq<Event>) returns (r: Result<State?>)
    requires hide ApplyAll, Engine.Value, Lawful;
             state != null ==> Lawful(state.Value())
    modifies if state == null then {} else {state}
    ensures match ApplyAll(old(Content(state)), events)
            case Err(error) => r == Err(error)
            case Ok(after) => r.Ok? && Content(r.value) == after && (after.Some? ==> Lawful(after.value))
    ensures r.Ok? && r.value != null ==> if state == null then fresh(r.value) else r.value == state
    ensures r.Ok? && state != null ==> r.value == state
  {
    hide Lawful, Reducer.ApplyEvent;
    ghost var start := Content(state);
    var next := state;
    for i := 0 to |events|
      invariant ApplyAll(start, events[..i]) == Ok(Content(next))
      invariant next != null ==> Lawful(next.Value()) && (if state == null then fresh(next) else next == state)
      invariant state != null ==> next == state
    {
      assert events[..i + 1][..i] == events[..i];
      var applied := ApplyOne(next, events[i], false);
      if applied.Err? {
        StuckFold(start, events, i + 1);
        return Err(applied.error);
      }
      next := applied.value;
    }
    assert events[..|events|] == events;
    return Ok(next);
  }

  lemma {:induction false} StuckFold(state: Option<Workflow>, events: seq<Event>, n: nat)
    requires hide ApplyAll;
             n <= |events| && ApplyAll(state, events[..n]).Err?
    ensures ApplyAll(state, events) == ApplyAll(state, events[..n])
  {
    hide Reducer.ApplyEvent;
    if n < |events| {
      var front := events[..|events| - 1];
      assert front[..n] == events[..n];
      StuckFold(state, front, n);
    } else {
      assert events[..n] == events;
    }
  }

  // ----- Provisional results -----

  /** The provisional states and records, and the accepted batches in order. */
  datatype Draft = Draft(states: map<Id, State>, requests: map<Id, Record>, accepted: seq<Batch>)

  function AllEvents(accepted: seq<Batch>): seq<Event> {
    if accepted == [] then [] else AllEvents(accepted[..|accepted| - 1]) + accepted[|accepted| - 1].events
  }

  function Tally(metrics: Metrics, accepted: seq<Batch>): Metrics {
    if accepted == [] then metrics
        else Counted(Tally(metrics, accepted[..|accepted| - 1]), accepted[|accepted| - 1].events)
  }

  function RecordsOf(accepted: seq<Batch>): map<Id, Record> {
    if accepted == [] then map[]
    else
      var last := accepted[|accepted| - 1];
      RecordsOf(accepted[..|accepted| - 1])[last.request := Record(last.hash, last.workflow, last.events)]
  }

  /** The ledger with provisional states and records in place. */
  function Drafted(ledger: Ledger, states: map<Id, Workflow>, requests: map<Id, Record>, accepted: seq<Batch>): Ledger {
    Ledger(ledger.states + states, ActiveOf(ledger.states + states), ledger.requests + requests,
        IndexOf(ledger.requests + requests),
           if ledger.journaled then ledger.journal + AllEvents(accepted) else ledger.journal, ledger.journaled,
           Tally(ledger.metrics, accepted))
  }

  lemma {:induction false} NothingDrafted(ledger: Ledger)
    requires Coherent(ledger)
    ensures Drafted(ledger, map[], map[], []) == ledger
  {
    hide ActiveOf, IndexOf;
    assert ledger.states + map[] == ledger.states && ledger.requests + map[] == ledger.requests;
    assert ledger.journal + [] == ledger.journal;
  }

  /** One more accepted batch. */
  lemma {:induction false} DraftGrows(ledger: Ledger, states: map<Id, Workflow>, requests: map<Id, Record>,
                                      accepted: seq<Batch>, batch: Batch, next: Workflow)
    ensures Accept(Drafted(ledger, states, requests, accepted), batch.request, batch.hash, batch.workflow,
            batch.events, next) ==
            Drafted(ledger, states[batch.workflow := next],
                requests[batch.request := Record(batch.hash, batch.workflow, batch.events)], accepted + [batch])
  {
    var from := Drafted(ledger, states, requests, accepted);
    var record := Record(batch.hash, batch.workflow, batch.events);
    UpdateActiveKeeps(from.states, batch.workflow, next);
    StoreIndexKeeps(from.requests, batch.request, record);
    hide ActiveOf, IndexOf, StoreIndex, UpdateActive, Counted;
    assert ledger.states + states[batch.workflow := next] == (ledger.states + states)[batch.workflow := next];
    assert ledger.requests + requests[batch.request := record] == (ledger.requests + requests)[batch.request := record];
    assert (accepted + [batch])[..|accepted|] == accepted;
    assert ledger.journal + AllEvents(accepted) + batch.events == ledger.journal + (AllEvents(accepted) + batch.events);
  }

  /** The draft stands for `ledger`, on objects of its own. */
  ghost predicate DraftOk(engine: Engine, draft: Draft, ledger: Ledger)
    reads engine, engine.states.Values, draft.states.Values
  {
    hide Coherent, Contents, Drafted, Engine.Valid, Engine.Value, LawfulStates;
    && engine.Valid() && Separate(draft.states) && draft.states.Values !! engine.states.Values
    && LawfulStates(ledger) && Coherent(ledger) && draft.requests == RecordsOf(draft.accepted)
    && ledger == Drafted(engine.Value(), Contents(draft.states), draft.requests, draft.accepted)
  }

  /** The state of a workflow as the draft has it: a provisional one, or a copy of the engine's. */
  method DraftState(engine: Engine, draft: Draft, id: Id, ghost ledger: Ledger) returns (r: Result<State?>)
    requires hide DraftOk, Lawful;
             DraftOk(engine, draft, ledger)
    ensures match ResolveState(ledger, engine.loaders, id)
            case Err(error) => r == Err(error)
            case Ok(w) => r.Ok? && Content(r.value) == w && (w.Some? ==> Lawful(w.value) && w.value.id == id)
    ensures r.Ok? && r.value != null ==> if id in draft.states then r.value == draft.states[id] else fresh(r.value)
    ensures r == Ok(null) ==> id !in draft.states
  {
    hide Lawful, ActiveOf, IndexOf, Engine.Valid;
    if id in draft.states {
      assert ledger.states[id] == draft.states[id].Value();
      return Ok(draft.states[id]);
    }
    assert id in ledger.states <==> id in engine.states;
    var state := engine.ResolveState(id);
    if state.Err? { return Err(state.error); }
    if state.value == null { return Ok(null); }
    var copy := state.value.Clone();
    return Ok(copy);
  }

  /** The request record as the draft has it. */
  method DraftRequest(engine: Engine, draft: Draft, id: Id, ghost ledger: Ledger) returns (r: Result<Option<Record>>)
    requires hide DraftOk;
             DraftOk(engine, draft, ledger)
    ensures r == ResolveRequest(ledger, engine.loaders, id)
  {
    hide Lawful, LawfulStates, ActiveOf, IndexOf, Contents;
    if id in draft.requests { return Ok(Some(draft.requests[id])); }
    r := engine.FindRequest(id);
  }

  /** The part of ApplyBatch that applies a batch not seen before. */
  ghost function ApplyNew(ledger: Ledger, loaders: Loaders, batch: Batch): Result<Workflow> {
    hide ApplyAll;
    var state :- ResolveState(ledger, loaders, batch.workflow);
    var next :- ApplyAll(state, batch.events);
    if next.Some? then Ok(next.value) else Err(ErrInvalidTransition)
  }

  lemma {:induction false} NewNext(ledger: Ledger, loaders: Loaders, batch: Batch)
    requires hide ApplyNew, Lawful, LawfulLoaders, LawfulStates;
             LawfulStates(ledger) && LawfulLoaders(loaders) && ApplyNew(ledger, loaders, batch).Ok?
    requires batch.events != [] && forall i | 0 <= i < |batch.events| :: BatchMatches(batch, batch.events[i])
    ensures var next := ApplyNew(ledger, loaders, batch).value; Lawful(next) && next.id == batch.workflow
  {
    hide ApplyAll, Lawful;
    var state := ResolveState(ledger, loaders, batch.workflow).value;
    AppliedIds(state, batch.events);
    assert BatchMatches(batch, batch.events[0]) && batch.events[0] in batch.events;
  }

  /** Applying a new batch to the draft, in place on the provisional state. */
  method DraftApply(engine: Engine, draft: Draft, batch: Batch, ghost ledger: Ledger) returns (r: Result<State>)
    requires hide ApplyNew, Contents, DraftOk, Engine.Valid, Engine.Value;
             DraftOk(engine, draft, ledger) && batch.events != []
    modifies draft.states.Values
    ensures engine.Valid() && engine.Value() == old(engine.Value())
    ensures match ApplyNew(ledger, engine.loaders, batch)
            case Err(error) => r == Err(error)
            case Ok(next) =>
              && r.Ok? && r.value.Value() == next && Separate(draft.states[batch.workflow := r.value])
              && (if batch.workflow in draft.states then r.value == draft.states[batch.workflow] else fresh(r.value))
              && Contents(draft.states[batch.workflow := r.value])
                  == old(Contents(draft.states))[batch.workflow := next]
  {
    hide Lawful, LawfulStates, LawfulLoaders, Coherent, ApplyAll, Drafted, Contents, Separate;
    var state := DraftState(engine, draft, batch.workflow, ledger);
    if state.Err? { return Err(state.error); }
    r := FoldOnto(draft.states, batch.workflow, state.value, batch.events);
  }

  /** The events are applied to the table's own state of the workflow, or to one that is not in the table. */
  method FoldOnto(states: map<Id, State>, id: Id, state: State?, events: seq<Event>) returns (r: Result<State>)
    requires hide ApplyAll, Contents, Engine.Value, Lawful;
             Separate(states) && events != [] && (state != null ==> Lawful(state.Value()))
    requires if id in states then state == states[id] else state !in states.Values
    modifies if state == null then {} else {state}
    ensures match ApplyAll(old(Content(state)), events)
            case Err(error) => r == Err(error)
            case Ok(next) =>
              && r.Ok? && next == Some(r.value.Value()) && Separate(states[id := r.value])
              && (if state != null then r.value == state else fresh(r.value))
              && Contents(states[id := r.value]) == old(Contents(states))[id := r.value.Value()]
  {
    hide Lawful, ApplyAll;
    ghost var content := Content(state);
    var next := ApplyOwned(state, events);
    if next.Err? { return Err(next.error); }
    FoldExists(content, events);
    return Ok(next.value);
  }

  lemma {:induction false} FoldExists(state: Option<Workflow>, events: seq<Event>)
    requires hide ApplyAll;
             events != [] && ApplyAll(state, events).Ok?
    ensures ApplyAll(state, events).value.Some?
  {
    hide Reducer.ApplyEvent;
  }

  lemma {:induction false} ApplyBatchNew(ledger: Ledger, loaders: Loaders, batch: Batch)
    requires hide Accept, ApplyBatch, ApplyNew, Blank;
             batch.version == BATCH_VERSION && !Blank(batch.request) && batch.hash != NoHash
    requires ResolveRequest(ledger, loaders, batch.request) == Ok(None)
    requires !Blank(batch.workflow) && batch.events != []
             && forall i | 0 <= i < |batch.events| :: BatchMatches(batch, batch.events[i])
    ensures ApplyBatch(ledger, loaders, batch) ==
            match ApplyNew(ledger, loaders, batch)
            case Err(error) => Err(error)
            case Ok(next) => Ok((Applied(Outcome(batch.workflow, batch.events, false)),
                                 Accept(ledger, batch.request, batch.hash, batch.workflow, batch.events, next)))
  {
    hide ApplyAll, Accept;
    var state := ResolveState(ledger, loaders, batch.workflow);
    if state.Ok? && ApplyAll(state.value, batch.events).Ok? { FoldExists(state.value, batch.events); }
  }

  /** One batch of the loop: answered from a known record, or applied to the draft. */
  method DraftBatch(engine: Engine, draft: Draft, batch: Batch, ghost ledger: Ledger)
    returns (r: Result<(Application, Draft)>)
    requires hide ApplyBatch, DraftOk, Engine.Valid, Engine.Value;
             DraftOk(engine, draft, ledger)
    modifies draft.states.Values
    ensures engine.Valid() && engine.Value() == old(engine.Value())
    ensures match ApplyBatch(ledger, engine.loaders, batch)
            case Err(error) => r == Err(error)
            case Ok((application, after)) =>
              r.Ok? && r.value.0 == application && DraftOk(engine, r.value.1, after)
                  && fresh(r.value.1.states.Values - draft.states.Values)
  {
    hide Lawful, LawfulStates, LawfulLoaders, Coherent, ApplyNew, Drafted, Accept, Contents, Separate;
    if batch.version != BATCH_VERSION { return Err(ErrBatchVersion); }
    if Blank(batch.request) || batch.hash == NoHash { return Err(ErrInvalidTransition); }
    var known := DraftRequest(engine, draft, batch.request, ledger);
    if known.Err? { return Err(known.error); }
    if known.value.Some? {
      if known.value.value.hash != batch.hash { return Ok((Conflict, draft)); }
      return Ok((Applied(Outcome(known.value.value.workflow, known.value.value.events, true)), draft));
    }
    if Blank(batch.workflow) || batch.events == [] { return Err(ErrInvalidTransition); }
    var matched := forall i | 0 <= i < |batch.events| :: BatchMatches(batch, batch.events[i]);
    if !matched { return Err(ErrInvalidTransition); }
    ApplyBatchNew(ledger, engine.loaders, batch);
    hide ApplyBatch;
    var grown := DraftAccept(engine, draft, batch, ledger);
    if grown.Err? { return Err(grown.error); }
    return Ok((Applied(Outcome(batch.workflow, batch.events, false)), grown.value));
  }

  /** The draft after a new batch, on values. */
  lemma {:induction false} DraftAccepted(base: Ledger, loaders: Loaders, contents: map<Id, Workflow>,
                                         requests: map<Id, Record>, accepted: seq<Batch>, batch: Batch, next: Workflow)
    requires hide ApplyNew, Coherent, Drafted, LawfulLoaders, LawfulStates;
             var ledger := Drafted(base, contents, requests, accepted);
             LawfulStates(ledger) && Coherent(ledger) && LawfulLoaders(loaders)
             && ApplyNew(ledger, loaders, batch) == Ok(next)
    requires requests == RecordsOf(accepted) && batch.workflow != NO_ID && batch.events != []
             && forall i | 0 <= i < |batch.events| :: BatchMatches(batch, batch.events[i])
    ensures var ledger := Drafted(base, contents, requests, accepted);
            var after := Accept(ledger, batch.request, batch.hash, batch.workflow, batch.events, next);
            var records := requests[batch.request := Record(batch.hash, batch.workflow, batch.events)];
            && LawfulStates(after) && Coherent(after) && records == RecordsOf(accepted + [batch])
            && after == Drafted(base, contents[batch.workflow := next], records, accepted + [batch])
  {
    hide Lawful, LawfulStates, LawfulLoaders, Coherent, ApplyNew, Drafted, Accept;
    var ledger := Drafted(base, contents, requests, accepted);
    NewNext(ledger, loaders, batch);
    DraftGrows(base, contents, requests, accepted, batch, next);
    AcceptCoherent(ledger, batch.request, batch.hash, batch.workflow, batch.events, next);
    AcceptLawful(ledger, batch.request, batch.hash, batch.workflow, batch.events, next);
    assert (accepted + [batch])[..|accepted|] == accepted;
  }

  /** A new batch with sound metadata. */
  method DraftAccept(engine: Engine, draft: Draft, batch: Batch, ghost ledger: Ledger) returns (r: Result<Draft>)
    requires hide Accept, ApplyNew, DraftOk, Engine.Valid, Engine.Value;
             DraftOk(engine, draft, ledger) && batch.workflow != NO_ID && batch.events != []
    requires forall i | 0 <= i < |batch.events| :: BatchMatches(batch, batch.events[i])
    modifies draft.states.Values
    ensures engine.Valid() && engine.Value() == old(engine.Value())
    ensures match ApplyNew(ledger, engine.loaders, batch)
            case Err(error) => r == Err(error)
            case Ok(next) =>
              && r.Ok? && fresh(r.value.states.Values - draft.states.Values)
              && DraftOk(engine, r.value, Accept(ledger, batch.request, batch.hash, batch.workflow, batch.events, next))
  {
    hide Lawful, LawfulStates, LawfulLoaders, Coherent, ApplyNew, Drafted, Accept, Contents, Separate, RecordsOf;
    ghost var contents := Contents(draft.states);
    var next := DraftApply(engine, draft, batch, ledger);
    if next.Err? { return Err(next.error); }
    DraftAccepted(engine.Value(), engine.loaders, contents, draft.requests, draft.accepted, batch, next.value.Value());
    return Ok(Draft(draft.states[batch.workflow := next.value],
                    draft.requests[batch.request := Record(batch.hash, batch.workflow, batch.events)],
                        draft.accepted + [batch]));
  }

  // ----- Committing -----

  /** Every object holds a lawful state of the workflow it is filed under. */
  ghost predicate Filed(states: map<Id, State>)
    reads states.Values
  {
    hide Engine.Value, Lawful;
    forall id | id in states :: id != NO_ID && states[id].id == id && Lawful(states[id].Value())
  }

  ghost function Joined(base: map<Id, State>, states: map<Id, State>): map<Id, State> {
    base + states
  }

  lemma {:induction false} JoinedStep(base: map<Id, State>, done: map<Id, State>, id: Id, state: State)
    ensures Joined(base, done[id := state]) == Joined(base, done)[id := state]
  {
  }

  /** The loop that files the provisional states and keeps the active set up to date. */
  method InstallAll(engine: Engine, states: map<Id, State>)
    requires engine.active == ActiveOf(Contents(engine.states))
    modifies engine`states, engine`active
    ensures engine.states == Joined(old(engine.states), states) && engine.active == ActiveOf(Contents(engine.states))
  {
    hide Contents, ActiveOf, UpdateActive, Joined;
    ghost var base := engine.states;
    var left := states;
    ghost var done: map<Id, State> := map[];
    JoinedNone(base);
    while left != map[]
      invariant engine.states == Joined(base, done) && engine.active == ActiveOf(Contents(engine.states))
      invariant forall id :: (id in left || id in done) <==> id in states
      invariant (forall id | id in left :: left[id] == states[id]) && (forall id | id in done :: done[id] == states[id])
      decreases |left|
    {
      var id :| id in left;
      var state := left[id];
      Sums.Smaller(left, id);
      JoinedStep(base, done, id, state);
      InstallOne(engine, id, state);
      done := done[id := state];
      left := left - {id};
    }
    assert done == states;
  }

  lemma {:induction false} JoinedNone(base: map<Id, State>)
    ensures Joined(base, map[]) == base
  {
  }

  method InstallOne(engine: Engine, id: Id, state: State)
    requires engine.active == ActiveOf(Contents(engine.states))
    modifies engine`states, engine`active
    ensures engine.states == old(engine.states)[id := state] && engine.active == ActiveOf(Contents(engine.states))
  {
    hide Contents, ActiveOf, UpdateActive;
    ContentsUpdated(engine.states, id, state);
    UpdateActiveKeeps(Contents(engine.states), id, state.Value());
    engine.states := engine.states[id := state];
    engine.active := UpdateActive(engine.active, id, state.Value());
  }

  lemma {:induction false} FiledTogether(base: map<Id, State>, states: map<Id, State>)
    requires Filed(base) && Filed(states) && Separate(base) && Separate(states) && states.Values !! base.Values
    ensures Filed(base + states) && Separate(base + states)
  {
    hide Lawful;
    var all := base + states;
    forall i, j | i in all && j in all && i != j ensures all[i] != all[j] {
      assert i in states || all[i] in base.Values;
      assert j in states || all[j] in base.Values;
      assert i in states ==> all[i] in states.Values;
      assert j in states ==> all[j] in states.Values;
    }
  }

  method CommitStates(engine: Engine, states: map<Id, State>)
    requires hide Contents, Engine.Valid, Filed;
             engine.Valid() && Separate(states) && states.Values !! engine.states.Values && Filed(states)
    modifies engine`states, engine`active
    ensures engine.Valid() && Contents(engine.states) == old(Contents(engine.states)) + Contents(states)
  {
    EngineFiled(engine);
    FiledTogether(engine.states, states);
    hide Lawful, LawfulStates, LawfulLoaders, Separate, Filed, IndexOf, ActiveOf, Contents;
    InstallAll(engine, states);
    ContentsJoin(old(engine.states), states);
    FiledLawful(engine);
  }

  lemma {:induction false} EngineFiled(engine: Engine)
    requires hide Engine.Valid, Filed;
             engine.Valid()
    ensures Filed(engine.states)
  {
    hide Lawful;
    forall id | id in engine.states ensures id != NO_ID && engine.states[id].id == id
        && Lawful(engine.states[id].Value()) {
      assert engine.Value().states[id] == engine.states[id].Value();
    }
  }

  lemma {:induction false} FiledLawful(engine: Engine)
    requires hide Engine.Value, Filed, LawfulStates;
             Filed(engine.states)
    ensures LawfulStates(engine.Value())
  {
    hide Lawful;
  }

  lemma {:induction false} ContentsJoin(a: map<Id, State>, b: map<Id, State>)
    ensures Contents(a + b) == Contents(a) + Contents(b)
  {
  }

  lemma {:induction false} CommittedNone(requests: map<Id, Record>, journal: seq<Event>, metrics: Metrics)
    ensures requests + RecordsOf([]) == requests && journal + AllEvents([]) == journal && Tally(metrics, []) == metrics
  {
  }

  /** One more accepted batch in the tables. */
  lemma {:induction false} CommittedNext(accepted: seq<Batch>, i: nat, requests: map<Id, Record>, journal: seq<Event>,
                                         metrics: Metrics)
    requires i < |accepted|
    ensures var (before, after, b) := (accepted[..i], accepted[..i + 1], accepted[i]);
            && requests + RecordsOf(after) ==
               (requests + RecordsOf(before))[b.request := Record(b.hash, b.workflow, b.events)]
            && journal + AllEvents(after) == journal + AllEvents(before) + b.events
            && Tally(metrics, after) == Counted(Tally(metrics, before), b.events)
  {
    hide Counted;
    assert accepted[..i + 1][..i] == accepted[..i];
  }

  method CommitRequests(engine: Engine, accepted: seq<Batch>)
    requires engine.index == IndexOf(engine.requests)
    modifies engine`requests, engine`index, engine`journal, engine`metrics
    ensures engine.requests == old(engine.requests) + RecordsOf(accepted) && engine.index == IndexOf(engine.requests)
    ensures engine.journal == if engine.journaled then old(engine.journal) + AllEvents(accepted)
            else old(engine.journal)
    ensures engine.metrics == Tally(old(engine.metrics), accepted)
  {
    hide IndexOf, StoreIndex, Counted, RecordsOf, AllEvents, Tally;
    CommittedNone(engine.requests, engine.journal, engine.metrics);
    assert accepted[..0] == [];
    for i := 0 to |accepted|
      invariant engine.requests == old(engine.requests) + RecordsOf(accepted[..i])
                && engine.index == IndexOf(engine.requests)
      invariant engine.journal == if engine.journaled then old(engine.journal) + AllEvents(accepted[..i])
                else old(engine.journal)
      invariant engine.metrics == Tally(old(engine.metrics), accepted[..i])
    {
      var batch := accepted[i];
      var record := Record(batch.hash, batch.workflow, batch.events);
      CommittedNext(accepted, i, old(engine.requests), old(engine.journal), old(engine.metrics));
      StoreIndexKeeps(engine.requests, batch.request, record);
      engine.StoreRequest(batch.request, record);
      if engine.journaled { engine.journal := engine.journal + batch.events; }
      engine.metrics := Counted(engine.metrics, batch.events);
    }
    assert accepted[..|accepted|] == accepted;
  }

  method CommitDraft(engine: Engine, draft: Draft, ghost ledger: Ledger)
    requires hide DraftOk, Engine.Valid, Engine.Value;
             DraftOk(engine, draft, ledger)
    modifies engine
    ensures engine.Valid() && engine.Value() == ledger
  {
    hide Lawful, LawfulLoaders, LawfulStates, IndexOf, ActiveOf, Contents, Separate, AllEvents, Tally, RecordsOf;
    DraftLawful(engine, draft, ledger);
    ghost var v, contents := engine.Value(), Contents(draft.states);
    assert ledger == Drafted(v, contents, RecordsOf(draft.accepted), draft.accepted);
    CommitStates(engine, draft.states);
    assert engine.active == ActiveOf(v.states + contents) && engine.index == IndexOf(engine.requests);
    CommitRequests(engine, draft.accepted);
    assert engine.Value() == ledger;
  }

  lemma {:induction false} DraftLawful(engine: Engine, draft: Draft, ledger: Ledger)
    requires DraftOk(engine, draft, ledger)
    ensures Filed(draft.states)
  {
    hide Lawful, Engine.Valid;
    forall id | id in draft.states ensures id != NO_ID && draft.states[id].id == id
        && Lawful(draft.states[id].Value()) {
      assert ledger.states[id] == draft.states[id].Value();
    }
  }

  /** applyBatches: a success is the batches applied one at a time, with repeated requests answered from the
      first record and conflicting ones refused; a failure of any batch leaves the engine untouched. */
  method ApplyBatches(engine: Engine, batches: seq<Batch>) returns (r: Result<seq<Application>>)
    requires hide Engine.Valid, Engine.Value, Ledgers.ApplyBatches;
             engine.Valid()
    modifies engine
    ensures engine.Valid()
    ensures match Ledgers.ApplyBatches(old(engine.Value()), engine.loaders, batches)
            case Err(error) => r == Err(error) && engine.Value() == old(engine.Value())
                && engine.states == old(engine.states)
            case Ok((applications, after)) => r == Ok(applications) && engine.Value() == after
  {
    hide Lawful, LawfulStates, LawfulLoaders, Coherent, Contents, Separate, ApplyBatch, Drafted, DraftOk, Engine.Valid;
    var draft := Draft(map[], map[], []);
    var applications: seq<Application> := [];
    ghost var start, ledger := engine.Value(), engine.Value();
    EmptyDraft(engine);
    for i := 0 to |batches|
      invariant engine.states == old(engine.states) && engine.Value() == start && DraftOk(engine, draft, ledger)
      invariant fresh(draft.states.Values)
      invariant Ledgers.ApplyBatches(start, engine.loaders, batches[..i]) == Ok((applications, ledger))
    {
      assert batches[..i + 1][..i] == batches[..i];
      ghost var step := ApplyBatch(ledger, engine.loaders, batches[i]);
      var drafted := DraftBatch(engine, draft, batches[i], ledger);
      if drafted.Err? {
        StuckBatches(start, engine.loaders, batches, i + 1);
        return Err(drafted.error);
      }
      applications, draft := applications + [drafted.value.0], drafted.value.1;
      ledger := step.value.1;
    }
    assert batches[..|batches|] == batches;
    CommitDraft(engine, draft, ledger);
    return Ok(applications);
  }

  lemma {:induction false} EmptyDraft(engine: Engine)
    requires hide DraftOk, Engine.Valid, Engine.Value;
             engine.Valid()
    ensures DraftOk(engine, Draft(map[], map[], []), engine.Value())
  {
    hide Drafted;
    NothingDrafted(engine.Value());
    assert Contents(map[]) == map[];
  }

  lemma {:induction false} StuckBatches(ledger: Ledger, loaders: Loaders, batches: seq<Batch>, n: nat)
    requires hide Ledgers.ApplyBatches;
             n <= |batches| && Ledgers.ApplyBatches(ledger, loaders, batches[..n]).Err?
    ensures Ledgers.ApplyBatches(ledger, loaders, batches)
            == Err(Ledgers.ApplyBatches(ledger, loaders, batches[..n]).error)
  {
    hide ApplyBatch;
    if n < |batches| {
      assert batches[..|batches| - 1][..n] == batches[..n];
      StuckBatches(ledger, loaders, batches[..|batches| - 1], n);
    } else {
      assert batches[..n] == batches;
    }
  }
}
