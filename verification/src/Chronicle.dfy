/** Histories of an engine: replaying the journal rebuilds what the commands built, and the receipts of a workflow
    share out its events. */
module Chronicle {
  import opened Base
  import opened Model
  import opened Reducer
  import opened Lawfulness
  import opened Ledgers
  import opened Replays
  import opened Submission
  import opened Plans

  /** The engine after a history of commands; a refused command changes nothing. */
  ghost function Live(commands: seq<Command>): Ledger {
    hide Handle;
    if commands == [] then EMPTY
    else
      var before := Live(commands[..|commands| - 1]);
      match Handle(before, NoLoaders, commands[|commands| - 1])
      case Ok((_, after)) => after
      case Err(_) => before
  }

  /** One event of Replay. */
  ghost function ReplayEvent(before: Ledger, e: Event): Result<Ledger> {
    hide ApplyEvent;
    var _ :- Need(e.request != NO_ID && e.hash != NoHash, ErrInvalidTransition);
    var next :- ApplyEvent(Lookup(before.states, e.workflow), e);
    var record := if e.request in before.requests then before.requests[e.request] else Record(e.hash, e.workflow, []);
    var _ :- Need(record.hash == e.hash && record.workflow == e.workflow, ErrRequestConflict);
    var grown := record.(events := record.events + [e]);
    Ok(before.(states := before.states[e.workflow := next], active := UpdateActive(before.active, e.workflow, next),
               requests := before.requests[e.request := grown],
               index := StoreIndex(before.requests, before.index, e.request, grown),
               journal := before.journal + [e]))
  }

  ghost function Replay(events: seq<Event>): Result<Ledger> {
    hide ReplayEvent;
    if events == [] then Ok(EMPTY)
    else
      var before :- Replay(events[..|events| - 1]);
      ReplayEvent(before, events[|events| - 1])
  }

  // ----- What every live engine keeps -----

  ghost predicate Sane(ledger: Ledger) {
    hide Coherent, LawfulStates;
    && Coherent(ledger) && LawfulStates(ledger) && ledger.journaled
    && forall r | r in ledger.requests :: r != NO_ID && ledger.requests[r].hash != NoHash
  }

  lemma {:induction false} EmptySane()
    ensures Sane(EMPTY)
  {
    assert ActiveOf(EMPTY.states) == {} && IndexOf(EMPTY.requests) == map[];
  }

  /** Every event of an applied sequence names the workflow, and the workflow keeps its identifier. */
  lemma {:induction false} AppliedIds(state: Option<Workflow>, events: seq<Event>)
    requires hide ApplyAll, Lawful;
             (state.Some? ==> Lawful(state.value)) && ApplyAll(state, events).Ok?
    ensures var after := ApplyAll(state, events).value;
            && (after.Some? ==> Lawful(after.value)) && (events != [] ==> after.Some?)
            && (state.Some? ==> after.Some? && after.value.id == state.value.id)
            && (forall e | e in events :: after.Some? && e.workflow == after.value.id)
  {
    hide ApplyEvent, Lawful;
    if events != [] {
      var front, last := events[..|events| - 1], events[|events| - 1];
      AppliedIds(state, front);
      var before := ApplyAll(state, front).value;
      ApplyLawful(before, last);
      if before.Some? { ApplySameWorkflow(before, last); }
      assert events == front + [last];
    }
  }

  lemma {:induction false} ApplySameWorkflow(state: Option<Workflow>, e: Event)
    requires hide ApplyEvent;
             state.Some? && ApplyEvent(state, e).Ok?
    ensures e.workflow == state.value.id
  {
    hide Transition, ApplySubmission;
  }

  lemma {:induction false} AppliedNamed(state: Option<Workflow>, events: seq<Event>)
    requires hide ApplyAll, Blank;
             events != [] && ApplyAll(state, events).Ok?
    ensures !Blank(events[|events| - 1].workflow)
  {
    hide Transition, ApplySubmission;
  }

  /** A fresh plan is about the workflow that its command names. */
  lemma {:induction false} PlannedWorkflow(state: Option<Workflow>, c: Command, hash: Hash)
    requires hide ApplyAll, Lawful, PlanCommand;
             hash != NoHash && PlanCommand(state, c, hash).Ok?
             && (state.Some? ==> state.value.id == c.workflow && Lawful(state.value))
    ensures var p := PlanCommand(state, c, hash).value;
            && p.workflow == c.workflow && p.workflow != NO_ID && p.next.id == c.workflow && Lawful(p.next)
                && p.events != []
            && ApplyAll(state, p.events) == Ok(Some(p.next))
            && forall e | e in p.events :: e.workflow == c.workflow && e.request == c.request && e.hash == hash
  {
    hide ApplyAll, Decide, Lawful;
    var p := PlanCommand(state, c, hash).value;
    PreparedReplays(state, c, hash);
    AppliedIds(state, p.events);
    AppliedNamed(state, p.events);
    if state.None? { SubmittedId(Attempted(state, c).value); }
  }

  lemma {:induction false} SubmittedId(c: Command)
    requires hide Decide;
             Decide(None, c).Ok?
    ensures Decide(None, c).value.state.id == c.workflow
  {
    hide DecideSubmit, DecideCancel, DecideComplete, DecideExpire, DecideFail, DecideFireTimer, DecideRenew,
        DecideStart;
    SubmitForm(c);
  }

  /** Accepting a command keeps a live engine sane. */
  lemma {:induction false} HandleSane(ledger: Ledger, c: Command)
    requires hide Handle, Sane;
             Sane(ledger) && Handle(ledger, NoLoaders, c).Ok?
    ensures Sane(Handle(ledger, NoLoaders, c).value.1)
  {
    hide PlanCommand, Coherent, Lawful, Accept;
    if Prepare(ledger, NoLoaders, c).value.Fresh? {
      var addressed, hash := Addressed(c), HashCommand(c);
      var state := ResolveState(ledger, NoLoaders, addressed.workflow).value;
      PlannedWorkflow(state, addressed, hash);
      var p := PlanCommand(state, addressed, hash).value;
      AcceptSane(ledger, c.request, hash, p.workflow, p.events, p.next);
    }
  }

  lemma {:induction false} AcceptSane(ledger: Ledger, request: Id, hash: Hash, workflow: Id, events: seq<Event>,
                                      next: Workflow)
    requires Sane(ledger) && request != NO_ID && hash != NoHash && workflow != NO_ID && next.id == workflow
             && Lawful(next)
    ensures Sane(Accept(ledger, request, hash, workflow, events, next))
  {
    AcceptCoherent(ledger, request, hash, workflow, events, next);
    hide Coherent, Lawful;
  }

  lemma {:induction false} LiveSane(commands: seq<Command>)
    ensures Sane(Live(commands))
  {
    hide Sane, Handle;
    if commands == [] {
      EmptySane();
    } else {
      var before, c := Live(commands[..|commands| - 1]), commands[|commands| - 1];
      LiveSane(commands[..|commands| - 1]);
      if Handle(before, NoLoaders, c).Ok? { HandleSane(before, c); }
    }
  }

  // ----- Replay -----

  /** The live engine without its counters. */
  function Uncounted(ledger: Ledger): Ledger {
    ledger.(metrics := NO_METRICS)
  }

  /** What an accepted batch adds to an engine without counters. */
  function Extend(ledger: Ledger, request: Id, hash: Hash, workflow: Id, events: seq<Event>, next: Workflow): Ledger {
    ledger.(states := ledger.states[workflow := next], active := ActiveOf(ledger.states[workflow := next]),
            requests := ledger.requests[request := Record(hash, workflow, events)],
            index := IndexOf(ledger.requests[request := Record(hash, workflow, events)]),
            journal := ledger.journal + events)
  }

  lemma {:induction false} AcceptExtends(ledger: Ledger, request: Id, hash: Hash, workflow: Id, events: seq<Event>,
                                         next: Workflow)
    requires Coherent(ledger) && ledger.journaled
    ensures Uncounted(Accept(ledger, request, hash, workflow, events, next)) == Extend(Uncounted(ledger), request,
            hash, workflow, events, next)
  {
    AcceptCoherent(ledger, request, hash, workflow, events, next);
    hide IndexOf, ActiveOf, StoreIndex, UpdateActive;
  }

  /** The first event of a new request, or the next event of the request being replayed. */
  lemma {:induction false} ReplayNext(ledger: Ledger, request: Id, hash: Hash, workflow: Id, done: seq<Event>,
                                      before: Workflow, e: Event, next: Workflow)
    requires request != NO_ID && hash != NoHash && e.request == request && e.hash == hash && e.workflow == workflow
    requires ApplyEvent(Some(before), e) == Ok(next)
    ensures ReplayEvent(Extend(ledger, request, hash, workflow, done, before),
            e) == Ok(Extend(ledger, request, hash, workflow, done + [e], next))
  {
    hide ApplyEvent, IndexOf, ActiveOf, StoreIndex, UpdateActive;
    var from := Extend(ledger, request, hash, workflow, done, before);
    var record := Record(hash, workflow, done + [e]);
    StoreIndexKeeps(from.requests, request, record);
    UpdateActiveKeeps(from.states, workflow, next);
    assert from.requests[request := record] == ledger.requests[request := record];
    assert from.states[workflow := next] == ledger.states[workflow := next];
    assert from.journal + [e] == ledger.journal + (done + [e]);
  }

  lemma {:induction false} ReplayFirst(ledger: Ledger, request: Id, hash: Hash, workflow: Id, e: Event, next: Workflow)
    requires Coherent(ledger) && request !in ledger.requests
    requires request != NO_ID && hash != NoHash && e.request == request && e.hash == hash && e.workflow == workflow
    requires ApplyEvent(Lookup(ledger.states, workflow), e) == Ok(next)
    ensures ReplayEvent(ledger, e) == Ok(Extend(ledger, request, hash, workflow, [e], next))
  {
    hide ApplyEvent, IndexOf, ActiveOf, StoreIndex, UpdateActive;
    StoreIndexKeeps(ledger.requests, request, Record(hash, workflow, [e]));
    UpdateActiveKeeps(ledger.states, workflow, next);
    assert [] + [e] == [e];
  }

  /** Replaying the events of one accepted batch does what accepting it did. */
  lemma {:induction false} ReplayBatch(journal: seq<Event>, ledger: Ledger, request: Id, hash: Hash, workflow: Id,
                                       events: seq<Event>)
    requires hide ApplyAll, Coherent, Extend, Replay;
             Replay(journal) == Ok(ledger) && Coherent(ledger) && request !in ledger.requests && request != NO_ID
             && hash != NoHash
    requires events != [] && forall e | e in events :: e.request == request && e.hash == hash && e.workflow == workflow
    requires ApplyAll(Lookup(ledger.states, workflow), events).Ok?
    ensures ApplyAll(Lookup(ledger.states, workflow), events).value.Some?
    ensures Replay(journal + events) ==
            Ok(Extend(ledger, request, hash, workflow, events,
                ApplyAll(Lookup(ledger.states, workflow), events).value.value))
  {
    hide ApplyEvent, ReplayEvent, Extend, Coherent;
    var front, last := events[..|events| - 1], events[|events| - 1];
    var state := Lookup(ledger.states, workflow);
    var next := ApplyAll(state, events).value.value;
    assert (journal + events)[..|journal + events| - 1] == journal + front;
    if front == [] {
      assert journal + front == journal && events == [last];
      ReplayFirst(ledger, request, hash, workflow, last, next);
    } else {
      ReplayBatch(journal, ledger, request, hash, workflow, front);
      ReplayNext(ledger, request, hash, workflow, front, ApplyAll(state, front).value.value, last, next);
      assert front + [last] == events;
    }
  }

  /** Replaying the journal of any history of commands rebuilds its states, its receipts and its indexes. */
  lemma {:induction false} ReplayRebuilds(commands: seq<Command>)
    ensures Replay(Live(commands).journal) == Ok(Uncounted(Live(commands)))
  {
    hide Sane, Handle, Replay, Coherent;
    if commands != [] {
      var front, c := commands[..|commands| - 1], commands[|commands| - 1];
      var before := Live(front);
      ReplayRebuilds(front);
      LiveSane(front);
      if Handle(before, NoLoaders, c).Ok? { HandleReplays(before, c); }
    } else {
      ReplayNothing();
    }
  }

  lemma {:induction false} ReplayNothing()
    ensures Replay([]) == Ok(Uncounted(EMPTY))
  {
    hide ReplayEvent;
  }

  lemma {:induction false} HandleReplays(before: Ledger, c: Command)
    requires hide Handle, Replay, Sane;
             Sane(before) && Replay(before.journal) == Ok(Uncounted(before)) && Handle(before, NoLoaders, c).Ok?
    ensures var after := Handle(before, NoLoaders, c).value.1;
            Replay(after.journal) == Ok(Uncounted(after))
  {
    hide PlanCommand, Replay, Accept, Extend, Lawful, IndexOf, ActiveOf;
    if Prepare(before, NoLoaders, c).value.Fresh? {
      var addressed, hash := Addressed(c), HashCommand(c);
      var state := ResolveState(before, NoLoaders, addressed.workflow).value;
      PlannedWorkflow(state, addressed, hash);
      var p := PlanCommand(state, addressed, hash).value;
      ReplayBatch(before.journal, Uncounted(before), c.request, hash, p.workflow, p.events);
      AcceptExtends(before, c.request, hash, p.workflow, p.events, p.next);
      ExtendJournal(Uncounted(before), c.request, hash, p.workflow, p.events, p.next);
    }
  }

  lemma {:induction false} ExtendJournal(ledger: Ledger, request: Id, hash: Hash, workflow: Id, events: seq<Event>,
                                         next: Workflow)
    ensures Extend(ledger, request, hash, workflow, events, next).journal == ledger.journal + events
  {
  }

  // ----------------------------------------------------------------------------------------------------
  // How the journal of a live engine shares out its events: by workflow they are the whole history of its state, by
  // request they are its receipt.
  // ----------------------------------------------------------------------------------------------------

  function OfWorkflow(journal: seq<Event>, workflow: Id): (r: seq<Event>)
    ensures forall e :: e in r <==> e in journal && e.workflow == workflow
  {
    if journal == [] then []
    else
      var front, last := journal[..|journal| - 1], journal[|journal| - 1];
      assert journal == front + [last];
      if last.workflow == workflow then OfWorkflow(front, workflow) + [last] else OfWorkflow(front, workflow)
  }

  lemma {:induction false} OfWorkflowBatch(journal: seq<Event>, events: seq<Event>, owner: Id, workflow: Id)
    requires forall e | e in events :: e.workflow == owner
    ensures OfWorkflow(journal + events, workflow) == OfWorkflow(journal, workflow) + (if owner == workflow
            then events else [])
  {
    if events == [] {
      assert journal + events == journal;
    } else {
      var front, last := events[..|events| - 1], events[|events| - 1];
      assert events == front + [last] && last in events;
      OfWorkflowBatch(journal, front, owner, workflow);
      assert (journal + events)[..|journal + events| - 1] == journal + front;
    }
  }

  /** One receipt: the events of one request on one workflow, numbered in a row. */
  ghost predicate ReceiptOk(request: Id, record: Record) {
    && record.events != []
    && (forall i | 0 <= i < |record.events| ::
          && record.events[i].request == request && record.events[i].hash == record.hash
          && record.events[i].workflow == record.workflow)
    && (forall i | 0 <= i < |record.events| :: record.events[i].sequence == record.events[0].sequence + i)
  }

  predicate AllIn(events: seq<Event>, journal: seq<Event>) {
    forall e | e in events :: e in journal
  }

  predicate Receipted(requests: map<Id, Record>, e: Event) {
    e.request in requests && e in requests[e.request].events
  }

  /** The state of every workflow is the fold of its events. */
  ghost predicate HistoryTold(states: map<Id, Workflow>, journal: seq<Event>) {
    forall w :: ApplyAll(None, OfWorkflow(journal, w)) == Ok(Lookup(states, w))
  }

  /** The receipts hold the events of the journal, request by request. */
  ghost predicate ReceiptsTold(requests: map<Id, Record>, journal: seq<Event>) {
    && (forall r | r in requests :: ReceiptOk(r, requests[r]))
    && (forall r | r in requests :: AllIn(requests[r].events, journal))
    && (forall e | e in journal :: Receipted(requests, e))
  }

  ghost predicate Told(ledger: Ledger) {
    HistoryTold(ledger.states, ledger.journal) && ReceiptsTold(ledger.requests, ledger.journal)
  }

  lemma {:induction false} HistoryGrows(states: map<Id, Workflow>, journal: seq<Event>, workflow: Id,
                                        events: seq<Event>, next: Workflow)
    requires HistoryTold(states, journal) && forall e | e in events :: e.workflow == workflow
    requires ApplyAll(Lookup(states, workflow), events) == Ok(Some(next))
    ensures HistoryTold(states[workflow := next], journal + events)
  {
    hide ApplyAll;
    forall w ensures ApplyAll(None, OfWorkflow(journal + events, w)) == Ok(Lookup(states[workflow := next], w)) {
      OfWorkflowBatch(journal, events, workflow, w);
      if w == workflow { ApplyAllJoins(None, OfWorkflow(journal, w), events); }
      else { assert OfWorkflow(journal, w) + [] == OfWorkflow(journal, w); }
    }
  }

  lemma {:induction false} ReceiptsGrow(requests: map<Id, Record>, journal: seq<Event>, request: Id, record: Record)
    requires ReceiptsTold(requests, journal) && request !in requests && ReceiptOk(request, record)
    ensures ReceiptsTold(requests[request := record], journal + record.events)
  {
    var more, all := requests[request := record], journal + record.events;
    forall r | r in more ensures AllIn(more[r].events, all) {
      if r != request { assert AllIn(requests[r].events, journal); }
    }
    forall e | e in all ensures Receipted(more, e) {
      if e in journal {
        assert Receipted(requests, e);
      } else {
        var i :| 0 <= i < |record.events| && record.events[i] == e;
      }
    }
    hide ReceiptOk;
  }

  lemma {:induction false} ExtendTold(ledger: Ledger, request: Id, hash: Hash, workflow: Id, events: seq<Event>,
                                      next: Workflow)
    requires hide ApplyAll, Extend, Told;
             Told(ledger) && request !in ledger.requests && events != []
    requires forall e | e in events :: e.request == request && e.hash == hash && e.workflow == workflow
    requires forall i | 0 <= i < |events| :: events[i].sequence == events[0].sequence + i
    requires ApplyAll(Lookup(ledger.states, workflow), events) == Ok(Some(next))
    ensures Told(Extend(ledger, request, hash, workflow, events, next))
  {
    hide ApplyAll, ActiveOf, IndexOf, HistoryTold, ReceiptsTold;
    assert ReceiptOk(request, Record(hash, workflow, events));
    HistoryGrows(ledger.states, ledger.journal, workflow, events, next);
    ReceiptsGrow(ledger.requests, ledger.journal, request, Record(hash, workflow, events));
  }

  lemma {:induction false} LiveTold(commands: seq<Command>)
    ensures Told(Live(commands))
  {
    hide Told, Handle, Sane;
    if commands == [] {
      NothingTold();
    } else {
      var before, c := Live(commands[..|commands| - 1]), commands[|commands| - 1];
      LiveTold(commands[..|commands| - 1]);
      LiveSane(commands[..|commands| - 1]);
      if Handle(before, NoLoaders, c).Ok? { HandleTold(before, c); }
    }
  }

  lemma {:induction false} NothingTold()
    ensures Told(EMPTY)
  {
    forall w ensures ApplyAll(None, OfWorkflow([], w)) == Ok(Lookup(map[], w)) {
      assert OfWorkflow([], w) == [];
    }
  }

  lemma {:induction false} ToldUncounted(ledger: Ledger)
    ensures Told(ledger) <==> Told(Uncounted(ledger))
  {
    hide ApplyAll, OfWorkflow;
  }

  lemma {:induction false} HandleTold(before: Ledger, c: Command)
    requires hide Handle, Sane, Told;
             Told(before) && Sane(before) && Handle(before, NoLoaders, c).Ok?
    ensures Told(Handle(before, NoLoaders, c).value.1)
  {
    hide Told, PlanCommand, Accept, Extend, Lawful, IndexOf, ActiveOf;
    if Prepare(before, NoLoaders, c).value.Fresh? {
      var addressed, hash := Addressed(c), HashCommand(c);
      var state := ResolveState(before, NoLoaders, addressed.workflow).value;
      PlannedWorkflow(state, addressed, hash);
      PreparedReplays(state, addressed, hash);
      var p := PlanCommand(state, addressed, hash).value;
      ToldUncounted(before);
      ExtendTold(Uncounted(before), c.request, hash, p.workflow, p.events, p.next);
      AcceptExtends(before, c.request, hash, p.workflow, p.events, p.next);
      ToldUncounted(Accept(before, c.request, hash, p.workflow, p.events, p.next));
    }
  }

  /** Event `i` of the receipt of `r` carries number `n` of workflow `w`. */
  ghost predicate Accounts(ledger: Ledger, w: Id, n: nat, r: Id, i: nat) {
    && r in ledger.requests && ledger.requests[r].workflow == w && i < |ledger.requests[r].events|
    && ledger.requests[r].events[i].sequence == n
  }

  ghost predicate Accounted(ledger: Ledger, w: Id, n: nat) {
    exists r, i: nat :: Accounts(ledger, w, n, r, i)
  }

  lemma {:induction false} AccountedInHistory(ledger: Ledger, w: Id, n: nat, r: Id, i: nat)
    requires hide Told;
             Told(ledger) && Accounts(ledger, w, n, r, i)
    ensures var history := OfWorkflow(ledger.journal, w);
            1 <= n <= |history| && history[n - 1] == ledger.requests[r].events[i]
    ensures n <= Version(Lookup(ledger.states, w))
  {
    var history := OfWorkflow(ledger.journal, w);
    assert ApplyAll(None, history) == Ok(Lookup(ledger.states, w));
    HistoryNumbers(history);
    hide ApplyAll, HistoryTold;
    var e := ledger.requests[r].events[i];
    assert ReceiptOk(r, ledger.requests[r]) && AllIn(ledger.requests[r].events, ledger.journal);
    assert e in ledger.requests[r].events && e in history;
    var k :| 0 <= k < |history| && history[k] == e;
  }

  lemma {:induction false} NumberAccounted(ledger: Ledger, w: Id, n: nat)
    requires Told(ledger) && 1 <= n <= Version(Lookup(ledger.states, w))
    ensures Accounted(ledger, w, n)
  {
    var history := OfWorkflow(ledger.journal, w);
    assert ApplyAll(None, history) == Ok(Lookup(ledger.states, w));
    HistoryNumbers(history);
    hide ApplyAll, HistoryTold;
    var e := history[n - 1];
    assert e in history && Receipted(ledger.requests, e);
    var i :| 0 <= i < |ledger.requests[e.request].events| && ledger.requests[e.request].events[i] == e;
    assert ReceiptOk(e.request, ledger.requests[e.request]);
    assert Accounts(ledger, w, n, e.request, i);
  }

  /** The receipts of a workflow partition its events: every number from one to its version is in a
      receipt, and nothing else is ... */
  lemma {:induction false} ReceiptsCover(commands: seq<Command>, w: Id, n: nat)
    ensures Accounted(Live(commands), w, n) <==> 1 <= n <= Version(Lookup(Live(commands).states, w))
  {
    var ledger := Live(commands);
    LiveTold(commands);
    hide Live, Told;
    if 1 <= n <= Version(Lookup(ledger.states, w)) { NumberAccounted(ledger, w, n); }
    if Accounted(ledger, w, n) {
      var r, i: nat :| Accounts(ledger, w, n, r, i);
      AccountedInHistory(ledger, w, n, r, i);
    }
  }

  /** ... and it is in one place of one receipt only. */
  lemma {:induction false} ReceiptsDisjoint(commands: seq<Command>, w: Id, n: nat, r: Id, i: nat, r': Id, i': nat)
    requires Accounts(Live(commands), w, n, r, i) && Accounts(Live(commands), w, n, r', i')
    ensures r == r' && i == i'
  {
    var ledger := Live(commands);
    LiveTold(commands);
    AccountedInHistory(ledger, w, n, r, i);
    AccountedInHistory(ledger, w, n, r', i');
    hide Live, HistoryTold;
    assert ReceiptOk(r, ledger.requests[r]) && ReceiptOk(r', ledger.requests[r']);
  }
}
