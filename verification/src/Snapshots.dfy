/** Engine snapshots: internal/core/snapshot.go. */
module Snapshots {
  import opened Base
  import opened Replays
  import opened Sorting
  import opened Model
  import opened IdOrder
  import opened Reducer
  import opened Lawfulness
  import opened Ledgers
  import opened Chronicle

  const SNAPSHOT_VERSION := 3

  /** RequestReceipt, with the duplicate mark that a stored result never carries. */
  datatype Receipt = Receipt(request: Id, hash: Hash, workflow: Id, events: seq<Event>, duplicate: bool)

  datatype Snapshot = Snapshot(version: nat, workflows: seq<Workflow>, requests: seq<Receipt>)

  function ReceiptOf(requests: map<Id, Record>, r: Id): Receipt
    requires r in requests
  {
    Receipt(r, requests[r].hash, requests[r].workflow, requests[r].events, false)
  }

  function WorkflowsOf(states: map<Id, Workflow>, ids: seq<Id>): seq<Workflow>
    requires forall id | id in ids :: id in states
  {
    seq(|ids|, i requires 0 <= i < |ids| => states[ids[i]])
  }

  function ReceiptsOf(requests: map<Id, Record>, ids: seq<Id>): seq<Receipt>
    requires forall id | id in ids :: id in requests
  {
    seq(|ids|, i requires 0 <= i < |ids| => ReceiptOf(requests, ids[i]))
  }

  /** Engine.Snapshot */
  function Take(states: map<Id, Workflow>, requests: map<Id, Record>): Snapshot {
    hide SortedIds;
    Snapshot(SNAPSHOT_VERSION, WorkflowsOf(states, SortedIds(states.Keys)),
        ReceiptsOf(requests, SortedIds(requests.Keys)))
  }

  // ----- Restore -----

  function WorkflowIds(workflows: seq<Workflow>): seq<Id> {
    seq(|workflows|, i requires 0 <= i < |workflows| => workflows[i].id)
  }

  function RequestIds(requests: seq<Receipt>): seq<Id> {
    seq(|requests|, i requires 0 <= i < |requests| => requests[i].request)
  }

  function StateTable(workflows: seq<Workflow>): map<Id, Workflow> {
    if workflows == [] then map[]
    else StateTable(workflows[..|workflows| - 1])[workflows[|workflows| - 1].id := workflows[|workflows| - 1]]
  }

  function RecordOf(receipt: Receipt): Record {
    Record(receipt.hash, receipt.workflow, receipt.events)
  }

  function RequestTable(requests: seq<Receipt>): map<Id, Record> {
    if requests == [] then map[]
    else
      var last := requests[|requests| - 1];
      RequestTable(requests[..|requests| - 1])[last.request := RecordOf(last)]
  }

  /** What Restore asks of one receipt: its own metadata, and events numbered in a row that repeat it. */
  predicate Acceptable(receipt: Receipt) {
    && receipt.request != NO_ID && receipt.hash != NoHash && receipt.workflow != NO_ID && !receipt.duplicate
        && receipt.events != []
    && (forall k | 0 <= k < |receipt.events| ::
          receipt.events[k].request == receipt.request && receipt.events[k].hash == receipt.hash
              && receipt.events[k].workflow == receipt.workflow)
    && (forall k | 0 <= k < |receipt.events| :: InRow(receipt.events, k))
  }

  predicate InRow(events: seq<Event>, k: nat)
    requires k < |events|
  {
    k > 0 ==> events[k].sequence == Next64(events[k - 1].sequence)
  }

  /** The events of one workflow, receipt after receipt. */
  function Collected(requests: seq<Receipt>, workflow: Id): seq<Event> {
    if requests == [] then []
    else
      var last := requests[|requests| - 1];
      Collected(requests[..|requests| - 1], workflow) + (if last.workflow == workflow then last.events else [])
  }

  /** The workflows that receipts give events to. */
  function Owners(requests: seq<Receipt>): set<Id> {
    set i | 0 <= i < |requests| :: requests[i].workflow
  }

  /** Restore accepts. */
  ghost predicate Restorable(s: Snapshot) {
    hide Acceptable, ApplyAll, Increasing;
    && s.version == SNAPSHOT_VERSION
    && Increasing(WorkflowIds(s.workflows)) && NO_ID !in WorkflowIds(s.workflows)
    && Increasing(RequestIds(s.requests)) && (forall i | 0 <= i < |s.requests| :: Acceptable(s.requests[i]))
    && Owners(s.requests) == StateTable(s.workflows).Keys
    && forall w | w in StateTable(s.workflows) :: ApplyAll(None,
        SortEvents(Collected(s.requests, w))) == Ok(Some(StateTable(s.workflows)[w]))
  }

  /** The engine that Restore builds: no journal yet, and its indexes filled. */
  function Rebuilt(s: Snapshot): Ledger {
    EMPTY.(states := StateTable(s.workflows), active := ActiveOf(StateTable(s.workflows)),
           requests := RequestTable(s.requests), index := IndexOf(RequestTable(s.requests)))
  }

  ghost function Restore(s: Snapshot): Option<Ledger> {
    if Restorable(s) then Some(Rebuilt(s)) else None
  }

  // ----- Tables of increasing lists -----

  lemma {:induction false} IncreasingFront(ids: seq<Id>)
    requires Increasing(ids) && ids != []
    ensures Increasing(ids[..|ids| - 1]) && forall i | 0 <= i < |ids| - 1 :: ids[i] != ids[|ids| - 1]
  {
    forall i | 0 <= i < |ids| - 1 ensures ids[i] != ids[|ids| - 1] {
      assert Before(ids[i], ids[|ids| - 1]);
      Trichotomy(ids[i], ids[|ids| - 1]);
    }
  }

  lemma {:induction false} StateTableEntry(workflows: seq<Workflow>, i: nat)
    requires i < |workflows| && Increasing(WorkflowIds(workflows))
    ensures workflows[i].id in StateTable(workflows) && StateTable(workflows)[workflows[i].id] == workflows[i]
  {
    var front, ids := workflows[..|workflows| - 1], WorkflowIds(workflows);
    IncreasingFront(ids);
    hide Increasing;
    assert WorkflowIds(front) == ids[..|front|];
    if i < |front| {
      StateTableEntry(front, i);
      assert front[i] == workflows[i] && ids[i] != ids[|front|];
    }
  }

  lemma {:induction false} StateTableKey(workflows: seq<Workflow>, id: Id)
    requires id in StateTable(workflows)
    ensures id in WorkflowIds(workflows)
  {
    var front, last := workflows[..|workflows| - 1], workflows[|workflows| - 1];
    assert WorkflowIds(workflows) == WorkflowIds(front) + [last.id];
    if id != last.id { StateTableKey(front, id); }
  }

  lemma {:induction false} StateTableAt(workflows: seq<Workflow>)
    requires hide Increasing;
             Increasing(WorkflowIds(workflows))
    ensures forall id :: id in StateTable(workflows) <==> id in WorkflowIds(workflows)
    ensures forall i | 0 <= i < |workflows| ::
              workflows[i].id in StateTable(workflows) && StateTable(workflows)[workflows[i].id] == workflows[i]
  {
    hide StateTable, Increasing;
    forall i | 0 <= i < |workflows|
      ensures workflows[i].id in StateTable(workflows) && StateTable(workflows)[workflows[i].id] == workflows[i]
    {
      StateTableEntry(workflows, i);
    }
    forall id ensures id in StateTable(workflows) <==> id in WorkflowIds(workflows) {
      if id in StateTable(workflows) { StateTableKey(workflows, id); }
    }
  }

  lemma {:induction false} RequestTableEntry(requests: seq<Receipt>, i: nat)
    requires i < |requests| && Increasing(RequestIds(requests))
    ensures requests[i].request in RequestTable(requests)
            && RequestTable(requests)[requests[i].request] == RecordOf(requests[i])
  {
    var front, ids := requests[..|requests| - 1], RequestIds(requests);
    IncreasingFront(ids);
    hide Increasing;
    assert RequestIds(front) == ids[..|front|];
    if i < |front| {
      RequestTableEntry(front, i);
      assert front[i] == requests[i] && ids[i] != ids[|front|];
    }
  }

  lemma {:induction false} RequestTableKey(requests: seq<Receipt>, id: Id)
    requires id in RequestTable(requests)
    ensures id in RequestIds(requests)
  {
    var front, last := requests[..|requests| - 1], requests[|requests| - 1];
    assert RequestIds(requests) == RequestIds(front) + [last.request];
    if id != last.request { RequestTableKey(front, id); }
  }

  lemma {:induction false} RequestTableAt(requests: seq<Receipt>)
    requires Increasing(RequestIds(requests))
    ensures forall id :: id in RequestTable(requests) <==> id in RequestIds(requests)
    ensures forall i | 0 <= i < |requests| ::
              requests[i].request in RequestTable(requests)
                  && RequestTable(requests)[requests[i].request] == RecordOf(requests[i])
  {
    hide RequestTable, Increasing;
    forall i | 0 <= i < |requests|
      ensures requests[i].request in RequestTable(requests)
              && RequestTable(requests)[requests[i].request] == RecordOf(requests[i])
    {
      RequestTableEntry(requests, i);
    }
    forall id ensures id in RequestTable(requests) <==> id in RequestIds(requests) {
      if id in RequestTable(requests) { RequestTableKey(requests, id); }
    }
  }

  lemma {:induction false} WorkflowsAgain(workflows: seq<Workflow>)
    requires hide Increasing, SortedIds;
             Increasing(WorkflowIds(workflows))
    ensures var states := StateTable(workflows);
            WorkflowsOf(states, SortedIds(states.Keys)) == workflows
  {
    hide SortedIds, StateTable;
    var states := StateTable(workflows);
    StateTableAt(workflows);
    IncreasingUnique(SortedIds(states.Keys), WorkflowIds(workflows));
  }

  lemma {:induction false} ReceiptsAgain(requests: seq<Receipt>)
    requires hide Increasing, SortedIds;
             Increasing(RequestIds(requests)) && forall i | 0 <= i < |requests| :: !requests[i].duplicate
    ensures var table := RequestTable(requests);
            ReceiptsOf(table, SortedIds(table.Keys)) == requests
  {
    hide SortedIds, RequestTable;
    var table := RequestTable(requests);
    RequestTableAt(requests);
    IncreasingUnique(SortedIds(table.Keys), RequestIds(requests));
  }

  /** Snapshotting a restored engine gives the snapshot back. */
  lemma {:induction false} SnapshotOfRestored(s: Snapshot)
    requires hide Restore, Take;
             Restore(s).Some?
    ensures Take(Restore(s).value.states, Restore(s).value.requests) == s
  {
    hide ApplyAll, ActiveOf, IndexOf, SortedIds, WorkflowsOf, ReceiptsOf, StateTable, RequestTable, Increasing, Owners;
    forall i | 0 <= i < |s.requests| ensures !s.requests[i].duplicate {
      assert Acceptable(s.requests[i]);
    }
    hide Acceptable;
    WorkflowsAgain(s.workflows);
    ReceiptsAgain(s.requests);
  }

  // ----- A live engine can be restored -----

  lemma {:induction false} CollectedFrom(requests: seq<Receipt>, workflow: Id, e: Event)
    ensures e in Collected(requests, workflow) <==>
            exists i :: 0 <= i < |requests| && requests[i].workflow == workflow && e in requests[i].events
  {
    if requests != [] {
      var front, last := requests[..|requests| - 1], requests[|requests| - 1];
      CollectedFrom(front, workflow, e);
      if i :| 0 <= i < |requests| && requests[i].workflow == workflow && e in requests[i].events {
        if i < |front| { assert front[i].workflow == workflow; }
      }
      if e in Collected(requests, workflow) {
        if e in Collected(front, workflow) {
          var i :| 0 <= i < |front| && front[i].workflow == workflow && e in front[i].events;
          assert requests[i].workflow == workflow;
        } else {
          assert requests[|requests| - 1].workflow == workflow;
        }
      }
    }
  }

  /** Receipts that are in a row, about different requests, and at odds with no history number their
      events apart. */
  lemma {:induction false} CollectedDistinct(requests: seq<Receipt>, workflow: Id, history: seq<Event>)
    requires hide Increasing;
             Increasing(RequestIds(requests)) && Ascending(history)
    requires forall i | 0 <= i < |requests| :: Ascending(requests[i].events)
    requires forall i, e | 0 <= i < |requests| && e in requests[i].events :: e.request == requests[i].request
    requires forall i, e | 0 <= i < |requests| && requests[i].workflow == workflow
             && e in requests[i].events :: e in history
    ensures DistinctNumbers(Collected(requests, workflow))
  {
    hide Increasing;
    if requests != [] {
      var front, last := requests[..|requests| - 1], requests[|requests| - 1];
      IncreasingFront(RequestIds(requests));
      assert RequestIds(front) == RequestIds(requests)[..|front|];
      CollectedDistinct(front, workflow, history);
      if last.workflow == workflow {
        forall x, y | x in Collected(front, workflow) && y in last.events ensures x.sequence != y.sequence {
          CollectedFrom(front, workflow, x);
          var i :| 0 <= i < |front| && front[i].workflow == workflow && x in front[i].events;
          assert requests[i] == front[i] && RequestIds(requests)[i] != RequestIds(requests)[|front|];
          assert x.request != y.request && x in history && y in history;
          SameNumberSameEvent(history, x, y);
        }
        DistinctJoin(Collected(front, workflow), last.events);
      } else {
        assert Collected(front, workflow) + [] == Collected(front, workflow);
      }
    }
  }

  lemma {:induction false} SameNumberSameEvent(history: seq<Event>, x: Event, y: Event)
    requires Ascending(history) && x in history && y in history
    ensures x.sequence == y.sequence ==> x == y
  {
    var i :| 0 <= i < |history| && history[i] == x;
    var j :| 0 <= j < |history| && history[j] == y;
  }

  /** What a live engine knows about one workflow: its history in order, held by its receipts. */
  ghost predicate WellTold(ledger: Ledger, w: Id, history: seq<Event>) {
    && history == OfWorkflow(ledger.journal, w)
    && ApplyAll(None, history) == Ok(Lookup(ledger.states, w)) && Ascending(history)
  }

  lemma {:induction false} HistoryAscends(ledger: Ledger, w: Id)
    requires Told(ledger)
    ensures WellTold(ledger, w, OfWorkflow(ledger.journal, w))
  {
    var history := OfWorkflow(ledger.journal, w);
    assert ApplyAll(None, history) == Ok(Lookup(ledger.states, w));
    HistoryNumbers(history);
    hide ApplyAll, OfWorkflow, ReceiptsTold;
  }

  lemma {:induction false} ReceiptAscends(r: Id, record: Record)
    requires ReceiptOk(r, record)
    ensures Ascending(record.events) && forall e | e in record.events :: e.request == r && e.workflow == record.workflow
  {
  }

  /** Sorting what the receipts of a workflow hold gives its history. */
  lemma {:induction false} CollectedIsHistory(ledger: Ledger, w: Id)
    requires hide SortedIds, Told;
             Told(ledger)
    ensures var receipts := ReceiptsOf(ledger.requests, SortedIds(ledger.requests.Keys));
            SortEvents(Collected(receipts, w)) == OfWorkflow(ledger.journal, w)
  {
    hide ApplyAll, SortedIds;
    var ids := SortedIds(ledger.requests.Keys);
    var receipts := ReceiptsOf(ledger.requests, ids);
    var history := OfWorkflow(ledger.journal, w);
    HistoryAscends(ledger, w);
    hide HistoryTold, OfWorkflow;
    forall i | 0 <= i < |receipts|
      ensures Ascending(receipts[i].events)
      ensures forall e | e in receipts[i].events ::
                e.request == receipts[i].request && (receipts[i].workflow == w ==> e in history)
    {
      assert ids[i] in ledger.requests;
      ReceiptAscends(ids[i], ledger.requests[ids[i]]);
      assert AllIn(ledger.requests[ids[i]].events, ledger.journal);
    }
    assert RequestIds(receipts) == ids;
    CollectedDistinct(receipts, w, history);
    SortAscending(Collected(receipts, w));
    forall e ensures e in SortEvents(Collected(receipts, w)) <==> e in history {
      assert e in SortEvents(Collected(receipts, w)) <==> e in multiset(Collected(receipts, w));
      CollectedFrom(receipts, w, e);
      if e in history { HistoryCollected(ledger, w, e, ids, receipts); }
    }
    AscendingUnique(SortEvents(Collected(receipts, w)), history);
  }

  lemma {:induction false} HistoryCollected(ledger: Ledger, w: Id, e: Event, ids: seq<Id>, receipts: seq<Receipt>)
    requires hide Told;
             Told(ledger) && e in ledger.journal && e.workflow == w
    requires (forall r :: r in ids <==> r in ledger.requests) && receipts == ReceiptsOf(ledger.requests, ids)
    ensures exists i :: 0 <= i < |receipts| && receipts[i].workflow == w && e in receipts[i].events
  {
    hide HistoryTold;
    assert Receipted(ledger.requests, e);
    var i :| 0 <= i < |ids| && ids[i] == e.request;
    ReceiptAscends(e.request, ledger.requests[e.request]);
    assert receipts[i].workflow == w && e in receipts[i].events;
  }

  lemma {:induction false} TableOfStates(states: map<Id, Workflow>, ids: seq<Id>)
    requires hide Increasing;
             Increasing(ids) && (forall id | id in ids :: id in states && states[id].id == id)
    ensures StateTable(WorkflowsOf(states, ids)) == map id | id in ids :: states[id]
    ensures WorkflowIds(WorkflowsOf(states, ids)) == ids
  {
    var workflows := WorkflowsOf(states, ids);
    assert WorkflowIds(workflows) == ids;
    StateTableAt(workflows);
    hide StateTable;
    forall id | id in ids ensures StateTable(workflows)[id] == states[id] {
      var i :| 0 <= i < |ids| && ids[i] == id;
      assert workflows[i].id == id;
    }
  }

  lemma {:induction false} TableOfRequests(requests: map<Id, Record>, ids: seq<Id>)
    requires hide Increasing;
             Increasing(ids) && (forall id | id in ids :: id in requests)
    ensures RequestTable(ReceiptsOf(requests, ids)) == map id | id in ids :: requests[id]
    ensures RequestIds(ReceiptsOf(requests, ids)) == ids
  {
    hide Increasing;
    var receipts := ReceiptsOf(requests, ids);
    assert RequestIds(receipts) == ids;
    RequestTableAt(receipts);
    hide RequestTable;
    forall id | id in ids ensures RequestTable(receipts)[id] == requests[id] {
      var i :| 0 <= i < |ids| && ids[i] == id;
      assert receipts[i].request == id;
    }
  }

  lemma {:induction false} ReceiptAcceptable(requests: map<Id, Record>, r: Id)
    requires r in requests && ReceiptOk(r, requests[r]) && r != NO_ID && requests[r].hash != NoHash
             && requests[r].workflow != NO_ID
    ensures Acceptable(ReceiptOf(requests, r))
  {
    var events := requests[r].events;
    forall k | 0 <= k < |events| ensures InRow(events, k) {
      if k > 0 { assert events[k].sequence == events[0].sequence + k
          && events[k - 1].sequence == events[0].sequence + (k - 1); }
    }
  }

  /** The workflows of the receipts are the workflows of the engine, and none has a blank name. */
  lemma {:induction false} OwnersAreStates(ledger: Ledger)
    requires hide Sane, Told;
             Told(ledger) && Sane(ledger)
    ensures forall r | r in ledger.requests :: ledger.requests[r].workflow in ledger.states
    ensures forall w | w in ledger.states :: exists r :: r in ledger.requests && ledger.requests[r].workflow == w
    ensures NO_ID !in ledger.states
  {
    hide Coherent, Lawful, HistoryTold, Sane;
    forall r | r in ledger.requests ensures ledger.requests[r].workflow in ledger.states {
      var w := ledger.requests[r].workflow;
      HistoryAscends(ledger, w);
      ReceiptAscends(r, ledger.requests[r]);
      assert AllIn(ledger.requests[r].events, ledger.journal);
      var e := ledger.requests[r].events[0];
      assert e in ledger.requests[r].events;
      assert e in OfWorkflow(ledger.journal, w);
      HistoryExists(OfWorkflow(ledger.journal, w));
    }
    forall w | w in ledger.states ensures w != NO_ID && exists r ::
      r in ledger.requests && ledger.requests[r].workflow == w {
      HistoryAscends(ledger, w);
      var history := OfWorkflow(ledger.journal, w);
      HistoryNotEmpty(history, ledger.states[w]);
      var e := history[0];
      assert e in history && Receipted(ledger.requests, e);
      ReceiptAscends(e.request, ledger.requests[e.request]);
      HistoryNamed(history);
    }
  }

  lemma {:induction false} HistoryExists(history: seq<Event>)
    requires hide ApplyAll;
             history != [] && ApplyAll(None, history).Ok?
    ensures ApplyAll(None, history).value.Some?
  {
    hide ApplyEvent;
  }

  lemma {:induction false} HistoryNotEmpty(history: seq<Event>, s: Workflow)
    requires ApplyAll(None, history) == Ok(Some(s))
    ensures history != []
  {
    hide ApplyEvent;
  }

  lemma {:induction false} HistoryNamed(history: seq<Event>)
    requires hide ApplyAll, Blank;
             history != [] && ApplyAll(None, history).Ok?
    ensures !Blank(history[0].workflow)
  {
    if |history| > 1 {
      HistoryNamed(history[..|history| - 1]);
    } else {
      assert history[..0] == [];
    }
    hide Transition, ApplySubmission;
  }

  /** Restoring the snapshot of any live engine gives it back, but for its journal and counters. */
  lemma {:induction false} RestoreOfSnapshot(commands: seq<Command>)
    ensures var live := Live(commands);
            Restore(Take(live.states, live.requests)) == Some(live.(journal := [], metrics := NO_METRICS))
  {
    hide Rebuilt, Restorable, Restore, SortedIds, Take;
    var live := Live(commands);
    LiveSane(commands);
    LiveTold(commands);
    hide Live;
    OwnersAreStates(live);
    RestoreSane(live);
  }

  lemma {:induction false} TablesAgain(live: Ledger)
    requires Sane(live)
    ensures var s := Take(live.states, live.requests);
            && StateTable(s.workflows) == live.states && RequestTable(s.requests) == live.requests
            && WorkflowIds(s.workflows) == SortedIds(live.states.Keys)
                && RequestIds(s.requests) == SortedIds(live.requests.Keys)
  {
    hide Lawful, Coherent, SortedIds, StateTable, RequestTable;
    TableOfStates(live.states, SortedIds(live.states.Keys));
    TableOfRequests(live.requests, SortedIds(live.requests.Keys));
  }

  lemma {:induction false} ReceiptsAcceptable(live: Ledger)
    requires hide Acceptable, Sane, Take, Told;
             Sane(live) && Told(live) && NO_ID !in live.states
    requires forall r | r in live.requests :: live.requests[r].workflow in live.states
    ensures forall i | 0 <= i < |Take(live.states, live.requests).requests| ::
            Acceptable(Take(live.states, live.requests).requests[i])
  {
    hide HistoryTold, Lawful, Coherent, SortedIds, Acceptable;
    var rs := SortedIds(live.requests.Keys);
    forall i | 0 <= i < |rs| ensures Acceptable(ReceiptsOf(live.requests, rs)[i]) {
      assert rs[i] in rs && rs[i] in live.requests;
      ReceiptAcceptable(live.requests, rs[i]);
    }
  }

  lemma {:induction false} RestoreSane(live: Ledger)
    requires hide Restore, Sane, Take, Told;
             Sane(live) && Told(live) && NO_ID !in live.states
    requires forall r | r in live.requests :: live.requests[r].workflow in live.states
    requires forall w | w in live.states :: exists r :: r in live.requests && live.requests[r].workflow == w
    ensures Restore(Take(live.states, live.requests)) == Some(live.(journal := [], metrics := NO_METRICS))
  {
    hide ApplyAll, HistoryTold, ReceiptsTold, Lawful, ActiveOf, IndexOf, SortedIds, StateTable, RequestTable,
        Acceptable, Owners, WorkflowIds, RequestIds, ReceiptsOf, WorkflowsOf;
    var s := Take(live.states, live.requests);
    TablesAgain(live);
    ReceiptsAcceptable(live);
    OwnersMatch(live, SortedIds(live.requests.Keys));
    forall w | w in live.states
        ensures ApplyAll(None, SortEvents(Collected(s.requests, w))) == Ok(Some(live.states[w])) {
      CollectedIsHistory(live, w);
      HistoryAscends(live, w);
    }
  }

  lemma {:induction false} OwnersMatch(live: Ledger, rs: seq<Id>)
    requires forall r :: r in rs <==> r in live.requests
    requires forall r | r in live.requests :: live.requests[r].workflow in live.states
    requires forall w | w in live.states :: exists r :: r in live.requests && live.requests[r].workflow == w
    ensures Owners(ReceiptsOf(live.requests, rs)) == live.states.Keys
  {
    var receipts := ReceiptsOf(live.requests, rs);
    forall w | w in live.states ensures w in Owners(receipts) {
      var r :| r in live.requests && live.requests[r].workflow == w;
      var i :| 0 <= i < |rs| && rs[i] == r;
      assert receipts[i].workflow == w;
    }
    forall w | w in Owners(receipts) ensures w in live.states {
      var i :| 0 <= i < |receipts| && receipts[i].workflow == w;
      assert rs[i] in live.requests;
    }
  }
}
