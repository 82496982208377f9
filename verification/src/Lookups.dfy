/** The membership filter in front of lookups: the protocol of hiding and showing it as a machine over single steps,
    and the index that holds it. */
module Lookups {
  import opened Base
  import opened Results
  import opened Model
  import opened Reducer
  import opened Ledgers
  import opened Filings
  import Segments
  import opened Archives
  import opened Transfers
  import opened Membership
  import opened IdOrder

  /** The identifiers that a pair of filters answers yes for. Filters only grow. */
  datatype Shown = Shown(receipts: iset<Id>, workflows: iset<Id>)

  datatype Query = ForRequest(id: Id) | ForWorkflow(id: Id)

  datatype Found = FoundRecord(record: Record) | FoundState(state: Workflow)

  /** A lookup: it has loaded the pointer, or passed the filter, or been answered. `known` is what was durable when it
      loaded the pointer. */
  datatype Reader =
    | Loaded(query: Query, filter: Option<nat>, known: Option<Found>)
    | Reading(query: Query, known: Option<Found>)
    | Answered(query: Query, known: Option<Found>, answer: Option<Found>)

  /** What a batch will commit: an applied group, or the image of a snapshot with filters built from it. */
  datatype Change = Group(after: Book, added: seq<Filing>) | Snapshot(image: Book, built: Shown)

  /** Where the writer is. */
  datatype Writer =
    | Idle
    | Hidden(saved: nat, change: Change)
    | Adding(saved: nat, requests: seq<Id>, workflows: seq<Id>)
    | Built(made: nat)

  datatype Index = Index(
    book: Book, filters: seq<Shown>, current: Option<nat>, writer: Writer, readers: map<nat, Reader>)

  datatype Step =
    | SwapOut(change: Change)
    | CommitFails
    | CommitWorks
    | AddRequest(grown: iset<Id>)
    | AddWorkflow(grown: iset<Id>)
    | Publish
    | LoadPointer(reader: nat, query: Query)
    | Probe(reader: nat)
    | Read(reader: nat)

  /** What the records hold for a query. */
  function Durable(book: Book, q: Query): Option<Found> {
    match q
    case ForRequest(id) => if id in Records(book.log) then Some(FoundRecord(Records(book.log)[id])) else None
    case ForWorkflow(id) => if id in book.states then Some(FoundState(book.states[id])) else None
  }

  predicate Holds(f: Shown, q: Query) {
    match q
    case ForRequest(id) => id in f.receipts
    case ForWorkflow(id) => id in f.workflows
  }

  /** The filters answer yes for everything durable. */
  ghost predicate Guards(f: Shown, book: Book) {
    forall q :: Durable(book, q).Some? ==> Holds(f, q)
  }

  /** What a batch may commit over a book: everything that was there stays. Of a snapshot this is what Raft promises, as
      it lies above the commit index. */
  ghost predicate Carries(book: Book, after: Book) {
    Kept(book) && Kept(after) && forall f | f in book.log :: f in after.log
  }

  ghost predicate Commits(book: Book, change: Change) {
    match change
    case Group(after, added) => Extends(book, after, added)
    case Snapshot(image, built) => Carries(book, image) && Guards(built, image)
  }

  function Settled(x: Index, reader: nat, r: Reader): Index {
    x.(readers := x.readers[reader := r])
  }

  /** One step; a step that cannot be taken changes nothing. */
  ghost function Next(x: Index, step: Step): Index {
    hide Commits, Segments.Reading;
    match step
    case SwapOut(change) =>
      if x.writer.Idle? && x.current.Some? && Commits(x.book, change)
      then x.(current := None, writer := Hidden(x.current.value, change)) else x
    case CommitFails =>
      if x.writer.Hidden? then x.(current := Some(x.writer.saved), writer := Idle) else x
    case CommitWorks =>
      if !x.writer.Hidden? then x
      else
        (match x.writer.change
         case Group(after, added) =>
           x.(book := after, writer := Adding(x.writer.saved, AcceptedRequests(added), SubmittedWorkflows(added)))
         case Snapshot(image, built) =>
           x.(book := image, filters := x.filters + [built], writer := Built(|x.filters|)))
    case AddRequest(grown) =>
      if x.writer.Adding? && x.writer.requests != [] && x.writer.saved < |x.filters|
         && x.filters[x.writer.saved].receipts + iset{x.writer.requests[0]} <= grown
      then x.(filters := x.filters[x.writer.saved := x.filters[x.writer.saved].(receipts := grown)],
              writer := x.writer.(requests := x.writer.requests[1..]))
      else x
    case AddWorkflow(grown) =>
      if x.writer.Adding? && x.writer.workflows != [] && x.writer.saved < |x.filters|
         && x.filters[x.writer.saved].workflows + iset{x.writer.workflows[0]} <= grown
      then x.(filters := x.filters[x.writer.saved := x.filters[x.writer.saved].(workflows := grown)],
              writer := x.writer.(workflows := x.writer.workflows[1..]))
      else x
    case Publish =>
      if x.writer.Adding? && x.writer.requests == [] && x.writer.workflows == []
      then x.(current := Some(x.writer.saved), writer := Idle)
      else if x.writer.Built? then x.(current := Some(x.writer.made), writer := Idle)
      else x
    case LoadPointer(reader, q) => Settled(x, reader, Loaded(q, x.current, Durable(x.book, q)))
    case Probe(reader) =>
      if reader !in x.readers || !x.readers[reader].Loaded? then x
      else
        var r := x.readers[reader];
        if r.filter.Some? && r.filter.value < |x.filters| && !Holds(x.filters[r.filter.value], r.query)
        then Settled(x, reader, Answered(r.query, r.known, None))
        else Settled(x, reader, Reading(r.query, r.known))
    case Read(reader) =>
      if reader !in x.readers || !x.readers[reader].Reading? then x
      else Settled(x, reader, Answered(x.readers[reader].query, x.readers[reader].known,
          Durable(x.book, x.readers[reader].query)))
  }

  // ----- What a group adds -----

  lemma {:induction false} FirstSubmits(history: seq<Event>)
    requires hide ApplyAll;
             history != [] && ApplyAll(None, history).Ok?
    ensures history[0].kind == EventWorkflowSubmitted
  {
    if |history| > 1 {
      FirstSubmits(history[..|history| - 1]);
    } else {
      assert history[..0] == [];
    }
    hide Transition, ApplySubmission;
  }

  /** The history of a workflow begins with its submission, which is event number one. */
  lemma {:induction false} BeginsSubmitted(book: Book, w: Id)
    requires hide History, Kept;
             Kept(book) && w in book.states
    ensures var history := History(book.log, w);
            history != [] && history[0].kind == EventWorkflowSubmitted && history[0].sequence == 1
  {
    hide Taken, FilingOk, Ordered, Unique, ApplyEvent;
    var history := History(book.log, w);
    assert ApplyAll(None, history) == Ok(Lookup(book.states, w));
    assert Counting(history);
    if history != [] { FirstSubmits(history); }
  }

  /** The receipt that begins the history of a workflow. */
  lemma {:induction false} FirstReceipt(book: Book, w: Id) returns (i: nat)
    requires hide Kept;
             Kept(book) && w in book.states
    ensures i < |book.log| && book.log[i].workflow == w && Submits(book.log[i])
  {
    BeginsSubmitted(book, w);
    hide Kept, Taken;
    var history := History(book.log, w);
    Segments.TakenMember(book.log, w, 0, Top(book.log), history[0]);
    i :| 0 <= i < |book.log| && book.log[i].workflow == w && 0 <= book.log[i].index < Top(book.log)
        && history[0] in book.log[i].events;
    FirstOfFiling(book, i, history[0]);
  }

  /** A workflow that a group brings has its submission first in one of the group's receipts. */
  lemma {:induction false} NewSubmitted(book: Book, after: Book, added: seq<Filing>, w: Id)
    requires Extends(book, after, added) && w in after.states && w !in book.states
    ensures w in SubmittedWorkflows(added)
  {
    hide Kept, NoneRevived, OnlyTouched, Top, Workflows, Submits;
    var i := FirstReceipt(after, w);
    assert i >= |book.log| by {
      if i < |book.log| {
        assert book.log[i] == after.log[i];
        FilingOwned(book, i);
      }
    }
    assert after.log[i] == added[i - |book.log|];
    SubmittedMember(added, i - |book.log|);
  }

  /** Event number one is the first of its receipt. */
  lemma {:induction false} FirstOfFiling(book: Book, i: nat, e: Event)
    requires hide Kept;
             Kept(book) && i < |book.log| && e in book.log[i].events && e.sequence == 1
    ensures e == book.log[i].events[0]
  {
    hide Explained;
    var f := book.log[i];
    assert FilingOk(f);
    var k :| 0 <= k < |f.events| && f.events[k] == e;
    assert EventFits(f, k);
    hide Taken;
    BelowTop(book.log, f);
    var at := TakenHolds(book.log, i, 0, Top(book.log));
    var history := History(book.log, f.workflow);
    assert Counting(history);
    assert history[at] == history[at..at + |f.events|][0] == f.events[0];
  }

  // ----- What every step keeps -----

  /** `b` still has what `a` found: the same receipt, or the workflow in a later state. */
  predicate Remains(a: Option<Found>, b: Option<Found>) {
    a.Some? ==> b.Some? && (if a.value.FoundRecord? then b == a else b.value.FoundState?)
  }

  /** Every durable key is in the filter, or still to be added. */
  ghost predicate Completing(f: Shown, requests: seq<Id>, workflows: seq<Id>, book: Book) {
    forall q :: Durable(book, q).Some? ==>
      Holds(f, q) || (if q.ForRequest? then q.id in requests else q.id in workflows)
  }

  ghost predicate WriterOk(x: Index) {
    hide Commits, Completing, Guards;
    match x.writer
    case Idle => x.current.Some?
    case Hidden(saved, change) =>
      x.current.None? && saved < |x.filters| && Guards(x.filters[saved], x.book) && Commits(x.book, change)
    case Adding(saved, requests, workflows) =>
      x.current.None? && saved < |x.filters| && Completing(x.filters[saved], requests, workflows, x.book)
    case Built(n) => x.current.None? && n < |x.filters| && Guards(x.filters[n], x.book)
  }

  ghost predicate ReaderOk(x: Index, r: Reader) {
    match r
    case Loaded(q, filter, known) =>
      && Remains(known, Durable(x.book, q))
      && (filter.Some? ==> filter.value < |x.filters| && (known.Some? ==> Holds(x.filters[filter.value], q)))
    case Reading(q, known) => Remains(known, Durable(x.book, q))
    case Answered(q, known, answer) => Remains(known, answer) && Remains(answer, Durable(x.book, q))
  }

  /** The filters in sight answer yes for everything durable, at every step; so does what a lookup holds on to for what
      was durable when it took it. */
  ghost predicate InOrder(x: Index) {
    hide Guards, ReaderOk, Segments.InOrder, WriterOk;
    && (x.current.Some? ==> x.current.value < |x.filters| && Guards(x.filters[x.current.value], x.book))
    && WriterOk(x)
    && forall n | n in x.readers :: ReaderOk(x, x.readers[n])
  }

  lemma {:induction false} ExtendsCarries(book: Book, after: Book, added: seq<Filing>)
    requires Extends(book, after, added)
    ensures Carries(book, after)
  {
    hide Kept, NoneRevived, OnlyTouched, Workflows, Top;
    forall f | f in book.log ensures f in after.log {
      var i :| 0 <= i < |book.log| && book.log[i] == f;
      assert after.log[i] == f;
    }
  }

  /** What is durable stays durable. */
  lemma {:induction false} DurableStays(book: Book, after: Book, q: Query)
    requires Carries(book, after)
    ensures Remains(Durable(book, q), Durable(after, q))
  {
    hide Kept, Records;
    match q {
      case ForRequest(id) =>
        if id in Records(book.log) {
          RecordIs(book.log, id);
          var i :| 0 <= i < |book.log| && book.log[i].request == id
                && Records(book.log)[id] == Record(book.log[i].hash, book.log[i].workflow, book.log[i].events);
          assert book.log[i] in after.log;
          var j :| 0 <= j < |after.log| && after.log[j] == book.log[i];
          KeptUnique(after);
          RecordOf(after.log, j);
        }
      case ForWorkflow(id) =>
        if id in book.states {
          var i := WorkflowHasReceipt(book, id);
          assert book.log[i] in after.log;
          var j :| 0 <= j < |after.log| && after.log[j] == book.log[i];
          FilingOwned(after, j);
        }
    }
  }

  /** Lookups under way are unharmed when the book grows and filters grow. */
  lemma {:induction false} ReadersStay(x: Index, y: Index)
    requires forall n | n in x.readers :: ReaderOk(x, x.readers[n])
    requires y.readers == x.readers && |x.filters| <= |y.filters|
    requires forall i | 0 <= i < |x.filters| ::
               x.filters[i].receipts <= y.filters[i].receipts && x.filters[i].workflows <= y.filters[i].workflows
    requires forall q :: Remains(Durable(x.book, q), Durable(y.book, q))
    ensures forall n | n in y.readers :: ReaderOk(y, y.readers[n])
  {
    hide Durable;
    forall n | n in y.readers ensures ReaderOk(y, y.readers[n]) {
      assert ReaderOk(x, x.readers[n]);
      assert Remains(Durable(x.book, x.readers[n].query), Durable(y.book, x.readers[n].query));
    }
  }

  lemma {:induction false} SameStays(book: Book)
    ensures forall q :: Remains(Durable(book, q), Durable(book, q))
  {
    hide Records;
  }

  /** After a group every durable key is in the filter or among those to add. */
  lemma {:induction false} GroupCompletes(book: Book, after: Book, added: seq<Filing>, f: Shown)
    requires Extends(book, after, added) && Guards(f, book)
    ensures Completing(f, AcceptedRequests(added), SubmittedWorkflows(added), after)
  {
    forall q | Durable(after, q).Some?
      ensures Holds(f, q) || (if q.ForRequest? then q.id in AcceptedRequests(added)
              else q.id in SubmittedWorkflows(added))
    {
      match q {
        case ForRequest(id) => RequestOldOrNew(book, after, added, id);
        case ForWorkflow(id) => if id !in book.states { NewSubmitted(book, after, added, id); }
            else { assert Durable(book, q).Some?; }
      }
    }
  }

  lemma {:induction false} RequestOldOrNew(book: Book, after: Book, added: seq<Filing>, id: Id)
    requires after.log == book.log + added && id in Records(after.log)
    ensures Durable(book, ForRequest(id)).Some? || id in AcceptedRequests(added)
  {
    hide Records;
    RecordFiled(after.log, id);
    RecordFiled(book.log, id);
    var i :| 0 <= i < |after.log| && after.log[i].request == id;
    if i < |book.log| { assert book.log[i].request == id; }
        else { assert AcceptedRequests(added)[i - |book.log|] == id; }
  }

  // ----- Every run -----

  lemma {:induction false} SwapKeeps(x: Index, change: Change)
    requires InOrder(x)
    ensures InOrder(Next(x, SwapOut(change)))
  {
    hide Commits, Guards, Durable;
    var y := Next(x, SwapOut(change));
    SameStays(x.book);
    ReadersStay(x, y);
  }

  lemma {:induction false} FailKeeps(x: Index)
    requires InOrder(x)
    ensures InOrder(Next(x, CommitFails))
  {
    hide Commits, Guards, Durable;
    SameStays(x.book);
    ReadersStay(x, Next(x, CommitFails));
  }

  lemma {:induction false} CommitKeeps(x: Index)
    requires InOrder(x)
    ensures InOrder(Next(x, CommitWorks))
  {
    hide Durable, Extends, Guards, Completing, AcceptedRequests, SubmittedWorkflows, Carries;
    var y := Next(x, CommitWorks);
    if x.writer.Hidden? {
      match x.writer.change {
        case Group(after, added) =>
          ExtendsCarries(x.book, after, added);
          GroupCompletes(x.book, after, added, x.filters[x.writer.saved]);
        case Snapshot(image, built) =>
      }
      forall q ensures Remains(Durable(x.book, q), Durable(y.book, q)) { DurableStays(x.book, y.book, q); }
      ReadersStay(x, y);
    }
  }

  lemma {:induction false} AddKeeps(x: Index, step: Step)
    requires InOrder(x) && (step.AddRequest? || step.AddWorkflow?)
    ensures InOrder(Next(x, step))
  {
    hide Durable, Commits, ReaderOk, Segments.InOrder, Segments.Reading;
    var y := Next(x, step);
    if y != x {
      var f, g := x.filters[x.writer.saved], y.filters[y.writer.saved];
      forall q | Durable(y.book, q).Some?
        ensures Holds(g, q) || (if q.ForRequest? then q.id in y.writer.requests else q.id in y.writer.workflows)
      {
        assert Holds(f, q) || (if q.ForRequest? then q.id in x.writer.requests else q.id in x.writer.workflows);
        if step.AddRequest? { assert x.writer.requests == [x.writer.requests[0]] + y.writer.requests; }
        else { assert x.writer.workflows == [x.writer.workflows[0]] + y.writer.workflows; }
      }
      hide Guards, Completing;
      SameStays(x.book);
      ReadersStay(x, y);
    }
  }

  lemma {:induction false} PublishKeeps(x: Index)
    requires InOrder(x)
    ensures InOrder(Next(x, Publish))
  {
    hide Durable, Commits, ReaderOk, Segments.InOrder, Segments.Reading;
    var y := Next(x, Publish);
    if y != x {
      assert Guards(y.filters[y.current.value], y.book);
      hide Guards, Completing;
      SameStays(x.book);
      ReadersStay(x, y);
    }
  }

  lemma {:induction false} ReaderKeeps(x: Index, step: Step)
    requires InOrder(x) && (step.LoadPointer? || step.Probe? || step.Read?)
    ensures InOrder(Next(x, step))
  {
    SameStays(x.book);
    var y := Next(x, step);
    if y != x {
      var r := y.readers[step.reader];
      if step.LoadPointer? && x.current.Some? { assert Durable(x.book, step.query).Some?
          ==> Holds(x.filters[x.current.value], step.query); }
      if !step.LoadPointer? { assert ReaderOk(x, x.readers[step.reader]); }
      hide Durable, Guards, Completing, Commits;
      assert ReaderOk(y, r);
      forall n | n in y.readers ensures ReaderOk(y, y.readers[n]) {
        if n != step.reader { assert ReaderOk(x, x.readers[n]); }
      }
    }
  }

  lemma {:induction false} StepKeeps(x: Index, step: Step)
    requires InOrder(x)
    ensures InOrder(Next(x, step))
  {
    hide InOrder, Next;
    match step {
      case SwapOut(change) => SwapKeeps(x, change);
      case CommitFails => FailKeeps(x);
      case CommitWorks => CommitKeeps(x);
      case AddRequest(_) => AddKeeps(x, step);
      case AddWorkflow(_) => AddKeeps(x, step);
      case Publish => PublishKeeps(x);
      case _ => ReaderKeeps(x, step);
    }
  }

  /** An opened store: its filters hold every durable key. */
  function Opened(book: Book, f: Shown): Index {
    Index(book, [f], Some(0), Idle, map[])
  }

  ghost function Run(x: Index, steps: seq<Step>): Index {
    hide Next;
    if steps == [] then x else Next(Run(x, steps[..|steps| - 1]), steps[|steps| - 1])
  }

  /** In every run, at every step, the filters in sight answer yes for everything durable. */
  lemma {:induction false} AlwaysInOrder(book: Book, f: Shown, steps: seq<Step>)
    requires Guards(f, book)
    ensures InOrder(Run(Opened(book, f), steps))
  {
    if steps == [] {
      hide Guards;
    } else {
      hide InOrder, Next, Guards;
      AlwaysInOrder(book, f, steps[..|steps| - 1]);
      StepKeeps(Run(Opened(book, f), steps[..|steps| - 1]), steps[|steps| - 1]);
    }
  }

  /** In every run a lookup that loaded the pointer after a key was committed is answered with its record, whatever
      groups and snapshots were committed, added and shown in between; and what any lookup is answered with is
      durable. */
  lemma {:induction false} LookupsAnswered(book: Book, f: Shown, steps: seq<Step>, reader: nat)
    requires hide Guards, Run;
             Guards(f, book)
    requires var x := Run(Opened(book, f), steps); reader in x.readers && x.readers[reader].Answered?
    ensures var x := Run(Opened(book, f), steps);
            var r := x.readers[reader];
            Remains(r.known, r.answer) && Remains(r.answer, Durable(x.book, r.query))
  {
    hide Run, Guards, Durable, Remains;
    AlwaysInOrder(book, f, steps);
    var x := Run(Opened(book, f), steps);
    assert ReaderOk(x, x.readers[reader]);
  }

  /** Whenever the next batch is about to commit, the filters are there. */
  lemma {:induction false} PresentAtApply(book: Book, f: Shown, steps: seq<Step>)
    requires Guards(f, book) && Run(Opened(book, f), steps).writer.Idle?
    ensures Run(Opened(book, f), steps).current.Some?
  {
    hide Run, Guards;
    AlwaysInOrder(book, f, steps);
  }

  // ----------------------------------------------------------------------------------------------------
  // Durable lookups through the membership filter, across applied groups, installed snapshots and reopening: the
  // swaps of internal/storage/application.go and snapshot.go, and the loaders of internal/storage/membership.go.
  // ----------------------------------------------------------------------------------------------------

  function RequestKeys(log: seq<Filing>): set<Id> {
    set i | 0 <= i < |log| :: log[i].request
  }

  lemma {:induction false} RequestsGrow(log: seq<Filing>, added: seq<Filing>)
    ensures RequestKeys(log + added) <= RequestKeys(log) + (set i | 0 <= i < |added| :: added[i].request)
  {
    var all := log + added;
    forall r | r in RequestKeys(all) ensures r in RequestKeys(log)
        || r in set i | 0 <= i < |added| :: added[i].request {
      var i :| 0 <= i < |all| && all[i].request == r;
      if i < |log| { assert log[i] == all[i]; } else { assert added[i - |log|] == all[i]; }
    }
  }

  lemma {:induction false} WorkflowsGrow(book: Book, after: Book, added: seq<Filing>)
    requires Extends(book, after, added)
    ensures after.states.Keys <= book.states.Keys + (set w | w in SubmittedWorkflows(added))
            && after.log == book.log + added
  {
    assert after.log == book.log + added;
    hide Extends, SubmittedWorkflows;
    forall w | w in after.states && w !in book.states
        ensures w in SubmittedWorkflows(added) { NewSubmitted(book, after, added, w); }
  }

  lemma {:induction false} CompleteFewer(f: Filters, requests: set<Id>, workflows: set<Id>, fewer: set<Id>,
                                         fewer': set<Id>)
    requires Complete(f, requests, workflows) && fewer <= requests && fewer' <= workflows
    ensures Complete(f, fewer, fewer')
  {
    hide Filter.HasHash;
  }

  // ----- The index -----

  /** What a pair of filters answers yes for. */
  ghost function View(f: Filters): Shown
    reads f.receipts, f.workflows, f.receipts.Layers(), f.workflows.Layers()
  {
    Shown(iset id: Id | f.receipts.Has(id), iset id: Id | f.workflows.Has(id))
  }

  /** Complete filters are the ones that guard a book in the sense of the steps above. */
  lemma {:induction false} CompleteGuards(f: Filters, book: Book)
    ensures Complete(f, RequestKeys(book.log), book.states.Keys) <==> Guards(View(f), book)
  {
    hide Filter.HasHash, Records;
    if Complete(f, RequestKeys(book.log), book.states.Keys) {
      forall q | Durable(book, q).Some? ensures Holds(View(f), q) {
        if q.ForRequest? { RecordFiled(book.log, q.id); }
      }
    }
    if Guards(View(f), book) {
      forall r | r in RequestKeys(book.log) ensures f.receipts.Has(r) {
        RecordFiled(book.log, r);
        assert Durable(book, ForRequest(r)).Some?;
      }
      forall w | w in book.states.Keys
          ensures f.workflows.Has(w) { assert Durable(book, ForWorkflow(w)).Some?; }
    }
  }

  /** durableMembershipIndex over what is durable. Each method up to `Show` is one step that other goroutines can come
      between; all of them keep the filters in sight complete. */
  class DurableIndex {
    const hash: Id -> bv64
    var book: Book
    var current: Option<Filters>

    ghost predicate Whole(f: Filters)
      reads this, f.receipts, f.workflows, f.receipts.Layers(), f.workflows.Layers()
    {
      Separate(f) && Complete(f, RequestKeys(book.log), book.states.Keys)
    }

    /** The filters that a lookup can load now hold everything durable. */
    ghost predicate InSight()
      reads this, if current.Some? then {current.value.receipts, current.value.workflows} else {},
            if current.Some? then current.value.receipts.Layers() + current.value.workflows.Layers() else {}
    {
      current.Some? ==> Whole(current.value)
    }

    /** rebuildDurableMembership, on opening a store. */
    constructor (hash: Id -> bv64, book: Book)
      ensures current.Some? && InSight() && this.book == book
    {
      this.hash, this.book := hash, book;
      new;
      var f := BuildFilters(hash, book);
      current := Some(f);
    }

    /** The first step of a lookup. */
    method LoadPointer() returns (f: Option<Filters>)
      requires InSight()
      ensures f == current && (f.Some? ==> Whole(f.value))
    {
      f := current;
    }

    /** The rest of loadEngineRequest. `known` says whether the request was durable when the pointer was loaded; the
        filter found then, which may have been added to and taken out of sight since, still holds it. */
    method FinishRequest(r: Id, f: Option<Filters>, ghost known: bool) returns (record: Option<Record>)
      requires hide Filter.Has, Layer.Has;
               known ==> r in Records(book.log) && (f.Some? ==> f.value.receipts.Has(r))
      ensures record.Some? ==> r in Records(book.log) && record.value == Records(book.log)[r]
      ensures known ==> record.Some?
    {
      if f.Some? {
        var possible := f.value.receipts.Contains(r);
        if !possible { return None; }
      }
      return if r in Records(book.log) then Some(Records(book.log)[r]) else None;
    }

    /** The rest of loadEngineWorkflow. */
    method FinishWorkflow(w: Id, f: Option<Filters>, ghost known: bool) returns (state: Option<Workflow>)
      requires known ==> w in book.states && (f.Some? ==> f.value.workflows.Has(w))
      ensures state.Some? ==> state == Lookup(book.states, w)
      ensures known ==> state.Some?
    {
      if f.Some? {
        var possible := f.value.workflows.Contains(w);
        if !possible { return None; }
      }
      return Lookup(book.states, w);
    }

    /** loadEngineRequest with nothing in between: a direct lookup. */
    method LookupRequest(r: Id) returns (record: Option<Record>)
      requires InSight()
      ensures record == if r in Records(book.log) then Some(Records(book.log)[r]) else None
    {
      hide Separate, Filter.HasHash, Records;
      RecordFiled(book.log, r);
      var f := LoadPointer();
      record := FinishRequest(r, f, r in Records(book.log));
    }

    /** loadEngineWorkflow with nothing in between. */
    method LookupWorkflow(w: Id) returns (state: Option<Workflow>)
      requires InSight()
      ensures state == Lookup(book.states, w)
    {
      hide Separate, Filter.HasHash;
      var f := LoadPointer();
      state := FinishWorkflow(w, f, w in book.states);
    }

    /** Swap(nil) before a batch commits: lookups go to the records. */
    method SwapOut() returns (saved: Option<Filters>)
      requires current.Some? && InSight()
      modifies this`current
      ensures InSight() && current.None? && saved == old(current) && Whole(saved.value)
    {
      hide Complete, Guards;
      saved, current := current, None;
    }

    /** The batch of an applied group commits. */
    method CommitGroup(after: Book, ghost added: seq<Filing>)
      requires hide Extends;
               InSight() && current.None? && Extends(book, after, added)
      modifies this`book
      ensures InSight() && book == after
    {
      hide Extends, Kept;
      book := after;
    }

    /** The batch of an installed snapshot commits. */
    method CommitImage(image: Book)
      requires InSight() && current.None?
      modifies this`book
      ensures InSight() && book == image
    {
      book := image;
    }

    /** The saved filters take in a committed group, out of sight. */
    method AddGroup(saved: Filters, added: seq<Filing>, ghost before: Book)
      requires hide Complete, DurableIndex.Whole, Extends, Filter.Has, Layer.Has, Separate, Guards;
               InSight() && current.None? && Separate(saved)
               && Complete(saved, RequestKeys(before.log), before.states.Keys)
      requires Extends(before, book, added)
      modifies saved.receipts`shards, saved.workflows`shards, saved.receipts.Layers(), saved.workflows.Layers()
      ensures InSight() && Whole(saved)
      ensures forall id ::
                (old(saved.receipts.Has(id)) ==> saved.receipts.Has(id))
                && (old(saved.workflows.Has(id)) ==> saved.workflows.Has(id))
    {
      hide Extends, Separate, SubmittedWorkflows, Complete, RequestKeys, Filter.HasHash;
      WorkflowsGrow(before, book, added);
      RequestsGrow(before.log, added);
      AddAccepted(saved, added, RequestKeys(before.log), before.states.Keys);
      CompleteFewer(saved, RequestKeys(before.log) + (set i | 0 <= i < |added| :: added[i].request),
                    before.states.Keys + (set w | w in SubmittedWorkflows(added)), RequestKeys(book.log),
                        book.states.Keys);
    }

    /** current.Store */
    method Show(f: Filters)
      requires Whole(f)
      modifies this`current
      ensures InSight() && current == Some(f)
    {
      current := Some(f);
    }

    /** The commit of an applied group, step by step; the filters are in sight again afterwards, so that they are there
        when the next group is applied. */
    method ApplyGroup(after: Book, added: seq<Filing>, committed: bool)
      requires hide Extends;
               current.Some? && InSight() && Extends(book, after, added)
      modifies this`current, this`book, current.value.receipts`shards, current.value.workflows`shards,
        current.value.receipts.Layers(), current.value.workflows.Layers()
      ensures current.Some? && InSight() && book == (if committed then after else old(book))
    {
      hide Extends, Separate, Complete;
      ghost var before := book;
      var saved := SwapOut();
      if committed {
        CommitGroup(after, added);
        AddGroup(saved.value, added, before);
      }
      Show(saved.value);
    }

    /** Building filters leaves those in sight alone. */
    method BuildFor(image: Book) returns (f: Filters)
      requires InSight()
      ensures InSight() && Separate(f) && Complete(f, RequestKeys(image.log), image.states.Keys)
      ensures fresh(f.receipts) && fresh(f.workflows) && fresh(f.receipts.Layers()) && fresh(f.workflows.Layers())
    {
      f := BuildFilters(hash, image);
    }

    /** A snapshot is installed: new filters, from its image, replace the old ones once the batch has committed. */
    method InstallIndex(image: Book, committed: bool)
      requires current.Some? && InSight()
      modifies this`current, this`book
      ensures current.Some? && InSight() && book == (if committed then image else old(book))
    {
      hide Separate, Complete;
      var built := BuildFor(image);
      var saved := SwapOut();
      if committed {
        CommitImage(image);
        Show(built);
      } else {
        Show(saved.value);
      }
    }
  }

  /** membershipFromSnapshot and rebuildDurableMembership: filters of every key. */
  method BuildFilters(hash: Id -> bv64, book: Book) returns (f: Filters)
    ensures fresh(f.receipts) && fresh(f.workflows) && fresh(f.receipts.Layers()) && fresh(f.workflows.Layers())
    ensures Separate(f) && Complete(f, RequestKeys(book.log), book.states.Keys)
  {
    hide Filter.HasHash;
    var receipts := new Filter(hash);
    var workflows := new Filter(hash);
    var requests := AcceptedRequests(book.log);
    receipts.AddAll(requests);
    var ids := SortedIds(book.states.Keys);
    workflows.AddAll(ids);
    f := Filters(receipts, workflows);
    forall r | r in RequestKeys(book.log) ensures receipts.Has(r) {
      var i :| 0 <= i < |book.log| && book.log[i].request == r;
      assert requests[i] == r;
    }
  }
}
