/** What a store holds, as a book: the state of every workflow and every accepted receipt; and what applying
    committed entries adds to it (applyEntries of internal/storage/application.go). */
module Archives {
  import opened Base
  import opened Replays
  import opened Model
  import opened IdOrder
  import opened Reducer
  import opened Lawfulness
  import opened Plans
  import opened Ledgers
  import opened Filings

  /** Where a request was committed. */
  datatype Origin = Origin(index: nat, term: nat)

  /** The state of every workflow, every accepted receipt, and every request that was refused because its identifier had
      been used for another one, with the last place it was refused at. */
  datatype Book = Book(states: map<Id, Workflow>, log: seq<Filing>, conflicts: map<(Id, Hash), Origin>)

  const BLANK := Book(map[], [], map[])

  /** A command batch and the position and term it was committed at. */
  datatype Post = Post(batch: Batch, index: nat, term: nat)

  function Records(log: seq<Filing>): map<Id, Record> {
    if log == [] then map[]
    else
      var last := log[|log| - 1];
      Records(log[..|log| - 1])[last.request := Record(last.hash, last.workflow, last.events)]
  }

  /** The engine that holds everything. */
  function LedgerOf(book: Book): Ledger {
    EMPTY.(states := book.states, active := ActiveOf(book.states),
           requests := Records(book.log), index := IndexOf(Records(book.log)), journaled := false)
  }

  /** Every state is the fold of its receipts. */
  ghost predicate Explained(book: Book) {
    forall w :: ApplyAll(None, History(book.log, w)) == Ok(Lookup(book.states, w))
  }

  ghost predicate Kept(book: Book) {
    hide Explained, Filed;
    && Filed(book.log) && Explained(book)
    && forall w | w in book.states :: w != NO_ID && book.states[w].id == w
  }

  // ----- One committed batch -----

  function FilingFor(p: Post): Filing {
    Filing(p.batch.request, p.batch.hash, p.batch.workflow, p.batch.events, p.index, p.term)
  }

  ghost function PostOne(book: Book, p: Post): Result<Book> {
    hide ApplyBatch, LedgerOf;
    match ApplyBatch(LedgerOf(book), NoLoaders, p.batch)
    case Err(e) => Err(e)
    case Ok((application, after)) =>
      if application.Conflict?
          then Ok(book.(conflicts := book.conflicts[(p.batch.request, p.batch.hash) := Origin(p.index, p.term)]))
      else if !application.outcome.duplicate then Ok(book.(states := after.states, log := book.log + [FilingFor(p)]))
      else Ok(book)
  }

  ghost function PostAll(book: Book, posts: seq<Post>): Result<Book> {
    hide PostOne;
    if posts == [] then Ok(book)
    else
      var before :- PostAll(book, posts[..|posts| - 1]);
      PostOne(before, posts[|posts| - 1])
  }

  /** What an accepted batch was found to be. */
  ghost predicate Accepted(book: Book, p: Post, next: Workflow) {
    hide ApplyAll, Blank;
    && p.batch.request !in Records(book.log) && !Blank(p.batch.request) && p.batch.hash != NoHash
    && !Blank(p.batch.workflow) && p.batch.events != []
    && (forall i | 0 <= i < |p.batch.events| :: BatchMatches(p.batch, p.batch.events[i]))
    && ApplyAll(Lookup(book.states, p.batch.workflow), p.batch.events) == Ok(Some(next))
  }

  lemma {:induction false} NamedNotBlank(id: Id)
    requires !Blank(id)
    ensures id != NO_ID
  {
  }

  /** The book after an accepted batch. */
  function WithPost(book: Book, p: Post, next: Workflow): Book {
    book.(states := book.states[p.batch.workflow := next], log := book.log + [FilingFor(p)])
  }

  lemma {:induction false} PostAccepts(book: Book, p: Post)
    requires hide Accepted, PostOne;
             PostOne(book, p).Ok? && PostOne(book, p).value.log != book.log
    ensures exists next :: Accepted(book, p, next) && PostOne(book, p).value == WithPost(book, p, next)
  {
    hide ApplyAll, Records, StoreIndex, UpdateActive, Counted, IndexOf, ActiveOf;
    NamedNotBlankIf(p.batch.workflow);
    var after := ApplyBatch(LedgerOf(book), NoLoaders, p.batch).value.1;
    var next := after.states[p.batch.workflow];
    var state := Lookup(book.states, p.batch.workflow);
    assert ApplyAll(state, p.batch.events).Ok?;
    AppliedExists(state, p.batch.events);
    assert Accepted(book, p, next);
  }

  /** A batch that adds no receipt changes no state. */
  lemma {:induction false} PostElse(book: Book, p: Post)
    requires hide PostOne;
             PostOne(book, p).Ok? && PostOne(book, p).value.log == book.log
    ensures PostOne(book, p).value == book.(conflicts := PostOne(book, p).value.conflicts)
  {
    hide ApplyBatch;
  }

  lemma {:induction false} NamedNotBlankIf(id: Id)
    ensures !Blank(id) ==> id != NO_ID
  {
  }

  lemma {:induction false} AppliedExists(state: Option<Workflow>, events: seq<Event>)
    requires hide ApplyAll;
             events != [] && ApplyAll(state, events).Ok?
    ensures ApplyAll(state, events).value.Some?
  {
    hide ApplyEvent;
  }

  /** Events that apply are numbered on from the state, and carry their own identifiers. */
  lemma {:induction false} AppliedWell(state: Option<Workflow>, events: seq<Event>)
    requires hide ApplyAll;
             ApplyAll(state, events).Ok?
    ensures Version(ApplyAll(state, events).value) == Version(state) + |events|
    ensures forall k | 0 <= k < |events| ::
              && events[k].sequence == Version(state) + k + 1 && events[k].at >= 0
              && events[k].id == EventID(events[k].workflow, events[k].sequence, events[k].kind)
  {
    hide ApplyEvent;
    if events != [] {
      var front, last := events[..|events| - 1], events[|events| - 1];
      AppliedWell(state, front);
      ApplyNumbers(ApplyAll(state, front).value, last);
      EventWell(ApplyAll(state, front).value, last);
      forall k | 0 <= k < |events| ensures
          && events[k].sequence == Version(state) + k + 1 && events[k].at >= 0
          && events[k].id == EventID(events[k].workflow, events[k].sequence, events[k].kind)
      {
        if k < |front| { assert events[k] == front[k]; }
      }
    }
  }

  lemma {:induction false} EventWell(state: Option<Workflow>, e: Event)
    requires ApplyEvent(state, e).Ok?
    ensures e.at >= 0 && e.id == EventID(e.workflow, e.sequence, e.kind)
  {
    hide Transition, ApplySubmission;
  }

  lemma {:induction false} AppliedOwner(state: Option<Workflow>, events: seq<Event>, w: Id)
    requires hide ApplyAll;
             ApplyAll(state, events).Ok? && events != [] && (state.Some? ==> state.value.id == w)
    requires forall e | e in events :: e.workflow == w
    ensures ApplyAll(state, events).value.Some? && ApplyAll(state, events).value.value.id == w
  {
    hide ApplyEvent;
    var front, last := events[..|events| - 1], events[|events| - 1];
    assert events == front + [last] && last in events;
    if front != [] { AppliedOwner(state, front, w); }
    OwnerKept(ApplyAll(state, front).value, last, w);
  }

  lemma {:induction false} OwnerKept(state: Option<Workflow>, e: Event, w: Id)
    requires hide ApplyEvent;
             ApplyEvent(state, e).Ok? && e.workflow == w && (state.Some? ==> state.value.id == w)
    ensures ApplyEvent(state, e).value.id == w
  {
    hide ApplySubmission, Transition;
    match state {
      case None => SubmissionId(e);
      case Some(s) => TransitionId(s, e);
    }
  }

  lemma {:induction false} TransitionId(s: Workflow, e: Event)
    requires hide Transition;
             Transition(s, e).Ok?
    ensures Transition(s, e).value.id == s.id
  {
    hide ApplyFanoutExpanded, DependenciesCompleted, Waiting, NextCompensation, HasActive, HasScheduledTimers,
        AllCompleted, ScheduledTimer, TimeoutDue, AcceptsTimer;
    if e.kind == EventFanoutExpanded { ExpansionKeepsId(s, e); }
  }

  /** Whatever the events, a workflow that has ended stays ended. */
  lemma {:induction false} EndedStays(state: Option<Workflow>, events: seq<Event>)
    requires hide ApplyAll;
             ApplyAll(state, events).Ok? && state.Some? && Terminal(state.value.status)
    ensures ApplyAll(state, events).value.Some? && Terminal(ApplyAll(state, events).value.value.status)
  {
    hide ApplyEvent;
    if events != [] {
      EndedStays(state, events[..|events| - 1]);
      EndedStaysOne(ApplyAll(state, events[..|events| - 1]).value.value, events[|events| - 1]);
    }
  }

  lemma {:induction false} EndedStaysOne(s: Workflow, e: Event)
    requires hide ApplyEvent;
             ApplyEvent(Some(s), e).Ok? && Terminal(s.status)
    ensures Terminal(ApplyEvent(Some(s), e).value.status)
  {
    hide ApplyFanoutExpanded, DependenciesCompleted, Waiting, NextCompensation, HasActive, HasScheduledTimers,
        AllCompleted, ScheduledTimer, TimeoutDue, AcceptsTimer;
    if e.kind == EventFanoutExpanded { ExpansionRuns(s, e); }
  }

  lemma {:induction false} ExpansionRuns(s: Workflow, e: Event)
    requires ApplyFanoutExpanded(s, e).Ok?
    ensures s.status == WorkflowRunning
  {
    hide SortIds, WithChildren, CanonicalExpansion;
  }

  // ----- A longer book -----

  lemma {:induction false} OrderedLonger(log: seq<Filing>, f: Filing)
    requires Ordered(log) && Top(log) <= f.index + 1
    ensures Ordered(log + [f])
  {
    var all := log + [f];
    forall i, j | 0 <= i < j < |all| ensures all[i].index <= all[j].index {
      if j == |log| { assert i < |log| - 1 ==> log[i].index <= log[|log| - 1].index; }
    }
  }

  lemma {:induction false} TakenLonger(log: seq<Filing>, f: Filing, w: Id, lo: nat, hi: nat)
    ensures Taken(log + [f], w, lo, hi) == Taken(log, w, lo, hi) + (if f.workflow == w && lo <= f.index < hi
            then f.events else [])
  {
    assert (log + [f])[..|log|] == log;
  }

  lemma {:induction false} HistoryLonger(log: seq<Filing>, f: Filing, w: Id)
    requires Ordered(log) && Top(log) <= f.index + 1
    ensures History(log + [f], w) == History(log, w) + (if f.workflow == w then f.events else [])
  {
    hide Taken, Ordered;
    TakenLonger(log, f, w, 0, f.index + 1);
    TakenBeyond(log, w, 0, f.index + 1);
  }

  lemma {:induction false} RecordFiled(log: seq<Filing>, r: Id)
    ensures r in Records(log) <==> exists i :: 0 <= i < |log| && log[i].request == r
  {
    if log != [] {
      var front := log[..|log| - 1];
      RecordFiled(front, r);
      if i :| 0 <= i < |front| && front[i].request == r { assert log[i].request == r; }
      if i :| 0 <= i < |log| && log[i].request == r {
        if i < |front| { assert front[i].request == r; }
      }
    }
  }

  lemma {:induction false} FiledLonger(log: seq<Filing>, f: Filing)
    requires Filed(log) && FilingOk(f) && Unique(log + [f]) && Top(log) <= f.index + 1
    requires Counting(History(log, f.workflow) + f.events)
    ensures Filed(log + [f])
  {
    hide FilingOk, Unique, Counting, Taken, Ordered;
    var all := log + [f];
    OrderedLonger(log, f);
    forall x ensures Counting(History(all, x)) {
      HistoryLonger(log, f, x);
      assert History(log, x) + [] == History(log, x);
    }
  }

  lemma {:induction false} ExplainedLonger(book: Book, f: Filing, next: Workflow)
    requires Explained(book) && Ordered(book.log) && Top(book.log) <= f.index + 1
    requires ApplyAll(Lookup(book.states, f.workflow), f.events) == Ok(Some(next))
    ensures Explained(book.(states := book.states[f.workflow := next], log := book.log + [f]))
    ensures Counting(History(book.log, f.workflow) + f.events)
  {
    hide ApplyAll, History, Ordered, Counting;
    var after := book.(states := book.states[f.workflow := next], log := book.log + [f]);
    ApplyAllJoins(None, History(book.log, f.workflow), f.events);
    forall x ensures ApplyAll(None, History(after.log, x)) == Ok(Lookup(after.states, x)) {
      HistoryLonger(book.log, f, x);
      assert History(book.log, x) + [] == History(book.log, x);
    }
    HistoryCounts(History(book.log, f.workflow) + f.events);
  }

  lemma {:induction false} HistoryCounts(events: seq<Event>)
    requires ApplyAll(None, events).Ok?
    ensures Counting(events)
  {
    hide ApplyAll, ApplyEvent;
    HistoryNumbers(events);
  }

  /** Accepting a batch at the same or a later position keeps the book. */
  lemma {:induction false} PostKept(book: Book, p: Post, next: Workflow)
    requires Kept(book) && Accepted(book, p, next) && p.index > 0 && p.term > 0 && Top(book.log) <= p.index + 1
    ensures Kept(WithPost(book, p, next))
  {
    var w, f := p.batch.workflow, FilingFor(p);
    NamedNotBlank(w);
    PostFits(book, p, next);
    PostUnique(book, p);
    PostOwner(book, p, next);
    assert Ordered(book.log);
    hide Filed, Explained, ApplyAll, FilingOk, Unique, Ordered, Segment, History;
    ExplainedLonger(book, f, next);
    FiledLonger(book.log, f);
  }

  lemma {:induction false} PostOwner(book: Book, p: Post, next: Workflow)
    requires Kept(book) && Accepted(book, p, next)
    ensures next.id == p.batch.workflow
  {
    hide Filed, Explained, ApplyAll;
    var w, events := p.batch.workflow, p.batch.events;
    forall e | e in events ensures e.workflow == w { var k :| 0 <= k < |events|
        && events[k] == e; assert BatchMatches(p.batch, events[k]); }
    AppliedOwner(Lookup(book.states, w), events, w);
  }

  lemma {:induction false} PostFits(book: Book, p: Post, next: Workflow)
    requires Kept(book) && Accepted(book, p, next) && p.index > 0 && p.term > 0
    ensures FilingOk(FilingFor(p))
  {
    hide ApplyAll, Filed, Explained, Records;
    var f := FilingFor(p);
    NamedNotBlank(p.batch.request);
    NamedNotBlank(p.batch.workflow);
    AppliedWell(Lookup(book.states, p.batch.workflow), p.batch.events);
    forall k | 0 <= k < |f.events| ensures EventFits(f, k) { assert BatchMatches(p.batch, p.batch.events[k]); }
  }

  lemma {:induction false} PostUnique(book: Book, p: Post)
    requires Filed(book.log) && p.batch.request !in Records(book.log)
    ensures Unique(book.log + [FilingFor(p)])
  {
    hide FilingOk, Counting, Ordered;
    RecordFiled(book.log, p.batch.request);
  }

  // ----- Refused requests -----

  /** Refused requests are named, and were committed by a position. */
  predicate Noted(conflicts: map<(Id, Hash), Origin>, bound: nat) {
    forall k | k in conflicts :: k.0 != NO_ID && k.1 != NoHash && 0 < conflicts[k].index <= bound
        && conflicts[k].term > 0
  }

  lemma {:induction false} PostNoted(book: Book, p: Post, bound: nat)
    requires hide PostOne;
             PostOne(book, p).Ok? && Noted(book.conflicts, bound) && 0 < p.index <= bound && p.term > 0
    ensures Noted(PostOne(book, p).value.conflicts, bound)
  {
    hide ApplyAll, Accept, LedgerOf;
    NamedNotBlankIf(p.batch.request);
  }

  lemma {:induction false} PostsNoted(book: Book, posts: seq<Post>, bound: nat)
    requires hide PostAll;
             PostAll(book, posts).Ok? && Noted(book.conflicts, bound)
    requires forall i | 0 <= i < |posts| :: 0 < posts[i].index <= bound && posts[i].term > 0
    ensures Noted(PostAll(book, posts).value.conflicts, bound)
  {
    hide PostOne, Noted;
    if posts != [] {
      PostsNoted(book, posts[..|posts| - 1], bound);
      PostNoted(PostAll(book, posts[..|posts| - 1]).value, posts[|posts| - 1], bound);
    }
  }

  lemma {:induction false} RecordIs(log: seq<Filing>, r: Id)
    requires r in Records(log)
    ensures exists i ::
              0 <= i < |log| && log[i].request == r
              && Records(log)[r] == Record(log[i].hash, log[i].workflow, log[i].events)
  {
    if log[|log| - 1].request != r {
      RecordIs(log[..|log| - 1], r);
      var i :| 0 <= i < |log| - 1 && log[..|log| - 1][i].request == r
          && Records(log[..|log| - 1])[r] == Record(log[i].hash, log[i].workflow, log[i].events);
      assert log[i].request == r;
    }
  }

  /** A receipt's workflow has a state. */
  lemma {:induction false} FilingOwned(book: Book, i: nat)
    requires hide Kept;
             Kept(book) && i < |book.log|
    ensures book.log[i].workflow in book.states
  {
    hide ApplyAll, Taken, Unique, Counting;
    var f := book.log[i];
    assert FilingOk(f);
    if i < |book.log| - 1 { assert book.log[i].index <= book.log[|book.log| - 1].index; }
    var at := TakenHolds(book.log, i, 0, Top(book.log));
    var history := History(book.log, f.workflow);
    assert history != [];
    assert ApplyAll(None, history) == Ok(Lookup(book.states, f.workflow));
    AppliedExists(None, history);
  }

  function Workflows(log: seq<Filing>): set<Id> {
    set i | 0 <= i < |log| :: log[i].workflow
  }

  /** No workflow that has ended is open again later. */
  ghost predicate NoneRevived(before: Book, after: Book) {
    forall w | w in before.states && Terminal(before.states[w].status) :: w in after.states
        && Terminal(after.states[w].status)
  }

  /** Only workflows with an accepted receipt change. */
  ghost predicate OnlyTouched(before: Book, after: Book, touched: set<Id>) {
    forall w | w !in touched :: Lookup(after.states, w) == Lookup(before.states, w)
  }
}
