/** The resident engine of a store: it holds the workflows that have not ended, and looks the others up; applying
    committed batches to it, then evicting what ended, gives the resident part of the longer book, and answers as the
    book would. */
module Residents {
  import opened Base
  import opened Model
  import opened Ledgers
  import opened Retention
  import opened Filings
  import opened Archives

  /** What the engine holds is what the book says, and what it does not hold is as it was durable. */
  ghost predicate Covers(engine: Ledger, durable: Ledger, full: Ledger) {
    && (forall id | id in engine.states :: id in full.states && engine.states[id] == full.states[id])
    && (forall id | id !in engine.states :: Lookup(full.states, id) == Lookup(durable.states, id))
    && (forall r | r in engine.requests :: r in full.requests && engine.requests[r] == full.requests[r])
    && (forall r | r !in engine.requests :: LookupRecord(full, r) == LookupRecord(durable, r))
  }

  predicate Named(durable: Ledger) {
    NO_ID !in durable.states && NO_ID !in durable.requests
  }

  function Batches(posts: seq<Post>): seq<Batch> {
    seq(|posts|, i requires 0 <= i < |posts| => posts[i].batch)
  }

  function RequestIds(log: seq<Filing>): set<Id> {
    set i | 0 <= i < |log| :: log[i].request
  }

  lemma {:induction false} ResolvesAlike(engine: Ledger, durable: Ledger, full: Ledger, id: Id)
    requires Covers(engine, durable, full) && Named(durable)
    ensures ResolveState(engine, Stored(durable), id) == Ok(Lookup(full.states, id))
    ensures ResolveRequest(engine, Stored(durable), id) == Ok(LookupRecord(full, id))
  {
    assert id !in engine.states ==> Lookup(full.states, id) == Lookup(durable.states, id);
    assert id !in engine.requests ==> LookupRecord(full, id) == LookupRecord(durable, id);
  }

  lemma {:induction false} FullResolves(full: Ledger, id: Id)
    ensures ResolveState(full, NoLoaders, id) == Ok(Lookup(full.states, id))
    ensures ResolveRequest(full, NoLoaders, id) == Ok(LookupRecord(full, id))
  {
  }

  lemma {:induction false} CoversAccept(engine: Ledger, durable: Ledger, full: Ledger, request: Id, hash: Hash,
                                        workflow: Id, events: seq<Event>, next: Workflow)
    requires Covers(engine, durable, full)
    ensures Covers(Accept(engine, request, hash, workflow, events, next), durable,
            Accept(full, request, hash, workflow, events, next))
  {
    hide StoreIndex, UpdateActive, Counted;
  }

  /** A batch is accepted, repeated, in conflict or refused by the engine as by the whole book. */
  lemma {:induction false} AppliesAlike(engine: Ledger, durable: Ledger, full: Ledger, b: Batch)
    requires hide ApplyBatch, Covers;
             Covers(engine, durable, full) && Named(durable)
    ensures var x, y := ApplyBatch(engine, Stored(durable), b), ApplyBatch(full, NoLoaders, b);
            (x.Ok? <==> y.Ok?) && (x.Ok? ==> x.value.0 == y.value.0 && Covers(x.value.1, durable, y.value.1))
  {
    hide Covers, Accept, ApplyAll;
    ResolvesAlike(engine, durable, full, b.request);
    ResolvesAlike(engine, durable, full, b.workflow);
    FullResolves(full, b.request);
    FullResolves(full, b.workflow);
    hide ResolveState, ResolveRequest;
    var y := ApplyBatch(full, NoLoaders, b);
    if y.Ok? && y.value.0.Applied? && !y.value.0.outcome.duplicate {
      AppliedExists(Lookup(full.states, b.workflow), b.events);
      var next := ApplyAll(Lookup(full.states, b.workflow), b.events).value;
      CoversAccept(engine, durable, full, b.request, b.hash, b.workflow, b.events, next.value);
    }
  }

  predicate SameTables(a: Ledger, b: Ledger) {
    a.states == b.states && a.requests == b.requests
  }

  lemma {:induction false} CoversSame(engine: Ledger, durable: Ledger, a: Ledger, b: Ledger)
    requires Covers(engine, durable, a) && SameTables(a, b)
    ensures Covers(engine, durable, b)
  {
    forall r ensures LookupRecord(a, r) == LookupRecord(b, r) {}
  }

  lemma {:induction false} PostTables(book: Book, p: Post)
    requires hide ApplyBatch, LedgerOf, SameTables;
             PostOne(book, p).Ok?
    ensures SameTables(ApplyBatch(LedgerOf(book), NoLoaders, p.batch).value.1, LedgerOf(PostOne(book, p).value))
  {
    hide ApplyAll, StoreIndex, UpdateActive, Counted, IndexOf, ActiveOf;
    var after := PostOne(book, p).value;
    if after.log != book.log {
      assert after.log[..|book.log|] == book.log;
    }
  }

  /** The keys of the engine's tables after some accepted receipts. */
  ghost predicate Reaches(engine: Ledger, durable: Ledger, added: seq<Filing>) {
    && engine.states.Keys == Retained(durable).states.Keys + Workflows(added)
    && engine.requests.Keys == Retained(durable).requests.Keys + RequestIds(added)
    && Coherent(engine)
  }

  lemma {:induction false} ReachesOne(engine: Ledger, durable: Ledger, p: Post, added: seq<Filing>)
    requires hide ApplyBatch, Reaches;
             Reaches(engine, durable, added) && ApplyBatch(engine, Stored(durable), p.batch).Ok?
    ensures var (application, after) := ApplyBatch(engine, Stored(durable), p.batch).value;
            Reaches(after, durable, if application.Applied? && !application.outcome.duplicate
                then added + [FilingFor(p)] else added)
  {
    hide ApplyAll, StoreIndex, UpdateActive, Counted, IndexOf, ActiveOf, Retained, Coherent, ResolveState,
        ResolveRequest;
    var (application, after) := ApplyBatch(engine, Stored(durable), p.batch).value;
    if application.Applied? && !application.outcome.duplicate {
      var more := added + [FilingFor(p)];
      assert more[|added|] == FilingFor(p);
      assert Workflows(more) == Workflows(added) + {p.batch.workflow} by { Grows(added, FilingFor(p)); }
      assert RequestIds(more) == RequestIds(added) + {p.batch.request} by { Grows(added, FilingFor(p)); }
      var next := after.states[p.batch.workflow];
      AcceptCoherent(engine, p.batch.request, p.batch.hash, p.batch.workflow, p.batch.events, next);
    }
  }

  lemma {:induction false} Grows(log: seq<Filing>, f: Filing)
    ensures Workflows(log + [f]) == Workflows(log) + {f.workflow}
            && RequestIds(log + [f]) == RequestIds(log) + {f.request}
  {
    var all := log + [f];
    assert all[|log|] == f;
    forall x | x in Workflows(log) ensures x in Workflows(all) { var i :| 0 <= i < |log|
        && log[i].workflow == x; assert all[i] == log[i]; }
    forall x | x in RequestIds(log) ensures x in RequestIds(all) { var i :| 0 <= i < |log|
        && log[i].request == x; assert all[i] == log[i]; }
  }

  lemma {:induction false} RetainedCovers(durable: Ledger)
    ensures Covers(Retained(durable), durable, durable) && Coherent(Retained(durable))
            && Reaches(Retained(durable), durable, [])
  {
    hide IndexOf;
  }

  predicate IsAccepted(application: Application) {
    application.Applied? && !application.outcome.duplicate
  }

  /** The receipts of the accepted posts. */
  function AcceptedOf(posts: seq<Post>, applications: seq<Application>): seq<Filing>
    requires |applications| == |posts|
  {
    if posts == [] then []
    else
      var n := |posts| - 1;
      AcceptedOf(posts[..n], applications[..n]) + (if IsAccepted(applications[n]) then [FilingFor(posts[n])] else [])
  }

  /** One more answer: a refused request is noted with the last place it was refused at. */
  function NotedOne(conflicts: map<(Id, Hash), Origin>, p: Post, application: Application): map<(Id, Hash), Origin> {
    if application.Conflict? then conflicts[(p.batch.request, p.batch.hash) := Origin(p.index, p.term)] else conflicts
  }

  /** The refused requests after some answers. */
  function NotedOf(conflicts: map<(Id, Hash), Origin>, posts: seq<Post>,
                   applications: seq<Application>): map<(Id, Hash), Origin>
    requires |applications| == |posts|
  {
    if posts == [] then conflicts
    else
      var n := |posts| - 1;
      NotedOne(NotedOf(conflicts, posts[..n], applications[..n]), posts[n], applications[n])
  }

  /** What applying some posts to the engine comes to. */
  ghost predicate Follows(durable: Ledger, book: Book, after: Book, posts: seq<Post>,
                          applied: (seq<Application>, Ledger)) {
    hide AcceptedOf, Covers, LedgerOf, Reaches;
    && |applied.0| == |posts| && after.log == book.log + AcceptedOf(posts, applied.0)
    && after.conflicts == NotedOf(book.conflicts, posts, applied.0)
    && Covers(applied.1, durable, LedgerOf(after))
    && Reaches(applied.1, durable, after.log[|book.log|..])
  }

  /** The engine takes a list of committed batches exactly as the book does. */
  lemma {:induction false} EngineFollows(engine: Ledger, durable: Ledger, book: Book, posts: seq<Post>)
    requires hide ApplyBatches, Covers, Follows, LedgerOf, PostAll, Reaches;
             durable == LedgerOf(book) && Named(durable) && Covers(engine, durable, durable)
             && Reaches(engine, durable, [])
    ensures ApplyBatches(engine, Stored(durable), Batches(posts)).Ok? <==> PostAll(book, posts).Ok?
    ensures PostAll(book, posts).Ok? ==>
              Follows(durable, book, PostAll(book, posts).value, posts,
                  ApplyBatches(engine, Stored(durable), Batches(posts)).value)
  {
    hide ApplyBatch, PostOne, Covers, Reaches, LedgerOf, Named, NotedOne;
    if posts == [] {
      assert book.log[|book.log|..] == [];
    } else {
      var front, last := posts[..|posts| - 1], posts[|posts| - 1];
      assert Batches(posts)[..|posts| - 1] == Batches(front);
      EngineFollows(engine, durable, book, front);
      if PostAll(book, front).Ok? {
        var before := PostAll(book, front).value;
        var mid := ApplyBatches(engine, Stored(durable), Batches(front)).value;
        FollowsOne(mid.1, durable, book, before, last);
        var step := ApplyBatch(mid.1, Stored(durable), last.batch);
        if step.Ok? { assert (mid.0 + [step.value.0])[..|front|] == mid.0; }
      }
    }
  }

  lemma {:induction false} FollowsOne(mid: Ledger, durable: Ledger, book: Book, before: Book, p: Post)
    requires hide ApplyBatch, Covers, LedgerOf, PostOne, Reaches;
             Named(durable) && book.log <= before.log && Covers(mid, durable, LedgerOf(before))
             && Reaches(mid, durable, before.log[|book.log|..])
    ensures ApplyBatch(mid, Stored(durable), p.batch).Ok? <==> PostOne(before, p).Ok?
    ensures PostOne(before, p).Ok? ==>
              var after, engine := PostOne(before, p).value, ApplyBatch(mid, Stored(durable), p.batch).value.1;
              && after.log == before.log + (if IsAccepted(ApplyBatch(mid, Stored(durable), p.batch).value.0)
                  then [FilingFor(p)] else [])
              && after.conflicts == NotedOne(before.conflicts, p, ApplyBatch(mid, Stored(durable), p.batch).value.0)
              && Covers(engine, durable, LedgerOf(after)) && Reaches(engine, durable, after.log[|book.log|..])
  {
    hide ApplyBatch, Covers, Reaches, LedgerOf, Named;
    AppliesAlike(mid, durable, LedgerOf(before), p.batch);
    if PostOne(before, p).Ok? {
      PostTables(before, p);
      var full := ApplyBatch(LedgerOf(before), NoLoaders, p.batch).value.1;
      var engine := ApplyBatch(mid, Stored(durable), p.batch).value.1;
      CoversSame(engine, durable, full, LedgerOf(PostOne(before, p).value));
      ReachesOne(mid, durable, p, before.log[|book.log|..]);
      assert (before.log + [FilingFor(p)])[|book.log|..] == before.log[|book.log|..] + [FilingFor(p)];
    }
  }

  // ----- Evicting what ended -----

  function EvictAll(ledger: Ledger, ids: seq<Id>): Ledger {
    if ids == [] then ledger else EvictTerminal(EvictAll(ledger, ids[..|ids| - 1]), ids[|ids| - 1])
  }

  predicate Ended(ledger: Ledger, id: Id) {
    id in ledger.states && Terminal(ledger.states[id].status)
  }

  lemma {:induction false} EvictedAll(ledger: Ledger, ids: seq<Id>)
    requires hide Coherent, EvictAll;
             Coherent(ledger)
    ensures var after := EvictAll(ledger, ids);
            && Coherent(after)
            && (forall id :: id in after.states <==> id in ledger.states && !(id in ids && Ended(ledger, id)))
            && (forall id | id in after.states :: after.states[id] == ledger.states[id])
            && (forall r :: r in after.requests <==>
                  r in ledger.requests
                  && !(ledger.requests[r].workflow in ids && Ended(ledger, ledger.requests[r].workflow)))
            && (forall r | r in after.requests :: after.requests[r] == ledger.requests[r])
  {
    hide Coherent;
    if ids != [] {
      var front, last := ids[..|ids| - 1], ids[|ids| - 1];
      assert ids == front + [last];
      EvictedAll(ledger, front);
      EvictCoherent(EvictAll(ledger, front), last);
    }
  }

  lemma {:induction false} PostsReviveNone(book: Book, posts: seq<Post>)
    requires hide PostAll;
             PostAll(book, posts).Ok?
    ensures NoneRevived(book, PostAll(book, posts).value)
  {
    hide PostOne;
    if posts != [] {
      PostsReviveNone(book, posts[..|posts| - 1]);
      PostRevivesNone(PostAll(book, posts[..|posts| - 1]).value, posts[|posts| - 1]);
    }
  }

  lemma {:induction false} PostRevivesNone(book: Book, p: Post)
    requires hide PostOne;
             PostOne(book, p).Ok?
    ensures NoneRevived(book, PostOne(book, p).value)
  {
    hide PostOne, ApplyAll;
    if PostOne(book, p).value.log == book.log {
      PostElse(book, p);
    } else {
      PostAccepts(book, p);
      var next :| Accepted(book, p, next) && PostOne(book, p).value == WithPost(book, p, next);
      if p.batch.workflow in book.states && Terminal(book.states[p.batch.workflow].status) {
        EndedStays(Lookup(book.states, p.batch.workflow), p.batch.events);
      }
    }
  }

  /** Receipts name workflows of the book. */
  ghost predicate Owned(book: Book) {
    forall r | r in Records(book.log) :: Records(book.log)[r].workflow in book.states
  }

  lemma {:induction false} PostsTouch(book: Book, posts: seq<Post>)
    requires hide PostAll;
             PostAll(book, posts).Ok?
    ensures var after := PostAll(book, posts).value;
            book.log <= after.log && OnlyTouched(book, after, Workflows(after.log[|book.log|..]))
  {
    hide PostOne, Workflows, Accepted, ApplyAll;
    var after := PostAll(book, posts).value;
    if posts != [] {
      var before, p := PostAll(book, posts[..|posts| - 1]).value, posts[|posts| - 1];
      PostsTouch(book, posts[..|posts| - 1]);
      hide PostAll;
      if after.log == before.log {
        PostElse(before, p);
      } else {
        PostAccepts(before, p);
        var next :| Accepted(before, p, next) && after == WithPost(before, p, next);
        assert after.log[|book.log|..] == before.log[|book.log|..] + [FilingFor(p)];
        Grows(before.log[|book.log|..], FilingFor(p));
      }
    }
  }

  ghost predicate Settling(engine: Ledger, book: Book, after: Book, touched: set<Id>) {
    && NoneRevived(book, after) && OnlyTouched(book, after, touched) && Covers(engine, LedgerOf(book), LedgerOf(after))
    && engine.states.Keys == Retained(LedgerOf(book)).states.Keys + touched
  }

  lemma {:induction false} StateStays(engine: Ledger, book: Book, after: Book, touched: set<Id>, id: Id)
    requires hide Settling;
             Settling(engine, book, after, touched)
    ensures id in engine.states && !(id in touched && Ended(engine, id)) <==>
              id in after.states && !Terminal(after.states[id].status)
    ensures id in engine.states ==> id in after.states && engine.states[id] == after.states[id]
  {
    hide Records, IndexOf, NoneRevived, LookupRecord;
    assert id !in engine.states ==> Lookup(after.states, id) == Lookup(book.states, id);
    assert id in Retained(LedgerOf(book)).states.Keys <==> id in book.states && !Terminal(book.states[id].status);
    assert id !in touched ==> Lookup(after.states, id) == Lookup(book.states, id);
  }

  /** Receipts are never replaced, and new ones belong to touched workflows. */
  ghost predicate OnlyAdded(before: Book, after: Book, added: seq<Filing>) {
    && (forall r | r in Records(before.log) ::
          r in Records(after.log) && Records(after.log)[r] == Records(before.log)[r])
    && (forall r | r in RequestIds(added) ::
          r in Records(after.log) && Records(after.log)[r].workflow in Workflows(added))
  }

  lemma {:induction false} RequestStays(engine: Ledger, book: Book, after: Book, added: seq<Filing>, r: Id)
    requires hide LedgerOf, OnlyAdded, Retained, Settling;
             Settling(engine, book, after, Workflows(added)) && Owned(book) && Owned(after)
             && OnlyAdded(book, after, added)
    requires engine.requests.Keys == Retained(LedgerOf(book)).requests.Keys + RequestIds(added)
    ensures r in engine.requests ==> r in Records(after.log) && engine.requests[r] == Records(after.log)[r]
    ensures r in engine.requests && !(engine.requests[r].workflow in Workflows(added)
            && Ended(engine, engine.requests[r].workflow)) <==>
            r in Records(after.log) && !Terminal(after.states[Records(after.log)[r].workflow].status)
  {
    var touched := Workflows(added);
    assert r in engine.requests ==> r in Records(after.log) && engine.requests[r] == Records(after.log)[r];
    assert r !in engine.requests ==> LookupRecord(LedgerOf(after), r) == LookupRecord(LedgerOf(book), r);
    RetainedRequest(book, r);
    if r in Records(after.log) {
      var w := Records(after.log)[r].workflow;
      StateStays(engine, book, after, touched, w);
      RetainedState(book, w);
      hide Records, IndexOf, RequestIds, Workflows, Covers, Retained, LedgerOf;
      assert r in engine.requests ==> w in engine.states;
      assert r !in engine.requests ==> r in Records(book.log) && w in book.states && Terminal(book.states[w].status);
    }
  }

  lemma {:induction false} RetainedRequest(book: Book, r: Id)
    requires hide LedgerOf, Retained;
             Owned(book)
    ensures r in Retained(LedgerOf(book)).requests <==>
            r in Records(book.log) && !Terminal(book.states[Records(book.log)[r].workflow].status)
  {
    hide Records, IndexOf;
  }

  lemma {:induction false} RetainedState(book: Book, w: Id)
    ensures w in Retained(LedgerOf(book)).states <==> w in book.states && !Terminal(book.states[w].status)
  {
    hide Records, IndexOf;
  }

  lemma {:induction false} EvictedStates(engine: Ledger, book: Book, after: Book, ids: seq<Id>, touched: set<Id>)
    requires Coherent(engine) && Settling(engine, book, after, touched) && forall w :: w in ids <==> w in touched
    ensures EvictAll(engine, ids).states == Retained(LedgerOf(after)).states
  {
    var left, kept := EvictAll(engine, ids).states, Retained(LedgerOf(after)).states;
    EvictedAll(engine, ids);
    forall id ensures id in kept <==> id in after.states && !Terminal(after.states[id].status) {
      RetainedState(after, id);
    }
    assert forall id | id in kept :: kept[id] == after.states[id];
    hide EvictAll, Coherent, Settling, Retained, LedgerOf, Ended;
    forall id ensures (id in left <==> id in kept) && (id in left ==> left[id] == kept[id]) {
      StateStays(engine, book, after, touched, id);
    }
  }

  lemma {:induction false} EvictedRequest(engine: Ledger, book: Book, after: Book, ids: seq<Id>, added: seq<Filing>,
                                          r: Id)
    requires Settling(engine, book, after, Workflows(added)) && Owned(book) && Owned(after)
             && OnlyAdded(book, after, added)
    requires Reaches(engine, LedgerOf(book), added) && forall w :: w in ids <==> w in Workflows(added)
    ensures LookupRecord(EvictAll(engine, ids), r) == LookupRecord(Retained(LedgerOf(after)), r)
  {
    hide LedgerOf;
    assert Coherent(engine) && engine.requests.Keys == Retained(LedgerOf(book)).requests.Keys + RequestIds(added);
    EvictedAll(engine, ids);
    hide EvictAll, Coherent, Settling, Ended, OnlyAdded, Records, Workflows, RequestIds, IndexOf, ActiveOf;
    RetainedRequest(after, r);
    hide Reaches, Owned;
    RequestStays(engine, book, after, added, r);
  }

  lemma {:induction false} SameRequests(a: Ledger, b: Ledger)
    requires forall r :: LookupRecord(a, r) == LookupRecord(b, r)
    ensures a.requests == b.requests
  {
    forall r ensures (r in a.requests <==> r in b.requests) && (r in a.requests ==> a.requests[r] == b.requests[r]) {
      assert LookupRecord(a, r) == LookupRecord(b, r);
    }
  }

  /** After evicting what ended among the touched workflows, the engine is the resident part of the longer book. */
  lemma {:induction false} EvictedIsRetained(engine: Ledger, book: Book, after: Book, ids: seq<Id>, added: seq<Filing>)
    requires Settling(engine, book, after, Workflows(added)) && Owned(book) && Owned(after)
             && OnlyAdded(book, after, added)
    requires Reaches(engine, LedgerOf(book), added) && forall w :: w in ids <==> w in Workflows(added)
    ensures var left := EvictAll(engine, ids); SameTables(left, Retained(LedgerOf(after))) && Coherent(left)
  {
    assert Coherent(engine);
    hide EvictAll, Coherent, Settling, Retained, LedgerOf, OnlyAdded, Reaches, Workflows, Owned;
    EvictedStates(engine, book, after, ids, Workflows(added));
    forall r ensures LookupRecord(EvictAll(engine, ids), r) == LookupRecord(Retained(LedgerOf(after)), r) {
      EvictedRequest(engine, book, after, ids, added, r);
    }
    hide LookupRecord;
    SameRequests(EvictAll(engine, ids), Retained(LedgerOf(after)));
    EvictedAll(engine, ids);
  }

  // ----- Committed posts on a kept book -----

  /** Positions of committed posts: past the book, in order, each with a term. */
  predicate Positioned(log: seq<Filing>, posts: seq<Post>) {
    && (forall i | 0 <= i < |posts| :: posts[i].index > 0 && posts[i].term > 0 && Top(log) <= posts[i].index)
    && (forall i, j | 0 <= i < j < |posts| :: posts[i].index <= posts[j].index)
  }

  /** Every receipt added by some posts is at a position of one of them. */
  ghost predicate Within(before: Book, after: Book, posts: seq<Post>) {
    && before.log <= after.log
    && (posts == [] ==> after == before)
    && (posts != [] ==> Top(after.log) <= posts[|posts| - 1].index + 1)
    && (forall i | |before.log| <= i < |after.log| :: Top(before.log) <= after.log[i].index)
  }

  lemma {:induction false} PostsKept(book: Book, posts: seq<Post>)
    requires hide Kept, OnlyAdded, PostAll;
             Kept(book) && Positioned(book.log, posts) && PostAll(book, posts).Ok?
    ensures Kept(PostAll(book, posts).value) && Within(book, PostAll(book, posts).value, posts)
    ensures OnlyAdded(book, PostAll(book, posts).value, PostAll(book, posts).value.log[|book.log|..])
  {
    hide PostOne, Kept, OnlyAdded;
    if posts == [] {
      assert book.log[|book.log|..] == [];
      NothingAdded(book);
    } else {
      var front, p := posts[..|posts| - 1], posts[|posts| - 1];
      PostsKept(book, front);
      var before := PostAll(book, front).value;
      hide PostAll;
      if PostOne(before, p).value.log == before.log {
        PostElse(before, p);
        SameKept(book, before, PostOne(before, p).value, front, posts);
      } else {
        PostAccepts(before, p);
        var next :| Accepted(before, p, next) && PostOne(before, p).value == WithPost(before, p, next);
        hide Accepted;
        if front != [] { assert front[|front| - 1].index <= p.index; }
        PostKept(before, p, next);
        MoreAdded(book, before, p, next);
      }
    }
  }

  lemma {:induction false} SameKept(book: Book, before: Book, after: Book, front: seq<Post>, posts: seq<Post>)
    requires hide Kept, OnlyAdded;
             Kept(before) && Within(book, before, front) && OnlyAdded(book, before, before.log[|book.log|..])
    requires after == before.(conflicts := after.conflicts) && posts != [] && front == posts[..|posts| - 1]
             && Positioned(book.log, posts)
    ensures Kept(after) && Within(book, after, posts) && OnlyAdded(book, after, after.log[|book.log|..])
  {
    hide Filed, ApplyAll, Records, Workflows, RequestIds;
    var p := posts[|posts| - 1];
    if front != [] { assert front[|front| - 1].index <= p.index; }
  }

  lemma {:induction false} NothingAdded(book: Book)
    ensures OnlyAdded(book, book, [])
  {
  }

  lemma {:induction false} MoreAdded(book: Book, before: Book, p: Post, next: Workflow)
    requires hide Accepted, OnlyAdded;
             book.log <= before.log && OnlyAdded(book, before, before.log[|book.log|..]) && Accepted(before, p, next)
    ensures var after := WithPost(before, p, next);
            OnlyAdded(book, after, after.log[|book.log|..])
  {
    hide Records, RequestIds, Workflows, ApplyAll;
    var log := before.log + [FilingFor(p)];
    assert log[|book.log|..] == before.log[|book.log|..] + [FilingFor(p)];
    Grows(before.log[|book.log|..], FilingFor(p));
    RecordsLonger(before.log, FilingFor(p));
  }

  lemma {:induction false} RecordsLonger(log: seq<Filing>, f: Filing)
    ensures Records(log + [f]) == Records(log)[f.request := Record(f.hash, f.workflow, f.events)]
  {
    assert (log + [f])[..|log|] == log;
  }

  lemma {:induction false} KeptOwned(book: Book)
    requires Kept(book)
    ensures Owned(book) && Named(LedgerOf(book))
  {
    forall r | r in Records(book.log) ensures Records(book.log)[r].workflow in book.states && r != NO_ID {
      RecordIs(book.log, r);
      var i :| 0 <= i < |book.log| && book.log[i].request == r
          && Records(book.log)[r] == Record(book.log[i].hash, book.log[i].workflow, book.log[i].events);
      FilingOwned(book, i);
      assert FilingOk(book.log[i]);
    }
    hide Records, Filed, Explained, IndexOf;
  }

  lemma {:induction false} SameCovers(engine: Ledger, book: Book)
    requires SameTables(engine, Retained(LedgerOf(book))) && Coherent(engine)
    ensures Covers(engine, LedgerOf(book), LedgerOf(book)) && Reaches(engine, LedgerOf(book), [])
  {
    hide Coherent, Records;
    RetainedCovers(LedgerOf(book));
  }

  /** The resident engine of a store accepts, repeats and refuses committed batches exactly as the book of
      everything does; and once what ended is evicted, it is the resident engine of the longer book. */
  lemma {:induction false} ResidentApplies(engine: Ledger, book: Book, posts: seq<Post>, ids: seq<Id>)
    requires hide ApplyBatches, Coherent, EvictAll, Follows, Kept, LedgerOf, PostAll, Retained;
             Kept(book) && Positioned(book.log, posts) && SameTables(engine, Retained(LedgerOf(book)))
             && Coherent(engine)
    ensures ApplyBatches(engine, Stored(LedgerOf(book)), Batches(posts)).Ok? <==> PostAll(book, posts).Ok?
    ensures PostAll(book, posts).Ok? ==>
              var after, applied := PostAll(book, posts).value,
                  ApplyBatches(engine, Stored(LedgerOf(book)), Batches(posts)).value;
              && Kept(after) && Within(book, after, posts) && Follows(LedgerOf(book), book, after, posts, applied)
              && ((forall w :: w in ids <==> w in Workflows(after.log[|book.log|..])) ==>
                    SameTables(EvictAll(applied.1, ids), Retained(LedgerOf(after)))
                        && Coherent(EvictAll(applied.1, ids)))
  {
    hide *;
    KeptOwned(book);
    SameCovers(engine, book);
    EngineFollows(engine, LedgerOf(book), book, posts);
    if PostAll(book, posts).Ok? {
      var after, applied := PostAll(book, posts).value,
          ApplyBatches(engine, Stored(LedgerOf(book)), Batches(posts)).value;
      PostsKept(book, posts);
      KeptOwned(after);
      SettlesAfter(book, posts, applied);
      if forall w :: w in ids <==> w in Workflows(after.log[|book.log|..]) {
        EvictedIsRetained(applied.1, book, after, ids, after.log[|book.log|..]);
      }
    }
  }

  lemma {:induction false} SettlesAfter(book: Book, posts: seq<Post>, applied: (seq<Application>, Ledger))
    requires hide Follows, LedgerOf, PostAll, Reaches, Settling;
             PostAll(book, posts).Ok? && Follows(LedgerOf(book), book, PostAll(book, posts).value, posts, applied)
    ensures var after := PostAll(book, posts).value;
            && book.log <= after.log && Reaches(applied.1, LedgerOf(book), after.log[|book.log|..])
            && Settling(applied.1, book, after, Workflows(after.log[|book.log|..]))
  {
    hide PostAll, Covers, Retained, LedgerOf, Workflows, RequestIds, Coherent, NoneRevived, OnlyTouched;
    PostsReviveNone(book, posts);
    PostsTouch(book, posts);
  }

  // ----------------------------------------------------------------------------------------------------
  // What applying committed entries answers: the outcomes of applyEntries in internal/storage/application.go. A
  // repeated request is answered with the place of its first acceptance, in the group or in the records.
  // ----------------------------------------------------------------------------------------------------

  /** Outcome, with the place it was committed at. */
  datatype Report = Report(request: Id, hash: Hash, application: Application, origin: Origin)

  /** A receipt of this request and hash was committed at this place. */
  predicate FiledAt(log: seq<Filing>, request: Id, hash: Hash, origin: Origin) {
    exists i :: 0 <= i < |log| && log[i].request == request && log[i].hash == hash
                && origin == Origin(log[i].index, log[i].term)
  }

  /** A conflict is reported where it was met; anything else where its receipt was filed. */
  predicate Reports(r: Report, p: Post, application: Application, log: seq<Filing>) {
    && r.request == p.batch.request && r.hash == p.batch.hash && r.application == application
    && (if application.Conflict? then r.origin == Origin(p.index, p.term)
        else FiledAt(log, r.request, r.hash, r.origin))
  }

  /** The answers are those that the book gives, post after post. */
  ghost predicate Told(book: Book, posts: seq<Post>, applications: seq<Application>) {
    hide PostAll, ApplyBatch, LedgerOf;
    && |applications| == |posts|
    && (posts != [] ==>
          var n := |posts| - 1;
          && Told(book, posts[..n], applications[..n])
          && match PostAll(book, posts[..n])
             case Err(_) => false
             case Ok(before) =>
               match ApplyBatch(LedgerOf(before), NoLoaders, posts[n].batch)
               case Err(_) => false
               case Ok(step) => step.0 == applications[n])
  }

  /** An engine that holds the active workflows gives the book's answers. */
  lemma {:induction false} EngineTells(engine: Ledger, durable: Ledger, book: Book, posts: seq<Post>)
    requires hide ApplyBatches, Covers, LedgerOf, Reaches, Told;
             durable == LedgerOf(book) && Named(durable) && Covers(engine, durable, durable)
             && Reaches(engine, durable, []) && ApplyBatches(engine, Stored(durable), Batches(posts)).Ok?
    ensures Told(book, posts, ApplyBatches(engine, Stored(durable), Batches(posts)).value.0)
  {
    hide ApplyBatch, PostOne, Covers, Reaches, LedgerOf, Named, Stored;
    if posts != [] {
      var front, last := posts[..|posts| - 1], posts[|posts| - 1];
      assert Batches(posts)[..|posts| - 1] == Batches(front);
      EngineTells(engine, durable, book, front);
      EngineFollows(engine, durable, book, front);
      var mid := ApplyBatches(engine, Stored(durable), Batches(front)).value;
      AppliesAlike(mid.1, durable, LedgerOf(PostAll(book, front).value), last.batch);
      var step := ApplyBatch(mid.1, Stored(durable), last.batch).value;
      assert (mid.0 + [step.0])[..|front|] == mid.0;
    }
  }

  /** A repeated request is filed, under the same hash. */
  lemma {:induction false} RepeatFiled(book: Book, batch: Batch, application: Application)
    requires hide ApplyBatch, LedgerOf;
             ApplyBatch(LedgerOf(book), NoLoaders, batch).Ok?
             && ApplyBatch(LedgerOf(book), NoLoaders, batch).value.0 == application
    requires application.Applied? && application.outcome.duplicate
    ensures exists i :: 0 <= i < |book.log| && book.log[i].request == batch.request && book.log[i].hash == batch.hash
  {
    hide ApplyAll, Records, Accept, IndexOf, ActiveOf;
    RecordIs(book.log, batch.request);
  }

  /** The search of applyEntries through the receipts of the group, the latest first. */
  method FindAccepted(accepted: seq<Filing>, request: Id, hash: Hash) returns (origin: Option<Origin>)
    ensures origin.Some? ==> FiledAt(accepted, request, hash, origin.value)
    ensures origin.None? ==>
              forall i | 0 <= i < |accepted| :: !(accepted[i].request == request && accepted[i].hash == hash)
  {
    var i := |accepted|;
    while i > 0
      invariant 0 <= i <= |accepted|
      invariant forall j | i <= j < |accepted| :: !(accepted[j].request == request && accepted[j].hash == hash)
    {
      i := i - 1;
      if accepted[i].request == request && accepted[i].hash == hash {
        return Some(Origin(accepted[i].index, accepted[i].term));
      }
    }
    return None;
  }

  predicate Known(log: seq<Filing>, request: Id, hash: Hash) {
    exists i :: 0 <= i < |log| && log[i].request == request && log[i].hash == hash
  }

  /** The place of a repeated request: in the group, or in its stored receipt. Refused without one. */
  method FindOrigin(accepted: seq<Filing>, slips: map<Id, Slip>, request: Id, hash: Hash, ghost log: seq<Filing>)
    returns (origin: Option<Origin>)
    requires Filled(log) && slips == Slips(log) && Unique(log)
    ensures origin.Some? ==> FiledAt(log + accepted, request, hash, origin.value)
    ensures Known(log + accepted, request, hash) ==> origin.Some?
  {
    hide Slips, Unique, FiledAt;
    origin := FindAccepted(accepted, request, hash);
    if origin.Some? {
      FiledLater(log, accepted, request, hash, origin.value);
    } else if request in slips && slips[request].hash == hash {
      origin := Some(Origin(slips[request].index, slips[request].term));
      SlipPlace(log, request);
      FiledEarlier(log, accepted, request, hash, origin.value);
    } else {
      NotKnown(log, accepted, request, hash);
    }
  }

  lemma {:induction false} NotKnown(log: seq<Filing>, accepted: seq<Filing>, request: Id, hash: Hash)
    requires Filled(log) && Unique(log) && !(request in Slips(log) && Slips(log)[request].hash == hash)
    requires forall i | 0 <= i < |accepted| :: !(accepted[i].request == request && accepted[i].hash == hash)
    ensures !Known(log + accepted, request, hash)
  {
    hide Slips;
    forall i | 0 <= i < |log + accepted|
      ensures !((log + accepted)[i].request == request && (log + accepted)[i].hash == hash)
    {
      if i < |log| { SlipFiled(log, i); } else { assert (log + accepted)[i] == accepted[i - |log|]; }
    }
  }

  lemma {:induction false} SlipPlace(log: seq<Filing>, request: Id)
    requires Filled(log) && Unique(log) && request in Slips(log)
    ensures var slip := Slips(log)[request]; FiledAt(log, request, slip.hash, Origin(slip.index, slip.term))
  {
    hide Slips;
    SlipsAreFiled(log, request);
    var i :| 0 <= i < |log| && log[i].request == request;
    SlipFiled(log, i);
  }

  lemma {:induction false} FiledLater(log: seq<Filing>, accepted: seq<Filing>, request: Id, hash: Hash, origin: Origin)
    requires FiledAt(accepted, request, hash, origin)
    ensures FiledAt(log + accepted, request, hash, origin)
  {
    var i :| 0 <= i < |accepted| && accepted[i].request == request && accepted[i].hash == hash
             && origin == Origin(accepted[i].index, accepted[i].term);
    assert (log + accepted)[|log| + i] == accepted[i];
  }

  lemma {:induction false} FiledEarlier(log: seq<Filing>, more: seq<Filing>, request: Id, hash: Hash, origin: Origin)
    requires FiledAt(log, request, hash, origin)
    ensures FiledAt(log + more, request, hash, origin)
  {
    var i :| 0 <= i < |log| && log[i].request == request && log[i].hash == hash
             && origin == Origin(log[i].index, log[i].term);
    assert (log + more)[i] == log[i];
  }

  /** What is told adds to the book exactly the receipts of what was accepted. */
  lemma {:induction false} ToldLog(book: Book, posts: seq<Post>, applications: seq<Application>)
    requires hide Told, PostAll, AcceptedOf;
             Told(book, posts, applications) && |applications| == |posts|
    ensures PostAll(book, posts).Ok? && PostAll(book, posts).value.log == book.log + AcceptedOf(posts, applications)
  {
    hide ApplyBatch, LedgerOf;
    if posts != [] { ToldLog(book, posts[..|posts| - 1], applications[..|posts| - 1]); }
  }

  lemma {:induction false} ToldPrefix(book: Book, posts: seq<Post>, applications: seq<Application>, n: nat)
    requires hide Told;
             Told(book, posts, applications) && n <= |posts| == |applications|
    ensures Told(book, posts[..n], applications[..n])
  {
    hide ApplyBatch, LedgerOf, PostAll;
    if n == |posts| {
      assert posts[..n] == posts && applications[..n] == applications;
    } else {
      var k := |posts| - 1;
      ToldPrefix(book, posts[..k], applications[..k], n);
      assert posts[..k][..n] == posts[..n] && applications[..k][..n] == applications[..n];
    }
  }

  /** A repeated request is among the receipts so far. */
  lemma {:induction false} RepeatKnown(book: Book, posts: seq<Post>, applications: seq<Application>, n: nat)
    requires hide Told, Known, AcceptedOf;
             Told(book, posts, applications) && n < |posts| == |applications|
    requires applications[n].Applied? && applications[n].outcome.duplicate
    ensures Known(book.log + AcceptedOf(posts[..n], applications[..n]), posts[n].batch.request, posts[n].batch.hash)
  {
    hide ApplyBatch, LedgerOf, PostAll, AcceptedOf;
    ToldPrefix(book, posts, applications, n + 1);
    assert posts[..n + 1][..n] == posts[..n] && applications[..n + 1][..n] == applications[..n];
    ToldLog(book, posts[..n], applications[..n]);
    RepeatFiled(PostAll(book, posts[..n]).value, posts[n].batch, applications[n]);
  }

  /** The outcomes of a group: never refused, and a repeated request has the place of its first acceptance. */
  method ReportAll(posts: seq<Post>, applications: seq<Application>, slips: map<Id, Slip>, ghost book: Book)
    returns (ok: bool, reports: seq<Report>)
    requires hide Told, Slips;
             Told(book, posts, applications) && Filled(book.log) && slips == Slips(book.log) && Unique(book.log)
             && |applications| == |posts|
    ensures ok && |reports| == |posts|
    ensures forall i | 0 <= i < |posts| ::
              Reports(reports[i], posts[i], applications[i], book.log + AcceptedOf(posts, applications))
  {
    hide Told, Reports, Slips, Unique, AcceptedOf, Known, Filled;
    reports := [];
    var accepted: seq<Filing> := [];
    assert accepted == AcceptedOf(posts[..0], applications[..0]) by { NoneAccepted(posts, applications); }
    for n := 0 to |posts|
      invariant |reports| == n && accepted == AcceptedOf(posts[..n], applications[..n])
      invariant forall i | 0 <= i < n :: Reports(reports[i], posts[i], applications[i], book.log + accepted)
    {
      var p, application := posts[n], applications[n];
      var origin := Origin(p.index, p.term);
      ghost var before := accepted;
      if application.Applied? && application.outcome.duplicate {
        RepeatKnown(book, posts, applications, n);
        var found := FindOrigin(accepted, slips, p.batch.request, p.batch.hash, book.log);
        if found.None? { return false, reports; }
        origin := found.value;
      } else if application.Applied? {
        accepted := accepted + [FilingFor(p)];
      }
      AcceptedNext(posts, applications, n);
      ReportMade(book.log, before, p, application, origin);
      ReportsStay(posts, applications, reports, n, book.log, before, accepted);
      reports := reports + [Report(p.batch.request, p.batch.hash, application, origin)];
    }
    assert posts[..|posts|] == posts && applications[..|posts|] == applications;
    ok := true;
  }

  lemma {:induction false} NoneAccepted(posts: seq<Post>, applications: seq<Application>)
    requires |applications| == |posts|
    ensures AcceptedOf(posts[..0], applications[..0]) == []
  {
  }

  lemma {:induction false} AcceptedNext(posts: seq<Post>, applications: seq<Application>, n: nat)
    requires n < |posts| == |applications|
    ensures AcceptedOf(posts[..n + 1], applications[..n + 1]) ==
            AcceptedOf(posts[..n], applications[..n])
            + (if IsAccepted(applications[n]) then [FilingFor(posts[n])] else [])
  {
    assert posts[..n + 1][..n] == posts[..n] && applications[..n + 1][..n] == applications[..n];
  }

  lemma {:induction false} ReportMade(log: seq<Filing>, accepted: seq<Filing>, p: Post, application: Application,
                                      origin: Origin)
    requires if application.Applied? && application.outcome.duplicate
             then FiledAt(log + accepted, p.batch.request, p.batch.hash, origin) else origin == Origin(p.index, p.term)
    ensures var more := if IsAccepted(application) then accepted + [FilingFor(p)] else accepted;
            Reports(Report(p.batch.request, p.batch.hash, application, origin), p, application, log + more)
  {
    if IsAccepted(application) {
      var all := log + (accepted + [FilingFor(p)]);
      assert all[|log| + |accepted|] == FilingFor(p);
    }
  }

  /** What has been reported stays right as receipts are added. */
  lemma {:induction false} ReportsStay(posts: seq<Post>, applications: seq<Application>, reports: seq<Report>, n: nat,
                                       log: seq<Filing>, before: seq<Filing>, after: seq<Filing>)
    requires n <= |posts| == |applications| && |reports| == n && before <= after
    requires forall i | 0 <= i < n :: Reports(reports[i], posts[i], applications[i], log + before)
    ensures forall i | 0 <= i < n :: Reports(reports[i], posts[i], applications[i], log + after)
  {
    hide FiledAt;
    assert log + after == log + before + after[|before|..];
    forall i | 0 <= i < n && applications[i].Applied?
      ensures FiledAt(log + after, reports[i].request, reports[i].hash, reports[i].origin)
    {
      assert Reports(reports[i], posts[i], applications[i], log + before);
      FiledEarlier(log + before, after[|before|..], reports[i].request, reports[i].hash, reports[i].origin);
    }
  }

  /** The answers of the resident engine are the book's. */
  lemma {:induction false} ResidentTells(engine: Ledger, book: Book, posts: seq<Post>)
    requires hide ApplyBatches, Coherent, Kept, LedgerOf, Retained, Told;
             Kept(book) && SameTables(engine, Retained(LedgerOf(book))) && Coherent(engine)
             && ApplyBatches(engine, Stored(LedgerOf(book)), Batches(posts)).Ok?
    ensures Told(book, posts, ApplyBatches(engine, Stored(LedgerOf(book)), Batches(posts)).value.0)
  {
    hide *;
    KeptOwned(book);
    SameCovers(engine, book);
    EngineTells(engine, LedgerOf(book), book, posts);
  }

  lemma {:induction false} KeptOnce(book: Book)
    requires Kept(book)
    ensures Unique(book.log)
  {
  }
}
