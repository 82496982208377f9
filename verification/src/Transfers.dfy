/** How a book lies in the key-value store, how it gets there (with each applied group, with an installed snapshot,
    when the active index is rebuilt) and how it is read back (internal/storage/application.go, snapshot.go and
    retention.go). */
module Transfers {
  import opened Base
  import opened Replays
  import opened Model
  import opened IdOrder
  import opened Ledgers
  import opened Filings
  import Segments
  import opened Archives
  import opened Results
  import opened Lawfulness
  import opened Chronicle
  import Snapshots
  import opened Retention
  import opened Residents

  /** The workflow, receipt, event segment, active index, task result segment and conflict outcome records. */
  datatype Archive = Archive(
    workflows: map<Id, Workflow>, slips: map<Id, Slip>, segments: map<SegmentKey, seq<Event>>,
    active: set<Id>, activeRequests: set<(Id, Id)>,
    results: map<SegmentKey, seq<TaskResult>>, conflicts: map<(Id, Hash), Origin>)

  predicate Open(states: map<Id, Workflow>, w: Id) {
    w in states && !Terminal(states[w].status)
  }

  function ActivePairs(states: map<Id, Workflow>, log: seq<Filing>): set<(Id, Id)> {
    set i | 0 <= i < |log| && Open(states, log[i].workflow) :: (log[i].workflow, log[i].request)
  }

  function Shelve(book: Book): Archive
    requires hide ActivePairs, ResultSegments, SegmentsOf;
             Filled(book.log)
  {
    Archive(book.states, Slips(book.log), SegmentsOf(book.log), ActiveOf(book.states),
        ActivePairs(book.states, book.log),
            ResultSegments(book), book.conflicts)
  }

  lemma {:induction false} KeptFilled(book: Book)
    requires Kept(book)
    ensures Filled(book.log)
  {
    hide Explained;
    forall i | 0 <= i < |book.log| ensures book.log[i].events != [] { assert FilingOk(book.log[i]); }
  }

  // ----- Slips -----

  lemma {:induction false} SlipsNext(log: seq<Filing>, n: nat)
    requires Filled(log) && n < |log|
    ensures Slips(log[..n + 1]) == Slips(log[..n])[log[n].request := SlipOf(log[n])]
  {
    assert log[..n + 1][..n] == log[..n];
  }

  method StageSlips(slips: map<Id, Slip>, added: seq<Filing>, ghost log: seq<Filing>) returns (r: map<Id, Slip>)
    requires Filled(log + added) && slips == Slips((log + added)[..|log|])
    ensures r == Slips(log + added)
  {
    hide Slips, SlipOf;
    r := slips;
    ghost var all := log + added;
    for n := 0 to |added|
      invariant r == Slips(all[..|log| + n])
    {
      assert all[|log| + n] == added[n];
      SlipsNext(all, |log| + n);
      r := r[added[n].request := SlipOf(added[n])];
    }
    assert all[..|all|] == all;
  }

  // ----- The active index -----

  /** The pairs that added receipts of one workflow bring. */
  function PairsOf(added: seq<Filing>, w: Id): set<(Id, Id)> {
    set i | 0 <= i < |added| && added[i].workflow == w :: (w, added[i].request)
  }

  /** One touched workflow of an applied group. */
  method StageOne(active: set<Id>, pairs: set<(Id, Id)>, states: map<Id, Workflow>, w: Id, resident: set<Id>,
                  added: seq<Filing>)
    returns (active': set<Id>, pairs': set<(Id, Id)>)
    requires w in states
    ensures forall x :: x in active' <==> if x != w then x in active else
              Open(states, w) || (w in active && w !in resident)
    ensures forall x, r :: (x, r) in pairs' <==>
              if x != w then (x, r) in pairs
              else if Open(states, w) then (x, r) in pairs || (x, r) in PairsOf(added, w)
              else (x, r) in pairs && w !in resident
  {
    active', pairs' := active, pairs;
    if !Terminal(states[w].status) {
      active', pairs' := active + {w}, pairs + PairsOf(added, w);
    } else if w in resident {
      active', pairs' := active - {w}, set p | p in pairs && p.0 != w;
    }
  }

  predicate InIndex(states: map<Id, Workflow>, resident: set<Id>, active: set<Id>, touched: set<Id>, x: Id) {
    if x in touched then Open(states, x) || (x in active && x !in resident) else x in active
  }

  predicate PairInIndex(states: map<Id, Workflow>, resident: set<Id>, pairs: set<(Id, Id)>, added: seq<Filing>,
                        touched: set<Id>, x: Id, r: Id) {
    if x !in touched then (x, r) in pairs
    else if Open(states, x) then (x, r) in pairs || (x, r) in PairsOf(added, x)
    else (x, r) in pairs && x !in resident
  }

  /** The index updates of an applied group, workflow by workflow. */
  method StageIndex(active: set<Id>, pairs: set<(Id, Id)>, states: map<Id, Workflow>, order: seq<Id>,
                    resident: set<Id>, added: seq<Filing>)
    returns (active': set<Id>, pairs': set<(Id, Id)>)
    requires forall w | w in order :: w in states
    ensures var touched := set w | w in order;
            && (forall x :: x in active' <==> InIndex(states, resident, active, touched, x))
            && (forall x, r :: (x, r) in pairs' <==> PairInIndex(states, resident, pairs, added, touched, x, r))
  {
    hide PairsOf, Open;
    active', pairs' := active, pairs;
    for n := 0 to |order|
      invariant var touched := set w | w in order[..n];
                && (forall x :: x in active' <==> InIndex(states, resident, active, touched, x))
                && (forall x, r :: (x, r) in pairs' <==> PairInIndex(states, resident, pairs, added, touched, x, r))
    {
      assert order[..n + 1] == order[..n] + [order[n]];
      active', pairs' := StageOne(active', pairs', states, order[n], resident, added);
    }
    assert order[..|order|] == order;
  }

  /** The workflows that applied posts found resident are the open ones. */
  ghost predicate ResidentOpen(resident: set<Id>, states: map<Id, Workflow>) {
    forall w :: w in resident <==> Open(states, w)
  }

  /** A longer book: the receipts added, and the states they changed. */
  ghost predicate Extends(book: Book, after: Book, added: seq<Filing>) {
    hide Kept;
    && after.log == book.log + added && Kept(book) && Kept(after)
    && NoneRevived(book, after) && OnlyTouched(book, after, Workflows(added))
    && forall i | 0 <= i < |added| :: Top(book.log) <= added[i].index
  }

  lemma {:induction false} IndexGrows(book: Book, after: Book, added: seq<Filing>, resident: set<Id>, x: Id)
    requires NoneRevived(book, after) && OnlyTouched(book, after, Workflows(added))
             && ResidentOpen(resident, book.states)
    ensures InIndex(after.states, resident, ActiveOf(book.states), Workflows(added), x) <==> x in ActiveOf(after.states)
  {
    hide Workflows;
    assert x !in Workflows(added) ==> Lookup(after.states, x) == Lookup(book.states, x);
    assert x in resident <==> Open(book.states, x);
  }

  /** A list has a receipt of a request for a workflow. */
  predicate HasPair(log: seq<Filing>, x: Id, r: Id) {
    exists i | 0 <= i < |log| :: log[i].workflow == x && log[i].request == r
  }

  lemma {:induction false} PairMember(states: map<Id, Workflow>, log: seq<Filing>, x: Id, r: Id)
    ensures (x, r) in ActivePairs(states, log) <==> Open(states, x) && HasPair(log, x, r)
  {
    if i :| 0 <= i < |log| && log[i].workflow == x && log[i].request == r && Open(states, x) {
      assert (log[i].workflow, log[i].request) in ActivePairs(states, log);
    }
  }

  lemma {:induction false} PairSplit(log: seq<Filing>, added: seq<Filing>, x: Id, r: Id)
    ensures HasPair(log + added, x, r) <==> HasPair(log, x, r) || HasPair(added, x, r)
    ensures (x, r) in PairsOf(added, x) <==> HasPair(added, x, r)
    ensures HasPair(added, x, r) ==> x in Workflows(added)
  {
    var all := log + added;
    if i :| 0 <= i < |log| && log[i].workflow == x && log[i].request == r { assert all[i] == log[i]; }
    if i :| 0 <= i < |added| && added[i].workflow == x && added[i].request == r {
      assert all[|log| + i] == added[i];
      assert (x, added[i].request) in PairsOf(added, x);
    }
    if i :| 0 <= i < |all| && all[i].workflow == x && all[i].request == r {
      if i < |log| { assert log[i] == all[i]; } else { assert added[i - |log|] == all[i]; }
    }
  }

  lemma {:induction false} PairOwned(book: Book, x: Id, r: Id)
    requires Kept(book) && HasPair(book.log, x, r)
    ensures x in book.states
  {
    hide Kept;
    var i :| 0 <= i < |book.log| && book.log[i].workflow == x && book.log[i].request == r;
    FilingOwned(book, i);
  }

  lemma {:induction false} PairsGrow(book: Book, after: Book, added: seq<Filing>, resident: set<Id>, x: Id, r: Id)
    requires Extends(book, after, added) && ResidentOpen(resident, book.states)
    ensures PairInIndex(after.states, resident, ActivePairs(book.states, book.log), added, Workflows(added), x, r)
            <==> (x, r) in ActivePairs(after.states, after.log)
  {
    hide Kept, ActivePairs, Workflows, PairsOf, HasPair;
    assert after.log == book.log + added;
    assert x !in Workflows(added) ==> Lookup(after.states, x) == Lookup(book.states, x);
    assert x in resident <==> Open(book.states, x);
    assert x in book.states && Terminal(book.states[x].status) ==>
      x in after.states && Terminal(after.states[x].status);
    PairMember(book.states, book.log, x, r);
    PairMember(after.states, after.log, x, r);
    PairSplit(book.log, added, x, r);
    if HasPair(book.log, x, r) { PairOwned(book, x, r); }
    hide Extends, ResidentOpen;
  }

  // ----- Segments of a longer book -----

  lemma {:induction false} AddedGives(book: Book, after: Book, added: seq<Filing>)
    requires Extends(book, after, added)
    ensures Segments.Gives(added, after.log, Top(book.log))
  {
    hide Workflows, NoneRevived, OnlyTouched, Explained, Counting, FilingOk;
    var cut := Top(book.log);
    forall i, j | 0 <= i < j < |added| ensures added[i].request != added[j].request {
      assert after.log[|book.log| + i] == added[i] && after.log[|book.log| + j] == added[j];
    }
    forall f | f in book.log ensures f.index < cut { BelowTop(book.log, f); }
    hide Ordered, Unique;
    forall f ensures f in added <==> f in after.log && f.index >= cut {}
  }

  lemma {:induction false} BelowTop(log: seq<Filing>, f: Filing)
    requires Ordered(log) && f in log
    ensures f.index < Top(log)
  {
    var i :| 0 <= i < |log| && log[i] == f;
    assert i < |log| - 1 ==> log[i].index <= log[|log| - 1].index;
  }

  lemma {:induction false} SegmentsGrow(book: Book, after: Book, added: seq<Filing>)
    requires Extends(book, after, added)
    ensures SegmentsOf(book.log) + Segments.SegmentsFrom(after.log, Top(book.log)) == SegmentsOf(after.log)
  {
    hide Extends, SegmentKeys, Segment, Top;
    var earlier, later, all := SegmentsOf(book.log), Segments.SegmentsFrom(after.log, Top(book.log)),
        SegmentsOf(after.log);
    forall k ensures k in all <==> k in earlier || k in later { OldOrNew(book, after, added, k); }
    forall k | k in all ensures (earlier + later)[k] == all[k] { OldOrNew(book, after, added, k); }
  }

  lemma {:induction false} OldOrNew(book: Book, after: Book, added: seq<Filing>, k: SegmentKey)
    requires Extends(book, after, added)
    ensures k in SegmentKeys(after.log) <==>
              k in SegmentKeys(book.log) || (k in SegmentKeys(after.log) && k.1 >= Top(book.log))
    ensures k.1 < Top(book.log) ==> Segment(after.log, k.0, k.1) == Segment(book.log, k.0, k.1)
    ensures k in SegmentKeys(book.log) ==> k.1 < Top(book.log)
  {
    hide Filed, SegmentKeys, NoneRevived, OnlyTouched;
    KeysOldOrNew(book.log, added, k);
    if k.1 < Top(book.log) {
      TakenJoin(book.log, added, k.0, k.1, k.1 + 1);
      TakenNone(added, k.0, k.1, k.1 + 1);
    }
  }

  lemma {:induction false} KeysOldOrNew(log: seq<Filing>, added: seq<Filing>, k: SegmentKey)
    requires hide Filed;
             Filed(log) && forall i | 0 <= i < |added| :: Top(log) <= added[i].index
    ensures k in SegmentKeys(log + added) <==>
              k in SegmentKeys(log) || (k in SegmentKeys(log + added) && k.1 >= Top(log))
    ensures k in SegmentKeys(log) ==> k.1 < Top(log)
  {
    if k in SegmentKeys(log) {
      Segments.KeyBelowTop(log, k);
      var i :| 0 <= i < |log| && k == (log[i].workflow, log[i].index);
      assert (log + added)[i] == log[i];
    }
    hide Filed, Top;
    if k in SegmentKeys(log + added) && k.1 < Top(log) {
      var i :| 0 <= i < |log + added| && k == ((log + added)[i].workflow, (log + added)[i].index);
      if i < |log| { assert log[i] == (log + added)[i]; }
    }
  }

  lemma {:induction false} SizedGrows(book: Book, after: Book, added: seq<Filing>)
    requires Extends(book, after, added) && Sized(book.log)
             && Segments.Buildable(added, Segments.SegmentsFrom(after.log, Top(book.log)))
    ensures Sized(after.log)
  {
    KeptFilled(after);
    hide Extends, Taken;
    var cut := Top(book.log);
    forall w, i: nat ensures |Segment(after.log, w, i)| <= MAX_SEGMENT_ITEMS {
      OldOrNew(book, after, added, (w, i));
      if i < cut {
        assert |Segment(book.log, w, i)| <= MAX_SEGMENT_ITEMS;
      } else if Segment(after.log, w, i) != [] {
        Segments.SegmentFound(after.log, (w, i));
        assert (w, i) in Segments.SegmentsFrom(after.log, cut);
        assert Segments.ValidSegment(w, i, Segments.SegmentsFrom(after.log, cut)[(w, i)]);
      }
    }
  }

  /** The segments of an applied group: refused exactly when one is over its bound. */
  method StageSegments(ghost book: Book, ghost after: Book, added: seq<Filing>)
    returns (ok: bool, segments: map<SegmentKey, seq<Event>>)
    requires Extends(book, after, added) && Sized(book.log)
    ensures ok <==> Sized(after.log)
    ensures ok ==> segments == Segments.SegmentsFrom(after.log, Top(book.log))
  {
    AddedGives(book, after, added);
    FiledAfter(book, after, added);
    hide Extends, Sized, Segments.Buildable, Filed;
    var order;
    ok, segments, order := Segments.BuildSegments(added, false);
    Segments.BuildsSegments(after.log, added, Top(book.log));
    if ok || Sized(after.log) {
      Segments.SegmentsAllLink(after.log, Top(book.log), order, false);
    }
    if ok { SizedGrows(book, after, added); }
  }

  lemma {:induction false} FiledAfter(book: Book, after: Book, added: seq<Filing>)
    requires Extends(book, after, added)
    ensures Filed(after.log) && Filled(after.log) && Filled(book.log)
  {
    KeptFilled(after);
    KeptFilled(book);
  }

  // ----- Task results of a longer book -----

  lemma {:induction false} HistoryGrows(book: Book, after: Book, added: seq<Filing>, w: Id)
    requires hide Extends, History;
             Extends(book, after, added)
    ensures History(after.log, w) == History(book.log, w) + Taken(added, w, 0, Top(after.log))
  {
    hide Explained, FilingOk, Unique, Counting, NoneRevived, OnlyTouched, Workflows, Taken;
    TakenJoin(book.log, added, w, 0, Top(after.log));
    if added != [] { assert after.log[|after.log| - 1] == added[|added| - 1]; }
    TakenBeyond(book.log, w, 0, Top(after.log));
  }

  /** What a group does to the tasks of a workflow that was there. */
  lemma {:induction false} TasksMoveOn(book: Book, after: Book, added: seq<Filing>, w: Id)
    requires hide AllMoveOn, Extends;
             Extends(book, after, added) && w in book.states
    ensures w in after.states && AllMoveOn(book.states[w].tasks, after.states[w].tasks)
  {
    HistoryGrows(book, after, added, w);
    assert ApplyAll(None, History(book.log, w)) == Ok(Lookup(book.states, w));
    assert ApplyAll(None, History(after.log, w)) == Ok(Lookup(after.states, w));
    assert Kept(book);
    hide Extends, Kept, History, Taken, ApplyAll, AllMoveOn;
    ApplyAllJoins(None, History(book.log, w), Taken(added, w, 0, Top(after.log)));
    BookTold(book, w);
    hide Lawfulness.Lawful;
    EventsMoveOn(book.states[w], Taken(added, w, 0, Top(after.log)));
  }

  /** Results are the same with later tasks. */
  lemma {:induction false} ResultsSteady(events: seq<Event>, index: nat, tasks: map<Id, Task>, tasks': map<Id, Task>)
    requires hide AllMoveOn, ResultsOf;
             AllMoveOn(tasks, tasks') && forall k | 0 <= k < |events|
             && IsReport(events[k].kind) :: events[k].task in tasks
    ensures ResultsOf(events, index, tasks) == ResultsOf(events, index, tasks')
  {
    if events != [] {
      var last := events[|events| - 1];
      ResultsSteady(events[..|events| - 1], index, tasks, tasks');
      if Reported(last, tasks) { assert MovesOn(tasks[last.task], tasks'[last.task]); }
    }
  }

  lemma {:induction false} OldResults(book: Book, after: Book, added: seq<Filing>, k: SegmentKey)
    requires Extends(book, after, added) && k in SegmentKeys(book.log)
    ensures ResultsAt(after, k) == ResultsAt(book, k)
  {
    OldOrNew(book, after, added, k);
    assert Kept(book);
    var i :| 0 <= i < |book.log| && k == (book.log[i].workflow, book.log[i].index);
    hide Extends, Kept, SegmentKeys;
    FilingOwned(book, i);
    TasksMoveOn(book, after, added, k.0);
    var seg := Segment(book.log, k.0, k.1);
    hide Segment, AllMoveOn;
    forall n | 0 <= n < |seg| && IsReport(seg[n].kind)
        ensures seg[n].task in book.states[k.0].tasks { SegmentPlaceable(book, k, n); }
    ResultsSteady(seg, k.1, book.states[k.0].tasks, after.states[k.0].tasks);
  }

  lemma {:induction false} SegmentPlaceable(book: Book, k: SegmentKey, n: nat)
    requires hide Kept;
             Kept(book) && k.0 in book.states && n < |Segment(book.log, k.0, k.1)|
             && IsReport(Segment(book.log, k.0, k.1)[n].kind)
    ensures Segment(book.log, k.0, k.1)[n].task in book.states[k.0].tasks
  {
    hide Explained, FilingOk, Unique, Counting, Ordered, Taken;
    SegmentPlace(book.log, k.0, k.1);
    hide Filed;
    BookTold(book, k.0);
    hide Kept;
    var before, history := |Taken(book.log, k.0, 0, k.1)|, History(book.log, k.0);
    assert history[before + n] == Segment(book.log, k.0, k.1)[n];
    assert Over(book.states[k.0].id, book.states[k.0].tasks, history[before + n]);
  }

  lemma {:induction false} ResultsGrow(book: Book, after: Book, added: seq<Filing>)
    requires Extends(book, after, added)
    ensures ResultSegments(book) + ResultsFrom(after, Top(book.log)) == ResultSegments(after)
  {
    hide Extends, SegmentKeys, Segment, Top, ResultsAt;
    var earlier, later, all := ResultSegments(book), ResultsFrom(after, Top(book.log)), ResultSegments(after);
    forall k ensures k in all <==> k in earlier || k in later {
      OldOrNew(book, after, added, k);
      if k in SegmentKeys(book.log) { OldResults(book, after, added, k); }
    }
    forall k | k in all ensures (earlier + later)[k] == all[k] {
      OldOrNew(book, after, added, k);
      if k in SegmentKeys(book.log) { OldResults(book, after, added, k); }
    }
  }

  /** The task result segments of an applied group: never refused. */
  method StageResults(ghost book: Book, ghost after: Book, added: seq<Filing>, states: map<Id, Workflow>)
    returns (ok: bool, results: map<SegmentKey, seq<TaskResult>>)
    requires Extends(book, after, added) && Sized(after.log) && states == after.states
    ensures ok && results == ResultsFrom(after, Top(book.log))
  {
    AddedGives(book, after, added);
    assert Kept(after);
    forall i | 0 <= i < |added| ensures Placeable(added[i], after.states) {
      assert added[i] in added && added[i] in after.log;
      ReceiptPlaceable(after, added[i]);
    }
    hide Extends, Kept, Sized, Placeable, Segments.Gives, ResultsFrom, Collected, Fit, Arranges, Top;
    results := map[];
    var rs;
    ok, rs := CollectResults(added, states);
    if !ok { return; }
    CollectedGives(after, added, Top(book.log));
    ResultsFit(after, rs, Top(book.log));
    hide GivesResults;
    ok, results := BuildResults(rs);
    ArrangedExact(after, rs, Top(book.log), results);
  }

  /** What applying a group writes: the states it changed, its receipts, its segments, its task results, the refused
      requests and the index. */
  method StageApplied(archive: Archive, ghost book: Book, ghost after: Book, added: seq<Filing>,
                      changed: map<Id, Workflow>, resident: set<Id>,
                      conflicts: map<(Id, Hash), Origin>)
    returns (ok: bool, next: Archive)
    requires hide Extends, ResidentOpen, Shelve, Sized;
             Extends(book, after, added) && Sized(book.log) && Filled(book.log) && archive == Shelve(book)
             && ResidentOpen(resident, book.states)
    requires changed.Keys == Workflows(added) && forall w | w in changed ::
               w in after.states && changed[w] == after.states[w]
    requires conflicts == after.conflicts
    ensures ok <==> Sized(after.log)
    ensures ok ==> Filled(after.log) && next == Shelve(after)
  {
    next := archive;
    var segments, results;
    FiledAfter(book, after, added);
    assert OnlyTouched(book, after, Workflows(added));
    hide Extends, Filed, Sized, Workflows, ResidentOpen, OnlyTouched, Slips, SegmentsOf, ActivePairs, ResultSegments,
        Top;
    ok, segments := StageSegments(book, after, added);
    if !ok { return; }
    SegmentsGrow(book, after, added);
    StatesGrow(book, after, added, changed);
    var workflows := archive.workflows + changed;
    ok, results := StageResults(book, after, added, workflows);
    if !ok { return; }
    ResultsGrow(book, after, added);
    var slips := StageLongerSlips(archive.slips, book, after, added);
    var active, pairs := StageLongerIndex(archive, book, after, added, workflows, changed.Keys, resident);
    next := Archive(workflows, slips, archive.segments + segments, active, pairs, archive.results + results, conflicts);
  }

  method StageLongerSlips(slips: map<Id, Slip>, ghost book: Book, ghost after: Book, added: seq<Filing>)
    returns (longer: map<Id, Slip>)
    requires hide Extends;
             Extends(book, after, added) && Filled(book.log) && Filled(after.log) && slips == Slips(book.log)
    ensures longer == Slips(after.log)
  {
    assert after.log == book.log + added && after.log[..|book.log|] == book.log;
    hide Extends, Slips, Filled;
    longer := StageSlips(slips, added, book.log);
  }

  method StageLongerIndex(archive: Archive, ghost book: Book, ghost after: Book, added: seq<Filing>,
                          workflows: map<Id, Workflow>, touched: set<Id>, resident: set<Id>)
    returns (active: set<Id>, pairs: set<(Id, Id)>)
    requires Extends(book, after, added) && ResidentOpen(resident, book.states) && touched == Workflows(added)
    requires workflows == after.states && touched <= after.states.Keys
    requires archive.active == ActiveOf(book.states) && archive.activeRequests == ActivePairs(book.states, book.log)
    ensures active == ActiveOf(after.states) && pairs == ActivePairs(after.states, after.log)
  {
    hide Extends, ResidentOpen, Workflows, ActivePairs;
    var order := SortedIds(touched);
    assert (set w | w in order) == Workflows(added);
    active, pairs := StageIndex(archive.active, archive.activeRequests, workflows, order, resident, added);
    IndexExact(book, after, added, resident, active, pairs);
  }

  lemma {:induction false} StatesGrow(book: Book, after: Book, added: seq<Filing>, changed: map<Id, Workflow>)
    requires OnlyTouched(book, after, Workflows(added))
    requires changed.Keys == Workflows(added) && forall w | w in changed ::
               w in after.states && changed[w] == after.states[w]
    ensures book.states + changed == after.states
  {
    hide Workflows;
    var joined := book.states + changed;
    forall w ensures Lookup(joined, w) == Lookup(after.states, w) {
      assert w !in Workflows(added) ==> Lookup(after.states, w) == Lookup(book.states, w);
    }
    forall w ensures (w in joined <==> w in after.states) && (w in joined ==> joined[w] == after.states[w]) {
      assert Lookup(joined, w) == Lookup(after.states, w);
    }
  }

  lemma {:induction false} IndexExact(book: Book, after: Book, added: seq<Filing>, resident: set<Id>, active: set<Id>,
                                      pairs: set<(Id, Id)>)
    requires Extends(book, after, added) && ResidentOpen(resident, book.states)
    requires forall x :: x in active <==> InIndex(after.states, resident, ActiveOf(book.states), Workflows(added), x)
    requires forall x, r :: (x, r) in pairs <==>
               PairInIndex(after.states, resident, ActivePairs(book.states, book.log), added, Workflows(added), x, r)
    ensures active == ActiveOf(after.states) && pairs == ActivePairs(after.states, after.log)
  {
    assert NoneRevived(book, after) && OnlyTouched(book, after, Workflows(added));
    hide Extends, InIndex, PairInIndex, ActivePairs, Workflows, ResidentOpen, NoneRevived, OnlyTouched;
    forall x ensures x in active <==> x in ActiveOf(after.states) { IndexGrows(book, after, added, resident, x); }
    forall x, r ensures (x, r) in pairs
        <==> (x, r) in ActivePairs(after.states, after.log) { PairsGrow(book, after, added, resident, x, r); }
    forall p ensures p in pairs <==> p in ActivePairs(after.states, after.log) { assert p == (p.0, p.1); }
  }

  // ----------------------------------------------------------------------------------------------------
  // The engine image of a store's book: core.Restore always accepts it, and gives the book back.
  // ----------------------------------------------------------------------------------------------------

  function Journal(log: seq<Filing>): seq<Event> {
    if log == [] then [] else Journal(log[..|log| - 1]) + log[|log| - 1].events
  }

  /** The engine with everything, and the journal that its receipts amount to. */
  function Whole(book: Book): Ledger {
    LedgerOf(book).(journal := Journal(book.log), journaled := true)
  }

  lemma {:induction false} JournalMember(log: seq<Filing>, e: Event)
    ensures e in Journal(log) <==> exists i :: 0 <= i < |log| && e in log[i].events
  {
    if log != [] {
      var front := log[..|log| - 1];
      JournalMember(front, e);
      if i :| 0 <= i < |front| && e in front[i].events { assert log[i] == front[i]; }
      if i :| 0 <= i < |log| && e in log[i].events {
        if i < |front| { assert front[i] == log[i]; }
      }
    }
  }

  lemma {:induction false} JournalHistory(log: seq<Filing>, w: Id, hi: nat)
    requires forall i | 0 <= i < |log| ::
               log[i].index < hi && (forall e | e in log[i].events :: e.workflow == log[i].workflow)
    ensures OfWorkflow(Journal(log), w) == Taken(log, w, 0, hi)
  {
    if log != [] {
      var front, last := log[..|log| - 1], log[|log| - 1];
      JournalHistory(front, w, hi);
      OfWorkflowBatch(Journal(front), last.events, last.workflow, w);
    }
  }

  lemma {:induction false} FilingEvents(f: Filing)
    requires FilingOk(f)
    ensures (forall e | e in f.events :: e.workflow == f.workflow && e.request == f.request)
    ensures ReceiptOk(f.request, Record(f.hash, f.workflow, f.events))
  {
    forall e | e in f.events ensures e.workflow == f.workflow && e.request == f.request {
      var k :| 0 <= k < |f.events| && f.events[k] == e;
      assert EventFits(f, k);
    }
    forall k | 0 <= k < |f.events| ensures
      && f.events[k].request == f.request && f.events[k].hash == f.hash && f.events[k].workflow == f.workflow
      && f.events[k].sequence == f.events[0].sequence + k
    {
      assert EventFits(f, k);
    }
  }

  lemma {:induction false} WholeHistory(book: Book)
    requires Kept(book)
    ensures Chronicle.HistoryTold(book.states, Journal(book.log))
  {
    hide ApplyAll, Taken, Unique, Counting, FilingOk, OfWorkflow, Journal;
    var log := book.log;
    forall i | 0 <= i < |log| ensures log[i].index < Top(log)
        && (forall e | e in log[i].events :: e.workflow == log[i].workflow) {
      FilingEvents(log[i]);
      assert i < |log| - 1 ==> log[i].index <= log[|log| - 1].index;
    }
    forall w ensures ApplyAll(None, OfWorkflow(Journal(log), w)) == Ok(Lookup(book.states, w)) {
      JournalHistory(log, w, Top(log));
      assert ApplyAll(None, History(log, w)) == Ok(Lookup(book.states, w));
    }
  }

  lemma {:induction false} RecordOf(log: seq<Filing>, i: nat)
    requires Unique(log) && i < |log|
    ensures log[i].request in Records(log)
            && Records(log)[log[i].request] == Record(log[i].hash, log[i].workflow, log[i].events)
  {
    if i < |log| - 1 { RecordOf(log[..|log| - 1], i); }
  }

  lemma {:induction false} WholeReceipts(book: Book)
    requires Kept(book)
    ensures ReceiptsTold(Records(book.log), Journal(book.log))
  {
    hide Explained, Counting, FilingOk, Records, Journal, Ordered;
    var log := book.log;
    forall r | r in Records(log) ensures ReceiptOk(r, Records(log)[r]) && AllIn(Records(log)[r].events, Journal(log)) {
      RecordIs(log, r);
      var i :| 0 <= i < |log| && log[i].request == r
          && Records(log)[r] == Record(log[i].hash, log[i].workflow, log[i].events);
      FilingEvents(log[i]);
      forall e | e in log[i].events ensures e in Journal(log) { JournalMember(log, e); }
    }
    forall e | e in Journal(log) ensures Receipted(Records(log), e) {
      JournalMember(log, e);
      var i :| 0 <= i < |log| && e in log[i].events;
      FilingEvents(log[i]);
      RecordOf(log, i);
    }
  }

  lemma {:induction false} WholeSane(book: Book)
    requires Kept(book)
    ensures Sane(Whole(book))
  {
    hide Taken, Lawful, Records, Counting, Unique, Ordered, Journal, IndexOf;
    forall w | w in book.states ensures Lawful(book.states[w]) {
      assert ApplyAll(None, History(book.log, w)) == Ok(Lookup(book.states, w));
      hide ApplyAll;
      AppliedIds(None, History(book.log, w));
    }
    forall r | r in Records(book.log) ensures r != NO_ID && Records(book.log)[r].hash != NoHash {
      RecordIs(book.log, r);
      var i :| 0 <= i < |book.log| && book.log[i].request == r
          && Records(book.log)[r] == Record(book.log[i].hash, book.log[i].workflow, book.log[i].events);
      assert FilingOk(book.log[i]);
    }
  }

  /** The image of a store restores, to the states and receipts it was taken from. */
  lemma {:induction false} ImageRestores(book: Book)
    requires hide Coherent, Kept, Snapshots.Restore, Snapshots.Take;
             Kept(book)
    ensures var restored := Snapshots.Restore(Snapshots.Take(book.states, Records(book.log)));
            restored.Some? && restored.value.states == book.states && restored.value.requests == Records(book.log)
                && Coherent(restored.value)
  {
    WholeSane(book);
    WholeHistory(book);
    WholeReceipts(book);
    var whole := Whole(book);
    hide Kept, Sane, Chronicle.HistoryTold, ReceiptsTold, Snapshots.Restore, Snapshots.Take, Records, Journal;
    Snapshots.OwnersAreStates(whole);
    Snapshots.RestoreSane(whole);
  }

  // ----------------------------------------------------------------------------------------------------
  // Reading a store back: receipts for a snapshot, the resident engine, the active index; and installing a snapshot
  // (internal/storage/snapshot.go and internal/storage/retention.go).
  // ----------------------------------------------------------------------------------------------------

  // ----- One stored receipt -----

  lemma {:induction false} FiledBelow(book: Book, i: nat, applied: nat)
    requires hide Kept;
             Kept(book) && i < |book.log| && Top(book.log) <= applied + 1
    ensures book.log[i].index <= applied
  {
    hide Explained, Unique, Counting, FilingOk;
    BelowTop(book.log, book.log[i]);
  }

  /** A stored receipt expands to the one receipt of its request. */
  lemma {:induction false} SlipReads(book: Book, r: Id, applied: nat)
    requires hide Expand, Kept, SegmentsOf;
             Kept(book) && Filled(book.log) && r in Slips(book.log) && Top(book.log) <= applied + 1
    ensures exists i :: 0 <= i < |book.log| && book.log[i].request == r
                     && Expand(r, Slips(book.log)[r], SegmentsOf(book.log), applied) == Some(book.log[i])
  {
    SlipsAreFiled(book.log, r);
    var i :| 0 <= i < |book.log| && book.log[i].request == r;
    FiledBelow(book, i, applied);
    hide Filed, Explained, Expand, Slips, SegmentsOf;
    ExpandExact(book.log, i, applied);
  }

  lemma {:induction false} FiledOnce(book: Book, i: nat, j: nat)
    requires hide Kept;
             Kept(book) && i < |book.log| && j < |book.log| && book.log[i].request == book.log[j].request
    ensures i == j
  {
    hide Explained, Ordered, Counting, FilingOk;
  }

  // ----- Lookups -----

  /** loadRequest: None is an unreadable record, Some(None) no record. */
  function ReadRequest(archive: Archive, applied: nat, r: Id): Option<Option<Record>> {
    hide Expand;
    if r !in archive.slips then Some(None)
    else
      match Expand(r, archive.slips[r], archive.segments, applied)
      case None => None
      case Some(f) => Some(Some(Record(f.hash, f.workflow, f.events)))
  }

  /** Looking a request or a workflow up in the records is looking it up in the book. */
  lemma {:induction false} LookupsExact(book: Book, id: Id, applied: nat)
    requires hide Kept, LedgerOf, ReadRequest, Shelve;
             Kept(book) && Filled(book.log) && Top(book.log) <= applied + 1
    ensures ReadRequest(Shelve(book), applied, id) == Some(LookupRecord(LedgerOf(book), id))
    ensures Lookup(Shelve(book).workflows, id) == Lookup(LedgerOf(book).states, id)
  {
    KeptUnique(book);
    hide Kept, Slips, SegmentsOf, Expand, Records, Unique;
    SlipsAreFiled(book.log, id);
    RecordFiled(book.log, id);
    if id in Slips(book.log) {
      SlipReads(book, id, applied);
      var i :| 0 <= i < |book.log| && book.log[i].request == id
            && Expand(id, Slips(book.log)[id], SegmentsOf(book.log), applied) == Some(book.log[i]);
      RecordOf(book.log, i);
    }
  }

  // ----- loadReceipts -----

  /** loadReceipts: every receipt, by request identifier. */
  method ReadReceipts(archive: Archive, applied: nat, ghost book: Book) returns (ok: bool, given: seq<Filing>)
    requires hide Kept, Shelve;
             Kept(book) && Filled(book.log) && archive == Shelve(book) && Top(book.log) <= applied + 1
    ensures ok && Segments.Gives(given, book.log, 0)
  {
    hide Kept, Slips, SegmentsOf, Expand, SortedIds;
    given := [];
    var order := SortedIds(archive.slips.Keys);
    for n := 0 to |order|
      invariant |given| == n && forall i | 0 <= i < n :: given[i].request == order[i] && given[i] in book.log
    {
      SlipReads(book, order[n], applied);
      match Expand(order[n], archive.slips[order[n]], archive.segments, applied) {
        case None => return false, given;
        case Some(f) => given := given + [f];
      }
    }
    ok := true;
    AllRead(book, order, given);
  }

  lemma {:induction false} AllRead(book: Book, order: seq<Id>, given: seq<Filing>)
    requires hide Increasing, Kept;
             Kept(book) && Filled(book.log) && Increasing(order) && (forall r :: r in order <==> r in Slips(book.log))
             && |given| == |order|
    requires forall i | 0 <= i < |given| :: given[i].request == order[i] && given[i] in book.log
    ensures Segments.Gives(given, book.log, 0)
  {
    hide Kept, Slips;
    forall i, j | 0 <= i < j < |given| ensures given[i].request != given[j].request { Trichotomy(order[i], order[j]); }
    forall f | f in book.log ensures f in given {
      var k :| 0 <= k < |book.log| && book.log[k] == f;
      SlipsAreFiled(book.log, f.request);
      var i :| 0 <= i < |order| && order[i] == f.request;
      var m :| 0 <= m < |book.log| && book.log[m] == given[i];
      FiledOnce(book, k, m);
    }
  }

  // ----- installSnapshot -----

  lemma {:induction false} SlipsSame(given: seq<Filing>, log: seq<Filing>)
    requires Unique(given) && Unique(log) && Filled(given) && Filled(log) && forall f :: f in given <==> f in log
    ensures Slips(given) == Slips(log)
  {
    hide Slips, Unique;
    forall r ensures (r in Slips(given) <==> r in Slips(log))
        && (r in Slips(given) ==> Slips(given)[r] == Slips(log)[r]) {
      SlipsAreFiled(given, r);
      SlipsAreFiled(log, r);
      if i :| 0 <= i < |given| && given[i].request == r {
        assert given[i] in log;
        var j :| 0 <= j < |log| && log[j] == given[i];
        SlipFiled(given, i);
        SlipFiled(log, j);
      }
      if i :| 0 <= i < |log| && log[i].request == r {
        assert log[i] in given;
        var j :| 0 <= j < |given| && given[j] == log[i];
      }
    }
  }

  lemma {:induction false} PairsSame(states: map<Id, Workflow>, given: seq<Filing>, log: seq<Filing>)
    requires forall f :: f in given <==> f in log
    ensures ActivePairs(states, given) == ActivePairs(states, log)
  {
    hide ActivePairs;
    forall x, r ensures (x, r) in ActivePairs(states, given) <==> (x, r) in ActivePairs(states, log) {
      PairMember(states, given, x, r);
      PairMember(states, log, x, r);
      if i :| 0 <= i < |given| && given[i].workflow == x && given[i].request == r {
        assert given[i] in log;
        var j :| 0 <= j < |log| && log[j] == given[i];
      }
      if i :| 0 <= i < |log| && log[i].workflow == x && log[i].request == r {
        assert log[i] in given;
        var j :| 0 <= j < |given| && given[j] == log[i];
      }
    }
    forall p ensures p in ActivePairs(states, given) <==> p in ActivePairs(states, log) { assert p == (p.0, p.1); }
  }

  method InstallReceipts(states: map<Id, Workflow>, given: seq<Filing>)
    returns (slips: map<Id, Slip>, pairs: set<(Id, Id)>)
    requires Filled(given)
    ensures slips == Slips(given) && pairs == ActivePairs(states, given)
  {
    slips, pairs := map[], {};
    for n := 0 to |given|
      invariant slips == Slips(given[..n]) && forall x, r ::
                  (x, r) in pairs <==> (x, r) in ActivePairs(states, given[..n])
    {
      assert given[..n + 1][..n] == given[..n];
      PairAdded(states, given, n);
      slips := slips[given[n].request := SlipOf(given[n])];
      if Open(states, given[n].workflow) { pairs := pairs + {(given[n].workflow, given[n].request)}; }
    }
    assert given[..|given|] == given;
    forall p ensures p in pairs <==> p in ActivePairs(states, given) { assert p == (p.0, p.1); }
  }

  lemma {:induction false} PairAdded(states: map<Id, Workflow>, given: seq<Filing>, n: nat)
    requires n < |given|
    ensures forall x, r :: (x, r) in ActivePairs(states, given[..n + 1]) <==>
              (x, r) in ActivePairs(states, given[..n])
                  || (Open(states, x) && given[n].workflow == x && given[n].request == r)
  {
    hide ActivePairs;
    var shorter, longer := given[..n], given[..n + 1];
    forall x, r ensures (x, r) in ActivePairs(states, longer) <==>
                        (x, r) in ActivePairs(states, shorter)
                            || (Open(states, x) && given[n].workflow == x && given[n].request == r)
    {
      PairMember(states, shorter, x, r);
      PairMember(states, longer, x, r);
      if i :| 0 <= i < |shorter| && shorter[i].workflow == x && shorter[i].request == r {
        assert longer[i] == shorter[i];
      }
      if i :| 0 <= i < |longer| && longer[i].workflow == x && longer[i].request == r {
        if i < n { assert shorter[i] == longer[i]; }
      }
      assert longer[n] == given[n];
    }
  }

  /** The conflict outcomes of an image: each named and committed by a position. */
  method InstallConflicts(given: map<(Id, Hash), Origin>, bound: nat)
    returns (ok: bool, conflicts: map<(Id, Hash), Origin>)
    ensures ok <==> Noted(given, bound)
    ensures ok ==> conflicts == given
  {
    conflicts := map[];
    var rest := given.Keys;
    while rest != {}
      invariant rest <= given.Keys && conflicts.Keys == given.Keys - rest
                && forall k | k in conflicts :: conflicts[k] == given[k]
      invariant Noted(conflicts, bound)
      decreases |rest|
    {
      var k :| k in rest;
      rest := rest - {k};
      if k.0 == NO_ID || k.1 == NoHash || given[k].index == 0 || given[k].index > bound
          || given[k].term == 0 { return false, conflicts; }
      conflicts := conflicts[k := given[k]];
    }
    assert conflicts == given;
    ok := true;
  }

  /** The task result segments of an image: refused when a result lies past its position. */
  method InstallResults(ghost book: Book, given: seq<TaskResult>, bound: nat)
    returns (ok: bool, results: map<SegmentKey, seq<TaskResult>>)
    requires hide GivesResults, Kept, ResultSegments, Sized;
             Kept(book) && Sized(book.log) && GivesResults(given, book, 0) && Top(book.log) <= bound + 1
    ensures ok && results == ResultSegments(book)
  {
    results := map[];
    forall i | 0 <= i < |given| ensures given[i].index <= bound {
      assert given[i] in given;
      ResultBelow(book, given[i], bound);
    }
    hide Kept, Sized, GivesResults, ResultsFrom, ResultSegments, Fit, Arranges, Top;
    for n := 0 to |given| {
      if given[n].index > bound { return false, results; }
    }
    ResultsFit(book, given, 0);
    ok, results := BuildResults(given);
    ArrangedExact(book, given, 0, results);
    AllResults(book);
  }

  lemma {:induction false} ResultBelow(book: Book, r: TaskResult, bound: nat)
    requires Kept(book) && IsResult(book, r) && Top(book.log) <= bound + 1
    ensures r.index <= bound
  {
    hide Kept, ResultsAt, Top, Filed;
    ResultsAtOrdered(book, KeyOf(r));
    assert Filed(book.log) by { KeptFiled(book); }
    Segments.KeyBelowTop(book.log, KeyOf(r));
  }

  lemma {:induction false} KeptFiled(book: Book)
    requires Kept(book)
    ensures Filed(book.log)
  {
    hide Explained, Filed;
  }

  lemma {:induction false} AllResults(book: Book)
    ensures hide ResultSegments, ResultsFrom;
            ResultsFrom(book, 0) == ResultSegments(book)
  {
    hide ResultsAt;
    forall k ensures k in ResultsFrom(book, 0) <==> k in ResultSegments(book) {
      if k in ResultSegments(book) { assert k in SegmentKeys(book.log) && k.1 >= 0; }
    }
  }

  /** installSnapshot writes, from the image of a book, exactly what the sender's store holds: the same receipts,
      segments, task results, refused requests, workflows and active index. */
  method Install(ghost book: Book, states: map<Id, Workflow>, given: seq<Filing>, rs: seq<TaskResult>,
                 noted: map<(Id, Hash), Origin>, bound: nat)
    returns (ok: bool, archive: Archive)
    requires hide GivesResults, Kept, Shelve, Sized;
             Kept(book) && Sized(book.log) && Filled(book.log) && states == book.states
             && Segments.Gives(given, book.log, 0)
    requires GivesResults(rs, book, 0) && noted == book.conflicts && Noted(noted, bound) && Top(book.log) <= bound + 1
    ensures ok && archive == Shelve(book)
  {
    assert Filed(book.log);
    assert Unique(given) && Unique(book.log) && forall f :: f in given <==> f in book.log;
    GivenFilled(given, book.log);
    hide Kept, Filed, Sized, Segments.Gives, Slips, ActivePairs, Unique, GivesResults, ResultSegments, Noted, Top;
    archive := Archive(map[], map[], map[], {}, {}, map[], map[]);
    var conflicts;
    ok, conflicts := InstallConflicts(noted, bound);
    if !ok { return; }
    var slips, pairs := InstallReceipts(states, given);
    SlipsSame(given, book.log);
    PairsSame(states, given, book.log);
    var segments, results;
    ok, segments := Segments.Rebuild(book.log, given, 0, true);
    if !ok { return; }
    Segments.AllSegments(book.log);
    ok, results := InstallResults(book, rs, bound);
    if !ok { return; }
    archive := Archive(states, slips, segments, ActiveOf(states), pairs, results, conflicts);
  }

  lemma {:induction false} GivenFilled(given: seq<Filing>, log: seq<Filing>)
    requires Filled(log) && forall f :: f in given <==> f in log
    ensures Filled(given)
  {
    forall i | 0 <= i < |given| ensures given[i].events != [] { assert given[i] in log; }
  }

  // ----- loadActiveEngine -----

  method LoadWorkflows(archive: Archive) returns (ok: bool, states: map<Id, Workflow>)
    ensures ok <==> forall w | w in archive.active :: Open(archive.workflows, w)
    ensures ok ==> states == map w | w in archive.active :: archive.workflows[w]
  {
    states := map[];
    var rest := archive.active;
    while rest != {}
      invariant rest <= archive.active && states.Keys == archive.active - rest
      invariant forall w | w in states :: Open(archive.workflows, w) && states[w] == archive.workflows[w]
      decreases |rest|
    {
      var w :| w in rest;
      if !Open(archive.workflows, w) { return false, states; }
      states, rest := states[w := archive.workflows[w]], rest - {w};
    }
    ok := true;
  }

  /** One entry of the request index: its receipt must be there and be the workflow's. */
  method LoadRequest(archive: Archive, applied: nat, pair: (Id, Id)) returns (record: Option<Record>)
    ensures record == LoadedRecord(archive, applied, pair)
  {
    if pair.1 !in archive.slips { return None; }
    match Expand(pair.1, archive.slips[pair.1], archive.segments, applied) {
      case None => return None;
      case Some(f) => return if f.workflow == pair.0 then Some(Record(f.hash, f.workflow, f.events)) else None;
    }
  }

  function LoadedRecord(archive: Archive, applied: nat, pair: (Id, Id)): Option<Record> {
    hide Expand;
    if pair.1 !in archive.slips then None
    else
      match Expand(pair.1, archive.slips[pair.1], archive.segments, applied)
      case None => None
      case Some(f) => if f.workflow == pair.0 then Some(Record(f.hash, f.workflow, f.events)) else None
  }

  method LoadRequests(archive: Archive, applied: nat, known: set<Id>)
    returns (ok: bool, requests: map<Id, Record>, counted: set<Id>)
    ensures hide LoadedRecord;
            ok <==> forall p | p in archive.activeRequests :: p.0 in known && LoadedRecord(archive, applied, p).Some?
    ensures ok ==>
              requests.Keys == (set p | p in archive.activeRequests :: p.1)
              && counted == set p | p in archive.activeRequests :: p.0
    ensures ok ==> forall r | r in requests :: exists p ::
              p in archive.activeRequests && p.1 == r && LoadedRecord(archive, applied, p) == Some(requests[r])
  {
    hide LoadedRecord;
    ok, requests, counted := true, map[], {};
    var rest := archive.activeRequests;
    ghost var done: set<(Id, Id)> := {};
    while rest != {}
      invariant rest !! done && rest + done == archive.activeRequests
      invariant forall p | p in done :: p.0 in known && LoadedRecord(archive, applied, p).Some?
      invariant requests.Keys == (set p | p in done :: p.1) && counted == set p | p in done :: p.0
      invariant forall r | r in requests :: exists p ::
                  p in done && p.1 == r && LoadedRecord(archive, applied, p) == Some(requests[r])
      decreases |rest|
    {
      var p :| p in rest;
      if p.0 !in known { return false, requests, counted; }
      var record := LoadRequest(archive, applied, p);
      if record.None? { return false, requests, counted; }
      ghost var was := requests;
      requests, counted, rest, done := requests[p.1 := record.value], counted + {p.0}, rest - {p}, done + {p};
      forall r | r in requests ensures exists q ::
        q in done && q.1 == r && LoadedRecord(archive, applied, q) == Some(requests[r]) {
        if r == p.1 { assert p in done; } else {
          assert requests[r] == was[r];
          var q :| q in done && q.1 == r && LoadedRecord(archive, applied, q) == Some(was[r]);
        }
      }
    }
    assert done == archive.activeRequests;
  }

  /** loadActiveEngine: on the records of a book it succeeds, and gives the resident engine. */
  method LoadActiveEngine(archive: Archive, applied: nat, ghost book: Book) returns (ok: bool, engine: Ledger)
    requires hide Coherent, Kept, LedgerOf, Retained, Shelve;
             Kept(book) && Filled(book.log) && archive == Shelve(book) && Top(book.log) <= applied + 1
    ensures ok && SameTables(engine, Retained(LedgerOf(book))) && Coherent(engine)
  {
    hide Kept, Shelve, LoadedRecord, Coherent, Retained, LedgerOf;
    engine := EMPTY;
    var states, requests, counted;
    ok, states := LoadWorkflows(archive);
    ActiveLoads(book, archive);
    if !ok { return; }
    ok, requests, counted := LoadRequests(archive, applied, states.Keys);
    forall p | p in archive.activeRequests ensures p.0 in states
        && PairLoads(book, archive, applied, p) { RequestLoads(book, archive, applied, p); }
    if !ok { return; }
    LoadsCount(book, archive);
    assert states.Keys <= counted;
    ok := states.Keys <= counted;
    engine := EMPTY.(states := states, active := states.Keys, requests := requests, index := IndexOf(requests),
        journaled := false);
    LoadedIsRetained(book, archive, applied, engine);
  }

  ghost predicate PairLoads(book: Book, archive: Archive, applied: nat, p: (Id, Id)) {
    hide LoadedRecord;
    && p.1 in Records(book.log) && Records(book.log)[p.1].workflow == p.0
    && LoadedRecord(archive, applied, p) == Some(Records(book.log)[p.1])
  }

  lemma {:induction false} ActiveLoads(book: Book, archive: Archive)
    requires hide Shelve;
             Filled(book.log) && archive == Shelve(book)
    ensures forall w | w in archive.active :: Open(archive.workflows, w)
    ensures archive.active == ActiveOf(book.states) && archive.workflows == book.states
  {
  }

  lemma {:induction false} RequestLoads(book: Book, archive: Archive, applied: nat, p: (Id, Id))
    requires hide Kept, PairLoads, Shelve;
             Kept(book) && Filled(book.log) && archive == Shelve(book) && Top(book.log) <= applied + 1
             && p in archive.activeRequests
    ensures Open(book.states, p.0) && PairLoads(book, archive, applied, p)
  {
    hide Kept, Slips, SegmentsOf, Expand, Records, ResultSegments;
    assert p == (p.0, p.1);
    PairMember(book.states, book.log, p.0, p.1);
    var i :| 0 <= i < |book.log| && book.log[i].workflow == p.0 && book.log[i].request == p.1;
    SlipsAreFiled(book.log, p.1);
    SlipReads(book, p.1, applied);
    var j :| 0 <= j < |book.log| && book.log[j].request == p.1
          && Expand(p.1, Slips(book.log)[p.1], SegmentsOf(book.log), applied) == Some(book.log[j]);
    FiledOnce(book, i, j);
    KeptUnique(book);
    RecordOf(book.log, i);
  }

  lemma {:induction false} LoadsCount(book: Book, archive: Archive)
    requires hide Kept, Shelve;
             Kept(book) && Filled(book.log) && archive == Shelve(book)
    ensures archive.active <= set p | p in archive.activeRequests :: p.0
  {
    hide Kept, Slips, SegmentsOf, ResultSegments;
    forall w | w in archive.active ensures w in set p | p in archive.activeRequests :: p.0 {
      var i := WorkflowHasReceipt(book, w);
      PairMember(book.states, book.log, w, book.log[i].request);
      assert (w, book.log[i].request) in archive.activeRequests;
    }
  }

  lemma {:induction false} LoadedIsRetained(book: Book, archive: Archive, applied: nat, engine: Ledger)
    requires hide Kept, Coherent, LedgerOf, LoadedRecord, PairLoads, Retained, Filled;
             Kept(book) && Filled(book.log) && archive == Shelve(book)
    requires engine.states == (map w | w in archive.active :: archive.workflows[w])
             && engine.active == engine.states.Keys
    requires engine.requests.Keys == (set p | p in archive.activeRequests :: p.1)
             && engine.index == IndexOf(engine.requests)
    requires forall r | r in engine.requests :: exists p ::
               p in archive.activeRequests && p.1 == r
               && LoadedRecord(archive, applied, p) == Some(engine.requests[r])
    requires forall p | p in archive.activeRequests :: PairLoads(book, archive, applied, p)
    ensures SameTables(engine, Retained(LedgerOf(book))) && Coherent(engine)
  {
    LoadedStates(book, engine.states);
    assert engine.states == Retained(LedgerOf(book)).states;
    LoadedRequests(book, archive, applied, engine.requests);
    hide Kept, Slips, SegmentsOf, LoadedRecord, Records, IndexOf, Retained, LedgerOf, PairLoads, Shelve;
    assert engine.active == ActiveOf(engine.states);
  }

  lemma {:induction false} LoadedStates(book: Book, states: map<Id, Workflow>)
    requires states == map w | w in ActiveOf(book.states) :: book.states[w]
    ensures states == Retained(LedgerOf(book)).states && ActiveOf(states) == states.Keys
  {
    hide Records, IndexOf;
  }

  lemma {:induction false} LoadedRequests(book: Book, archive: Archive, applied: nat, requests: map<Id, Record>)
    requires hide Kept, LedgerOf, LoadedRecord, PairLoads, Retained, Shelve;
             Kept(book) && Filled(book.log) && archive == Shelve(book)
    requires requests.Keys == set p | p in archive.activeRequests :: p.1
    requires forall r | r in requests :: exists p ::
               p in archive.activeRequests && p.1 == r && LoadedRecord(archive, applied, p) == Some(requests[r])
    requires forall p | p in archive.activeRequests :: PairLoads(book, archive, applied, p)
    ensures requests == Retained(LedgerOf(book)).requests
  {
    hide Kept, Shelve, LoadedRecord, Records, IndexOf, Retained, LedgerOf;
    var kept := Retained(LedgerOf(book)).requests;
    forall r ensures r in requests <==> r in kept {
      RequestListed(book, archive, r);
      assert r in requests.Keys <==> exists p :: p in archive.activeRequests && p.1 == r;
    }
    forall r | r in requests ensures requests[r] == kept[r] {
      RetainedRecord(book, r);
      var p :| p in archive.activeRequests && p.1 == r && LoadedRecord(archive, applied, p) == Some(requests[r]);
      assert PairLoads(book, archive, applied, p);
    }
  }

  lemma {:induction false} RetainedRecord(book: Book, r: Id)
    requires r in Retained(LedgerOf(book)).requests
    ensures r in Records(book.log) && Retained(LedgerOf(book)).requests[r] == Records(book.log)[r]
  {
    hide Records, IndexOf;
  }

  lemma {:induction false} RequestListed(book: Book, archive: Archive, r: Id)
    requires hide Kept, LedgerOf, Retained, Shelve;
             Kept(book) && Filled(book.log) && archive == Shelve(book)
    ensures (exists p :: p in archive.activeRequests && p.1 == r) <==> r in Retained(LedgerOf(book)).requests
  {
    hide ResultSegments;
    KeptOwned(book);
    KeptUnique(book);
    RetainedRequest(book, r);
    hide Kept, Slips, SegmentsOf, Records, IndexOf, Retained, LedgerOf, Unique;
    RecordFiled(book.log, r);
    if i :| 0 <= i < |book.log| && book.log[i].request == r {
      RecordOf(book.log, i);
      PairMember(book.states, book.log, book.log[i].workflow, r);
      assert Open(book.states, book.log[i].workflow) ==> (book.log[i].workflow, r) in archive.activeRequests;
      if p :| p in archive.activeRequests && p.1 == r {
        assert p == (p.0, p.1);
        PairMember(book.states, book.log, p.0, p.1);
        var j :| 0 <= j < |book.log| && book.log[j].workflow == p.0 && book.log[j].request == p.1;
        FiledOnce(book, i, j);
      }
    }
    if p :| p in archive.activeRequests && p.1 == r {
      assert p == (p.0, p.1);
      PairMember(book.states, book.log, p.0, p.1);
    }
  }

  // ----- ensureActiveIndex -----

  /** ensureActiveIndex: rebuilding the index from the workflow and receipt records, whatever index is there. It writes
      what keeping it up with every apply and install would have left. */
  method RebuildIndex(archive: Archive, ghost book: Book) returns (ok: bool, rebuilt: Archive)
    requires hide ActivePairs, Kept;
             Kept(book) && Filled(book.log) && archive.workflows == book.states && archive.slips == Slips(book.log)
    ensures ok
            && rebuilt == archive.(active := ActiveOf(book.states),
            activeRequests := ActivePairs(book.states, book.log))
  {
    hide Kept, Slips, ActivePairs;
    var active := set w | w in archive.workflows && !Terminal(archive.workflows[w].status);
    var pairs: set<(Id, Id)> := {};
    var rest := archive.slips.Keys;
    while rest != {}
      invariant rest <= archive.slips.Keys
      invariant forall p :: p in pairs <==>
                  p.1 in archive.slips && p.1 !in rest && archive.slips[p.1].workflow == p.0 && p.0 in active
      decreases |rest|
    {
      var r :| r in rest;
      if archive.slips[r].workflow in active { pairs := pairs + {(archive.slips[r].workflow, r)}; }
      rest := rest - {r};
    }
    forall p ensures p in pairs <==> p in ActivePairs(book.states, book.log) { PairRebuilt(book, p); }
    assert pairs == ActivePairs(book.states, book.log) && active == ActiveOf(book.states);
    IndexCounts(book);
    rebuilt := archive.(active := active, activeRequests := pairs);
    ok := forall w | w in active :: exists p | p in pairs :: p.0 == w;
  }

  lemma {:induction false} IndexCounts(book: Book)
    requires Kept(book)
    ensures forall w | w in ActiveOf(book.states) :: exists p | p in ActivePairs(book.states, book.log) :: p.0 == w
  {
    hide Kept;
    forall w | w in ActiveOf(book.states) ensures exists p | p in ActivePairs(book.states, book.log) :: p.0 == w {
      var i := WorkflowHasReceipt(book, w);
      PairMember(book.states, book.log, w, book.log[i].request);
      assert (w, book.log[i].request) in ActivePairs(book.states, book.log);
    }
  }

  lemma {:induction false} PairRebuilt(book: Book, p: (Id, Id))
    requires hide ActivePairs, Kept;
             Kept(book) && Filled(book.log)
    ensures p in ActivePairs(book.states, book.log) <==>
            p.1 in Slips(book.log) && Slips(book.log)[p.1].workflow == p.0 && Open(book.states, p.0)
  {
    KeptUnique(book);
    hide Kept, Slips, ActivePairs, Unique;
    assert p == (p.0, p.1);
    PairMember(book.states, book.log, p.0, p.1);
    SlipsAreFiled(book.log, p.1);
    if i :| 0 <= i < |book.log| && book.log[i].request == p.1 {
      SlipFiled(book.log, i);
      if j :| 0 <= j < |book.log| && book.log[j].workflow == p.0 && book.log[j].request == p.1 {
        FiledOnce(book, i, j);
      }
    }
  }
}
