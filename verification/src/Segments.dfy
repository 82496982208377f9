/** Building event segments from receipts, and reading a history back: buildEventSegments of
    internal/storage/segments.go and Events of internal/storage/application.go. */
module Segments {
  import opened Base
  import opened Model
  import opened IdOrder
  import opened Sorting
  import opened Filings

  // ----- The order of segments -----

  predicate KeyBefore(a: SegmentKey, b: SegmentKey) {
    if a.0 != b.0 then Before(a.0, b.0) else a.1 < b.1
  }

  predicate InOrder(order: seq<SegmentKey>) {
    forall i, j | 0 <= i < j < |order| :: KeyBefore(order[i], order[j])
  }

  lemma {:induction false} KeyTransitive(a: SegmentKey, b: SegmentKey, c: SegmentKey)
    requires KeyBefore(a, b) && KeyBefore(b, c)
    ensures KeyBefore(a, c)
  {
    Trichotomy(a.0, b.0);
    Trichotomy(b.0, c.0);
    if a.0 != b.0 && b.0 != c.0 { Transitive(a.0, b.0, c.0); }
  }

  lemma {:induction false} KeyTrichotomy(a: SegmentKey, b: SegmentKey)
    ensures a == b || KeyBefore(a, b) || KeyBefore(b, a)
    ensures !(KeyBefore(a, b) && KeyBefore(b, a)) && !KeyBefore(a, a)
  {
    Trichotomy(a.0, b.0);
  }

  /** sort.Slice by workflow and position. */
  method SortedKeys(keys: set<SegmentKey>) returns (order: seq<SegmentKey>)
    ensures InOrder(order) && forall k :: k in order <==> k in keys
  {
    order := [];
    var rest := keys;
    while rest != {}
      invariant rest <= keys && InOrder(order) && forall k :: k in order <==> k in keys && k !in rest
      decreases |rest|
    {
      var k :| k in rest;
      order := InsertKey(k, order);
      rest := rest - {k};
    }
  }

  method InsertKey(k: SegmentKey, order: seq<SegmentKey>) returns (r: seq<SegmentKey>)
    requires InOrder(order) && k !in order
    ensures InOrder(r) && forall x :: x in r <==> x == k || x in order
  {
    var at := |order|;
    while at > 0 && KeyBefore(k, order[at - 1])
      invariant 0 <= at <= |order| && forall j | at <= j < |order| :: KeyBefore(k, order[j])
    {
      at := at - 1;
    }
    r := order[..at] + [k] + order[at..];
    forall j | 0 <= j < at ensures KeyBefore(order[j], k) {
      KeyTrichotomy(k, order[at - 1]);
      if j < at - 1 { KeyTransitive(order[j], order[at - 1], k); }
    }
    Inserted(k, order, at);
  }

  lemma {:induction false} Inserted(k: SegmentKey, order: seq<SegmentKey>, at: nat)
    requires InOrder(order) && at <= |order|
    requires (forall j | 0 <= j < at :: KeyBefore(order[j], k))
             && forall j | at <= j < |order| :: KeyBefore(k, order[j])
    ensures var r := order[..at] + [k] + order[at..]; InOrder(r) && forall x :: x in r <==> x == k || x in order
  {
    hide KeyBefore;
    var r := order[..at] + [k] + order[at..];
    forall i, j | 0 <= i < j < |r| ensures KeyBefore(r[i], r[j]) {
      assert r[i] == (if i < at then order[i] else if i == at then k else order[i - 1]);
      assert r[j] == (if j < at then order[j] else if j == at then k else order[j - 1]);
    }
    assert order == order[..at] + order[at..];
  }

  // ----- Building -----

  /** validEventSegment, for a segment numbered from its first event. */
  predicate ValidSegment(w: Id, index: nat, events: seq<Event>) {
    && w != NO_ID && index > 0 && 0 < |events| <= MAX_SEGMENT_ITEMS && events[0].sequence > 0
    && forall k | 0 <= k < |events| :: SegmentEvent(w, events, k)
  }

  predicate SegmentEvent(w: Id, events: seq<Event>, k: nat)
    requires k < |events|
  {
    var e := events[k];
    && e.workflow == w && e.request != NO_ID && e.hash != NoHash && e.sequence == events[0].sequence + k
    && e.id == EventID(e.workflow, e.sequence, e.kind) && e.at >= 0
  }

  predicate SourceOk(f: Filing) {
    f.workflow != NO_ID && f.index != 0 && f.events != []
  }

  function Gathered(given: seq<Filing>): map<SegmentKey, seq<Event>> {
    map k | k in SegmentKeys(given) :: SortEvents(Segment(given, k.0, k.1))
  }

  /** What is asked of a segment after the one before it, in order. */
  predicate Linked(order: seq<SegmentKey>, segments: map<SegmentKey, seq<Event>>, complete: bool, j: nat)
    requires j < |order| && forall k | k in order :: k in segments && segments[k] != []
  {
    var first := segments[order[j]][0].sequence;
    if j == 0 || order[j - 1].0 != order[j].0 then complete ==> first == 1
    else
      var last := segments[order[j - 1]][|segments[order[j - 1]]| - 1].sequence;
      last != MAX_UINT64 && first == last + 1
  }

  predicate Buildable(given: seq<Filing>, segments: map<SegmentKey, seq<Event>>) {
    && (forall i | 0 <= i < |given| :: SourceOk(given[i]))
    && (forall k | k in segments :: ValidSegment(k.0, k.1, segments[k]))
  }

  /** The groups of a longer list of sources. */
  lemma {:induction false} GroupsGrow(given: seq<Filing>, f: Filing, groups: map<SegmentKey, seq<Event>>)
    requires groups == SegmentsOf(given)
    ensures var key := (f.workflow, f.index);
            SegmentsOf(given + [f]) == groups[key := (if key in groups then groups[key] else []) + f.events]
  {
    var all, key := given + [f], (f.workflow, f.index);
    assert all[..|given|] == given;
    forall k ensures k in SegmentKeys(all) <==> k in SegmentKeys(given) || k == key {
      if k in SegmentKeys(given) {
        var i :| 0 <= i < |given| && k == (given[i].workflow, given[i].index);
        assert all[i] == given[i];
      }
      assert all[|given|] == f;
    }
    if key !in SegmentKeys(given) {
      forall i | 0 <= i < |given| ensures given[i].workflow == f.workflow ==> given[i].index != f.index {
        assert (given[i].workflow, given[i].index) in SegmentKeys(given);
      }
      TakenNone(given, f.workflow, f.index, f.index + 1);
    }
    forall k: SegmentKey ensures Segment(all, k.0, k.1) == Segment(given, k.0, k.1) + if k == key then f.events
        else [] {}
    hide Segment;
    var expected := groups[key := (if key in groups then groups[key] else []) + f.events];
    forall k | k in SegmentKeys(all) ensures k in expected && expected[k] == Segment(all, k.0, k.1) {
      assert Segment(all, k.0, k.1) == Segment(given, k.0, k.1) + if k == key then f.events else [];
    }
  }

  method Group(given: seq<Filing>) returns (ok: bool, groups: map<SegmentKey, seq<Event>>)
    ensures ok <==> forall i | 0 <= i < |given| :: SourceOk(given[i])
    ensures ok ==> groups == SegmentsOf(given)
  {
    groups := map[];
    for n := 0 to |given|
      invariant groups == SegmentsOf(given[..n]) && forall i | 0 <= i < n :: SourceOk(given[i])
    {
      if !SourceOk(given[n]) { return false, groups; }
      var key := (given[n].workflow, given[n].index);
      assert given[..n + 1] == given[..n] + [given[n]];
      GroupsGrow(given[..n], given[n], groups);
      groups := groups[key := (if key in groups then groups[key] else []) + given[n].events];
    }
    assert given[..|given|] == given;
    ok := true;
  }

  method SortGroups(groups: map<SegmentKey, seq<Event>>) returns (ok: bool, segments: map<SegmentKey, seq<Event>>)
    ensures hide ValidSegment;
            var all := map k | k in groups :: SortEvents(groups[k]);
            (ok <==> forall k | k in all :: ValidSegment(k.0, k.1, all[k])) && (ok ==> segments == all)
  {
    hide SortEvents, ValidSegment;
    segments := map[];
    ghost var all := map k | k in groups :: SortEvents(groups[k]);
    var rest := groups.Keys;
    while rest != {}
      invariant rest <= groups.Keys && segments.Keys == groups.Keys - rest
      invariant forall k | k in segments :: segments[k] == all[k] && ValidSegment(k.0, k.1, segments[k])
      decreases |rest|
    {
      var k :| k in rest;
      var events := SortEvents(groups[k]);
      if !ValidSegment(k.0, k.1, events) {
        assert all[k] == events;
        return false, segments;
      }
      segments := segments[k := events];
      rest := rest - {k};
    }
    ok := true;
  }

  method CheckLinks(order: seq<SegmentKey>, segments: map<SegmentKey, seq<Event>>, complete: bool) returns (ok: bool)
    requires forall k | k in order :: k in segments && segments[k] != []
    ensures ok <==> forall j | 0 <= j < |order| :: Linked(order, segments, complete, j)
  {
    for j := 0 to |order|
      invariant forall i | 0 <= i < j :: Linked(order, segments, complete, i)
    {
      if !Linked(order, segments, complete, j) { return false; }
    }
    ok := true;
  }

  /** buildEventSegments: the sorted segments and their order, or a refusal exactly when a source or a segment is
      not valid or a segment does not follow the one before. */
  method BuildSegments(given: seq<Filing>, complete: bool)
    returns (ok: bool, segments: map<SegmentKey, seq<Event>>, order: seq<SegmentKey>)
    ensures hide Gathered, KeyBefore;
            ok ==> Buildable(given, Gathered(given))
    ensures Buildable(given, Gathered(given)) ==>
              && segments == Gathered(given) && InOrder(order) && (forall k :: k in order <==> k in segments)
              && (ok <==> forall j | 0 <= j < |order| :: Linked(order, segments, complete, j))
  {
    hide SortEvents, Segment, Linked, InOrder, ValidSegment;
    segments, order := map[], [];
    var groups;
    ok, groups := Group(given);
    if !ok { return; }
    ok, segments := SortGroups(groups);
    assert (map k | k in groups :: SortEvents(groups[k])) == Gathered(given);
    if !ok { return; }
    order := SortedKeys(segments.Keys);
    forall k | k in order ensures k in segments && segments[k] != [] { SegmentNotEmpty(k, segments[k]); }
    ok := CheckLinks(order, segments, complete);
  }

  lemma {:induction false} SegmentNotEmpty(k: SegmentKey, events: seq<Event>)
    requires ValidSegment(k.0, k.1, events)
    ensures events != []
  {
  }

  // ----- What is built -----

  /** The events of a range are those of its receipts. */
  lemma {:induction false} TakenMember(log: seq<Filing>, w: Id, lo: nat, hi: nat, e: Event)
    ensures e in Taken(log, w, lo, hi) <==> exists i ::
              0 <= i < |log| && log[i].workflow == w && lo <= log[i].index < hi && e in log[i].events
  {
    if log != [] {
      var front, last := log[..|log| - 1], log[|log| - 1];
      TakenMember(front, w, lo, hi, e);
      if i :| 0 <= i < |front| && front[i].workflow == w && lo <= front[i].index < hi && e in front[i].events {
        assert log[i] == front[i];
      }
      if i :| 0 <= i < |log| && log[i].workflow == w && lo <= log[i].index < hi && e in log[i].events {
        if i < |front| { assert front[i] == log[i]; }
      }
    }
  }

  /** The receipts of a list from a position on, in any order. */
  ghost predicate Gives(given: seq<Filing>, log: seq<Filing>, cut: nat) {
    && Unique(given)
    && (forall f :: f in given <==> f in log && f.index >= cut)
  }

  lemma {:induction false} GivenMembers(log: seq<Filing>, given: seq<Filing>, cut: nat, w: Id, i: nat, e: Event)
    requires Gives(given, log, cut) && cut <= i
    ensures e in Segment(given, w, i) <==> e in Segment(log, w, i)
  {
    hide Unique;
    TakenMember(given, w, i, i + 1, e);
    TakenMember(log, w, i, i + 1, e);
    if k :| 0 <= k < |given| && given[k].workflow == w && i <= given[k].index < i + 1 && e in given[k].events {
      assert given[k] in log;
      var j :| 0 <= j < |log| && log[j] == given[k];
    }
    if k :| 0 <= k < |log| && log[k].workflow == w && i <= log[k].index < i + 1 && e in log[k].events {
      assert log[k] in given;
      var j :| 0 <= j < |given| && given[j] == log[k];
    }
  }

  /** In a segment, a number names one event. */
  lemma {:induction false} SegmentNumberOnce(log: seq<Filing>, w: Id, i: nat, x: Event, y: Event)
    requires Filed(log) && x in Segment(log, w, i) && y in Segment(log, w, i) && x.sequence == y.sequence
    ensures x == y
  {
    SegmentCounts(log, w, i);
  }

  lemma {:induction false} FilingTagged(log: seq<Filing>, f: Filing, e: Event)
    requires Filed(log) && f in log && e in f.events
    ensures e.request == f.request
  {
    hide Unique, Ordered, Counting;
    var i :| 0 <= i < |log| && log[i] == f;
    assert FilingOk(log[i]);
    var k :| 0 <= k < |f.events| && f.events[k] == e;
    assert EventFits(f, k);
  }

  lemma {:induction false} FilingAscends(log: seq<Filing>, f: Filing)
    requires Filed(log) && f in log
    ensures Ascending(f.events)
  {
    hide Unique, Ordered, Counting;
    var i :| 0 <= i < |log| && log[i] == f;
    assert FilingOk(log[i]);
    forall a, b | 0 <= a < b < |f.events| ensures f.events[a].sequence < f.events[b].sequence {
      assert EventFits(f, a) && EventFits(f, b);
    }
  }

  /** However the receipts are listed, a segment gathers each number once. */
  lemma {:induction false} GatheredDistinct(log: seq<Filing>, given: seq<Filing>, w: Id, i: nat)
    requires Filed(log) && Unique(given) && forall f | f in given :: f in log
    ensures DistinctNumbers(Segment(given, w, i))
  {
    if given != [] {
      var front, last := given[..|given| - 1], given[|given| - 1];
      hide Filed;
      forall f | f in front ensures f in log { assert f in given; }
      GatheredDistinct(log, front, w, i);
      assert last in given;
      if last.workflow == w && last.index == i {
        FilingAscends(log, last);
        forall x, y | x in Segment(front, w, i) && y in last.events ensures x.sequence != y.sequence {
          Apart(log, given, w, i, x, y);
        }
        DistinctJoin(Segment(front, w, i), last.events);
        assert Segment(given, w, i) == Segment(front, w, i) + last.events;
      } else {
        assert Segment(given, w, i) == Segment(front, w, i);
      }
    }
  }

  lemma {:induction false} Apart(log: seq<Filing>, given: seq<Filing>, w: Id, i: nat, x: Event, y: Event)
    requires hide Filed;
             Filed(log) && given != [] && Unique(given) && forall f | f in given :: f in log
    requires given[|given| - 1].workflow == w && given[|given| - 1].index == i
    requires x in Segment(given[..|given| - 1], w, i) && y in given[|given| - 1].events
    ensures x.sequence != y.sequence
  {
    var front, last := given[..|given| - 1], given[|given| - 1];
    hide Filed;
    TakenMember(front, w, i, i + 1, x);
    var k :| 0 <= k < |front| && front[k].workflow == w && i <= front[k].index < i + 1 && x in front[k].events;
    assert given[k] == front[k] && given[k] in log && last in given;
    FilingTagged(log, front[k], x);
    FilingTagged(log, last, y);
    assert given[k].request != last.request;
    InLog(log, front[k], w, i, x);
    InLog(log, last, w, i, y);
    if x.sequence == y.sequence { SegmentNumberOnce(log, w, i, x, y); }
  }

  lemma {:induction false} InLog(log: seq<Filing>, f: Filing, w: Id, i: nat, e: Event)
    requires f in log && f.workflow == w && f.index == i && e in f.events
    ensures e in Segment(log, w, i)
  {
    TakenMember(log, w, i, i + 1, e);
    var k :| 0 <= k < |log| && log[k] == f;
  }

  /** Sorting a gathered segment gives the segment of the list. */
  lemma {:induction false} GatheredExact(log: seq<Filing>, given: seq<Filing>, cut: nat, w: Id, i: nat)
    requires Filed(log) && Gives(given, log, cut) && cut <= i
    ensures SortEvents(Segment(given, w, i)) == Segment(log, w, i)
  {
    var group, seg := Segment(given, w, i), Segment(log, w, i);
    GatheredDistinct(log, given, w, i);
    SortAscending(group);
    SegmentCounts(log, w, i);
    var sorted := SortEvents(group);
    hide Filed, Segment, SortEvents;
    forall e ensures e in sorted <==> e in seg {
      GivenMembers(log, given, cut, w, i, e);
      assert e in sorted <==> e in multiset(sorted);
      assert e in group <==> e in multiset(group);
    }
    AscendingUnique(sorted, seg);
  }

  lemma {:induction false} SegmentFound(log: seq<Filing>, k: SegmentKey)
    requires forall i | 0 <= i < |log| :: log[i].events != []
    ensures k in SegmentKeys(log) <==> Segment(log, k.0, k.1) != []
  {
    if Segment(log, k.0, k.1) != [] {
      TakenMember(log, k.0, k.1, k.1 + 1, Segment(log, k.0, k.1)[0]);
    }
    if k in SegmentKeys(log) {
      var i :| 0 <= i < |log| && k == (log[i].workflow, log[i].index);
      assert log[i].events[0] in log[i].events;
      TakenMember(log, k.0, k.1, k.1 + 1, log[i].events[0]);
    }
  }

  lemma {:induction false} SegmentValid(log: seq<Filing>, k: SegmentKey)
    requires Filed(log) && k in SegmentKeys(log)
    ensures Segment(log, k.0, k.1) != []
    ensures Sized(log) ==> ValidSegment(k.0, k.1, Segment(log, k.0, k.1))
  {
    var seg := Segment(log, k.0, k.1);
    SegmentCounts(log, k.0, k.1);
    var n :| 0 <= n < |log| && k == (log[n].workflow, log[n].index);
    assert FilingOk(log[n]);
    SegmentFound(log, k);
    hide Taken, Unique, Ordered, Counting;
    forall j | 0 <= j < |seg| ensures SegmentEvent(k.0, seg, j) {
      TakenMember(log, k.0, k.1, k.1 + 1, seg[j]);
      var i :| 0 <= i < |log| && log[i].workflow == k.0 && k.1 <= log[i].index < k.1 + 1 && seg[j] in log[i].events;
      assert FilingOk(log[i]);
      var x :| 0 <= x < |log[i].events| && log[i].events[x] == seg[j];
      assert EventFits(log[i], x);
    }
  }

  /** Between the positions of two segments of a workflow that follow each other there is nothing. */
  lemma {:induction false} NothingBetween(log: seq<Filing>, w: Id, lo: nat, hi: nat)
    requires hide Filed;
             Filed(log) && lo <= hi && forall i | lo <= i < hi :: (w, i) !in SegmentKeys(log)
    ensures Taken(log, w, 0, hi) == Taken(log, w, 0, lo)
  {
    TakenSplit(log, w, 0, lo, hi);
    forall i | 0 <= i < |log| ensures log[i].workflow == w ==> !(lo <= log[i].index < hi) {
      assert (log[i].workflow, log[i].index) in SegmentKeys(log);
    }
    TakenNone(log, w, lo, hi);
  }

  /** The part of a store's segments from a position on. */
  function SegmentsFrom(log: seq<Filing>, cut: nat): map<SegmentKey, seq<Event>> {
    map k | k in SegmentKeys(log) && k.1 >= cut :: Segment(log, k.0, k.1)
  }

  lemma {:induction false} GivenKeys(log: seq<Filing>, given: seq<Filing>, cut: nat, k: SegmentKey)
    requires Gives(given, log, cut)
    ensures k in SegmentKeys(given) <==> k in SegmentKeys(log) && k.1 >= cut
  {
    if k in SegmentKeys(given) {
      var i :| 0 <= i < |given| && k == (given[i].workflow, given[i].index);
      assert given[i] in log;
      var j :| 0 <= j < |log| && log[j] == given[i];
    }
    if k in SegmentKeys(log) && k.1 >= cut {
      var i :| 0 <= i < |log| && k == (log[i].workflow, log[i].index);
      assert log[i] in given;
      var j :| 0 <= j < |given| && given[j] == log[i];
    }
  }

  lemma {:induction false} BuildsSegments(log: seq<Filing>, given: seq<Filing>, cut: nat)
    requires Filed(log) && Gives(given, log, cut)
    ensures Gathered(given) == SegmentsFrom(log, cut) && (Sized(log) ==> Buildable(given, Gathered(given)))
  {
    hide Segment, SortEvents, ValidSegment, Unique, Sized;
    forall k ensures k in SegmentKeys(given) <==> k in SegmentKeys(log) && k.1 >= cut { GivenKeys(log, given, cut, k); }
    forall k | k in SegmentKeys(given) ensures Gathered(given)[k] == Segment(log, k.0, k.1)
        && (Sized(log) ==> ValidSegment(k.0, k.1, Segment(log, k.0, k.1))) {
      GatheredExact(log, given, cut, k.0, k.1);
      SegmentValid(log, k);
    }
    forall i | 0 <= i < |given| ensures SourceOk(given[i]) {
      assert given[i] in log;
      var j :| 0 <= j < |log| && log[j] == given[i];
      assert FilingOk(log[j]);
    }
  }

  /** A key before another in the list is not after its neighbour. */
  lemma {:induction false} NoneBetween(order: seq<SegmentKey>, m: nat, j: nat)
    requires InOrder(order) && m < |order| && j < |order| && KeyBefore(order[m], order[j])
    ensures m < j && (m == j - 1 || order[m].0 != order[j].0
            || (order[j - 1].0 == order[j].0 && order[m].1 < order[j - 1].1))
  {
    KeyTrichotomy(order[m], order[j]);
    if m < j - 1 {
      assert KeyBefore(order[m], order[j - 1]) && KeyBefore(order[j - 1], order[j]);
      Trichotomy(order[j - 1].0, order[j].0);
    }
  }

  lemma {:induction false} BetweenNothing(log: seq<Filing>, cut: nat, order: seq<SegmentKey>, j: nat, x: nat)
    requires InOrder(order) && (forall k :: k in order <==> k in SegmentsFrom(log, cut)) && j < |order|
             && cut <= x < order[j].1
    requires j > 0 && order[j - 1].0 == order[j].0 ==> order[j - 1].1 < x
    ensures (order[j].0, x) !in SegmentKeys(log)
  {
    var key := (order[j].0, x);
    if key in SegmentKeys(log) {
      assert key in SegmentsFrom(log, cut);
      var m :| 0 <= m < |order| && order[m] == key;
      KeyTrichotomy(key, order[j]);
      NoneBetween(order, m, j);
      assert false;
    }
  }

  /** Segments in order join up, and the first of a complete list starts at one. */
  lemma {:induction false} SegmentsLink(log: seq<Filing>, cut: nat, order: seq<SegmentKey>, complete: bool, j: nat)
    requires hide Filed, InOrder, SegmentsFrom;
             Filed(log) && (complete ==> cut == 0) && InOrder(order)
             && (forall k :: k in order <==> k in SegmentsFrom(log, cut)) && j < |order|
    ensures (forall k | k in order :: SegmentsFrom(log, cut)[k] != [])
            && Linked(order, SegmentsFrom(log, cut), complete, j)
  {
    var segments, w, i := SegmentsFrom(log, cut), order[j].0, order[j].1;
    forall k | k in order ensures segments[k] != [] { SegmentValid(log, k); }
    assert order[j] in segments;
    SegmentCounts(log, w, i);
    var lo := if j == 0 || order[j - 1].0 != w then cut else order[j - 1].1 + 1;
    if j > 0 && order[j - 1].0 == w {
      assert order[j - 1] in segments && KeyBefore(order[j - 1], order[j]);
      SegmentCounts(log, w, order[j - 1].1);
      TakenSplit(log, w, 0, order[j - 1].1, lo);
    }
    hide Taken, Filed, Segment;
    forall x | lo <= x < i ensures (w, x) !in SegmentKeys(log) { BetweenNothing(log, cut, order, j, x); }
    if j > 0 && order[j - 1].0 == w {
      NothingBetween(log, w, lo, i);
    } else if complete {
      NothingBetween(log, w, 0, i);
      TakenNone(log, w, 0, 0);
    }
  }

  /** What is built from the receipts of a store from a position on, in whatever order they are listed, is the
      store's own segments from there. */
  method Rebuild(ghost log: seq<Filing>, given: seq<Filing>, ghost cut: nat, complete: bool)
    returns (ok: bool, segments: map<SegmentKey, seq<Event>>)
    requires Filed(log) && Sized(log) && Gives(given, log, cut) && (complete ==> cut == 0)
    ensures ok && segments == SegmentsFrom(log, cut)
  {
    hide *;
    var order;
    ok, segments, order := BuildSegments(given, complete);
    BuildsSegments(log, given, cut);
    SegmentsAllLink(log, cut, order, complete);
  }

  lemma {:induction false} SegmentsAllLink(log: seq<Filing>, cut: nat, order: seq<SegmentKey>, complete: bool)
    requires hide Filed, InOrder, SegmentsFrom;
             Filed(log) && (complete ==> cut == 0) && InOrder(order) && forall k ::
               k in order <==> k in SegmentsFrom(log, cut)
    ensures forall k | k in order :: SegmentsFrom(log, cut)[k] != []
    ensures forall j | 0 <= j < |order| :: Linked(order, SegmentsFrom(log, cut), complete, j)
  {
    hide Filed, InOrder, Linked, ValidSegment, Segment;
    forall k | k in order ensures SegmentsFrom(log, cut)[k] != [] {
      SegmentValid(log, k);
    }
    forall j | 0 <= j < |order|
        ensures Linked(order, SegmentsFrom(log, cut), complete, j) { SegmentsLink(log, cut, order, complete, j); }
  }

  lemma {:induction false} AllSegments(log: seq<Filing>)
    ensures SegmentsFrom(log, 0) == SegmentsOf(log)
  {
  }

  // ----- Reading a history -----

  /** The segments of one workflow, in key order. */
  method KeysOf(segments: map<SegmentKey, seq<Event>>, w: Id) returns (order: seq<SegmentKey>)
    ensures InOrder(order) && forall k :: k in order <==> k in segments && k.0 == w
  {
    order := SortedKeys(set k | k in segments && k.0 == w);
  }

  /** Events: the segments of a workflow in key order, joined; a gap, an invalid segment or one past the applied
      index refuses. On a store's segments it gives the whole history. */
  method Events(segments: map<SegmentKey, seq<Event>>, w: Id, applied: nat, ghost log: seq<Filing>)
    returns (r: Option<seq<Event>>)
    ensures Filed(log) && Sized(log) && segments == SegmentsOf(log) && Top(log) <= applied + 1
            ==> r == Some(History(log, w))
  {
    hide *;
    var order := KeysOf(segments, w);
    var events: seq<Event> := [];
    var last: nat := 0;
    ghost var good := Filed(log) && Sized(log) && segments == SegmentsOf(log) && Top(log) <= applied + 1;
    if good { ReadNothing(log, segments, order, w); }
    for j := 0 to |order|
      invariant good ==> Reading(log, segments, order, w, j, events, last)
    {
      var segment := segments[order[j]];
      if good { ReadNext(log, segments, order, w, j, events, last, applied); }
      if !ValidSegment(order[j].0, order[j].1, segment) || order[j].1 > applied { return None; }
      ValidHasEvents(order[j], segment);
      if last == MAX_UINT64 || segment[0].sequence != last + 1 { return None; }
      events, last := events + segment, segment[|segment| - 1].sequence;
    }
    if good { ReadAll(log, segments, order, w, events, last); }
    return Some(events);
  }

  lemma {:induction false} ValidHasEvents(k: SegmentKey, events: seq<Event>)
    requires ValidSegment(k.0, k.1, events)
    ensures events != [] && events[|events| - 1].sequence > 0
  {
    assert SegmentEvent(k.0, events, |events| - 1);
  }

  /** Where reading stands after the first segments of a workflow. */
  ghost predicate Reading(log: seq<Filing>, segments: map<SegmentKey, seq<Event>>, order: seq<SegmentKey>, w: Id,
                          j: nat, events: seq<Event>, last: nat) {
    hide Filed, InOrder, SegmentsOf, Sized;
    && Filed(log) && Sized(log) && segments == SegmentsOf(log) && InOrder(order)
        && (forall k :: k in order <==> k in segments && k.0 == w) && j <= |order|
    && events == Taken(log, w, 0, if j == 0 then 0 else order[j - 1].1 + 1)
    && last == |events|
  }

  lemma {:induction false} ReadNothing(log: seq<Filing>, segments: map<SegmentKey, seq<Event>>,
                                       order: seq<SegmentKey>, w: Id)
    requires hide Filed, InOrder, Reading, SegmentsOf, Sized;
             Filed(log) && Sized(log) && segments == SegmentsOf(log) && InOrder(order) && forall k ::
               k in order <==> k in segments && k.0 == w
    ensures Reading(log, segments, order, w, 0, [], 0)
  {
    hide Filed, InOrder, SegmentsOf;
    TakenNone(log, w, 0, 0);
  }

  lemma {:induction false} Skipped(log: seq<Filing>, order: seq<SegmentKey>, w: Id, j: nat, x: nat)
    requires InOrder(order) && (forall k :: k in order <==> k in SegmentsOf(log) && k.0 == w) && j <= |order|
    requires (j > 0 ==> order[j - 1].1 < x) && (j < |order| ==> x < order[j].1)
    ensures (w, x) !in SegmentKeys(log)
  {
    forall m | 0 <= m < |order| ensures order[m] != (w, x) {
      assert order[m] in order;
      if m < j {
        assert order[j - 1] in order && (m < j - 1 ==> KeyBefore(order[m], order[j - 1]));
      } else {
        assert order[j] in order && (j < m ==> KeyBefore(order[j], order[m]));
      }
    }
    assert (w, x) !in order;
  }

  lemma {:induction false} ReadNext(log: seq<Filing>, segments: map<SegmentKey, seq<Event>>, order: seq<SegmentKey>,
                                    w: Id, j: nat, events: seq<Event>, last: nat, applied: nat)
    requires hide Reading, ValidSegment;
             Reading(log, segments, order, w, j, events, last) && j < |order| && Top(log) <= applied + 1
    ensures order[j] in segments && order[j].0 == w && order[j].1 <= applied
    ensures var segment := segments[order[j]];
            && ValidSegment(w, order[j].1, segment) && last != MAX_UINT64 && segment != []
                && segment[0].sequence == last + 1
            && Reading(log, segments, order, w, j + 1, events + segment, segment[|segment| - 1].sequence)
  {
    assert order[j] in order;
    var lo, i := if j == 0 then 0 else order[j - 1].1 + 1, order[j].1;
    if j > 0 { assert order[j - 1] in order && KeyBefore(order[j - 1], order[j]); }
    hide Taken, Filed;
    forall x | lo <= x < i ensures (w, x) !in SegmentKeys(log) { Skipped(log, order, w, j, x); }
    NothingBetween(log, w, lo, i);
    FiledOrdered(log);
    TakenSplit(log, w, 0, i, i + 1);
    SegmentCounts(log, w, i);
    SegmentValid(log, order[j]);
    KeyBelowTop(log, order[j]);
  }

  lemma {:induction false} FiledOrdered(log: seq<Filing>)
    requires Filed(log)
    ensures Ordered(log)
  {
  }

  lemma {:induction false} KeyBelowTop(log: seq<Filing>, k: SegmentKey)
    requires Filed(log) && k in SegmentKeys(log)
    ensures k.1 < Top(log)
  {
    hide Unique, Counting, FilingOk;
    var i :| 0 <= i < |log| && k == (log[i].workflow, log[i].index);
    if i < |log| - 1 { assert log[i].index <= log[|log| - 1].index; }
  }

  lemma {:induction false} ReadAll(log: seq<Filing>, segments: map<SegmentKey, seq<Event>>, order: seq<SegmentKey>,
                                   w: Id, events: seq<Event>, last: nat)
    requires hide History, Reading;
             Reading(log, segments, order, w, |order|, events, last)
    ensures events == History(log, w)
  {
    var n := |order|;
    var lo := if n == 0 then 0 else order[n - 1].1 + 1;
    if n > 0 {
      assert order[n - 1] in order;
      KeyBelowTop(log, order[n - 1]);
    }
    hide Taken, Filed;
    forall x | lo <= x < Top(log) ensures (w, x) !in SegmentKeys(log) { Skipped(log, order, w, n, x); }
    NothingBetween(log, w, lo, Top(log));
  }
}
