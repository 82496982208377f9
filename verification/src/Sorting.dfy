/** Events sorted by sequence. */
module Sorting {
  import opened Model

  /** sort.Slice by sequence. */
  function SortEvents(events: seq<Event>): (r: seq<Event>)
    ensures multiset(r) == multiset(events)
  {
    if events == [] then []
    else
      assert events == events[..|events| - 1] + [events[|events| - 1]];
      InsertEvent(events[|events| - 1], SortEvents(events[..|events| - 1]))
  }

  function InsertEvent(e: Event, events: seq<Event>): (r: seq<Event>)
    ensures multiset(r) == multiset(events) + multiset{e}
  {
    if events == [] then [e]
    else
      assert events == events[..|events| - 1] + [events[|events| - 1]];
      if e.sequence < events[|events| - 1].sequence
      then InsertEvent(e, events[..|events| - 1]) + [events[|events| - 1]]
      else events + [e]
  }

  predicate Ascending(events: seq<Event>) {
    forall i, j | 0 <= i < j < |events| :: events[i].sequence < events[j].sequence
  }

  predicate DistinctNumbers(events: seq<Event>) {
    forall i, j | 0 <= i < j < |events| :: events[i].sequence != events[j].sequence
  }

  lemma {:induction false} AscendingLonger(events: seq<Event>, e: Event)
    requires Ascending(events) && forall x | x in events :: x.sequence < e.sequence
    ensures Ascending(events + [e])
  {
    var r := events + [e];
    forall i, j | 0 <= i < j < |r| ensures r[i].sequence < r[j].sequence {
      if j == |events| { assert r[i] == events[i] && events[i] in events; }
    }
  }

  /** The last event is the greatest. */
  lemma {:induction false} LastGreatest(events: seq<Event>, e: Event)
    requires Ascending(events) && e in events
    ensures Ascending(events[..|events| - 1])
    ensures e == events[|events| - 1] || (e in events[..|events| - 1] && e.sequence < events[|events| - 1].sequence)
  {
    var k :| 0 <= k < |events| && events[k] == e;
    if k < |events| - 1 { assert events[..|events| - 1][k] == e; }
  }

  lemma {:induction false} InsertAscending(e: Event, events: seq<Event>)
    requires Ascending(events) && forall x | x in events :: x.sequence != e.sequence
    ensures Ascending(InsertEvent(e, events))
  {
    if events != [] {
      var front, last := events[..|events| - 1], events[|events| - 1];
      forall x | x in events ensures x == last || (x in front
          && x.sequence < last.sequence) { LastGreatest(events, x); }
      if e.sequence < last.sequence {
        assert events == front + [last];
        InsertAscending(e, front);
        var r := InsertEvent(e, front);
        hide InsertEvent;
        forall x | x in r ensures x.sequence < last.sequence {
          assert x in multiset(r);
          assert x == e || x in front;
          LastGreatest(events, last);
        }
        AscendingLonger(r, last);
      } else {
        AscendingLonger(events, e);
      }
    }
  }

  lemma {:induction false} SortAscending(events: seq<Event>)
    requires DistinctNumbers(events)
    ensures Ascending(SortEvents(events))
  {
    if events != [] {
      var front, last := events[..|events| - 1], events[|events| - 1];
      SortAscending(front);
      forall x | x in SortEvents(front) ensures x.sequence != last.sequence {
        assert x in multiset(SortEvents(front));
        assert x in multiset(front);
        var k :| 0 <= k < |front| && front[k] == x;
        assert events[k].sequence != events[|events| - 1].sequence;
      }
      InsertAscending(last, SortEvents(front));
    }
  }

  /** An ascending list is determined by its elements. */
  lemma {:induction false} AscendingUnique(a: seq<Event>, b: seq<Event>)
    requires Ascending(a) && Ascending(b) && forall e :: e in a <==> e in b
    ensures a == b
  {
    if a == [] {
      if b != [] { SameElements(b, a); }
    } else {
      assert a[0] in b;
      var p, x, q, y := a[..|a| - 1], a[|a| - 1], b[..|b| - 1], b[|b| - 1];
      assert a == p + [x] && b == q + [y];
      LastGreatest(b, x);
      LastGreatest(a, y);
      forall e ensures e in p <==> e in q {
        if e in a { LastGreatest(a, e); LastGreatest(b, e); }
        AscendingOnce(a);
        AscendingOnce(b);
      }
      AscendingUnique(p, q);
    }
  }

  lemma {:induction false} SameElements(b: seq<Event>, a: seq<Event>)
    requires b != [] && forall e | e in b :: e in a
    ensures a != []
  {
    assert b[0] in a;
  }

  lemma {:induction false} AscendingOnce(a: seq<Event>)
    requires Ascending(a) && a != []
    ensures a[|a| - 1] !in a[..|a| - 1]
  {
  }

  lemma {:induction false} DistinctJoin(a: seq<Event>, b: seq<Event>)
    requires DistinctNumbers(a) && Ascending(b)
    requires forall x, y | x in a && y in b :: x.sequence != y.sequence
    ensures DistinctNumbers(a + b)
  {
    var r := a + b;
    forall i, j | 0 <= i < j < |r| ensures r[i].sequence != r[j].sequence {
      if i < |a| <= j { assert r[i] in a && r[j] in b; }
      else if i >= |a| { assert b[i - |a|].sequence < b[j - |a|].sequence; }
    }
  }
}
