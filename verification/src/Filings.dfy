/** Receipts stored as slices of event segments: internal/storage/segments.go and internal/storage/receipt.go. */
module Filings {
  import opened Base
  import opened Model
  const MAX_SEGMENT_ITEMS := 0x10_0000

  /** An accepted request with its result and the log position that accepted it. A store's receipts, in the order
      they were accepted, are a list of these. */
  datatype Filing = Filing(request: Id, hash: Hash, workflow: Id, events: seq<Event>, index: nat, term: nat)

  /** receiptRecord: the result is given by the numbers of its first and last event. */
  datatype Slip = Slip(hash: Hash, workflow: Id, index: nat, term: nat, first: nat, last: nat)

  type SegmentKey = (Id, nat)

  /** Event `k` of a receipt carries the receipt's own metadata and the next number. */
  predicate EventFits(f: Filing, k: nat)
    requires k < |f.events|
  {
    var e := f.events[k];
    && e.request == f.request && e.hash == f.hash && e.workflow == f.workflow && e.at >= 0
    && e.sequence == f.events[0].sequence + k && e.id == EventID(e.workflow, e.sequence, e.kind)
  }

  predicate FilingOk(f: Filing) {
    && f.request != NO_ID && f.hash != NoHash && f.workflow != NO_ID && f.index > 0 && f.term > 0 && f.events != []
    && forall k | 0 <= k < |f.events| :: EventFits(f, k)
  }

  /** The events of a workflow that were accepted at positions from lo up to hi. */
  function Taken(log: seq<Filing>, w: Id, lo: nat, hi: nat): seq<Event> {
    if log == [] then []
    else
      var last := log[|log| - 1];
      Taken(log[..|log| - 1], w, lo, hi) + (if last.workflow == w && lo <= last.index < hi then last.events else [])
  }

  function Segment(log: seq<Filing>, w: Id, i: nat): seq<Event> {
    Taken(log, w, i, i + 1)
  }

  predicate Ordered(log: seq<Filing>) {
    forall i, j | 0 <= i < j < |log| :: log[i].index <= log[j].index
  }

  predicate Unique(log: seq<Filing>) {
    forall i, j | 0 <= i < j < |log| :: log[i].request != log[j].request
  }

  /** A position past the last receipt. */
  function Top(log: seq<Filing>): nat {
    if log == [] then 0 else log[|log| - 1].index + 1
  }

  function History(log: seq<Filing>, w: Id): seq<Event> {
    Taken(log, w, 0, Top(log))
  }

  predicate Counting(events: seq<Event>) {
    forall k | 0 <= k < |events| :: events[k].sequence == k + 1
  }

  /** No segment is over its bound. */
  ghost predicate Sized(log: seq<Filing>) {
    forall w, i: nat :: |Segment(log, w, i)| <= MAX_SEGMENT_ITEMS
  }

  /** What a list of accepted receipts is: each request once, positions in order, and the events of every workflow
      numbered from one. */
  ghost predicate Filed(log: seq<Filing>) {
    hide FilingOk, History;
    && (forall i | 0 <= i < |log| :: FilingOk(log[i]))
    && Unique(log) && Ordered(log)
    && forall w :: Counting(History(log, w))
  }

  /** compactReceipt */
  function SlipOf(f: Filing): Slip
    requires f.events != []
  {
    Slip(f.hash, f.workflow, f.index, f.term, f.events[0].sequence, f.events[|f.events| - 1].sequence)
  }

  function Slips(log: seq<Filing>): map<Id, Slip>
    requires forall i | 0 <= i < |log| :: log[i].events != []
  {
    if log == [] then map[]
    else Slips(log[..|log| - 1])[log[|log| - 1].request := SlipOf(log[|log| - 1])]
  }

  function SegmentKeys(log: seq<Filing>): set<SegmentKey> {
    set i | 0 <= i < |log| :: (log[i].workflow, log[i].index)
  }

  /** The segments of a list: the events of a workflow accepted at one position. */
  function SegmentsOf(log: seq<Filing>): map<SegmentKey, seq<Event>> {
    map k | k in SegmentKeys(log) :: Segment(log, k.0, k.1)
  }

  /** validReceiptEvent */
  predicate SlipEvent(request: Id, slip: Slip, e: Event, sequence: int) {
    && e.workflow == slip.workflow && e.request == request && e.hash == slip.hash && e.sequence == sequence
    && e.id == EventID(e.workflow, e.sequence, e.kind) && e.at >= 0
  }

  /** expandReceiptCached, on segments that decode. */
  function Expand(request: Id, slip: Slip, segments: map<SegmentKey, seq<Event>>, applied: nat): Option<Filing> {
    if slip.index > applied || (slip.workflow, slip.index) !in segments then None
    else
      var events := segments[(slip.workflow, slip.index)];
      if events == [] || slip.first < events[0].sequence || slip.last > events[|events| - 1].sequence
          || slip.last < slip.first then None
      else
        var first, last := slip.first - events[0].sequence, slip.last - events[0].sequence;
        if last >= |events| then None
        else
          var slice := events[first..last + 1];
          if forall k | 0 <= k < |slice| :: SlipEvent(request, slip, slice[k], slip.first + k)
          then Some(Filing(request, slip.hash, slip.workflow, slice, slip.index, slip.term))
          else None
  }

  // ----- Ranges of a list -----

  lemma {:induction false} TakenJoin(a: seq<Filing>, b: seq<Filing>, w: Id, lo: nat, hi: nat)
    ensures Taken(a + b, w, lo, hi) == Taken(a, w, lo, hi) + Taken(b, w, lo, hi)
  {
    if b == [] {
      assert a + b == a;
    } else {
      TakenJoin(a, b[..|b| - 1], w, lo, hi);
      assert (a + b)[..|a + b| - 1] == a + b[..|b| - 1];
    }
  }

  lemma {:induction false} TakenNone(log: seq<Filing>, w: Id, lo: nat, hi: nat)
    requires forall i | 0 <= i < |log| :: log[i].workflow == w ==> !(lo <= log[i].index < hi)
    ensures Taken(log, w, lo, hi) == []
  {
    if log != [] { TakenNone(log[..|log| - 1], w, lo, hi); }
  }

  /** In an ordered list, a range of positions is cut by a position in between. */
  lemma {:induction false} TakenSplit(log: seq<Filing>, w: Id, lo: nat, mid: nat, hi: nat)
    requires Ordered(log) && lo <= mid <= hi
    ensures Taken(log, w, lo, hi) == Taken(log, w, lo, mid) + Taken(log, w, mid, hi)
  {
    if log != [] {
      var front, last := log[..|log| - 1], log[|log| - 1];
      TakenSplit(front, w, lo, mid, hi);
      if lo <= last.index < mid {
        forall i | 0 <= i < |front| ensures front[i].index < mid { assert log[i].index <= log[|log| - 1].index; }
        hide Ordered;
        TakenNone(front, w, mid, hi);
      }
      hide Ordered;
    }
  }

  /** Past the last receipt there is nothing. */
  lemma {:induction false} TakenBeyond(log: seq<Filing>, w: Id, lo: nat, hi: nat)
    requires Ordered(log) && Top(log) <= hi
    ensures Taken(log, w, 0, hi) == History(log, w)
    ensures Top(log) <= lo ==> Taken(log, w, lo, hi) == []
  {
    TakenSplit(log, w, 0, Top(log), hi);
    TakenNone(log, w, Top(log), hi);
    if Top(log) <= lo { TakenNone(log, w, lo, hi); }
  }

  /** The events of one receipt stand in a row. */
  lemma {:induction false} TakenHolds(log: seq<Filing>, i: nat, lo: nat, hi: nat) returns (at: nat)
    requires i < |log| && lo <= log[i].index < hi
    ensures at + |log[i].events| <= |Taken(log, log[i].workflow, lo, hi)|
    ensures Taken(log, log[i].workflow, lo, hi)[at..at + |log[i].events|] == log[i].events
  {
    var front, last, w := log[..|log| - 1], log[|log| - 1], log[i].workflow;
    if i == |log| - 1 {
      at := |Taken(front, w, lo, hi)|;
    } else {
      at := TakenHolds(front, i, lo, hi);
    }
  }

  /** A segment is numbered in a row. */
  lemma {:induction false} SegmentCounts(log: seq<Filing>, w: Id, i: nat)
    requires hide Filed;
             Filed(log)
    ensures var seg := Segment(log, w, i);
            forall k | 0 <= k < |seg| :: seg[k].sequence == |Taken(log, w, 0, i)| + k + 1
  {
    hide FilingOk, Unique;
    var top := if Top(log) <= i + 1 then i + 1 else Top(log);
    TakenBeyond(log, w, 0, top);
    TakenSplit(log, w, 0, i, top);
    TakenSplit(log, w, i, i + 1, top);
    var seg, before, history := Taken(log, w, i, i + 1), Taken(log, w, 0, i), History(log, w);
    assert Counting(history);
    forall k | 0 <= k < |seg| ensures seg[k].sequence == |before| + k + 1 {
      assert history[|before| + k] == seg[k];
    }
  }

  // ----- Receipts expand to what they were -----

  lemma {:induction false} SlipFiled(log: seq<Filing>, i: nat)
    requires Unique(log) && i < |log| && forall j | 0 <= j < |log| :: log[j].events != []
    ensures log[i].request in Slips(log) && Slips(log)[log[i].request] == SlipOf(log[i])
  {
    if i < |log| - 1 {
      SlipFiled(log[..|log| - 1], i);
      assert log[i].request != log[|log| - 1].request;
    }
  }

  lemma {:induction false} SlipsAreFiled(log: seq<Filing>, r: Id)
    requires forall j | 0 <= j < |log| :: log[j].events != []
    ensures r in Slips(log) <==> exists i :: 0 <= i < |log| && log[i].request == r
  {
    if log != [] {
      var front := log[..|log| - 1];
      SlipsAreFiled(front, r);
      if i :| 0 <= i < |front| && front[i].request == r { assert log[i].request == r; }
      if i :| 0 <= i < |log| && log[i].request == r {
        if i < |front| { assert front[i].request == r; }
      }
    }
  }

  /** The slice that a receipt points at, in a segment that holds its events in a row. */
  lemma {:induction false} SliceExact(f: Filing, segments: map<SegmentKey, seq<Event>>, at: nat, base: nat,
                                      applied: nat)
    requires hide Expand;
             FilingOk(f) && f.index <= applied && (f.workflow, f.index) in segments
    requires var seg := segments[(f.workflow, f.index)];
             && at + |f.events| <= |seg| && seg[at..at + |f.events|] == f.events
             && forall k | 0 <= k < |seg| :: seg[k].sequence == base + k + 1
    ensures Expand(f.request, SlipOf(f), segments, applied) == Some(f)
  {
    var seg, n := segments[(f.workflow, f.index)], |f.events|;
    assert seg[at] == f.events[0] && seg[at + n - 1] == f.events[n - 1];
    assert EventFits(f, n - 1);
    forall k | 0 <= k < n ensures SlipEvent(f.request, SlipOf(f), f.events[k], f.events[0].sequence + k) {
      assert EventFits(f, k);
    }
  }

  lemma {:induction false} SegmentHolds(log: seq<Filing>, i: nat) returns (at: nat, base: nat)
    requires hide Filed, FilingOk, SegmentsOf;
             Filed(log) && i < |log|
    ensures FilingOk(log[i]) && (log[i].workflow, log[i].index) in SegmentsOf(log)
    ensures var seg := SegmentsOf(log)[(log[i].workflow, log[i].index)];
            && at + |log[i].events| <= |seg| && seg[at..at + |log[i].events|] == log[i].events
            && forall k | 0 <= k < |seg| :: seg[k].sequence == base + k + 1
  {
    hide Taken, Unique, Ordered, Counting, FilingOk;
    var f := log[i];
    at := TakenHolds(log, i, f.index, f.index + 1);
    SegmentCounts(log, f.workflow, f.index);
    base := |Taken(log, f.workflow, 0, f.index)|;
    assert (f.workflow, f.index) in SegmentKeys(log);
  }

  /** Receipts as pointers lose nothing: what a stored receipt points at is the receipt. */
  lemma {:induction false} ExpandExact(log: seq<Filing>, i: nat, applied: nat)
    requires hide Expand, SegmentsOf;
             Filed(log) && i < |log| && log[i].index <= applied
    ensures log[i].request in Slips(log)
    ensures Expand(log[i].request, Slips(log)[log[i].request], SegmentsOf(log), applied) == Some(log[i])
  {
    SlipFiled(log, i);
    var at, base := SegmentHolds(log, i);
    hide Filed, FilingOk, Expand, Slips, SlipOf, SegmentsOf, SegmentKeys, Taken;
    SliceExact(log[i], SegmentsOf(log), at, base, applied);
  }

  predicate Filled(log: seq<Filing>) {
    forall i | 0 <= i < |log| :: log[i].events != []
  }
}
