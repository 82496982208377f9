/** The persisted Raft log: suffix replacement and compaction (SaveReady of internal/storage/raft.go, loadRaft and
    term of internal/storage/store.go). */
module RaftLogs {
  import opened Base
  import opened Model

  datatype Hard = Hard(term: nat, vote: nat, commit: nat)

  datatype Entry = Entry(index: nat, term: nat, data: seq<Batch>)

  /** The log records hold, one for one, the entries after a base whose terms are kept in memory. */
  ghost predicate Holds(log: map<nat, Entry>, base: nat, terms: seq<nat>) {
    && (forall i :: i in log <==> base < i <= base + |terms|)
    && forall i | i in log :: log[i].index == i && log[i].term == terms[i - base - 1]
  }

  /** Entries that follow each other. */
  predicate InRow(entries: seq<Entry>) {
    forall k | 0 <= k < |entries| :: entries[k].index == entries[0].index + k
  }

  function TermsOf(entries: seq<Entry>): seq<nat> {
    seq(|entries|, k requires 0 <= k < |entries| => entries[k].term)
  }

  /** term */
  function TermAt(base: nat, baseTerm: nat, terms: seq<nat>, index: nat): Option<nat> {
    if index < base then None
    else if index == base then Some(baseTerm)
    else if index - base - 1 >= |terms| then None
    else Some(terms[index - base - 1])
  }

  /** DeleteRange from a position to the end of the log. */
  function Below(log: map<nat, Entry>, from: nat): map<nat, Entry> {
    map i | i in log && i < from :: log[i]
  }

  /** DeleteRange from the start of the log through a position. */
  function Above(log: map<nat, Entry>, through: nat): map<nat, Entry> {
    map i | i in log && i > through :: log[i]
  }

  /** Setting the record of each entry. */
  method PutAll(log: map<nat, Entry>, entries: seq<Entry>) returns (r: map<nat, Entry>)
    requires InRow(entries)
    ensures forall i :: i in r <==> i in log || (entries != [] && entries[0].index <= i < entries[0].index + |entries|)
    ensures forall i | i in r :: r[i] == if entries != [] && entries[0].index <= i < entries[0].index + |entries|
            then entries[i - entries[0].index] else log[i]
  {
    r := log;
    for n := 0 to |entries|
      invariant forall i :: i in r <==> i in log || (n > 0 && entries[0].index <= i < entries[0].index + n)
      invariant forall i | i in r :: r[i] == if n > 0 && entries[0].index <= i < entries[0].index + n
                then entries[i - entries[0].index] else log[i]
    {
      r := r[entries[n].index := entries[n]];
    }
  }

  /** Truncating and appending, entry by entry, the terms kept in memory. */
  method PutTerms(terms: seq<nat>, base: nat, entries: seq<Entry>) returns (r: seq<nat>)
    requires InRow(entries) && (entries != [] ==> base < entries[0].index <= base + |terms| + 1)
    ensures r == if entries == [] then terms else terms[..entries[0].index - base - 1] + TermsOf(entries)
  {
    r := terms;
    for n := 0 to |entries|
      invariant r == if n == 0 then terms else terms[..entries[0].index - base - 1] + TermsOf(entries[..n])
    {
      var offset := entries[n].index - base - 1;
      assert n > 0 ==> r[..offset] == r;
      r := r[..offset] + [entries[n].term];
      assert TermsOf(entries[..n + 1]) == TermsOf(entries[..n]) + [entries[n].term];
    }
    assert entries[..|entries|] == entries;
  }

  /** Replacing a suffix keeps records and terms together. */
  lemma {:induction false} SuffixReplaced(log: map<nat, Entry>, base: nat, terms: seq<nat>, entries: seq<Entry>,
                                          after: map<nat, Entry>)
    requires Holds(log, base, terms) && InRow(entries) && entries != [] && base < entries[0].index <= base + |terms| + 1
    requires forall i :: i in after <==>
               i in Below(log, entries[0].index) || entries[0].index <= i < entries[0].index + |entries|
    requires forall i | i in after ::
               after[i] == if entries[0].index <= i < entries[0].index + |entries| then entries[i - entries[0].index]
                   else log[i]
    ensures Holds(after, base, terms[..entries[0].index - base - 1] + TermsOf(entries))
  {
    var now := terms[..entries[0].index - base - 1] + TermsOf(entries);
    forall i | i in after ensures after[i].index == i && after[i].term == now[i - base - 1] {
      if i < entries[0].index { assert i in log; }
    }
  }

  /** Compacting a prefix does too. */
  lemma {:induction false} PrefixDropped(log: map<nat, Entry>, base: nat, terms: seq<nat>, through: nat)
    requires Holds(log, base, terms) && base <= through <= base + |terms|
    ensures Holds(Above(log, through), through, terms[through - base..])
  {
  }

  function Span(base: nat, n: nat): (r: set<nat>)
    ensures |r| == n && forall i :: i in r <==> base < i <= base + n
  {
    if n == 0 then {} else Span(base, n - 1) + {base + n}
  }

  /** There are as many records as terms. */
  lemma {:induction false} HoldsCount(log: map<nat, Entry>, base: nat, terms: seq<nat>)
    requires Holds(log, base, terms)
    ensures |log| == |terms|
  {
    assert log.Keys == Span(base, |terms|);
    assert |log| == |log.Keys|;
  }

  /** loadRaft reads the terms back, refusing a gap. */
  method ReadTerms(log: map<nat, Entry>, base: nat) returns (ok: bool, terms: seq<nat>)
    ensures forall held :: Holds(log, base, held) ==> ok && terms == held
    ensures ok ==> Holds(log, base, terms)
  {
    terms := [];
    ghost var rest := log.Keys;
    while |terms| < |log|
      invariant |rest| + |terms| == |log| && rest <= log.Keys
      invariant forall i :: i in log && i !in rest <==> base < i <= base + |terms|
      invariant forall i | i in log && i !in rest :: log[i].index == i && log[i].term == terms[i - base - 1]
    {
      var expected := base + 1 + |terms|;
      if expected !in log || log[expected].index != expected {
        forall held ensures !Holds(log, base, held) {
          if Holds(log, base, held) { HoldsCount(log, base, held); }
        }
        return false, terms;
      }
      rest := rest - {expected};
      terms := terms + [log[expected].term];
    }
    assert rest == {};
    ok := true;
    forall held | Holds(log, base, held) ensures terms == held {
      HoldsCount(log, base, held);
      forall k | 0 <= k < |held| ensures held[k] == terms[k] { assert log[base + 1 + k].term == held[k]; }
    }
  }
}
