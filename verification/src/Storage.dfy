/** The durable store of internal/storage as a state machine over its write batches: what lies on disk, applied
    entries, Raft readiness, snapshots, and crashes that keep a prefix of the batches with every synced one. */
module Storage {
  import opened Base
  import Snapshots
  import opened Retention
  import opened Model
  import opened Ledgers
  import opened Filings
  import Segments
  import opened Archives
  import opened Residents
  import opened Transfers
  import opened Results
  import opened RaftLogs
  import opened IdOrder

  /** SnapshotImage with the metadata of the Raft snapshot that carries it. A receipt is an engine request with its
      outcome; the outcomes without a receipt are the conflicts. */
  datatype Image = Image(
    index: nat, term: nat, states: map<Id, Workflow>, receipts: seq<Filing>,
    results: seq<TaskResult>, conflicts: map<(Id, Hash), Origin>)

  /** raft.Ready, as far as the store looks at it. */
  datatype Ready = Ready(hard: Option<Hard>, entries: seq<Entry>, snapshot: Option<Image>, mustSync: bool)

  /** Everything in the key-value store. */
  datatype Disk = Disk(
    hard: Hard, snapshot: Image, log: map<nat, Entry>, records: map<nat, nat>,
    applied: nat, appliedTerm: nat, archive: Archive, indexed: bool)

  /** An image that some store made of its book. */
  ghost predicate Depicts(image: Image, book: Book) {
    hide GivesResults, Kept, Sized;
    && image.index > 0 && image.term > 0 && Kept(book) && Sized(book.log) && Filled(book.log)
    && image.states == book.states && Segments.Gives(image.receipts, book.log, 0) && Top(book.log) <= image.index + 1
    && GivesResults(image.results, book, 0) && image.conflicts == book.conflicts && Noted(book.conflicts, image.index)
  }

  ghost predicate Genuine(image: Image) {
    exists book :: Depicts(image, book)
  }

  /** The applied records lie one for one between the snapshot and the applied index, with the terms of the log. */
  ghost predicate Recorded(disk: Disk, terms: seq<nat>) {
    && (forall i :: i in disk.records <==> disk.snapshot.index < i <= disk.applied)
    && (forall i | i in disk.records ::
          disk.records[i] > 0 && TermAt(disk.snapshot.index, disk.snapshot.term, terms, i) == Some(disk.records[i]))
    && TermAt(disk.snapshot.index, disk.snapshot.term, terms, disk.applied) == Some(disk.appliedTerm)
  }

  ghost predicate Shelved(disk: Disk, book: Book) {
    hide Kept, Shelve, Sized;
    && Kept(book) && Sized(book.log) && Filled(book.log)
    && disk.archive == Shelve(book) && Top(book.log) <= disk.applied + 1 && Noted(book.conflicts, disk.applied)
  }

  ghost predicate Logged(disk: Disk, terms: seq<nat>) {
    && Holds(disk.log, disk.snapshot.index, terms)
    && disk.snapshot.index <= disk.hard.commit <= disk.snapshot.index + |terms|
    && disk.applied <= disk.hard.commit && disk.indexed
  }

  /** What every state of the store is: the log holds the terms, snapshot, applied and commit are in order, the
      records of a book are in place; and a snapshot ahead of what is applied can be installed. */
  ghost predicate Good(disk: Disk, terms: seq<nat>, book: Book) {
    && Logged(disk, terms) && Shelved(disk, book)
    && (if disk.snapshot.index <= disk.applied then Recorded(disk, terms) else Genuine(disk.snapshot))
  }

  /** The store with its active index rebuilt from the other records. */
  function Reindexed(disk: Disk, book: Book): Disk {
    disk.(archive := disk.archive.(active := ActiveOf(book.states),
        activeRequests := ActivePairs(book.states, book.log)), indexed := true)
  }

  /** What a store may be found to be: good, or good once its index is built, which a store made before there was an
      index still lacks. */
  ghost predicate Loadable(disk: Disk, terms: seq<nat>, book: Book) {
    Good(Reindexed(disk, book), terms, book) && (disk.indexed ==> disk == Reindexed(disk, book))
  }

  ghost predicate Recoverable(disk: Disk) {
    exists terms, book :: Loadable(disk, terms, book)
  }

  /** A write that was not synced is a commit index, and nothing else. */
  predicate CommitBehind(disk: Disk, now: Disk) {
    && now == disk.(hard := now.hard) && disk.hard.commit <= now.hard.commit
    && disk.hard.term == now.hard.term && disk.hard.vote == now.hard.vote
  }

  ghost predicate EngineOf(engine: Ledger, book: Book) {
    SameTables(engine, Retained(LedgerOf(book))) && Coherent(engine)
  }

  /** Contract of Raft on what it asks to save: entries in a row above the commit index, a snapshot above it that
      some store made. */
  ghost predicate Promised(ready: Ready, commit: nat) {
    hide Genuine;
    && InRow(ready.entries)
    && (ready.entries != [] ==> ready.entries[0].index > commit)
    && (forall k | 0 <= k < |ready.entries| :: ready.entries[k].term > 0)
    && (ready.snapshot.Some? ==> ready.snapshot.value.index > commit && Genuine(ready.snapshot.value))
  }

  // ----- What each write keeps -----

  /** Saving a suffix above the commit index. */
  lemma {:induction false} SuffixGood(disk: Disk, terms: seq<nat>, book: Book, entries: seq<Entry>,
                                      log: map<nat, Entry>, hard: Hard)
    requires hide Genuine, Shelved;
             Good(disk, terms, book) && InRow(entries) && entries != []
             && disk.hard.commit < entries[0].index <= disk.snapshot.index + |terms| + 1
    requires var now := terms[..entries[0].index - disk.snapshot.index - 1] + TermsOf(entries);
             Holds(log, disk.snapshot.index, now) && disk.hard.commit <= hard.commit <= disk.snapshot.index + |now|
    ensures Good(disk.(log := log, hard := hard), terms[..entries[0].index - disk.snapshot.index - 1]
            + TermsOf(entries), book)
  {
    hide Holds, Kept, Sized, Filled, Shelve, Genuine, Noted;
  }

  lemma {:induction false} HardGood(disk: Disk, terms: seq<nat>, book: Book, hard: Hard)
    requires Good(disk, terms, book) && disk.hard.commit <= hard.commit <= disk.snapshot.index + |terms|
    ensures Good(disk.(hard := hard), terms, book)
  {
    hide Holds, Kept, Sized, Filled, Shelve, Genuine, Noted;
  }

  /** Saving a snapshot above the commit index, and the entries after it. */
  lemma {:induction false} SnapshotGood(disk: Disk, terms: seq<nat>, book: Book, image: Image, entries: seq<Entry>,
                                        log: map<nat, Entry>, hard: Hard)
    requires Good(disk, terms, book) && Genuine(image) && image.index > disk.hard.commit
    requires Holds(log, image.index, TermsOf(entries)) && image.index <= hard.commit <= image.index + |entries|
    ensures Good(disk.(snapshot := image, log := log, hard := hard), TermsOf(entries), book)
  {
    hide Holds, Kept, Sized, Filled, Shelve, Genuine, Noted;
  }

  /** Installing the snapshot that is ahead. */
  lemma {:induction false} InstalledGood(disk: Disk, terms: seq<nat>, book: Book, image: Book, archive: Archive)
    requires hide Depicts, Good, Loadable, Shelve;
             Loadable(disk, terms, book) && disk.snapshot.index > disk.applied && Depicts(disk.snapshot, image)
             && Filled(image.log) && archive == Shelve(image)
    ensures Good(disk.(records := map[], applied := disk.snapshot.index, appliedTerm := disk.snapshot.term,
            archive := archive, indexed := true), terms, image)
  {
    hide Holds, Kept, Sized, Filled, Shelve, Genuine, Segments.Gives, GivesResults;
  }

  /** Compacting through the applied index. */
  lemma {:induction false} CompactedGood(disk: Disk, terms: seq<nat>, book: Book, image: Image)
    requires hide Good;
             Good(disk, terms, book) && disk.snapshot.index < disk.applied && image.index == disk.applied
    requires TermAt(disk.snapshot.index, disk.snapshot.term, terms, disk.applied) == Some(image.term)
    ensures Good(disk.(snapshot := image, log := Above(disk.log, disk.applied), records := map[]),
            terms[disk.applied - disk.snapshot.index..], book)
  {
    PrefixDropped(disk.log, disk.snapshot.index, terms, disk.applied);
    hide Holds, Kept, Sized, Filled, Shelve, Genuine, Noted, Above;
  }

  // ----- Entries to save -----

  /** The terms after entries replace the suffix they start in. */
  function Appended(terms: seq<nat>, base: nat, entries: seq<Entry>): seq<nat> {
    if entries != [] && base < entries[0].index <= base + |terms| + 1
    then terms[..entries[0].index - base - 1] + TermsOf(entries)
    else terms
  }

  /** The entries past a position. */
  function Past(entries: seq<Entry>, base: nat): seq<Entry> {
    if entries == [] then [] else if entries[0].index > base then entries else Past(entries[1..], base)
  }

  /** No gap between a log of some length past the base and the entries past the base. */
  predicate Continues(entries: seq<Entry>, base: nat, length: nat) {
    var kept := Past(entries, base);
    kept == [] || kept[0].index <= base + length + 1
  }

  lemma {:induction false} PastIs(entries: seq<Entry>, base: nat, n: nat)
    requires InRow(entries) && n <= |entries| && (forall k | 0 <= k < n :: entries[k].index <= base)
             && (n < |entries| ==> entries[n].index > base)
    ensures Past(entries, base) == entries[n..]
  {
    if n > 0 {
      assert InRow(entries[1..]);
      PastIs(entries[1..], base, n - 1);
      assert entries[1..][n - 1..] == entries[n..];
    }
  }

  /** The entries of SaveReady that lie past the base, refused exactly when they leave a gap. */
  method KeepEntries(entries: seq<Entry>, base: nat, length: nat) returns (ok: bool, kept: seq<Entry>)
    requires InRow(entries)
    ensures ok <==> Continues(entries, base, length)
    ensures ok ==>
              InRow(kept) && kept == Past(entries, base) && (kept != [] ==> base < kept[0].index <= base + length + 1)
  {
    kept := [];
    var last := length;
    for n := 0 to |entries|
      invariant |kept| <= n && kept == entries[n - |kept|..n] && InRow(kept)
      invariant forall k | 0 <= k < n - |kept| :: entries[k].index <= base
      invariant kept == [] ==> last == length
      invariant kept != [] ==> base < kept[0].index <= base + length + 1 && last == kept[0].index + |kept| - 1 - base
    {
      if entries[n].index > base {
        if entries[n].index - base - 1 > last {
          PastIs(entries, base, n);
          return false, kept;
        }
        last := entries[n].index - base;
        kept := kept + [entries[n]];
      }
    }
    ok := true;
    PastIs(entries, base, |entries| - |kept|);
  }

  lemma {:induction false} BlankGood(disk: Disk)
    requires hide EngineOf, Good, LedgerOf, Recoverable, Retained;
             disk == Disk(Hard(1, 0, 1), Image(1, 1, map[], [], [], map[]), map[], map[], 1, 1,
             Archive(map[], map[], map[], {}, {}, map[], map[]), true)
    ensures Good(disk, [], BLANK) && Recoverable(disk) && EngineOf(Retained(LedgerOf(BLANK)), BLANK)
  {
    hide Loadable, Recoverable;
    forall w ensures ApplyAll(None, History([], w)) == Ok(None) { assert History([], w) == []; }
    hide ApplyAll, Taken;
    forall w ensures History([], w) == [] { TakenNone([], w, 0, 0); }
    forall w, i: nat ensures Segment([], w, i) == [] { TakenNone([], w, i, i + 1); }
    assert Kept(BLANK);
    assert SegmentsOf([]) == map[] && ResultSegments(BLANK) == map[];
    RetainedCovers(LedgerOf(BLANK));
    ProvesRecoverable(disk, [], BLANK);
  }

  /** An earlier state that differs in the commit index alone. */
  lemma {:induction false} BehindGood(earlier: Disk, disk: Disk, terms: seq<nat>, book: Book)
    requires Good(disk, terms, book) && Recoverable(earlier) && CommitBehind(earlier, disk)
    ensures Good(earlier, terms, book)
  {
    var t, b :| Loadable(earlier, t, b);
    assert disk == earlier.(hard := disk.hard) && disk.indexed;
    assert Good(earlier, t, b);
    hide Shelved, Holds, Genuine, Recorded;
    SameRecorded(earlier, disk, terms);
    assert Shelved(earlier, book) by { SameShelved(earlier, disk, book); }
  }

  lemma {:induction false} SameRecorded(earlier: Disk, disk: Disk, terms: seq<nat>)
    requires disk == earlier.(hard := disk.hard)
    ensures Recorded(earlier, terms) <==> Recorded(disk, terms)
  {
  }

  lemma {:induction false} SameShelved(earlier: Disk, disk: Disk, book: Book)
    requires disk == earlier.(hard := disk.hard) && Shelved(disk, book)
    ensures Shelved(earlier, book)
  {
    hide Kept, Sized, Filled, Shelve, Noted;
  }

  lemma {:induction false} SameEngine(a: Ledger, b: Ledger, book: Book)
    requires EngineOf(a, book) && EngineOf(b, book)
    ensures SameTables(a, b)
  {
    hide Retained, LedgerOf, Coherent;
  }

  /** validateApplicationLog: accepts exactly the records that lie one for one between the snapshot and the applied
      index with the terms of the log. */
  method CheckRecords(disk: Disk, terms: seq<nat>) returns (ok: bool)
    ensures disk.snapshot.index <= disk.applied ==> (ok <==> Recorded(disk, terms))
  {
    if TermAt(disk.snapshot.index, disk.snapshot.term, terms, disk.applied) != Some(disk.appliedTerm) { return false; }
    var n := |disk.records|;
    if Recorded(disk, terms) && disk.snapshot.index <= disk.applied { RecordCount(disk, terms); }
    for k := 0 to n
      invariant forall i | disk.snapshot.index < i <= disk.snapshot.index + k :: RecordOk(disk, terms, i)
    {
      var index := disk.snapshot.index + 1 + k;
      if index !in disk.records || disk.records[index] == 0 { return false; }
      if TermAt(disk.snapshot.index, disk.snapshot.term, terms, index) != Some(disk.records[index]) { return false; }
    }
    ok := disk.snapshot.index + 1 + n == disk.applied + 1;
    if ok { RecordsAll(disk, terms); }
  }

  predicate RecordOk(disk: Disk, terms: seq<nat>, i: nat) {
    i in disk.records && disk.records[i] > 0
    && TermAt(disk.snapshot.index, disk.snapshot.term, terms, i) == Some(disk.records[i])
  }

  /** As many records as positions, one at each: none elsewhere. */
  lemma {:induction false} RecordsAll(disk: Disk, terms: seq<nat>)
    requires disk.snapshot.index + |disk.records| == disk.applied
    requires forall i | disk.snapshot.index < i <= disk.applied :: RecordOk(disk, terms, i)
    ensures forall i :: i in disk.records <==> disk.snapshot.index < i <= disk.applied
    ensures forall i | i in disk.records :: RecordOk(disk, terms, i)
  {
    var span := Span(disk.snapshot.index, disk.applied - disk.snapshot.index);
    assert span <= disk.records.Keys by {
      forall i | i in span ensures i in disk.records { assert RecordOk(disk, terms, i); }
    }
    SubsetAll(span, disk.records.Keys);
    assert |disk.records| == |disk.records.Keys|;
  }

  lemma {:induction false} SubsetAll(a: set<nat>, b: set<nat>)
    requires a <= b && |a| == |b|
    ensures a == b
  {
    assert |b - a| == |b| - |a|;
  }

  lemma {:induction false} RecordCount(disk: Disk, terms: seq<nat>)
    requires Recorded(disk, terms) && disk.snapshot.index <= disk.applied
    ensures |disk.records| == disk.applied - disk.snapshot.index
  {
    assert disk.records.Keys == Span(disk.snapshot.index, disk.applied - disk.snapshot.index);
    assert |disk.records| == |disk.records.Keys|;
  }

  method LoadEngine(disk: Disk, ghost book: Book) returns (ok: bool, engine: Ledger)
    requires Shelved(disk, book)
    ensures ok && EngineOf(engine, book)
  {
    hide Kept, Sized, Filled, Shelve, Noted;
    ok, engine := LoadActiveEngine(disk.archive, disk.applied, book);
  }

  lemma {:induction false} AppliedBounds(disk: Disk, terms: seq<nat>, book: Book)
    requires Good(disk, terms, book)
    ensures disk.applied <= disk.hard.commit <= disk.snapshot.index + |terms|
  {
    hide Shelved, Recorded, Genuine, Holds;
  }

  lemma {:induction false} SnapshotTerm(disk: Disk, terms: seq<nat>)
    requires Recorded(disk, terms) && disk.snapshot.index < disk.applied
    ensures TermAt(disk.snapshot.index, disk.snapshot.term, terms, disk.applied) == Some(disk.appliedTerm)
            && disk.appliedTerm > 0
  {
    assert disk.applied in disk.records;
  }

  /** core.Restore accepts the engine part of an image, and gives the states and receipts of a book. */
  ghost predicate Restores(image: Image, book: Book) {
    hide LedgerOf, Snapshots.Restore, Snapshots.Take, Records;
    var restored := Snapshots.Restore(Snapshots.Take(image.states, Records(image.receipts)));
    restored.Some? && SameTables(restored.value, LedgerOf(book))
  }

  lemma {:induction false} DepictedRestores(image: Image, book: Book)
    requires Depicts(image, book)
    ensures Restores(image, book)
  {
    KeptUnique(book);
    assert Unique(image.receipts) && forall f :: f in image.receipts <==> f in book.log;
    hide Kept, Sized, Filled, Segments.Gives, Unique, Records, Snapshots.Restore, Snapshots.Take, GivesResults, Noted,
        IndexOf;
    RecordsSame(image.receipts, book.log);
    Transfers.ImageRestores(book);
  }

  /** The image of a store's records, at the applied index and with its term in the log. The engine part restores. */
  method TakeImage(disk: Disk, terms: seq<nat>, ghost book: Book) returns (ok: bool, image: Image)
    requires Good(disk, terms, book) && disk.snapshot.index < disk.applied
    ensures ok && image.index == disk.applied && Depicts(image, book) && Restores(image, book)
    ensures TermAt(disk.snapshot.index, disk.snapshot.term, terms, disk.applied) == Some(image.term)
  {
    hide Kept, Sized, Filled, Segments.Gives, Logged, Recorded, Shelve, Genuine, GivesResults, Noted, Restores;
    SnapshotTerm(disk, terms);
    ShelvedStates(book);
    image := disk.snapshot;
    var receipts, conflicts, results;
    ok, receipts := ReadReceipts(disk.archive, disk.applied, book);
    if !ok { return; }
    ok, conflicts := InstallConflicts(disk.archive.conflicts, disk.applied);
    if !ok { return; }
    ok, results := LoadResults(disk.archive.results, disk.applied, book);
    if !ok { return; }
    image := Image(disk.applied, TermAt(disk.snapshot.index, disk.snapshot.term, terms, disk.applied).value,
        disk.archive.workflows,
                   receipts, results, conflicts);
    DepictedRestores(image, book);
  }

  lemma {:induction false} ShelvedStates(book: Book)
    requires hide ResultSegments, Shelve;
             Filled(book.log)
    ensures Shelve(book).workflows == book.states && Shelve(book).slips == Slips(book.log)
    ensures Shelve(book).results == ResultSegments(book) && Shelve(book).conflicts == book.conflicts
  {
  }

  predicate Nothing(ready: Ready) {
    ready.hard.None? && ready.entries == [] && ready.snapshot.None?
  }

  /** What a ready leaves as the hard state. */
  function NextHard(ready: Ready, hard: Hard): Hard {
    if ready.hard.Some? then ready.hard.value else hard
  }

  /** Where the log starts from once a ready is saved. */
  function BaseOf(ready: Ready, snapshot: nat): nat {
    if ready.snapshot.Some? then ready.snapshot.value.index else snapshot
  }

  /** What SaveReady asks of a ready: entries without a gap after the log, or after the snapshot that replaces it, a
      hard state that does not go back, and a commit index within the log that results. */
  predicate Saveable(ready: Ready, hard: Hard, snapshot: nat, length: nat) {
    || Nothing(ready)
    || (var base, start := BaseOf(ready, snapshot), if ready.snapshot.Some? then 0 else length;
        var kept := Past(ready.entries, base);
        && (ready.snapshot.Some? ==> base > snapshot) && Continues(ready.entries, base, start)
        && hard.commit <= NextHard(ready, hard).commit && hard.term <= NextHard(ready, hard).term
        && base <= NextHard(ready, hard).commit <= if kept == [] then base + start else kept[0].index + |kept| - 1)
  }

  /** The checks of SaveReady: what is kept, and the next hard state. */
  method CheckReady(ready: Ready, hard: Hard, snapshot: nat, length: nat)
    returns (ok: bool, kept: seq<Entry>, next: Hard)
    requires InRow(ready.entries)
    ensures ok <==> Saveable(ready, hard, snapshot, length)
    ensures ok ==> next == NextHard(ready, hard) && kept == Past(ready.entries, BaseOf(ready, snapshot)) && InRow(kept)
  {
    kept, next := [], hard;
    if ready.hard.None? && ready.entries == [] && ready.snapshot.None? { return true, kept, next; }
    var base := if ready.snapshot.Some? then ready.snapshot.value.index else snapshot;
    if ready.snapshot.Some? && base <= snapshot { return false, kept, next; }
    var start := if ready.snapshot.Some? then 0 else length;
    hide Past, Continues, InRow;
    ok, kept := KeepEntries(ready.entries, base, start);
    if !ok { return; }
    if ready.hard.Some? { next := ready.hard.value; }
    if next.commit < hard.commit || next.term < hard.term { return false, kept, next; }
    var last := if kept == [] then base + start else kept[0].index + |kept| - 1;
    if next.commit < base || next.commit > last { return false, kept, next; }
  }

  /** What the checks leave of a ready that Raft gives. */
  lemma {:induction false} SaveableShape(ready: Ready, hard: Hard, snapshot: nat, length: nat)
    requires hide Genuine, Promised, Saveable;
             Promised(ready, hard.commit) && snapshot <= hard.commit && Saveable(ready, hard, snapshot, length)
             && !Nothing(ready)
    ensures var kept, next := Past(ready.entries, BaseOf(ready, snapshot)), NextHard(ready, hard);
            && hard.commit <= next.commit
            && (ready.snapshot.None? ==>
                  && kept == ready.entries && (kept != [] ==> hard.commit < kept[0].index <= snapshot + length + 1)
                  && next.commit <= snapshot + (if kept == [] then length else kept[0].index - snapshot - 1 + |kept|))
            && (ready.snapshot.Some? ==>
                  && ready.snapshot.value.index > hard.commit && Genuine(ready.snapshot.value)
                  && (kept != [] ==> kept[0].index == ready.snapshot.value.index + 1)
                  && ready.snapshot.value.index <= next.commit <= ready.snapshot.value.index + |kept|)
  {
    hide Genuine;
    if ready.snapshot.None? {
      assert Past(ready.entries, snapshot) == ready.entries;
    } else {
      PastBeyond(ready.entries, ready.snapshot.value.index);
    }
  }

  lemma {:induction false} PastBeyond(entries: seq<Entry>, base: nat)
    ensures Past(entries, base) != [] ==> Past(entries, base)[0].index > base
  {
    if entries != [] { PastBeyond(entries[1..], base); }
  }

  lemma {:induction false} AppendedNothing(terms: seq<nat>, base: nat)
    ensures Appended(terms, base, []) == terms
  {
  }

  method InstallImage(image: Image, ghost book: Book) returns (ok: bool, archive: Archive)
    requires hide Depicts, Shelve;
             Depicts(image, book)
    ensures ok && Filled(book.log) && archive == Shelve(book)
  {
    hide Kept, Sized, Filled, Segments.Gives, GivesResults, Noted, ResultSegments, Shelve;
    ok, archive := Transfers.Install(book, image.states, image.receipts, image.results, image.conflicts, image.index);
  }

  lemma {:induction false} RecordsSame(given: seq<Filing>, log: seq<Filing>)
    requires Unique(given) && Unique(log) && forall f :: f in given <==> f in log
    ensures Records(given) == Records(log)
  {
    hide Records, Unique;
    forall r ensures (r in Records(given) <==> r in Records(log))
        && (r in Records(given) ==> Records(given)[r] == Records(log)[r]) {
      RecordFiled(given, r);
      RecordFiled(log, r);
      if i :| 0 <= i < |given| && given[i].request == r {
        assert given[i] in log;
        var j :| 0 <= j < |log| && log[j] == given[i];
        Transfers.RecordOf(given, i);
        Transfers.RecordOf(log, j);
      }
      if i :| 0 <= i < |log| && log[i].request == r {
        assert log[i] in given;
        var j :| 0 <= j < |given| && given[j] == log[i];
      }
    }
  }

  /** The engine that an image restores to. */
  function RestoredEngine(image: Image): Ledger {
    LedgerOf(Book(image.states, image.receipts, image.conflicts))
  }

  /** The engine restored from an image, without what ended, is the resident engine of its book. */
  lemma {:induction false} ImageEngine(image: Image, book: Book)
    requires Depicts(image, book)
    ensures EngineOf(Retained(RestoredEngine(image)), book) && Restores(image, book)
  {
    DepictedRestores(image, book);
    KeptUnique(book);
    assert Unique(image.receipts) && forall f :: f in image.receipts <==> f in book.log;
    hide Kept, Sized, Filled, Segments.Gives, Unique, Records, Restores, GivesResults, Noted;
    RecordsSame(image.receipts, book.log);
    RetainedCovers(LedgerOf(book));
    assert RestoredEngine(image) == LedgerOf(book);
  }

  lemma {:induction false} LogBounds(disk: Disk, terms: seq<nat>, book: Book)
    requires Loadable(disk, terms, book)
    ensures disk.snapshot.index <= disk.hard.commit <= disk.snapshot.index + |terms|
  {
    hide Shelved, Recorded, Genuine, Holds;
  }

  lemma {:induction false} GoodLoadable(disk: Disk, terms: seq<nat>, book: Book)
    requires Good(disk, terms, book)
    ensures Loadable(disk, terms, book) && disk == Reindexed(disk, book)
  {
    hide Kept, Sized, Filled, Recorded, Genuine, Holds, Slips, SegmentsOf, ActivePairs, ResultSegments, Noted, Top;
    assert disk == Reindexed(disk, book);
  }

  lemma {:induction false} ProvesRecoverable(disk: Disk, terms: seq<nat>, book: Book)
    requires Good(disk, terms, book) || Loadable(disk, terms, book)
    ensures Recoverable(disk)
  {
    hide Good, Loadable;
    if Good(disk, terms, book) { GoodLoadable(disk, terms, book); }
  }

  /** loadRaft */
  method LoadLog(disk: Disk, ghost held: seq<nat>, ghost book: Book) returns (ok: bool, terms: seq<nat>)
    requires Loadable(disk, held, book)
    ensures ok && terms == held
  {
    hide Holds, Shelved, Recorded, Genuine;
    ok, terms := ReadTerms(disk.log, disk.snapshot.index);
  }

  lemma {:induction false} AheadImage(disk: Disk, terms: seq<nat>, book: Book) returns (image: Book)
    requires Loadable(disk, terms, book) && disk.snapshot.index > disk.applied
    ensures Depicts(disk.snapshot, image)
  {
    hide Logged, Shelved, Recorded, Depicts;
    image :| Depicts(disk.snapshot, image);
  }

  /** loadApplication, when no snapshot is ahead: the applied records are checked, a missing index is rebuilt and the
      resident engine loaded. */
  method LoadApplication(disk: Disk, terms: seq<nat>, ghost book: Book) returns (ok: bool, next: Disk, engine: Ledger)
    requires Loadable(disk, terms, book) && disk.snapshot.index <= disk.applied
    ensures ok && next == Reindexed(disk, book) && Good(next, terms, book) && EngineOf(engine, book)
  {
    next, engine := disk, EMPTY;
    LoadableParts(disk, terms, book);
    hide Loadable, Good, Shelved, Recorded, EngineOf, Reindexed, Kept, Slips;
    ok := CheckRecords(disk, terms);
    if !ok { return; }
    if !disk.indexed {
      var rebuilt;
      ok, rebuilt := RebuildIndex(disk.archive, book);
      if !ok { return; }
      next := disk.(archive := rebuilt, indexed := true);
      IndexRebuilt(disk, rebuilt, book);
    }
    ok, engine := LoadEngine(next, book);
  }

  lemma {:induction false} IndexRebuilt(disk: Disk, rebuilt: Archive, book: Book)
    requires rebuilt == disk.archive.(active := ActiveOf(book.states),
             activeRequests := ActivePairs(book.states, book.log))
    ensures disk.(archive := rebuilt, indexed := true) == Reindexed(disk, book)
  {
  }

  lemma {:induction false} LoadableParts(disk: Disk, terms: seq<nat>, book: Book)
    requires hide Good, Kept, Loadable, Reindexed, Shelved;
             Loadable(disk, terms, book) && disk.snapshot.index <= disk.applied
    ensures Recorded(disk, terms) && Kept(book) && Filled(book.log) && disk.archive.workflows == book.states
            && disk.archive.slips == Slips(book.log)
    ensures Shelved(Reindexed(disk, book), book) && Good(Reindexed(disk, book), terms, book)
            && (disk.indexed ==> disk == Reindexed(disk, book))
  {
    hide Kept, Sized, Filled, Genuine, Holds, Slips, SegmentsOf, ActivePairs, ResultSegments, Noted, Top;
  }

  lemma {:induction false} DepictsShelf(image: Image, book: Book)
    requires hide ActivePairs, Depicts, ResultSegments, Segments.Gathered, Shelve;
             Depicts(image, book)
    ensures Filled(image.receipts) && Filled(book.log)
    ensures Shelve(book) == Archive(image.states, Slips(image.receipts), Segments.Gathered(image.receipts),
            ActiveOf(image.states), ActivePairs(image.states, image.receipts),
                                    ResultSegments(book), image.conflicts)
  {
    KeptUnique(book);
    assert Filed(book.log) && Unique(image.receipts) && forall f :: f in image.receipts <==> f in book.log;
    GivenFilled(image.receipts, book.log);
    hide Kept, Filed, Sized, Segments.Gives, Segments.Gathered, Slips, ActivePairs, Unique, ResultSegments,
        GivesResults, Noted;
    SlipsSame(image.receipts, book.log);
    PairsSame(image.states, image.receipts, book.log);
    Segments.BuildsSegments(book.log, image.receipts, 0);
    Segments.AllSegments(book.log);
  }

  /** An image determines the records: a store that installs it holds what the store that made it held then. */
  lemma {:induction false} TransferExact(image: Image, sender: Book, receiver: Book)
    requires hide Depicts, Shelve;
             Depicts(image, sender) && Depicts(image, receiver)
    ensures Filled(sender.log) && Filled(receiver.log) && Shelve(sender) == Shelve(receiver)
  {
    DepictsShelf(image, sender);
    DepictsShelf(image, receiver);
    ResultsDetermined(sender, receiver, image.results);
    hide Depicts, Shelve, Filled;
  }

  /** A list of results determines the segments. */
  lemma {:induction false} ResultsDetermined(sender: Book, receiver: Book, rs: seq<TaskResult>)
    requires hide GivesResults, Kept, ResultSegments;
             Kept(sender) && Kept(receiver) && GivesResults(rs, sender, 0) && GivesResults(rs, receiver, 0)
    ensures ResultSegments(sender) == ResultSegments(receiver)
  {
    assert forall r :: IsResult(sender, r) <==> IsResult(receiver, r);
    hide Kept, GivesResults, ResultsAt, SegmentKeys;
    forall k: SegmentKey ensures ResultsAt(sender, k) == ResultsAt(receiver, k) {
      ResultsAtOrdered(sender, k);
      ResultsAtOrdered(receiver, k);
      forall r ensures r in ResultsAt(sender, k) <==> r in ResultsAt(receiver, k) {
        if r in ResultsAt(sender, k) { ResultTold(sender, k, r); assert IsResult(sender, r); }
        if r in ResultsAt(receiver, k) { ResultTold(receiver, k, r); assert IsResult(receiver, r); }
      }
      OrderedUnique(ResultsAt(sender, k), ResultsAt(receiver, k));
    }
    forall k ensures k in ResultSegments(sender) <==> k in ResultSegments(receiver) {
      ResultsAtOrdered(sender, k);
      ResultsAtOrdered(receiver, k);
    }
  }

  /** Rebuilding the index touches nothing else. */
  lemma {:induction false} IndexKept(disk: Disk, book: Book)
    ensures var next := Reindexed(disk, book);
            next.hard == disk.hard && next.snapshot == disk.snapshot && next.applied == disk.applied
                && next.appliedTerm == disk.appliedTerm
  {
  }

  // ----------------------------------------------------------------------------------------------------
  // Applying committed entries: applyEntries of internal/storage/application.go, up to the batch it commits.
  // ----------------------------------------------------------------------------------------------------

  const APPLICATION_ENTRY_VERSION: nat := 1

  /** ApplicationEntry */
  datatype AppliedEntry = AppliedEntry(version: nat, index: nat, term: nat, batches: seq<Batch>)

  function PostsOf(entry: AppliedEntry): seq<Post> {
    seq(|entry.batches|, i requires 0 <= i < |entry.batches| => Post(entry.batches[i], entry.index, entry.term))
  }

  /** The committed batches of some entries, in order. */
  function Posts(entries: seq<AppliedEntry>): seq<Post> {
    if entries == [] then [] else Posts(entries[..|entries| - 1]) + PostsOf(entries[|entries| - 1])
  }

  /** What applyEntries asks of one entry: the next position, committed, in the log and with its term. */
  predicate Applicable(entry: AppliedEntry, expected: nat, commit: nat, snapshot: Image, terms: seq<nat>) {
    && entry.version == APPLICATION_ENTRY_VERSION && entry.term != 0 && entry.index == expected <= commit
        && snapshot.index < entry.index
    && TermAt(snapshot.index, snapshot.term, terms, entry.index) == Some(entry.term)
  }

  predicate Committed(entries: seq<AppliedEntry>, applied: nat, commit: nat, snapshot: Image, terms: seq<nat>) {
    forall k | 0 <= k < |entries| :: Applicable(entries[k], applied + 1 + k, commit, snapshot, terms)
  }

  ghost function Answers(engine: Ledger, book: Book, entries: seq<AppliedEntry>): Result<(seq<Application>, Ledger)> {
    ApplyBatches(engine, Stored(LedgerOf(book)), Batches(Posts(entries)))
  }

  /** When a group of entries is applied: they are the next committed ones, the engine takes their batches, and no
      segment grows over its bound. */
  ghost predicate Accepts(book: Book, entries: seq<AppliedEntry>, applied: nat, commit: nat, snapshot: Image,
                          terms: seq<nat>) {
    hide Committed, PostAll, Sized;
    && Committed(entries, applied, commit, snapshot, terms)
    && PostAll(book, Posts(entries)).Ok? && Sized(PostAll(book, Posts(entries)).value.log)
  }

  lemma {:induction false} NoPosts(book: Book)
    ensures PostAll(book, Posts([])) == Ok(book)
  {
    hide PostOne;
  }

  method CheckEntries(entries: seq<AppliedEntry>, applied: nat, commit: nat, snapshot: Image, terms: seq<nat>)
    returns (ok: bool)
    ensures ok <==> Committed(entries, applied, commit, snapshot, terms)
  {
    for k := 0 to |entries|
      invariant forall j | 0 <= j < k :: Applicable(entries[j], applied + 1 + j, commit, snapshot, terms)
    {
      if !Applicable(entries[k], applied + 1 + k, commit, snapshot, terms) { return false; }
    }
    return true;
  }

  /** The posts of committed entries come after the book, in order. */
  lemma {:induction false} PostsPositioned(entries: seq<AppliedEntry>, applied: nat, commit: nat, snapshot: Image,
                                           terms: seq<nat>, log: seq<Filing>)
    requires Committed(entries, applied, commit, snapshot, terms) && Top(log) <= applied + 1
    ensures Positioned(log, Posts(entries))
    ensures forall i | 0 <= i < |Posts(entries)| :: applied < Posts(entries)[i].index <= applied + |entries|
  {
    hide Top;
    if entries != [] {
      var front, last := entries[..|entries| - 1], entries[|entries| - 1];
      PostsPositioned(front, applied, commit, snapshot, terms, log);
      assert Applicable(last, applied + |entries|, commit, snapshot, terms);
      var all: seq<Post> := Posts(front) + PostsOf(last);
      forall i | 0 <= i < |all| ensures applied < all[i].index <= applied + |entries| && all[i].term > 0 {}
      forall i, j | 0 <= i < j < |all| ensures all[i].index <= all[j].index {}
    }
  }

  lemma {:induction false} PostsWithin(entries: seq<AppliedEntry>, applied: nat, commit: nat, snapshot: Image,
                                       terms: seq<nat>, book: Book, after: Book)
    requires Committed(entries, applied, commit, snapshot, terms) && entries != [] && Top(book.log) <= applied + 1
             && Within(book, after, Posts(entries))
    ensures Top(after.log) <= applied + |entries| + 1
  {
    hide Top;
    PostsPositioned(entries, applied, commit, snapshot, terms, book.log);
    var posts := Posts(entries);
    if posts != [] { assert posts[|posts| - 1].index <= applied + |entries|; }
  }

  /** What the engine's answer to some posts says about the book: the receipts to add, and what changed. */
  ghost predicate Answered(engine: Ledger, book: Book, after: Book, posts: seq<Post>, added: seq<Filing>,
                           applied: (seq<Application>, Ledger)) {
    hide AcceptedOf, Extends, PostAll, ResidentOpen;
    && PostAll(book, posts) == Ok(after) && |applied.0| == |posts| && added == AcceptedOf(posts, applied.0)
    && Extends(book, after, added) && ResidentOpen(engine.states.Keys, book.states)
    && Changes(after, added, applied.1) && Within(book, after, posts)
        && after.conflicts == NotedOf(book.conflicts, posts, applied.0)
  }

  ghost predicate Changes(after: Book, added: seq<Filing>, ledger: Ledger) {
    forall w | w in Workflows(added) :: w in ledger.states && w in after.states && ledger.states[w] == after.states[w]
  }

  lemma {:induction false} EngineOpen(engine: Ledger, book: Book)
    requires EngineOf(engine, book)
    ensures ResidentOpen(engine.states.Keys, book.states)
  {
    hide Coherent, Records, IndexOf;
    forall w ensures w in engine.states <==> Open(book.states, w) { RetainedState(book, w); }
  }

  lemma {:induction false} FollowsChanges(book: Book, after: Book, posts: seq<Post>,
                                          applied: (seq<Application>, Ledger))
    requires hide AcceptedOf, LedgerOf, Reaches;
             Follows(LedgerOf(book), book, after, posts, applied)
    ensures after.log[|book.log|..] == AcceptedOf(posts, applied.0)
            && after.conflicts == NotedOf(book.conflicts, posts, applied.0)
    ensures Changes(after, AcceptedOf(posts, applied.0), applied.1)
  {
    hide Coherent, Records, IndexOf, Retained, AcceptedOf, Workflows, RequestIds;
    assert after.log[|book.log|..] == AcceptedOf(posts, applied.0);
  }

  lemma {:induction false} ExtendsAfter(book: Book, after: Book, posts: seq<Post>, added: seq<Filing>)
    requires Kept(book) && Kept(after) && PostAll(book, posts) == Ok(after) && Within(book, after, posts)
             && after.log == book.log + added
    ensures Extends(book, after, added)
  {
    hide Kept, PostAll, Workflows, Top;
    assert after.log[|book.log|..] == added;
    PostsReviveNone(book, posts);
    PostsTouch(book, posts);
    forall i | 0 <= i < |added|
        ensures Top(book.log) <= added[i].index { assert after.log[|book.log| + i] == added[i]; }
  }

  lemma {:induction false} AnswerTold(engine: Ledger, book: Book, posts: seq<Post>,
                                      applied: (seq<Application>, Ledger), ids: seq<Id>)
    requires hide AcceptedOf, Answered, ApplyBatches, EngineOf, EvictAll, Kept, LedgerOf, PostAll;
             Kept(book) && Positioned(book.log, posts) && EngineOf(engine, book)
    requires ApplyBatches(engine, Stored(LedgerOf(book)), Batches(posts)) == Ok(applied)
    ensures PostAll(book, posts).Ok? && |applied.0| == |posts|
    ensures Answered(engine, book, PostAll(book, posts).value, posts, AcceptedOf(posts, applied.0), applied)
    ensures (forall w :: w in ids <==> w in Workflows(AcceptedOf(posts, applied.0)))
            ==> EngineOf(EvictAll(applied.1, ids), PostAll(book, posts).value)
  {
    hide Kept, Positioned, ApplyBatches, PostAll, Batches, EvictAll, Extends, ResidentOpen, Within, AcceptedOf,
        Workflows, Retained, LedgerOf, Coherent, Changes;
    ResidentApplies(engine, book, posts, ids);
    var after := PostAll(book, posts).value;
    FollowsChanges(book, after, posts, applied);
    EngineOpen(engine, book);
    ExtendsAfter(book, after, posts, AcceptedOf(posts, applied.0));
  }

  /** The conflict outcomes of a group, in order. */
  method NoteConflicts(conflicts: map<(Id, Hash), Origin>, posts: seq<Post>, applications: seq<Application>)
    returns (noted: map<(Id, Hash), Origin>)
    requires |applications| == |posts|
    ensures noted == NotedOf(conflicts, posts, applications)
  {
    hide NotedOne;
    noted := conflicts;
    for n := 0 to |posts|
      invariant noted == NotedOf(conflicts, posts[..n], applications[..n])
    {
      assert posts[..n + 1][..n] == posts[..n] && applications[..n + 1][..n] == applications[..n];
      noted := NotedOne(noted, posts[n], applications[n]);
    }
    assert posts[..|posts|] == posts && applications[..|posts|] == applications;
  }

  method PutRecords(records: map<nat, nat>, entries: seq<AppliedEntry>, ghost applied: nat) returns (r: map<nat, nat>)
    requires forall k | 0 <= k < |entries| :: entries[k].index == applied + 1 + k
    ensures RecordsPut(records, r, entries, applied)
  {
    r := records;
    for n := 0 to |entries|
      invariant forall i :: i in r <==> i in records || applied < i <= applied + n
      invariant forall i | i in r :: r[i] == if applied < i <= applied + n then entries[i - applied - 1].term
                else records[i]
    {
      r := r[entries[n].index := entries[n].term];
    }
  }

  ghost predicate RecordsPut(before: map<nat, nat>, after: map<nat, nat>, entries: seq<AppliedEntry>, applied: nat) {
    && (forall i :: i in after <==> i in before || applied < i <= applied + |entries|)
    && (forall i | i in after :: after[i] == if applied < i <= applied + |entries| then entries[i - applied - 1].term
        else before[i])
  }

  lemma {:induction false} EntryRecorded(entries: seq<AppliedEntry>, applied: nat, commit: nat, snapshot: Image,
                                         terms: seq<nat>, i: nat)
    requires Committed(entries, applied, commit, snapshot, terms) && applied < i <= applied + |entries|
    ensures var e := entries[i - applied - 1];
            e.index == i <= commit && snapshot.index < i && e.term > 0
                && TermAt(snapshot.index, snapshot.term, terms, i) == Some(e.term)
  {
    assert Applicable(entries[i - applied - 1], applied + 1 + (i - applied - 1), commit, snapshot, terms);
  }

  lemma {:induction false} RecordedMore(disk: Disk, terms: seq<nat>, entries: seq<AppliedEntry>, next: Disk)
    requires Recorded(disk, terms) && entries != []
             && Committed(entries, disk.applied, disk.hard.commit, disk.snapshot, terms)
    requires RecordsPut(disk.records, next.records, entries, disk.applied) && next.snapshot == disk.snapshot
    requires next.applied == disk.applied + |entries| && next.appliedTerm == entries[|entries| - 1].term
             && disk.snapshot.index <= disk.applied
    ensures Recorded(next, terms)
  {
    hide Committed, TermAt;
    forall i | i in next.records ensures next.records[i] > 0
        && TermAt(next.snapshot.index, next.snapshot.term, terms, i) == Some(next.records[i]) {
      if disk.applied < i { EntryRecorded(entries, disk.applied, disk.hard.commit, disk.snapshot, terms, i); }
    }
    EntryRecorded(entries, disk.applied, disk.hard.commit, disk.snapshot, terms, next.applied);
  }

  /** The applied entries recorded with the terms of the log. */
  lemma {:induction false} RecordsGood(disk: Disk, terms: seq<nat>, book: Book, after: Book,
                                       entries: seq<AppliedEntry>, records: map<nat, nat>, archive: Archive)
    requires hide Committed, Good, Kept, Shelve, Sized;
             Good(disk, terms, book) && entries != []
             && Committed(entries, disk.applied, disk.hard.commit, disk.snapshot, terms)
    requires RecordsPut(disk.records, records, entries, disk.applied)
    requires Kept(after) && Sized(after.log) && Filled(after.log) && archive == Shelve(after)
             && Top(after.log) <= disk.applied + |entries| + 1
    requires Noted(after.conflicts, disk.applied + |entries|)
    ensures var last := entries[|entries| - 1];
            && last.index == disk.applied + |entries|
            && Good(disk.(records := records, applied := last.index, appliedTerm := last.term, archive := archive),
                terms, after)
  {
    hide Holds, Kept, Sized, Filled, Shelve, Genuine, Top, Committed, RecordsPut, Recorded, Noted;
    EntryRecorded(entries, disk.applied, disk.hard.commit, disk.snapshot, terms, disk.applied + 1);
    EntryRecorded(entries, disk.applied, disk.hard.commit, disk.snapshot, terms, disk.applied + |entries|);
    var last := entries[|entries| - 1];
    RecordedMore(disk, terms, entries, disk.(records := records, applied := last.index, appliedTerm := last.term,
        archive := archive));
  }

  /** The batch and the engine of an applied group, or a refusal. */
  method PlanApply(disk: Disk, terms: seq<nat>, ghost book: Book, engine: Ledger, entries: seq<AppliedEntry>,
                   answer: Result<(seq<Application>, Ledger)>)
    returns (ok: bool, next: Disk, resident: Ledger, reports: seq<Report>, ghost after: Book)
    requires hide Accepts, Answers, EngineOf, Good, Planned, AllReported, Posts;
             Good(disk, terms, book) && EngineOf(engine, book) && answer == Answers(engine, book, entries)
             && entries != []
    ensures ok <==> Accepts(book, entries, disk.applied, disk.hard.commit, disk.snapshot, terms)
    ensures ok ==> Planned(disk, terms, book, entries, next, resident, after)
    ensures ok ==> answer.Ok? && AllReported(reports, Posts(entries), answer.value.0, after.log)
  {
    next, resident, reports, after := disk, engine, [], book;
    ok := CheckEntries(entries, disk.applied, disk.hard.commit, disk.snapshot, terms);
    if !ok { return; }
    GoodShelved(disk, terms, book);
    hide Good, Committed, Kept, Sized, EngineOf, PostAll, Answers, Top, Positioned, Posts, Planned, AllReported;
    PostsPositioned(entries, disk.applied, disk.hard.commit, disk.snapshot, terms, book.log);
    AnswerOk(engine, book, entries);
    if answer.Err? { return false, next, resident, [], after; }
    after := PostAll(book, Posts(entries)).value;
    ok, next, resident, reports := StageGroup(disk, terms, book, after, engine, entries, answer.value);
  }

  /** What a planned apply comes to. */
  ghost predicate Planned(disk: Disk, terms: seq<nat>, book: Book, entries: seq<AppliedEntry>, next: Disk,
                          resident: Ledger, after: Book)
    requires hide EngineOf, Good, PostAll;
             entries != []
  {
    && PostAll(book, Posts(entries)) == Ok(after) && Good(next, terms, after) && EngineOf(resident, after)
    && entries[|entries| - 1].index == disk.applied + |entries|
    && next == disk.(records := next.records, applied := entries[|entries| - 1].index,
        appliedTerm := entries[|entries| - 1].term, archive := next.archive)
  }

  method StageGroup(disk: Disk, terms: seq<nat>, ghost book: Book, ghost after: Book, engine: Ledger,
                    entries: seq<AppliedEntry>, applied: (seq<Application>, Ledger))
    returns (ok: bool, next: Disk, resident: Ledger, reports: seq<Report>)
    requires hide Answers, Committed, EngineOf, Good, PostAll, Sized;
             Good(disk, terms, book) && EngineOf(engine, book) && entries != []
             && Committed(entries, disk.applied, disk.hard.commit, disk.snapshot, terms)
    requires Positioned(book.log, Posts(entries)) && Answers(engine, book, entries) == Ok(applied)
             && PostAll(book, Posts(entries)) == Ok(after)
    ensures ok <==> Sized(after.log)
    ensures ok ==> Planned(disk, terms, book, entries, next, resident, after)
    ensures ok ==> AllReported(reports, Posts(entries), applied.0, after.log)
  {
    hide Committed, Posts, AllReported;
    next, resident, reports := disk, engine, [];
    var posts := Posts(entries);
    GoodShelved(disk, terms, book);
    hide Good, EngineOf, Kept, Sized, Filled, Shelve, Top, Positioned, PostAll, ApplyBatches, AcceptedOf, Workflows,
        EvictAll, Extends, ResidentOpen, Within;
    AnswerLength(engine, Stored(LedgerOf(book)), Batches(posts));
    var added := AcceptedOf(posts, applied.0);
    var ids := SortedIds(Workflows(added));
    AnswerTold(engine, book, posts, applied, ids);
    ok, reports := ReportGroup(disk.archive, book, after, engine, posts, applied);
    if !ok { return; }
    var changed := map w | w in Workflows(added) :: applied.1.states[w];
    var archive;
    var conflicts := NoteConflicts(disk.archive.conflicts, posts, applied.0);
    ok, archive := StageApplied(disk.archive, book, after, added, changed, engine.states.Keys, conflicts);
    if !ok { return; }
    ExtendsKept(book, after, added);
    next := StageRecords(disk, terms, book, after, entries, archive);
    resident := EvictAll(applied.1, ids);
  }

  /** The outcomes of a group: a conflict is reported where it was met, any other request at the place of its first
      acceptance. */
  predicate AllReported(reports: seq<Report>, posts: seq<Post>, applications: seq<Application>, log: seq<Filing>) {
    |reports| == |posts| == |applications|
    && forall i | 0 <= i < |posts| :: Residents.Reports(reports[i], posts[i], applications[i], log)
  }

  method ReportGroup(archive: Archive, ghost book: Book, ghost after: Book, engine: Ledger, posts: seq<Post>,
                     applied: (seq<Application>, Ledger))
    returns (ok: bool, reports: seq<Report>)
    requires hide Answered, ApplyBatches, EngineOf, Filled, Kept, LedgerOf, Shelve;
             Kept(book) && Filled(book.log) && archive == Shelve(book) && EngineOf(engine, book)
             && |applied.0| == |posts|
    requires ApplyBatches(engine, Stored(LedgerOf(book)), Batches(posts)) == Ok(applied)
             && after.log == book.log + AcceptedOf(posts, applied.0)
    ensures ok && AllReported(reports, posts, applied.0, after.log)
  {
    hide Residents.Told, Kept, Filled, Slips, ApplyBatches, LedgerOf, Retained, Coherent, Unique, AcceptedOf,
        Residents.Reports;
    ResidentTells(engine, book, posts);
    KeptOnce(book);
    ok, reports := ReportAll(posts, applied.0, archive.slips, book);
  }

  /** The applied records, the applied index and the rest of the batch. */
  method StageRecords(disk: Disk, terms: seq<nat>, ghost book: Book, ghost after: Book, entries: seq<AppliedEntry>,
                      archive: Archive) returns (next: Disk)
    requires hide Committed, Good, Kept, PostAll, Shelve, Sized;
             Good(disk, terms, book) && entries != []
             && Committed(entries, disk.applied, disk.hard.commit, disk.snapshot, terms)
    requires Kept(after) && Sized(after.log) && Filled(after.log) && archive == Shelve(after)
    requires Within(book, after, Posts(entries)) && PostAll(book, Posts(entries)) == Ok(after)
    ensures var last := entries[|entries| - 1];
            && last.index == disk.applied + |entries| && Good(next, terms, after)
            && next == disk.(records := next.records, applied := last.index, appliedTerm := last.term,
                archive := archive)
  {
    GoodShelved(disk, terms, book);
    PostsPositioned(entries, disk.applied, disk.hard.commit, disk.snapshot, terms, book.log);
    hide Good, Kept, Sized, Filled, Shelve, Top, Within, Posts, PostAll, Positioned;
    NotedLater(disk, terms, book, entries);
    PostsNoted(book, Posts(entries), disk.applied + |entries|);
    hide Noted;
    forall k | 0 <= k < |entries|
        ensures entries[k].index == disk.applied + 1 + k {
        assert Applicable(entries[k], disk.applied + 1 + k, disk.hard.commit, disk.snapshot, terms); }
    hide Committed;
    var records := PutRecords(disk.records, entries, disk.applied);
    hide RecordsPut;
    PostsWithin(entries, disk.applied, disk.hard.commit, disk.snapshot, terms, book, after);
    RecordsGood(disk, terms, book, after, entries, records, archive);
    var last := entries[|entries| - 1];
    next := disk.(records := records, applied := last.index, appliedTerm := last.term, archive := archive);
  }

  lemma {:induction false} NotedLater(disk: Disk, terms: seq<nat>, book: Book, entries: seq<AppliedEntry>)
    requires hide Committed, Good;
             Good(disk, terms, book) && Committed(entries, disk.applied, disk.hard.commit, disk.snapshot, terms)
    ensures Noted(book.conflicts, disk.applied + |entries|)
    ensures forall i | 0 <= i < |Posts(entries)| :: Posts(entries)[i].term > 0
  {
    hide Kept, Sized, Filled, Shelve, Top, Logged, Recorded, Genuine, Committed;
    PostsPositioned(entries, disk.applied, disk.hard.commit, disk.snapshot, terms, book.log);
  }

  lemma {:induction false} AnswerLength(ledger: Ledger, loaders: Loaders, batches: seq<Batch>)
    requires hide ApplyBatches;
             ApplyBatches(ledger, loaders, batches).Ok?
    ensures |ApplyBatches(ledger, loaders, batches).value.0| == |batches|
  {
    hide ApplyBatch;
    if batches != [] { AnswerLength(ledger, loaders, batches[..|batches| - 1]); }
  }

  lemma {:induction false} GoodShelved(disk: Disk, terms: seq<nat>, book: Book)
    requires hide Good, Kept, Shelve, Sized;
             Good(disk, terms, book)
    ensures Kept(book) && Sized(book.log) && Filled(book.log) && disk.archive == Shelve(book)
            && Top(book.log) <= disk.applied + 1
  {
    hide Kept, Sized, Filled, Shelve, Top, Logged, Recorded, Genuine;
  }

  lemma {:induction false} ExtendsKept(book: Book, after: Book, added: seq<Filing>)
    requires Extends(book, after, added)
    ensures Kept(after)
  {
    hide Explained, Filed, Kept;
  }

  lemma {:induction false} AnswerOk(engine: Ledger, book: Book, entries: seq<AppliedEntry>)
    requires Kept(book) && Positioned(book.log, Posts(entries)) && EngineOf(engine, book)
    ensures Answers(engine, book, entries).Ok? <==> PostAll(book, Posts(entries)).Ok?
  {
    hide Kept, Positioned, ApplyBatches, PostAll, Batches, EvictAll, Within, AcceptedOf, Workflows, Retained,
        LedgerOf, Coherent;
    ResidentApplies(engine, book, Posts(entries), []);
  }

  // ----------------------------------------------------------------------------------------------------
  // The store object: Raft readiness, applied entries, snapshots and crashes.
  // ----------------------------------------------------------------------------------------------------

  class Store {
    var disk: Disk
    var hard: Hard
    var snapshot: Image
    var terms: seq<nat>
    var engine: Ledger
    var applied: nat
    var appliedTerm: nat
    ghost var book: Book
    ghost var writes: seq<Disk>
    ghost var synced: nat

    /** Every state of the store since it was opened can be loaded, and what may be lost is a commit index. */
    ghost predicate Safe()
      reads this
    {
      hide Recoverable;
      && synced < |writes| && writes[|writes| - 1] == disk
      && (forall k | 0 <= k < |writes| :: Recoverable(writes[k]))
      && (forall k | synced <= k < |writes| :: CommitBehind(writes[k], disk))
    }

    ghost predicate Cached()
      reads this
    {
      hard == disk.hard && snapshot == disk.snapshot && applied == disk.applied && appliedTerm == disk.appliedTerm
    }

    ghost predicate Valid()
      reads this
    {
      hide EngineOf, Good, Store.Safe;
      Good(disk, terms, book) && Cached() && EngineOf(engine, book) && Safe()
    }

    /** batch.Commit */
    method Commit(next: Disk, sync: bool)
      requires hide Recoverable, Store.Safe;
               Safe() && Recoverable(next) && (sync || CommitBehind(disk, next))
      modifies this`disk, this`writes, this`synced
      ensures Safe() && disk == next && writes == old(writes) + [next]
              && synced == (if sync then |writes| - 1 else old(synced))
    {
      hide Recoverable;
      if sync { synced := |writes|; }
      disk, writes := next, writes + [next];
    }

    /** raftWriteOptions */
    predicate MustSync(ready: Ready, kept: seq<Entry>, next: Hard)
      reads this
    {
      ready.mustSync || ready.snapshot.Some? || kept != [] || hard.term != next.term || hard.vote != next.vote
    }

    /** SaveReady for a ready that brings no snapshot. */
    method SaveEntries(ready: Ready, kept: seq<Entry>, next: Hard)
      requires hide Promised, Store.Valid;
               Valid() && Promised(ready, hard.commit) && ready.snapshot.None? && InRow(kept)
      requires kept != [] ==> hard.commit < kept[0].index <= snapshot.index + |terms| + 1
      requires hard.commit <= next.commit <= snapshot.index + (if kept == [] then |terms|
               else kept[0].index - snapshot.index - 1 + |kept|)
      modifies this`disk, this`writes, this`synced, this`hard, this`terms
      ensures Valid() && hard == next
      ensures terms == Appended(old(terms), snapshot.index, kept)
      ensures disk == old(disk).(hard := next, log := disk.log)
    {
      hide Holds, Shelved, Recorded, EngineOf, Recoverable, Genuine, Promised;
      var sync := MustSync(ready, kept, next);
      if kept == [] {
        HardGood(disk, terms, book, next);
        assert Recoverable(disk.(hard := next)) by { ProvesRecoverable(disk.(hard := next), terms, book); }
        Commit(disk.(hard := next), sync);
      } else {
        assert Logged(disk, terms);
        var log := ReplaceSuffix(kept);
        var now := PutTerms(terms, snapshot.index, kept);
        SuffixGood(disk, terms, book, kept, log, next);
        ProvesRecoverable(disk.(log := log, hard := next), now, book);
        Commit(disk.(log := log, hard := next), sync);
        terms := now;
      }
      hard := next;
    }

    /** The log after a conflicting suffix is deleted and the kept entries are set, in one batch. */
    method ReplaceSuffix(kept: seq<Entry>) returns (log: map<nat, Entry>)
      requires Holds(disk.log, snapshot.index, terms) && InRow(kept) && kept != []
               && snapshot.index < kept[0].index <= snapshot.index + |terms| + 1
      ensures Holds(log, snapshot.index, terms[..kept[0].index - snapshot.index - 1] + TermsOf(kept))
    {
      var cut := disk.log;
      if kept[0].index <= snapshot.index + |terms| { cut := Below(disk.log, kept[0].index); }
      assert cut == Below(disk.log, kept[0].index);
      log := PutAll(cut, kept);
      SuffixReplaced(disk.log, snapshot.index, terms, kept, log);
    }

    /** SaveReady for a ready that brings a snapshot: the log is replaced as a whole. */
    method SaveSnapshot(image: Image, kept: seq<Entry>, next: Hard)
      requires hide Genuine, Store.Valid;
               Valid() && Genuine(image) && image.index > hard.commit && InRow(kept)
      requires (kept != [] ==> kept[0].index == image.index + 1) && image.index <= next.commit <= image.index + |kept|
      modifies this`disk, this`writes, this`synced, this`hard, this`terms, this`snapshot
      ensures Valid() && hard == next && snapshot == image && terms == TermsOf(kept)
      ensures disk == old(disk).(hard := next, snapshot := image, log := disk.log)
    {
      hide Shelved, Recorded, EngineOf, Recoverable, Genuine, Good;
      var log := PutAll(map[], kept);
      assert Holds(log, image.index, TermsOf(kept));
      hide Holds;
      SnapshotGood(disk, terms, book, image, kept, log, next);
      ProvesRecoverable(disk.(snapshot := image, log := log, hard := next), TermsOf(kept), book);
      Commit(disk.(snapshot := image, log := log, hard := next), true);
      hard, snapshot, terms := next, image, TermsOf(kept);
    }

    /** SaveReady, and exactly when it refuses. A refusal changes nothing; otherwise the terms in memory are those of
        the records, the commit index stays within the log, and what is applied stays at or below it. */
    method SaveReady(ready: Ready) returns (ok: bool)
      requires hide Promised, Saveable, Store.Valid;
               Valid() && Promised(ready, hard.commit)
      modifies this`disk, this`writes, this`synced, this`hard, this`terms, this`snapshot
      ensures Valid()
      ensures !ok ==> disk == old(disk) && hard == old(hard) && terms == old(terms) && snapshot == old(snapshot)
      ensures ok <==> Saveable(ready, old(hard), old(snapshot.index), old(|terms|))
      ensures ok ==> hard == NextHard(ready, old(hard))
      ensures ok ==> snapshot == (if ready.snapshot.Some? then ready.snapshot.value else old(snapshot))
      ensures ok && ready.snapshot.None? ==> terms == Appended(old(terms), snapshot.index, ready.entries)
      ensures ok && ready.snapshot.Some? ==> terms == TermsOf(Past(ready.entries, snapshot.index))
      ensures disk.archive == old(disk.archive) && disk.applied == old(disk.applied)
    {
      LogBounds(disk, terms, book);
      assert InRow(ready.entries);
      hide Good, EngineOf, Recoverable, Genuine, CommitBehind, InRow, Promised, Appended, Saveable, Past;
      var kept, next;
      ok, kept, next := CheckReady(ready, hard, snapshot.index, |terms|);
      if !ok { return; }
      if ready.hard.None? && ready.entries == [] && ready.snapshot.None? {
        AppendedNothing(terms, snapshot.index);
        return;
      }
      SaveableShape(ready, hard, snapshot.index, |terms|);
      if ready.snapshot.Some? {
        SaveSnapshot(ready.snapshot.value, kept, next);
      } else {
        SaveEntries(ready, kept, next);
      }
    }

    /** installSnapshot: the snapshot that the log starts from, when it is ahead of what is applied. */
    method InstallSnapshot() returns (ok: bool)
      requires hide Depicts, Restores, Store.Valid;
               Valid()
      modifies this`disk, this`writes, this`synced, this`engine, this`applied, this`appliedTerm, this`book
      ensures ok && Valid() && applied == (if old(applied) < snapshot.index then snapshot.index else old(applied))
      ensures old(applied) < snapshot.index ==>
                Depicts(snapshot, book) && Restores(snapshot, book) && synced == |writes| - 1
      ensures old(applied) >= snapshot.index ==> disk == old(disk) && book == old(book) && engine == old(engine)
    {
      hide Store.Safe;
      if snapshot.index <= applied { return true; }
      GoodLoadable(disk, terms, book);
      hide Logged, Shelved, Recorded, EngineOf, Recoverable, CommitBehind, Depicts, Loadable, Restores;
      ghost var image: Book :| Depicts(snapshot, image);
      ok := InstallBook(image);
    }

    method InstallBook(ghost image: Book) returns (ok: bool)
      requires hide Depicts, Loadable, Restores, Store.Safe, Store.Valid;
               Loadable(disk, terms, book) && Cached() && Safe() && Depicts(snapshot, image) && applied < snapshot.index
      modifies this`disk, this`writes, this`synced, this`engine, this`applied, this`appliedTerm, this`book
      ensures ok && Valid() && book == image && applied == snapshot.index && synced == |writes| - 1
              && Restores(snapshot, book)
    {
      hide Good, Loadable, EngineOf, Recoverable, CommitBehind, Depicts, Retained, RestoredEngine, Shelve, Filled,
          Restores;
      var archive;
      ok, archive := InstallImage(snapshot, image);
      if !ok { return; }
      InstalledGood(disk, terms, book, image, archive);
      var next := disk.(records := map[], applied := snapshot.index, appliedTerm := snapshot.term, archive := archive,
          indexed := true);
      ProvesRecoverable(next, terms, image);
      Commit(next, true);
      engine := Retained(RestoredEngine(snapshot));
      ImageEngine(snapshot, image);
      applied, appliedTerm, book := snapshot.index, snapshot.term, image;
    }

    /** CreateSnapshot: the log and the applied records are compacted through the applied index. */
    method CreateSnapshot() returns (ok: bool)
      requires Valid()
      modifies this`disk, this`writes, this`synced, this`snapshot, this`terms
      ensures Valid() && (ok <==> old(snapshot.index) < applied)
      ensures ok ==>
                snapshot.index == applied && Depicts(snapshot, book) && Restores(snapshot, book)
                && terms == old(terms)[applied - old(snapshot.index)..]
      ensures !ok ==> disk == old(disk) && snapshot == old(snapshot) && terms == old(terms)
    {
      hide Good, EngineOf, Recoverable, CommitBehind, Depicts, TermAt, Safe, Restores;
      AppliedBounds(disk, terms, book);
      if applied <= snapshot.index { return false; }
      var image;
      ok, image := TakeImage(disk, terms, book);
      if !ok { return; }
      CompactTo(image);
      return true;
    }

    method CompactTo(image: Image)
      requires hide Store.Valid;
               Valid() && snapshot.index < applied == image.index <= snapshot.index + |terms|
      requires TermAt(snapshot.index, snapshot.term, terms, applied) == Some(image.term)
      modifies this`disk, this`writes, this`synced, this`snapshot, this`terms
      ensures Valid() && snapshot == image && terms == old(terms)[applied - old(snapshot.index)..]
    {
      hide Good, EngineOf, Recoverable, CommitBehind, TermAt, Above;
      var rest := terms[applied - snapshot.index..];
      CompactedGood(disk, terms, book, image);
      var next := disk.(snapshot := image, log := Above(disk.log, applied), records := map[]);
      ProvesRecoverable(next, rest, book);
      Commit(next, true);
      terms, snapshot := rest, image;
    }

    /** The store as initialize leaves it: a blank snapshot at position one, applied. */
    constructor ()
      ensures Valid() && book == BLANK && snapshot.index == applied == hard.commit == 1 && terms == []
    {
      hide EngineOf, Good, LedgerOf, Retained;
      var image := Image(1, 1, map[], [], [], map[]);
      var first := Disk(Hard(1, 0, 1), image, map[], map[], 1, 1, Archive(map[], map[], map[], {}, {}, map[], map[]),
          true);
      disk, hard, snapshot, terms, applied, appliedTerm := first, first.hard, image, [], 1, 1;
      engine := Retained(LedgerOf(BLANK));
      book, writes, synced := BLANK, [first], 0;
      BlankGood(first);
    }

    /** load: from any state of the store it succeeds; the log terms, the applied index and the resident engine are
        those of the records, a missing index is rebuilt, a snapshot that was ahead is installed, and snapshot, applied
        and commit are in order. */
    method Load(ghost held: seq<nat>, ghost shelved: Book) returns (ok: bool)
      requires hide Depicts, Loadable, Reindexed, Store.Valid;
               Loadable(disk, held, shelved) && writes == [disk] && synced == 0
      modifies this
      ensures ok && Valid() && terms == held && hard == old(disk.hard) && snapshot == old(disk.snapshot)
      ensures snapshot.index <= applied <= hard.commit <= snapshot.index + |terms|
      ensures old(disk.snapshot.index <= disk.applied) ==>
                book == shelved && applied == old(disk.applied) && disk == Reindexed(old(disk), shelved)
      ensures old(disk.snapshot.index > disk.applied) ==> Depicts(snapshot, book) && applied == snapshot.index
    {
      hide Good, Loadable, EngineOf, Recoverable, Depicts, Reindexed, Restores;
      LogBounds(disk, held, shelved);
      hard, snapshot, applied, appliedTerm, book := disk.hard, disk.snapshot, disk.applied, disk.appliedTerm, shelved;
      ok, terms := LoadLog(disk, held, shelved);
      if !ok { return; }
      ProvesRecoverable(disk, held, shelved);
      hide CommitBehind;
      if hard.commit < snapshot.index || hard.commit > snapshot.index + |terms| { return false; }
      if snapshot.index > applied {
        ghost var image := AheadImage(disk, terms, book);
        ok := InstallBook(image);
      } else {
        var next;
        ok, next, engine := LoadApplication(disk, terms, book);
        if !ok { return; }
        IndexKept(disk, book);
        ProvesRecoverable(next, terms, book);
        if next != disk { Commit(next, true); }
      }
      AppliedBounds(disk, terms, book);
    }

    /** A crash, and opening the store again: it keeps a prefix of the batches with every synced one. The log, the
        snapshot, the vote, what is applied and the resident engine come back as they were; only the commit index
        may be an earlier one, never below what is applied. */
    method Crash(survivor: Disk, ghost k: nat) returns (ok: bool)
      requires hide Depicts, Store.Valid;
               Valid() && synced <= k < |writes| && survivor == writes[k]
      modifies this
      ensures ok && Valid() && snapshot == old(snapshot) && terms == old(terms)
      ensures hard.term == old(hard.term) && hard.vote == old(hard.vote) && applied <= hard.commit <= old(hard.commit)
      ensures old(snapshot.index <= applied) ==>
                book == old(book) && applied == old(applied) && appliedTerm == old(appliedTerm)
                    && SameTables(engine, old(engine))
                && disk == old(disk).(hard := hard)
      ensures old(snapshot.index > applied) ==> applied == snapshot.index && Depicts(snapshot, book)
    {
      hide Good, Loadable, EngineOf, Recoverable, Depicts, Reindexed;
      BehindGood(survivor, disk, terms, book);
      GoodLoadable(survivor, terms, book);
      disk := survivor;
      writes, synced := [disk], 0;
      ghost var before := engine;
      ok := Load(terms, book);
      if old(snapshot.index <= applied) { SameEngine(before, engine, book); }
    }

    /** applyEntries. The answer is what the engine makes of the entries' batches, its lookups reading the records.
        A refusal changes nothing; otherwise the records, the applied index and the resident engine are those of the
        longer book, in one synced batch. */
    method Apply(entries: seq<AppliedEntry>, answer: Result<(seq<Application>, Ledger)>)
      returns (ok: bool, reports: seq<Report>)
      requires hide Accepts, Answers, PostAll, Store.Valid;
               Valid() && answer == Answers(engine, book, entries)
      modifies this`disk, this`writes, this`synced, this`engine, this`applied, this`appliedTerm, this`book
      ensures Valid()
      ensures ok ==> PostAll(old(book), Posts(entries)) == Ok(book)
      ensures ok && entries != [] ==>
                applied == entries[|entries| - 1].index == old(applied) + |entries| && synced == |writes| - 1
      ensures !ok || entries == [] ==>
                disk == old(disk) && engine == old(engine) && applied == old(applied) && book == old(book)
      ensures ok <==> entries == [] || Accepts(old(book), entries, old(applied), hard.commit, snapshot, terms)
      ensures ok && entries != [] ==> answer.Ok? && AllReported(reports, Posts(entries), answer.value.0, book.log)
    {
      hide Good, EngineOf, Recoverable, CommitBehind, PostAll, Posts, Accepts, Answers, AllReported;
      reports := [];
      if entries == [] { NoPosts(book); return true, []; }
      var next, resident;
      ghost var after;
      ok, next, resident, reports, after := PlanApply(disk, terms, book, engine, entries, answer);
      if ok {
        var last := entries[|entries| - 1];
        ProvesRecoverable(next, terms, after);
        Commit(next, true);
        engine, applied, appliedTerm, book := resident, last.index, last.term, after;
      }
    }
  }
}
