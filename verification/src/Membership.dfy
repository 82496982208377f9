/** The filter in front of durable lookups: internal/storage/membership.go. It may say yes to an absent key, and
    never says no to a durable one. */
module Membership {
  import opened Model
  import opened Filings
  const SHARD_SHIFT: bv64 := 52
  const INITIAL_CAPACITY: bv64 := 1024
  const BITS_PER_ID: bv64 := 16
  const HASH_COUNT: nat := 7

  /** membershipDelta */
  function Delta(hash: bv64): bv64 {
    var a := hash + 0x9e3779b97f4a7c15;
    var b := (a ^ (a >> 30)) * 0xbf58476d1ce4e5b9;
    var c := (b ^ (b >> 27)) * 0x94d049bb133111eb;
    (c ^ (c >> 31)) | 1
  }

  datatype Shard = Shard(number: bv64)

  /** membershipShardIndex */
  function ShardIndex(hash: bv64): Shard {
    Shard(hash >> SHARD_SHIFT)
  }

  /** The bit that probe number `index` of a hash lands on. */
  function Probe(hash: bv64, delta: bv64, index: nat, mask: bv64): bv64
    requires index < HASH_COUNT
  {
    (hash + (index as bv64) * delta) & mask
  }

  /** The bit of a word. */
  function Bit(bit: bv64): bv64 {
    (1 as bv64) << (bit & 63)
  }

  function WordNumber(bit: bv64): bv64 {
    bit >> 6
  }

  function OrBit(word: bv64, bit: bv64): bv64 {
    word | Bit(bit)
  }

  predicate TestBit(word: bv64, bit: bv64) {
    word & Bit(bit) != 0
  }

  lemma {:induction false} BitStays(word: bv64, bit: bv64, other: bv64)
    ensures TestBit(OrBit(word, bit), bit)
    ensures TestBit(word, other) ==> TestBit(OrBit(word, bit), other)
  {
  }

  /** A probe stays within the words of its layer. */
  lemma {:induction false} ProbeInBounds(hash: bv64, delta: bv64, index: nat, mask: bv64)
    requires index < HASH_COUNT
    ensures WordNumber(Probe(hash, delta, index, mask)) <= WordNumber(mask)
  {
    var sum := hash + (index as bv64) * delta;
    MaskBounds(sum, mask);
  }

  lemma {:induction false} MaskBounds(sum: bv64, mask: bv64)
    ensures (sum & mask) >> 6 <= mask >> 6
  {
  }

  function At<K, V>(table: map<K, V>, k: K, zero: V): V {
    if k in table then table[k] else zero
  }

  lemma {:induction false} AtUpdated<K, V>(table: map<K, V>, k: K, v: V, j: K, zero: V)
    ensures At(table[k := v], j, zero) == if j == k then v else At(table, j, zero)
  {
  }

  function WordAt(words: map<bv64, bv64>, i: bv64): bv64 {
    At(words, i, 0)
  }

  predicate BitSet(words: map<bv64, bv64>, bit: bv64) {
    TestBit(WordAt(words, WordNumber(bit)), bit)
  }

  predicate AllSet(words: map<bv64, bv64>, hash: bv64, mask: bv64) {
    forall index: nat | index < HASH_COUNT :: BitSet(words, Probe(hash, Delta(hash), index, mask))
  }

  function Orred(words: map<bv64, bv64>, bit: bv64): map<bv64, bv64> {
    words[WordNumber(bit) := OrBit(WordAt(words, WordNumber(bit)), bit)]
  }

  /** Setting a bit sets it, and clears none. */
  lemma {:induction false} OrredKeeps(words: map<bv64, bv64>, bit: bv64, other: bv64)
    ensures BitSet(Orred(words, bit), bit)
    ensures BitSet(words, other) ==> BitSet(Orred(words, bit), other)
  {
    hide At, WordNumber, OrBit, TestBit;
    var i, j := WordNumber(bit), WordNumber(other);
    AtUpdated(words, i, OrBit(WordAt(words, i), bit), i, 0);
    AtUpdated(words, i, OrBit(WordAt(words, i), bit), j, 0);
    BitStays(WordAt(words, i), bit, bit);
    BitStays(WordAt(words, i), bit, other);
  }

  /** membershipLayer; words start at zero and are only OR-ed into. */
  class Layer {
    var words: map<bv64, bv64>
    const capacity: bv64
    var count: bv64
    const mask: bv64

    constructor (capacity: bv64)
      ensures this.capacity == capacity && count == 0 && words == map[]
    {
      words, count := map[], 0;
      this.capacity, mask := capacity, capacity * BITS_PER_ID - 1;
    }

    ghost predicate Has(hash: bv64)
      reads this
    {
      AllSet(words, hash, mask)
    }

    /** add */
    method Add(hash: bv64)
      modifies this`words
      ensures Has(hash) && forall h :: old(Has(h)) ==> Has(h)
    {
      hide Orred, BitSet, Probe, Delta;
      var delta := Delta(hash);
      for index := 0 to HASH_COUNT
        invariant forall k: nat | k < index :: BitSet(words, Probe(hash, delta, k, mask))
        invariant forall h :: old(Has(h)) ==> Has(h)
      {
        var bit := Probe(hash, delta, index, mask);
        ghost var before := words;
        words := Orred(words, bit);
        forall other ensures BitSet(before, other) ==> BitSet(words, other) { OrredKeeps(before, bit, other); }
        OrredKeeps(before, bit, bit);
      }
    }

    /** contains */
    method Contains(hash: bv64) returns (r: bool)
      ensures r == Has(hash)
    {
      hide BitSet, Probe, Delta;
      var delta := Delta(hash);
      for index := 0 to HASH_COUNT
        invariant forall k: nat | k < index :: BitSet(words, Probe(hash, delta, k, mask))
      {
        if !BitSet(words, Probe(hash, delta, index, mask)) { return false; }
      }
      return true;
    }
  }

  /** membershipFilter: shards of growing lists of layers; a shard that is not there has none. */
  class Filter {
    const hash: Id -> bv64
    var shards: map<Shard, seq<Layer>>

    constructor (hash: Id -> bv64)
      ensures this.hash == hash && shards == map[] && Valid()
    {
      this.hash := hash;
      shards := map[];
    }

    ghost function Layers(): set<Layer>
      reads this
    {
      set s, i | s in shards && 0 <= i < |shards[s]| :: shards[s][i]
    }

    ghost predicate Valid()
      reads this
    {
      forall s | s in shards :: shards[s] != []
    }

    ghost predicate HasHash(h: bv64)
      reads this, Layers()
    {
      var s := ShardIndex(h);
      s in shards && exists i :: 0 <= i < |shards[s]| && shards[s][i].Has(h)
    }

    ghost predicate Has(value: Id)
      reads this, Layers()
    {
      HasHash(hash(value))
    }

    /** contains, from the newest layer back. */
    method Contains(value: Id) returns (r: bool)
      ensures r == Has(value)
    {
      hide ShardIndex, AllSet, Layer.Has;
      var h := hash(value);
      var s := ShardIndex(h);
      if s !in shards { return false; }
      var layers, i := shards[s], |shards[s]|;
      while i > 0
        invariant 0 <= i <= |layers| && forall k | i <= k < |layers| :: !layers[k].Has(h)
      {
        i := i - 1;
        var found := layers[i].Contains(h);
        if found { return true; }
      }
      return false;
    }

    /** addValue and membershipShard.add: into the newest layer while it has room, else into a new one of twice
        the size. What the filter held, it holds. */
    method Add(value: Id)
      requires Valid()
      modifies this`shards, Layers()
      ensures Valid() && Has(value) && fresh(Layers() - old(Layers()))
      ensures forall h :: old(HasHash(h)) ==> HasHash(h)
    {
      hide ShardIndex, AllSet;
      var h := hash(value);
      var s := ShardIndex(h);
      if s !in shards {
        var layer := NewLayer(INITIAL_CAPACITY, h);
        shards := shards[s := [layer]];
        assert shards[s][0].Has(h);
        forall x | old(HasHash(x)) ensures HasHash(x) {
          var t := ShardIndex(x);
          var i :| 0 <= i < |old(shards[t])| && old(shards[t][i].Has(x));
          assert shards[t][i] == old(shards)[t][i] && shards[t][i].Has(x);
        }
        return;
      }
      var layer := shards[s][|shards[s]| - 1];
      assert layer in Layers();
      if layer.count < layer.capacity {
        layer.Add(h);
        layer.count := layer.count + 1;
        assert shards[s][|shards[s]| - 1].Has(h);
        forall x | old(HasHash(x)) ensures HasHash(x) {
          var t := ShardIndex(x);
          var i :| 0 <= i < |old(shards[t])| && old(shards[t][i].Has(x));
          assert shards[t][i].Has(x);
        }
      } else {
        var larger := NewLayer(layer.capacity * 2, h);
        shards := shards[s := shards[s] + [larger]];
        assert shards[s][|shards[s]| - 1].Has(h);
        forall x | old(HasHash(x)) ensures HasHash(x) {
          var t := ShardIndex(x);
          var i :| 0 <= i < |old(shards[t])| && old(shards[t][i].Has(x));
          assert shards[t][i] == old(shards)[t][i] && shards[t][i].Has(x);
        }
      }
    }

    /** addAll */
    method AddAll(values: seq<Id>)
      requires Valid()
      modifies this`shards, Layers()
      ensures Valid() && fresh(Layers() - old(Layers()))
      ensures forall v | v in values :: Has(v)
      ensures forall h :: old(HasHash(h)) ==> HasHash(h)
    {
      hide HasHash;
      for n := 0 to |values|
        invariant Valid() && fresh(Layers() - old(Layers()))
        invariant forall v | v in values[..n] :: Has(v)
        invariant forall h :: old(HasHash(h)) ==> HasHash(h)
      {
        assert values[..n + 1] == values[..n] + [values[n]];
        Add(values[n]);
      }
      assert values[..|values|] == values;
    }

    static method NewLayer(capacity: bv64, h: bv64) returns (layer: Layer)
      ensures fresh(layer) && layer.Has(h)
    {
      hide AllSet;
      layer := new Layer(capacity);
      layer.Add(h);
      layer.count := 1;
    }
  }

  /** durableMembership */
  datatype Filters = Filters(receipts: Filter, workflows: Filter)

  ghost predicate Separate(f: Filters)
    reads f.receipts, f.workflows
  {
    && f.receipts.Valid() && f.workflows.Valid() && f.receipts != f.workflows
    && f.receipts.Layers() !! f.workflows.Layers()
  }

  /** The filters hold every key. */
  ghost predicate Complete(f: Filters, requests: set<Id>, workflows: set<Id>)
    reads f.receipts, f.workflows, f.receipts.Layers(), f.workflows.Layers()
  {
    && (forall r | r in requests :: f.receipts.Has(r))
    && (forall w | w in workflows :: f.workflows.Has(w))
  }

  /** The requests that addAccepted adds, and the workflows: those whose receipt starts with their submission. */
  function AcceptedRequests(added: seq<Filing>): seq<Id> {
    seq(|added|, i requires 0 <= i < |added| => added[i].request)
  }

  predicate Submits(f: Filing) {
    f.events != [] && f.events[0].kind == EventWorkflowSubmitted
  }

  function SubmittedWorkflows(added: seq<Filing>): seq<Id> {
    if added == [] then []
    else
      var last := added[|added| - 1];
      SubmittedWorkflows(added[..|added| - 1]) + (if Submits(last) then [last.workflow] else [])
  }

  lemma {:induction false} SubmittedMember(added: seq<Filing>, i: nat)
    requires i < |added| && Submits(added[i])
    ensures added[i].workflow in SubmittedWorkflows(added)
  {
    if i < |added| - 1 { SubmittedMember(added[..|added| - 1], i); }
  }

  /** addAccepted and the filters of a commit: complete for what was durable, and for what the group added. */
  method AddAccepted(f: Filters, added: seq<Filing>, ghost requests: set<Id>, ghost workflows: set<Id>)
    requires hide Complete, Filter.Has, Layer.Has, Separate;
             Separate(f) && Complete(f, requests, workflows)
    modifies f.receipts`shards, f.workflows`shards, f.receipts.Layers(), f.workflows.Layers()
    ensures Separate(f) && fresh(f.receipts.Layers() - old(f.receipts.Layers()))
            && fresh(f.workflows.Layers() - old(f.workflows.Layers()))
    ensures Complete(f, requests + (set i | 0 <= i < |added| :: added[i].request),
            workflows + (set w | w in SubmittedWorkflows(added)))
    ensures forall id ::
              (old(f.receipts.Has(id)) ==> f.receipts.Has(id)) && (old(f.workflows.Has(id)) ==> f.workflows.Has(id))
  {
    hide Filter.HasHash;
    f.receipts.AddAll(AcceptedRequests(added));
    label Between:
    f.workflows.AddAll(SubmittedWorkflows(added));
    forall i | 0 <= i < |added|
        ensures added[i].request in AcceptedRequests(added) { assert AcceptedRequests(added)[i] == added[i].request; }
  }
}
