/** Compaction and eviction of ended workflows: internal/core/retention.go. */
module Retention {
  import opened Base
  import opened Model
  import opened Ledgers

  function Emptied(requests: map<Id, Record>, workflow: Id): map<Id, Record> {
    map r | r in requests :: if requests[r].workflow == workflow then requests[r].(events := []) else requests[r]
  }

  /** CompactTerminal */
  function CompactTerminal(ledger: Ledger, id: Id): Ledger {
    if id in ledger.states && Terminal(ledger.states[id].status) then
      ledger.(states := ledger.states[id := Header(ledger.states[id])], active := ledger.active - {id},
              requests := Emptied(ledger.requests, id))
    else ledger
  }

  /** EvictTerminal */
  function EvictTerminal(ledger: Ledger, id: Id): Ledger {
    if id in ledger.states && Terminal(ledger.states[id].status) then
      ledger.(states := ledger.states - {id}, active := ledger.active - {id},
              requests := map r | r in ledger.requests && ledger.requests[r].workflow != id :: ledger.requests[r],
              index := ledger.index - {id})
    else ledger
  }

  /** Compaction leaves the indexes exact. */
  lemma {:induction false} CompactCoherent(ledger: Ledger, id: Id)
    requires Coherent(ledger)
    ensures Coherent(CompactTerminal(ledger, id))
  {
    var after := CompactTerminal(ledger, id);
    assert after.active == ActiveOf(after.states);
    forall w ensures RequestsOf(after.requests, w) == RequestsOf(ledger.requests, w) {}
    forall w ensures w in IndexOf(after.requests) <==> w in IndexOf(ledger.requests) {
      IndexMember(after.requests, w);
      IndexMember(ledger.requests, w);
    }
    assert IndexOf(after.requests) == IndexOf(ledger.requests);
  }

  lemma {:induction false} EvictCoherent(ledger: Ledger, id: Id)
    requires Coherent(ledger)
    ensures Coherent(EvictTerminal(ledger, id))
  {
    var after := EvictTerminal(ledger, id);
    assert after.active == ActiveOf(after.states);
    if id in ledger.states && Terminal(ledger.states[id].status) {
      forall w | w != id ensures RequestsOf(after.requests, w) == RequestsOf(ledger.requests, w) {}
      assert RequestsOf(after.requests, id) == {};
      forall w ensures w in IndexOf(after.requests) <==> w in ledger.index - {id} {
        IndexMember(after.requests, w);
        IndexMember(ledger.requests, w);
      }
      assert IndexOf(after.requests) == ledger.index - {id};
    }
  }

  /** The durable store as loaders: everything that has been committed and applied. */
  function Stored(durable: Ledger): Loaders {
    Loaders(id => Ok(Lookup(durable.states, id)), r => Ok(if r in durable.requests then Some(durable.requests[r])
        else None))
  }

  function LookupRecord(ledger: Ledger, r: Id): Option<Record> {
    if r in ledger.requests then Some(ledger.requests[r]) else None
  }

  /** The resident part of a store: the planner at the start of a pipeline. */
  function Retained(durable: Ledger): Ledger {
    var states := map id | id in durable.states && !Terminal(durable.states[id].status) :: durable.states[id];
    var requests := map r | r in durable.requests && durable.requests[r].workflow in states :: durable.requests[r];
    durable.(states := states, active := ActiveOf(states), requests := requests, index := IndexOf(requests))
  }
}
