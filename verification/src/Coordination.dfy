/** The proposal loop of internal/coordinator/runtime.go as an object: every request taken in waits in exactly one
    place until it is answered, and is answered once; what is active is where it is expected in the log; and the
    pipeline is at every moment where the machine of module Pipelines is, so that its planner is exact. */
module Coordination {
  import opened Base
  import Model
  import IdOrder
  import Settings
  import Quotas
  import Pipelines

  const READY_BATCH: nat := 16
  const WINDOW: nat := 48

  /** proposalRequest; a bounded one holds a pending token. */
  datatype Request = Request(id: nat, bounded: bool)

  /** activeProposal: a staged request, the log position it is expected at, and the applied index it was last
      looked up at. */
  datatype Proposal = Proposal(request: Request, expected: nat, checked: nat)

  /** What the loop sees of Raft. The log is the whole history, one slot a position, 1 first; a slot names the
      request this node appended there, if it did. */
  datatype Raft = Raft(leader: bool, term: nat, led: nat, log: seq<Option<Request>>, applied: nat, appliedTerm: nat)

  /** `led` is the last term this node led in. */
  predicate Sane(raft: Raft) {
    raft.led <= raft.term && (raft.leader ==> raft.led == raft.term)
  }

  /** What Raft promises between two looks: terms do not go back, a node leads a term once, and one that is still leader
      in the same term has only had entries appended. */
  predicate Evolves(before: Raft, after: Raft) {
    && Sane(after) && before.term <= after.term && before.led <= after.led
    && (after.leader && !(before.leader && before.term == after.term) ==> before.led < after.term)
    && (before.leader && after.leader && before.term == after.term ==> before.log <= after.log)
  }

  function Owned(requests: seq<Request>): seq<Option<Request>> {
    seq(|requests|, i requires 0 <= i < |requests| => Some(requests[i]))
  }

  /** A proposal message handed to Raft: a leader appends its entries in order, another node does not. */
  function Proposed(raft: Raft, requests: seq<Request>): Raft {
    if raft.leader then raft.(log := raft.log + Owned(requests)) else raft
  }

  function Requests(active: seq<Proposal>): seq<Request> {
    seq(|active|, i requires 0 <= i < |active| => active[i].request)
  }

  function Token(request: Request): nat {
    if request.bounded then 1 else 0
  }

  /** The tokens held by a list of requests. */
  function Tokens(requests: seq<Request>): nat {
    if requests == [] then 0 else Tokens(requests[..|requests| - 1]) + Token(requests[|requests| - 1])
  }

  /** What happened to one prepared request. */
  datatype Preparation =
    | Refused      // preparing it failed
    | Unready      // one of its duplicates could not be looked up
    | Immediate    // nothing to stage: every command was a duplicate
    | Staged       // it has entries to append

  /** What looking up the requests of an active proposal comes to. */
  datatype Lookup = NotYet | Complete | Failed

  /** Every arrived request is queued, being prepared, active or answered: one of them, once; and the tokens taken
      are those of the requests not answered. */
  ghost predicate Balanced(queue: seq<Request>, preparing: seq<Request>, active: seq<Proposal>, answered: seq<Request>,
                           arrived: multiset<Request>, pending: nat) {
    && multiset(queue) + multiset(preparing) + multiset(Requests(active)) + multiset(answered) == arrived
    && pending == Tokens(queue) + Tokens(preparing) + Tokens(Requests(active))
  }

  /** Each proposal's entry is at its expected position, and positions grow along the list. */
  ghost predicate Placed(active: seq<Proposal>, log: seq<Option<Request>>) {
    && (forall i | 0 <= i < |active| ::
          1 <= active[i].expected <= |log| && log[active[i].expected - 1] == Some(active[i].request))
    && forall i, j | 0 <= i < j < |active| :: active[i].expected < active[j].expected
  }

  /** shouldLookup, which no call of the loop forces. */
  predicate Due(p: Proposal, applied: nat) {
    p.expected <= applied && p.checked < applied
  }

  /** The proposals a sweep leaves active, in order. */
  function Kept(active: seq<Proposal>, lookups: seq<Lookup>, applied: nat): seq<Proposal>
    requires |lookups| == |active|
  {
    if active == [] then []
    else
      var n := |active| - 1;
      var before := Kept(active[..n], lookups[..n], applied);
      if !Due(active[n], applied) then before + [active[n]]
      else if lookups[n].Complete? then before
      else before + [active[n].(checked := applied)]
  }

  /** The proposals a sweep answers, in order. */
  function Finished(active: seq<Proposal>, lookups: seq<Lookup>, applied: nat): seq<Proposal>
    requires |lookups| == |active|
  {
    if active == [] then []
    else
      var n := |active| - 1;
      var before := Finished(active[..n], lookups[..n], applied);
      if Due(active[n], applied) && lookups[n].Complete? then before + [active[n]] else before
  }

  /** No proposal due for a lookup has one that fails. */
  predicate Sound(active: seq<Proposal>, lookups: seq<Lookup>, applied: nat)
    requires |lookups| == |active|
  {
    forall i | 0 <= i < |active| :: Due(active[i], applied) ==> !lookups[i].Failed?
  }

  /** A proposal whose own entry has been applied, at the position it expected. */
  ghost predicate Landed(p: Proposal, log: seq<Option<Request>>, applied: nat) {
    1 <= p.expected <= |log| && log[p.expected - 1] == Some(p.request) && p.expected <= applied
  }

  /** A sweep that has reached proposal i. */
  ghost predicate Swept(all: seq<Proposal>, lookups: seq<Lookup>, i: nat, log: seq<Option<Request>>, applied: nat,
                        remaining: seq<Proposal>, finished: seq<Proposal>)
  {
    && i <= |all| == |lookups| && |remaining| <= i
    && remaining == Kept(all[..i], lookups[..i], applied)
    && finished == Finished(all[..i], lookups[..i], applied)
    && Sound(all[..i], lookups[..i], applied)
    && Placed(remaining + all[i..], log)
    && forall p | p in finished :: Landed(p, log, applied)
  }

  /** The requests of a prepared group that have entries to append, in order. */
  function StagedOf(requests: seq<Request>, outcomes: seq<Preparation>): seq<Request>
    requires |outcomes| == |requests|
  {
    if requests == [] then []
    else
      var n := |requests| - 1;
      StagedOf(requests[..n], outcomes[..n]) + (if outcomes[n].Staged? then [requests[n]] else [])
  }

  /** The requests of a prepared group that are answered at once, in order. */
  function AnsweredOf(requests: seq<Request>, outcomes: seq<Preparation>): seq<Request>
    requires |outcomes| == |requests|
  {
    if requests == [] then []
    else
      var n := |requests| - 1;
      AnsweredOf(requests[..n], outcomes[..n]) + (if outcomes[n].Staged? then [] else [requests[n]])
  }

  /** Proposals expected one after the other past a position. */
  predicate Numbered(group: seq<Proposal>, last: nat) {
    forall k | 0 <= k < |group| :: group[k].expected == last + k + 1
  }

  /** The requests of a list that meet a condition, in order. */
  function Those(requests: seq<Request>, meets: Request -> bool): seq<Request> {
    if requests == [] then []
    else
      var front := Those(requests[..|requests| - 1], meets);
      if meets(requests[|requests| - 1]) then front + [requests[|requests| - 1]] else front
  }

  /** The requests that can be staged, and the others. */
  function Stageable(canceled: Request -> bool, refused: Request -> bool): Request -> bool {
    r => !canceled(r) && !refused(r)
  }

  function Unstageable(canceled: Request -> bool, refused: Request -> bool): Request -> bool {
    r => canceled(r) || refused(r)
  }

  /** A request offered for admission. */
  datatype Offer = Offer(id: nat, canceled: bool)

  /** What wakes the loop: requests at admission, one on the channel, a prepared group, or Raft; and, beside the loop,
      the goroutine that prepares the next proposal. */
  datatype Event =
    | Admission(offers: seq<Offer>)
    | Arrival
    | Prepared(outcomes: seq<Preparation>, accepted: bool, after: Raft, entries: seq<Pipelines.Entry>, processed: bool)
    | Motion(after: Raft, entries: seq<Pipelines.Entry>)
    | Working(refused: bool)

  /** Why startProposal stops where it does. */
  datatype Pause =
    | Busy         // a preparation is under way
    | Empty        // nothing is queued
    | Full         // the window is full
    | Following    // this node does not lead: the first queued request is answered
    | Delayed      // the batching delay is still running
    | Behind       // the log is not applied up to its end in this term
    | Lost         // the pipeline is no longer at the end of the log: it is failed
    | Drained      // nothing that was queued could be staged
    | Started      // a group is being prepared

  // ---- the machine of module Pipelines ----------------------------------------------------------------------

  /** What the loop sees of Raft is what the machine holds. */
  predicate SeenAs(n: Pipelines.Node, raft: Raft) {
    && n.term == raft.term && n.leader == raft.leader && |n.log| == |raft.log| && n.applied == raft.applied
    && Pipelines.AppliedTerm(n) == raft.appliedTerm
  }

  predicate SamePlaces(a: seq<Pipelines.Active>, b: seq<Proposal>) {
    |a| == |b| && forall i | 0 <= i < |a| :: a[i].expected == b[i].expected
  }

  /** The machine has got where it is by its own steps, and sees what the loop sees. */
  ghost predicate Tied(config: Settings.Config, origin: Pipelines.Node, trace: seq<Pipelines.Step>,
                       node: Pipelines.Node, raft: Raft, prepareActive: bool, prepareFailed: bool, planner: bool) {
    hide Pipelines.From, Pipelines.Valid, SeenAs;
    && node == Pipelines.From(config, origin, trace) && Pipelines.Valid(node) && SeenAs(node, raft) && Sane(raft)
    && node.prepareActive == prepareActive && node.prepareFailed == prepareFailed && (prepareActive ==> planner)
  }

  predicate Matched(node: Pipelines.Node, planner: bool, pipelineTerm: nat, pipelineLast: nat, active: seq<Proposal>) {
    hide SamePlaces;
    && node.planner.Some? == planner && node.pipelineTerm == pipelineTerm && node.pipelineLast == pipelineLast
    && SamePlaces(node.active, active)
  }

  /** The outcomes of a prepared group are those that preparing it came to. */
  predicate Tells(outcomes: seq<Preparation>, prepared: seq<Pipelines.Prepared>) {
    && |outcomes| == |prepared|
    && forall i | 0 <= i < |outcomes| :: !outcomes[i].Unready? ==> (outcomes[i].Staged? <==> prepared[i].Staged?)
  }

  /** Raft moves on to some entries and applies some of them. */
  ghost function Moved(config: Settings.Config, n: Pipelines.Node, after: Raft, entries: seq<Pipelines.Entry>)
    : Pipelines.Node
  {
    hide Pipelines.Next;
    Pipelines.Next(config, Pipelines.Next(config, n, Pipelines.Motion(after.term, after.leader, entries)),
                   Pipelines.Apply(after.applied))
  }

  /** The positions of the proposals that a sweep answers. */
  function FoundAt(active: seq<Proposal>, lookups: seq<Lookup>, applied: nat): set<nat>
    requires |lookups| == |active|
  {
    set i | 0 <= i < |active| && Due(active[i], applied) && lookups[i].Complete? :: active[i].expected
  }

  lemma {:induction false} MovedFrame(config: Settings.Config, n: Pipelines.Node, after: Raft,
                                      entries: seq<Pipelines.Entry>)
    ensures var m := Moved(config, n, after, entries);
            m == n.(term := m.term, leader := m.leader, led := m.led, log := m.log, applied := m.applied,
                    durable := m.durable)
  {
    hide Pipelines.Gives, Pipelines.PreparedNext, Pipelines.Swept, Pipelines.Finished, Pipelines.Moves, Pipelines.Flat;
  }

  lemma {:induction false} OpenStep(config: Settings.Config, n: Pipelines.Node)
    requires hide Pipelines.Next;
             n.leader && n.planner.None? && !n.prepareActive && Pipelines.AppliedTerm(n) == n.term
             && n.applied == |n.log|
    ensures var m := Pipelines.Next(config, n, Pipelines.Open);
            m.planner.Some? && m == n.(planner := m.planner, pipelineTerm := n.term, pipelineLast := |n.log|)
  {
    hide Pipelines.Gives, Pipelines.PreparedNext, Pipelines.Swept, Pipelines.Finished;
  }

  lemma {:induction false} StartStep(config: Settings.Config, n: Pipelines.Node, group: seq<seq<Model.Command>>)
    requires hide Pipelines.Next;
             n.planner.Some? && Pipelines.PipelineValid(n) && !n.prepareActive && group != []
    ensures Pipelines.Next(config, n, Pipelines.Start(group)) == n.(prepareActive := true, waiting := group)
  {
    hide Pipelines.Gives, Pipelines.PreparedNext, Pipelines.Swept, Pipelines.Finished;
  }

  lemma {:induction false} PrepareStep(config: Settings.Config, n: Pipelines.Node, refused: bool)
    requires hide Pipelines.Next;
             n.prepareActive && n.waiting != [] && n.planner.Some?
    ensures var m := Pipelines.Next(config, n, Pipelines.Work(refused));
            && m.planner.Some? && |m.waiting| + |m.prepared| == |n.waiting| + |n.prepared|
            && m == n.(planner := m.planner, waiting := m.waiting, prepared := m.prepared)
  {
    hide Pipelines.Gives, Pipelines.Swept, Pipelines.Finished, Quotas.StageAll, Pipelines.Entries,
         Pipelines.WorkflowsOf, Pipelines.CompactAll;
  }

  lemma {:induction false} FailStep(config: Settings.Config, n: Pipelines.Node)
    ensures Pipelines.Next(config, n, Pipelines.Fail) == Pipelines.Failed(n)
  {
    hide Pipelines.Gives, Pipelines.PreparedNext, Pipelines.Swept, Pipelines.Finished;
  }

  lemma {:induction false} FinishStep(config: Settings.Config, n: Pipelines.Node, accepted: bool)
    requires hide Pipelines.Next;
             n.prepareActive && n.waiting == []
    ensures var m := Pipelines.Next(config, n, Pipelines.Finish(accepted));
            if n.prepareFailed then
              m == Pipelines.Reset(n.(prepareActive := false, prepareFailed := false, prepared := []))
            else if Pipelines.PipelineValid(n) && accepted then m == Pipelines.Finished(n)
            else m == Pipelines.Failed(n.(prepareActive := false, prepared := []))
  {
    hide Pipelines.Gives, Pipelines.PreparedNext, Pipelines.Swept, Pipelines.Finished;
  }

  /** A group that is appended: the log and the list of proposals grow alike. */
  lemma {:induction false} FinishedPlaces(n: Pipelines.Node, outcomes: seq<Preparation>, requests: seq<Request>,
                                          active: seq<Proposal>, staged: seq<Proposal>)
    requires n.applied <= |n.log| && |requests| == |outcomes| && Unready !in outcomes && Tells(outcomes, n.prepared)
    requires SamePlaces(n.active, active) && Numbered(staged, n.pipelineLast)
             && |staged| == |StagedOf(requests, outcomes)|
    ensures var m := Pipelines.Finished(n);
            && SamePlaces(m.active, active + staged) && |m.log| == |n.log| + |staged|
            && m.pipelineLast == n.pipelineLast + |staged| && Pipelines.AppliedTerm(m) == Pipelines.AppliedTerm(n)
  {
    GroupCount(n.term, n.pipelineLast, n.prepared, requests, outcomes);
    hide Pipelines.Appended, Pipelines.Activated, StagedOf;
    var m := Pipelines.Finished(n);
    forall i | 0 <= i < |m.active| ensures m.active[i].expected == (active + staged)[i].expected {
      if i >= |n.active| { assert m.active[i] == Pipelines.Activated(n.pipelineLast, n.prepared)[i - |n.active|]; }
    }
  }

  lemma {:induction false} GroupCount(term: nat, last: nat, prepared: seq<Pipelines.Prepared>, requests: seq<Request>,
                                      outcomes: seq<Preparation>)
    requires |requests| == |outcomes| && Unready !in outcomes && Tells(outcomes, prepared)
    ensures |Pipelines.Appended(term, prepared)| == |StagedOf(requests, outcomes)|
    ensures var group := Pipelines.Activated(last, prepared);
            && |group| == |StagedOf(requests, outcomes)|
            && forall k | 0 <= k < |group| :: group[k].expected == last + k + 1
  {
    if prepared != [] {
      var n := |prepared| - 1;
      GroupCount(term, last, prepared[..n], requests[..n], outcomes[..n]);
      assert outcomes[n] in outcomes;
    }
  }

  lemma {:induction false} FinishedFrame(n: Pipelines.Node)
    ensures var m := Pipelines.Finished(n);
            && m.term == n.term && m.leader == n.leader && m.applied == n.applied && m.planner == n.planner
            && m.pipelineTerm == n.pipelineTerm && !m.prepareActive && m.prepareFailed == n.prepareFailed
  {
  }

  lemma {:induction false} RequestsCount(staged: seq<Proposal>)
    ensures |Requests(staged)| == |staged|
  {
  }

  lemma {:induction false} ProposedNone(raft: Raft)
    ensures Proposed(raft, Requests([])) == raft
  {
    assert raft.log + Owned(Requests([])) == raft.log;
  }

  lemma {:induction false} ValidHolds(n: Pipelines.Node)
    requires hide Pipelines.Valid;
             Pipelines.Valid(n)
    ensures n.prepareActive ==> n.planner.Some?
    ensures n.applied <= |n.log| && (!n.prepareActive ==> n.prepared == [] && n.waiting == [] && !n.prepareFailed)
  {
    hide Pipelines.Coupled, Pipelines.Gives, Pipelines.Sound;
  }

  lemma {:induction false} FailedFields(n: Pipelines.Node, raft: Raft)
    requires SeenAs(n, raft) && (!n.prepareActive ==> !n.prepareFailed)
    ensures var m := Pipelines.Failed(n);
            && SeenAs(m, raft) && m.prepareActive == n.prepareActive == m.prepareFailed && m.active == []
            && m.planner == (if n.prepareActive then n.planner else None) && m.pipelineTerm == 0 == m.pipelineLast
  {
  }

  lemma {:induction false} Apart(a: seq<Request>, canceled: Request -> bool, refused: Request -> bool)
    requires forall r | r in a :: canceled(r)
    ensures Those(a, Unstageable(canceled, refused)) == a && Those(a, Stageable(canceled, refused)) == []
  {
    ThoseAll(a, Unstageable(canceled, refused), Stageable(canceled, refused));
  }

  lemma {:induction false} ApartOne(r: Request, canceled: Request -> bool, refused: Request -> bool)
    requires !canceled(r)
    ensures Those([r], Stageable(canceled, refused)) == if refused(r) then [] else [r]
    ensures Those([r], Unstageable(canceled, refused)) == if refused(r) then [r] else []
  {
    ThoseOne(r, Stageable(canceled, refused));
    ThoseOne(r, Unstageable(canceled, refused));
  }

  lemma {:induction false} NoThose(meets: Request -> bool, fails: Request -> bool)
    ensures Those([], meets) == [] && Those([], fails) == []
  {
  }

  /** The sweep of the machine leaves what the sweep of the loop leaves. */
  lemma {:induction false} KeptSame(a: seq<Pipelines.Active>, active: seq<Proposal>, lookups: seq<Lookup>, applied: nat,
                                    found: set<nat>)
    requires SamePlaces(a, active) && |lookups| == |active|
    requires forall i | 0 <= i < |active| ::
               (Due(active[i], applied) && lookups[i].Complete?) <==> Pipelines.Done(a[i], found, applied)
    ensures SamePlaces(Pipelines.Kept(a, found, applied), Kept(active, lookups, applied))
  {
    if a != [] {
      var n := |a| - 1;
      KeptSame(a[..n], active[..n], lookups[..n], applied, found);
    }
  }

  lemma {:induction false} FoundSame(a: seq<Pipelines.Active>, active: seq<Proposal>, lookups: seq<Lookup>,
                                     log: seq<Option<Request>>, applied: nat)
    requires SamePlaces(a, active) && |lookups| == |active| && Placed(active, log)
    ensures SamePlaces(Pipelines.Kept(a, FoundAt(active, lookups, applied), applied), Kept(active, lookups, applied))
  {
    var found := FoundAt(active, lookups, applied);
    forall i | 0 <= i < |active|
      ensures (Due(active[i], applied) && lookups[i].Complete?) <==> Pipelines.Done(a[i], found, applied)
    {
      if a[i].expected in found {
        var j :| 0 <= j < |active| && Due(active[j], applied) && lookups[j].Complete?
                 && active[j].expected == a[i].expected;
        assert i == j;
      }
    }
    KeptSame(a, active, lookups, applied, found);
  }

  lemma {:induction false} SweepStep(config: Settings.Config, n: Pipelines.Node, found: set<nat>)
    returns (order: seq<Model.Id>)
    requires hide Pipelines.Next;
             n.planner.Some? && Pipelines.PipelineValid(n)
    ensures var m, kept := Pipelines.Next(config, n, Pipelines.Sweep(found, order)),
                Pipelines.Kept(n.active, found, n.applied);
            if !n.prepareActive && kept == [] then
              m == Pipelines.Reset(n.(active := []))
            else
              m.planner.Some? && m == n.(active := kept, planner := m.planner, evictions := m.evictions)
  {
    var kept := Pipelines.Kept(n.active, found, n.applied);
    var evicted := n.evictions + Pipelines.Committed(n.active, found, n.applied) - Pipelines.Busy(kept);
    order := IdOrder.SortedIds(evicted);
    assert (set id | id in order) == evicted by { SortedAll(evicted); }
    hide Pipelines.Gives, Pipelines.PreparedNext, Pipelines.Finished, Pipelines.Kept, Pipelines.Committed,
         Pipelines.Busy, Pipelines.EvictAll, IdOrder.SortedIds;
  }

  lemma {:induction false} SortedAll(ids: set<Model.Id>)
    ensures (set id | id in IdOrder.SortedIds(ids)) == ids
  {
  }

  // ---- lists filtered in order ------------------------------------------------------------------------------

  lemma {:induction false} ThoseJoin(a: seq<Request>, b: seq<Request>, meets: Request -> bool)
    ensures Those(a + b, meets) == Those(a, meets) + Those(b, meets)
  {
    if b == [] {
      assert a + b == a;
    } else {
      ThoseJoin(a, b[..|b| - 1], meets);
      assert (a + b)[..|a + b| - 1] == a + b[..|b| - 1];
    }
  }

  lemma {:induction false} ThoseAll(a: seq<Request>, meets: Request -> bool, fails: Request -> bool)
    requires forall r | r in a :: meets(r) && !fails(r)
    ensures Those(a, meets) == a && Those(a, fails) == []
  {
    if a != [] {
      assert forall r | r in a[..|a| - 1] :: r in a;
      ThoseAll(a[..|a| - 1], meets, fails);
      assert a[|a| - 1] in a && a == a[..|a| - 1] + [a[|a| - 1]];
    }
  }

  lemma {:induction false} ThoseOne(r: Request, meets: Request -> bool)
    ensures Those([r], meets) == if meets(r) then [r] else []
  {
    assert [r][..0] == [];
  }

  // ---- lists and tokens -------------------------------------------------------------------------------------

  lemma {:induction false} TokensJoin(a: seq<Request>, b: seq<Request>)
    ensures Tokens(a + b) == Tokens(a) + Tokens(b)
  {
    if b == [] {
      assert a + b == a;
    } else {
      TokensJoin(a, b[..|b| - 1]);
      assert (a + b)[..|a + b| - 1] == a + b[..|b| - 1];
    }
  }

  lemma {:induction false} TokensOne(r: Request)
    ensures Tokens([r]) == Token(r)
  {
    assert [r][..0] == [];
  }

  lemma {:induction false} TokensHead(a: seq<Request>)
    requires a != []
    ensures Tokens(a) == Token(a[0]) + Tokens(a[1..])
    ensures multiset(a) == multiset{a[0]} + multiset(a[1..])
  {
    assert a == [a[0]] + a[1..];
    TokensJoin([a[0]], a[1..]);
    TokensOne(a[0]);
  }

  lemma {:induction false} RequestsJoin(a: seq<Proposal>, b: seq<Proposal>)
    ensures Requests(a + b) == Requests(a) + Requests(b)
    ensures Tokens(Requests(a + b)) == Tokens(Requests(a)) + Tokens(Requests(b))
  {
    TokensJoin(Requests(a), Requests(b));
    assert Requests(a + b) == Requests(a) + Requests(b);
  }

  lemma {:induction false} RequestsOne(p: Proposal)
    ensures Requests([p]) == [p.request] && Tokens(Requests([p])) == Token(p.request)
  {
    TokensOne(p.request);
  }

  // ---- each move keeps the balance --------------------------------------------------------------------------

  lemma {:induction false} Arrives(q: seq<Request>, p: seq<Request>, a: seq<Proposal>, ans: seq<Request>,
                                   arr: multiset<Request>, n: nat, r: Request)
    requires Balanced(q, p, a, ans, arr, n)
    ensures Balanced(q + [r], p, a, ans, arr + multiset{r}, n + Token(r))
  {
    hide Tokens, Requests, Token;
    TokensJoin(q, [r]);
    TokensOne(r);
  }

  lemma {:induction false} Rejects(q: seq<Request>, p: seq<Request>, a: seq<Proposal>, ans: seq<Request>,
                                   arr: multiset<Request>, n: nat, r: Request)
    requires Balanced(q, p, a, ans, arr, n)
    ensures Balanced(q, p, a, ans + [r], arr + multiset{r}, n)
  {
    hide Tokens, Requests, Token;
  }

  lemma {:induction false} AnswersQueued(q: seq<Request>, p: seq<Request>, a: seq<Proposal>, ans: seq<Request>,
                                         arr: multiset<Request>, n: nat)
    requires q != [] && Balanced(q, p, a, ans, arr, n)
    ensures Token(q[0]) <= n && Balanced(q[1..], p, a, ans + [q[0]], arr, n - Token(q[0]))
  {
    hide Tokens, Requests, Token;
    TokensHead(q);
  }

  lemma {:induction false} Prepares(q: seq<Request>, p: seq<Request>, a: seq<Proposal>, ans: seq<Request>,
                                    arr: multiset<Request>, n: nat)
    requires q != [] && Balanced(q, p, a, ans, arr, n)
    ensures Balanced(q[1..], p + [q[0]], a, ans, arr, n)
  {
    hide Tokens, Requests, Token;
    TokensHead(q);
    TokensJoin(p, [q[0]]);
    TokensOne(q[0]);
  }

  lemma {:induction false} AnswersPrepared(q: seq<Request>, p: seq<Request>, a: seq<Proposal>, ans: seq<Request>,
                                           arr: multiset<Request>, n: nat)
    requires p != [] && Balanced(q, p, a, ans, arr, n)
    ensures Token(p[0]) <= n && Balanced(q, p[1..], a, ans + [p[0]], arr, n - Token(p[0]))
  {
    hide Tokens, Requests, Token;
    TokensHead(p);
  }

  lemma {:induction false} Activates(q: seq<Request>, p: seq<Request>, a: seq<Proposal>, ans: seq<Request>,
                                     arr: multiset<Request>, n: nat, e: nat, c: nat)
    requires p != [] && Balanced(q, p, a, ans, arr, n)
    ensures Balanced(q, p[1..], a + [Proposal(p[0], e, c)], ans, arr, n)
  {
    hide Tokens, Requests, Token;
    TokensHead(p);
    RequestsJoin(a, [Proposal(p[0], e, c)]);
    RequestsOne(Proposal(p[0], e, c));
  }

  lemma {:induction false} Requeues(q: seq<Request>, p: seq<Request>, a: seq<Proposal>, ans: seq<Request>,
                                    arr: multiset<Request>, n: nat)
    requires Balanced(q, p, a, ans, arr, n)
    ensures Balanced(p + q, [], a, ans, arr, n)
  {
    hide Requests, Token;
    TokensJoin(p, q);
  }

  lemma {:induction false} AnswersActive(q: seq<Request>, p: seq<Request>, u: seq<Proposal>, x: Proposal,
                                         v: seq<Proposal>, ans: seq<Request>,
                      arr: multiset<Request>, n: nat)
    requires Balanced(q, p, u + ([x] + v), ans, arr, n)
    ensures Token(x.request) <= n && Balanced(q, p, u + v, ans + [x.request], arr, n - Token(x.request))
  {
    hide Tokens, Requests, Token;
    RequestsJoin(u, [x] + v);
    RequestsJoin([x], v);
    RequestsOne(x);
    RequestsJoin(u, v);
  }

  lemma {:induction false} Rechecks(q: seq<Request>, p: seq<Request>, u: seq<Proposal>, x: Proposal, v: seq<Proposal>,
                                    ans: seq<Request>,
                 arr: multiset<Request>, n: nat, y: Proposal)
    requires Balanced(q, p, u + ([x] + v), ans, arr, n) && y.request == x.request
    ensures Balanced(q, p, u + [y] + v, ans, arr, n)
  {
    assert Requests(u + [y] + v) == Requests(u + ([x] + v));
  }

  /** Everything in flight answered at once. */
  lemma {:induction false} AnswersFlight(q: seq<Request>, p: seq<Request>, a: seq<Proposal>, ans: seq<Request>,
                                         arr: multiset<Request>, n: nat)
    requires Balanced(q, p, a, ans, arr, n)
    ensures Tokens(Requests(a)) + Tokens(p) <= n
    ensures Balanced(q, [], [], ans + Requests(a) + p, arr, n - Tokens(Requests(a)) - Tokens(p))
  {
    assert Requests([]) == [];
    assert Tokens([]) == 0;
  }

  lemma {:induction false} AnswersQueue(q: seq<Request>, ans: seq<Request>, arr: multiset<Request>, n: nat)
    requires Balanced(q, [], [], ans, arr, n)
    ensures Tokens(q) == n && Balanced([], [], [], ans + q, arr, 0)
  {
    assert Requests([]) == [];
    assert Tokens([]) == 0;
  }

  // ---- positions --------------------------------------------------------------------------------------------

  lemma {:induction false} PlacedWithout(u: seq<Proposal>, x: Proposal, v: seq<Proposal>, log: seq<Option<Request>>)
    requires Placed(u + ([x] + v), log)
    ensures Placed(u + v, log)
    ensures 1 <= x.expected <= |log| && log[x.expected - 1] == Some(x.request)
  {
    var a, b := u + ([x] + v), u + v;
    assert a[|u|] == x;
    forall i | 0 <= i < |b|
      ensures b[i] == a[if i < |u| then i else i + 1]
    {
    }
  }

  lemma {:induction false} PlacedRechecked(u: seq<Proposal>, x: Proposal, v: seq<Proposal>, y: Proposal,
                                           log: seq<Option<Request>>)
    requires Placed(u + ([x] + v), log) && y.request == x.request && y.expected == x.expected
    ensures Placed(u + [y] + v, log)
  {
    var a, b := u + ([x] + v), u + [y] + v;
    forall i | 0 <= i < |b|
      ensures b[i].expected == a[i].expected && b[i].request == a[i].request
    {
    }
  }

  lemma {:induction false} PlacedLonger(active: seq<Proposal>, log: seq<Option<Request>>, longer: seq<Option<Request>>)
    requires Placed(active, log) && log <= longer
    ensures Placed(active, longer)
  {
  }

  /** The proposals of a group, expected one after the other past the end of the log, are where they are expected
      once Raft has appended the group. */
  lemma {:induction false} PlacedGroup(active: seq<Proposal>, group: seq<Proposal>, log: seq<Option<Request>>)
    requires Placed(active, log)
    requires Numbered(group, |log|)
    ensures Placed(active + group, log + Owned(Requests(group)))
  {
    var all, longer := active + group, log + Owned(Requests(group));
    forall i | 0 <= i < |all|
      ensures 1 <= all[i].expected <= |longer| && longer[all[i].expected - 1] == Some(all[i].request)
    {
      if i >= |active| {
        assert all[i] == group[i - |active|];
      }
    }
  }

  // ---- one step of a sweep ----------------------------------------------------------------------------------

  lemma {:induction false} SweptWaiting(all: seq<Proposal>, lookups: seq<Lookup>, i: nat, log: seq<Option<Request>>,
                                        applied: nat,
                     remaining: seq<Proposal>, finished: seq<Proposal>)
    requires Swept(all, lookups, i, log, applied, remaining, finished) && i < |all| && !Due(all[i], applied)
    ensures Swept(all, lookups, i + 1, log, applied, remaining + [all[i]], finished)
    ensures remaining + all[i..] == remaining + [all[i]] + all[i + 1..]
  {
    hide Placed, Landed;
    assert all[..i + 1][..i] == all[..i] && lookups[..i + 1][..i] == lookups[..i];
    assert remaining + all[i..] == remaining + [all[i]] + all[i + 1..];
  }

  lemma {:induction false} SweptUnfinished(all: seq<Proposal>, lookups: seq<Lookup>, i: nat,
                                           log: seq<Option<Request>>, applied: nat,
                        remaining: seq<Proposal>, finished: seq<Proposal>)
    requires Swept(all, lookups, i, log, applied, remaining, finished) && i < |all| && Due(all[i], applied)
             && lookups[i].NotYet?
    ensures Swept(all, lookups, i + 1, log, applied, remaining + [all[i].(checked := applied)], finished)
  {
    hide Placed, Landed;
    assert all[..i + 1][..i] == all[..i] && lookups[..i + 1][..i] == lookups[..i];
    assert all[i..] == [all[i]] + all[i + 1..];
    PlacedRechecked(remaining, all[i], all[i + 1..], all[i].(checked := applied), log);
  }

  lemma {:induction false} SweptFinished(all: seq<Proposal>, lookups: seq<Lookup>, i: nat, log: seq<Option<Request>>,
                                         applied: nat,
                      remaining: seq<Proposal>, finished: seq<Proposal>)
    requires Swept(all, lookups, i, log, applied, remaining, finished) && i < |all| && Due(all[i], applied)
    ensures Placed(remaining + all[i + 1..], log)
    ensures lookups[i].Complete? ==> Swept(all, lookups, i + 1, log, applied, remaining, finished + [all[i]])
    ensures lookups[i].Failed? ==> !Sound(all, lookups, applied)
  {
    hide Placed;
    assert all[..i + 1][..i] == all[..i] && lookups[..i + 1][..i] == lookups[..i];
    assert all[i..] == [all[i]] + all[i + 1..];
    PlacedWithout(remaining, all[i], all[i + 1..], log);
    assert Landed(all[i], log, applied);
  }

  lemma {:induction false} SweptAll(all: seq<Proposal>, lookups: seq<Lookup>, log: seq<Option<Request>>, applied: nat,
                 remaining: seq<Proposal>, finished: seq<Proposal>)
    requires Swept(all, lookups, |all|, log, applied, remaining, finished)
    ensures remaining == Kept(all, lookups, applied) && finished == Finished(all, lookups, applied)
    ensures Sound(all, lookups, applied) && Placed(remaining, log) && remaining + all[|all|..] == remaining
    ensures forall p | p in finished :: Landed(p, log, applied)
  {
    assert all[..|all|] == all && lookups[..|all|] == lookups && remaining + all[|all|..] == remaining;
  }

  // ---- the loop ---------------------------------------------------------------------------------------------

  class Runtime {
    const capacity: nat
    const config: Settings.Config
    const commands: Request -> seq<Model.Command>
    var inbox: seq<Request>
    var queue: seq<Request>
    var preparing: seq<Request>
    var active: seq<Proposal>
    var prepareActive: bool
    var prepareFailed: bool
    var planner: bool
    var pipelineTerm: nat
    var pipelineLast: nat
    var pending: nat
    var raft: Raft
    ghost var answered: seq<Request>
    ghost var arrived: multiset<Request>
    ghost const origin: Pipelines.Node
    ghost var trace: seq<Pipelines.Step>
    ghost var node: Pipelines.Node

    constructor (capacity: nat, config: Settings.Config, commands: Request -> seq<Model.Command>, raft: Raft,
                 ghost origin: Pipelines.Node)
      requires hide Pipelines.Valid;
               Pipelines.Valid(origin) && SeenAs(origin, raft) && Sane(raft)
      requires origin.planner.None? && origin.pipelineTerm == 0 && origin.pipelineLast == 0 && origin.active == []
               && !origin.prepareActive
      ensures Valid() && this.capacity == capacity && this.raft == raft && arrived == multiset{} && answered == []
      ensures node == origin && trace == []
    {
      hide Pipelines.Next, Pipelines.Valid, SeenAs;
      this.capacity, this.config, this.commands := capacity, config, commands;
      inbox, queue, preparing, active := [], [], [], [];
      prepareActive, prepareFailed, planner := false, false, false;
      pipelineTerm, pipelineLast, pending := 0, 0, 0;
      this.raft := raft;
      answered, arrived := [], multiset{};
      this.origin, trace, node := origin, [], origin;
      new;
      ValidHolds(origin);
    }

    ghost predicate InBalance()
      reads this
    {
      && Balanced(queue, preparing, active, answered, arrived, pending)
      && pending <= capacity
      && forall r | r in inbox :: !r.bounded
    }

    ghost predicate Flagged()
      reads this
    {
      && |active| + |preparing| <= WINDOW
      && (!prepareActive ==> preparing == [] && !prepareFailed)
      && (prepareFailed ==> preparing == [] && active == [])
      && (active != [] || (prepareActive && !prepareFailed) ==> planner)
      && pipelineTerm <= raft.led && Sane(raft)
    }

    /** While this node leads in the pipeline's term, active proposals are where they are expected. */
    ghost predicate InPlace()
      reads this
    {
      raft.leader && raft.term == pipelineTerm ==> Placed(active, raft.log)
    }

    ghost predicate Ordered()
      reads this
    {
      InBalance() && Flagged() && InPlace()
    }

    /** The machine has got where it is by its own steps, and sees the same log. */
    ghost predicate Linked()
      reads this
    {
      hide Tied;
      Tied(config, origin, trace, node, raft, prepareActive, prepareFailed, planner)
    }

    /** And its pipeline is that of the loop. */
    ghost predicate Agreed()
      reads this
    {
      hide Matched, Linked;
      Linked() && Matched(node, planner, pipelineTerm, pipelineLast, active)
      && (prepareActive && !prepareFailed ==> |node.waiting| + |node.prepared| == |preparing|)
    }

    ghost predicate Valid()
      reads this
    {
      hide Ordered, Agreed;
      Ordered() && Agreed()
    }

    /** pipelineValid */
    predicate PipelineValid()
      reads this
    {
      raft.leader && raft.term == pipelineTerm && |raft.log| == pipelineLast
    }

    /** While the pipeline is valid its planner decides every proposal as the engine of the log. */
    lemma {:induction false} PlansExactly(proposal: seq<Model.Command>)
      requires hide Linked;
               Valid() && planner && PipelineValid()
      ensures Pipelines.Exact(config, node, proposal)
    {
      hide Balanced, Placed, SamePlaces, Pipelines.Valid, Pipelines.Exact, Pipelines.From;
      Pipelines.ValidExact(config, node, proposal);
    }

    /** The machine takes a step. */
    ghost method Take(step: Pipelines.Step)
      requires hide Pipelines.From, Pipelines.Valid, Pipelines.Next;
               node == Pipelines.From(config, origin, trace) && Pipelines.Valid(node)
      modifies this`trace, this`node
      ensures trace == old(trace) + [step] && node == Pipelines.Next(config, old(node), step)
      ensures node == Pipelines.From(config, origin, trace) && Pipelines.Valid(node)
    {
      hide Pipelines.Next, Pipelines.Valid;
      Pipelines.StepKeeps(config, node, step);
      trace, node := trace + [step], Pipelines.Next(config, node, step);
      assert trace[..|trace| - 1] == old(trace);
    }

    /** Raft moves on between two looks of the loop. */
    method Observe(after: Raft, ghost entries: seq<Pipelines.Entry>)
      requires hide Linked, SeenAs, Moved;
               Valid() && Evolves(raft, after) && SeenAs(Moved(config, node, after, entries), after)
      modifies this`raft, this`trace, this`node
      ensures Valid() && raft == after && node == Moved(config, old(node), after, entries) && old(trace) <= trace
    {
      hide Balanced, SeenAs, SamePlaces, Pipelines.Next, Pipelines.Valid, Pipelines.From;
      if after.leader && after.term == pipelineTerm {
        PlacedLonger(active, raft.log, after.log);
      }
      hide Placed;
      MovedFrame(config, node, after, entries);
      Take(Pipelines.Motion(after.term, after.leader, entries));
      Take(Pipelines.Apply(after.applied));
      raft := after;
    }

    /** The goroutine of the loop prepares the next proposal of its group. */
    method Work(refused: bool)
      requires hide Linked, Pipelines.Next;
               Valid() && prepareActive && node.waiting != []
      modifies this`trace, this`node
      ensures Valid() && node == Pipelines.Next(config, old(node), Pipelines.Work(refused)) && old(trace) <= trace
    {
      hide Balanced, Placed, SamePlaces, Pipelines.Next, Pipelines.From, Pipelines.Coupled, Pipelines.Gives,
           Pipelines.Sound;
      PrepareStep(config, node, refused);
      Take(Pipelines.Work(refused));
    }

    /** A request is offered on the channel the loop takes unbounded requests from. */
    method Offer(id: nat)
      requires Ordered()
      modifies this`inbox
      ensures Ordered() && inbox == old(inbox) + [Request(id, false)]
    {
      inbox := inbox + [Request(id, false)];
    }

    /** enqueueProposal, for a request that has taken its token if it is bounded. */
    method Enqueue(request: Request)
      requires Ordered() && pending + Token(request) <= capacity
      modifies this`queue, this`arrived, this`pending
      ensures Ordered() && queue == old(queue) + [request] && arrived == old(arrived) + multiset{request}
      ensures pending == old(pending) + Token(request)
    {
      hide Balanced, Placed;
      Arrives(queue, preparing, active, answered, arrived, pending, request);
      queue, arrived, pending := queue + [request], arrived + multiset{request}, pending + Token(request);
    }

    /** The loop takes a request from the channel. */
    method Arrive()
      requires Ordered() && inbox != []
      modifies this`inbox, this`queue, this`arrived, this`pending
      ensures Ordered() && old(arrived) <= arrived && inbox == old(inbox)[1..] && queue == old(queue) + [old(inbox)[0]]
    {
      hide Balanced, Placed;
      var request := inbox[0];
      inbox := inbox[1..];
      Enqueue(request);
    }

    /** One turn of admitProposals. */
    method Admit(id: nat, canceled: bool) returns (admitted: bool)
      requires Ordered()
      modifies this`queue, this`arrived, this`pending, this`answered
      ensures Ordered()
      ensures admitted <==> !canceled && raft.leader && old(pending) < capacity
      ensures admitted ==>
                pending == old(pending) + 1 && queue == old(queue) + [Request(id, true)] && answered == old(answered)
      ensures !admitted ==>
                pending == old(pending) && queue == old(queue) && answered == old(answered) + [Request(id, false)]
      ensures arrived == old(arrived) + multiset{Request(id, admitted)}
    {
      hide Balanced, Placed;
      if canceled || !raft.leader || pending >= capacity {
        Rejects(queue, preparing, active, answered, arrived, pending, Request(id, false));
        arrived, answered := arrived + multiset{Request(id, false)}, answered + [Request(id, false)];
        return false;
      }
      Enqueue(Request(id, true));
      return true;
    }

    /** admitProposals: up to sixteen of the requests on offer, until the tokens are taken. */
    method AdmitAll(offers: seq<Offer>) returns (taken: nat)
      requires Ordered() && offers != []
      modifies this`queue, this`arrived, this`pending, this`answered
      ensures Ordered() && old(answered) <= answered && old(arrived) <= arrived && old(queue) <= queue
      ensures 0 < taken <= |offers| && taken <= READY_BATCH
      ensures taken < |offers| && taken < READY_BATCH ==> raft.leader && pending == capacity
      ensures |queue| + |answered| == |old(queue)| + |old(answered)| + taken
      ensures !raft.leader ==> queue == old(queue)
    {
      hide Balanced, Placed;
      taken := 0;
      while taken < |offers| && taken < READY_BATCH
        invariant taken <= |offers| && taken <= READY_BATCH && Ordered()
        invariant old(answered) <= answered && old(arrived) <= arrived && old(queue) <= queue
        invariant |queue| + |answered| == |old(queue)| + |old(answered)| + taken
        invariant !raft.leader ==> queue == old(queue)
      {
        var _ := Admit(offers[taken].id, offers[taken].canceled);
        taken := taken + 1;
        if raft.leader && pending == capacity { return; }
      }
    }

    /** collectProposals */
    method Collect()
      requires Ordered()
      modifies this`inbox, this`queue, this`arrived
      ensures Ordered() && old(arrived) <= arrived && |inbox| + |queue| == |old(inbox)| + |old(queue)|
      ensures inbox == [] || |queue| + |active| + |preparing| >= WINDOW
      ensures queue + inbox == old(queue) + old(inbox)
    {
      hide Balanced, Placed;
      while |queue| + |active| + |preparing| < WINDOW && inbox != []
        invariant Ordered() && old(arrived) <= arrived && |inbox| + |queue| == |old(inbox)| + |old(queue)|
        invariant queue + inbox == old(queue) + old(inbox)
        decreases |inbox|
      {
        var request := inbox[0];
        assert queue + inbox == queue + [request] + inbox[1..];
        Arrives(queue, preparing, active, answered, arrived, pending, request);
        inbox, queue, arrived := inbox[1..], queue + [request], arrived + multiset{request};
      }
    }

    /** respond, for the oldest queued request. */
    method RespondQueued()
      requires Ordered() && queue != []
      modifies this`queue, this`answered, this`pending
      ensures Ordered() && queue == old(queue)[1..] && answered == old(answered) + [old(queue)[0]]
      ensures pending == old(pending) - Token(old(queue)[0])
    {
      hide Balanced, Placed;
      AnswersQueued(queue, preparing, active, answered, arrived, pending);
      queue, answered, pending := queue[1..], answered + [queue[0]], pending - Token(queue[0]);
    }

    /** dropCanceledProposals: requests at the head of the queue whose caller has gone are answered. */
    method DropCanceled(canceled: Request -> bool) returns (ghost k: nat)
      requires Ordered()
      modifies this`queue, this`answered, this`pending
      ensures Ordered() && old(answered) <= answered && |queue| <= |old(queue)|
      ensures queue != [] ==> !canceled(queue[0])
      ensures k <= |old(queue)| && queue == old(queue)[k..] && answered == old(answered) + old(queue)[..k]
      ensures forall r | r in old(queue)[..k] :: canceled(r)
    {
      hide Balanced, Placed;
      k := 0;
      while queue != [] && canceled(queue[0])
        invariant Ordered() && old(answered) <= answered && |queue| <= |old(queue)|
        invariant k <= |old(queue)| && queue == old(queue)[k..] && answered == old(answered) + old(queue)[..k]
        invariant forall r | r in old(queue)[..k] :: canceled(r)
        decreases |queue|
      {
        assert old(queue)[..k + 1] == old(queue)[..k] + [queue[0]];
        RespondQueued();
        k := k + 1;
      }
    }

    /** respond, for each request of a list its caller has taken out of its place. */
    method RespondAll(requests: seq<Request>)
      requires Tokens(requests) <= pending
      modifies this`answered, this`pending
      ensures answered == old(answered) + requests && pending == old(pending) - Tokens(requests)
    {
      for i := 0 to |requests|
        invariant answered == old(answered) + requests[..i] && pending + Tokens(requests[..i]) == old(pending)
      {
        assert requests[..i + 1][..i] == requests[..i];
        TokensJoin(requests[..i + 1], requests[i + 1..]);
        assert requests[..i + 1] + requests[i + 1..] == requests;
        answered, pending := answered + [requests[i]], pending - Token(requests[i]);
      }
      assert requests[..|requests|] == requests;
    }

    /** Answer the active proposals, then the requests being prepared. */
    method RespondFlight()
      requires InBalance()
      modifies this`active, this`preparing, this`answered, this`pending
      ensures InBalance() && active == [] && preparing == []
      ensures answered == old(answered) + Requests(old(active)) + old(preparing)
    {
      hide Balanced, Tokens, Requests, Placed;
      ghost var was, inFlight := answered, Requests(active);
      AnswersFlight(queue, preparing, active, answered, arrived, pending);
      RespondAll(Requests(active));
      RespondAll(preparing);
      assert answered == was + inFlight + preparing;
      active, preparing := [], [];
    }

    /** The machine fails its pipeline. */
    ghost method FailNode()
      requires hide Linked, Tied, Matched, Pipelines.Failed;
               Linked()
      modifies this`trace, this`node
      ensures Tied(config, origin, trace, node, raft, prepareActive, prepareActive, prepareActive)
              && Matched(node, prepareActive, 0, 0, []) && old(trace) <= trace && node == Pipelines.Failed(old(node))
    {
      hide SeenAs, Pipelines.Next, Pipelines.From, Pipelines.Valid, Pipelines.Failed;
      ValidHolds(node);
      FailStep(config, node);
      FailedFields(node, raft);
      Take(Pipelines.Fail);
    }

    /** failPipeline answers everything in flight; a preparation under way is left to finish into nothing. */
    method FailPipeline()
      requires hide Linked;
               InBalance() && (prepareFailed ==> prepareActive) && Linked()
      modifies this`active, this`preparing, this`prepareFailed, this`planner, this`pipelineTerm, this`pipelineLast,
               this`answered, this`pending, this`trace, this`node
      ensures Valid() && active == [] && preparing == [] && old(trace) <= trace
      ensures answered == old(answered) + Requests(old(active)) + old(preparing)
      ensures prepareFailed == prepareActive == planner
      ensures node == Pipelines.Failed(old(node))
    {
      hide Balanced, Tokens, Requests, Placed, Tied, Matched, Pipelines.Failed;
      LinkedHolds();
      FailNode();
      RespondFlight();
      pipelineTerm, pipelineLast := 0, 0;
      if prepareActive {
        prepareFailed := true;
      } else {
        planner := false;
      }
      NonePlaced(raft.log);
    }

    lemma {:induction false} LinkedHolds()
      requires hide Linked;
               Linked()
      ensures Sane(raft) && (prepareActive ==> planner)
    {
      hide SeenAs, Pipelines.From, Pipelines.Valid;
    }

    /** Answer the whole queue, nothing being in flight. */
    method RespondQueue()
      requires InBalance() && active == [] && preparing == []
      modifies this`queue, this`answered, this`pending
      ensures InBalance() && queue == [] && pending == 0 && answered == old(answered) + old(queue)
    {
      hide Balanced, Tokens, Requests, Placed;
      AnswersQueue(queue, answered, arrived, pending);
      RespondAll(queue);
      queue := [];
    }

    /** failPending, when the loop ends: everything is answered, and what is still on the channel. */
    method FailPending()
      requires Ordered()
      modifies this`active, this`preparing, this`queue, this`inbox, this`prepareFailed, this`planner, this`pipelineTerm,
        this`pipelineLast, this`answered, this`arrived, this`pending
      ensures Ordered() && queue == [] && preparing == [] && active == [] && inbox == [] && pending == 0
      ensures multiset(answered) == arrived
      ensures answered == old(answered) + Requests(old(active)) + old(preparing) + old(queue) + old(inbox)
    {
      hide Balanced, Tokens, Requests, Placed;
      ghost var inFlight := answered + Requests(active) + preparing;
      RespondFlight();
      assert answered == inFlight;
      prepareFailed := prepareActive;
      planner, pipelineTerm, pipelineLast := false, 0, 0;
      ghost var queued := inFlight + queue;
      RespondQueue();
      assert answered == queued;
      NonePlaced(raft.log);
      Drain();
      AllAnswered(answered, arrived);
    }

    /** drainProposals */
    method Drain()
      requires Ordered()
      modifies this`inbox, this`answered, this`arrived
      ensures Ordered() && inbox == [] && answered == old(answered) + old(inbox)
    {
      hide Balanced, Placed;
      while inbox != []
        invariant Ordered() && answered + inbox == old(answered) + old(inbox)
        decreases |inbox|
      {
        assert answered + inbox == answered + [inbox[0]] + inbox[1..];
        Rejects(queue, preparing, active, answered, arrived, pending, inbox[0]);
        inbox, answered, arrived := inbox[1..], answered + [inbox[0]], arrived + multiset{inbox[0]};
      }
    }

    /** The sweep of checkProposal over the active list, filtering it in place. */
    method Sweep(lookups: seq<Lookup>) returns (finished: seq<Proposal>, failed: bool)
      requires Ordered() && PipelineValid() && |lookups| == |active|
      modifies this`active, this`answered, this`pending
      ensures InBalance() && |active| <= |old(active)| && old(answered) <= answered
      ensures failed <==> !Sound(old(active), lookups, raft.applied)
      ensures forall p | p in finished :: Landed(p, raft.log, raft.applied)
      ensures !failed ==>
        && Placed(active, raft.log)
        && active == Kept(old(active), lookups, raft.applied)
        && finished == Finished(old(active), lookups, raft.applied)
        && answered == old(answered) + Requests(finished)
    {
      hide Balanced, Placed, Token, Swept, Kept, Finished, Sound, Landed, Due, Requests;
      var remaining: seq<Proposal> := [];
      finished, failed := [], false;
      var i, all := 0, active;
      SweptNone(all, lookups, raft.log, raft.applied);
      while i < |all|
        invariant 0 <= i <= |all| && all == active == old(active)
        invariant Swept(all, lookups, i, raft.log, raft.applied, remaining, finished)
        invariant Balanced(queue, preparing, remaining + all[i..], answered, arrived, pending) && pending <= capacity
        invariant answered == old(answered) + Requests(finished)
      {
        if !Due(all[i], raft.applied) {
          SweptWaiting(all, lookups, i, raft.log, raft.applied, remaining, finished);
          remaining := remaining + [all[i]];
        } else if lookups[i].NotYet? {
          SweptUnfinished(all, lookups, i, raft.log, raft.applied, remaining, finished);
          assert all[i..] == [all[i]] + all[i + 1..];
          Rechecks(queue, preparing, remaining, all[i], all[i + 1..], answered, arrived, pending,
              all[i].(checked := raft.applied));
          remaining := remaining + [all[i].(checked := raft.applied)];
        } else {
          SweptFinished(all, lookups, i, raft.log, raft.applied, remaining, finished);
          assert all[i..] == [all[i]] + all[i + 1..];
          AnswersActive(queue, preparing, remaining, all[i], all[i + 1..], answered, arrived, pending);
          RequestsJoin(finished, [all[i]]);
          RequestsOne(all[i]);
          answered, pending := answered + [all[i].request], pending - Token(all[i].request);
          if lookups[i].Failed? {
            failed, active := true, remaining + all[i + 1..];
            SweptSizes(all, lookups, i, raft.log, raft.applied, remaining, finished);
            return;
          }
          finished := finished + [all[i]];
        }
        i := i + 1;
      }
      SweptAll(all, lookups, raft.log, raft.applied, remaining, finished);
      SweptSizes(all, lookups, i, raft.log, raft.applied, remaining, finished);
      active := remaining;
    }

    /** resetPipeline */
    method ResetPipeline()
      requires hide Linked;
               Ordered() && active == [] && !prepareActive && Linked()
      modifies this`planner, this`pipelineTerm, this`pipelineLast, this`trace, this`node
      ensures Valid() && !planner && pipelineTerm == 0 && pipelineLast == 0 && old(trace) <= trace
    {
      hide Balanced, Placed, Tied, Matched, Pipelines.Failed;
      FailNode();
      planner, pipelineTerm, pipelineLast := false, 0, 0;
      NonePlaced(raft.log);
    }

    /** What a sweep did to the list, the machine does to its own, and evicts what it may. */
    ghost method SweepNode(was: seq<Proposal>, lookups: seq<Lookup>)
      requires hide Linked;
               Linked() && planner && |lookups| == |was| && PipelineValid() && Placed(was, raft.log)
               && SamePlaces(node.active, was) && node.planner.Some?
      requires node.pipelineTerm == pipelineTerm && node.pipelineLast == pipelineLast
      modifies this`trace, this`node
      ensures Linked() && old(trace) <= trace
      ensures node.waiting == old(node.waiting) && node.prepared == old(node.prepared)
      ensures SamePlaces(node.active, Kept(was, lookups, raft.applied))
      ensures if !prepareActive && Kept(was, lookups, raft.applied) == [] then node.planner.None?
              else node.planner.Some? && node.pipelineTerm == pipelineTerm && node.pipelineLast == pipelineLast
    {
      hide Placed, Kept, Pipelines.Next, Pipelines.From, Pipelines.Valid, Pipelines.Kept, FoundAt;
      var found := FoundAt(was, lookups, raft.applied);
      FoundSame(node.active, was, lookups, raft.log, raft.applied);
      var order := SweepStep(config, node, found);
      Take(Pipelines.Sweep(found, order));
    }

    /** checkProposal. A proposal answered with its results is one whose own entry has been applied where it was
        expected. */
    method CheckProposal(lookups: seq<Lookup>) returns (finished: seq<Proposal>)
      requires hide Linked;
               Valid() && |lookups| == |active|
      modifies this`active, this`preparing, this`prepareFailed, this`planner, this`pipelineTerm, this`pipelineLast,
               this`answered, this`pending, this`trace, this`node
      ensures Valid() && old(answered) <= answered && old(trace) <= trace
      ensures forall p | p in finished :: Landed(p, raft.log, raft.applied)
      ensures old(PipelineValid()) && Sound(old(active), lookups, raft.applied) ==>
        && active == Kept(old(active), lookups, raft.applied)
        && finished == Finished(old(active), lookups, raft.applied)
        && answered == old(answered) + Requests(finished)
      ensures old(active) != [] && !(old(PipelineValid()) && Sound(old(active), lookups, raft.applied)) ==>
        active == [] && preparing == []
    {
      hide Balanced, Placed, Kept, Finished, Landed, Due, Requests, Tied, SamePlaces;
      finished := [];
      if active == [] {
        NoneSwept(raft.applied);
        if prepareActive && !prepareFailed && !PipelineValid() {
          FailPipeline();
        }
        return;
      }
      if !PipelineValid() {
        FailPipeline();
        return;
      }
      ghost var was := active;
      var failed;
      finished, failed := Sweep(lookups);
      if failed {
        FailPipeline();
        return;
      }
      SweepNode(was, lookups);
      if active == [] && !prepareActive {
        ResetPipeline();
      }
    }

    method PrepareHead()
      requires Ordered() && queue != [] && prepareActive && !prepareFailed && |active| + |preparing| < WINDOW
      modifies this`queue, this`preparing
      ensures Ordered() && queue == old(queue)[1..] && preparing == old(preparing) + [old(queue)[0]]
    {
      hide Balanced, Placed;
      Prepares(queue, preparing, active, answered, arrived, pending);
      queue, preparing := queue[1..], preparing + [queue[0]];
    }

    /** One turn of the loop of startPreparation: what was queued first and then is on the channel, in that order, is
        answered while its caller has gone; the next is taken up, unless it may not be staged, and then it is
        answered. */
    method TakeUp(canceled: Request -> bool, refused: Request -> bool) returns (more: bool, ghost k: nat)
      requires Ordered() && prepareActive && !prepareFailed && |active| + |preparing| < WINDOW
      modifies this`inbox, this`queue, this`preparing, this`answered, this`arrived, this`pending
      ensures Ordered() && old(arrived) <= arrived && |preparing| <= |old(preparing)| + 1
      ensures if more then 0 < k else queue == []
      ensures k <= |old(queue) + old(inbox)| && queue + inbox == (old(queue) + old(inbox))[k..]
      ensures preparing == old(preparing)
                           + Those((old(queue) + old(inbox))[..k], Stageable(canceled, refused))
      ensures answered == old(answered) + Those((old(queue) + old(inbox))[..k], Unstageable(canceled, refused))
    {
      hide Ordered, Those, Stageable, Unstageable;
      ghost var good, bad := Stageable(canceled, refused), Unstageable(canceled, refused);
      ghost var all := queue + inbox;
      Collect();
      ghost var full := queue;
      k := DropCanceled(canceled);
      Apart(full[..k], canceled, refused);
      assert all[..k] == full[..k] && all[k..] == queue + inbox;
      if queue == [] { return false, k; }
      assert all[..k + 1] == all[..k] + [queue[0]] && all[k + 1..] == queue[1..] + inbox;
      ThoseJoin(all[..k], [queue[0]], good);
      ThoseJoin(all[..k], [queue[0]], bad);
      ApartOne(queue[0], canceled, refused);
      if refused(queue[0]) {
        RespondQueued();
      } else {
        PrepareHead();
      }
      return true, k + 1;
    }

    /** The loop of startPreparation. */
    method TakeAll(limit: nat, canceled: Request -> bool, refused: Request -> bool) returns (ghost k: nat)
      requires Ordered() && prepareActive && !prepareFailed && preparing == [] && |active| + limit <= WINDOW
      modifies this`inbox, this`queue, this`preparing, this`answered, this`arrived, this`pending
      ensures Ordered() && old(arrived) <= arrived && |preparing| <= limit
      ensures k <= |old(queue) + old(inbox)| && queue + inbox == (old(queue) + old(inbox))[k..]
      ensures preparing == Those((old(queue) + old(inbox))[..k], Stageable(canceled, refused))
      ensures answered == old(answered) + Those((old(queue) + old(inbox))[..k], Unstageable(canceled, refused))
      ensures |preparing| < limit ==> queue == []
    {
      hide Ordered, Those, Stageable, Unstageable;
      ghost var good, bad := Stageable(canceled, refused), Unstageable(canceled, refused);
      ghost var all := queue + inbox;
      var more := true;
      k := 0;
      NoThose(good, bad);
      assert all[..0] == [] && all[0..] == all;
      while more && |preparing| < limit && |active| + |preparing| < WINDOW
        invariant Ordered() && |preparing| <= limit && old(arrived) <= arrived
        invariant k <= |all| && queue + inbox == all[k..]
        invariant preparing == Those(all[..k], good) && answered == old(answered) + Those(all[..k], bad)
        invariant !more ==> queue == []
        decreases more, |inbox| + |queue|
      {
        ghost var n;
        more, n := TakeUp(canceled, refused);
        assert all[..k + n] == all[..k] + all[k..][..n] && all[k + n..] == all[k..][n..];
        ThoseJoin(all[..k], all[k..][..n], good);
        ThoseJoin(all[..k], all[k..][..n], bad);
        k := k + n;
      }
    }

    /** startPreparation: of what is queued and on the channel, in order, up to a limit of requests is taken up, and
        those that may not be staged are answered. (The flag is raised before the requests are taken rather than
        after, which nothing in between can see.) */
    method StartPreparation(limit: nat, canceled: Request -> bool, refused: Request -> bool) returns (ghost k: nat)
      requires hide Linked;
               Valid() && !prepareActive && planner && PipelineValid()
      requires 0 < limit <= READY_BATCH && |active| + limit <= WINDOW
      modifies this`inbox, this`queue, this`preparing, this`prepareActive, this`planner, this`pipelineTerm,
               this`pipelineLast, this`answered, this`arrived, this`pending, this`trace, this`node
      ensures Valid() && old(arrived) <= arrived && old(trace) <= trace && |preparing| <= limit
      ensures prepareActive <==> preparing != []
      ensures prepareActive ==> PipelineValid()
      ensures k <= |old(queue) + old(inbox)| && queue + inbox == (old(queue) + old(inbox))[k..]
      ensures preparing == Those((old(queue) + old(inbox))[..k], Stageable(canceled, refused))
      ensures answered == old(answered) + Those((old(queue) + old(inbox))[..k], Unstageable(canceled, refused))
      ensures |preparing| < limit ==> queue == []
    {
      hide Balanced, Placed, Those, Stageable, Unstageable, SamePlaces, Pipelines.Next, Pipelines.From, Pipelines.Valid;
      ValidHolds(node);
      prepareActive := true;
      k := TakeAll(limit, canceled, refused);
      if preparing == [] {
        prepareActive := false;
        if active == [] {
          ResetPipeline();
        }
      } else {
        ghost var list := preparing;
        ghost var group := seq(|list|, i requires 0 <= i < |list| => commands(list[i]));
        StartStep(config, node, group);
        Take(Pipelines.Start(group));
      }
    }

    /** The planner is taken from the applied state, and only when the whole log is applied in this term; one that is no
        longer at the tail of the log fails the pipeline. */
    method OpenPipeline() returns (open: bool)
      requires hide Linked;
               Valid() && !prepareActive && raft.leader
      modifies this`preparing, this`active, this`prepareFailed, this`planner, this`pipelineTerm, this`pipelineLast,
        this`answered, this`pending, this`trace, this`node
      ensures Valid() && old(answered) <= answered && old(trace) <= trace
      ensures open <==> if old(planner) then old(PipelineValid())
                        else raft.applied == |raft.log| && raft.appliedTerm == raft.term
      ensures open ==> planner && PipelineValid() && active == old(active) && preparing == old(preparing)
                       && answered == old(answered) && prepareFailed == old(prepareFailed)
      ensures open ==> trace == if old(planner) then old(trace) else old(trace) + [Pipelines.Open]
      ensures !open ==> if old(planner) then !planner && active == [] else trace == old(trace) && active == old(active)
    {
      hide Balanced, Placed, SamePlaces, Pipelines.Next, Pipelines.From, Pipelines.Valid;
      if !planner {
        if raft.appliedTerm != raft.term || raft.applied != |raft.log| {
          return false;
        }
        OpenStep(config, node);
        Take(Pipelines.Open);
        planner, pipelineTerm, pipelineLast := true, raft.term, |raft.log|;
        NonePlaced(raft.log);
      } else if !PipelineValid() {
        FailPipeline();
        return false;
      }
      return true;
    }

    function Limit(): nat
      reads this`active
    {
      if READY_BATCH + |active| <= WINDOW then READY_BATCH else if |active| <= WINDOW then WINDOW - |active| else 0
    }

    /** startProposal; waiting says whether its batching delay is still running. */
    method StartProposal(canceled: Request -> bool, refused: Request -> bool, waiting: bool) returns (pause: Pause)
      requires hide Linked;
               Valid()
      modifies this`inbox, this`queue, this`preparing, this`active, this`prepareActive, this`prepareFailed,
               this`planner, this`pipelineTerm, this`pipelineLast, this`answered, this`arrived, this`pending,
               this`trace, this`node
      ensures Valid() && old(answered) <= answered && old(arrived) <= arrived && old(trace) <= trace
      ensures pause.Started? <==> !old(prepareActive) && prepareActive
      ensures pause.Started? ==> preparing != [] && PipelineValid()
                                 && (old(planner) || (raft.applied == |raft.log| && raft.appliedTerm == raft.term))
      ensures match pause
              case Busy => old(prepareActive) && preparing == old(preparing) && active == old(active)
              case Empty => queue == [] && active == old(active)
              case Full => |active| + |preparing| >= WINDOW && active == old(active)
              case Following => !raft.leader && old(answered) != answered
              case Delayed => waiting && |queue| < Limit() && active == old(active)
              case Behind => !old(planner) && !(raft.applied == |raft.log| && raft.appliedTerm == raft.term)
              case Lost => old(planner) && !old(PipelineValid()) && active == []
              case Drained => queue == [] && !prepareActive
              case Started => true
    {
      hide Ordered, Agreed, Those, Stageable, Unstageable, Runtime.Valid;
      pause := Gate(canceled, waiting);
      if !pause.Started? { return; }
      var had := planner;
      var open := OpenPipeline();
      if !open { return if had then Lost else Behind; }
      ghost var _ := StartPreparation(Limit(), canceled, refused);
      return if prepareActive then Started else Drained;
    }

    /** The part of startProposal that looks at the queue: whether there is something to start now. */
    method Gate(canceled: Request -> bool, waiting: bool) returns (pause: Pause)
      requires hide Linked;
               Valid()
      modifies this`inbox, this`queue, this`answered, this`arrived, this`pending
      ensures Valid() && old(answered) <= answered && old(arrived) <= arrived
      ensures pause in {Busy, Empty, Full, Following, Delayed, Started}
      ensures pause.Started? ==> !prepareActive && raft.leader && |active| < WINDOW
      ensures pause == Busy ==> prepareActive
      ensures pause == Empty ==> queue == []
      ensures pause == Full ==> |active| + |preparing| >= WINDOW
      ensures pause == Following ==> !raft.leader && answered != old(answered)
      ensures pause == Delayed ==> waiting && |queue| < Limit()
    {
      hide Ordered, Matched, Tied;
      Collect();
      ghost var k := DropCanceled(canceled);
      if prepareActive { return Busy; }
      if queue == [] { return Empty; }
      if |active| + |preparing| >= WINDOW { return Full; }
      if !raft.leader {
        RespondQueued();
        return Following;
      }
      return if waiting && |queue| < Limit() then Delayed else Started;
    }

    /** The loop of finishPreparation over a prepared group, which is no longer in preparing: requests that failed or
        have nothing to append are answered, the others become active at the positions after the pipeline's tail.
        When a duplicate cannot be looked up, its request is answered and those behind it go back to the front of
        the queue. */
    method Settle(requests: seq<Request>, outcomes: seq<Preparation>) returns (staged: seq<Proposal>, unready: bool)
      requires |outcomes| == |requests| && preparing == [] && pending <= capacity
               && (forall r | r in inbox :: !r.bounded)
      requires Balanced(queue, requests, active, answered, arrived, pending)
      modifies this`queue, this`active, this`answered, this`pending
      ensures InBalance() && active == old(active) + staged && Numbered(staged, pipelineLast) && |staged| <= |requests|
      ensures old(answered) <= answered
      ensures unready <==> Unready in outcomes
      ensures unready ==> exists i ::
                0 <= i < |requests| && outcomes[i].Unready? && queue == requests[i + 1..] + old(queue)
      ensures !unready ==> queue == old(queue) && Requests(staged) == StagedOf(requests, outcomes)
      ensures !unready ==> answered == old(answered) + AnsweredOf(requests, outcomes)
    {
      hide Balanced, Placed, Token, Requests, StagedOf, AnsweredOf, Numbered;
      staged, unready := [], false;
      var i := 0;
      SettledNone(requests, outcomes, pipelineLast);
      while i < |requests|
        invariant 0 <= i <= |requests| && |staged| <= i && preparing == [] && queue == old(queue) && pending <= capacity
        invariant Balanced(queue, requests[i..], active, answered, arrived, pending)
        invariant active == old(active) + staged && Numbered(staged, pipelineLast)
        invariant Requests(staged) == StagedOf(requests[..i], outcomes[..i])
        invariant answered == old(answered) + AnsweredOf(requests[..i], outcomes[..i])
        invariant Unready !in outcomes[..i]
      {
        SettledNext(requests, outcomes, i);
        if outcomes[i].Staged? {
          var proposal := Proposal(requests[i], pipelineLast + |staged| + 1, raft.applied);
          Activates(queue, requests[i..], active, answered, arrived, pending, proposal.expected, proposal.checked);
          NumberedNext(staged, proposal, pipelineLast);
          assert active + [proposal] == old(active) + (staged + [proposal]);
          active, staged := active + [proposal], staged + [proposal];
        } else {
          AnswersPrepared(queue, requests[i..], active, answered, arrived, pending);
          answered, pending := answered + [requests[i]], pending - Token(requests[i]);
          if outcomes[i].Unready? {
            Requeues(queue, requests[i + 1..], active, answered, arrived, pending);
            queue, unready := requests[i + 1..] + queue, true;
            return;
          }
        }
        i := i + 1;
      }
      assert requests[..i] == requests && outcomes[..i] == outcomes && requests[i..] == [];
    }

    /** The flag is lowered and the group settled. */
    method SettleGroup(outcomes: seq<Preparation>) returns (staged: seq<Proposal>, unready: bool)
      requires hide Linked;
               Ordered() && prepareActive && !prepareFailed && PipelineValid() && |outcomes| == |preparing|
      modifies this`prepareActive, this`preparing, this`queue, this`active, this`answered, this`pending
      ensures InBalance() && Flagged() && !prepareActive && !prepareFailed && old(answered) <= answered
      ensures active == old(active) + staged && Numbered(staged, pipelineLast) && Placed(old(active), raft.log)
      ensures unready <==> Unready in outcomes
      ensures !unready ==>
                && |staged| == |StagedOf(old(preparing), outcomes)|
                && Requests(staged) == StagedOf(old(preparing), outcomes)
                && answered == old(answered) + AnsweredOf(old(preparing), outcomes)
    {
      hide Balanced, Placed, Numbered, StagedOf, AnsweredOf, Requests;
      var requests := preparing;
      prepareActive, preparing := false, [];
      staged, unready := Settle(requests, outcomes);
      RequestsCount(staged);
    }

    /** stagePreparedGroup for a settled group: Raft takes its entries, and the machine appends them to its log. */
    method Append(ghost before: seq<Proposal>, staged: seq<Proposal>, ghost requests: seq<Request>,
                  ghost outcomes: seq<Preparation>)
      requires hide Pipelines.From, Pipelines.Valid, Pipelines.Next, Linked;
               InBalance() && Flagged() && PipelineValid() && active == before + staged && planner && !prepareActive
      requires Placed(before, raft.log) && Numbered(staged, pipelineLast)
      requires node == Pipelines.From(config, origin, trace) && Pipelines.Valid(node) && SeenAs(node, raft)
      requires node.prepareActive && !node.prepareFailed && node.waiting == [] && node.planner.Some?
               && node.pipelineTerm == pipelineTerm && node.pipelineLast == pipelineLast
               && SamePlaces(node.active, before)
      requires |requests| == |outcomes| && Unready !in outcomes && Tells(outcomes, node.prepared)
               && |staged| == |StagedOf(requests, outcomes)|
      modifies this`pipelineLast, this`raft, this`trace, this`node
      ensures Valid() && raft == Proposed(old(raft), Requests(staged)) && pipelineLast == old(pipelineLast) + |staged|
      ensures trace == old(trace) + [Pipelines.Finish(true)] && PipelineValid()
      ensures node == Pipelines.Next(config, old(node), Pipelines.Finish(true))
    {
      hide Balanced, Placed, Numbered, SamePlaces, StagedOf, Tells, Pipelines.Next, Pipelines.From, Pipelines.Finished,
           Pipelines.Coupled, Pipelines.Gives, Pipelines.Sound;
      PlacedGroup(before, staged, raft.log);
      FinishStep(config, node, true);
      FinishedPlaces(node, outcomes, requests, before, staged);
      FinishedFrame(node);
      Take(Pipelines.Finish(true));
      raft, pipelineLast := Proposed(raft, Requests(staged)), pipelineLast + |staged|;
    }

    /** A prepared group is given up. */
    ghost method Abandon()
      requires hide Pipelines.From, Pipelines.Valid, SeenAs;
               node == Pipelines.From(config, origin, trace) && Pipelines.Valid(node) && SeenAs(node, raft)
               && Sane(raft)
      requires node.prepareActive && !node.prepareFailed && node.waiting == [] && !prepareActive && !prepareFailed
      modifies this`trace, this`node
      ensures Linked() && old(trace) <= trace
    {
      hide Pipelines.Next, Pipelines.From, Pipelines.Valid, Pipelines.PipelineValid;
      FinishStep(config, node, false);
      Take(Pipelines.Finish(false));
    }

    /** What is needed to finish a group that is prepared. */
    ghost predicate Ready(outcomes: seq<Preparation>, accepted: bool, after: Raft, entries: seq<Pipelines.Entry>)
      reads this
    {
      hide Moved, SeenAs, Evolves, Proposed, StagedOf, Tells, Pipelines.Next;
      && prepareActive && node.waiting == []
      && (!prepareFailed ==> |outcomes| == |preparing| && Tells(outcomes, node.prepared))
      && (!prepareFailed && accepted ==>
            Evolves(Proposed(raft, StagedOf(preparing, outcomes)), after)
            && SeenAs(Moved(config, Pipelines.Next(config, node, Pipelines.Finish(true)), after, entries), after))
    }

    /** finishPreparation of a group whose leadership lasted until it was ready. If no duplicate is missing and Raft
        takes the group and this node still leads at its end, the staged requests are active at consecutive
        positions, the others answered, and then the sweep of checkProposal has gone over all; otherwise everything
        in flight is answered. */
    method FinishGroup(outcomes: seq<Preparation>, accepted: bool, after: Raft, ghost entries: seq<Pipelines.Entry>,
                       processed: bool, lookup: Proposal -> Lookup)
      returns (finished: seq<Proposal>, went: bool, staged: seq<Proposal>)
      requires hide Linked, Tells, Moved, Evolves, SeenAs, Pipelines.Next;
               Valid() && !prepareFailed && PipelineValid() && Ready(outcomes, accepted, after, entries)
      modifies this
      ensures Valid() && !prepareActive && old(answered) <= answered && arrived == old(arrived) && old(trace) <= trace
      ensures raft == old(raft) || raft == after
      ensures forall p | p in finished :: Landed(p, raft.log, raft.applied)
      ensures Unready !in outcomes ==>
                Requests(staged) == StagedOf(old(preparing), outcomes) && Numbered(staged, old(pipelineLast))
      ensures went <==> && Unready !in outcomes
                        && (staged != [] ==> accepted && processed && after.leader && after.term == old(pipelineTerm)
                                             && |after.log| == old(pipelineLast) + |staged|)
      ensures went ==>
        var all := old(active) + staged;
        var lookups := seq(|all|, i requires 0 <= i < |all| => lookup(all[i]));
        Sound(all, lookups, raft.applied) ==>
          && active == Kept(all, lookups, raft.applied) && finished == Finished(all, lookups, raft.applied)
          && answered == old(answered) + AnsweredOf(old(preparing), outcomes) + Requests(finished)
      ensures !went ==> active == []
    {
      hide Balanced, Flagged, InPlace, Placed, Numbered, StagedOf, AnsweredOf, Kept, Finished, Landed, Requests,
           Proposed, Evolves, Due, Sound, SamePlaces, Moved, Tells, Pipelines.Next, Pipelines.From, Pipelines.Valid,
           Pipelines.Failed;
      finished, went, staged := [], false, [];
      var requests, before := preparing, active;
      var unready;
      staged, unready := SettleGroup(outcomes);
      if unready || (staged != [] && !accepted) {
        Abandon();
        FailPipeline();
        return;
      }
      ProposedNone(raft);
      Append(before, staged, requests, outcomes);
      finished, went := FinishAppended(staged != [], after, entries, processed, lookup);
    }

    /** What finishPreparation does once a group is appended, if there was something to append: Raft moves on, and
        unless this node still leads at the end of its log, the pipeline is failed. */
    method FinishAppended(some: bool, after: Raft, ghost entries: seq<Pipelines.Entry>, processed: bool,
                          lookup: Proposal -> Lookup)
      returns (finished: seq<Proposal>, went: bool)
      requires hide Linked, SeenAs, Moved, Evolves;
               Valid() && !prepareActive && PipelineValid()
      requires some ==> Evolves(raft, after) && SeenAs(Moved(config, node, after, entries), after)
      modifies this
      ensures Valid() && !prepareActive && old(answered) <= answered && arrived == old(arrived) && old(trace) <= trace
      ensures raft == if some then after else old(raft)
      ensures forall p | p in finished :: Landed(p, raft.log, raft.applied)
      ensures went <==> (some ==> processed && after.leader && after.term == old(pipelineTerm)
                                  && |after.log| == old(pipelineLast))
      ensures went ==>
        var all := old(active);
        var lookups := seq(|all|, i requires 0 <= i < |all| => lookup(all[i]));
        Sound(all, lookups, raft.applied) ==>
          && active == Kept(all, lookups, raft.applied) && finished == Finished(all, lookups, raft.applied)
          && answered == old(answered) + Requests(finished)
      ensures !went ==> active == []
    {
      hide Balanced, Placed, Kept, Finished, Landed, Requests, Evolves, Due, Sound, Matched, Tied, SeenAs, Moved,
           Pipelines.Failed;
      finished, went := [], true;
      if some {
        Observe(after, entries);
        went := processed && PipelineValid();
      }
      if went {
        finished := FinishCheck(lookup);
      } else {
        FailPipeline();
      }
    }

    /** The end of finishPreparation. */
    method FinishCheck(lookup: Proposal -> Lookup) returns (finished: seq<Proposal>)
      requires hide Linked;
               Valid() && !prepareActive && PipelineValid()
      modifies this`active, this`preparing, this`prepareFailed, this`planner, this`pipelineTerm, this`pipelineLast,
               this`answered, this`pending, this`trace, this`node
      ensures Valid() && !prepareActive && old(answered) <= answered && old(trace) <= trace
      ensures forall p | p in finished :: Landed(p, raft.log, raft.applied)
      ensures var all := old(active);
              var lookups := seq(|all|, i requires 0 <= i < |all| => lookup(all[i]));
              Sound(all, lookups, raft.applied) ==>
                && active == Kept(all, lookups, raft.applied) && finished == Finished(all, lookups, raft.applied)
                && answered == old(answered) + Requests(finished)
    {
      hide Ordered, Kept, Finished, Landed, Requests, Due, Sound, Matched, Tied;
      finished := CheckAll(lookup);
      if active == [] {
        ResetPipeline();
      }
    }

    /** checkProposal, with the lookups it makes. */
    method CheckAll(lookup: Proposal -> Lookup) returns (finished: seq<Proposal>)
      requires hide Linked;
               Valid()
      modifies this`active, this`preparing, this`prepareFailed, this`planner, this`pipelineTerm, this`pipelineLast,
               this`answered, this`pending, this`trace, this`node
      ensures Valid() && old(answered) <= answered && old(trace) <= trace
      ensures forall p | p in finished :: Landed(p, raft.log, raft.applied)
      ensures var all := old(active);
              var lookups := seq(|all|, i requires 0 <= i < |all| => lookup(all[i]));
              old(PipelineValid()) && Sound(all, lookups, raft.applied) ==>
                && active == Kept(all, lookups, raft.applied) && finished == Finished(all, lookups, raft.applied)
                && answered == old(answered) + Requests(finished)
    {
      hide Ordered, Kept, Finished, Landed, Requests, Due, Sound, Matched, Tied;
      var list := active;
      finished := CheckProposal(seq(|list|, i requires 0 <= i < |list| => lookup(list[i])));
    }

    /** finishPreparation */
    method FinishPreparation(outcomes: seq<Preparation>, accepted: bool, after: Raft,
                             ghost entries: seq<Pipelines.Entry>, processed: bool, lookup: Proposal -> Lookup)
      returns (finished: seq<Proposal>, went: bool, staged: seq<Proposal>)
      requires hide Linked, Tells, Moved, Evolves, SeenAs, Pipelines.Next;
               Valid() && Ready(outcomes, accepted, after, entries)
      modifies this
      ensures Valid() && !prepareActive && old(answered) <= answered && arrived == old(arrived) && old(trace) <= trace
      ensures raft == old(raft) || raft == after
      ensures forall p | p in finished :: Landed(p, raft.log, raft.applied)
      ensures old(prepareFailed) ==> answered == old(answered) && !planner && !went
      ensures !old(prepareFailed) && old(PipelineValid()) && Unready !in outcomes ==>
                && Requests(staged) == StagedOf(old(preparing), outcomes) && Numbered(staged, old(pipelineLast))
                && (went <==> (staged != [] ==> accepted && processed && after.leader && after.term == old(pipelineTerm)
                                                && |after.log| == old(pipelineLast) + |staged|))
      ensures went ==>
        var all := old(active) + staged;
        var lookups := seq(|all|, i requires 0 <= i < |all| => lookup(all[i]));
        Sound(all, lookups, raft.applied) ==>
          && active == Kept(all, lookups, raft.applied) && finished == Finished(all, lookups, raft.applied)
          && |outcomes| == |old(preparing)|
          && answered == old(answered) + AnsweredOf(old(preparing), outcomes) + Requests(finished)
      ensures !went && !old(prepareFailed) ==> active == []
    {
      hide Balanced, Placed, StagedOf, AnsweredOf, Landed, Requests, Proposed, Evolves, Kept, Finished, Sound, Numbered,
           SamePlaces, Moved, Tells, Pipelines.Next, Pipelines.From, Pipelines.Valid;
      finished, went, staged := [], false, [];
      if prepareFailed {
        FinishStep(config, node, true);
        Take(Pipelines.Finish(true));
        prepareActive, prepareFailed := false, false;
        ResetPipeline();
      } else if !PipelineValid() {
        prepareActive := false;
        Abandon();
        FailPipeline();
      } else {
        finished, went, staged := FinishGroup(outcomes, accepted, after, entries, processed, lookup);
      }
    }

    ghost predicate Acceptable(event: Event)
      reads this
    {
      hide Moved, SeenAs, Evolves, Ready;
      match event
      case Admission(offers) => offers != []
      case Arrival => inbox != []
      case Motion(after, entries) => Evolves(raft, after) && SeenAs(Moved(config, node, after, entries), after)
      case Prepared(outcomes, accepted, after, entries, _) => Ready(outcomes, accepted, after, entries)
      case Working(_) => prepareActive && node.waiting != []
    }

    /** The event of a turn. */
    method Receive(event: Event, lookup: Proposal -> Lookup) returns (finished: seq<Proposal>)
      requires hide Linked, Acceptable;
               Valid() && Acceptable(event)
      modifies this
      ensures Valid() && old(answered) <= answered && old(arrived) <= arrived && old(trace) <= trace
      ensures forall p | p in finished :: Landed(p, raft.log, raft.applied)
      ensures event.Motion? ==> raft == event.after
      ensures event.Prepared? ==> !prepareActive
    {
      hide Ordered, Landed, Evolves, Matched, SeenAs, Moved, Tied, Ready, Sound, Kept, Finished, StagedOf, AnsweredOf,
           Numbered, Requests;
      finished := [];
      match event {
        case Admission(offers) =>
          var _ := AdmitAll(offers);
        case Arrival =>
          Arrive();
        case Prepared(outcomes, accepted, after, entries, processed) =>
          var went, staged;
          finished, went, staged := FinishPreparation(outcomes, accepted, after, entries, processed, lookup);
        case Motion(after, entries) =>
          Observe(after, entries);
        case Working(refused) =>
          Work(refused);
      }
    }

    /** One turn of the loop: the event, then checkProposal, then startProposal. Whatever happens in it, requests
        stay in one place each, an answer once given stays the only one, results are given only for entries that have
        been applied where they were expected, and the pipeline goes through steps of the machine of module
        Proposals. */
    method Turn(event: Event, lookup: Proposal -> Lookup, canceled: Request -> bool, refused: Request -> bool,
                waiting: bool)
      returns (finished: seq<Proposal>, pause: Pause)
      requires hide Linked, Acceptable;
               Valid() && Acceptable(event)
      modifies this
      ensures Valid() && old(answered) <= answered && old(arrived) <= arrived && old(trace) <= trace
      ensures forall p | p in finished :: Landed(p, raft.log, raft.applied)
    {
      hide Ordered, Agreed, Landed, Acceptable, Kept, Finished, Sound, Requests;
      finished := Receive(event, lookup);
      var more := CheckAll(lookup);
      finished := finished + more;
      pause := StartProposal(canceled, refused, waiting);
    }
  }

  /** A request that came in once is in one place, once; when it has been answered, it is nowhere else. */
  lemma {:induction false} OnePlace(q: seq<Request>, p: seq<Request>, a: seq<Proposal>, ans: seq<Request>,
                                    arr: multiset<Request>, n: nat, r: Request)
    requires Balanced(q, p, a, ans, arr, n) && arr[r] == 1
    ensures multiset(q)[r] + multiset(p)[r] + multiset(Requests(a))[r] + multiset(ans)[r] == 1
    ensures r in ans ==> r !in q && r !in p && (forall i | 0 <= i < |a| :: a[i].request != r)
    ensures r !in ans ==> r in q || r in p || exists i :: 0 <= i < |a| && a[i].request == r
    ensures forall i, j | 0 <= i < j < |ans| :: !(ans[i] == r && ans[j] == r)
  {
    assert (multiset(q) + multiset(p) + multiset(Requests(a)) + multiset(ans))[r] == 1;
    forall i | 0 <= i < |a|
      ensures a[i].request in multiset(Requests(a))
    {
      assert Requests(a)[i] == a[i].request;
    }
    forall i, j | 0 <= i < j < |ans|
      ensures !(ans[i] == r && ans[j] == r)
    {
      assert ans == ans[..i] + [ans[i]] + ans[i + 1..j] + [ans[j]] + ans[j + 1..];
    }
  }

  lemma {:induction false} SettledNone(requests: seq<Request>, outcomes: seq<Preparation>, last: nat)
    requires |outcomes| == |requests|
    ensures requests[0..] == requests && Requests([]) == [] && Numbered([], last)
    ensures StagedOf(requests[..0], outcomes[..0]) == [] == AnsweredOf(requests[..0], outcomes[..0])
  {
  }

  lemma {:induction false} SettledNext(requests: seq<Request>, outcomes: seq<Preparation>, i: nat)
    requires |outcomes| == |requests| && i < |requests|
    ensures requests[i..][1..] == requests[i + 1..] && requests[i..][0] == requests[i]
    ensures StagedOf(requests[..i + 1], outcomes[..i + 1])
         == StagedOf(requests[..i], outcomes[..i]) + if outcomes[i].Staged? then [requests[i]] else []
    ensures AnsweredOf(requests[..i + 1], outcomes[..i + 1])
         == AnsweredOf(requests[..i], outcomes[..i]) + if outcomes[i].Staged? then [] else [requests[i]]
  {
    assert requests[..i + 1][..i] == requests[..i] && outcomes[..i + 1][..i] == outcomes[..i];
  }

  lemma {:induction false} NumberedNext(staged: seq<Proposal>, p: Proposal, last: nat)
    requires Numbered(staged, last) && p.expected == last + |staged| + 1
    ensures Numbered(staged + [p], last) && Requests(staged + [p]) == Requests(staged) + [p.request]
  {
  }

  lemma {:induction false} NoneSwept(applied: nat)
    ensures Kept([], [], applied) == [] && Finished([], [], applied) == [] && Requests([]) == []
  {
  }

  lemma {:induction false} SweptNone(all: seq<Proposal>, lookups: seq<Lookup>, log: seq<Option<Request>>, applied: nat)
    requires |lookups| == |all| && Placed(all, log)
    ensures Swept(all, lookups, 0, log, applied, [], []) && [] + all[0..] == all && Requests([]) == []
  {
    assert [] + all[0..] == all;
  }

  lemma {:induction false} SweptSizes(all: seq<Proposal>, lookups: seq<Lookup>, i: nat, log: seq<Option<Request>>,
                                      applied: nat,
                   remaining: seq<Proposal>, finished: seq<Proposal>)
    requires Swept(all, lookups, i, log, applied, remaining, finished)
    ensures |remaining| <= i && forall p | p in finished :: Landed(p, log, applied)
  {
  }

  lemma {:induction false} NonePlaced(log: seq<Option<Request>>)
    ensures Placed([], log)
  {
  }

  lemma {:induction false} AllAnswered(ans: seq<Request>, arr: multiset<Request>)
    requires Balanced([], [], [], ans, arr, 0)
    ensures multiset(ans) == arr
  {
    assert Requests([]) == [];
  }
}
