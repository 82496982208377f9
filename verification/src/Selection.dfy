/** Plan and Commit of internal/scheduler/scheduler.go: the next task to lease, by smooth weighted round robin
    over the namespaces that have one and may run it. */
module Selection {
  import opened Base
  import opened Settings
  import opened Model
  import opened IdOrder
  import opened Fairness

  /** scheduler.Task */
  datatype Candidate = Candidate(workflow: Id, task: Id, namespace: string, capability: string, updatedAt: int64)

  /** What inspect reports for the capabilities of a worker. */
  datatype View = View(running: int, byNamespace: map<string, int>, candidates: map<string, seq<Candidate>>)

  /** scheduler.Plan */
  datatype Lease = Lease(task: Candidate, current: map<string, int>, epoch: uint64)

  function RunningIn(view: View, namespace: string): int {
    if namespace in view.byNamespace then view.byNamespace[namespace] else 0
  }

  predicate MayRun(config: Config, view: View, namespace: string) {
    && namespace in view.candidates && view.candidates[namespace] != []
    && RunningIn(view, namespace) < ConfigOf(config, namespace).limits.running
  }

  /** The namespaces that have a task to lease and may run it, sorted. */
  function EligibleNames(config: Config, view: View): (names: seq<string>)
    ensures DistinctNames(names) && forall x :: x in names <==> MayRun(config, view, x)
  {
    hide MayRun, SortedIds;
    var ids := SortedIds(set x | x in view.candidates && MayRun(config, view, x) :: Text(x));
    var names := seq(|ids|, i requires 0 <= i < |ids| => if ids[i].Text? then ids[i].text else "");
    NamesOf(config, view, ids, names);
    names
  }

  lemma {:induction false} NamesOf(config: Config, view: View, ids: seq<Id>, names: seq<string>)
    requires hide MayRun, SortedIds;
             ids == SortedIds(set x | x in view.candidates && MayRun(config, view, x) :: Text(x))
    requires |names| == |ids| && forall i | 0 <= i < |ids| :: names[i] == if ids[i].Text? then ids[i].text else ""
    ensures DistinctNames(names) && forall x :: x in names <==> MayRun(config, view, x)
  {
    hide SortedIds, MayRun;
    forall i | 0 <= i < |ids| ensures ids[i].Text? && MayRun(config, view, ids[i].text) {
      assert ids[i] in ids;
    }
    forall i, j | 0 <= i < j < |names| ensures names[i] != names[j] {
      assert Before(ids[i], ids[j]);
      Trichotomy(ids[i], ids[j]);
    }
    forall x ensures x in names <==> MayRun(config, view, x) {
      if MayRun(config, view, x) {
        assert x in view.candidates by { MayRunHas(config, view, x); }
        assert Text(x) in ids;
        var i :| 0 <= i < |ids| && ids[i] == Text(x);
        assert names[i] == x;
      }
    }
  }

  lemma {:induction false} MayRunHas(config: Config, view: View, x: string)
    requires MayRun(config, view, x)
    ensures x in view.candidates
  {
  }

  function WeightOf(config: Config): string -> int {
    x => ConfigOf(config, x).weight
  }

  /** The order in which the tasks of a namespace are leased. */
  predicate LeasedBefore(a: Candidate, b: Candidate) {
    if a.workflow != b.workflow then Before(a.workflow, b.workflow)
    else if a.task != b.task then Before(a.task, b.task)
    else TextBefore(a.capability, b.capability)
  }

  lemma {:induction false} LeasedTransitive(a: Candidate, b: Candidate, c: Candidate)
    requires !LeasedBefore(b, a) && LeasedBefore(c, a)
    ensures !LeasedBefore(b, c)
  {
    Trichotomy(a.workflow, b.workflow);
    Trichotomy(a.task, b.task);
    TextTrichotomy(a.capability, b.capability);
    Trichotomy(b.workflow, c.workflow);
    Trichotomy(b.task, c.task);
    TextTrichotomy(b.capability, c.capability);
    if LeasedBefore(b, c) {
      if b.workflow != c.workflow && c.workflow != a.workflow { Transitive(b.workflow, c.workflow, a.workflow); }
      if b.workflow == c.workflow == a.workflow && b.task != c.task
          && c.task != a.task { Transitive(b.task, c.task, a.task); }
      if b.workflow == c.workflow == a.workflow && b.task == c.task == a.task {
        TextTransitive(b.capability, c.capability, a.capability);
      }
    }
  }

  /** The task that sorts first. */
  method FirstTask(tasks: seq<Candidate>) returns (first: Candidate)
    requires tasks != []
    ensures first in tasks && forall t | t in tasks :: !LeasedBefore(t, first)
  {
    first := tasks[0];
    SelfBefore(first);
    for i := 1 to |tasks|
      invariant first in tasks && forall k | 0 <= k < i :: !LeasedBefore(tasks[k], first)
    {
      SelfBefore(tasks[i]);
      if LeasedBefore(tasks[i], first) {
        forall k | 0 <= k < i ensures !LeasedBefore(tasks[k], tasks[i]) {
          LeasedTransitive(first, tasks[k], tasks[i]);
        }
        first := tasks[i];
      }
    }
  }

  lemma {:induction false} SelfBefore(t: Candidate)
    ensures !LeasedBefore(t, t)
  {
    TextTrichotomy(t.capability, t.capability);
  }

  lemma {:induction false} RaisedNone(weight: string -> int, current: map<string, int>)
    ensures RaisedAll([], weight, current) == map[] && Sum([], weight) == 0
  {
  }

  class Scheduler {
    const config: Config
    var current: map<string, int>
    var epoch: uint64

    constructor (config: Config)
      ensures this.config == config && current == map[] && epoch == 0
    {
      this.config := config;
      current, epoch := map[], 0;
    }

    /** Raise every eligible credit by its weight; None when a 64-bit sum would overflow. */
    method Raise(names: seq<string>) returns (r: Option<(map<string, int>, int)>)
      requires forall x | x in names :: ConfigOf(config, x).weight >= 1
      ensures r.Some? <==> forall i | 0 <= i < |names| :: FitsAt(names, WeightOf(config), current, i)
      ensures r.Some? ==> r.value == (RaisedAll(names, WeightOf(config), current), Sum(names, WeightOf(config)))
    {
      hide RaisedAll, Sum;
      var raised: map<string, int>, total := map[], 0;
      RaisedNone(WeightOf(config), current);
      for i := 0 to |names|
        invariant total == Sum(names[..i], WeightOf(config))
                  && raised == RaisedAll(names[..i], WeightOf(config), current)
        invariant forall k | 0 <= k < i :: FitsAt(names, WeightOf(config), current, k)
      {
        var weight := ConfigOf(config, names[i]).weight;
        assert FitsAt(names, WeightOf(config), current, i) <==>
          total <= MAX_INT64 - weight && Held(current, names[i]) <= MAX_INT64 - weight;
        if total > MAX_INT64 - weight || Held(current, names[i]) > MAX_INT64 - weight { return None; }
        RaisedMore(names, WeightOf(config), current, i);
        raised := raised[names[i] := Held(current, names[i]) + weight];
        total := total + weight;
      }
      assert names[..|names|] == names;
      return Some((raised, total));
    }

    /** The selection loop: the first of the largest. */
    method Choose(names: seq<string>, raised: map<string, int>) returns (selected: string)
      requires names != [] && raised == RaisedAll(names, WeightOf(config), current)
      ensures selected == Selected(names, WeightOf(config), current)
    {
      selected := names[0];
      assert names[..1] == [names[0]];
      for i := 1 to |names|
        invariant selected in names && selected == Selected(names[..i], WeightOf(config), current)
      {
        assert names[..i + 1][..i] == names[..i];
        if raised[names[i]] > raised[selected] { selected := names[i]; }
      }
      assert names[..|names|] == names;
    }

    /** Plan: a lease exactly when the global limit leaves room, some namespace is eligible and no credit
        would overflow; then the least task of the namespace that the round robin selects, with the credits
        that committing it would leave. */
    method Plan(view: View) returns (r: Option<Lease>)
      requires hide Charged, EligibleNames, Fits, LeasedBefore, Selected;
               forall x :: ConfigOf(config, x).weight >= 1
      ensures var names := EligibleNames(config, view);
              r.Some? <==> view.running < config.global.running && names != [] && Fits(names, WeightOf(config), current)
      ensures r.Some? ==>
                var names := EligibleNames(config, view);
                var selected := Selected(names, WeightOf(config), current);
                && r.value.current == Charged(names, WeightOf(config), current) && r.value.epoch == epoch
                && selected in view.candidates && r.value.task in view.candidates[selected]
                && forall t | t in view.candidates[selected] :: !LeasedBefore(t, r.value.task)
    {
      hide EligibleNames, Sum, Charged, FitsAt, LeasedBefore;
      if view.running >= config.global.running { return None; }
      var names := EligibleNames(config, view);
      if names == [] { return None; }
      var sums := Raise(names);
      if sums.None? { return None; }
      var (raised, total) := sums.value;
      var selected := Choose(names, raised);
      ChargedFromRaised(names, WeightOf(config), current);
      assert selected in names;
      if raised[selected] < MIN_INT64 + total { return None; }
      var task := FirstTask(view.candidates[selected]);
      return Some(Lease(task, raised[selected := raised[selected] - total], epoch));
    }

    /** Commit advances the credits once the lease has been committed; a plan made before another commit is
        stale. */
    method Commit(plan: Lease) returns (ok: bool)
      modifies this
      ensures ok <==> plan.epoch == old(epoch) && plan.task.workflow != NO_ID
      ensures if ok then current == plan.current && epoch == Next64(old(epoch)) else
                current == old(current) && epoch == old(epoch)
    {
      if plan.epoch != epoch || plan.task.workflow == NO_ID { return false; }
      current := plan.current;
      epoch := Next64(epoch);
      return true;
    }
  }
}
