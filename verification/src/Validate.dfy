/** The loops of internal/core/validate.go, proved against the declarative notions of module Definition. */
module Validate {
  import opened Base
  import opened Model
  import opened IdOrder
  import opened Backoff
  import opened Definition

  // ----- Counting dependencies that have not been visited -----

  function Outstanding(dependencies: seq<Id>, done: set<Id>): nat {
    if dependencies == [] then 0
    else (if dependencies[0] in done then 0 else 1) + Outstanding(dependencies[1..], done)
  }

  lemma {:induction false} OutstandingVisit(dependencies: seq<Id>, done: set<Id>, id: Id)
    requires id !in done
    ensures Outstanding(dependencies, done) == Outstanding(dependencies, done + {id}) + multiset(dependencies)[id]
  {
    if dependencies != [] {
      OutstandingVisit(dependencies[1..], done, id);
      assert dependencies == [dependencies[0]] + dependencies[1..];
    }
  }

  lemma {:induction false} OutstandingZero(dependencies: seq<Id>, done: set<Id>)
    ensures Outstanding(dependencies, done) == 0 <==> forall d | d in dependencies :: d in done
    ensures done == {} ==> Outstanding(dependencies, done) == |dependencies|
  {
    if dependencies != [] {
      OutstandingZero(dependencies[1..], done);
      assert dependencies == [dependencies[0]] + dependencies[1..];
    }
  }

  // ----- hasCycle -----

  function Listed(dependents: map<Id, seq<Id>>, id: Id): seq<Id> {
    if id in dependents then dependents[id] else []
  }

  /** How often `dependent` is listed under `id`. */
  function Listing(dependents: map<Id, seq<Id>>, id: Id, dependent: Id): nat {
    multiset(Listed(dependents, id))[dependent]
  }

  /** The edge from `x` to its dependency `d` is recorded as often as `x` names it. */
  ghost predicate EdgeRecorded(table: map<Id, TaskDefinition>, tasks: set<Id>, dependents: map<Id, seq<Id>>, d: Id,
                               x: Id)
    requires tasks <= table.Keys
  {
    Listing(dependents, d, x) == if x in tasks then multiset(table[x].dependencies)[d] else 0
  }

  /** Every edge out of `tasks` is recorded in the direction of its dependents. */
  ghost predicate Recorded(table: map<Id, TaskDefinition>, tasks: set<Id>, indegree: map<Id, int>,
                           dependents: map<Id, seq<Id>>) {
    && tasks <= table.Keys && indegree.Keys == tasks
    && (forall id | id in tasks :: indegree[id] == |table[id].dependencies|)
    && (forall d, x :: EdgeRecorded(table, tasks, dependents, d, x))
  }

  method RecordEdges(table: map<Id, TaskDefinition>) returns (indegree: map<Id, int>, dependents: map<Id, seq<Id>>)
    ensures Recorded(table, table.Keys, indegree, dependents)
  {
    hide Listing;
    indegree, dependents := map[], map[];
    var left := table.Keys;
    forall d, x ensures EdgeRecorded(table, {}, dependents, d, x) {
      ListingEmpty(d, x);
    }
    assert table.Keys - left == {};
    while left != {}
      invariant left <= table.Keys && Recorded(table, table.Keys - left, indegree, dependents)
      decreases |left|
    {
      var id :| id in left;
      ghost var before := dependents;
      indegree := indegree[id := |table[id].dependencies|];
      dependents := RecordTask(dependents, id, table[id].dependencies);
      forall d, x ensures EdgeRecorded(table, table.Keys - (left - {id}), dependents, d, x) {
        assert EdgeRecorded(table, table.Keys - left, before, d, x);
      }
      left := left - {id};
    }
    assert table.Keys - {} == table.Keys;
  }

  lemma {:induction false} ListingEmpty(d: Id, x: Id)
    ensures Listing(map[], d, x) == 0
  {
  }

  /** The inner loop of hasCycle's first pass: `id` is listed under each of its dependencies. */
  method RecordTask(dependents: map<Id, seq<Id>>, id: Id, edges: seq<Id>) returns (dependents': map<Id, seq<Id>>)
    ensures forall d, x :: Listing(dependents', d, x) == Listing(dependents, d, x) + (if x == id
            then multiset(edges)[d] else 0)
  {
    dependents' := dependents;
    for i := 0 to |edges|
      invariant forall d, x :: Listing(dependents', d, x) == Listing(dependents, d, x) + (if x == id
                then multiset(edges[..i])[d] else 0)
    {
      assert edges[..i + 1] == edges[..i] + [edges[i]];
      dependents' := dependents'[edges[i] := Listed(dependents', edges[i]) + [id]];
    }
    assert edges[..|edges|] == edges;
  }

  /** `x` still waits for its unvisited dependencies, and for the releases it is owed. */
  ghost predicate Counted(table: map<Id, TaskDefinition>, indegree: map<Id, int>, done: set<Id>, owed: seq<Id>, x: Id)
    requires x in table && x in indegree
  {
    indegree[x] == Outstanding(table[x].dependencies, done) + multiset(owed)[x]
  }

  /** `x` is queued once exactly when it waits for nothing. */
  ghost predicate Queued(indegree: map<Id, int>, ready: seq<Id>, x: Id)
    requires x in indegree
  {
    multiset(ready)[x] == if indegree[x] == 0 then 1 else 0
  }

  /** The bookkeeping while `owed` dependents are still to be released and `done` have been visited. */
  ghost predicate Sweeping(table: map<Id, TaskDefinition>, indegree: map<Id, int>, ready: seq<Id>, done: set<Id>,
                           owed: seq<Id>) {
    && indegree.Keys == table.Keys
    && (forall x | x in table :: Counted(table, indegree, done, owed, x))
    && (forall x | x in ready :: x in table && x !in done)
    && (forall x | x in table && x !in done :: Queued(indegree, ready, x))
  }

  /** The visits so far, in the order of `rank`. */
  ghost predicate Ranked(table: map<Id, TaskDefinition>, done: set<Id>, rank: map<Id, nat>) {
    && done <= table.Keys && rank.Keys == done && (forall id | id in done :: rank[id] < |done|)
    && (forall id, d | id in done && d in table[id].dependencies :: d in done && rank[d] < rank[id])
  }

  method FirstReady(table: map<Id, TaskDefinition>, indegree: map<Id, int>) returns (ready: seq<Id>)
    requires indegree.Keys == table.Keys && forall id | id in table :: indegree[id] == |table[id].dependencies|
    ensures Sweeping(table, indegree, ready, {}, [])
  {
    hide SortIds;
    ready := [];
    var left := table.Keys;
    while left != {}
      invariant left <= table.Keys
      invariant forall id | id in ready :: id in table && id !in left
      invariant forall id | id in table :: multiset(ready)[id] == if id !in left && indegree[id] == 0 then 1 else 0
      decreases |left|
    {
      var id :| id in left;
      left := left - {id};
      if indegree[id] == 0 {
        assert id !in ready;
        ready := ready + [id];
      }
    }
    SortIdsMembers(ready);
    ready := SortIds(ready);
    forall id | id in table ensures Counted(table, indegree, {}, [], id) {
      OutstandingZero(table[id].dependencies, {});
    }
  }

  /** Releasing the dependents of a visited task. */
  method Release(table: map<Id, TaskDefinition>, indegree: map<Id, int>, ready: seq<Id>, owed: seq<Id>,
                 ghost done: set<Id>)
    returns (indegree': map<Id, int>, ready': seq<Id>)
    requires Sweeping(table, indegree, ready, done, owed)
    requires forall x | x in owed :: x in table && x !in done
    ensures Sweeping(table, indegree', ready', done, [])
  {
    hide Sweeping;
    indegree', ready' := indegree, ready;
    for i := 0 to |owed|
      invariant Sweeping(table, indegree', ready', done, owed[i..])
    {
      assert owed[i..] == [owed[i]] + owed[i + 1..];
      indegree', ready' := ReleaseOne(table, indegree', ready', owed[i], owed[i + 1..], done);
    }
    assert owed[|owed|..] == [];
  }

  method ReleaseOne(table: map<Id, TaskDefinition>, indegree: map<Id, int>, ready: seq<Id>, x: Id,
                    ghost owed: seq<Id>, ghost done: set<Id>)
    returns (indegree': map<Id, int>, ready': seq<Id>)
    requires Sweeping(table, indegree, ready, done, [x] + owed) && x in table && x !in done
    ensures Sweeping(table, indegree', ready', done, owed)
  {
    hide Outstanding, SortIds;
    assert Counted(table, indegree, done, [x] + owed, x) && Queued(indegree, ready, x);
    indegree', ready' := indegree[x := indegree[x] - 1], ready;
    if indegree'[x] == 0 {
      SortIdsMembers(ready + [x]);
      ready' := SortIds(ready + [x]);
    }
    assert forall y :: multiset([x] + owed)[y] == multiset(owed)[y] + (if y == x then 1 else 0);
    assert forall y :: multiset(ready')[y] == multiset(ready)[y] + (if y == x && indegree'[x] == 0 then 1 else 0);
    forall y | y in table ensures Counted(table, indegree', done, owed, y) {
      assert Counted(table, indegree, done, [x] + owed, y);
    }
    forall y | y in table && y !in done ensures Queued(indegree', ready', y) {
      assert Queued(indegree, ready, y);
    }
    hide Counted, Queued;
  }

  /** The head of the queue has all its dependencies visited, and is queued once. */
  lemma {:induction false} HeadReady(table: map<Id, TaskDefinition>, indegree: map<Id, int>, ready: seq<Id>,
                                     done: set<Id>)
    requires Sweeping(table, indegree, ready, done, []) && ready != []
    ensures ready[0] in table && ready[0] !in done && ready[0] !in ready[1..]
    ensures forall d | d in table[ready[0]].dependencies :: d in done
  {
    var id := ready[0];
    assert ready == [id] + ready[1..];
    assert Queued(indegree, ready, id) && Counted(table, indegree, done, [], id);
    OutstandingZero(table[id].dependencies, done);
    assert id !in multiset(ready[1..]);
  }

  /** Visiting the head of the queue leaves its dependents owed a release. */
  lemma {:induction false} VisitStarts(table: map<Id, TaskDefinition>, indegree: map<Id, int>, owed: seq<Id>,
                                       ready: seq<Id>, done: set<Id>)
    requires Sweeping(table, indegree, ready, done, []) && ready != [] && ready[0] !in done && ready[0] !in ready[1..]
    requires forall x | x in table :: multiset(owed)[x] == multiset(table[x].dependencies)[ready[0]]
    ensures Sweeping(table, indegree, ready[1..], done + {ready[0]}, owed)
  {
    var id, rest := ready[0], ready[1..];
    assert ready == [id] + rest;
    forall x | x in table ensures Counted(table, indegree, done + {id}, owed, x) {
      assert Counted(table, indegree, done, [], x);
      OutstandingVisit(table[x].dependencies, done, id);
    }
    forall x | x in table && x !in done + {id} ensures Queued(indegree, rest, x) {
      assert Queued(indegree, ready, x);
    }
    hide Counted, Queued;
  }

  /** Only unvisited tasks depend on the task being visited. */
  lemma {:induction false} OwedUnvisited(table: map<Id, TaskDefinition>, dependents: map<Id, seq<Id>>, done: set<Id>,
                                         rank: map<Id, nat>, id: Id)
    requires Ranked(table, done, rank) && id in table && id !in done && id !in table[id].dependencies
    requires forall d, x :: EdgeRecorded(table, table.Keys, dependents, d, x)
    ensures forall x | x in Listed(dependents, id) :: x in table && x !in done + {id}
    ensures forall x | x in table :: multiset(Listed(dependents, id))[x] == multiset(table[x].dependencies)[id]
  {
    hide Listed;
    forall x | x in Listed(dependents, id) ensures x in table && x !in done + {id} {
      assert EdgeRecorded(table, table.Keys, dependents, id, x) && Listing(dependents, id, x) > 0;
    }
    forall x | x in table ensures multiset(Listed(dependents, id))[x] == multiset(table[x].dependencies)[id] {
      assert EdgeRecorded(table, table.Keys, dependents, id, x);
    }
  }

  lemma {:induction false} RankVisit(table: map<Id, TaskDefinition>, done: set<Id>, rank: map<Id, nat>, id: Id)
    requires Ranked(table, done, rank) && id in table && id !in done
    requires forall d | d in table[id].dependencies :: d in done
    ensures Ranked(table, done + {id}, rank[id := |done|])
  {
    assert |done + {id}| == |done| + 1;
  }

  /** Visiting the head of the queue. */
  method Visit(table: map<Id, TaskDefinition>, indegree: map<Id, int>, dependents: map<Id, seq<Id>>, ready: seq<Id>,
               ghost done: set<Id>, ghost rank: map<Id, nat>)
    returns (indegree': map<Id, int>, ready': seq<Id>)
    requires ready != [] && Sweeping(table, indegree, ready, done, []) && Ranked(table, done, rank)
    requires forall d, x :: EdgeRecorded(table, table.Keys, dependents, d, x)
    ensures ready[0] in table && ready[0] !in done
    ensures Sweeping(table, indegree', ready', done + {ready[0]}, [])
            && Ranked(table, done + {ready[0]}, rank[ready[0] := |done|])
  {
    hide Sweeping, Ranked, EdgeRecorded, Listed;
    var id := ready[0];
    HeadReady(table, indegree, ready, done);
    OwedUnvisited(table, dependents, done, rank, id);
    VisitStarts(table, indegree, Listed(dependents, id), ready, done);
    RankVisit(table, done, rank, id);
    indegree', ready' := Release(table, indegree, ready[1..], Listed(dependents, id), done + {id});
  }

  /** hasCycle, on a table whose dependencies all exist: it answers false exactly when the tasks can be
      ranked after their dependencies. */
  method HasCycle(table: map<Id, TaskDefinition>) returns (cyclic: bool)
    requires forall id, d | id in table && d in table[id].dependencies :: d in table
    ensures cyclic <==> !Acyclic(Graph(table))
  {
    hide Sweeping, Ranked, Acyclic, EdgeRecorded;
    var indegree, dependents := RecordEdges(table);
    var ready := FirstReady(table, indegree);
    var visited := 0;
    ghost var done: set<Id>, rank: map<Id, nat> := {}, map[];
    RankEmpty(table);
    while ready != []
      invariant Sweeping(table, indegree, ready, done, []) && Ranked(table, done, rank) && visited == |done|
      decreases |table.Keys - done|
    {
      ghost var id := ready[0];
      visited := visited + 1;
      indegree, ready := Visit(table, indegree, dependents, ready, done, rank);
      assert table.Keys - (done + {id}) == table.Keys - done - {id};
      rank := rank[id := |done|];
      done := done + {id};
    }
    cyclic := visited != |table|;
    SweepVerdict(table, indegree, done, rank);
  }

  lemma {:induction false} RankEmpty(table: map<Id, TaskDefinition>)
    ensures Ranked(table, {}, map[])
  {
  }

  lemma {:induction false} Lowest(rank: map<Id, nat>, ids: set<Id>) returns (low: Id)
    requires ids != {} && ids <= rank.Keys
    ensures low in ids && forall id | id in ids :: rank[low] <= rank[id]
  {
    low :| low in ids;
    if ids - {low} != {} {
      var other := Lowest(rank, ids - {low});
      if rank[other] < rank[low] { low := other; }
    }
  }

  /** `id` waits for a task of `stuck`. */
  ghost predicate Blocked(table: map<Id, TaskDefinition>, stuck: set<Id>, id: Id)
    requires id in table
  {
    exists d :: d in table[id].dependencies && d in stuck
  }

  /** Tasks that wait for one another forever admit no ranking. */
  lemma {:induction false} StuckIsCyclic(table: map<Id, TaskDefinition>, stuck: set<Id>)
    requires stuck != {} && stuck <= table.Keys
    requires forall id | id in stuck :: Blocked(table, stuck, id)
    ensures !Acyclic(Graph(table))
  {
    hide Blocked, Ranks;
    forall rank: map<Id, nat> ensures !Ranks(Graph(table), rank) {
      if stuck <= rank.Keys {
        var id := Lowest(rank, stuck);
        Unranked(table, rank, stuck, id);
      } else {
        Unkeyed(table, rank, stuck);
      }
    }
  }

  lemma {:induction false} Unranked(table: map<Id, TaskDefinition>, rank: map<Id, nat>, stuck: set<Id>, id: Id)
    requires id in table && stuck <= rank.Keys && id in stuck && forall x | x in stuck :: rank[id] <= rank[x]
    requires Blocked(table, stuck, id)
    ensures !Ranks(Graph(table), rank)
  {
    var d :| d in table[id].dependencies && d in stuck;
    assert d in Graph(table)[id] && rank[id] <= rank[d];
  }

  lemma {:induction false} Unkeyed(table: map<Id, TaskDefinition>, rank: map<Id, nat>, stuck: set<Id>)
    requires stuck <= table.Keys && !(stuck <= rank.Keys)
    ensures !Ranks(Graph(table), rank)
  {
    assert Graph(table).Keys == table.Keys;
  }

  /** With nothing left in the queue, every unvisited task waits for another. */
  lemma {:induction false} AllBlocked(table: map<Id, TaskDefinition>, indegree: map<Id, int>, done: set<Id>, id: Id)
    requires Sweeping(table, indegree, [], done, []) && id in table && id !in done
    requires forall d | d in table[id].dependencies :: d in table
    ensures Blocked(table, table.Keys - done, id)
  {
    assert Queued(indegree, [], id) && Counted(table, indegree, done, [], id);
    OutstandingZero(table[id].dependencies, done);
    var d :| d in table[id].dependencies && d !in done;
    assert d in table.Keys - done;
  }

  lemma {:induction false} VisitedCount(table: map<Id, TaskDefinition>, done: set<Id>, rank: map<Id, nat>)
    requires Ranked(table, done, rank)
    ensures done <= table.Keys && |table| == |done| + |table.Keys - done|
  {
    assert |table| == |table.Keys|;
    assert table.Keys == done + (table.Keys - done);
  }

  lemma {:induction false} SweepVerdict(table: map<Id, TaskDefinition>, indegree: map<Id, int>, done: set<Id>,
                                        rank: map<Id, nat>)
    requires Sweeping(table, indegree, [], done, []) && Ranked(table, done, rank)
    requires forall id, d | id in table && d in table[id].dependencies :: d in table
    ensures |done| != |table| <==> !Acyclic(Graph(table))
  {
    hide Acyclic, Ranks, Sweeping, Blocked, Ranked;
    var stuck := table.Keys - done;
    forall id | id in stuck ensures Blocked(table, stuck, id) {
      AllBlocked(table, indegree, done, id);
    }
    VisitedCount(table, done, rank);
    if stuck == {} {
      assert done == table.Keys;
      RankingFound(table, rank);
    } else {
      StuckIsCyclic(table, stuck);
    }
  }

  lemma {:induction false} RankingFound(table: map<Id, TaskDefinition>, rank: map<Id, nat>)
    requires Ranked(table, table.Keys, rank)
    ensures Acyclic(Graph(table))
  {
    assert Ranks(Graph(table), rank);
  }

  // ----- ValidateDefinition -----

  /** The checks that ValidateDefinition makes of each task before it looks at the graph. */
  method CheckTasks(tasks: seq<TaskDefinition>) returns (table: Option<map<Id, TaskDefinition>>)
    ensures table.Some? <==> (forall i | 0 <= i < |tasks| :: ValidTask(tasks[i])) && UniqueIds(tasks)
    ensures table.Some? ==> table.value == TaskTable(tasks)
  {
    var seen: map<Id, TaskDefinition> := map[];
    for i := 0 to |tasks|
      invariant seen == TaskTable(tasks[..i])
      invariant (forall j | 0 <= j < i :: ValidTask(tasks[j])) && UniqueIds(tasks[..i])
    {
      var task := tasks[i];
      if Blank(task.id) || BlankText(task.taskType) { return None; }
      if task.id in seen {
        TaskTableFrom(tasks[..i], task.id);
        return None;
      }
      if !ValidRetry(task.retry, task.timeout) { return None; }
      if task.compensation.Some? && BlankText(task.compensation.value) { return None; }
      if task.fanout.Some? {
        var fanout := task.fanout.value;
        if BlankText(fanout.taskType) || Blank(fanout.aggregate) { return None; }
        if fanout.maxItems == 0 || fanout.maxItems > MAX_FANOUT_ITEMS { return None; }
        if !ValidRetry(fanout.retry, fanout.timeout) { return None; }
        if fanout.compensation.Some? && BlankText(fanout.compensation.value) { return None; }
      }
      forall j | 0 <= j < i ensures tasks[j].id != task.id {
        TaskTableAt(tasks[..i], j);
        assert tasks[..i][j] == tasks[j];
      }
      assert tasks[..i + 1][..i] == tasks[..i];
      seen := seen[task.id := task];
    }
    assert tasks[..|tasks|] == tasks;
    return Some(seen);
  }

  /** The checks that ValidateDefinition makes of the edges of one task. */
  method CheckEdges(table: map<Id, TaskDefinition>, task: TaskDefinition) returns (ok: bool)
    ensures ok <==> ValidEdges(table, task)
  {
    var seen: set<Id> := {};
    for i := 0 to |task.dependencies|
      invariant forall x :: x in seen <==> x in task.dependencies[..i]
      invariant task.id !in seen && seen <= table.Keys && Distinct(task.dependencies[..i])
    {
      var dependency := task.dependencies[i];
      if dependency == task.id || dependency !in table { return false; }
      if dependency in seen {
        var j :| 0 <= j < i && task.dependencies[..i][j] == dependency;
        return false;
      }
      assert task.dependencies[..i + 1] == task.dependencies[..i] + [dependency];
      seen := seen + {dependency};
    }
    assert task.dependencies[..|task.dependencies|] == task.dependencies;
    if task.fanout.Some? {
      var aggregate := task.fanout.value.aggregate;
      if aggregate !in table || table[aggregate].id == task.id || task.id !in table[aggregate].dependencies {
        return false;
      }
    }
    return true;
  }

  /** ValidateDefinition accepts exactly the valid definitions. */
  method ValidateDefinition(definition: Option<WorkflowDefinition>) returns (r: Result<()>)
    ensures hide ValidDefinition;
            r == Need(definition.Some? && ValidDefinition(definition.value), ErrInvalidDefinition)
  {
    if definition.None? { return Err(ErrInvalidDefinition); }
    var d := definition.value;
    if BlankText(d.name) || BlankText(d.namespace) || d.startAt < 0 || |d.tasks| == 0 {
      return Err(ErrInvalidDefinition);
    }
    var checked := CheckTasks(d.tasks);
    if checked.None? { return Err(ErrInvalidDefinition); }
    var table := checked.value;
    for i := 0 to |d.tasks|
      invariant forall j | 0 <= j < i :: ValidEdges(table, d.tasks[j])
    {
      var ok := CheckEdges(table, d.tasks[i]);
      if !ok { return Err(ErrInvalidDefinition); }
    }
    forall id, x | id in table && x in table[id].dependencies ensures x in table {
      TaskTableFrom(d.tasks, id);
      var i :| 0 <= i < |d.tasks| && d.tasks[i] == table[id] && d.tasks[i].id == id;
      assert ValidEdges(table, d.tasks[i]);
    }
    var cyclic := HasCycle(table);
    return if cyclic then Err(ErrInvalidDefinition) else Ok(());
  }
}
