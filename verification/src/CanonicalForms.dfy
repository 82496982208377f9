/** The canonical form of a definition: it keeps a definition valid. */
module CanonicalForms {
  import opened Model
  import opened IdOrder
  import opened Definition
  import opened Reducer

  lemma {:induction false} TableMember(tasks: seq<TaskDefinition>, t: TaskDefinition)
    requires UniqueIds(tasks)
    ensures t in tasks <==> t.id in TaskTable(tasks) && TaskTable(tasks)[t.id] == t
  {
    if t in tasks {
      var i :| 0 <= i < |tasks| && tasks[i] == t;
      TaskTableAt(tasks, i);
    }
    if t.id in TaskTable(tasks) { TaskTableFrom(tasks, t.id); }
  }

  lemma {:induction false} UniqueCons(t: TaskDefinition, tasks: seq<TaskDefinition>)
    requires UniqueIds(tasks) && forall y | y in tasks :: y.id != t.id
    ensures UniqueIds([t] + tasks)
  {
  }

  lemma {:induction false} UniqueTail(tasks: seq<TaskDefinition>)
    requires UniqueIds(tasks) && tasks != []
    ensures UniqueIds(tasks[1..]) && forall y | y in tasks[1..] :: y.id != tasks[0].id
  {
  }

  lemma {:induction false} InsertTaskMembers(t: TaskDefinition, tasks: seq<TaskDefinition>)
    ensures forall y :: y in InsertTask(t, tasks) <==> y == t || y in tasks
  {
    if tasks != [] && Before(tasks[0].id, t.id) {
      InsertTaskMembers(t, tasks[1..]);
      assert tasks == [tasks[0]] + tasks[1..];
    }
  }

  lemma {:induction false} InsertTaskUnique(t: TaskDefinition, tasks: seq<TaskDefinition>)
    requires UniqueIds(tasks) && forall y | y in tasks :: y.id != t.id
    ensures UniqueIds(InsertTask(t, tasks))
  {
    if tasks != [] && Before(tasks[0].id, t.id) {
      UniqueTail(tasks);
      assert forall y | y in tasks[1..] :: y in tasks;
      InsertTaskUnique(t, tasks[1..]);
      InsertTaskMembers(t, tasks[1..]);
      UniqueCons(tasks[0], InsertTask(t, tasks[1..]));
    } else {
      UniqueCons(t, tasks);
    }
  }

  lemma {:induction false} CanonicalTasksMembers(tasks: seq<TaskDefinition>)
    ensures forall y :: y in CanonicalTasks(tasks) <==> exists x :: x in tasks && y == CanonicalTask(x)
  {
    if tasks != [] {
      CanonicalTasksMembers(tasks[1..]);
      InsertTaskMembers(CanonicalTask(tasks[0]), CanonicalTasks(tasks[1..]));
      assert tasks == [tasks[0]] + tasks[1..];
      assert forall x :: x in tasks <==> x == tasks[0] || x in tasks[1..];
    }
  }

  lemma {:induction false} CanonicalTasksUnique(tasks: seq<TaskDefinition>)
    requires UniqueIds(tasks)
    ensures UniqueIds(CanonicalTasks(tasks))
    ensures |CanonicalTasks(tasks)| == |tasks|
  {
    if tasks != [] {
      UniqueTail(tasks);
      CanonicalTasksUnique(tasks[1..]);
      CanonicalTasksMembers(tasks[1..]);
      InsertTaskUnique(CanonicalTask(tasks[0]), CanonicalTasks(tasks[1..]));
      InsertTaskLength(CanonicalTask(tasks[0]), CanonicalTasks(tasks[1..]));
    }
  }

  lemma {:induction false} InsertTaskLength(t: TaskDefinition, tasks: seq<TaskDefinition>)
    ensures |InsertTask(t, tasks)| == |tasks| + 1
  {
    if tasks != [] { InsertTaskLength(t, tasks[1..]); }
  }

  /** The canonical table holds the same tasks with their dependencies sorted. */
  lemma {:induction false} CanonicalTable(tasks: seq<TaskDefinition>)
    requires hide CanonicalTask, CanonicalTasks;
             UniqueIds(tasks)
    ensures var table, table' := TaskTable(tasks), TaskTable(CanonicalTasks(tasks));
            && table.Keys == table'.Keys
            && forall id | id in table :: table'[id] == CanonicalTask(table[id])
  {
    hide TaskTable, CanonicalTask;
    CanonicalTasksUnique(tasks);
    CanonicalTasksMembers(tasks);
    var table, table' := TaskTable(tasks), TaskTable(CanonicalTasks(tasks));
    forall id | id in table ensures id in table' && table'[id] == CanonicalTask(table[id]) {
      TaskTableFrom(tasks, id);
      CanonicalTaskId(table[id]);
      TableMember(CanonicalTasks(tasks), CanonicalTask(table[id]));
    }
    forall id | id in table' ensures id in table {
      TaskTableFrom(CanonicalTasks(tasks), id);
      assert table'[id] in CanonicalTasks(tasks);
      var x :| x in tasks && table'[id] == CanonicalTask(x);
      CanonicalTaskId(x);
      TableMember(tasks, x);
    }
  }

  lemma {:induction false} CanonicalTaskId(t: TaskDefinition)
    ensures CanonicalTask(t).id == t.id
  {
  }

  lemma {:induction false} DistinctMultiset(s: seq<Id>, t: seq<Id>)
    requires multiset(s) == multiset(t) && Distinct(s)
    ensures Distinct(t)
  {
    forall i, j | 0 <= i < j < |t| ensures t[i] != t[j] {
      if t[i] == t[j] {
        assert t == t[..j] + [t[j]] + t[j + 1..];
        assert t[i] in multiset(t[..j]) by { assert t[..j][i] == t[i]; }
        assert multiset(t)[t[i]] >= 2;
        DistinctOnce(s, t[i]);
      }
    }
  }

  lemma {:induction false} DistinctOnce(s: seq<Id>, x: Id)
    requires Distinct(s)
    ensures multiset(s)[x] <= 1
  {
    if s != [] {
      assert s == [s[0]] + s[1..];
      DistinctOnce(s[1..], x);
      if x == s[0] {
        assert x !in s[1..];
        assert multiset(s[1..])[x] == 0;
      }
    }
  }

  lemma {:induction false} CanonicalEdges(table: map<Id, TaskDefinition>, table': map<Id, TaskDefinition>,
                                          t: TaskDefinition)
    requires hide CanonicalTask;
             table.Keys == table'.Keys && forall id | id in table :: table'[id] == CanonicalTask(table[id])
    requires ValidEdges(table, t)
    ensures ValidEdges(table', CanonicalTask(t))
  {
    SortIdsMembers(t.dependencies);
    DistinctMultiset(t.dependencies, SortIds(t.dependencies));
    if t.fanout.Some? { SortIdsMembers(table[t.fanout.value.aggregate].dependencies); }
    hide SortIds;
  }

  lemma {:induction false} CanonicalAcyclic(table: map<Id, TaskDefinition>, table': map<Id, TaskDefinition>)
    requires hide CanonicalTask;
             table.Keys == table'.Keys && forall id | id in table :: table'[id] == CanonicalTask(table[id])
    requires Acyclic(Graph(table))
    ensures Acyclic(Graph(table'))
  {
    hide SortIds;
    var rank :| Ranks(Graph(table), rank);
    forall id, d | id in Graph(table') && d in Graph(table')[id] ensures d in rank && rank[d] < rank[id] {
      SortIdsMembers(table[id].dependencies);
      assert d in Graph(table)[id];
    }
    assert Ranks(Graph(table'), rank);
  }

  /** Canonical form keeps a definition valid, so a submission that validates is accepted. */
  lemma {:induction false} CanonicalValid(d: WorkflowDefinition)
    requires ValidDefinition(d)
    ensures ValidDefinition(Canonical(d))
  {
    var tasks, tasks' := d.tasks, CanonicalTasks(d.tasks);
    var table, table' := TaskTable(tasks), TaskTable(tasks');
    CanonicalTable(tasks);
    CanonicalTasksUnique(tasks);
    CanonicalTasksMembers(tasks);
    CanonicalAcyclic(table, table');
    hide TaskTable, CanonicalTasks, Acyclic, ValidEdges, SortIds;
    forall i | 0 <= i < |tasks'| ensures ValidTask(tasks'[i]) && ValidEdges(table', tasks'[i]) {
      assert tasks'[i] in tasks';
      var x :| x in tasks && tasks'[i] == CanonicalTask(x);
      var j :| 0 <= j < |tasks| && tasks[j] == x;
      assert ValidEdges(table, tasks[j]) && ValidTask(tasks[j]);
      CanonicalEdges(table, table', x);
    }
  }

  lemma {:induction false} FreshTask(d: WorkflowDefinition, id: Id)
    requires hide ValidDefinition, ValidTask;
             ValidDefinition(d) && id in FreshTasks(d.tasks)
    ensures var t := FreshTasks(d.tasks)[id];
            && t == Task(t.definition, TaskPending) && t.definition in d.tasks && t.definition == TaskTable(d.tasks)[id]
            && ValidTask(t.definition) && t.definition.id == id && ValidEdges(TaskTable(d.tasks), t.definition)
  {
    TaskTableFrom(d.tasks, id);
    var i :| 0 <= i < |d.tasks| && d.tasks[i] == TaskTable(d.tasks)[id] && d.tasks[i].id == id;
    assert ValidTask(d.tasks[i]) && ValidEdges(TaskTable(d.tasks), d.tasks[i]);
  }
}
