/** Workflow definitions: ValidateDefinition, hasCycle and canonicalDefinition. */
module Definition {
  import opened Base
  import opened Model
  import opened IdOrder
  import opened Backoff

  predicate ValidCompensation(compensation: Option<string>) {
    compensation.Some? ==> !BlankText(compensation.value)
  }

  predicate ValidFanout(fanout: FanoutDefinition) {
    && !BlankText(fanout.taskType) && !Blank(fanout.aggregate)
    && 0 < fanout.maxItems <= MAX_FANOUT_ITEMS
    && ValidRetry(fanout.retry, fanout.timeout)
    && ValidCompensation(fanout.compensation)
  }

  /** What ValidateDefinition asks of one task taken alone. */
  predicate ValidTask(task: TaskDefinition) {
    && !Blank(task.id) && !BlankText(task.taskType)
    && ValidRetry(task.retry, task.timeout)
    && ValidCompensation(task.compensation)
    && (task.fanout.Some? ==> ValidFanout(task.fanout.value))
  }

  predicate Distinct<T(==)>(s: seq<T>) {
    forall i, j | 0 <= i < j < |s| :: s[i] != s[j]
  }

  /** `rank` orders every task of `graph` after all its dependencies. */
  ghost predicate Ranks(graph: map<Id, seq<Id>>, rank: map<Id, nat>) {
    && graph.Keys <= rank.Keys
    && forall id, d | id in graph && d in graph[id] :: d in rank && rank[d] < rank[id]
  }

  /** A dependency ranking exists. */
  ghost predicate Acyclic(graph: map<Id, seq<Id>>) {
    exists rank :: Ranks(graph, rank)
  }

  predicate UniqueIds(tasks: seq<TaskDefinition>) {
    forall i, j | 0 <= i < j < |tasks| :: tasks[i].id != tasks[j].id
  }

  /** The task table that ValidateDefinition fills; a later task with the same id would win. */
  function TaskTable(tasks: seq<TaskDefinition>): map<Id, TaskDefinition> {
    if tasks == [] then map[]
    else TaskTable(tasks[..|tasks| - 1])[tasks[|tasks| - 1].id := tasks[|tasks| - 1]]
  }

  lemma {:induction false} TaskTableFrom(tasks: seq<TaskDefinition>, id: Id)
    requires id in TaskTable(tasks)
    ensures exists i :: 0 <= i < |tasks| && tasks[i] == TaskTable(tasks)[id] && tasks[i].id == id
  {
    var front, last := tasks[..|tasks| - 1], tasks[|tasks| - 1];
    if id == last.id {
      assert tasks[|tasks| - 1] == TaskTable(tasks)[id];
    } else {
      TaskTableFrom(front, id);
      var i :| 0 <= i < |front| && front[i] == TaskTable(front)[id] && front[i].id == id;
      assert tasks[i] == TaskTable(tasks)[id];
    }
  }

  lemma {:induction false} TaskTableAt(tasks: seq<TaskDefinition>, i: nat)
    requires i < |tasks| && UniqueIds(tasks)
    ensures tasks[i].id in TaskTable(tasks) && TaskTable(tasks)[tasks[i].id] == tasks[i]
  {
    var front := tasks[..|tasks| - 1];
    if i < |front| {
      TaskTableAt(front, i);
      assert front[i] == tasks[i];
    }
  }

  function Graph(table: map<Id, TaskDefinition>): map<Id, seq<Id>> {
    map id | id in table :: table[id].dependencies
  }

  /** What ValidateDefinition asks of one task among the others. */
  predicate ValidEdges(table: map<Id, TaskDefinition>, task: TaskDefinition) {
    && task.id !in task.dependencies
    && (forall d | d in task.dependencies :: d in table)
    && Distinct(task.dependencies)
    && (task.fanout.Some? ==>
          var aggregate := task.fanout.value.aggregate;
          && aggregate in table && table[aggregate].id != task.id
          && task.id in table[aggregate].dependencies)
  }

  /** ValidateDefinition accepts; every refusal is ErrInvalidDefinition. */
  ghost predicate ValidDefinition(definition: WorkflowDefinition) {
    hide ValidTask;
    var table := TaskTable(definition.tasks);
    && !BlankText(definition.name) && !BlankText(definition.namespace)
    && definition.startAt >= 0 && |definition.tasks| > 0
    && (forall i | 0 <= i < |definition.tasks| :: ValidTask(definition.tasks[i]))
    && UniqueIds(definition.tasks)
    && (forall i | 0 <= i < |definition.tasks| :: ValidEdges(table, definition.tasks[i]))
    && Acyclic(Graph(table))
  }

  function CanonicalTask(task: TaskDefinition): TaskDefinition {
    task.(dependencies := SortIds(task.dependencies))
  }

  /** Insertion sort of task definitions by identifier. */
  function InsertTask(task: TaskDefinition, tasks: seq<TaskDefinition>): seq<TaskDefinition> {
    if tasks == [] then [task]
    else if Before(tasks[0].id, task.id) then [tasks[0]] + InsertTask(task, tasks[1..])
    else [task] + tasks
  }

  function CanonicalTasks(tasks: seq<TaskDefinition>): seq<TaskDefinition> {
    if tasks == [] then [] else InsertTask(CanonicalTask(tasks[0]), CanonicalTasks(tasks[1..]))
  }

  function Canonical(definition: WorkflowDefinition): WorkflowDefinition {
    definition.(tasks := CanonicalTasks(definition.tasks))
  }
}
