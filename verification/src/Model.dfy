/** The records of internal/core/types.go and the identifiers of internal/core/ids.go. */
module Model {
  import opened Base

  datatype WorkflowStatus =
    | WorkflowScheduled | WorkflowRunning | WorkflowCompleted | WorkflowFailed
    | WorkflowCancelled | WorkflowCompensating | WorkflowCompensated

  datatype TaskStatus =
    | TaskPending | TaskReady | TaskRunning | TaskCompleted | TaskFailed
    | TaskCancelled | TaskCompensating | TaskCompensated

  datatype TimerStatus = TimerScheduled | TimerFired | TimerCancelled

  datatype TimerPurpose = TimerWorkflowStart | TimerRetry | TimerTimeout | TimerUnknown

  datatype CommandKind =
    | CommandSubmit | CommandStart | CommandComplete | CommandFail | CommandRenew
    | CommandExpire | CommandFireTimer | CommandCancel | CommandUnknown

  datatype EventKind =
    | EventWorkflowSubmitted | EventTaskReady | EventTaskStarted | EventTaskCompleted | EventTaskFailed
    | EventWorkflowCompleted | EventWorkflowFailed | EventLeaseRenewed | EventLeaseExpired
    | EventWorkflowStarted | EventFanoutExpanded | EventTimerScheduled | EventTimerFired
    | EventTimerCancelled | EventTaskRetryScheduled | EventTaskTimedOut | EventTaskCancelled
    | EventWorkflowCancellationRequested | EventWorkflowCompensating | EventTaskCompensated
    | EventWorkflowCancelled | EventWorkflowCompensated | EventUnknown

  /** The prefix of a derived identifier, with the parts that are not identifiers themselves. */
  datatype IdKind =
    | WorkflowKind | AttemptKind | IdempotencyKind | CompensationIdempotencyKind | FanoutKind
    | TimerKind(purpose: TimerPurpose) | LeaseRequestKind | CompletionRequestKind | TimerRequestKind
    | EventIdKind(event: EventKind)

  /** An identifier is caller-supplied text or the digest of a prefix and its parts. The digest is
      taken to be injective and never equal to caller-supplied text that was not itself derived; a
      caller may still supply any value of the type, a derived one included. */
  datatype Id =
    | Text(text: string)
    | Digest(kind: IdKind, first: Id, second: Id, key: string, ordinal: nat)

  const NO_ID := Text("")

  /** strings.TrimSpace(id) == "" */
  predicate Blank(id: Id) {
    id.Text? && BlankText(id.text)
  }

  function WorkflowID(namespace: string, request: Id): Id {
    Digest(WorkflowKind, request, NO_ID, namespace, 0)
  }

  function AttemptID(workflow: Id, task: Id, attempt: uint32): Id {
    Digest(AttemptKind, workflow, task, "", attempt)
  }

  function IdempotencyKey(workflow: Id, task: Id): Id {
    Digest(IdempotencyKind, workflow, task, "", 0)
  }

  function CompensationIdempotencyKey(workflow: Id, task: Id): Id {
    Digest(CompensationIdempotencyKind, workflow, task, "", 0)
  }

  function FanoutTaskID(workflow: Id, parent: Id, key: string): Id {
    Digest(FanoutKind, workflow, parent, key, 0)
  }

  function TimerID(workflow: Id, task: Id, purpose: TimerPurpose, ordinal: uint32): Id {
    Digest(TimerKind(purpose), workflow, task, "", ordinal)
  }

  function LeaseRequestID(workflow: Id, task: Id, attempt: uint32): Id {
    Digest(LeaseRequestKind, workflow, task, "", attempt)
  }

  function CompletionRequestID(attempt: Id, fence: uint64): Id {
    Digest(CompletionRequestKind, attempt, NO_ID, "", fence)
  }

  function TimerRequestID(timer: Id): Id {
    Digest(TimerRequestKind, timer, NO_ID, "", 0)
  }

  function EventID(workflow: Id, sequence: uint64, kind: EventKind): Id {
    Digest(EventIdKind(kind), workflow, NO_ID, "", sequence)
  }

  const MAX_FANOUT_ITEMS: uint32 := 10000

  datatype RetryPolicy = RetryPolicy(maxAttempts: uint32, initialBackoff: int64, multiplier: uint32, maxBackoff: int64)

  /** A compensation definition is the task type that runs it. */
  datatype FanoutDefinition = FanoutDefinition(
    taskType: string, aggregate: Id, maxItems: uint32, retry: RetryPolicy, timeout: int64,
    compensation: Option<string>)

  datatype FanoutItem = FanoutItem(key: string, payload: map<string, string>)

  datatype TaskDefinition = TaskDefinition(
    id: Id, taskType: string, dependencies: seq<Id>, retry: RetryPolicy, timeout: int64,
    compensation: Option<string>, fanout: Option<FanoutDefinition>)

  datatype ExpandedTask = ExpandedTask(key: string, definition: TaskDefinition, payload: map<string, string>)

  datatype WorkflowDefinition = WorkflowDefinition(name: string, namespace: string, startAt: int64,
      tasks: seq<TaskDefinition>)

  datatype Command = Command(
    kind: CommandKind, request: Id, at: int64, workflow: Id := NO_ID, task: Id := NO_ID,
    attemptId: Id := NO_ID, definition: Option<WorkflowDefinition> := None, output: map<string, string> := map[],
    error: string := "", worker: string := "", leaseUntil: int64 := 0, fence: uint64 := 0,
    timer: Id := NO_ID, fanout: seq<FanoutItem> := [], reason: string := "")

  /** HashCommand keeps the fields that its kind of command uses; the digest of what it keeps is
      injective. `PlanHash` is the placeholder that plans carry before stamping. */
  datatype Hash = NoHash | PlanHash | HashOf(command: Command)

  datatype Timer = Timer(
    id: Id, task: Id, purpose: TimerPurpose, deadline: int64, attemptId: Id, attempt: uint32,
    fence: uint64, status: TimerStatus)

  datatype Event = Event(
    kind: EventKind, workflow: Id, at: int64, task: Id := NO_ID, attemptId: Id := NO_ID, attempt: uint32 := 0,
    definition: Option<WorkflowDefinition> := None, inputs: map<Id, map<string, string>> := map[],
    output: map<string, string> := map[], error: string := "", worker: string := "", leaseUntil: int64 := 0,
    fence: uint64 := 0, idempotency: Id := NO_ID, timer: Option<Timer> := None,
    expanded: seq<ExpandedTask> := [], reason: string := "", compensation: bool := false,
    id: Id := NO_ID, sequence: uint64 := 0, request: Id := NO_ID, hash: Hash := NoHash)

  datatype Task = Task(
    definition: TaskDefinition, status: TaskStatus, attempt: uint32 := 0, attemptId: Id := NO_ID,
    inputs: map<Id, map<string, string>> := map[], output: map<string, string> := map[], error: string := "",
    startedAt: int64 := 0, finishedAt: int64 := 0, worker: string := "", leaseUntil: int64 := 0,
    fence: uint64 := 0, idempotency: Id := NO_ID, retryCount: uint32 := 0, completedSequence: uint64 := 0,
    children: seq<Id> := [], payload: map<string, string> := map[], fanoutExpanded: bool := false,
    compensation: bool := false)

  datatype Workflow = Workflow(
    id: Id, name: string, namespace: string, status: WorkflowStatus, version: uint64, updatedAt: int64,
    tasks: map<Id, Task>, timers: map<Id, Timer>)

  predicate Terminal(status: WorkflowStatus) {
    status in {WorkflowCompleted, WorkflowFailed, WorkflowCancelled, WorkflowCompensated}
  }

  /** The statuses in which a task still holds reserved capacity. */
  predicate Active(status: TaskStatus) {
    status in {TaskPending, TaskReady, TaskRunning, TaskCompensating}
  }

  /** A worker holds the task. */
  predicate Leased(task: Task) {
    task.status == TaskRunning || (task.status == TaskCompensating && task.worker != "")
  }

  /** A worker may be given the task. */
  predicate Startable(task: Task) {
    task.status == TaskReady || (task.status == TaskCompensating && task.worker == "")
  }

  /** CommandBatch */
  datatype Batch = Batch(version: nat, request: Id, hash: Hash, workflow: Id, events: seq<Event>)
}

/** The order in which the source sorts identifiers. The source compares the text of digests; any
    strict total order serves, so derived identifiers are compared part by part. */
module IdOrder {
  import opened Base
  import opened Model

  function KindRank(kind: IdKind): nat {
    match kind
    case WorkflowKind => 0
    case AttemptKind => 1
    case IdempotencyKind => 2
    case CompensationIdempotencyKind => 3
    case FanoutKind => 4
    case LeaseRequestKind => 5
    case CompletionRequestKind => 6
    case TimerRequestKind => 7
    case TimerKind(purpose) => 8 + PurposeRank(purpose)
    case EventIdKind(event) => 12 + EventRank(event)
  }

  function PurposeRank(purpose: TimerPurpose): (r: nat)
    ensures r < 4
  {
    match purpose
    case TimerWorkflowStart => 0
    case TimerRetry => 1
    case TimerTimeout => 2
    case TimerUnknown => 3
  }

  function EventRank(kind: EventKind): nat {
    match kind
    case EventWorkflowSubmitted => 0 case EventTaskReady => 1 case EventTaskStarted => 2
    case EventTaskCompleted => 3 case EventTaskFailed => 4 case EventWorkflowCompleted => 5
    case EventWorkflowFailed => 6 case EventLeaseRenewed => 7 case EventLeaseExpired => 8
    case EventWorkflowStarted => 9 case EventFanoutExpanded => 10 case EventTimerScheduled => 11
    case EventTimerFired => 12 case EventTimerCancelled => 13 case EventTaskRetryScheduled => 14
    case EventTaskTimedOut => 15 case EventTaskCancelled => 16
    case EventWorkflowCancellationRequested => 17 case EventWorkflowCompensating => 18
    case EventTaskCompensated => 19 case EventWorkflowCancelled => 20
    case EventWorkflowCompensated => 21 case EventUnknown => 22
  }

  predicate Before(a: Id, b: Id)
    decreases a
  {
    match (a, b)
    case (Text(_), Digest(_, _, _, _, _)) => true
    case (Digest(_, _, _, _, _), Text(_)) => false
    case (Text(s), Text(t)) => TextBefore(s, t)
    case (Digest(k, f, s, t, n), Digest(k', f', s', t', n')) =>
      if k != k' then KindRank(k) < KindRank(k')
      else if f != f' then Before(f, f')
      else if s != s' then Before(s, s')
      else if t != t' then TextBefore(t, t')
      else n < n'
  }

  lemma {:induction false} Trichotomy(a: Id, b: Id)
    ensures a == b || Before(a, b) || Before(b, a)
    ensures !(Before(a, b) && Before(b, a))
    decreases a
  {
    match (a, b)
    case (Text(s), Text(t)) => TextTrichotomy(s, t);
    case (Digest(k, f, s, t, n), Digest(k', f', s', t', n')) =>
      Trichotomy(f, f');
      Trichotomy(s, s');
      TextTrichotomy(t, t');
    case _ =>
  }

  lemma {:induction false} Transitive(a: Id, b: Id, c: Id)
    requires Before(a, b) && Before(b, c)
    ensures Before(a, c)
    decreases a
  {
    match (a, b, c)
    case (Text(s), Text(t), Text(u)) => TextTransitive(s, t, u);
    case (Digest(k, f, s, t, n), Digest(k', f', s', t', n'), Digest(k'', f'', s'', t'', n'')) =>
      if k == k' == k'' {
        Trichotomy(f, f');
        Trichotomy(s, s');
        TextTrichotomy(t, t');
        if f != f' {
          if f' != f'' { Transitive(f, f', f''); }
        } else if f' == f'' {
          if s != s' {
            if s' != s'' { Transitive(s, s', s''); }
          } else if s' == s'' && t != t' && t' != t'' {
            TextTransitive(t, t', t'');
          }
        }
      }
    case _ =>
  }

  /** The least identifier of a set. */
  function Least(ids: set<Id>): (least: Id)
    requires hide Before;
             ids != {}
    ensures least in ids && forall x | x in ids :: x == least || Before(least, x)
  {
    LeastExists(ids);
    LeastUnique(ids);
    var least :| least in ids && forall x | x in ids :: x == least || Before(least, x);
    least
  }

  lemma {:induction false} LeastExists(ids: set<Id>)
    requires ids != {}
    ensures exists m :: m in ids && forall x | x in ids :: x == m || Before(m, x)
  {
    hide Before;
    var a :| a in ids;
    if ids - {a} == {} {
      assert ids == {a};
      assert forall x | x in ids :: x == a || Before(a, x);
    } else {
      LeastExists(ids - {a});
      var m :| m in ids - {a} && forall x | x in ids - {a} :: x == m || Before(m, x);
      Trichotomy(a, m);
      if Before(a, m) {
        forall x | x in ids ensures x == a || Before(a, x) {
          if x != a && x != m { Transitive(a, m, x); }
        }
      } else {
        assert forall x | x in ids :: x == m || Before(m, x);
      }
    }
  }

  lemma {:induction false} LeastUnique(ids: set<Id>)
    ensures forall m, n |
              && m in ids && (forall x | x in ids :: x == m || Before(m, x))
              && n in ids && (forall x | x in ids :: x == n || Before(n, x)) :: m == n
  {
    forall m, n | && m in ids && (forall x | x in ids :: x == m || Before(m, x))
                  && n in ids && (forall x | x in ids :: x == n || Before(n, x))
      ensures m == n
    {
      Trichotomy(m, n);
    }
  }

  /** Strictly increasing. */
  predicate Increasing(s: seq<Id>) {
    forall i, j | 0 <= i < j < |s| :: Before(s[i], s[j])
  }

  /** sort.Strings over the keys of a map. */
  function SortedIds(ids: set<Id>): (r: seq<Id>)
    ensures forall x :: x in r <==> x in ids
    ensures Increasing(r)
  {
    if ids == {} then []
    else
      var least := Least(ids);
      var rest := SortedIds(ids - {least});
      IncreasingCons(least, rest);
      [least] + rest
  }

  lemma {:induction false} IncreasingCons(least: Id, rest: seq<Id>)
    requires Increasing(rest)
    requires forall x | x in rest :: Before(least, x)
    ensures Increasing([least] + rest)
  {
    var r := [least] + rest;
    forall i, j | 0 <= i < j < |r| ensures Before(r[i], r[j]) {
      assert r[j] == rest[j - 1];
      if i > 0 { assert r[i] == rest[i - 1]; }
    }
  }

  /** A strictly increasing sequence is determined by its elements. */
  lemma {:induction false} IncreasingUnique(s: seq<Id>, t: seq<Id>)
    requires forall x :: x in s <==> x in t
    requires Increasing(s) && Increasing(t)
    ensures s == t
    decreases |s|
  {
    if t != [] { assert t[0] in s; }
    if s != [] {
      assert s[0] in t;
      Trichotomy(s[0], t[0]);
      assert s[0] == t[0];
      Trichotomy(s[0], s[0]);
      var a, b := s[1..], t[1..];
      assert s == [s[0]] + a && t == [t[0]] + b;
      assert s[0] !in a && s[0] !in b;
      forall x ensures x in a <==> x in b {
        assert x in a <==> x in s && x != s[0];
        assert x in b <==> x in t && x != s[0];
      }
      IncreasingUnique(a, b);
    }
  }

  /** sort.Strings. */
  function SortIds(s: seq<Id>): (r: seq<Id>)
    ensures multiset(r) == multiset(s)
  {
    if s == [] then []
    else
      assert s == [s[0]] + s[1..];
      Insert(s[0], SortIds(s[1..]))
  }

  function Insert(x: Id, s: seq<Id>): (r: seq<Id>)
    ensures multiset(r) == multiset(s) + multiset{x}
  {
    hide Before;
    if s == [] then [x]
    else if Before(s[0], x) then
      assert s == [s[0]] + s[1..];
      [s[0]] + Insert(x, s[1..])
    else [x] + s
  }

  lemma {:induction false} SortIdsMembers(s: seq<Id>)
    ensures forall x :: x in SortIds(s) <==> x in s
    ensures |SortIds(s)| == |s|
  {
    forall x ensures x in SortIds(s) <==> x in s {
      assert x in SortIds(s) <==> x in multiset(SortIds(s));
      assert x in s <==> x in multiset(s);
    }
    assert |multiset(SortIds(s))| == |multiset(s)|;
  }
}
