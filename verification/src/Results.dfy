/** Every attempt is reported at most once, so that task results are identified by it; and the segments they are
    stored in. */
module Results {
  import opened Base
  import opened IdOrder
  import opened CanonicalForms
  import opened Model
  import opened Definition
  import opened Reducer
  import opened Lawfulness
  import opened Ledgers
  import opened Sorting
  import opened Filings
  import Segments
  import opened Archives

  /** The event reports the end of an attempt: the kinds for which taskResult of internal/storage/application.go gives
      a result. */
  predicate IsReport(kind: EventKind) {
    kind in {EventTaskCompleted, EventTaskFailed, EventTaskTimedOut, EventTaskCompensated}
  }

  // ----- What no event takes back -----

  predicate Typed(t: Task) {
    && t.definition.taskType != "" && t.definition.compensation != Some("")
    && (t.definition.fanout.Some? ==>
          t.definition.fanout.value.taskType != "" && t.definition.fanout.value.compensation != Some(""))
    && (Leased(t) ==> t.attempt > 0)
  }

  predicate AllTyped(tasks: map<Id, Task>) {
    forall id | id in tasks :: Typed(tasks[id])
  }

  /** A later state of a task: its definition keeps all but the dependencies, and a lease of the same attempt is not
      given again. */
  predicate MovesOn(t: Task, t': Task) {
    && t'.definition.(dependencies := t.definition.dependencies) == t.definition
    && t.attempt <= t'.attempt && (t.attempt == t'.attempt && Leased(t') ==> Leased(t))
  }

  predicate AllMoveOn(tasks: map<Id, Task>, tasks': map<Id, Task>) {
    forall id | id in tasks :: id in tasks' && MovesOn(tasks[id], tasks'[id])
  }

  predicate Passes(tasks: map<Id, Task>, tasks': map<Id, Task>) {
    AllMoveOn(tasks, tasks') && (AllTyped(tasks) ==> AllTyped(tasks'))
  }

  lemma {:induction false} OnePasses(tasks: map<Id, Task>, id: Id, t: Task)
    requires id in tasks && MovesOn(tasks[id], t) && (Typed(tasks[id]) ==> Typed(t))
    ensures Passes(tasks, tasks[id := t])
  {
  }

  lemma {:induction false} ChildrenPass(w: Id, tasks: map<Id, Task>, all: map<Id, Task>, parent: TaskDefinition,
                                        fanout: FanoutDefinition, expanded: seq<ExpandedTask>)
    requires CanonicalExpansion(w, all, parent, fanout, expanded) && tasks.Keys <= all.Keys
    ensures AllMoveOn(tasks, WithChildren(tasks, expanded))
    ensures AllTyped(tasks) && fanout.taskType != "" && fanout.compensation != Some("")
            ==> AllTyped(WithChildren(tasks, expanded))
  {
    if expanded != [] {
      var front, last := expanded[..|expanded| - 1], expanded[|expanded| - 1];
      assert CanonicalExpansion(w, all, parent, fanout, front) by {
        forall i | 0 <= i < |front| ensures KeyFollows(front, i) { assert KeyFollows(expanded, i); }
      }
      ChildrenPass(w, tasks, all, parent, fanout, front);
      assert last.definition == ExpandedDefinition(w, parent, fanout, last.key) && last.definition.id !in all;
    }
  }

  lemma {:induction false} ExpansionPasses(s: Workflow, e: Event)
    requires hide ApplyFanoutExpanded, Passes;
             ApplyFanoutExpanded(s, e).Ok?
    ensures Passes(s.tasks, ApplyFanoutExpanded(s, e).value.tasks)
  {
    hide SortIds, WithChildren;
    var fanout := s.tasks[e.task].definition.fanout.value;
    ChildrenPass(s.id, s.tasks, s.tasks, s.tasks[e.task].definition, fanout, e.expanded);
    var all, s' := WithChildren(s.tasks, e.expanded), ApplyFanoutExpanded(s, e).value;
    hide CanonicalExpansion;
    forall id | id in s.tasks ensures id in s'.tasks && MovesOn(s.tasks[id], s'.tasks[id]) {
      assert MovesOn(s.tasks[id], all[id]);
    }
    if AllTyped(s.tasks) {
      assert Typed(s.tasks[e.task]);
      forall id | id in s'.tasks ensures Typed(s'.tasks[id]) {
        if id in all { assert Typed(all[id]); }
      }
    }
  }

  lemma {:induction false} WorkPasses(s: Workflow, e: Event)
    requires hide Lawful, Passes, Transition;
             Lawful(s) && Transition(s, e).Ok?
    requires e.kind in {EventTaskReady, EventTaskStarted, EventTaskRetryScheduled, EventTaskCancelled,
             EventWorkflowCompensating}
    ensures Passes(s.tasks, Transition(s, e).value.tasks)
  {
    hide DependenciesCompleted, Waiting, ApplyFanoutExpanded, ApplyWorkflowCancelled, ApplyWorkflowCompensated;
    var s' := Transition(s, e).value;
    assert LawfulTask(s.id, e.task, s.tasks[e.task]);
    hide Lawful, Passes;
    OnePasses(s.tasks, e.task, s'.tasks[e.task]);
  }

  lemma {:induction false} AttemptPasses(s: Workflow, e: Event)
    requires hide Passes, Transition;
             Transition(s, e).Ok?
    requires e.kind in {EventTaskCompleted, EventTaskFailed, EventLeaseRenewed, EventLeaseExpired, EventTaskTimedOut,
             EventTaskCompensated}
    ensures Passes(s.tasks, Transition(s, e).value.tasks)
  {
    hide TimeoutDue, ScheduledTimer, Passes, ApplyFanoutExpanded, ApplyTimerScheduled, ApplyWorkflowCancelled,
        ApplyWorkflowCompensated, ApplyWorkflowCompensating;
    var s' := Transition(s, e).value;
    OnePasses(s.tasks, e.task, s'.tasks[e.task]);
  }

  lemma {:induction false} SamePasses(tasks: map<Id, Task>)
    ensures Passes(tasks, tasks)
  {
  }

  /** Whatever the event, definitions keep their types, attempts do not go back and leases are not given twice. */
  lemma {:induction false} TransitionPasses(s: Workflow, e: Event)
    requires hide Lawful, Passes, Transition;
             Lawful(s) && Transition(s, e).Ok?
    ensures Passes(s.tasks, Transition(s, e).value.tasks)
  {
    hide Lawful, Passes, DependenciesCompleted, Waiting, ApplyFanoutExpanded, NextCompensation, HasActive,
        HasScheduledTimers, AllCompleted;
    match e.kind {
      case EventFanoutExpanded => ExpansionPasses(s, e);
      case EventTaskReady | EventTaskStarted | EventTaskRetryScheduled | EventTaskCancelled
         | EventWorkflowCompensating => WorkPasses(s, e);
      case EventTaskCompleted | EventTaskFailed | EventLeaseRenewed | EventLeaseExpired | EventTaskTimedOut
         | EventTaskCompensated => AttemptPasses(s, e);
      case _ => SamePasses(s.tasks);
    }
  }

  lemma {:induction false} FreshTyped(e: Event)
    requires hide AllTyped, ApplySubmission;
             ApplySubmission(e).Ok?
    ensures AllTyped(ApplySubmission(e).value.tasks)
  {
    hide Canonical, CanonicalTasks, ValidDefinition;
    var d := Canonical(e.definition.value);
    CanonicalValid(e.definition.value);
    forall id | id in FreshTasks(d.tasks) ensures Typed(FreshTasks(d.tasks)[id]) {
      FreshTask(d, id);
      NotBlank(FreshTasks(d.tasks)[id].definition);
    }
  }

  lemma {:induction false} NotBlank(t: TaskDefinition)
    requires ValidTask(t)
    ensures t.taskType != "" && t.compensation != Some("")
    ensures t.fanout.Some? ==> t.fanout.value.taskType != "" && t.fanout.value.compensation != Some("")
  {
    assert BlankText("");
  }

  // ----- One report of each attempt -----

  /** What an event that reports an attempt found, and what it leaves. */
  ghost predicate Reports(w: Id, e: Event, before: map<Id, Task>, after: map<Id, Task>) {
    && e.task in before && e.task in after && e.task != NO_ID
    && Leased(before[e.task]) && before[e.task].attempt == e.attempt && e.attemptId == AttemptID(w, e.task, e.attempt)
    && !Leased(after[e.task]) && after[e.task].attempt == e.attempt
    && (e.kind == EventTaskCompleted ==> !e.compensation) && (e.kind == EventTaskCompensated ==> e.compensation)
  }

  lemma {:induction false} ReportsOne(s: Workflow, e: Event)
    requires hide Lawful, Reports, Transition;
             Lawful(s) && IsReport(e.kind) && Transition(s, e).Ok?
    ensures Reports(s.id, e, s.tasks, Transition(s, e).value.tasks)
  {
    hide TimeoutDue, ScheduledTimer;
    assert e.task in s.tasks && LawfulTask(s.id, e.task, s.tasks[e.task]);
    hide Lawful;
  }

  /** A report in the history of a state: its attempt has been made, and is over. */
  ghost predicate Over(w: Id, tasks: map<Id, Task>, e: Event) {
    && e.task in tasks && e.task != NO_ID && e.attemptId == AttemptID(w, e.task, e.attempt)
    && 0 < e.attempt <= tasks[e.task].attempt && (e.attempt == tasks[e.task].attempt ==> !Leased(tasks[e.task]))
    && (e.kind == EventTaskCompleted ==> !e.compensation) && (e.kind == EventTaskCompensated ==> e.compensation)
  }

  ghost predicate AllOver(w: Id, tasks: map<Id, Task>, events: seq<Event>) {
    forall k | 0 <= k < |events| && IsReport(events[k].kind) :: Over(w, tasks, events[k])
  }

  /** No two reports name the same attempt of the same task. */
  predicate ReportedOnce(events: seq<Event>) {
    forall j, k | 0 <= j < k < |events| && IsReport(events[j].kind) && IsReport(events[k].kind) ::
      events[j].task == events[k].task ==> events[j].attemptId != events[k].attemptId
  }

  ghost predicate Told(s: Workflow, events: seq<Event>) {
    Lawful(s) && AllTyped(s.tasks) && AllOver(s.id, s.tasks, events) && ReportedOnce(events)
  }

  lemma {:induction false} OverStays(w: Id, tasks: map<Id, Task>, tasks': map<Id, Task>, e: Event)
    requires Over(w, tasks, e) && AllMoveOn(tasks, tasks')
    ensures Over(w, tasks', e)
  {
    assert MovesOn(tasks[e.task], tasks'[e.task]);
  }

  lemma {:induction false} NewReport(s: Workflow, events: seq<Event>, e: Event, tasks': map<Id, Task>)
    requires AllTyped(s.tasks) && AllOver(s.id, s.tasks, events) && ReportedOnce(events)
    requires IsReport(e.kind) && Reports(s.id, e, s.tasks, tasks')
    ensures Over(s.id, tasks', e) && ReportedOnce(events + [e])
  {
    var all := events + [e];
    assert Typed(s.tasks[e.task]);
    forall j, k | 0 <= j < k < |all| && IsReport(all[j].kind) && IsReport(all[k].kind) && all[j].task == all[k].task
      ensures all[j].attemptId != all[k].attemptId
    {
      assert all[j] == events[j];
      if k == |events| { assert Over(s.id, s.tasks, events[j]); } else { assert all[k] == events[k]; }
    }
  }

  lemma {:induction false} ToldLonger(s: Workflow, events: seq<Event>, e: Event)
    requires hide ApplyEvent, Told;
             Told(s, events) && ApplyEvent(Some(s), e).Ok?
    ensures Told(ApplyEvent(Some(s), e).value, events + [e])
  {
    ApplyLawful(Some(s), e);
    hide Transition, Lawful;
    TransitionPasses(s, e);
    TransitionLawful(s, e);
    if IsReport(e.kind) { ReportsOne(s, e); }
    var s', all := ApplyEvent(Some(s), e).value, events + [e];
    hide ApplyEvent, AllTyped, Reports;
    if IsReport(e.kind) { NewReport(s, events, e, s'.tasks); }
    forall k | 0 <= k < |all| && IsReport(all[k].kind) ensures Over(s'.id, s'.tasks, all[k]) {
      if k < |events| { assert all[k] == events[k]; OverStays(s.id, s.tasks, s'.tasks, events[k]); }
    }
    if !IsReport(e.kind) {
      forall j, k | 0 <= j < k < |all| && IsReport(all[j].kind) && IsReport(all[k].kind) && all[j].task == all[k].task
        ensures all[j].attemptId != all[k].attemptId
      {
        assert all[j] == events[j] && k < |events| && all[k] == events[k];
      }
    }
  }

  /** Every history that applies reports each attempt once, and every reported attempt is over. */
  lemma {:induction false} HistoryTold(events: seq<Event>)
    requires hide ApplyAll, Told;
             ApplyAll(None, events).Ok? && ApplyAll(None, events).value.Some?
    ensures Told(ApplyAll(None, events).value.value, events)
  {
    hide ApplyEvent, Told;
    var front, last := events[..|events| - 1], events[|events| - 1];
    var before := ApplyAll(None, front).value;
    assert events == front + [last];
    match before {
      case None =>
        NothingBefore(front);
        FirstTold(last);
      case Some(s) =>
        HistoryTold(front);
        ToldLonger(s, front, last);
    }
  }

  lemma {:induction false} NothingBefore(events: seq<Event>)
    requires ApplyAll(None, events) == Ok(None)
    ensures events == []
  {
    hide ApplyEvent;
  }

  lemma {:induction false} FirstTold(e: Event)
    requires hide ApplyEvent, Told;
             ApplyEvent(None, e).Ok?
    ensures Told(ApplyEvent(None, e).value, [e])
  {
    hide ApplySubmission, Transition;
    ApplyLawful(None, e);
    hide Lawful;
    assert e.kind == EventWorkflowSubmitted;
    FreshTyped(e);
  }

  /** Later events of a workflow leave its tasks with the same types, and take none away. */
  lemma {:induction false} EventsMoveOn(s: Workflow, events: seq<Event>)
    requires hide AllMoveOn, ApplyAll, Lawful;
             Lawful(s) && ApplyAll(Some(s), events).Ok?
    ensures var after := ApplyAll(Some(s), events).value;
              after.Some? && Lawful(after.value) && AllMoveOn(s.tasks, after.value.tasks)
  {
    hide ApplyEvent, Lawful;
    if events != [] {
      var front, last := events[..|events| - 1], events[|events| - 1];
      EventsMoveOn(s, front);
      var mid := ApplyAll(Some(s), front).value.value;
      ApplyLawful(Some(mid), last);
      OneMovesOn(mid, last);
      var after := ApplyAll(Some(s), events).value.value;
      forall id | id in s.tasks ensures id in after.tasks && MovesOn(s.tasks[id], after.tasks[id]) {
        assert MovesOn(s.tasks[id], mid.tasks[id]) && MovesOn(mid.tasks[id], after.tasks[id]);
      }
    }
  }

  lemma {:induction false} OneMovesOn(s: Workflow, e: Event)
    requires hide AllMoveOn, ApplyEvent, Lawful;
             Lawful(s) && ApplyEvent(Some(s), e).Ok?
    ensures AllMoveOn(s.tasks, ApplyEvent(Some(s), e).value.tasks)
  {
    hide Lawful, Transition, ApplySubmission;
    TransitionPasses(s, e);
  }

  // ----------------------------------------------------------------------------------------------------
  // Task results: what the reports of a history say about each attempt, stored in segments like the events
  // (taskResult of internal/storage/application.go, buildTaskResultSegments of internal/storage/segments.go and
  // loadTaskResults of internal/storage/snapshot.go).
  // ----------------------------------------------------------------------------------------------------

  datatype Phase = Forward | Compensation

  datatype TaskResult = TaskResult(
    workflow: Id, task: Id, kind: EventKind, taskType: string, phase: Phase, attemptId: Id, attempt: uint32,
    status: TaskStatus, output: map<string, string>, error: string, sequence: uint64, index: nat, at: int64,
    worker: string, fence: uint64, idempotency: Id)

  function StatusOf(kind: EventKind): TaskStatus {
    match kind
    case EventTaskCompleted => TaskCompleted
    case EventTaskCompensated => TaskCompensated
    case _ => TaskFailed
  }

  /** taskResult, for an event that reports an attempt of the task. */
  function ResultOf(e: Event, index: nat, t: Task): TaskResult {
    TaskResult(
      e.workflow, e.task, e.kind,
      if e.compensation && t.definition.compensation.Some? then t.definition.compensation.value
          else t.definition.taskType,
      if e.compensation then Compensation else Forward, e.attemptId, e.attempt, StatusOf(e.kind),
      if StatusOf(e.kind) == TaskFailed then map[] else e.output, if StatusOf(e.kind) == TaskFailed then e.error
          else "",
      e.sequence, index, e.at, e.worker, e.fence, e.idempotency)
  }

  /** resultIdentity */
  function IdentityOf(r: TaskResult): (Id, Id, Phase, Id) {
    (r.workflow, r.task, r.phase, r.attemptId)
  }

  function KeyOf(r: TaskResult): SegmentKey {
    (r.workflow, r.index)
  }

  /** validTaskResult */
  predicate ValidResult(r: TaskResult) {
    && r.workflow != NO_ID && r.task != NO_ID && r.taskType != "" && r.attemptId != NO_ID
    && r.attempt != 0 && r.sequence != 0 && r.index != 0 && r.at >= 0
    && match r.kind
       case EventTaskCompleted => r.phase == Forward && r.status == TaskCompleted
       case EventTaskFailed => r.status == TaskFailed
       case EventTaskTimedOut => r.status == TaskFailed
       case EventTaskCompensated => r.phase == Compensation && r.status == TaskCompensated
       case _ => false
  }

  predicate Reported(e: Event, tasks: map<Id, Task>) {
    IsReport(e.kind) && e.task in tasks
  }

  /** The results of some events accepted at one position, with the tasks as they stand. */
  function ResultsOf(events: seq<Event>, index: nat, tasks: map<Id, Task>): seq<TaskResult> {
    if events == [] then []
    else
      var last := events[|events| - 1];
      ResultsOf(events[..|events| - 1], index, tasks) + (if Reported(last, tasks)
          then [ResultOf(last, index, tasks[last.task])] else [])
  }

  /** `r` is the result of one of the events. */
  predicate Comes(events: seq<Event>, index: nat, tasks: map<Id, Task>, r: TaskResult) {
    exists k :: 0 <= k < |events| && Reported(events[k], tasks)
        && r == ResultOf(events[k], index, tasks[events[k].task])
  }

  lemma {:induction false} ResultsCome(events: seq<Event>, index: nat, tasks: map<Id, Task>, r: TaskResult)
    ensures r in ResultsOf(events, index, tasks) <==> Comes(events, index, tasks, r)
    ensures |ResultsOf(events, index, tasks)| <= |events|
  {
    hide ResultOf;
    if events != [] {
      var front, last := events[..|events| - 1], events[|events| - 1];
      ResultsCome(front, index, tasks, r);
      if Comes(front, index, tasks, r) {
        var k :| 0 <= k < |front| && Reported(front[k], tasks) && r == ResultOf(front[k], index, tasks[front[k].task]);
        assert events[k] == front[k];
      }
      if Comes(events, index, tasks, r) {
        var k :| 0 <= k < |events| && Reported(events[k], tasks)
            && r == ResultOf(events[k], index, tasks[events[k].task]);
        if k < |front| { assert front[k] == events[k]; }
      }
    }
  }

  // ----- Lists of results in order -----

  predicate InSequence(rs: seq<TaskResult>) {
    forall i, j | 0 <= i < j < |rs| :: rs[i].sequence < rs[j].sequence
  }

  predicate Numbered(rs: seq<TaskResult>) {
    forall i, j | 0 <= i < j < |rs| :: rs[i].sequence != rs[j].sequence
  }

  predicate Identified(rs: seq<TaskResult>) {
    forall i, j | 0 <= i < j < |rs| :: IdentityOf(rs[i]) != IdentityOf(rs[j])
  }

  lemma {:induction false} OrderedFront(rs: seq<TaskResult>, r: TaskResult)
    requires InSequence(rs) && r in rs
    ensures InSequence(rs[..|rs| - 1]) && rs[|rs| - 1] !in rs[..|rs| - 1]
    ensures r == rs[|rs| - 1] || (r in rs[..|rs| - 1] && r.sequence < rs[|rs| - 1].sequence)
  {
    var k :| 0 <= k < |rs| && rs[k] == r;
    if k < |rs| - 1 { assert rs[..|rs| - 1][k] == r; }
  }

  lemma {:induction false} SomeIn(a: seq<TaskResult>, b: seq<TaskResult>)
    requires a != [] && forall r | r in a :: r in b
    ensures b != []
  {
    assert a[0] in a;
  }

  /** A list in order is determined by its elements. */
  lemma {:induction false} OrderedUnique(a: seq<TaskResult>, b: seq<TaskResult>)
    requires InSequence(a) && InSequence(b) && forall r :: r in a <==> r in b
    ensures a == b
  {
    if a == [] {
      if b != [] { SomeIn(b, a); }
    } else {
      SomeIn(a, b);
      var p, x, q, y := a[..|a| - 1], a[|a| - 1], b[..|b| - 1], b[|b| - 1];
      assert a == p + [x] && b == q + [y];
      OrderedFront(b, x);
      OrderedFront(a, y);
      forall r ensures r in p <==> r in q {
        if r in a { OrderedFront(a, r); OrderedFront(b, r); }
      }
      OrderedUnique(p, q);
    }
  }

  lemma {:induction false} ResultsOrdered(events: seq<Event>, index: nat, tasks: map<Id, Task>)
    requires Ascending(events)
    ensures InSequence(ResultsOf(events, index, tasks))
  {
    hide ResultOf;
    if events != [] {
      var front, last := events[..|events| - 1], events[|events| - 1];
      ResultsOrdered(front, index, tasks);
      var before, all := ResultsOf(front, index, tasks), ResultsOf(events, index, tasks);
      if Reported(last, tasks) {
        forall i | 0 <= i < |before| ensures before[i].sequence < last.sequence {
          ResultsCome(front, index, tasks, before[i]);
          var k :| 0 <= k < |front| && Reported(front[k], tasks)
              && before[i] == ResultOf(front[k], index, tasks[front[k].task]);
          assert ResultOf(front[k], index, tasks[front[k].task]).sequence == events[k].sequence by {
              SequenceOf(front[k], index, tasks[front[k].task]); }
        }
        SequenceOf(last, index, tasks[last.task]);
      }
    }
  }

  lemma {:induction false} SequenceOf(e: Event, index: nat, t: Task)
    ensures ResultOf(e, index, t).sequence == e.sequence && KeyOf(ResultOf(e, index, t)) == (e.workflow, index)
  {
  }

  lemma {:induction false} ResultsNumbered(events: seq<Event>, index: nat, tasks: map<Id, Task>)
    requires DistinctNumbers(events)
    ensures Numbered(ResultsOf(events, index, tasks))
  {
    hide ResultOf;
    if events != [] {
      var front, last := events[..|events| - 1], events[|events| - 1];
      ResultsNumbered(front, index, tasks);
      var before := ResultsOf(front, index, tasks);
      if Reported(last, tasks) {
        forall i | 0 <= i < |before| ensures before[i].sequence != last.sequence {
          ResultsCome(front, index, tasks, before[i]);
          var k :| 0 <= k < |front| && Reported(front[k], tasks)
              && before[i] == ResultOf(front[k], index, tasks[front[k].task]);
          SequenceOf(front[k], index, tasks[front[k].task]);
          assert events[k] == front[k];
        }
        SequenceOf(last, index, tasks[last.task]);
      }
    }
  }

  // ----- Building segments -----

  /** The results of one segment, in the order they are listed in. */
  function Grouped(rs: seq<TaskResult>, k: SegmentKey): seq<TaskResult> {
    if rs == [] then []
    else Grouped(rs[..|rs| - 1], k) + (if KeyOf(rs[|rs| - 1]) == k then [rs[|rs| - 1]] else [])
  }

  function GroupKeys(rs: seq<TaskResult>): set<SegmentKey> {
    set i | 0 <= i < |rs| :: KeyOf(rs[i])
  }

  lemma {:induction false} GroupedMember(rs: seq<TaskResult>, k: SegmentKey, r: TaskResult)
    ensures r in Grouped(rs, k) <==> r in rs && KeyOf(r) == k
  {
    if rs != [] {
      GroupedMember(rs[..|rs| - 1], k, r);
      assert rs == rs[..|rs| - 1] + [rs[|rs| - 1]];
    }
  }

  lemma {:induction false} GroupedIdentified(rs: seq<TaskResult>, k: SegmentKey)
    requires Identified(rs)
    ensures Identified(Grouped(rs, k))
  {
    hide IdentityOf;
    if rs != [] {
      var front, last := rs[..|rs| - 1], rs[|rs| - 1];
      GroupedIdentified(front, k);
      forall r | r in Grouped(front, k) ensures IdentityOf(r) != IdentityOf(last) {
        GroupedMember(front, k, r);
        var i :| 0 <= i < |front| && front[i] == r;
        assert rs[i] == r;
      }
    }
  }

  /** What buildTaskResultSegments asks of a list of results. */
  predicate Fit(rs: seq<TaskResult>) {
    && (forall i | 0 <= i < |rs| :: ValidResult(rs[i])) && Identified(rs)
    && forall k | k in GroupKeys(rs) :: |Grouped(rs, k)| <= MAX_SEGMENT_ITEMS && Numbered(Grouped(rs, k))
  }

  /** The segments of a list of results: each group, in order. */
  predicate Arranges(rs: seq<TaskResult>, segments: map<SegmentKey, seq<TaskResult>>) {
    && segments.Keys == GroupKeys(rs)
    && forall k | k in segments :: InSequence(segments[k]) && multiset(segments[k]) == multiset(Grouped(rs, k))
  }

  predicate GroupsAre(groups: map<SegmentKey, seq<TaskResult>>, rs: seq<TaskResult>) {
    groups.Keys == GroupKeys(rs) && forall k | k in groups :: groups[k] == Grouped(rs, k)
  }

  /** The grouping pass: every result valid, no identity twice. */
  method GroupResults(rs: seq<TaskResult>) returns (ok: bool, groups: map<SegmentKey, seq<TaskResult>>)
    ensures ok <==> (forall i | 0 <= i < |rs| :: ValidResult(rs[i])) && Identified(rs)
    ensures ok ==> GroupsAre(groups, rs)
  {
    hide ValidResult, IdentityOf, GroupsAre;
    groups := map[];
    var seen := {};
    assert GroupsAre(groups, rs[..0]) by { NoGroups(); }
    for n := 0 to |rs|
      invariant forall i | 0 <= i < n :: ValidResult(rs[i])
      invariant seen == set i | 0 <= i < n :: IdentityOf(rs[i])
      invariant forall i, j | 0 <= i < j < n :: IdentityOf(rs[i]) != IdentityOf(rs[j])
      invariant GroupsAre(groups, rs[..n])
    {
      if !ValidResult(rs[n]) { return false, groups; }
      if IdentityOf(rs[n]) in seen {
        var i :| 0 <= i < n && IdentityOf(rs[i]) == IdentityOf(rs[n]);
        return false, groups;
      }
      var key := KeyOf(rs[n]);
      GroupsLonger(rs, n, groups);
      seen := seen + {IdentityOf(rs[n])};
      groups := groups[key := (if key in groups then groups[key] else []) + [rs[n]]];
    }
    assert rs[..|rs|] == rs;
    return true, groups;
  }

  lemma {:induction false} NoGroups()
    ensures GroupsAre(map[], [])
  {
  }

  lemma {:induction false} GroupsLonger(rs: seq<TaskResult>, n: nat, groups: map<SegmentKey, seq<TaskResult>>)
    requires n < |rs| && GroupsAre(groups, rs[..n])
    ensures var key := KeyOf(rs[n]);
            GroupsAre(groups[key := (if key in groups then groups[key] else []) + [rs[n]]], rs[..n + 1])
  {
    GroupKeysLonger(rs, n);
    assert rs[..n + 1][..n] == rs[..n];
    var key := KeyOf(rs[n]);
    if key !in groups { EmptyGroup(rs[..n], key); }
    hide GroupKeys, KeyOf;
  }

  lemma {:induction false} EmptyGroup(rs: seq<TaskResult>, k: SegmentKey)
    requires k !in GroupKeys(rs)
    ensures Grouped(rs, k) == []
  {
    if rs != [] {
      var front := rs[..|rs| - 1];
      assert KeyOf(rs[|rs| - 1]) in GroupKeys(rs);
      forall i | 0 <= i < |front| ensures KeyOf(front[i]) != k { assert KeyOf(rs[i]) in GroupKeys(rs); }
      EmptyGroup(front, k);
    }
  }

  lemma {:induction false} GroupKeysLonger(rs: seq<TaskResult>, n: nat)
    requires n < |rs|
    ensures GroupKeys(rs[..n + 1]) == GroupKeys(rs[..n]) + {KeyOf(rs[n])}
  {
    var shorter, longer := rs[..n], rs[..n + 1];
    assert longer[n] == rs[n];
    forall k ensures k in GroupKeys(longer) <==> k in GroupKeys(shorter) || k == KeyOf(rs[n]) {
      if i :| 0 <= i < |longer| && KeyOf(longer[i]) == k { if i < n { assert shorter[i] == longer[i]; } }
      if i :| 0 <= i < |shorter| && KeyOf(shorter[i]) == k { assert longer[i] == shorter[i]; }
    }
  }

  /** sort.Slice by sequence: None when two numbers are equal. */
  method SortResults(rs: seq<TaskResult>) returns (sorted: Option<seq<TaskResult>>)
    ensures sorted.Some? <==> Numbered(rs)
    ensures sorted.Some? ==> InSequence(sorted.value) && multiset(sorted.value) == multiset(rs)
  {
    var done: seq<TaskResult> := [];
    for n := 0 to |rs|
      invariant InSequence(done) && multiset(done) == multiset(rs[..n]) && Numbered(rs[..n])
    {
      assert rs[..n + 1] == rs[..n] + [rs[n]];
      var at := Place(done, rs[n]);
      if at < |done| && done[at].sequence == rs[n].sequence {
        SameNumber(done, rs, n, at);
        return None;
      }
      Fresh(done, rs, n, at);
      done := Placed(done, rs[n], at);
    }
    assert rs[..|rs|] == rs;
    return Some(done);
  }

  /** The first place not below a result. */
  method Place(done: seq<TaskResult>, r: TaskResult) returns (at: nat)
    requires InSequence(done)
    ensures at <= |done| && (forall i | 0 <= i < at :: done[i].sequence < r.sequence)
            && forall i | at <= i < |done| :: r.sequence <= done[i].sequence
  {
    at := |done|;
    while at > 0 && r.sequence <= done[at - 1].sequence
      invariant at <= |done| && forall i | at <= i < |done| :: r.sequence <= done[i].sequence
    {
      at := at - 1;
    }
  }

  function Placed(done: seq<TaskResult>, r: TaskResult, at: nat): (all: seq<TaskResult>)
    requires at <= |done| && InSequence(done)
    requires (forall i | 0 <= i < at :: done[i].sequence < r.sequence)
             && forall i | at <= i < |done| :: r.sequence < done[i].sequence
    ensures InSequence(all) && multiset(all) == multiset(done) + multiset{r}
  {
    assert done == done[..at] + done[at..];
    done[..at] + [r] + done[at..]
  }

  lemma {:induction false} SameNumber(done: seq<TaskResult>, rs: seq<TaskResult>, n: nat, at: nat)
    requires n < |rs| && at < |done| && multiset(done) == multiset(rs[..n]) && done[at].sequence == rs[n].sequence
    ensures !Numbered(rs)
  {
    assert done[at] in multiset(rs[..n]);
    var i :| 0 <= i < n && rs[..n][i] == done[at];
    assert rs[i].sequence == rs[n].sequence;
  }

  lemma {:induction false} Fresh(done: seq<TaskResult>, rs: seq<TaskResult>, n: nat, at: nat)
    requires n < |rs| && at <= |done| && InSequence(done) && multiset(done) == multiset(rs[..n]) && Numbered(rs[..n])
    requires (forall i | 0 <= i < at :: done[i].sequence < rs[n].sequence)
             && forall i | at <= i < |done| :: rs[n].sequence <= done[i].sequence
    requires at < |done| ==> done[at].sequence != rs[n].sequence
    ensures Numbered(rs[..n + 1]) && forall i | at <= i < |done| :: rs[n].sequence < done[i].sequence
  {
    forall i | at <= i < |done| ensures rs[n].sequence < done[i].sequence {
      if i > at { assert done[at].sequence < done[i].sequence; }
    }
    forall i | 0 <= i < n ensures rs[i].sequence != rs[n].sequence {
      assert rs[..n][i] in multiset(rs[..n]);
      assert rs[i] in multiset(done);
      var j :| 0 <= j < |done| && done[j] == rs[i];
    }
  }

  /** buildTaskResultSegments: refused exactly when the list is not fit. */
  method BuildResults(rs: seq<TaskResult>) returns (ok: bool, segments: map<SegmentKey, seq<TaskResult>>)
    ensures ok <==> Fit(rs)
    ensures ok ==> Arranges(rs, segments)
  {
    hide ValidResult, Identified, Numbered, Grouped, GroupKeys;
    var groups;
    segments := map[];
    ok, groups := GroupResults(rs);
    if !ok { return; }
    var rest := groups.Keys;
    while rest != {}
      invariant rest <= groups.Keys && segments.Keys == groups.Keys - rest
      invariant forall k | k in segments :: |Grouped(rs, k)| <= MAX_SEGMENT_ITEMS && Numbered(Grouped(rs, k))
      invariant forall k | k in segments :: InSequence(segments[k]) && multiset(segments[k]) == multiset(Grouped(rs, k))
      decreases |rest|
    {
      var k :| k in rest;
      rest := rest - {k};
      var sorted := SortResults(groups[k]);
      if sorted.None? || |groups[k]| > MAX_SEGMENT_ITEMS { return false, segments; }
      segments := segments[k := sorted.value];
    }
    ok := true;
  }

  // ----- The results of a book -----

  function TasksOf(states: map<Id, Workflow>, w: Id): map<Id, Task> {
    if w in states then states[w].tasks else map[]
  }

  function ResultsAt(book: Book, k: SegmentKey): seq<TaskResult> {
    ResultsOf(Segment(book.log, k.0, k.1), k.1, TasksOf(book.states, k.0))
  }

  /** The task result segments of a book: the positions of a workflow that report an attempt. */
  function ResultSegments(book: Book): map<SegmentKey, seq<TaskResult>> {
    map k | k in SegmentKeys(book.log) && ResultsAt(book, k) != [] :: ResultsAt(book, k)
  }

  function ResultsFrom(book: Book, cut: nat): map<SegmentKey, seq<TaskResult>> {
    hide ResultsAt;
    map k | k in SegmentKeys(book.log) && ResultsAt(book, k) != [] && k.1 >= cut :: ResultsAt(book, k)
  }

  predicate IsResult(book: Book, r: TaskResult) {
    r in ResultsAt(book, KeyOf(r))
  }

  /** The results of a book from a position on, in any order. */
  ghost predicate GivesResults(rs: seq<TaskResult>, book: Book, cut: nat) {
    Identified(rs) && forall r :: r in rs <==> IsResult(book, r) && r.index >= cut
  }

  /** The history of a workflow around one of its segments. */
  lemma {:induction false} SegmentPlace(log: seq<Filing>, w: Id, i: nat)
    requires hide Filed, History;
             Filed(log)
    ensures |Taken(log, w, 0, i)| + |Segment(log, w, i)| == |Taken(log, w, 0, i + 1)| <= |History(log, w)|
    ensures var before, seg := |Taken(log, w, 0, i)|, Segment(log, w, i);
            forall k | 0 <= k < |seg| :: seg[k] == History(log, w)[before + k] && seg[k].sequence == before + k + 1
  {
    hide Taken;
    SegmentCounts(log, w, i);
    hide FilingOk, Unique, Counting;
    var top := if Top(log) <= i + 1 then i + 1 else Top(log);
    TakenBeyond(log, w, 0, top);
    TakenSplit(log, w, 0, i, i + 1);
    TakenSplit(log, w, 0, i + 1, top);
    hide Filed;
  }

  /** A result of a book is that of an event of the history, at its own number. */
  lemma {:induction false} ResultTold(book: Book, k: SegmentKey, r: TaskResult)
    requires hide History, Kept, ResultsAt;
             Kept(book) && r in ResultsAt(book, k)
    ensures KeyOf(r) == k && r.index > 0 && k.0 in book.states && 0 < r.sequence <= |History(book.log, k.0)|
    ensures |Taken(book.log, k.0, 0, k.1)| < r.sequence <= |Taken(book.log, k.0, 0, k.1 + 1)|
    ensures var e, tasks := History(book.log, k.0)[r.sequence - 1], book.states[k.0].tasks;
            Reported(e, tasks) && r == ResultOf(e, k.1, tasks[e.task]) && e.sequence == r.sequence && e.workflow == k.0
  {
    ResultsCome(Segment(book.log, k.0, k.1), k.1, TasksOf(book.states, k.0), r);
    var seg, tasks := Segment(book.log, k.0, k.1), TasksOf(book.states, k.0);
    var n :| 0 <= n < |seg| && Reported(seg[n], tasks) && r == ResultOf(seg[n], k.1, tasks[seg[n].task]);
    EventOwner(book.log, k, seg[n]);
    SegmentPlace(book.log, k.0, k.1);
    SequenceOf(seg[n], k.1, tasks[seg[n].task]);
    hide Kept, Taken, ResultOf;
  }

  lemma {:induction false} EventOwner(log: seq<Filing>, k: SegmentKey, e: Event)
    requires Filed(log) && e in Segment(log, k.0, k.1)
    ensures e.workflow == k.0 && k.1 > 0
  {
    hide Unique, Counting, Ordered;
    Segments.TakenMember(log, k.0, k.1, k.1 + 1, e);
    var i :| 0 <= i < |log| && log[i].workflow == k.0 && k.1 <= log[i].index < k.1 + 1 && e in log[i].events;
    assert FilingOk(log[i]);
    var n :| 0 <= n < |log[i].events| && log[i].events[n] == e;
    assert EventFits(log[i], n);
  }

  /** What the history of a workflow in a book tells. */
  lemma {:induction false} BookTold(book: Book, w: Id)
    requires hide History, Kept, Told;
             Kept(book) && w in book.states
    ensures Told(book.states[w], History(book.log, w)) && book.states[w].id == w && w != NO_ID
  {
    hide Filed, Told, ApplyAll, History;
    assert ApplyAll(None, History(book.log, w)) == Ok(Lookup(book.states, w));
    HistoryTold(History(book.log, w));
  }

  lemma {:induction false} SameReport(events: seq<Event>, x: nat, y: nat)
    requires ReportedOnce(events) && x < |events| && y < |events| && IsReport(events[x].kind)
             && IsReport(events[y].kind)
    requires events[x].task == events[y].task && events[x].attemptId == events[y].attemptId
    ensures x == y
  {
  }

  /** The identity of a task result occurs once in every book. */
  lemma {:induction false} ResultsOnce(book: Book, a: TaskResult, b: TaskResult)
    requires Kept(book) && IsResult(book, a) && IsResult(book, b) && IdentityOf(a) == IdentityOf(b)
    ensures a == b
  {
    var w := a.workflow;
    ResultTold(book, KeyOf(a), a);
    ResultTold(book, KeyOf(b), b);
    BookTold(book, w);
    hide Kept, Lawful, AllTyped, AllOver, ResultsAt;
    var history := History(book.log, w);
    var x, y := a.sequence - 1, b.sequence - 1;
    assert history[x].task == history[y].task && history[x].attemptId == history[y].attemptId;
    SameReport(history, x, y);
    SamePosition(book.log, w, a.index, b.index, a.sequence);
  }

  lemma {:induction false} SamePosition(log: seq<Filing>, w: Id, i: nat, j: nat, n: nat)
    requires Ordered(log)
    requires |Taken(log, w, 0, i)| < n <= |Taken(log, w, 0, i + 1)|
             && |Taken(log, w, 0, j)| < n <= |Taken(log, w, 0, j + 1)|
    ensures i == j
  {
    if i < j { TakenSplit(log, w, 0, i + 1, j); }
    if j < i { TakenSplit(log, w, 0, j + 1, i); }
  }

  lemma {:induction false} ResultValid(book: Book, r: TaskResult)
    requires Kept(book) && IsResult(book, r)
    ensures ValidResult(r)
  {
    hide Kept, ResultsAt, History, ResultOf, ValidResult;
    var w := r.workflow;
    ResultTold(book, KeyOf(r), r);
    BookTold(book, w);
    var e, tasks := History(book.log, w)[r.sequence - 1], book.states[w].tasks;
    assert Over(w, tasks, e) && Typed(tasks[e.task]);
    hide Over, Typed, Told;
    TimeGiven(book, w, r.sequence - 1);
    OverValid(w, tasks, e, r.index);
  }

  lemma {:induction false} OverValid(w: Id, tasks: map<Id, Task>, e: Event, index: nat)
    requires Over(w, tasks, e) && IsReport(e.kind) && Typed(tasks[e.task]) && e.workflow == w && w != NO_ID
             && e.at >= 0 && e.sequence > 0 && index > 0
    ensures ValidResult(ResultOf(e, index, tasks[e.task]))
  {
  }

  lemma {:induction false} TimeGiven(book: Book, w: Id, n: nat)
    requires hide History, Kept;
             Kept(book) && n < |History(book.log, w)|
    ensures History(book.log, w)[n].at >= 0
  {
    hide ApplyAll, Taken, Filed;
    assert ApplyAll(None, History(book.log, w)) == Ok(Lookup(book.states, w));
    AppliedWell(None, History(book.log, w));
  }

  lemma {:induction false} SegmentAscends(log: seq<Filing>, k: SegmentKey)
    requires Filed(log)
    ensures Ascending(Segment(log, k.0, k.1))
  {
    SegmentPlace(log, k.0, k.1);
    hide Filed, Taken;
  }

  /** The results of a segment, in order and not too many. */
  lemma {:induction false} ResultsAtOrdered(book: Book, k: SegmentKey)
    requires Kept(book)
    ensures InSequence(ResultsAt(book, k)) && (Sized(book.log) ==> |ResultsAt(book, k)| <= MAX_SEGMENT_ITEMS)
    ensures ResultsAt(book, k) != [] ==> k in SegmentKeys(book.log)
  {
    var seg, tasks := Segment(book.log, k.0, k.1), TasksOf(book.states, k.0);
    SegmentAscends(book.log, k);
    forall i | 0 <= i < |book.log| ensures book.log[i].events != [] { assert FilingOk(book.log[i]); }
    Segments.SegmentFound(book.log, k);
    hide Kept, Segment, ResultsOf;
    ResultsOrdered(seg, k.1, tasks);
    if ResultsAt(book, k) != [] { ResultsCome(seg, k.1, tasks, ResultsAt(book, k)[0]); }
    assert |ResultsAt(book, k)| <= |seg| by { ResultsFew(seg, k.1, tasks); }
  }

  lemma {:induction false} ResultsFew(events: seq<Event>, index: nat, tasks: map<Id, Task>)
    ensures |ResultsOf(events, index, tasks)| <= |events|
  {
    if events != [] { ResultsFew(events[..|events| - 1], index, tasks); }
  }

  lemma {:induction false} GroupSame(book: Book, rs: seq<TaskResult>, cut: nat, k: SegmentKey)
    requires Kept(book) && GivesResults(rs, book, cut) && cut <= k.1
    ensures forall r :: r in Grouped(rs, k) <==> r in ResultsAt(book, k)
  {
    assert forall r :: r in rs <==> IsResult(book, r) && r.index >= cut;
    hide Kept, GivesResults, ResultsAt, Grouped;
    forall r ensures r in Grouped(rs, k) <==> r in ResultsAt(book, k) {
      GroupedMember(rs, k, r);
      assert r in rs <==> IsResult(book, r) && r.index >= cut;
      if r in ResultsAt(book, k) { ResultTold(book, k, r); }
    }
  }

  lemma {:induction false} GroupFound(rs: seq<TaskResult>, k: SegmentKey)
    ensures k in GroupKeys(rs) <==> Grouped(rs, k) != []
  {
    if k in GroupKeys(rs) { var i :| 0 <= i < |rs| && KeyOf(rs[i]) == k; GroupedMember(rs, k, rs[i]); }
        else { EmptyGroup(rs, k); }
  }

  lemma {:induction false} OrderedNumbers(group: seq<TaskResult>, seg: seq<TaskResult>)
    requires Identified(group) && InSequence(seg) && forall r | r in group :: r in seg
    ensures Numbered(group)
  {
    hide IdentityOf;
    forall i, j | 0 <= i < j < |group| ensures group[i].sequence != group[j].sequence {
      assert group[i] in group && group[j] in group;
      var a :| 0 <= a < |seg| && seg[a] == group[i];
      var b :| 0 <= b < |seg| && seg[b] == group[j];
    }
  }

  /** One group of the results of a book is a segment of the book, however it is listed. */
  lemma {:induction false} GroupExact(book: Book, rs: seq<TaskResult>, cut: nat, k: SegmentKey)
    requires Kept(book) && GivesResults(rs, book, cut) && cut <= k.1
    ensures forall r :: r in Grouped(rs, k) <==> r in ResultsAt(book, k)
    ensures Numbered(Grouped(rs, k)) && (k in GroupKeys(rs) <==> ResultsAt(book, k) != [])
  {
    assert Identified(rs);
    hide Kept, ResultsAt, Grouped, GivesResults, GroupKeys, Identified, Numbered, InSequence;
    GroupSame(book, rs, cut, k);
    GroupedIdentified(rs, k);
    ResultsAtOrdered(book, k);
    OrderedNumbers(Grouped(rs, k), ResultsAt(book, k));
    GroupFound(rs, k);
    if Grouped(rs, k) != [] { SomeIn(Grouped(rs, k), ResultsAt(book, k)); }
    if ResultsAt(book, k) != [] { SomeIn(ResultsAt(book, k), Grouped(rs, k)); }
  }

  /** Both builders of a store accept the results of a book, and build its segments from any position on. */
  lemma {:induction false} ResultsFit(book: Book, rs: seq<TaskResult>, cut: nat)
    requires Kept(book) && Sized(book.log) && GivesResults(rs, book, cut)
    ensures Fit(rs)
  {
    forall i | 0 <= i < |rs| ensures ValidResult(rs[i])
        && rs[i].index >= cut { assert rs[i] in rs; ResultValid(book, rs[i]); }
    forall k | k in GroupKeys(rs) ensures |Grouped(rs, k)| <= MAX_SEGMENT_ITEMS && Numbered(Grouped(rs, k)) {
      var i :| 0 <= i < |rs| && KeyOf(rs[i]) == k;
      hide Kept, ValidResult, GivesResults, ResultsAt, Sized;
      GroupExact(book, rs, cut, k);
      ResultsAtOrdered(book, k);
      NoMore(Grouped(rs, k), ResultsAt(book, k));
    }
  }

  lemma {:induction false} NoMore(a: seq<TaskResult>, b: seq<TaskResult>)
    requires Numbered(a) && forall r | r in a :: r in b
    ensures |a| <= |b|
  {
    if a != [] {
      var front, last := a[..|a| - 1], a[|a| - 1];
      assert last in a;
      var k :| 0 <= k < |b| && b[k] == last;
      var rest := b[..k] + b[k + 1..];
      forall r | r in front ensures r in rest {
        var i :| 0 <= i < |front| && front[i] == r;
        assert a[i].sequence != a[|a| - 1].sequence && a[i] in a;
        var j :| 0 <= j < |b| && b[j] == r;
        assert j < k ==> rest[j] == r;
        assert j > k ==> rest[j - 1] == r;
      }
      NoMore(front, rest);
    }
  }

  lemma {:induction false} ArrangedExact(book: Book, rs: seq<TaskResult>, cut: nat,
                                         segments: map<SegmentKey, seq<TaskResult>>)
    requires Kept(book) && GivesResults(rs, book, cut) && Arranges(rs, segments)
    ensures segments == ResultsFrom(book, cut)
  {
    hide Kept, ResultsAt, Grouped, InSequence;
    var expected := ResultsFrom(book, cut);
    forall k ensures k in segments <==> k in expected {
      if k in GroupKeys(rs) { var i :| 0 <= i < |rs| && KeyOf(rs[i]) == k; assert rs[i] in rs; }
      if cut <= k.1 { GroupExact(book, rs, cut, k); ResultsAtOrdered(book, k); }
    }
    hide GivesResults;
    forall k | k in segments ensures segments[k] == ResultsAt(book, k) {
      assert k in expected;
      SegmentExact(book, rs, cut, k, segments[k]);
    }
  }

  lemma {:induction false} SegmentExact(book: Book, rs: seq<TaskResult>, cut: nat, k: SegmentKey,
                                        sorted: seq<TaskResult>)
    requires Kept(book) && GivesResults(rs, book, cut) && cut <= k.1
    requires InSequence(sorted) && multiset(sorted) == multiset(Grouped(rs, k))
    ensures sorted == ResultsAt(book, k)
  {
    hide Kept, ResultsAt, Grouped, GivesResults, InSequence;
    GroupExact(book, rs, cut, k);
    ResultsAtOrdered(book, k);
    forall r ensures r in sorted <==> r in ResultsAt(book, k) {
      assert r in sorted <==> r in multiset(sorted);
      assert r in Grouped(rs, k) <==> r in multiset(Grouped(rs, k));
    }
    OrderedUnique(sorted, ResultsAt(book, k));
  }

  // ----- The results of accepted receipts -----

  /** The results of some receipts, receipt by receipt. */
  function Collected(given: seq<Filing>, states: map<Id, Workflow>): seq<TaskResult> {
    hide ResultsOf;
    if given == [] then []
    else
      var last := given[|given| - 1];
      Collected(given[..|given| - 1], states) + ResultsOf(last.events, last.index, TasksOf(states, last.workflow))
  }

  /** Every report of a receipt is about a task of its workflow. */
  predicate Placeable(f: Filing, states: map<Id, Workflow>) {
    forall k | 0 <= k < |f.events| && IsReport(f.events[k].kind) :: f.events[k].task in TasksOf(states, f.workflow)
  }

  /** The results that buildAcceptedSegments collects, receipt by receipt and event by event. */
  method CollectResults(given: seq<Filing>, states: map<Id, Workflow>) returns (ok: bool, rs: seq<TaskResult>)
    ensures hide Collected, Placeable;
            ok <==> forall i | 0 <= i < |given| :: Placeable(given[i], states)
    ensures ok ==> rs == Collected(given, states)
  {
    hide ResultOf, Placeable, ResultsOf;
    rs := [];
    for n := 0 to |given|
      invariant rs == Collected(given[..n], states) && forall i | 0 <= i < n :: Placeable(given[i], states)
    {
      assert given[..n + 1][..n] == given[..n];
      var more;
      ok, more := CollectOne(given[n], states);
      if !ok { return; }
      rs := rs + more;
    }
    assert given[..|given|] == given;
    return true, rs;
  }

  method CollectOne(f: Filing, states: map<Id, Workflow>) returns (ok: bool, rs: seq<TaskResult>)
    ensures ok <==> Placeable(f, states)
    ensures ok ==> rs == ResultsOf(f.events, f.index, TasksOf(states, f.workflow))
  {
    hide ResultOf;
    rs := [];
    var tasks := TasksOf(states, f.workflow);
    for k := 0 to |f.events|
      invariant rs == ResultsOf(f.events[..k], f.index, tasks) && forall i | 0 <= i < k
                && IsReport(f.events[i].kind) :: f.events[i].task in tasks
    {
      assert f.events[..k + 1][..k] == f.events[..k];
      if IsReport(f.events[k].kind) {
        if f.events[k].task !in tasks { return false, rs; }
        rs := rs + [ResultOf(f.events[k], f.index, tasks[f.events[k].task])];
      }
    }
    assert f.events[..|f.events|] == f.events;
    return true, rs;
  }

  /** The receipts of a book report on tasks that are there. */
  lemma {:induction false} ReceiptPlaceable(book: Book, f: Filing)
    requires Kept(book) && f in book.log
    ensures Placeable(f, book.states) && f.workflow in book.states
  {
    var n :| 0 <= n < |book.log| && book.log[n] == f;
    assert FilingOk(f) && Ordered(book.log);
    hide Kept, FilingOk;
    if n < |book.log| - 1 { assert book.log[n].index <= book.log[|book.log| - 1].index; }
    var at := TakenHolds(book.log, n, 0, Top(book.log));
    hide Taken, Ordered;
    var history := History(book.log, f.workflow);
    HasHistory(book, f.workflow);
    BookTold(book, f.workflow);
    forall k | 0 <= k < |f.events| && IsReport(f.events[k].kind)
        ensures f.events[k].task in TasksOf(book.states, f.workflow) {
      assert history[at + k] == history[at..at + |f.events|][k] == f.events[k];
      assert Over(book.states[f.workflow].id, book.states[f.workflow].tasks, history[at + k]);
    }
  }

  lemma {:induction false} HasHistory(book: Book, w: Id)
    requires Kept(book) && History(book.log, w) != []
    ensures w in book.states
  {
    hide ApplyAll, Taken, Filed;
    assert ApplyAll(None, History(book.log, w)) == Ok(Lookup(book.states, w));
    AppliedExists(None, History(book.log, w));
  }

  /** One group of collected results is the results of the segment that the receipts gather. */
  lemma {:induction false} GroupedCollected(given: seq<Filing>, states: map<Id, Workflow>, k: SegmentKey)
    requires forall f | f in given :: FilingOk(f)
    ensures Grouped(Collected(given, states), k) == ResultsOf(Segment(given, k.0, k.1), k.1, TasksOf(states, k.0))
  {
    if given != [] {
      var front, last := given[..|given| - 1], given[|given| - 1];
      assert last in given;
      forall f | f in front ensures FilingOk(f) { assert f in given; }
      GroupedCollected(front, states, k);
      var more := ResultsOf(last.events, last.index, TasksOf(states, last.workflow));
      GroupedJoin(Collected(front, states), more, k);
      forall i | 0 <= i < |last.events| ensures last.events[i].workflow == last.workflow { assert EventFits(last, i); }
      GroupedOwn(last.events, last.workflow, last.index, TasksOf(states, last.workflow), k);
      if (last.workflow, last.index) == k {
        ResultsJoin(Segment(front, k.0, k.1), last.events, k.1, TasksOf(states, k.0));
      } else {
        assert Segment(given, k.0, k.1) == Segment(front, k.0, k.1);
      }
    }
  }

  lemma {:induction false} GroupedJoin(a: seq<TaskResult>, b: seq<TaskResult>, k: SegmentKey)
    ensures Grouped(a + b, k) == Grouped(a, k) + Grouped(b, k)
  {
    if b == [] {
      assert a + b == a;
    } else {
      assert (a + b)[..|a + b| - 1] == a + b[..|b| - 1];
      GroupedJoin(a, b[..|b| - 1], k);
    }
  }

  lemma {:induction false} ResultsJoin(a: seq<Event>, b: seq<Event>, index: nat, tasks: map<Id, Task>)
    ensures ResultsOf(a + b, index, tasks) == ResultsOf(a, index, tasks) + ResultsOf(b, index, tasks)
  {
    hide ResultOf;
    if b == [] {
      assert a + b == a;
    } else {
      assert (a + b)[..|a + b| - 1] == a + b[..|b| - 1];
      ResultsJoin(a, b[..|b| - 1], index, tasks);
    }
  }

  lemma {:induction false} GroupedOwn(events: seq<Event>, w: Id, index: nat, tasks: map<Id, Task>, k: SegmentKey)
    requires hide ResultsOf;
             forall i | 0 <= i < |events| :: events[i].workflow == w
    ensures Grouped(ResultsOf(events, index, tasks), k) == if k == (w, index) then ResultsOf(events, index, tasks)
            else []
  {
    if events != [] {
      var front, last := events[..|events| - 1], events[|events| - 1];
      GroupedOwn(front, w, index, tasks, k);
      if Reported(last, tasks) {
        var r := ResultOf(last, index, tasks[last.task]);
        SequenceOf(last, index, tasks[last.task]);
        assert [r][..0] == [];
        assert Grouped([r], k) == if KeyOf(r) == k then [r] else [];
        assert KeyOf(r) == (w, index) && ResultsOf(events, index, tasks) == ResultsOf(front, index, tasks) + [r];
        GroupedJoin(ResultsOf(front, index, tasks), [r], k);
        hide Grouped, ResultOf, KeyOf, ResultsOf;
        if k == (w, index) {
          assert Grouped(ResultsOf(events, index, tasks), k) == ResultsOf(front, index, tasks) + [r];
        } else {
          assert Grouped(ResultsOf(events, index, tasks), k) == [] + [];
        }
      } else {
        assert ResultsOf(events, index, tasks) == ResultsOf(front, index, tasks);
      }
    }
  }

  /** A list without two results of one number in a group has no result twice. */
  lemma {:induction false} GroupsTell(rs: seq<TaskResult>, i: nat, j: nat)
    requires i < j < |rs| && Numbered(Grouped(rs, KeyOf(rs[i])))
    ensures rs[i] != rs[j]
  {
    var k := KeyOf(rs[i]);
    assert rs == rs[..j] + rs[j..] && rs[j..] == [rs[j]] + rs[j + 1..];
    GroupedJoin(rs[..j], rs[j..], k);
    GroupedJoin([rs[j]], rs[j + 1..], k);
    assert [rs[j]][..0] == [];
    GroupedMember(rs[..j], k, rs[i]);
    assert rs[..j][i] == rs[i];
    var before := Grouped(rs[..j], k);
    var n :| 0 <= n < |before| && before[n] == rs[i];
    assert Grouped(rs, k)[n] == rs[i];
    if KeyOf(rs[j]) == k { assert Grouped(rs, k)[|before|] == rs[j]; }
  }

  lemma {:induction false} CollectedIs(book: Book, given: seq<Filing>, cut: nat, r: TaskResult)
    requires Kept(book) && Segments.Gives(given, book.log, cut)
    ensures r in Collected(given, book.states) <==> IsResult(book, r) && r.index >= cut
  {
    var rs, k := Collected(given, book.states), KeyOf(r);
    forall f | f in given ensures FilingOk(f) { GivenOk(book, given, cut, f); }
    GroupedCollected(given, book.states, k);
    GroupedMember(rs, k, r);
    var mine, theirs, tasks := Segment(given, k.0, k.1), Segment(book.log, k.0, k.1), TasksOf(book.states, k.0);
    ResultsCome(mine, k.1, tasks, r);
    ResultsCome(theirs, k.1, tasks, r);
    hide Kept, ResultOf, Collected, Grouped, ResultsOf, Segment;
    if k.1 >= cut {
      forall e ensures e in mine <==> e in theirs { Segments.GivenMembers(book.log, given, cut, k.0, k.1, e); }
      hide Segments.Gives;
      SameComes(mine, theirs, k.1, tasks, r);
    } else if Comes(mine, k.1, tasks, r) {
      var n :| 0 <= n < |mine| && Reported(mine[n], tasks) && r == ResultOf(mine[n], k.1, tasks[mine[n].task]);
      LateOnly(book.log, given, cut, k, mine[n]);
    }
  }

  lemma {:induction false} GivenOk(book: Book, given: seq<Filing>, cut: nat, f: Filing)
    requires Kept(book) && Segments.Gives(given, book.log, cut) && f in given
    ensures FilingOk(f) && f in book.log
  {
    hide Explained, FilingOk, Unique, Counting, Ordered;
    var i :| 0 <= i < |book.log| && book.log[i] == f;
  }

  lemma {:induction false} LateOnly(log: seq<Filing>, given: seq<Filing>, cut: nat, k: SegmentKey, e: Event)
    requires Segments.Gives(given, log, cut) && e in Segment(given, k.0, k.1)
    ensures k.1 >= cut
  {
    hide Unique;
    Segments.TakenMember(given, k.0, k.1, k.1 + 1, e);
    var i :| 0 <= i < |given| && given[i].workflow == k.0 && k.1 <= given[i].index < k.1 + 1 && e in given[i].events;
    assert given[i] in given;
  }

  lemma {:induction false} SameComes(a: seq<Event>, b: seq<Event>, index: nat, tasks: map<Id, Task>, r: TaskResult)
    requires forall e :: e in a <==> e in b
    ensures Comes(a, index, tasks, r) <==> Comes(b, index, tasks, r)
  {
    hide ResultOf;
    if Comes(a, index, tasks, r) {
      var n :| 0 <= n < |a| && Reported(a[n], tasks) && r == ResultOf(a[n], index, tasks[a[n].task]);
      assert a[n] in b;
      var m :| 0 <= m < |b| && b[m] == a[n];
    }
    if Comes(b, index, tasks, r) {
      var n :| 0 <= n < |b| && Reported(b[n], tasks) && r == ResultOf(b[n], index, tasks[b[n].task]);
      assert b[n] in a;
      var m :| 0 <= m < |a| && a[m] == b[n];
    }
  }

  /** The results collected from the receipts of a book from a position on are the book's from there. */
  lemma {:induction false} CollectedGives(book: Book, given: seq<Filing>, cut: nat)
    requires Kept(book) && Segments.Gives(given, book.log, cut)
    ensures GivesResults(Collected(given, book.states), book, cut)
  {
    var rs := Collected(given, book.states);
    forall f | f in given ensures FilingOk(f) && f in book.log { GivenOk(book, given, cut, f); }
    assert Filed(book.log) && Unique(given);
    hide Kept, Filed, Unique, Collected, IsResult, IdentityOf, Segments.Gives;
    forall r ensures r in rs <==> IsResult(book, r) && r.index >= cut { CollectedIs(book, given, cut, r); }
    forall i, j | 0 <= i < j < |rs| ensures IdentityOf(rs[i]) != IdentityOf(rs[j]) {
      var k := KeyOf(rs[i]);
      GroupedCollected(given, book.states, k);
      Segments.GatheredDistinct(book.log, given, k.0, k.1);
      ResultsNumbered(Segment(given, k.0, k.1), k.1, TasksOf(book.states, k.0));
      hide Segment, ResultsOf, Grouped, KeyOf, DistinctNumbers, Numbered;
      GroupsTell(rs, i, j);
      assert rs[i] in rs && rs[j] in rs;
      if IdentityOf(rs[i]) == IdentityOf(rs[j]) { ResultsOnce(book, rs[i], rs[j]); }
    }
  }

  // ----- Reading results back -----

  /** validTaskResultSegment */
  predicate ValidResults(k: SegmentKey, rs: seq<TaskResult>) {
    && k.0 != NO_ID && k.1 != 0 && 0 < |rs| <= MAX_SEGMENT_ITEMS && InSequence(rs) && Identified(rs)
    && forall i | 0 <= i < |rs| :: ValidResult(rs[i]) && KeyOf(rs[i]) == k
  }

  lemma {:induction false} SegmentsValid(book: Book, k: SegmentKey)
    requires Kept(book) && Sized(book.log) && k in ResultSegments(book)
    ensures ValidResults(k, ResultsAt(book, k))
  {
    var rs := ResultsAt(book, k);
    hide Kept, ResultsAt, ValidResult, IdentityOf;
    ResultsAtOrdered(book, k);
    ResultTold(book, k, rs[0]);
    BookTold(book, k.0);
    forall i | 0 <= i < |rs| ensures ValidResult(rs[i]) && KeyOf(rs[i]) == k {
      ResultTold(book, k, rs[i]);
      ResultValid(book, rs[i]);
    }
    hide KeyOf;
    forall i, j | 0 <= i < j < |rs| ensures IdentityOf(rs[i]) != IdentityOf(rs[j]) {
      if IdentityOf(rs[i]) == IdentityOf(rs[j]) { ResultsOnce(book, rs[i], rs[j]); }
    }
  }

  /** loadTaskResults: the results of every segment, refused when a segment is not valid or past the applied index or an
      identity comes twice; on the segments of a book, all its results. */
  method LoadResults(segments: map<SegmentKey, seq<TaskResult>>, applied: nat, ghost book: Book)
    returns (ok: bool, rs: seq<TaskResult>)
    ensures hide GivesResults, Kept, ResultSegments, Sized;
            Kept(book) && Sized(book.log) && segments == ResultSegments(book) && Top(book.log) <= applied + 1 ==>
              ok && GivesResults(rs, book, 0)
  {
    hide ValidResults, GivesResults, ResultSegments, Kept, Sized, Top, IdentityOf, IsResult, ReadSoFar;
    ghost var good := Kept(book) && Sized(book.log) && segments == ResultSegments(book) && Top(book.log) <= applied + 1;
    rs := [];
    var seen: set<(Id, Id, Phase, Id)> := {};
    var rest: set<SegmentKey> := segments.Keys;
    ghost var done: set<SegmentKey> := {};
    assert good ==> ReadSoFar(book, done, rs) by { NothingRead(book); }
    while rest != {}
      invariant rest !! done && rest + done == segments.Keys && seen == Identities(rs)
      invariant good ==> ReadSoFar(book, done, rs)
      decreases |rest|
    {
      var k: SegmentKey :| k in rest;
      rest := rest - {k};
      if good { SegmentRead(book, done, rs, k, applied); }
      if !ValidResults(k, segments[k]) || k.1 > applied { return false, rs; }
      var all;
      all, ok := AppendUnseen(rs, segments[k], seen);
      if !ok { return false, rs; }
      rs, done := all, done + {k};
      seen := Identities(rs);
    }
    ok := true;
    if good { AllResultsRead(book, done, rs); }
  }

  function Identities(rs: seq<TaskResult>): set<(Id, Id, Phase, Id)> {
    set i | 0 <= i < |rs| :: IdentityOf(rs[i])
  }

  lemma {:induction false} IdentitiesLonger(rs: seq<TaskResult>, r: TaskResult)
    ensures Identities(rs + [r]) == Identities(rs) + {IdentityOf(r)}
  {
    hide IdentityOf;
    var all := rs + [r];
    assert all[|rs|] == r;
    forall x ensures x in Identities(all) <==> x in Identities(rs) || x == IdentityOf(r) {
      if i :| 0 <= i < |all| && IdentityOf(all[i]) == x { if i < |rs| { assert rs[i] == all[i]; } }
      if i :| 0 <= i < |rs| && IdentityOf(rs[i]) == x { assert all[i] == rs[i]; }
    }
  }

  method AppendUnseen(rs: seq<TaskResult>, more: seq<TaskResult>, seen: set<(Id, Id, Phase, Id)>)
    returns (all: seq<TaskResult>, ok: bool)
    requires seen == Identities(rs)
    ensures Identified(rs + more) ==> ok
    ensures ok ==> all == rs + more
  {
    hide IdentityOf;
    all, ok := rs, true;
    var known := seen;
    for n := 0 to |more|
      invariant all == rs + more[..n] && known == Identities(all)
    {
      if IdentityOf(more[n]) in known {
        var i :| 0 <= i < |all| && IdentityOf(all[i]) == IdentityOf(more[n]);
        assert (rs + more)[i] == all[i] && (rs + more)[|rs| + n] == more[n];
        return all, false;
      }
      IdentitiesLonger(all, more[n]);
      all := all + [more[n]];
      known := known + {IdentityOf(more[n])};
      assert more[..n + 1] == more[..n] + [more[n]];
    }
    assert more[..|more|] == more;
  }

  /** The results of some segments of a book, in any order. */
  ghost predicate ReadSoFar(book: Book, done: set<SegmentKey>, rs: seq<TaskResult>) {
    Identified(rs) && done <= ResultSegments(book).Keys && forall r :: r in rs <==>
      IsResult(book, r) && KeyOf(r) in done
  }

  lemma {:induction false} NothingRead(book: Book)
    ensures ReadSoFar(book, {}, [])
  {
    hide ResultSegments, IsResult;
  }

  lemma {:induction false} SegmentRead(book: Book, done: set<SegmentKey>, rs: seq<TaskResult>, k: SegmentKey,
                                       applied: nat)
    requires hide Kept, ReadSoFar, ResultSegments, Sized, ValidResults;
             Kept(book) && Sized(book.log) && ReadSoFar(book, done, rs) && k in ResultSegments(book) && k !in done
             && Top(book.log) <= applied + 1
    ensures ValidResults(k, ResultSegments(book)[k]) && k.1 <= applied
    ensures Identified(rs + ResultSegments(book)[k]) && ReadSoFar(book, done + {k}, rs + ResultSegments(book)[k])
  {
    SegmentsValid(book, k);
    Segments.KeyBelowTop(book.log, k);
    var more := ResultsAt(book, k);
    assert more == ResultSegments(book)[k];
    hide Kept, Sized, ResultsAt, Top, ValidResult, IdentityOf, IsResult, KeyOf;
    SegmentOwn(book, k);
    forall a, b | a in rs && b in more ensures IdentityOf(a) != IdentityOf(b) {
      assert KeyOf(a) in done && IsResult(book, a) && KeyOf(b) == k && IsResult(book, b);
      if IdentityOf(a) == IdentityOf(b) { ResultsOnce(book, a, b); }
    }
    assert Identified(more);
    JoinIdentified(rs, more);
    hide Identified, ResultSegments;
    forall r ensures r in rs + more <==> IsResult(book, r) && KeyOf(r) in done + {k} {}
  }

  /** The segment of a key holds exactly the results of the book that belong to it. */
  lemma {:induction false} SegmentOwn(book: Book, k: SegmentKey)
    requires hide ResultsAt;
             k in ResultSegments(book) && ValidResults(k, ResultsAt(book, k))
    ensures forall r :: r in ResultsAt(book, k) <==> IsResult(book, r) && KeyOf(r) == k
  {
    hide ResultsAt, ValidResult;
    var more := ResultsAt(book, k);
    forall r ensures r in more <==> IsResult(book, r) && KeyOf(r) == k {
      if r in more { var j :| 0 <= j < |more| && more[j] == r; }
    }
  }

  lemma {:induction false} JoinIdentified(a: seq<TaskResult>, b: seq<TaskResult>)
    requires Identified(a) && Identified(b) && forall x, y | x in a && y in b :: IdentityOf(x) != IdentityOf(y)
    ensures Identified(a + b)
  {
    hide IdentityOf;
    var all := a + b;
    forall i, j | 0 <= i < j < |all| ensures IdentityOf(all[i]) != IdentityOf(all[j]) {
      if j < |a| { assert all[i] == a[i] && all[j] == a[j]; }
      else if i < |a| { assert all[i] in a && all[j] in b; }
      else { assert all[i] == b[i - |a|] && all[j] == b[j - |a|]; }
    }
  }

  lemma {:induction false} AllResultsRead(book: Book, done: set<SegmentKey>, rs: seq<TaskResult>)
    requires hide GivesResults, Kept, ReadSoFar, ResultSegments;
             Kept(book) && ReadSoFar(book, done, rs) && done == ResultSegments(book).Keys
    ensures GivesResults(rs, book, 0)
  {
    hide Kept, IdentityOf;
    forall r ensures r in rs <==> IsResult(book, r) && r.index >= 0 {
      if IsResult(book, r) { ResultsAtOrdered(book, KeyOf(r)); }
    }
  }

  lemma {:induction false} KeptUnique(book: Book)
    requires Kept(book)
    ensures Unique(book.log)
  {
    hide Explained;
  }

  /** Every workflow of a book has a receipt. */
  lemma {:induction false} WorkflowHasReceipt(book: Book, w: Id) returns (i: nat)
    requires hide Kept;
             Kept(book) && w in book.states
    ensures i < |book.log| && book.log[i].workflow == w
  {
    hide ApplyEvent, Taken, Filed;
    var history := History(book.log, w);
    assert ApplyAll(None, history) == Ok(Lookup(book.states, w));
    assert history != [];
    Segments.TakenMember(book.log, w, 0, Top(book.log), history[0]);
    i :| 0 <= i < |book.log| && book.log[i].workflow == w && 0 <= book.log[i].index < Top(book.log)
        && history[0] in book.log[i].events;
  }
}
