/** What holds in every state that commands can reach, and over every run of commands. */
module Theorems {
  import opened Base
  import opened Ledgers
  import opened Model
  import opened Definition
  import opened Reducer
  import opened Invariant
  import opened Forms
  import opened Runs
  import opened Backoff
  import opened Steps
  import opened Preservation

  // ----- Timers and tasks -----

  /** Some scheduled timer has this purpose and task. */
  predicate HasTimer(timers: map<Id, Timer>, purpose: TimerPurpose, task: Id) {
    exists k :: k in timers && TimerMatches(timers[k], purpose, task, NO_ID)
  }

  /** Scheduled timers and tasks correspond one to one. */
  ghost predicate TimersMatchTasks(s: Workflow) {
    && (forall j, k | j in s.timers && k in s.timers && s.timers[j].status == TimerScheduled
        && s.timers[k].status == TimerScheduled
                      && s.timers[j].purpose == s.timers[k].purpose && s.timers[j].task == s.timers[k].task :: j == k)
    && (forall id | id in s.tasks ::
          && (HasTimer(s.timers, TimerTimeout, id) <==> Leased(s.tasks[id]) && s.tasks[id].definition.timeout > 0)
          && (HasTimer(s.timers, TimerRetry, id) <==> s.tasks[id].status == TaskPending && s.tasks[id].retryCount > 0))
    && (HasTimer(s.timers, TimerWorkflowStart, NO_ID) <==> s.status == WorkflowScheduled)
    && (forall k | k in s.timers && s.timers[k].status == TimerScheduled && s.timers[k].purpose != TimerWorkflowStart ::
          s.timers[k].task in s.tasks)
    && (Terminal(s.status) ==> !HasScheduledTimers(s.timers))
  }

  lemma {:induction false} TimersUnique(s: Workflow, j: Id, k: Id)
    requires hide Inv;
             Inv(s) && j in s.timers && k in s.timers
    requires s.timers[j].status == TimerScheduled && s.timers[k].status == TimerScheduled
    requires s.timers[j].purpose == s.timers[k].purpose && s.timers[j].task == s.timers[k].task
    ensures j == k
  {
    hide StatusOk, GraphOk, SagaOk, TasksOk;
    assert TimerOk(s.id, s.status, s.timers[j], s.tasks) && TimerOk(s.id, s.status, s.timers[k], s.tasks);
  }

  lemma {:induction false} TimeoutIffLeased(s: Workflow, id: Id)
    requires hide Inv;
             Inv(s) && id in s.tasks
    ensures HasTimer(s.timers, TimerTimeout, id) <==> Leased(s.tasks[id]) && s.tasks[id].definition.timeout > 0
  {
    hide StatusOk, GraphOk, SagaOk;
    if k :| k in s.timers && TimerMatches(s.timers[k], TimerTimeout, id, NO_ID) {
      assert TimerOk(s.id, s.status, s.timers[k], s.tasks);
    }
    if Leased(s.tasks[id]) && s.tasks[id].definition.timeout > 0 {
      assert TaskOk(s.id, s.version, id, s.tasks[id], s.timers);
      var k := TimeoutKey(s, id);
      assert TimerOk(s.id, s.status, s.timers[k], s.tasks);
      assert TimerMatches(s.timers[k], TimerTimeout, id, NO_ID);
    }
  }

  lemma {:induction false} StartIffScheduled(s: Workflow)
    requires Inv(s)
    ensures HasTimer(s.timers, TimerWorkflowStart, NO_ID) <==> s.status == WorkflowScheduled
  {
    hide StatusOk, GraphOk, SagaOk, TasksOk;
    if k :| k in s.timers && TimerMatches(s.timers[k], TimerWorkflowStart, NO_ID, NO_ID) {
      assert TimerOk(s.id, s.status, s.timers[k], s.tasks);
    }
    if s.status == WorkflowScheduled {
      var k := TimerID(s.id, NO_ID, TimerWorkflowStart, 0);
      assert TimerOk(s.id, s.status, s.timers[k], s.tasks);
      assert TimerMatches(s.timers[k], TimerWorkflowStart, NO_ID, NO_ID);
    }
  }

  /** A workflow that has ended has no active task. */
  lemma {:induction false} TerminalSettled(s: Workflow, id: Id)
    requires hide Inv;
             Inv(s) && Terminal(s.status) && id in s.tasks
    ensures !Active(s.tasks[id].status)
  {
    hide GraphOk, SagaOk, TasksOk, TimersOk;
    if s.status == WorkflowFailed { assert Settled(s.tasks[id]); }
  }

  lemma {:induction false} TerminalTimers(s: Workflow)
    requires Inv(s) && Terminal(s.status)
    ensures !HasScheduledTimers(s.timers)
  {
    hide StatusOk, TasksOk;
    if k :| k in s.timers && s.timers[k].status == TimerScheduled {
      assert TimerOk(s.id, s.status, s.timers[k], s.tasks);
      if s.timers[k].purpose != TimerWorkflowStart { TerminalSettled(s, s.timers[k].task); }
    }
  }

  lemma {:induction false} GoodTimers(s: Workflow)
    requires Inv(s)
    ensures TimersMatchTasks(s)
  {
    forall j, k | j in s.timers && k in s.timers && s.timers[j].status == TimerScheduled
        && s.timers[k].status == TimerScheduled
                  && s.timers[j].purpose == s.timers[k].purpose && s.timers[j].task == s.timers[k].task
      ensures j == k
    {
      TimersUnique(s, j, k);
    }
    forall id | id in s.tasks
      ensures HasTimer(s.timers, TimerTimeout, id) <==> Leased(s.tasks[id]) && s.tasks[id].definition.timeout > 0
      ensures HasTimer(s.timers, TimerRetry, id) <==> s.tasks[id].status == TaskPending && s.tasks[id].retryCount > 0
    {
      TimeoutIffLeased(s, id);
      WaitingLookup(s, id);
    }
    StartIffScheduled(s);
    if Terminal(s.status) { TerminalTimers(s); }
    forall k | k in s.timers && s.timers[k].status == TimerScheduled && s.timers[k].purpose != TimerWorkflowStart
      ensures s.timers[k].task in s.tasks
    {
      assert TimerOk(s.id, s.status, s.timers[k], s.tasks);
    }
    hide Inv, HasTimer, Leased;
  }

  /** In every reachable state at most one scheduled timer answers a lookup; a timeout is scheduled
      exactly for the held tasks that have one, a retry exactly for the tasks waiting to be retried, a
      start exactly for a scheduled workflow, and nothing in a workflow that has ended. */
  lemma {:induction false} TimerTaskCorrespondence(commands: seq<Command>)
    requires hide Run, TimersMatchTasks;
             Run(commands).Some?
    ensures TimersMatchTasks(Run(commands).value)
  {
    hide Run, Inv, TimersMatchTasks;
    ReachableInv(commands);
    GoodTimers(Run(commands).value);
  }

  // ----- Ended workflows -----

  lemma {:induction false} EffectNotTerminal(s: Workflow, c: Command, s': Workflow)
    requires Inv(s) && Effect(s, c, s')
    ensures !Terminal(s.status)
  {
    if Terminal(s.status) {
      TerminalTimers(s);
    }
    hide Inv, FailureFollows, AttemptFails, Replaces, Concludes, Advances, Expands, BeginsCompensation;
  }

  /** A workflow that has ended refuses every command, so it never changes again. */
  lemma {:induction false} TerminalIsFinal(commands: seq<Command>, c: Command)
    requires hide Decide, Run;
             Run(commands).Some? && Terminal(Run(commands).value.status)
    ensures Decide(Run(commands), c).Err?
    ensures Run(commands + [c]) == Run(commands)
  {
    assert (commands + [c])[..|commands|] == commands;
    hide Inv, Effect, Decide;
    ReachableInv(commands);
    var s := Run(commands).value;
    if Decide(Some(s), c).Ok? {
      DecideEffect(s, c);
      EffectNotTerminal(s, c, Decide(Some(s), c).value.state);
    }
  }

  // ----- Deadlock freedom -----

  /** Something can still happen: a task can be started, a worker holds one, or a timer is scheduled. */
  predicate CanProgress(s: Workflow) {
    || (exists id :: id in s.tasks && Startable(s.tasks[id]))
    || (exists id :: id in s.tasks && Leased(s.tasks[id]))
    || HasScheduledTimers(s.timers)
  }

  /** Among pending tasks, one of least rank depends on completed tasks only. */
  lemma {:induction false} LeastPending(tasks: map<Id, Task>, rank: map<Id, nat>, id: Id) returns (least: Id)
    requires Ranks(DependencyGraph(tasks), rank)
    requires forall x, d | x in tasks && d in tasks[x].definition.dependencies :: d in tasks
    requires forall x | x in tasks :: tasks[x].status in {TaskPending, TaskCompleted}
    requires id in tasks && tasks[id].status == TaskPending
    ensures least in tasks && tasks[least].status == TaskPending && DependenciesCompleted(tasks, tasks[least])
    decreases rank[id]
  {
    if d :| d in tasks[id].definition.dependencies && !IsCompleted(tasks, d) {
      assert d in DependencyGraph(tasks)[id];
      least := LeastPending(tasks, rank, d);
    } else {
      least := id;
    }
  }

  lemma {:induction false} RunningProgress(s: Workflow)
    requires Inv(s) && s.status == WorkflowRunning
    ensures CanProgress(s)
  {
    hide TasksOk, TimersOk;
    assert forall id | id in s.tasks :: HeldBack(s.tasks, id);
    if !CanProgress(s) {
      forall id | id in s.tasks
        ensures s.tasks[id].status in {TaskPending, TaskCompleted}
                && (s.tasks[id].status == TaskPending ==> s.tasks[id].retryCount == 0)
      {
        WaitingLookup(s, id);
      }
      var id :| id in s.tasks && s.tasks[id].status != TaskCompleted;
      var rank :| Ranks(DependencyGraph(s.tasks), rank);
      var least := LeastPending(s.tasks, rank, id);
    }
  }

  lemma {:induction false} CompensatingProgress(s: Workflow)
    requires Inv(s) && s.status == WorkflowCompensating
    ensures CanProgress(s)
  {
    hide GraphOk, SagaOk, TasksOk, TimersOk;
    var id :| CurrentCompensation(s.tasks, id);
    WaitingLookup(s, id);
  }

  /** No reachable workflow is stuck: until it has ended, it has a startable task, a live lease or a
      scheduled timer. */
  lemma {:induction false} NeverStuck(commands: seq<Command>)
    requires hide CanProgress, Run;
             Run(commands).Some? && !Terminal(Run(commands).value.status)
    ensures CanProgress(Run(commands).value)
  {
    hide Run, Decide;
    ReachableInv(commands);
    var s := Run(commands).value;
    match s.status {
      case WorkflowScheduled =>
        assert IsScheduled(s.timers, TimerID(s.id, NO_ID, TimerWorkflowStart, 0));
      case WorkflowRunning => RunningProgress(s);
      case WorkflowCompensating => CompensatingProgress(s);
    }
  }

  /** A task is ready, running or completed only when all its dependencies are completed. */
  lemma {:induction false} DependenciesFirst(commands: seq<Command>, id: Id)
    requires hide Run;
             Run(commands).Some? && Run(commands).value.status == WorkflowRunning && id in Run(commands).value.tasks
    requires Run(commands).value.tasks[id].status in {TaskReady, TaskRunning, TaskCompleted}
    ensures DependenciesCompleted(Run(commands).value.tasks, Run(commands).value.tasks[id])
  {
    hide Run, Decide;
    ReachableInv(commands);
    hide GraphOk, SagaOk, TasksOk, TimersOk;
    assert HeldBack(Run(commands).value.tasks, id);
  }

  /** A compacted workflow is a good one. */
  lemma {:induction false} HeaderGood(w: Workflow)
    requires Inv(w) && Terminal(w.status)
    ensures Inv(Header(w)) && Terminal(Header(w).status)
  {
    hide TaskOk, TimerOk;
    var h := Header(w);
    assert Ranks(DependencyGraph(h.tasks), map[]);
  }

  /** Nothing is accepted on a workflow that has ended. */
  lemma {:induction false} EndedRefuses(w: Workflow, c: Command)
    requires Inv(w) && Terminal(w.status)
    ensures Decide(Some(w), c).Err?
  {
    hide Inv, Effect, Decide;
    if Decide(Some(w), c).Ok? {
      DecideEffect(w, c);
      EffectNotTerminal(w, c, Decide(Some(w), c).value.state);
    }
  }

  // ----------------------------------------------------------------------------------------------------
  // What never goes back, step by step and over whole runs: attempts, completions and compensations.
  // ----------------------------------------------------------------------------------------------------

  // ----- One step -----

  /** What a task keeps from one state to the next. */
  predicate TaskMoves(t: Task, t': Task) {
    && t'.attempt >= t.attempt
    && (t.completedSequence > 0 ==> t'.completedSequence == t.completedSequence)
    && (Undoing(t) ==> Undoing(t'))
    && (t.status == TaskCompensated ==> t'.status == TaskCompensated)
    && t'.definition.compensation == t.definition.compensation
  }

  /** Tasks move on and none of them begins to be compensated. */
  ghost predicate Carries(tasks: map<Id, Task>, tasks': map<Id, Task>) {
    && tasks.Keys <= tasks'.Keys
    && (forall id | id in tasks :: TaskMoves(tasks[id], tasks'[id]) && (Undoing(tasks'[id]) ==> Undoing(tasks[id])))
    && (forall id | id in tasks' && id !in tasks :: !Undoing(tasks'[id]))
  }

  /** Nothing completes either. */
  ghost predicate CarriesOpen(tasks: map<Id, Task>, tasks': map<Id, Task>) {
    Carries(tasks, tasks') && forall id | id in tasks' && tasks'[id].status == TaskCompleted :: IsCompleted(tasks, id)
  }

  /** The compensation of `id` begins between the two states. */
  predicate BeginsUndoing(tasks: map<Id, Task>, tasks': map<Id, Task>, id: Id) {
    id in tasks' && Undoing(tasks'[id]) && (id in tasks ==> !Undoing(tasks[id]))
  }

  /** Tasks move on; at most one of them begins to be compensated, and it was the one to choose. */
  ghost predicate Moves(tasks: map<Id, Task>, tasks': map<Id, Task>) {
    && tasks.Keys <= tasks'.Keys
    && (forall id | id in tasks :: TaskMoves(tasks[id], tasks'[id]))
    && (forall id | BeginsUndoing(tasks, tasks', id) :: Compensable(tasks, id))
    && (forall u, v | BeginsUndoing(tasks, tasks', u) && BeginsUndoing(tasks, tasks', v) :: u == v)
  }

  lemma {:induction false} CarriesMoves(tasks: map<Id, Task>, tasks': map<Id, Task>)
    requires Carries(tasks, tasks')
    ensures Moves(tasks, tasks')
  {
  }

  lemma {:induction false} CarriesTransitive(a: map<Id, Task>, b: map<Id, Task>, c: map<Id, Task>)
    requires Carries(a, b) && Carries(b, c)
    ensures Carries(a, c)
  {
  }

  lemma {:induction false} OneCarries(tasks: map<Id, Task>, id: Id, t: Task)
    requires id in tasks && TaskMoves(tasks[id], t) && (Undoing(t) ==> Undoing(tasks[id]))
    ensures Carries(tasks, tasks[id := t])
    ensures t.status != TaskCompleted ==> CarriesOpen(tasks, tasks[id := t])
  {
  }

  lemma {:induction false} CompensationMoves(a: map<Id, Task>, s2: Workflow, at: int64, s': Workflow)
    requires CarriesOpen(a, s2.tasks) && BeginsCompensation(s2, at, s') && a.Keys == s2.tasks.Keys
    ensures Moves(a, s'.tasks)
  {
    var next :| NextCompensation(s2.tasks) == Some(next)
        && s'.tasks == s2.tasks[next := CompensatingTask(s2.tasks[next])];
    hide NextCompensation;
    assert Compensable(s2.tasks, next);
    assert IsCompleted(a, next) && TaskMoves(a[next], s2.tasks[next]);
  }

  lemma {:induction false} WindDownCarries(a: map<Id, Task>, s1: Workflow, at: int64, s2: Workflow)
    requires hide CarriesOpen, WindsDown;
             CarriesOpen(a, s1.tasks) && a.Keys == s1.tasks.Keys && WindsDown(s1, at, s2)
    requires forall id | id in s1.tasks && Undoing(s1.tasks[id]) :: !Cancellable(s1.tasks[id].status)
    ensures CarriesOpen(a, s2.tasks) && a.Keys == s2.tasks.Keys
  {
    hide CancelTimers;
    forall id | id in a
      ensures TaskMoves(a[id], s2.tasks[id]) && (Undoing(s2.tasks[id]) ==> Undoing(a[id]))
      ensures s2.tasks[id].status == TaskCompleted ==> IsCompleted(a, id)
    {
      assert TaskMoves(a[id], s1.tasks[id]);
    }
  }

  lemma {:induction false} ConcludeMoves(a: map<Id, Task>, s1: Workflow, status: WorkflowStatus, at: int64,
                                         s': Workflow)
    requires hide CarriesOpen, Concludes, Moves;
             CarriesOpen(a, s1.tasks) && a.Keys == s1.tasks.Keys && Concludes(s1, status, at, s')
    requires forall id | id in s1.tasks && Undoing(s1.tasks[id]) :: !Cancellable(s1.tasks[id].status)
    ensures Moves(a, s'.tasks)
  {
    hide WindsDown, BeginsCompensation, CarriesOpen, Moves;
    var s2 :| WindsDown(s1, at, s2)
              && (BeginsCompensation(s2, at, s') || (NextCompensation(s2.tasks).None? && Ends(s2, status, at, s')));
    WindDownCarries(a, s1, at, s2);
    if BeginsCompensation(s2, at, s') {
      CompensationMoves(a, s2, at, s');
    } else {
      OpenMoves(a, s2.tasks);
    }
  }

  lemma {:induction false} OpenMoves(tasks: map<Id, Task>, tasks': map<Id, Task>)
    requires CarriesOpen(tasks, tasks')
    ensures Moves(tasks, tasks')
  {
  }

  lemma {:induction false} FailMoves(s: Workflow, id: Id, error: string, status: TimerStatus, at: int64, s1: Workflow,
                                     s': Workflow)
    requires Inv(s) && AttemptFails(s, id, error, status, at, s1) && FailureFollows(s1, id, at, s')
    ensures Moves(s.tasks, s'.tasks)
  {
    hide TasksOk, TimersOk, GraphOk, SagaOk, Concludes, Moves, TimeoutSettled, RetryDelay, CarriesOpen, Carries;
    var t := FailedTask(s.tasks[id], error, at);
    OneCarries(s.tasks, id, t);
    if RetriesLeft(s1.tasks[id]) {
      hide StatusOk;
      OneCarries(s.tasks, id, RetriedTask(t));
      assert s'.tasks == s.tasks[id := RetriedTask(t)];
      CarriesMoves(s.tasks, s'.tasks);
    } else if t.compensation {
      OpenMoves(s.tasks, s'.tasks);
    } else {
      forall x | x in s1.tasks ensures !Undoing(s1.tasks[x]) { assert HeldBack(s.tasks, x); }
      ConcludeMoves(s.tasks, s1, WorkflowFailed, at, s');
    }
  }

  lemma {:induction false} CancelMoves(s: Workflow, c: Command, s': Workflow)
    requires Inv(s) && Cancels(s, c, s')
    ensures Moves(s.tasks, s'.tasks)
  {
    hide TasksOk, TimersOk, GraphOk, SagaOk, Concludes, Moves;
    forall x | x in s.tasks ensures !Undoing(s.tasks[x]) {
      if s.status == WorkflowRunning { assert HeldBack(s.tasks, x); } else { assert Invariant.Fresh(s.tasks[x]); }
    }
    ConcludeMoves(s.tasks, s.(version := s.version + 1, updatedAt := c.at), WorkflowCancelled, c.at, s');
  }

  lemma {:induction false} FinishMoves(s: Workflow, c: Command, s': Workflow)
    requires Inv(s) && FinishesCompensation(s, c, s')
    ensures Moves(s.tasks, s'.tasks)
  {
    hide Inv, TimeoutSettled, BeginsCompensation, Moves, CarriesOpen;
    var t := CompensatedTask(s.tasks[c.task], c.at);
    var s1 :| && Replaces(s, c.task, t, TimerCancelled, c.at, s1)
              && (BeginsCompensation(s1, c.at, s')
                  || (NextCompensation(s1.tasks).None? && Ends(s1, WorkflowCompensated, c.at, s')));
    OneCarries(s.tasks, c.task, t);
    if BeginsCompensation(s1, c.at, s') {
      CompensationMoves(s.tasks, s1, c.at, s');
    } else {
      OpenMoves(s.tasks, s1.tasks);
    }
  }

  lemma {:induction false} ExpandCarries(s: Workflow, c: Command, s1: Workflow, s2: Workflow)
    requires Inv(s) && TaskCompletes(s, c, s1) && Expands(s1, c.task, c.at, s2)
    ensures Carries(s1.tasks, s2.tasks)
  {
    hide TimersOk, SagaOk, TimeoutSettled;
    if s1.tasks[c.task].definition.fanout.Some? {
      var fanout := s1.tasks[c.task].definition.fanout.value;
      AggregateWaits(s, c.task);
      hide Inv, CanonicalExpansion, WithChildren, ExpandedTasks;
      var expanded :|
        && CanonicalExpansion(s1.id, s1.tasks, s1.tasks[c.task].definition, fanout, expanded)
        && |expanded| <= fanout.maxItems && fanout.aggregate in WithChildren(s1.tasks, expanded)
        && s2 == s1.(tasks := ExpandedTasks(s1.tasks, c.task, fanout, expanded), version := s2.version,
            updatedAt := s2.updatedAt);
      ExpansionShape(s1.id, s1.tasks, c.task, fanout, expanded);
      ExpansionCarries(s1.id, s1.tasks, c.task, s2.tasks);
    }
  }

  lemma {:induction false} ExpansionCarries(w: Id, tasks: map<Id, Task>, id: Id, tasks2: map<Id, Task>)
    requires hide Carries, Expansion;
             id in tasks && Expansion(w, tasks[id := tasks[id].(fanoutExpanded := true)], id, tasks2)
    ensures Carries(tasks, tasks2)
  {
    var flagged := tasks[id := tasks[id].(fanoutExpanded := true)];
    forall x | x in tasks2 && x !in tasks ensures !Undoing(tasks2[x]) {
      assert Child(w, flagged[id].definition, flagged[id].definition.fanout.value, x, tasks2[x]);
    }
  }

  lemma {:induction false} CompleteMoves(s: Workflow, c: Command, s': Workflow)
    requires Inv(s) && c.at >= 0 && Completes(s, c, s')
    ensures Moves(s.tasks, s'.tasks)
  {
    hide TasksOk, TimersOk, GraphOk, SagaOk, StatusOk, TimeoutSettled, Expands, Advances, Carries, Moves;
    var t := CompletedTask(s.tasks[c.task], c, s.version + 1);
    var s1, s2 :| && Replaces(s, c.task, t, TimerCancelled, c.at, s1)
                  && Expands(s1, c.task, c.at, s2) && Advances(s2, c.at, s');
    NotDone(s, c.task);
    OneCarries(s.tasks, c.task, t);
    ExpandCarries(s, c, s1, s2);
    AdvanceCarries(s2, c.at, s');
    CarriesTransitive(s.tasks, s1.tasks, s2.tasks);
    CarriesTransitive(s.tasks, s2.tasks, s'.tasks);
    CarriesMoves(s.tasks, s'.tasks);
  }

  lemma {:induction false} NotDone(s: Workflow, id: Id)
    requires hide Inv;
             Inv(s) && id in s.tasks && s.tasks[id].status == TaskRunning
    ensures s.tasks[id].completedSequence == 0 && !s.tasks[id].compensation
  {
    hide StatusOk, TimersOk;
    assert TaskOk(s.id, s.version, id, s.tasks[id], s.timers);
  }

  lemma {:induction false} AdvanceCarries(s2: Workflow, at: int64, s': Workflow)
    requires Advances(s2, at, s')
    ensures Carries(s2.tasks, s'.tasks)
  {
    hide AllCompleted;
  }

  lemma {:induction false} FireStartMoves(s: Workflow, c: Command, s': Workflow)
    requires FiresStart(s, c, s')
    ensures Moves(s.tasks, s'.tasks)
  {
    assert Carries(s.tasks, s'.tasks);
  }

  lemma {:induction false} HeldMoves(s: Workflow, c: Command, s': Workflow)
    requires Starts(s, c, s') || Renews(s, c, s') || Expires(s, c, s')
    ensures Moves(s.tasks, s'.tasks)
  {
    hide TimeoutSettled;
    OneCarries(s.tasks, c.task, s'.tasks[c.task]);
    CarriesMoves(s.tasks, s'.tasks);
  }

  lemma {:induction false} FireRetryMoves(s: Workflow, c: Command, s': Workflow)
    requires FiresRetry(s, c, s')
    ensures Moves(s.tasks, s'.tasks)
  {
    var id := s.timers[c.timer].task;
    OneCarries(s.tasks, id, s'.tasks[id]);
    CarriesMoves(s.tasks, s'.tasks);
  }

  lemma {:induction false} EffectMoves(s: Workflow, c: Command, s': Workflow)
    requires Inv(s) && c.at >= 0 && Effect(s, c, s')
    ensures Moves(s.tasks, s'.tasks)
  {
    hide Inv, Starts, Completes, FinishesCompensation, Renews, Expires, FiresStart, FiresRetry, FailureFollows,
        AttemptFails, Cancels, Moves;
    match c.kind
    case CommandStart => HeldMoves(s, c, s');
    case CommandComplete => if Completes(s, c, s') { CompleteMoves(s, c, s'); } else { FinishMoves(s, c, s'); }
    case CommandFail =>
      var s1 :| AttemptFails(s, c.task, c.error, TimerCancelled, c.at, s1) && FailureFollows(s1, c.task, c.at, s');
      FailMoves(s, c.task, c.error, TimerCancelled, c.at, s1, s');
    case CommandRenew => HeldMoves(s, c, s');
    case CommandExpire => HeldMoves(s, c, s');
    case CommandFireTimer =>
      match s.timers[c.timer].purpose {
        case TimerWorkflowStart => FireStartMoves(s, c, s');
        case TimerRetry => FireRetryMoves(s, c, s');
        case TimerTimeout =>
          var id := s.timers[c.timer].task;
          var s1 :| AttemptFails(s, id, "task timed out", TimerFired, c.at, s1) && FailureFollows(s1, id, c.at, s');
          FailMoves(s, id, "task timed out", TimerFired, c.at, s1, s');
      }
    case CommandCancel => CancelMoves(s, c, s');
  }

  // ----- Whole runs -----

  ghost predicate Exists(commands: seq<Command>, n: nat) {
    hide After;
    n <= |commands| && After(commands, n).Some?
  }

  ghost function At(commands: seq<Command>, n: nat): Workflow
    requires hide After;
             Exists(commands, n)
  {
    After(commands, n).value
  }

  lemma {:induction false} StepMoves(commands: seq<Command>, n: nat)
    requires hide At, Exists, Inv, Moves;
             n < |commands| && Exists(commands, n)
    ensures Exists(commands, n + 1) && Moves(At(commands, n).tasks, At(commands, n + 1).tasks)
    ensures Inv(At(commands, n)) && Inv(At(commands, n + 1))
  {
    hide Run, Decide, Inv, Effect, Moves;
    AfterStep(commands, n);
    ReachableInv(commands[..n]);
    ReachableInv(commands[..n + 1]);
    var s, c := At(commands, n), commands[n];
    if Decide(Some(s), c).Ok? {
      DecideEffect(s, c);
      EffectMoves(s, c, Decide(Some(s), c).value.state);
    } else {
      SelfMoves(s.tasks);
    }
  }

  lemma {:induction false} SelfMoves(tasks: map<Id, Task>)
    ensures Moves(tasks, tasks)
  {
  }

  /** A task keeps moving on along the run. */
  lemma {:induction false} RunMoves(commands: seq<Command>, m: nat, n: nat, id: Id)
    requires hide At, Exists;
             m <= n <= |commands| && Exists(commands, m) && id in At(commands, m).tasks
    ensures Exists(commands, n) && id in At(commands, n).tasks
    ensures TaskMoves(At(commands, m).tasks[id], At(commands, n).tasks[id])
    decreases n - m
  {
    hide After, Inv, Exists;
    if m < n {
      StepMoves(commands, m);
      RunMoves(commands, m + 1, n, id);
    }
  }

  /** The compensation of `id` begins with command `n` of the run. */
  ghost predicate CompensationBegins(commands: seq<Command>, n: nat, id: Id) {
    hide At, Exists;
    && n < |commands| && Exists(commands, n) && Exists(commands, n + 1)
    && BeginsUndoing(At(commands, n).tasks, At(commands, n + 1).tasks, id)
  }

  /** In every run compensations begin one at a time, at most once for each task, and in strictly
      decreasing order of completion. */
  lemma {:induction false} SagaOrder(commands: seq<Command>, m: nat, n: nat, u: Id, v: Id)
    requires hide At, Exists;
             CompensationBegins(commands, m, u) && CompensationBegins(commands, n, v) && m <= n && (m != n || u != v)
    ensures m < n && u != v && u in At(commands, n).tasks && v in At(commands, n).tasks
    ensures At(commands, n).tasks[u].completedSequence > At(commands, n).tasks[v].completedSequence > 0
  {
    hide After, Inv;
    StepMoves(commands, n);
    if m < n {
      StepMoves(commands, m);
      RunMoves(commands, m + 1, n, u);
      LatestFirst(At(commands, n), u, v);
    }
  }

  lemma {:induction false} LatestFirst(s: Workflow, u: Id, v: Id)
    requires hide Inv;
             Inv(s) && u in s.tasks && Undoing(s.tasks[u]) && Compensable(s.tasks, v)
    ensures u != v && s.tasks[u].completedSequence > s.tasks[v].completedSequence > 0
  {
    hide TimersOk, GraphOk, StatusOk;
    assert TaskOk(s.id, s.version, v, s.tasks[v], s.timers);
  }

  /** In every reachable state at most one compensation is in progress. */
  lemma {:induction false} OneCompensationAtATime(commands: seq<Command>, u: Id, v: Id)
    requires hide Run;
             Run(commands).Some?
    requires var tasks := Run(commands).value.tasks;
             && u in tasks && tasks[u].compensation && Active(tasks[u].status)
             && v in tasks && tasks[v].compensation && Active(tasks[v].status)
    ensures u == v
  {
    hide Run, Decide;
    ReachableInv(commands);
    hide TasksOk, TimersOk, GraphOk, SagaOk;
    var s := Run(commands).value;
    var t, held := s.tasks[u], HeldBack(s.tasks, u);
    assert s.status == WorkflowFailed ==> Settled(t);
    assert s.status == WorkflowScheduled ==> Invariant.Fresh(t);
    assert s.status == WorkflowRunning ==> held;
  }

  /** A workflow ends as compensated only when every completed task that has a compensation was
      compensated, and as cancelled only when there is none. */
  lemma {:induction false} CompensatedIsComplete(commands: seq<Command>, id: Id)
    requires hide Run;
             Run(commands).Some? && Run(commands).value.status in {WorkflowCompensated, WorkflowCancelled}
    requires id in Run(commands).value.tasks
    requires Run(commands).value.tasks[id].completedSequence > 0
             && Run(commands).value.tasks[id].definition.compensation.Some?
    ensures Run(commands).value.tasks[id].status == TaskCompensated
  {
    hide Run, Decide;
    ReachableInv(commands);
    hide TimersOk, GraphOk, SagaOk;
    var s := Run(commands).value;
    assert TaskOk(s.id, s.version, id, s.tasks[id], s.timers);
    assert Closed(s.tasks[id]) && !Compensable(s.tasks, id);
  }

  // ----- Fencing -----

  /** A command that an attempt sends about its own lease. */
  predicate FromAttempt(kind: CommandKind) {
    kind in {CommandComplete, CommandFail, CommandRenew, CommandExpire}
  }

  lemma {:induction false} EffectHolds(s: Workflow, c: Command, s': Workflow)
    requires FromAttempt(c.kind) && Effect(s, c, s')
    ensures Holds(s, c)
  {
    hide Completes, FinishesCompensation, Cancels, FiresTyped;
    if c.kind == CommandComplete { CompleteHolds(s, c, s'); }
  }

  lemma {:induction false} CompleteHolds(s: Workflow, c: Command, s': Workflow)
    requires Completes(s, c, s') || FinishesCompensation(s, c, s')
    ensures Holds(s, c)
  {
    hide Replaces, Expands, Advances, BeginsCompensation, Holds;
  }

  /** Only the newest attempt can complete, fail, renew or expire: the command carries the fence,
      which is the attempt number, and the attempt id of the task as it stands, and a worker holds it. */
  lemma {:induction false} OnlyNewestFence(commands: seq<Command>, c: Command)
    requires hide Decide, Run;
             Run(commands).Some? && FromAttempt(c.kind) && Decide(Run(commands), c).Ok?
    ensures var s := Run(commands).value;
            && c.task in s.tasks && Leased(s.tasks[c.task])
            && c.fence == s.tasks[c.task].fence == s.tasks[c.task].attempt
            && c.attemptId == AttemptID(s.id, c.task, s.tasks[c.task].attempt)
            && c.worker == s.tasks[c.task].worker
  {
    hide Run, Decide, Effect;
    ReachableInv(commands);
    var s := Run(commands).value;
    DecideEffect(s, c);
    EffectHolds(s, c, Decide(Some(s), c).value.state);
    hide TimersOk, GraphOk, SagaOk, StatusOk;
    assert TaskOk(s.id, s.version, c.task, s.tasks[c.task], s.timers);
  }

  /** Once a start has been accepted, no command that carries an older fence of the task is ever
      accepted again. */
  lemma {:induction false} StaleFenceRejected(commands: seq<Command>, m: nat, n: nat, c: Command)
    requires hide After, At, Decide, Exists;
             m < n <= |commands| && Exists(commands, m) && commands[m].kind == CommandStart
    requires Decide(After(commands, m), commands[m]).Ok?
    requires FromAttempt(c.kind) && c.task == commands[m].task
    ensures c.task in At(commands, m).tasks
    ensures c.fence <= At(commands, m).tasks[c.task].fence ==> Decide(After(commands, n), c).Err?
  {
    hide Run, Decide, Inv;
    var s, start := At(commands, m), commands[m];
    AfterStep(commands, m);
    ReachableInv(commands[..m]);
    DecideEffect(s, start);
    StepMoves(commands, m);
    RunMoves(commands, m + 1, n, c.task);
    StartRaisesFence(s, start, At(commands, m + 1));
    if Decide(After(commands, n), c).Ok? {
      OnlyNewestFence(commands[..n], c);
    }
  }

  lemma {:induction false} StartRaisesFence(s: Workflow, c: Command, s': Workflow)
    requires hide Inv, Starts;
             Inv(s) && Starts(s, c, s')
    ensures c.task in s.tasks && c.task in s'.tasks && s.tasks[c.task].fence == s.tasks[c.task].attempt
    ensures s'.tasks[c.task].attempt == s.tasks[c.task].attempt + 1
  {
    hide TimersOk, GraphOk, SagaOk, StatusOk;
    assert TaskOk(s.id, s.version, c.task, s.tasks[c.task], s.timers);
  }

  /** A lease never outlasts its timeout. */
  lemma {:induction false} LeaseWithinTimeout(commands: seq<Command>, id: Id)
    requires hide Run;
             Run(commands).Some? && id in Run(commands).value.tasks
    requires Leased(Run(commands).value.tasks[id]) && Run(commands).value.tasks[id].definition.timeout > 0
    ensures var s := Run(commands).value;
            var timer := ScheduledTimer(s.timers, TimerTimeout, id, s.tasks[id].attemptId);
            timer.Some? && s.tasks[id].leaseUntil <= timer.value.deadline
            && timer.value.deadline == s.tasks[id].startedAt + s.tasks[id].definition.timeout
  {
    hide Run, Decide;
    ReachableInv(commands);
    var s := Run(commands).value;
    TimeoutLookup(s, id);
    assert TaskOk(s.id, s.version, id, s.tasks[id], s.timers);
    assert TimerOk(s.id, s.status, s.timers[TimeoutKey(s, id)], s.tasks);
  }

  /** The retry budget is never overrun, so the 32-bit retry counter never wraps. */
  lemma {:induction false} RetryCounterNeverWraps(commands: seq<Command>, id: Id)
    requires hide Run;
             Run(commands).Some? && id in Run(commands).value.tasks
    ensures var t := Run(commands).value.tasks[id];
            t.retryCount < t.definition.retry.maxAttempts && Next32(t.retryCount) == t.retryCount + 1
  {
    hide Run, Decide;
    ReachableInv(commands);
    var s := Run(commands).value;
    assert TaskOk(s.id, s.version, id, s.tasks[id], s.timers);
  }
}
