/** The local runner of cmd/chronos/main.go: what holds between its steps, and its loop on a mutable engine. */
module Driver {
  import opened Base
  import opened CanonicalForms
  import opened Model
  import opened IdOrder
  import opened Definition
  import opened Reducer
  import opened Invariant
  import opened Steps
  import opened Forms
  import opened Submission
  import opened Preservation
  import opened Acceptance
  import opened Runs
  import opened Theorems
  import opened Lawfulness
  import opened Usage
  import opened Plans
  import opened Ledgers
  import opened Quotas
  import opened Pipelines
  import opened Chronicle
  import opened CoreEngine

  const SUBMIT_REQUEST: Id := Text("cli-submit")

  /** The workflow that a run submits. */
  function RunWorkflow(definition: WorkflowDefinition): Id {
    WorkflowID(definition.namespace, SUBMIT_REQUEST)
  }

  // ----- States between the driver's steps -----

  /** No task has failed, and none that waits has been attempted. */
  predicate Unfailed(s: Workflow) {
    s.status in {WorkflowScheduled, WorkflowRunning, WorkflowCompleted}
        && forall id | id in s.tasks :: Untried(s.tasks[id])
  }

  predicate Untried(t: Task) {
    t.retryCount == 0 && (t.status in {TaskPending, TaskReady} ==> t.attempt == 0)
  }

  /** No worker holds a task but perhaps one. */
  predicate HeldOnly(s: Workflow, held: set<Id>) {
    forall id | id in s.tasks && Leased(s.tasks[id]) :: id in held
  }

  /** A request that the driver has made: its submission, or one whose effect shows in the state. */
  predicate Made(s: Workflow, r: Id) {
    || r == SUBMIT_REQUEST
    || (exists id :: id in s.tasks && exists n :: 0 <= n <= s.tasks[id].attempt && r == LeaseRequestID(s.id, id, n))
    || (exists id :: id in s.tasks && s.tasks[id].status == TaskCompleted && Reports(s.id, id, r))
    || (exists k :: k in s.timers && s.timers[k].status != TimerScheduled && r == TimerRequestID(k))
  }

  predicate Reports(w: Id, id: Id, r: Id) {
    r.Digest? && r.kind == CompletionRequestKind && r.first.Digest? && r.first.kind == AttemptKind
        && r.first.first == w && r.first.second == id
  }

  /** What one step keeps of the one before: tasks and timers stay, attempts do not fall, completed tasks and settled
      timers stay so, and no task comes in failed. */
  ghost predicate Proceeds(s: Workflow, s': Workflow) {
    && s'.id == s.id
    && (forall id | id in s.tasks :: id in s'.tasks && s.tasks[id].attempt <= s'.tasks[id].attempt
                                   && (s.tasks[id].status == TaskCompleted ==> s'.tasks[id].status == TaskCompleted))
    && TimersKeep(s.timers, s'.timers)
  }

  predicate TimersKeep(a: map<Id, Timer>, b: map<Id, Timer>) {
    forall k | k in a :: k in b && (a[k].status != TimerScheduled ==> b[k].status != TimerScheduled)
  }

  lemma {:induction false} MadeStays(s: Workflow, s': Workflow, r: Id)
    requires Proceeds(s, s') && Made(s, r)
    ensures Made(s', r)
  {
    if r != SUBMIT_REQUEST {
      if id :| id in s.tasks && exists n :: 0 <= n <= s.tasks[id].attempt && r == LeaseRequestID(s.id, id, n) {
        var n :| 0 <= n <= s.tasks[id].attempt && r == LeaseRequestID(s.id, id, n);
        assert id in s'.tasks && 0 <= n <= s'.tasks[id].attempt;
      } else if id :| id in s.tasks && s.tasks[id].status == TaskCompleted && Reports(s.id, id, r) {
        assert id in s'.tasks && Reports(s'.id, id, r);
      } else {
        var k :| k in s.timers && s.timers[k].status != TimerScheduled && r == TimerRequestID(k);
        assert k in s'.timers;
      }
    }
  }

  /** The driver's next requests are new ones. */
  lemma {:induction false} RequestsNew(s: Workflow, id: Id, k: Id)
    ensures hide Made;
            id in s.tasks && s.tasks[id].attempt < MAX_UINT32
            ==> !Made(s, LeaseRequestID(s.id, id, s.tasks[id].attempt + 1))
    ensures id in s.tasks && s.tasks[id].status != TaskCompleted ==>
              forall n: uint32, f: uint64 :: !Made(s, CompletionRequestID(AttemptID(s.id, id, n), f))
    ensures k in s.timers && s.timers[k].status == TimerScheduled ==> !Made(s, TimerRequestID(k))
  {
  }

  // ----- Steps -----

  lemma {:induction false} StartStep(s: Workflow, c: Command, s': Workflow)
    requires hide Reserved, StartedTask, StatusOk, TasksOk, TimersOk;
             Inv(s) && Unfailed(s) && HeldOnly(s, {}) && Starts(s, c, s')
    ensures Unfailed(s') && HeldOnly(s', {c.task}) && Proceeds(s, s') && Reserved(s') == Reserved(s)
    ensures c.task in s'.tasks && s'.tasks[c.task].status == TaskRunning
            && s'.tasks[c.task].attempt == s.tasks[c.task].attempt + 1
  {
    hide Inv, Reserved, Usage.Running, Starts;
    StartUsage(s, c, s');
    StartShape(s, c, s');
    StartFollows(s, c.task, s');
  }

  lemma {:induction false} StartFollows(s: Workflow, id: Id, s': Workflow)
    requires Unfailed(s) && HeldOnly(s, {}) && id in s.tasks && id in s'.tasks
             && s'.tasks == s.tasks[id := s'.tasks[id]]
    requires s.tasks[id].status == TaskReady && s'.tasks[id].retryCount == s.tasks[id].retryCount
             && s'.tasks[id].attempt == s.tasks[id].attempt + 1
    requires s'.id == s.id && s'.status == s.status && TimersKeep(s.timers, s'.timers)
             && s'.tasks[id].status == TaskRunning
    ensures Unfailed(s') && HeldOnly(s', {id}) && Proceeds(s, s')
  {
    hide TimersKeep;
  }

  lemma {:induction false} StartShape(s: Workflow, c: Command, s': Workflow)
    requires hide Inv, Starts;
             Inv(s) && Starts(s, c, s') && Unfailed(s)
    ensures c.task in s.tasks && s.tasks[c.task].attempt < MAX_UINT32
    ensures c.task in s'.tasks && s'.tasks[c.task].status == TaskRunning
            && s'.tasks[c.task].attempt == s.tasks[c.task].attempt + 1
    ensures s'.tasks == s.tasks[c.task := s'.tasks[c.task]] && s'.tasks[c.task].retryCount == s.tasks[c.task].retryCount
    ensures s.tasks[c.task].status == TaskReady && s'.id == s.id && s'.status == s.status
            && TimersKeep(s.timers, s'.timers)
  {
    TimeoutNew(s, c.task, s.tasks[c.task].attempt + 1);
    hide Inv, Unfailed;
    UnfailedStatus(s);
    hide StartedEvent;
    StartedShape(s, s.tasks[c.task], c);
    hide StartedTask;
  }

  lemma {:induction false} UnfailedStatus(s: Workflow)
    requires Unfailed(s)
    ensures s.status in {WorkflowScheduled, WorkflowRunning, WorkflowCompleted}
  {
  }

  lemma {:induction false} StartedShape(s: Workflow, t: Task, c: Command)
    requires hide StartedTask;
             t.attempt < MAX_UINT32 && t.fence < MAX_UINT64
    ensures StartedTask(s, t, c).attempt == t.attempt + 1 && StartedTask(s, t, c).retryCount == t.retryCount
    ensures StartedTask(s, t, c).status == if StartsCompensation(s, t) then TaskCompensating else TaskRunning
  {
  }

  lemma {:induction false} FireStep(s: Workflow, c: Command, s': Workflow)
    requires hide FiresStart, FiresTimeout, Reserved, StatusOk, TasksOk, TimersOk;
             Inv(s) && Unfailed(s) && HeldOnly(s, {}) && FiresTyped(s, c, s')
             && s.timers[c.timer].status == TimerScheduled
    ensures Unfailed(s') && HeldOnly(s', {}) && Proceeds(s, s') && Reserved(s') <= Reserved(s)
    ensures c.timer in s'.timers && s'.timers[c.timer].status != TimerScheduled && s.status == WorkflowScheduled
            && s'.status == WorkflowRunning
    ensures s'.updatedAt == c.at
  {
    hide StatusOk, TaskOk, TasksOk, TimersOk;
    OnlyStartTimers(s, c.timer);
    hide Inv, Reserved, FiresRetry, FiresTimeout, FiresStart;
    assert FiresStart(s, c, s');
    FireShrinks(s, c, s');
    FireShape(s, c, s');
  }

  /** While nothing is held and nothing has failed, the only timer that can be scheduled is the start. */
  lemma {:induction false} OnlyStartTimers(s: Workflow, k: Id)
    requires hide Inv;
             Inv(s) && Unfailed(s) && HeldOnly(s, {}) && k in s.timers && s.timers[k].status == TimerScheduled
    ensures s.timers[k].purpose == TimerWorkflowStart && s.status == WorkflowScheduled
  {
    hide StatusOk, GraphOk, SagaOk, TasksOk;
    assert TimerOk(s.id, s.status, s.timers[k], s.tasks);
  }

  lemma {:induction false} FireShape(s: Workflow, c: Command, s': Workflow)
    requires hide FiresStart;
             FiresStart(s, c, s') && Unfailed(s) && HeldOnly(s, {})
    ensures Unfailed(s') && HeldOnly(s', {}) && Proceeds(s, s')
    ensures c.timer in s'.timers && s'.timers[c.timer].status != TimerScheduled && s.status == WorkflowScheduled
            && s'.status == WorkflowRunning
    ensures s'.updatedAt == c.at
  {
    hide Waiting, DependenciesCompleted;
  }

  /** What completing does to the tasks: the held one is completed, children come in pending, others stay. */
  ghost predicate Moves(tasks: map<Id, Task>, tasks': map<Id, Task>) {
    && (forall id | id in tasks ::
          id in tasks' && tasks'[id].attempt == tasks[id].attempt && tasks'[id].retryCount == tasks[id].retryCount
          && tasks'[id].worker == tasks[id].worker
          && (tasks'[id].status == tasks[id].status
              || (tasks[id].status == TaskPending && tasks'[id].status == TaskReady)))
    && (forall id | id in tasks' && id !in tasks ::
          tasks'[id].retryCount == 0 && tasks'[id].attempt == 0 && tasks'[id].status in {TaskPending, TaskReady})
  }

  lemma {:induction false} ExpandMoves(s1: Workflow, id: Id, at: int64, s2: Workflow)
    requires Expands(s1, id, at, s2)
    ensures Moves(s1.tasks, s2.tasks) && s2.timers == s1.timers && s2.id == s1.id
  {
    if s1.tasks[id].definition.fanout.Some? {
      var fanout := s1.tasks[id].definition.fanout.value;
      var expanded: seq<ExpandedTask> :|
          && CanonicalExpansion(s1.id, s1.tasks, s1.tasks[id].definition, fanout, expanded)
                      && |expanded| <= fanout.maxItems
                      && fanout.aggregate in WithChildren(s1.tasks, expanded)
                      && WithChildren(s1.tasks, expanded)[fanout.aggregate].status == TaskPending
                      && s2 == s1.(tasks := ExpandedTasks(s1.tasks, id, fanout, expanded), version := s2.version,
                          updatedAt := s2.updatedAt);
      ExpandedMoves(s1.id, s1.tasks, id, fanout, expanded);
      hide CanonicalExpansion, ExpandedTasks, Moves, WithChildren;
    }
  }

  lemma {:induction false} ExpandedMoves(w: Id, tasks: map<Id, Task>, id: Id, fanout: FanoutDefinition,
                                         expanded: seq<ExpandedTask>)
    requires hide CanonicalExpansion, ExpandedTasks;
             id in tasks && CanonicalExpansion(w, tasks, tasks[id].definition, fanout, expanded)
             && fanout.aggregate in WithChildren(tasks, expanded)
    ensures Moves(tasks, ExpandedTasks(tasks, id, fanout, expanded))
  {
    forall i | 0 <= i < |expanded|
        ensures expanded[i].definition.id !in tasks { CanonicalNew(w, tasks, id, fanout, expanded, i); }
    ChildrenAdded(tasks, expanded);
    ChildrenMove(tasks, expanded);
    hide CanonicalExpansion, WithChildren, ComesFrom, ChildTask, Children, SortIds;
    var all := WithChildren(tasks, expanded);
    var tasks' := ExpandedTasks(tasks, id, fanout, expanded);
    forall x ensures (x in tasks' <==> x in all) && (x in all ==> Kin(all[x], tasks'[x])) {}
    hide ExpandedTasks;
    KinMoves(tasks, all, tasks');
  }

  lemma {:induction false} ChildrenMove(tasks: map<Id, Task>, expanded: seq<ExpandedTask>)
    requires forall i | 0 <= i < |expanded| :: expanded[i].definition.id !in tasks
    ensures Moves(tasks, WithChildren(tasks, expanded))
  {
    ChildrenAdded(tasks, expanded);
    hide WithChildren;
  }

  lemma {:induction false} KinMoves(tasks: map<Id, Task>, all: map<Id, Task>, tasks': map<Id, Task>)
    requires Moves(tasks, all) && forall x :: (x in tasks' <==> x in all) && (x in all ==> Kin(all[x], tasks'[x]))
    ensures Moves(tasks, tasks')
  {
  }

  /** The same task as far as the driver's steps go. */
  predicate Kin(a: Task, b: Task) {
    a.attempt == b.attempt && a.retryCount == b.retryCount && a.worker == b.worker && a.status == b.status
  }

  lemma {:induction false} CanonicalNew(w: Id, tasks: map<Id, Task>, id: Id, fanout: FanoutDefinition,
                                        expanded: seq<ExpandedTask>, i: nat)
    requires id in tasks && CanonicalExpansion(w, tasks, tasks[id].definition, fanout, expanded) && i < |expanded|
    ensures expanded[i].definition.id !in tasks
  {
  }

  lemma {:induction false} AdvanceMoves(s2: Workflow, at: int64, s': Workflow)
    requires Advances(s2, at, s')
    ensures Moves(s2.tasks, s'.tasks) && s'.timers == s2.timers && s'.id == s2.id
            && s'.status in {WorkflowRunning, WorkflowCompleted}
  {
    hide AllCompleted, Waiting, DependenciesCompleted;
  }

  lemma {:induction false} MovesOn(a: map<Id, Task>, b: map<Id, Task>, c: map<Id, Task>)
    requires Moves(a, b) && Moves(b, c)
    ensures Moves(a, c)
  {
  }

  lemma {:induction false} CompleteStep(s: Workflow, c: Command, s': Workflow)
    requires hide Completes, Inv, Reserved;
             Inv(s) && Unfailed(s) && HeldOnly(s, {c.task}) && Completes(s, c, s')
    ensures Unfailed(s') && HeldOnly(s', {}) && Proceeds(s, s') && Reserved(s') < Reserved(s)
    ensures c.task in s'.tasks && s'.tasks[c.task].status == TaskCompleted
  {
    hide Inv, Reserved, Usage.Running, Completes, Unfailed, HeldOnly, Proceeds, Replaces, Expands, Advances, Moves,
        TimersKeep, CompletedTask;
    CompleteShrinks(s, c, s');
    var s1, s2 := CompleteParts(s, c, s');
    ReplaceShape(s, c, s1);
    ExpandMoves(s1, c.task, c.at, s2);
    AdvanceMoves(s2, c.at, s');
    MovesOn(s1.tasks, s2.tasks, s'.tasks);
    CompleteFollows(s, c.task, s1, s');
  }

  lemma {:induction false} CompleteParts(s: Workflow, c: Command, s': Workflow) returns (s1: Workflow, s2: Workflow)
    requires hide Advances, Completes, Expands, Replaces;
             Completes(s, c, s')
    ensures c.task in s.tasks && s.version < MAX_UINT64
    ensures Replaces(s, c.task, CompletedTask(s.tasks[c.task], c, s.version + 1), TimerCancelled, c.at, s1)
    ensures Expands(s1, c.task, c.at, s2) && Advances(s2, c.at, s')
  {
    hide Replaces, Expands, Advances, CompletedTask;
    s1, s2 :| && Replaces(s, c.task, CompletedTask(s.tasks[c.task], c, s.version + 1), TimerCancelled, c.at, s1)
              && Expands(s1, c.task, c.at, s2) && Advances(s2, c.at, s');
  }

  lemma {:induction false} ReplaceShape(s: Workflow, c: Command, s1: Workflow)
    requires hide Replaces;
             c.task in s.tasks && s.version < MAX_UINT64
    requires Replaces(s, c.task, CompletedTask(s.tasks[c.task], c, s.version + 1), TimerCancelled, c.at, s1)
    ensures c.task in s1.tasks && s1.tasks == s.tasks[c.task := s1.tasks[c.task]] && s1.id == s.id
            && TimersKeep(s.timers, s1.timers)
    ensures s1.tasks[c.task].status == TaskCompleted && s1.tasks[c.task].attempt == s.tasks[c.task].attempt
            && s1.tasks[c.task].retryCount == s.tasks[c.task].retryCount
  {
    CompletedShape(s.tasks[c.task], c, s.version + 1);
    SettledShape(s, c.task);
    hide CompletedTask, TimeoutSettled;
  }

  lemma {:induction false} CompleteFollows(s: Workflow, id: Id, s1: Workflow, s': Workflow)
    requires Unfailed(s) && HeldOnly(s, {id}) && id in s.tasks && id in s1.tasks
             && s1.tasks == s.tasks[id := s1.tasks[id]] && s1.id == s.id
    requires TimersKeep(s.timers, s1.timers) && s'.timers == s1.timers && s'.id == s1.id
    requires s1.tasks[id].status == TaskCompleted && s1.tasks[id].attempt == s.tasks[id].attempt
             && s1.tasks[id].retryCount == s.tasks[id].retryCount
    requires Moves(s1.tasks, s'.tasks) && s'.status in {WorkflowRunning, WorkflowCompleted}
    ensures Unfailed(s') && HeldOnly(s', {}) && Proceeds(s, s') && id in s'.tasks
            && s'.tasks[id].status == TaskCompleted
  {
    hide TimersKeep;
    forall x | x in s'.tasks ensures Untried(s'.tasks[x]) && !Leased(s'.tasks[x]) {
      if x in s1.tasks && x != id { assert s1.tasks[x] == s.tasks[x]; }
    }
  }

  lemma {:induction false} CompletedShape(t: Task, c: Command, sequence: uint64)
    ensures CompletedTask(t, c, sequence).status == TaskCompleted
    ensures CompletedTask(t, c, sequence).attempt == t.attempt
            && CompletedTask(t, c, sequence).retryCount == t.retryCount
  {
  }

  lemma {:induction false} SettledShape(s: Workflow, id: Id)
    requires id in s.tasks
    ensures TimersKeep(s.timers, TimeoutSettled(s, id, TimerCancelled))
  {
  }

  // ----- The engine under the driver -----

  /** The driver's engine: its one workflow, and requests of the driver only. */
  ghost predicate Driven(ledger: Ledger, w: Id, held: set<Id>) {
    hide Made, Sound;
    && Sound(ledger) && w in ledger.states
    && Unfailed(ledger.states[w]) && HeldOnly(ledger.states[w], held)
    && forall r | r in ledger.requests :: Made(ledger.states[w], r)
  }

  lemma {:induction false} FreshPlan(ledger: Ledger, w: Id, c: Command)
    requires hide Accept, Handle, HashCommand, PlanCommand, Prepare;
             w in ledger.states && c.workflow == w && c.kind != CommandSubmit && c.request !in ledger.requests
    requires Handle(ledger, NoLoaders, c).Ok?
    ensures var plan := PlanCommand(Some(ledger.states[w]), c, HashCommand(c));
            && plan.Ok? && Prepare(ledger, NoLoaders, c) == Ok(Fresh(plan.value))
            && Handle(ledger, NoLoaders, c).value == (Fresh(plan.value),
                Accept(ledger, c.request, HashCommand(c), plan.value.workflow, plan.value.events, plan.value.next))
  {
    hide PlanCommand, HashCommand, Accept;
  }

  lemma {:induction false} PlanEffect(s: Workflow, c: Command, hash: Hash) returns (attempted: Command)
    requires hide Effect, Inv, PlanCommand;
             Inv(s) && PlanCommand(Some(s), c, hash).Ok? && c.kind != CommandSubmit
    ensures attempted == c.(attemptId := attempted.attemptId) && attempted.at >= 0
    ensures Effect(s, attempted, PlanCommand(Some(s), c, hash).value.next)
  {
    hide Inv, Decide, Effect, PlanCommand;
    PlannedNext(Some(s), c, hash);
    attempted := Attempted(Some(s), c).value;
    AcceptedEffect(Some(s), attempted);
  }

  lemma {:induction false} AcceptTables(ledger: Ledger, request: Id, hash: Hash, w: Id, events: seq<Event>,
                                        next: Workflow)
    ensures var after := Accept(ledger, request, hash, w, events, next);
            after.states == ledger.states[w := next] && after.requests.Keys == ledger.requests.Keys + {request}
  {
    hide StoreIndex, UpdateActive, Counted;
  }

  /** What accepting a new request of the driver does. */
  lemma {:induction false} Handled(ledger: Ledger, w: Id, c: Command) returns (attempted: Command, next: Workflow)
    requires hide Handle, Sound, Effect;
             Sound(ledger) && w in ledger.states && c.workflow == w && c.kind != CommandSubmit
             && c.request !in ledger.requests
    requires Handle(ledger, NoLoaders, c).Ok?
    ensures var (answer, after) := Handle(ledger, NoLoaders, c).value;
            && answer.Fresh? && Sound(after) && after.states == ledger.states[w := next]
                && after.requests.Keys == ledger.requests.Keys + {c.request}
    ensures attempted == c.(attemptId := attempted.attemptId) && attempted.at >= 0
            && Effect(ledger.states[w], attempted, next)
  {
    hide Inv, Effect, PlanCommand, HashCommand, Accept, Handle, Prepare, Sound;
    FreshPlan(ledger, w, c);
    SoundAccept(ledger, c);
    SoundInv(ledger, w);
    var p := PlanCommand(Some(ledger.states[w]), c, HashCommand(c)).value;
    attempted := PlanEffect(ledger.states[w], c, HashCommand(c));
    next := p.next;
    PlannedAddress(ledger.states[w], c, HashCommand(c));
    AcceptTables(ledger, c.request, HashCommand(c), p.workflow, p.events, p.next);
  }

  lemma {:induction false} SoundInv(ledger: Ledger, w: Id)
    requires hide Inv, Sound;
             Sound(ledger) && w in ledger.states
    ensures Inv(ledger.states[w]) && ledger.states[w].id == w
  {
    hide Inv, Lawful;
  }

  lemma {:induction false} PlannedAddress(s: Workflow, c: Command, hash: Hash)
    requires hide PlanCommand;
             PlanCommand(Some(s), c, hash).Ok?
    ensures PlanCommand(Some(s), c, hash).value.workflow == c.workflow
  {
    hide Decide;
  }

  lemma {:induction false} DrivenNext(ledger: Ledger, w: Id, request: Id, next: Workflow, after: Ledger,
                                      held: set<Id>, held': set<Id>)
    requires hide Inv, Lawful;
             Driven(ledger, w, held) && Sound(after) && after.states == ledger.states[w := next]
             && after.requests.Keys == ledger.requests.Keys + {request}
    requires Proceeds(ledger.states[w], next) && Unfailed(next) && HeldOnly(next, held') && Made(next, request)
    ensures Driven(after, w, held')
  {
    hide Sound, Proceeds, Unfailed, HeldOnly, Made;
    forall r | r in after.requests ensures Made(next, r) {
      if r != request { MadeStays(ledger.states[w], next, r); }
    }
  }

  lemma {:induction false} NewRequest(ledger: Ledger, w: Id, held: set<Id>, r: Id)
    requires hide Sound;
             Driven(ledger, w, held) && !Made(ledger.states[w], r)
    ensures r !in ledger.requests
  {
    hide Sound, Unfailed, HeldOnly, Made;
  }

  lemma {:induction false} DrivenSound(ledger: Ledger, w: Id, held: set<Id>)
    requires hide Driven, Inv, Sound;
             Driven(ledger, w, held)
    ensures Sound(ledger) && w in ledger.states && Inv(ledger.states[w]) && ledger.states[w].id == w
    ensures Unfailed(ledger.states[w]) && HeldOnly(ledger.states[w], held)
  {
    hide Unfailed, HeldOnly, Made, Inv, Lawful;
  }

  /** Starting a ready task. */
  lemma {:induction false} DrivenStart(ledger: Ledger, w: Id, c: Command)
    requires hide Handle, Reserved, Sound;
             Driven(ledger, w, {}) && c.kind == CommandStart && c.workflow == w && c.task in ledger.states[w].tasks
    requires ledger.states[w].tasks[c.task].attempt == 0 && c.request == LeaseRequestID(w, c.task, 1)
             && Handle(ledger, NoLoaders, c).Ok?
    ensures var after := Handle(ledger, NoLoaders, c).value.1;
            && Driven(after, w, {c.task}) && c.task in after.states[w].tasks && after.states[w].updatedAt == c.at
            && LeasedAs(w, ledger.states[w].tasks[c.task], after.states[w].tasks[c.task], c)
            && Reserved(after.states[w]) == Reserved(ledger.states[w])
  {
    hide Driven, Sound, Inv, Unfailed, HeldOnly, Proceeds, Handle, Reserved, Usage.Running, Made, Effect, Starts,
        LeasedAs;
    DrivenSound(ledger, w, {});
    var s := ledger.states[w];
    RequestsNew(s, c.task, NO_ID);
    NewRequest(ledger, w, {}, c.request);
    var attempted, next := Handled(ledger, w, c);
    EffectKinds(s, attempted, next);
    StartStep(s, attempted, next);
    StartLeases(s, attempted, next);
    LeasedSame(w, s.tasks[c.task], next.tasks[c.task], attempted, c);
    ProceedsId(s, next);
    MadeLease(next, c.task);
    DrivenNext(ledger, w, c.request, next, Handle(ledger, NoLoaders, c).value.1, {}, {c.task});
  }

  lemma {:induction false} StartLeases(s: Workflow, c: Command, s': Workflow)
    requires hide Inv, Starts;
             Inv(s) && Unfailed(s) && Starts(s, c, s')
    ensures c.task in s.tasks && s.tasks[c.task].attempt < MAX_UINT32 && c.task in s'.tasks
    ensures LeasedAs(s.id, s.tasks[c.task], s'.tasks[c.task], c) && s'.updatedAt == c.at
  {
    hide TimersOk, GraphOk, SagaOk, StartedTask, StatusOk;
    assert TaskOk(s.id, s.version, c.task, s.tasks[c.task], s.timers);
    StartedShape(s, s.tasks[c.task], c);
    StartedLeased(s, s.tasks[c.task], c);
    hide LeasedAs;
  }

  lemma {:induction false} LeasedSame(w: Id, t: Task, t': Task, a: Command, b: Command)
    requires t.attempt < MAX_UINT32 && LeasedAs(w, t, t', a) && a == b.(attemptId := a.attemptId)
    ensures LeasedAs(w, t, t', b) && t'.status == TaskRunning
  {
  }

  lemma {:induction false} EffectKinds(s: Workflow, c: Command, next: Workflow)
    requires Effect(s, c, next)
    ensures c.kind == CommandStart ==> Starts(s, c, next)
    ensures c.kind == CommandFireTimer ==> FiresTyped(s, c, next)
  {
    hide Starts, Completes, FinishesCompensation, Fails, Renews, Expires, FiresTyped, Cancels;
  }

  lemma {:induction false} MadeTimer(s: Workflow, k: Id)
    requires hide Made;
             k in s.timers && s.timers[k].status != TimerScheduled
    ensures Made(s, TimerRequestID(k))
  {
  }

  lemma {:induction false} ProceedsId(s: Workflow, next: Workflow)
    requires Proceeds(s, next)
    ensures next.id == s.id
  {
  }

  lemma {:induction false} MadeLease(s: Workflow, id: Id)
    requires hide Made;
             id in s.tasks && s.tasks[id].attempt >= 1
    ensures Made(s, LeaseRequestID(s.id, id, 1))
  {
  }

  /** Completing the task that is held. */
  lemma {:induction false} DrivenComplete(ledger: Ledger, w: Id, c: Command, n: uint32)
    requires hide Handle, Reserved, Sound;
             Driven(ledger, w, {c.task}) && c.kind == CommandComplete && c.workflow == w
             && c.task in ledger.states[w].tasks
    requires ledger.states[w].tasks[c.task].status == TaskRunning
             && c.request == CompletionRequestID(AttemptID(w, c.task, n), c.fence)
    requires Handle(ledger, NoLoaders, c).Ok?
    ensures var after := Handle(ledger, NoLoaders, c).value.1;
            Driven(after, w, {}) && Reserved(after.states[w]) < Reserved(ledger.states[w])
                && after.states[w].updatedAt == c.at
  {
    hide Driven, Sound, Inv, Unfailed, HeldOnly, Proceeds, Handle, Reserved, Usage.Running, Made, Effect, Completes;
    DrivenSound(ledger, w, {c.task});
    var s := ledger.states[w];
    RequestsNew(s, c.task, NO_ID);
    NewRequest(ledger, w, {c.task}, c.request);
    var attempted, next := Handled(ledger, w, c);
    OnlyForward(s, attempted, next);
    CompleteStep(s, attempted, next);
    CompleteTimes(s, attempted, next);
    ProceedsId(s, next);
    MadeReport(next, c.task, c.request);
    DrivenNext(ledger, w, c.request, next, Handle(ledger, NoLoaders, c).value.1, {c.task}, {});
  }

  lemma {:induction false} CompleteTimes(s: Workflow, c: Command, s': Workflow)
    requires Completes(s, c, s')
    ensures s'.updatedAt == c.at
  {
    hide Completes, CompletedTask, TimeoutSettled, ReadyAll, AllCompleted;
    var s1, s2 := CompleteParts(s, c, s');
    assert s1.updatedAt == c.at;
    hide Replaces, Advances;
    ExpandsFrame(s1, c.task, c.at, s2);
    hide Expands;
    assert s'.updatedAt in {s2.updatedAt, c.at} by { AdvanceTimes(s2, c.at, s'); }
  }

  lemma {:induction false} AdvanceTimes(s2: Workflow, at: int64, s': Workflow)
    requires Advances(s2, at, s')
    ensures s'.updatedAt in {s2.updatedAt, at}
  {
    hide ReadyAll, AllCompleted;
  }

  lemma {:induction false} OnlyForward(s: Workflow, c: Command, next: Workflow)
    requires hide Completes, Effect;
             Unfailed(s) && c.kind == CommandComplete && Effect(s, c, next) && c.task in s.tasks
             && s.tasks[c.task].status == TaskRunning
    ensures Completes(s, c, next)
  {
    hide Completes, Cancels, Fails, FiresTyped;
  }

  lemma {:induction false} MadeReport(s: Workflow, id: Id, r: Id)
    requires hide Made;
             id in s.tasks && s.tasks[id].status == TaskCompleted && Reports(s.id, id, r)
    ensures Made(s, r)
  {
  }

  /** Firing a scheduled timer. */
  lemma {:induction false} DrivenFire(ledger: Ledger, w: Id, c: Command)
    requires hide Handle, Reserved, Sound;
             Driven(ledger, w, {}) && c.kind == CommandFireTimer && c.workflow == w
             && c.timer in ledger.states[w].timers
    requires ledger.states[w].timers[c.timer].status == TimerScheduled && c.request == TimerRequestID(c.timer)
             && Handle(ledger, NoLoaders, c).Ok?
    ensures var after := Handle(ledger, NoLoaders, c).value.1;
            && Driven(after, w, {}) && Reserved(after.states[w]) <= Reserved(ledger.states[w])
            && ledger.states[w].status == WorkflowScheduled && after.states[w].status == WorkflowRunning
                && after.states[w].updatedAt == c.at
  {
    hide Driven, Sound, Inv, Unfailed, HeldOnly, Proceeds, Handle, Reserved, Usage.Running, Made, Effect, FiresTyped;
    DrivenSound(ledger, w, {});
    var s := ledger.states[w];
    RequestsNew(s, NO_ID, c.timer);
    NewRequest(ledger, w, {}, c.request);
    var attempted, next := Handled(ledger, w, c);
    EffectKinds(s, attempted, next);
    FireStep(s, attempted, next);
    MadeTimer(next, c.timer);
    DrivenNext(ledger, w, c.request, next, Handle(ledger, NoLoaders, c).value.1, {}, {});
  }

  /** Until the workflow has ended, a task can be started or a timer fired. */
  lemma {:induction false} DriverCanGo(s: Workflow)
    requires hide Inv;
             Inv(s) && Unfailed(s) && HeldOnly(s, {}) && !Terminal(s.status)
    ensures (exists id :: id in s.tasks && Startable(s.tasks[id]))
            || (exists k :: k in s.timers && s.timers[k].status == TimerScheduled)
  {
    if s.status == WorkflowScheduled {
      hide TasksOk, StatusOk, GraphOk, SagaOk, Unfailed, HeldOnly;
      assert IsScheduled(s.timers, TimerID(s.id, NO_ID, TimerWorkflowStart, 0));
    } else {
      hide Inv;
      RunningProgress(s);
    }
  }

  // ----- Submission -----

  lemma {:induction false} FreshUntried(tasks: seq<TaskDefinition>, timers: map<Id, Timer>)
    ensures forall id | id in FreshTasks(tasks) :: Untried(FreshTasks(tasks)[id]) && !Leased(FreshTasks(tasks)[id])
    ensures var ready := ReadyAll(FreshTasks(tasks), timers); forall id | id in ready ::
              Untried(ready[id]) && !Leased(ready[id])
  {
    hide TaskTable, Waiting, DependenciesCompleted;
  }

  lemma {:induction false} SubmitStep(c: Command, next: Workflow)
    requires Submits(c, next)
    ensures Unfailed(next) && HeldOnly(next, {})
  {
    FreshUntried(Canonical(c.definition.value).tasks, map[]);
    hide ValidDefinition, Canonical, FreshTasks, ReadyAll, Untried;
  }

  lemma {:induction false} SubmitTimes(c: Command, next: Workflow)
    requires Submits(c, next)
    ensures next.updatedAt == c.at
  {
    hide ValidDefinition, Canonical, FreshTasks, ReadyAll;
  }

  lemma {:induction false} PlannedFrom(c: Command, hash: Hash)
    requires hide Attempted, PlanCommand;
             c.kind == CommandSubmit && PlanCommand(None, c, hash).Ok?
    ensures PlanCommand(None, c, hash).value.workflow == c.workflow && Attempted(None, c) == Ok(c)
  {
    hide Decide;
  }

  lemma {:induction false} EmptySound()
    ensures Sound(EMPTY)
  {
    hide Inv;
  }

  /** The driver's submission starts its run. */
  lemma {:induction false} DrivenSubmit(c: Command)
    requires hide Handle, Sound;
             c.kind == CommandSubmit && c.request == SUBMIT_REQUEST && c.definition.Some? && c.workflow == NO_ID
             && Handle(EMPTY, NoLoaders, c).Ok?
    ensures var (answer, after) := Handle(EMPTY, NoLoaders, c).value;
            && answer.Fresh? && Driven(after, answer.planned.workflow, {})
                && answer.planned.workflow == RunWorkflow(c.definition.value)
            && after.states[answer.planned.workflow].updatedAt == c.at
  {
    var addressed, hash := Addressed(c), HashCommand(c);
    hide HashCommand, PlanCommand, Accept, Sound, Driven, Decide;
    assert Prepare(EMPTY, NoLoaders, c).value.Fresh?;
    EmptySound();
    SoundAccept(EMPTY, c);
    assert PlanCommand(None, addressed, hash).Ok?;
    SubmittedDriven(addressed, hash, c.request);
  }

  lemma {:induction false} SubmittedDriven(c: Command, hash: Hash, request: Id)
    requires hide Accept, Inv, Lawful, PlanCommand;
             c.kind == CommandSubmit && request == SUBMIT_REQUEST && PlanCommand(None, c, hash).Ok?
    requires var p := PlanCommand(None, c, hash).value;
             Sound(Accept(EMPTY, request, hash, p.workflow, p.events, p.next))
    ensures var p := PlanCommand(None, c, hash).value;
            && Driven(Accept(EMPTY, request, hash, p.workflow, p.events, p.next), p.workflow, {})
                && p.workflow == c.workflow
            && Accept(EMPTY, request, hash, p.workflow, p.events, p.next).states[p.workflow].updatedAt == c.at
  {
    hide Decide, Sound, PlanCommand, Submits, Effect, Inv, Attempted, Driven;
    PlannedFrom(c, hash);
    var p := PlanCommand(None, c, hash).value;
    PlannedNext(None, c, hash);
    AcceptedEffect(None, Attempted(None, c).value);
    SubmitStep(Attempted(None, c).value, p.next);
    SubmitTimes(Attempted(None, c).value, p.next);
    AcceptTables(EMPTY, request, hash, p.workflow, p.events, p.next);
    hide Accept, Unfailed, HeldOnly;
    FirstDriven(Accept(EMPTY, request, hash, p.workflow, p.events, p.next), p.workflow, p.next, request);
  }

  lemma {:induction false} FirstDriven(ledger: Ledger, w: Id, next: Workflow, request: Id)
    requires hide Sound;
             Sound(ledger) && ledger.states == EMPTY.states[w := next]
             && ledger.requests.Keys == EMPTY.requests.Keys + {request}
    requires request == SUBMIT_REQUEST && Unfailed(next) && HeldOnly(next, {})
    ensures Driven(ledger, w, {}) && ledger.states[w] == next
  {
    hide Sound, Unfailed, HeldOnly;
  }

  // ----- The lease that a start grants -----

  lemma {:induction false} StartEvents(s: Workflow, c: Command, hash: Hash)
    requires hide PlanCommand;
             c.kind == CommandStart && PlanCommand(Some(s), c, hash).Ok? && c.task in s.tasks
    ensures var events := PlanCommand(Some(s), c, hash).value.events;
            && events != [] && events[0].kind == EventTaskStarted
            && s.tasks[c.task].attempt < MAX_UINT32
                && events[0].attemptId == AttemptID(s.id, c.task, s.tasks[c.task].attempt + 1)
            && events[0].worker == c.worker && events[0].fence == s.tasks[c.task].fence + 1
  {
    hide Decide, DecideStart;
    var attempted := Attempted(Some(s), c).value;
    DecideStarts(s, attempted);
    StartPlan(s, attempted);
  }

  lemma {:induction false} DecideStarts(s: Workflow, c: Command)
    requires c.kind == CommandStart && Decide(Some(s), c).Ok?
    ensures Decide(Some(s), c) == DecideStart(s, c)
  {
    hide DecideSubmit, DecideStart, DecideComplete, DecideFail, DecideRenew, DecideExpire, DecideFireTimer,
        DecideCancel;
  }

  lemma {:induction false} StartPlan(s: Workflow, c: Command)
    requires hide DecideStart;
             DecideStart(s, c).Ok?
    ensures c.task in s.tasks && s.tasks[c.task].attempt < MAX_UINT32 && s.tasks[c.task].fence < MAX_UINT64
    ensures var events := DecideStart(s, c).value.events;
            && events != [] && events[0].kind == EventTaskStarted
                && events[0].attemptId == AttemptID(s.id, c.task, s.tasks[c.task].attempt + 1)
            && events[0].worker == c.worker && events[0].fence == s.tasks[c.task].fence + 1
  {
    hide Add, AddTimeout;
    var first := StartedEvent(s, s.tasks[c.task], c);
    var p := Add(Plan(s, []), first).value;
    AddsEvent(Plan(s, []), first);
    TimeoutAfter(p, s.id, s.tasks[c.task].definition.timeout, s.tasks[c.task].attempt + 1, c);
    assert p.events[0] == first;
  }

  lemma {:induction false} AddsEvent(p: Plan, e: Event)
    requires hide Add;
             Add(p, e).Ok?
    ensures Add(p, e).value.events == p.events + [e]
  {
    hide Reducer.ApplyEvent;
  }

  lemma {:induction false} TimeoutAfter(p: Plan, workflow: Id, timeout: int64, attempt: uint32, c: Command)
    requires hide AddTimeout;
             AddTimeout(p, workflow, timeout, attempt, c).Ok?
    ensures p.events <= AddTimeout(p, workflow, timeout, attempt, c).value.events
  {
    hide Add;
    if timeout > 0 {
      var timer := TimeoutTimer(workflow, c, attempt, p.state.tasks[c.task].fence, c.at + timeout);
      AddsEvent(p, TimerEvent(EventTimerScheduled, workflow, timer, c.at));
    }
  }

  /** What the driver may start is ready, and has not been attempted. */
  lemma {:induction false} StartableReady(s: Workflow, id: Id)
    requires hide Inv;
             Inv(s) && Unfailed(s) && id in s.tasks && Startable(s.tasks[id])
    ensures s.tasks[id].status == TaskReady && s.tasks[id].attempt == 0
  {
    hide GraphOk, SagaOk, TimersOk, TasksOk;
    if s.status == WorkflowRunning { assert HeldBack(s.tasks, id); }
    if s.status == WorkflowScheduled { assert Invariant.Fresh(s.tasks[id]); }
  }

  /** The first event of an accepted start is the lease. */
  lemma {:induction false} StartAnswer(ledger: Ledger, w: Id, c: Command)
    requires hide Handle, Sound;
             Driven(ledger, w, {}) && c.kind == CommandStart && c.workflow == w && c.task in ledger.states[w].tasks
    requires ledger.states[w].tasks[c.task].attempt == 0 && c.request == LeaseRequestID(w, c.task, 1)
             && Handle(ledger, NoLoaders, c).Ok?
    ensures var answer := Handle(ledger, NoLoaders, c).value.0;
            && answer.Fresh? && answer.planned.events != [] && answer.planned.events[0].kind == EventTaskStarted
            && answer.planned.events[0].attemptId == AttemptID(w, c.task, 1)
            && answer.planned.events[0].worker == c.worker
                && answer.planned.events[0].fence == ledger.states[w].tasks[c.task].fence + 1
  {
    hide Driven, Sound, Inv, Unfailed, HeldOnly, Handle, Made, PlanCommand, Prepare, Accept, Canonical, HashCommand;
    DrivenSound(ledger, w, {});
    RequestsNew(ledger.states[w], c.task, NO_ID);
    NewRequest(ledger, w, {}, c.request);
    FreshPlan(ledger, w, c);
    StartEvents(ledger.states[w], c, HashCommand(c));
  }

  // ----- When the driver's commands are accepted -----

  /** Deciding a command that is addressed to a workflow. */
  lemma {:induction false} Dispatch(s: Workflow, c: Command)
    requires !Blank(c.request) && c.at >= 0 && c.at >= s.updatedAt
    ensures c.kind == CommandStart ==> Decide(Some(s), c) == DecideStart(s, c)
    ensures c.kind == CommandComplete ==> Decide(Some(s), c) == DecideComplete(s, c)
    ensures c.kind == CommandFireTimer ==> Decide(Some(s), c) == DecideFireTimer(s, c)
    ensures c.kind == CommandSubmit ==> Decide(None, c) == DecideSubmit(None, c)
  {
    hide DecideSubmit, DecideStart, DecideComplete, DecideFail, DecideRenew, DecideExpire, DecideFireTimer,
        DecideCancel;
  }

  lemma {:induction false} SomeEvents(state: Option<Workflow>, c: Command)
    requires hide Decide;
             Decide(state, c).Ok? && Decide(state, c).value.state.version > Version(state)
    ensures Decide(state, c).value.events != []
  {
    hide Decide, PlanAll;
    DecideBuilt(state, c);
    PlanNumbers(state, Decide(state, c).value.events);
  }

  /** A new request whose command is decided is handled. */
  lemma {:induction false} HandleAccepts(ledger: Ledger, w: Id, c: Command)
    requires hide Attempted, Blank, Decide, Handle;
             w in ledger.states && c.workflow == w && c.kind != CommandSubmit && c.request !in ledger.requests
             && !Blank(c.request)
    requires Attempted(Some(ledger.states[w]), c).Ok?
    requires var decided := Decide(Some(ledger.states[w]), Attempted(Some(ledger.states[w]), c).value);
             decided.Ok? && decided.value.state.version > ledger.states[w].version
    ensures Handle(ledger, NoLoaders, c).Ok?
  {
    hide Decide, HashCommand, Accept, Attempted;
    SomeEvents(Some(ledger.states[w]), Attempted(Some(ledger.states[w]), c).value);
    assert PlanCommand(Some(ledger.states[w]), c, HashCommand(c)).Ok?;
    hide PlanCommand;
  }

  /** A workflow with a ready or running task is running. */
  lemma {:induction false} WorkRuns(s: Workflow, id: Id)
    requires hide Blank, Inv;
             Inv(s) && Unfailed(s) && id in s.tasks && s.tasks[id].status in {TaskReady, TaskRunning}
    ensures s.status == WorkflowRunning && !s.tasks[id].compensation && s.updatedAt >= 0 && !Blank(s.id)
  {
    StatusTells(s, id);
    hide TasksOk, TimersOk, GraphOk, SagaOk, StatusOk;
  }

  lemma {:induction false} StatusTells(s: Workflow, id: Id)
    requires hide Inv;
             Inv(s) && id in s.tasks
    ensures s.status == WorkflowScheduled ==> s.tasks[id].status == TaskPending
    ensures s.status == WorkflowCompleted ==> s.tasks[id].status == TaskCompleted
    ensures s.status == WorkflowRunning ==> !s.tasks[id].compensation
  {
    hide TasksOk, TimersOk, GraphOk, SagaOk;
    if s.status == WorkflowScheduled { assert Invariant.Fresh(s.tasks[id]); }
    if s.status == WorkflowRunning { assert HeldBack(s.tasks, id); }
  }

  /** The driver's start of a ready task is accepted when its lease fits. */
  lemma {:induction false} DrivenStartAccepted(ledger: Ledger, w: Id, c: Command)
    requires hide Handle, Sound;
             Driven(ledger, w, {}) && c.kind == CommandStart && c.workflow == w && c.task in ledger.states[w].tasks
             && c.attemptId == NO_ID
    requires ledger.states[w].tasks[c.task].status == TaskReady && ledger.states[w].tasks[c.task].attempt == 0
             && c.request == LeaseRequestID(w, c.task, 1)
    requires Room(ledger.states[w]) && c.at >= ledger.states[w].updatedAt && !BlankText(c.worker)
    requires LeaseFits(c, ledger.states[w].tasks[c.task].definition.timeout)
    ensures Handle(ledger, NoLoaders, c).Ok?
  {
    hide Driven, Sound, Inv, Unfailed, HeldOnly, Made, Handle, Decide, DecideStart, LeaseFits, Starts;
    DrivenSound(ledger, w, {});
    var s := ledger.states[w];
    RequestsNew(s, c.task, NO_ID);
    NewRequest(ledger, w, {}, c.request);
    WorkRuns(s, c.task);
    var attempted := Attempted(Some(s), c).value;
    assert attempted == c.(attemptId := AttemptID(w, c.task, 1));
    assert LeaseFits(attempted, s.tasks[c.task].definition.timeout) by {
        SameFit(c, attempted, s.tasks[c.task].definition.timeout); }
    StartAccepted(s, attempted);
    Dispatch(s, attempted);
    StartForm(s, attempted);
    StartsLater(s, attempted, DecideStart(s, attempted).value.state);
    HandleAccepts(ledger, w, c);
  }

  lemma {:induction false} SameFit(a: Command, b: Command, timeout: int64)
    requires LeaseFits(a, timeout) && a.at == b.at && a.leaseUntil == b.leaseUntil
    ensures LeaseFits(b, timeout)
  {
  }

  lemma {:induction false} StartsLater(s: Workflow, c: Command, s': Workflow)
    requires Starts(s, c, s')
    ensures s'.version > s.version
  {
    hide StartedTask;
  }

  /** The driver's firing of a scheduled timer is accepted at its deadline. */
  lemma {:induction false} DrivenFireAccepted(ledger: Ledger, w: Id, c: Command)
    requires hide Handle, Sound;
             Driven(ledger, w, {}) && c.kind == CommandFireTimer && c.workflow == w
             && c.timer in ledger.states[w].timers
    requires ledger.states[w].timers[c.timer].status == TimerScheduled && c.request == TimerRequestID(c.timer)
    requires Room(ledger.states[w]) && c.at >= ledger.states[w].updatedAt
             && c.at >= ledger.states[w].timers[c.timer].deadline
    ensures Handle(ledger, NoLoaders, c).Ok?
  {
    hide Driven, Sound, Inv, Unfailed, HeldOnly, Made, Handle, Decide, DecideFireTimer, FiresStart;
    DrivenSound(ledger, w, {});
    var s := ledger.states[w];
    RequestsNew(s, NO_ID, c.timer);
    NewRequest(ledger, w, {}, c.request);
    OnlyStartTimers(s, c.timer);
    FireStartAccepted(s, c);
    assert s.updatedAt >= 0 by { InvTimes(s); }
    Dispatch(s, c);
    FireStartForm(s, c);
    FiresLater(s, c, DecideFireTimer(s, c).value.state);
    HandleAccepts(ledger, w, c);
  }

  lemma {:induction false} InvTimes(s: Workflow)
    requires Inv(s)
    ensures s.updatedAt >= 0 && !Blank(s.id)
  {
    hide StatusOk, TasksOk, TimersOk;
  }

  lemma {:induction false} FiresLater(s: Workflow, c: Command, s': Workflow)
    requires FiresStart(s, c, s')
    ensures s'.version > s.version
  {
    hide ReadyAll;
  }

  /** localFanout */
  function LocalFanout(t: Task): seq<FanoutItem> {
    if t.definition.fanout.None? then []
    else
      var first := FanoutItem("item-1", map["value" := "item-1"]);
      if t.definition.fanout.value.maxItems == 0 then []
      else if t.definition.fanout.value.maxItems == 1 then [first]
      else [first, FanoutItem("item-2", map["value" := "item-2"])]
  }

  lemma {:induction false} LocalKeys()
    ensures !BlankText("item-1") && !BlankText("item-2") && !TextBefore("item-2", "item-1")
  {
    assert !IsSpace("item-1"[0]) && !IsSpace("item-2"[0]);
    var a, b := "item-2", "item-1";
    assert a[0] == b[0] && a[1..][0] == b[1..][0] && a[2..][0] == b[2..][0] && a[3..][0] == b[3..][0]
        && a[4..][0] == b[4..][0];
    assert a[5..] == "2" && b[5..] == "1";
    assert TextBefore(a, b) == TextBefore(a[1..], b[1..]);
    assert a[1..][1..] == a[2..] && b[1..][1..] == b[2..];
    assert TextBefore(a[1..], b[1..]) == TextBefore(a[2..], b[2..]);
    assert a[2..][1..] == a[3..] && b[2..][1..] == b[3..];
    assert TextBefore(a[2..], b[2..]) == TextBefore(a[3..], b[3..]);
    assert a[3..][1..] == a[4..] && b[3..][1..] == b[4..];
    assert TextBefore(a[3..], b[3..]) == TextBefore(a[4..], b[4..]);
    assert a[4..][1..] == a[5..] && b[4..][1..] == b[5..];
    assert TextBefore(a[4..], b[4..]) == TextBefore(a[5..], b[5..]);
  }

  /** The driver's own items are in order as they stand. */
  lemma {:induction false} LocalCanonical(t: Task)
    ensures CanonicalItems(LocalFanout(t)) == LocalFanout(t) && |LocalFanout(t)| <= 2
  {
    LocalKeys();
    var items := LocalFanout(t);
    assert CanonicalItems([]) == [];
    if |items| == 1 {
      assert items[1..] == [];
    } else if |items| == 2 {
      assert items[1..] == [items[1]] && items[1..][1..] == [];
      assert CanonicalItems(items[1..]) == [items[1]];
      assert InsertItem(items[0], [items[1]]) == [items[0]] + [items[1]];
    }
  }

  lemma {:induction false} LocalFits(s: Workflow, c: Command)
    requires hide Inv, ItemsFit;
             Inv(s) && c.task in s.tasks && c.fanout == LocalFanout(s.tasks[c.task]) && !Collides(s, c.task, c.fanout)
    ensures ItemsFit(s, c) && |c.fanout| <= 2
  {
    hide TimersOk, StatusOk, GraphOk, SagaOk;
    var t := s.tasks[c.task];
    assert TaskOk(s.id, s.version, c.task, t, s.timers);
    hide Inv, TasksOk, LocalFanout, CanonicalItems, MaterializeFrom;
    LocalCanonical(t);
    LocalItems(t);
    Few(|c.fanout|);
    hide BlankText, Low32;
    if t.definition.fanout.Some? {
      assert forall k | 0 <= k < |c.fanout| :: FanoutTaskID(s.id, c.task, c.fanout[k].key) !in s.tasks;
      MaterializesFrom(s, t.definition, t.definition.fanout.value, c.fanout, 0);
    }
  }

  lemma {:induction false} Few(n: nat)
    requires n <= 2
    ensures Low32(n) == n
  {
  }

  lemma {:induction false} LocalItems(t: Task)
    ensures var items := LocalFanout(t);
            && (forall k | 0 <= k < |items| :: !BlankText(items[k].key) && (k > 0 ==> items[k].key != items[k - 1].key))
            && (t.definition.fanout.None? ==> items == [])
                && (t.definition.fanout.Some? ==> |items| <= t.definition.fanout.value.maxItems)
  {
    LocalKeys();
    hide BlankText;
  }

  /** The driver's completion of the task it holds is accepted unless an item of its fan-out collides with a task. */
  lemma {:induction false} DrivenCompleteAccepted(ledger: Ledger, w: Id, c: Command, n: uint32)
    requires hide Handle, Sound;
             Driven(ledger, w, {c.task}) && c.kind == CommandComplete && c.workflow == w
             && c.task in ledger.states[w].tasks
    requires c.request == CompletionRequestID(AttemptID(w, c.task, n), c.fence) && Room(ledger.states[w])
    requires var t := ledger.states[w].tasks[c.task];
             && t.status == TaskRunning && t.attemptId == c.attemptId && t.worker == c.worker && t.fence == c.fence
             && t.startedAt == c.at < t.leaseUntil && c.fanout == LocalFanout(t) && c.at >= ledger.states[w].updatedAt
    requires !Collides(ledger.states[w], c.task, c.fanout)
    ensures Handle(ledger, NoLoaders, c).Ok?
  {
    hide Driven, Sound, Inv, Unfailed, HeldOnly, Made, Handle, Decide, DecideComplete, Completes, ItemsFit,
        LocalFanout, Collides;
    DrivenSound(ledger, w, {c.task});
    var s := ledger.states[w];
    RequestsNew(s, c.task, NO_ID);
    NewRequest(ledger, w, {c.task}, c.request);
    WorkRuns(s, c.task);
    LocalFits(s, c);
    CompleteAccepted(s, c);
    Dispatch(s, c);
    CompleteForm(s, c);
    CompletesLater(s, c, DecideComplete(s, c).value.state);
    HandleAccepts(ledger, w, c);
  }

  lemma {:induction false} CompletesLater(s: Workflow, c: Command, s': Workflow)
    requires Completes(s, c, s')
    ensures s'.version > s.version
  {
    hide Completes, CompletedTask, TimeoutSettled, ReadyAll, AllCompleted;
    var s1, s2 := CompleteParts(s, c, s');
    hide Expands;
    assert s2.version >= s1.version by { ExpandsLater(s1, c.task, c.at, s2); }
  }

  lemma {:induction false} ExpandsLater(s1: Workflow, id: Id, at: int64, s2: Workflow)
    requires Expands(s1, id, at, s2)
    ensures s2.version >= s1.version
  {
  }

  /** The driver's submission is accepted exactly for valid definitions, if they are of not too many tasks. */
  lemma {:induction false} DrivenSubmitAccepted(c: Command)
    requires hide Handle, ValidDefinition;
             c.kind == CommandSubmit && c.request == SUBMIT_REQUEST && c.definition.Some? && c.workflow == NO_ID
             && c.at >= 0
    requires ValidDefinition(c.definition.value) && |c.definition.value.tasks| + 2 <= MAX_UINT64
    ensures Handle(EMPTY, NoLoaders, c).Ok?
  {
    hide Decide, HashCommand, Accept, ValidDefinition, DecideSubmit;
    var addressed := Addressed(c);
    SubmittedCount(addressed);
    SubmitAccepted(addressed);
    NameGiven();
    Dispatch(EMPTY_STATE, addressed);
    assert Decide(None, addressed).Ok?;
    SubmitForm(addressed);
    SubmitsLater(addressed, DecideSubmit(None, addressed).value.state);
    SomeEvents(None, addressed);
    assert PlanCommand(None, addressed, HashCommand(c)).Ok?;
    hide PlanCommand;
  }

  const EMPTY_STATE: Workflow := Workflow(NO_ID, "", "", WorkflowScheduled, 0, 0, map[], map[])

  lemma {:induction false} NameGiven()
    ensures !Blank(SUBMIT_REQUEST)
  {
    assert !IsSpace("cli-submit"[0]);
  }

  lemma {:induction false} SubmitsLater(c: Command, s': Workflow)
    requires Submits(c, s')
    ensures s'.version > 0
  {
    hide ValidDefinition, Canonical, FreshTasks, ReadyAll;
  }

  lemma {:induction false} SubmittedCount(c: Command)
    requires hide Submitted;
             c.definition.Some?
    ensures |Submitted(c).tasks| <= |c.definition.value.tasks|
  {
    var d := Canonical(c.definition.value);
    CanonicalCount(c.definition.value.tasks);
    TableCount(RunDefinition(c.definition.value).tasks);
    CanonicalCount(d.tasks);
    hide CanonicalTasks, TaskTable;
    FreshCount(RunDefinition(c.definition.value).tasks);
  }

  lemma {:induction false} CanonicalCount(tasks: seq<TaskDefinition>)
    ensures |CanonicalTasks(tasks)| == |tasks|
  {
    if tasks != [] {
      CanonicalCount(tasks[1..]);
      InsertTaskLength(CanonicalTask(tasks[0]), CanonicalTasks(tasks[1..]));
    }
  }

  lemma {:induction false} TableCount(tasks: seq<TaskDefinition>)
    ensures |TaskTable(tasks)| <= |tasks|
  {
    if tasks != [] {
      var front, last := tasks[..|tasks| - 1], tasks[|tasks| - 1];
      TableCount(front);
      assert TaskTable(tasks).Keys == TaskTable(front).Keys + {last.id};
      assert |TaskTable(tasks)| == |TaskTable(tasks).Keys| && |TaskTable(front)| == |TaskTable(front).Keys|;
    }
  }

  lemma {:induction false} FreshCount(tasks: seq<TaskDefinition>)
    ensures |FreshTasks(tasks)| == |TaskTable(tasks)|
  {
    hide TaskTable;
    assert FreshTasks(tasks).Keys == TaskTable(tasks).Keys;
    assert |FreshTasks(tasks)| == |FreshTasks(tasks).Keys| && |TaskTable(tasks)| == |TaskTable(tasks).Keys|;
  }

  /** The engine accepts no lease that has ended. */
  lemma {:induction false} LeaseAhead(ledger: Ledger, w: Id, c: Command)
    requires hide Handle, Sound;
             Driven(ledger, w, {}) && c.kind == CommandStart && c.workflow == w && c.task in ledger.states[w].tasks
    requires ledger.states[w].tasks[c.task].attempt == 0 && c.request == LeaseRequestID(w, c.task, 1)
             && Handle(ledger, NoLoaders, c).Ok?
    ensures c.at < c.leaseUntil
  {
    hide Driven, Sound, Inv, Unfailed, HeldOnly, Handle, Made, Effect, Starts;
    DrivenSound(ledger, w, {});
    var s := ledger.states[w];
    RequestsNew(s, c.task, NO_ID);
    NewRequest(ledger, w, {}, c.request);
    var attempted, next := Handled(ledger, w, c);
    EffectKinds(s, attempted, next);
    StartsAhead(s, attempted, next);
  }

  lemma {:induction false} StartsAhead(s: Workflow, c: Command, s': Workflow)
    requires Starts(s, c, s')
    ensures c.at < c.leaseUntil
  {
    hide StartedTask;
  }

  // ----------------------------------------------------------------------------------------------------
  // The loop of `chronos run` in cmd/chronos/main.go, on a mutable engine.
  // ----------------------------------------------------------------------------------------------------

  const WORKER := "local"
  const LEASE_MILLIS: int64 := 1000

  /** How a run comes out; the last two are the messages "did not start" and "cannot progress". */
  datatype Outcome = Ended(state: Workflow) | Refused(error: Error) | NotStarted | CannotProgress

  /** VirtualClock.Advance, forward. */
  function Advance(now: int64, delta: int64): Result<int64>
    requires delta >= 0
  {
    if now > MAX_INT64 - delta then Err(ErrTimeOverflow) else Ok(now + delta)
  }

  /** int64 addition of a lease wraps around. */
  function LeaseEnd(now: int64, millis: int64): int64
    requires 0 <= millis <= LEASE_MILLIS
  {
    if now + millis > MAX_INT64 then now + millis - 0x1_0000_0000_0000_0000 else now + millis
  }

  /** The lease that the driver asks for. */
  function LeaseMillis(timeout: int64): int64 {
    if 0 < timeout < LEASE_MILLIS then timeout else LEASE_MILLIS
  }

  /** Neither the lease nor the timeout of a start ends past the 64-bit range. */
  predicate LeaseInRange(at: int64, timeout: int64) {
    at + LeaseMillis(timeout) <= MAX_INT64 && (timeout > 0 ==> at + timeout <= MAX_INT64)
  }

  /** When the engine may refuse a command of the driver: the version counter has no room for its events, the lease or
      the timeout of a start overflows the clock, or a child of a fan-out would have the identifier of a task. */
  predicate Excused(s: Workflow, c: Command) {
    || !Room(s)
    || (c.kind == CommandStart && c.task in s.tasks && !LeaseInRange(c.at, s.tasks[c.task].definition.timeout))
    || (c.kind == CommandComplete && Collides(s, c.task, c.fanout))
  }

  predicate Scheduled(timers: map<Id, Timer>, k: Id) {
    k in timers && timers[k].status == TimerScheduled
  }

  predicate Sooner(timers: map<Id, Timer>, a: Id, b: Id)
    requires a in timers && b in timers
  {
    timers[a].deadline < timers[b].deadline || (timers[a].deadline == timers[b].deadline && Before(a, b))
  }

  /** nextTimer: the scheduled timer with the first deadline, and of those the first identifier. */
  method NextTimer(timers: map<Id, Timer>) returns (r: Option<Id>)
    ensures r.None? <==> forall k :: !Scheduled(timers, k)
    ensures r.Some? ==> Scheduled(timers, r.value) && forall k | Scheduled(timers, k)
            && k != r.value :: Sooner(timers, r.value, k)
  {
    hide Before;
    r := None;
    var rest := timers.Keys;
    while rest != {}
      invariant rest <= timers.Keys
      invariant r.None? <==> forall k :: Scheduled(timers, k) ==> k in rest
      invariant r.Some? ==> Scheduled(timers, r.value) && r.value !in rest
      invariant r.Some? ==> forall k | Scheduled(timers, k) && k !in rest && k != r.value :: Sooner(timers, r.value, k)
      decreases |rest|
    {
      var k :| k in rest;
      rest := rest - {k};
      if timers[k].status == TimerScheduled {
        if r.None? {
          r := Some(k);
        } else {
          ghost var best := r.value;
          Trichotomy(k, r.value);
          if Sooner(timers, k, r.value) {
            r := Some(k);
            forall x | Scheduled(timers, x) && x !in rest && x != k ensures Sooner(timers, k, x) {
              if x != best && Before(k, best) && Before(best, x) { Transitive(k, best, x); }
            }
          }
        }
      }
    }
  }

  // ----- The commands of a run -----

  function FirstCommand(definition: WorkflowDefinition): Command {
    Command(CommandSubmit, SUBMIT_REQUEST, 0, definition := Some(definition))
  }

  function StartOf(w: Id, id: Id, task: Task, at: int64): Command {
    Command(CommandStart, LeaseRequestID(w, id, Next32(task.attempt)), at, workflow := w, task := id, worker := WORKER,
            leaseUntil := LeaseEnd(at, LeaseMillis(task.definition.timeout)))
  }

  function CompletionOf(w: Id, id: Id, attemptId: Id, worker: string, fence: uint64, items: seq<FanoutItem>,
                        at: int64): Command {
    Command(CommandComplete, CompletionRequestID(attemptId, fence), at, workflow := w, task := id,
            attemptId := attemptId, worker := worker, fence := fence,
            output := map["value" := Shown(id)], fanout := items)
  }

  function FiringOf(w: Id, k: Id, at: int64): Command {
    Command(CommandFireTimer, TimerRequestID(k), at, workflow := w, timer := k)
  }

  /** An identifier as the text of an output. */
  function Shown(id: Id): string {
    match id
    case Text(text) => text
    case Digest(_, _, _, key, _) => key
  }

  /** A command that the driver may make at a state, when its clock stands at `now`: the start of a startable task one
      tick later, the completion of a task it holds, or the firing of a scheduled timer, at its deadline if that is yet
      to come. */
  predicate Issued(s: Workflow, now: int64, c: Command) {
    hide CompletionOf, StartOf;
    match c.kind
    case CommandStart =>
      c.task in s.tasks && Startable(s.tasks[c.task]) && c.at == now + 1
      && c == StartOf(s.id, c.task, s.tasks[c.task], c.at)
    case CommandComplete =>
      c.task in s.tasks && s.tasks[c.task].status == TaskRunning && c.at == now
      && (var t := s.tasks[c.task];
          c == CompletionOf(s.id, c.task, t.attemptId, t.worker, t.fence, LocalFanout(t), c.at))
    case CommandFireTimer =>
      Scheduled(s.timers, c.timer) && c == FiringOf(s.id, c.timer, c.at)
      && c.at == (if s.timers[c.timer].deadline <= now then now else s.timers[c.timer].deadline)
    case _ => false
  }

  /** The commands of a run: the submission, and then each made at the state that the ones before it, all accepted, led
      to. */
  ghost predicate Conducted(commands: seq<Command>, w: Id)
    decreases |commands|, 0
  {
    hide Issued, Live, OnCourse;
    && commands != []
    && if |commands| == 1 then commands[0].definition.Some? && commands[0] == FirstCommand(commands[0].definition.value)
       else
         var front, last := commands[..|commands| - 1], commands[|commands| - 1];
         OnCourse(front, w) && w in Live(front).states && Issued(Live(front).states[w], front[|front| - 1].at, last)
  }

  /** And the last one has been accepted too. */
  ghost predicate OnCourse(commands: seq<Command>, w: Id)
    decreases |commands|, 1
  {
    hide Handle, Issued, Live;
    Conducted(commands, w) && Handle(Live(commands[..|commands| - 1]), NoLoaders, commands[|commands| - 1]).Ok?
  }

  lemma {:induction false} Continues(commands: seq<Command>, w: Id, c: Command)
    requires hide Handle, Live;
             OnCourse(commands, w) && w in Live(commands).states
             && Issued(Live(commands).states[w], commands[|commands| - 1].at, c)
    ensures Conducted(commands + [c], w)
    ensures Handle(Live(commands), NoLoaders, c).Ok? ==> OnCourse(commands + [c], w)
  {
    hide Handle, Live, Issued;
    assert (commands + [c])[..|commands + [c]| - 1] == commands;
  }

  lemma {:induction false} LiveNext(commands: seq<Command>, c: Command)
    requires hide Handle, Live;
             Handle(Live(commands), NoLoaders, c).Ok?
    ensures Live(commands + [c]) == Handle(Live(commands), NoLoaders, c).value.1
  {
    hide Handle;
    assert (commands + [c])[..|commands|] == commands;
  }

  /** The engine as the driver has left it after some commands. */
  ghost predicate At(engine: Engine, commands: seq<Command>, w: Id, held: set<Id>)
    reads engine, engine.states.Values
  {
    hide Driven, Engine.Valid, Engine.Value, Live;
    engine.Valid() && engine.loaders == NoLoaders && engine.Value() == Live(commands) && Driven(Live(commands), w, held)
  }

  /** What a run may still do: the tasks its workflow reserves, and its waiting to start. */
  ghost function Left(commands: seq<Command>, w: Id): nat {
    hide Live, Reserved;
    if w in Live(commands).states then Reserved(Live(commands).states[w]) else 0
  }

  ghost function Waits(commands: seq<Command>, w: Id): nat {
    hide Live;
    if w in Live(commands).states && Live(commands).states[w].status == WorkflowScheduled then 1 else 0
  }

  /** The driver's clock stands where its last command was made, and its workflow is not ahead of it. */
  ghost predicate Clocked(commands: seq<Command>, w: Id, now: int64) {
    hide Behind;
    commands != [] && commands[|commands| - 1].at == now && Behind(commands, w, now)
  }

  ghost predicate Behind(commands: seq<Command>, w: Id, now: int64) {
    hide Live;
    w in Live(commands).states && Live(commands).states[w].updatedAt <= now
  }

  /** The last command was refused, for one of the reasons there are. */
  ghost predicate Refusal(commands: seq<Command>, w: Id, error: Error) {
    hide Excused, Handle, Live;
    && |commands| > 1
    && var front, last := commands[..|commands| - 1], commands[|commands| - 1];
       Handle(Live(front), NoLoaders, last) == Err(error) && w in Live(front).states
           && Excused(Live(front).states[w], last)
  }

  /** Why a run stops early: the definition is not valid or has too many tasks, the clock cannot go further, or the last
      command was refused for one of the reasons there are. */
  ghost predicate Halted(definition: WorkflowDefinition, commands: seq<Command>, error: Error) {
    hide Handle, Refusal, ValidDefinition;
    && commands != []
    && var last := commands[|commands| - 1];
       || (|commands| == 1 && Handle(EMPTY, NoLoaders, last) == Err(error)
           && (!ValidDefinition(definition) || |definition.tasks| + 2 > MAX_UINT64))
       || (last.at == MAX_INT64 && error == ErrTimeOverflow)
       || Refusal(commands, RunWorkflow(definition), error)
  }

  lemma {:induction false} RefusedLast(commands: seq<Command>, w: Id, c: Command, error: Error)
    requires hide Excused, Handle, Live, Refusal;
             commands != [] && Handle(Live(commands), NoLoaders, c) == Err(error)
    requires w in Live(commands).states && Excused(Live(commands).states[w], c)
    ensures Refusal(commands + [c], w, error)
  {
    hide Handle, Live, Excused;
    assert (commands + [c])[..|commands + [c]| - 1] == commands;
  }

  method ReadState(engine: Engine, w: Id, ghost commands: seq<Command>, ghost held: set<Id>) returns (s: Workflow)
    requires hide At, Inv, Live;
             At(engine, commands, w, held)
    ensures w in Live(commands).states && s == Live(commands).states[w]
    ensures Inv(s) && s.id == w && Unfailed(s) && HeldOnly(s, held)
  {
    hide Driven, Live, Engine.Valid, Inv, StatusOk, TasksOk, TimersOk;
    DrivenSound(Live(commands), w, held);
    s := engine.states[w].Value();
  }

  /** The driver hands a command to the engine. */
  method Submit(engine: Engine, c: Command, ghost commands: seq<Command>) returns (r: Result<Answer>)
    requires hide Engine.Valid, Engine.Value, Handle, Live;
             engine.Valid() && engine.loaders == NoLoaders && engine.Value() == Live(commands)
    modifies engine
    ensures r.Ok? ==>
              && engine.Valid() && Handle(Live(commands), NoLoaders, c).Ok?
                  && r.value == Handle(Live(commands), NoLoaders, c).value.0
              && engine.Value() == Live(commands + [c]) == Handle(Live(commands), NoLoaders, c).value.1
    ensures r.Err? ==> Handle(Live(commands), NoLoaders, c) == Err(r.error)
  {
    hide Handle, Live, Engine.Valid;
    r := engine.PrepareAndApply(c);
    if r.Ok? { LiveNext(commands, c); }
  }

  lemma {:induction false} FiredNext(commands: seq<Command>, w: Id, c: Command)
    requires hide Clocked, Driven, Handle, Left, Live, Waits;
             Driven(Live(commands), w, {}) && w in Live(commands).states
             && Scheduled(Live(commands).states[w].timers, c.timer)
    requires c.kind == CommandFireTimer && c.workflow == w && c.request == TimerRequestID(c.timer)
    requires Handle(Live(commands), NoLoaders, c).Ok?
             && Live(commands + [c]) == Handle(Live(commands), NoLoaders, c).value.1
    ensures var after := commands + [c];
            Driven(Live(after), w, {}) && Left(after, w) <= Left(commands, w) && Waits(after, w) < Waits(commands, w)
                && Clocked(after, w, c.at)
  {
    hide Handle, Driven, Live, Reserved, Inv, Unfailed, HeldOnly;
    DrivenFire(Live(commands), w, c);
    DrivenSound(Live(commands + [c]), w, {});
  }

  lemma {:induction false} FireRefused(commands: seq<Command>, w: Id, c: Command, error: Error)
    requires hide Excused, Handle, Live;
             commands != [] && Driven(Live(commands), w, {}) && Behind(commands, w, c.at)
             && Scheduled(Live(commands).states[w].timers, c.timer)
    requires c.at >= Live(commands).states[w].timers[c.timer].deadline
             && Handle(Live(commands), NoLoaders, c) == Err(error)
    requires c.kind == CommandFireTimer && c.workflow == w && c.request == TimerRequestID(c.timer)
    ensures Refusal(commands + [c], w, error)
  {
    hide Handle, Driven, Live, Refusal, Room;
    if Room(Live(commands).states[w]) { DrivenFireAccepted(Live(commands), w, c); }
    RefusedLast(commands, w, c, error);
  }

  /** fireTimer */
  method FireTimer(engine: Engine, w: Id, k: Id, now: int64, ghost commands: seq<Command>)
    returns (r: Result<()>, ghost after: seq<Command>)
    requires hide Driven, Engine.Valid, Excused, Handle, Left, Live, Waits;
             At(engine, commands, w, {}) && commands != [] && OnCourse(commands, w) && Behind(commands, w, now)
    requires Scheduled(Live(commands).states[w].timers, k) && Live(commands).states[w].timers[k].deadline <= now
             && Issued(Live(commands).states[w], commands[|commands| - 1].at, FiringOf(w, k, now))
    modifies engine
    ensures r.Ok? ==>
              At(engine, after, w, {}) && Left(after, w) <= Left(commands, w) && Waits(after, w) < Waits(commands, w)
              && Clocked(after, w, now) && OnCourse(after, w)
    ensures r.Err? ==> Refusal(after, w, r.error) && after != []
    ensures commands <= after && Conducted(after, w)
  {
    hide Handle, Driven, Live, Reserved, Engine.Valid, Refusal, OnCourse, Conducted, Issued;
    var c := FiringOf(w, k, now);
    Continues(commands, w, c);
    var answer := Submit(engine, c, commands);
    after := commands + [c];
    if answer.Err? {
      FireRefused(commands, w, c, answer.error);
      return Err(answer.error), after;
    }
    FiredNext(commands, w, c);
    hide Left, Waits, Clocked;
    r := Ok(());
  }

  /** eventOfKind */
  method EventOfKind(events: seq<Event>, kind: EventKind) returns (r: Option<Event>)
    ensures r.None? <==> forall i | 0 <= i < |events| :: events[i].kind != kind
    ensures events != [] && events[0].kind == kind ==> r == Some(events[0])
  {
    for i := 0 to |events|
      invariant forall j | 0 <= j < i :: events[j].kind != kind
    {
      if events[i].kind == kind { return Some(events[i]); }
    }
    r := None;
  }

  /** The task is held under a lease that the driver got just now. */
  ghost predicate HeldNow(commands: seq<Command>, w: Id, id: Id, task: Task, lease: Event, now: int64) {
    hide Live, HeldIn;
    Clocked(commands, w, now) && HeldIn(Live(commands).states[w], w, id, task, lease, now)
  }

  predicate HeldIn(s: Workflow, w: Id, id: Id, task: Task, lease: Event, now: int64) {
    && id in s.tasks
    && var t := s.tasks[id];
       && t.status == TaskRunning && t.definition == task.definition && t.startedAt == now < t.leaseUntil
       && t.attemptId == lease.attemptId == AttemptID(w, id, 1) && t.worker == lease.worker && t.fence == lease.fence
  }

  ghost predicate HasTask(commands: seq<Command>, w: Id, id: Id, task: Task) {
    hide Live;
    w in Live(commands).states && id in Live(commands).states[w].tasks && Live(commands).states[w].tasks[id] == task
  }

  lemma {:induction false} Started(before: Ledger, w: Id, c: Command, answer: Answer, after: Ledger)
    requires hide Driven, Handle, Reserved;
             Driven(before, w, {}) && c.kind == CommandStart && c.workflow == w && w in before.states
             && c.task in before.states[w].tasks
    requires before.states[w].tasks[c.task].attempt == 0 && before.states[w].tasks[c.task].status == TaskReady
    requires c.request == LeaseRequestID(w, c.task, 1) && Handle(before, NoLoaders, c) == Ok((answer, after))
    ensures Driven(after, w, {c.task}) && w in after.states && Reserved(after.states[w]) == Reserved(before.states[w])
            && after.states[w].updatedAt == c.at
    ensures answer.Fresh? && answer.planned.events != [] && answer.planned.events[0].kind == EventTaskStarted
    ensures HeldIn(after.states[w], w, c.task, before.states[w].tasks[c.task], answer.planned.events[0], c.at)
  {
    hide Handle, Driven, Reserved, Inv, Unfailed, HeldOnly;
    DrivenSound(before, w, {});
    WorkRuns(before.states[w], c.task);
    ReadyTask(before.states[w], c.task);
    LeaseAhead(before, w, c);
    StartAnswer(before, w, c);
    DrivenStart(before, w, c);
    DrivenSound(after, w, {c.task});
  }

  lemma {:induction false} StartRefused(commands: seq<Command>, w: Id, c: Command, error: Error)
    requires hide Excused, Handle, Live, Driven, Refusal;
             commands != [] && Driven(Live(commands), w, {}) && Behind(commands, w, c.at)
             && c.task in Live(commands).states[w].tasks
    requires Live(commands).states[w].tasks[c.task].status == TaskReady
             && Live(commands).states[w].tasks[c.task].attempt == 0
    requires c.kind == CommandStart && c.workflow == w && c.request == LeaseRequestID(w, c.task, 1)
             && c.worker == WORKER && c.attemptId == NO_ID
    requires c.leaseUntil == LeaseEnd(c.at, LeaseMillis(Live(commands).states[w].tasks[c.task].definition.timeout))
    requires Handle(Live(commands), NoLoaders, c) == Err(error)
    ensures Refusal(commands + [c], w, error)
  {
    hide Handle, Driven, Live, Refusal, Room;
    var s := Live(commands).states[w];
    assert !BlankText(WORKER) by { assert !IsSpace(WORKER[0]); }
    if Room(s) && LeaseInRange(c.at, s.tasks[c.task].definition.timeout) { DrivenStartAccepted(Live(commands), w, c); }
    RefusedLast(commands, w, c, error);
  }

  lemma {:induction false} StartContinues(commands: seq<Command>, w: Id, id: Id, task: Task, now: int64)
    requires hide Handle, Issued, Live, StartOf;
             OnCourse(commands, w) && Driven(Live(commands), w, {}) && HasTask(commands, w, id, task)
    requires task.status == TaskReady && commands[|commands| - 1].at + 1 == now
    ensures var after := commands + [StartOf(w, id, task, now)];
            && Conducted(after, w)
            && (Handle(Live(commands), NoLoaders, StartOf(w, id, task, now)).Ok? ==> OnCourse(after, w))
  {
    hide Handle, Live, Driven, OnCourse, Conducted, Inv, Unfailed, HeldOnly;
    DrivenSound(Live(commands), w, {});
    Continues(commands, w, StartOf(w, id, task, now));
  }

  /** The start of one task: its lease. */
  method StartTask(engine: Engine, w: Id, id: Id, task: Task, now: int64, ghost commands: seq<Command>)
    returns (r: Result<Option<Event>>, ghost after: seq<Command>)
    requires hide At, Behind, Conducted, HasTask, HeldNow, Left, OnCourse, Refusal;
             At(engine, commands, w, {}) && HasTask(commands, w, id, task) && task.status == TaskReady
             && task.attempt == 0
    requires commands != [] && OnCourse(commands, w) && Behind(commands, w, now)
             && commands[|commands| - 1].at + 1 == now
    modifies engine
    ensures r.Ok? ==>
              At(engine, after, w, {id}) && Left(after, w) == Left(commands, w) && r.value.Some?
                  && HeldNow(after, w, id, task, r.value.value, now) && OnCourse(after, w)
    ensures r.Err? ==> Refusal(after, w, r.error)
    ensures commands <= after && Conducted(after, w)
  {
    hide Handle, Driven, Live, Reserved, Engine.Valid, Refusal, OnCourse, Conducted, Issued, HeldIn;
    var c := StartOf(w, id, task, now);
    StartContinues(commands, w, id, task, now);
    var answer := Submit(engine, c, commands);
    after := commands + [c];
    if answer.Err? {
      StartRefused(commands, w, c, answer.error);
      return Err(answer.error), after;
    }
    Started(Live(commands), w, c, answer.value, Live(after));
    var lease := EventOfKind(answer.value.planned.events, EventTaskStarted);
    r := Ok(lease);
  }

  lemma {:induction false} CompletedNext(commands: seq<Command>, w: Id, c: Command)
    requires hide Clocked, Driven, Handle, Left, Live;
             Driven(Live(commands), w, {c.task}) && w in Live(commands).states
             && c.task in Live(commands).states[w].tasks
    requires Live(commands).states[w].tasks[c.task].status == TaskRunning
    requires c.kind == CommandComplete && c.workflow == w
             && c.request == CompletionRequestID(AttemptID(w, c.task, 1), c.fence)
    requires Handle(Live(commands), NoLoaders, c).Ok?
             && Live(commands + [c]) == Handle(Live(commands), NoLoaders, c).value.1
    ensures Driven(Live(commands + [c]), w, {}) && Left(commands + [c], w) < Left(commands, w)
            && Clocked(commands + [c], w, c.at)
  {
    hide Handle, Driven, Live, Reserved, Inv, Unfailed, HeldOnly;
    DrivenComplete(Live(commands), w, c, 1);
    DrivenSound(Live(commands + [c]), w, {});
  }

  lemma {:induction false} CompleteRefused(commands: seq<Command>, w: Id, c: Command, task: Task, lease: Event,
                                           error: Error)
    requires hide Driven, Handle, HeldNow, Live, Refusal;
             Driven(Live(commands), w, {c.task}) && HeldNow(commands, w, c.task, task, lease, c.at)
    requires c.kind == CommandComplete && c.workflow == w
             && c.request == CompletionRequestID(AttemptID(w, c.task, 1), c.fence)
    requires c.attemptId == lease.attemptId && c.worker == lease.worker && c.fence == lease.fence
             && c.fanout == LocalFanout(task)
    requires Handle(Live(commands), NoLoaders, c) == Err(error)
    ensures Refusal(commands + [c], w, error)
  {
    hide Handle, Driven, Live, Refusal, Room, Collides;
    var s := Live(commands).states[w];
    assert HeldIn(s, w, c.task, task, lease, c.at);
    assert LocalFanout(task) == LocalFanout(s.tasks[c.task]);
    hide LocalFanout;
    if Room(s) && !Collides(s, c.task, c.fanout) { DrivenCompleteAccepted(Live(commands), w, c, 1); }
    RefusedLast(commands, w, c, error);
  }

  lemma {:induction false} CompletionContinues(commands: seq<Command>, w: Id, id: Id, task: Task, lease: Event,
                                               now: int64)
    requires OnCourse(commands, w) && Driven(Live(commands), w, {id}) && HeldNow(commands, w, id, task, lease, now)
    ensures var c := CompletionOf(w, id, lease.attemptId, lease.worker, lease.fence, LocalFanout(task), now);
            Conducted(commands + [c], w) && (Handle(Live(commands), NoLoaders, c).Ok? ==> OnCourse(commands + [c], w))
  {
    hide Handle, Live, Driven, OnCourse, Conducted, Inv, Unfailed, HeldOnly;
    DrivenSound(Live(commands), w, {id});
    assert LocalFanout(task) == LocalFanout(Live(commands).states[w].tasks[id]);
    hide LocalFanout;
    Continues(commands, w, CompletionOf(w, id, lease.attemptId, lease.worker, lease.fence, LocalFanout(task), now));
  }

  /** The completion of the task that was started. */
  method CompleteTask(engine: Engine, w: Id, id: Id, task: Task, lease: Event, now: int64, ghost commands: seq<Command>)
    returns (r: Result<()>, ghost after: seq<Command>)
    requires hide At, Clocked, Conducted, HeldNow, Left, OnCourse, Refusal;
             At(engine, commands, w, {id}) && HeldNow(commands, w, id, task, lease, now) && OnCourse(commands, w)
    modifies engine
    ensures r.Ok? ==>
              At(engine, after, w, {}) && Left(after, w) < Left(commands, w) && Clocked(after, w, now)
              && OnCourse(after, w)
    ensures r.Err? ==> Refusal(after, w, r.error)
    ensures commands <= after && Conducted(after, w)
  {
    hide Handle, Driven, Live, Reserved, Engine.Valid, Refusal, OnCourse, Conducted, Issued;
    var c := CompletionOf(w, id, lease.attemptId, lease.worker, lease.fence, LocalFanout(task), now);
    CompletionContinues(commands, w, id, task, lease, now);
    var answer := Submit(engine, c, commands);
    after := commands + [c];
    if answer.Err? {
      CompleteRefused(commands, w, c, task, lease, answer.error);
      return Err(answer.error), after;
    }
    CompletedNext(commands, w, c);
    hide Left, HeldNow, Clocked;
    r := Ok(());
  }

  /** Either the driver goes on, at some time, or it stops. */
  datatype Step = Going(now: int64) | Stopped(outcome: Outcome)

  /** The driver stops: its clock is at its end, or its last command was refused for one of the reasons there are. */
  ghost predicate Stops(commands: seq<Command>, w: Id, outcome: Outcome) {
    hide Refusal;
    && outcome.Refused? && commands != []
    && ((commands[|commands| - 1].at == MAX_INT64 && outcome.error == ErrTimeOverflow)
        || Refusal(commands, w, outcome.error))
  }

  /** One task, from start to completion. */
  method RunTask(engine: Engine, w: Id, id: Id, task: Task, now: int64, ghost commands: seq<Command>)
    returns (r: Step, ghost after: seq<Command>)
    requires hide At, Clocked, Conducted, HasTask, Left, OnCourse, Stops;
             At(engine, commands, w, {}) && HasTask(commands, w, id, task) && task.status == TaskReady
             && task.attempt == 0
    requires Clocked(commands, w, now) && OnCourse(commands, w)
    modifies engine
    ensures r.Going? ==>
              At(engine, after, w, {}) && Left(after, w) < Left(commands, w) && Clocked(after, w, r.now)
              && OnCourse(after, w)
    ensures r.Stopped? ==> Stops(after, w, r.outcome)
    ensures commands <= after && Conducted(after, w)
  {
    hide At, Left, HasTask, HeldNow, Handle, Live, Excused, Conducted, Issued, Refusal;
    after := commands;
    var tick := Advance(now, 1);
    if tick.Err? { return Stopped(Refused(tick.error)), after; }
    var start;
    start, after := StartTask(engine, w, id, task, tick.value, commands);
    if start.Err? { return Stopped(Refused(start.error)), after; }
    if start.value.None? { return Stopped(NotStarted), after; }
    var done;
    done, after := CompleteTask(engine, w, id, task, start.value.value, tick.value, after);
    if done.Err? { return Stopped(Refused(done.error)), after; }
    hide Clocked;
    r := Going(tick.value);
  }

  ghost predicate CanStart(commands: seq<Command>, w: Id, id: Id) {
    hide Live;
    w in Live(commands).states && id in Live(commands).states[w].tasks && Startable(Live(commands).states[w].tasks[id])
  }

  /** One pass over the tasks that were runnable; those that no longer are, are passed over. */
  method RunTasks(engine: Engine, w: Id, tasks: seq<Id>, now: int64, ghost commands: seq<Command>)
    returns (r: Step, ghost after: seq<Command>)
    requires hide At, CanStart, Clocked, Conducted, Left, OnCourse, Stops;
             At(engine, commands, w, {}) && tasks != [] && CanStart(commands, w, tasks[0]) && Clocked(commands, w, now)
             && OnCourse(commands, w)
    modifies engine
    ensures r.Going? ==>
              At(engine, after, w, {}) && Left(after, w) < Left(commands, w) && Clocked(after, w, r.now)
              && OnCourse(after, w)
    ensures r.Stopped? ==> Stops(after, w, r.outcome)
    ensures commands <= after && Conducted(after, w)
  {
    hide At, Left, Live, Inv, Unfailed, HeldOnly, Clocked, Stops, Conducted, Handle, Issued;
    r, after := Going(now), commands;
    for i := 0 to |tasks|
      invariant r.Going? && At(engine, after, w, {}) && Clocked(after, w, r.now) && commands <= after
                && OnCourse(after, w)
      invariant if i == 0 then after == commands else Left(after, w) < Left(commands, w)
    {
      var s := ReadState(engine, w, after, {});
      if tasks[i] in s.tasks && Startable(s.tasks[tasks[i]]) {
        StartableReady(s, tasks[i]);
        r, after := RunTask(engine, w, tasks[i], s.tasks[tasks[i]], r.now, after);
        if r.Stopped? { return; }
      }
    }
  }

  /** runnableTasks, in order. */
  method RunnableTasks(s: Workflow) returns (tasks: seq<Id>)
    ensures forall id :: id in tasks <==> id in s.tasks && Startable(s.tasks[id])
  {
    tasks := SortedIds(set id | id in s.tasks && Startable(s.tasks[id]));
  }

  /** No task to start and no timer to fire. */
  predicate Stuck(s: Workflow) {
    && (forall id | id in s.tasks :: !Startable(s.tasks[id]))
    && (forall k | k in s.timers :: s.timers[k].status != TimerScheduled)
  }

  lemma {:induction false} FiringIssued(s: Workflow, now: int64, k: Id, at: int64)
    requires hide Issued;
             Scheduled(s.timers, k) && at == (if s.timers[k].deadline <= now then now else s.timers[k].deadline)
    ensures Issued(s, now, FiringOf(s.id, k, at))
  {
  }

  lemma {:induction false} CourseConducted(commands: seq<Command>, w: Id)
    requires OnCourse(commands, w)
    ensures Conducted(commands, w)
  {
    hide Handle, Live, Issued;
  }

  /** One turn of the loop on a workflow that has not ended. */
  method Turn(engine: Engine, w: Id, s: Workflow, now: int64, ghost commands: seq<Command>)
    returns (r: Step, ghost after: seq<Command>)
    requires hide At, Clocked, Conducted, Inv, Left, Live, OnCourse, Stops, Waits;
             At(engine, commands, w, {}) && w in Live(commands).states && s == Live(commands).states[w]
             && !Terminal(s.status)
    requires Inv(s) && Unfailed(s) && HeldOnly(s, {}) && Clocked(commands, w, now) && s.id == w && OnCourse(commands, w)
    modifies engine
    ensures r.Going? ==>
              && At(engine, after, w, {}) && Clocked(after, w, r.now) && OnCourse(after, w)
              && (Left(after, w) < Left(commands, w)
                  || (Left(after, w) <= Left(commands, w) && Waits(after, w) < Waits(commands, w)))
    ensures r.Stopped? ==> Stops(after, w, r.outcome) || (r.outcome.CannotProgress? && Stuck(s))
    ensures commands <= after && Conducted(after, w)
  {
    hide At, Left, Waits, Live, Inv, Unfailed, HeldOnly, Refusal, OnCourse, Conducted, Issued, Handle;
    CourseConducted(commands, w);
    after := commands;
    var timer := NextTimer(s.timers);
    var tasks := RunnableTasks(s);
    if timer.Some? && (s.timers[timer.value].deadline <= now || tasks == []) {
      var at := if s.timers[timer.value].deadline <= now then now else s.timers[timer.value].deadline;
      FiringIssued(s, now, timer.value, at);
      var fired;
      fired, after := FireTimer(engine, w, timer.value, at, commands);
      return if fired.Err? then Stopped(Refused(fired.error)) else Going(at), after;
    }
    if tasks == [] {
      forall k | k in s.timers ensures s.timers[k].status != TimerScheduled { assert !Scheduled(s.timers, k); }
      return Stopped(CannotProgress), after;
    }
    assert tasks[0] in tasks;
    r, after := RunTasks(engine, w, tasks, now, commands);
  }

  /** What a run has come to when it ends: everything is completed, and the journal gives the state back. */
  ghost predicate Finished(state: Workflow, commands: seq<Command>) {
    hide Live, Replay;
    && state.status == WorkflowCompleted && (forall id | id in state.tasks :: state.tasks[id].status == TaskCompleted)
    && Lookup(Live(commands).states, state.id) == Some(state) && Replay(Live(commands).journal).Ok?
    && Lookup(Replay(Live(commands).journal).value.states, state.id) == Some(state)
  }

  /** How a run can end: after commands that it made, in the way told by their last. */
  ghost predicate Concluded(definition: WorkflowDefinition, outcome: Outcome, commands: seq<Command>) {
    hide Handle, Issued, Live, OnCourse, Refusal, Replay, ValidDefinition;
    && Conducted(commands, RunWorkflow(definition)) && commands[0] == FirstCommand(definition)
    && (outcome.Ended? || outcome.Refused?)
    && (outcome.Ended? ==> outcome.state.id == RunWorkflow(definition) && Finished(outcome.state, commands))
    && (outcome.Refused? ==> Halted(definition, commands, outcome.error))
  }

  /** run: a definition is submitted and driven to its end. The run always ends, and never because the workflow cannot
      progress or a start comes without its lease. A valid definition of not too many tasks is driven to a completed
      workflow, whose state the journal gives back, unless the clock or the version counter comes to its end or a child
      of a fan-out has the identifier of a task. */
  method Run(definition: WorkflowDefinition) returns (outcome: Outcome)
    ensures exists commands :: Concluded(definition, outcome, commands)
  {
    hide At, Left, Waits, Live, Inv, Unfailed, HeldOnly, Finished, Clocked, Refusal, Handle;
    var submitted, engine, w;
    ghost var commands;
    submitted, engine, w, commands := Begin(definition);
    if submitted.Err? {
      outcome := Refused(submitted.error);
      assert Concluded(definition, outcome, commands);
      return;
    }
    var now: int64 := 0;
    var s := ReadState(engine, w, commands, {});
    while !Terminal(s.status)
      invariant At(engine, commands, w, {}) && w in Live(commands).states && s == Live(commands).states[w]
      invariant Inv(s) && s.id == w && Unfailed(s) && HeldOnly(s, {})
      invariant fresh(engine) && Clocked(commands, w, now) && w == RunWorkflow(definition)
      invariant OnCourse(commands, w) && commands[0] == FirstCommand(definition)
      decreases Left(commands, w), Waits(commands, w)
    {
      var step;
      step, commands := Turn(engine, w, s, now, commands);
      DriverCanGo(s);
      if step.Stopped? {
        outcome := step.outcome;
        assert Concluded(definition, outcome, commands);
        return;
      }
      now := step.now;
      s := ReadState(engine, w, commands, {});
    }
    EndsFinished(s, commands);
    outcome := Ended(s);
    assert Concluded(definition, outcome, commands);
  }

  /** The engine and the submission of a run. */
  method Begin(definition: WorkflowDefinition)
    returns (r: Result<()>, engine: Engine, w: Id, ghost commands: seq<Command>)
    ensures hide Behind, Driven, Engine.Valid, Handle, Issued, Live, Refusal, ValidDefinition;
            fresh(engine) && (r.Ok? ==>
              At(engine, commands, w, {}) && Clocked(commands, w, 0) && w == RunWorkflow(definition))
    ensures Conducted(commands, RunWorkflow(definition)) && commands[0] == FirstCommand(definition)
    ensures r.Ok? ==> OnCourse(commands, w)
    ensures r.Err? ==> Halted(definition, commands, r.error)
  {
    hide Handle, Live, Driven, Refusal;
    engine := new Engine(NoLoaders);
    w := NO_ID;
    var submit := FirstCommand(definition);
    commands := [submit];
    NoneLive();
    var answer := Submit(engine, submit, []);
    assert [] + [submit] == [submit];
    if answer.Err? {
      if ValidDefinition(definition) && |definition.tasks| + 2 <= MAX_UINT64 { DrivenSubmitAccepted(submit); }
      return Err(answer.error), engine, w, commands;
    }
    DrivenSubmit(submit);
    DrivenSound(Live(commands), answer.value.planned.workflow, {});
    return Ok(()), engine, answer.value.planned.workflow, commands;
  }

  lemma {:induction false} NoneLive()
    ensures Live([]) == EMPTY
  {
    hide Handle;
  }

  lemma {:induction false} EndsFinished(s: Workflow, commands: seq<Command>)
    requires hide Finished, Inv, Live;
             Terminal(s.status) && Inv(s) && Unfailed(s) && s.id in Live(commands).states
             && Live(commands).states[s.id] == s
    ensures Finished(s, commands)
  {
    hide Live, Replay, TasksOk;
    ReplayRebuilds(commands);
  }
}
