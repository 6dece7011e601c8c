/** Runs that end with outstanding recoveries in more than one chain, one for each kind of
    operation that can bring this about (internal/engine/recovery.go, internal/engine/engine.go). */
module ControllerRoutes {
  import opened Domain
  import opened RecoveryGraph
  import opened ControllerStore
  import opened ControllerTransactions
  import opened ControllerEvolution
  import opened ControllerMachine
  import opened ControllerInvariant
  import opened ControllerGuarantees
  import opened ControllerLedger
  import opened ControllerChains
  import opened ControllerHandover
  import opened ControllerFence

  // ---------------------------------------------------------------------------
  // Scenes: what a run has come to. The clock stands still, so nothing is pruned.

  predicate KeysOk(s: Store) {
    forall k | k in s.idempotency :: s.idempotency[k].operation in s.operations
  }

  lemma AllRetained(ops: Operations)
    ensures Retained(ops, 0) == ops.Keys
  {
    RetainedIsLeast(ops, 0);
    forall id | id in ops ensures id in Retained(ops, 0) { assert Live(ops[id], 0); }
  }

  lemma AllKept(ops: Operations, idempotency: map<nat, Idempotency>, plans: map<Id, Plan>)
    requires forall k | k in idempotency :: idempotency[k].operation in ops
    ensures Restrict(ops, ops.Keys) == ops && KeysInto(idempotency, ops) == idempotency && CurrentPlans(plans, 0) == plans
  {
    assert forall id | id in plans :: 0 <= plans[id].expiresAt + PLAN_GRACE;
  }

  lemma NothingPruned(s: Store)
    requires KeysOk(s)
    ensures Prune(s, 0) == s
  {
    AllRetained(s.operations);
    AllKept(s.operations, s.idempotency, s.plans);
  }

  datatype Scene = Scene(store: Store, process: Process, worker: Worker, source: Configuration, used: set<Id>, abandoned: set<Id>)

  predicate Shows(w: World, c: Scene) {
    && KeysOk(c.store)
    && w.mem == w.disk == c.store && !w.poisoned && w.process == c.process && w.depth == 2
    && w.env.worker == c.worker && w.env.source == c.source && w.env.used == c.used && w.env.abandoned == c.abandoned
  }

  predicate ComesTo(run: Run, c: Scene) {
    Legal(run) && Shows(Now(run), c)
  }

  lemma Steps(run: Run, c: Scene, e: Event, d: Scene)
    requires ComesTo(run, c) && Enabled(Now(run), e) && Shows(Next(Now(run), e), d)
    ensures ComesTo(Then(run, e), d)
  {
  }

  function WithOps(c: Scene, ops: Operations): Scene {
    c.(store := c.store.(operations := ops))
  }

  /** A transaction that is written. */
  lemma Stores(w: World, c: Scene, e: Event, t: Store)
    requires Shows(w, c) && Enabled(w, e) && Writes(e) && !e.StartOne? && e.now == 0 && e.write.Written?
    requires TxOf(w, e) == Some(t) && KeysOk(t)
    ensures var w' := Next(w, e); w'.mem == w'.disk == t && !w'.poisoned && w'.process == c.process && w'.depth == 2
  {
    NothingPruned(t);
    UpdateCommits(w, e, Some(t));
  }

  // ---------------------------------------------------------------------------
  // One event each.

  lemma Opened(source: Configuration) returns (run: Run)
    ensures ComesTo(run, Scene(Store(map[], map[], map[]), Up, Free, source, {}, {}))
  {
    var empty := Store(map[], map[], map[]);
    var down := Fresh(source, 2);
    Steps(down, Scene(empty, Down, Free, source, {}, {}), Reopen, Scene(empty, Starting({}), Free, source, {}, {}));
    run := Then(Then(down, Reopen), StartDone);
  }

  lemma PlanIs(w: World, c: Scene, planId: Id, plan: Plan, d: Scene)
    requires Shows(w, c) && c.process.Up? && PlanOk(plan) && |c.store.plans| < MAX_PLANS
    requires d == c.(store := c.store.(plans := c.store.plans[planId := plan]))
    ensures var e := CreatePlan(planId, plan, 0, Written); Enabled(w, e) && Shows(Next(w, e), d)
  {
    var e := CreatePlan(planId, plan, 0, Written);
    NothingPruned(c.store);
    assert TxOf(w, e) == Some(d.store);
    Stores(w, c, e, d.store);
  }

  lemma Planned(run: Run, c: Scene, planId: Id, plan: Plan) returns (next: Run, d: Scene)
    requires ComesTo(run, c) && c.process.Up? && PlanOk(plan) && |c.store.plans| < MAX_PLANS
    ensures d == c.(store := c.store.(plans := c.store.plans[planId := plan])) && ComesTo(next, d)
  {
    d := c.(store := c.store.(plans := c.store.plans[planId := plan]));
    PlanIs(Now(run), c, planId, plan, d);
    next := Then(run, CreatePlan(planId, plan, 0, Written));
    Steps(run, c, CreatePlan(planId, plan, 0, Written), d);
  }

  function Applied(c: Scene, planId: Id, id: Id): Scene
    requires planId in c.store.plans
  {
    c.(store := c.store.(operations := c.store.operations[id := NewOperation(id, id, c.store.plans[planId], 0)],
                         idempotency := c.store.idempotency[id := Idempotency(0, id)]),
       used := c.used + {id})
  }

  predicate CanQueue(c: Scene, planId: Id, id: Id) {
    && c.process.Up? && planId in c.store.plans && id != 0 && id !in c.used && id !in c.store.idempotency
    && Admits(c.store.operations, OperationRoots(c.store.operations), c.store.plans[planId].draft, 0)
    && |NonTerminal(c.store.operations)| < 2 && |c.store.operations| < MAX_OPERATIONS
  }

  lemma QueueTx(s: Store, planId: Id, id: Id, t: Store)
    requires planId in s.plans && id !in s.idempotency && Admits(s.operations, OperationRoots(s.operations), s.plans[planId].draft, 0)
    requires |NonTerminal(s.operations)| < 2 && |s.operations| < MAX_OPERATIONS
    requires t == s.(operations := s.operations[id := NewOperation(id, id, s.plans[planId], 0)], idempotency := s.idempotency[id := Idempotency(0, id)])
    ensures ApplyTx(s, planId, id, 0, id, 2, true, 0) == Some(t)
  {
  }

  lemma QueueIs(w: World, c: Scene, planId: Id, id: Id)
    requires Shows(w, c) && CanQueue(c, planId, id)
    ensures var e := Apply(planId, id, 0, id, true, 0, Written); Enabled(w, e) && Shows(Next(w, e), Applied(c, planId, id))
  {
    QueueAsks(w, c, planId, id);
    Stores(w, c, Apply(planId, id, 0, id, true, 0, Written), Applied(c, planId, id).store);
  }

  lemma QueueAsks(w: World, c: Scene, planId: Id, id: Id)
    requires Shows(w, c) && CanQueue(c, planId, id)
    ensures var e := Apply(planId, id, 0, id, true, 0, Written); Enabled(w, e) && TxOf(w, e) == Some(Applied(c, planId, id).store)
  {
    NothingPruned(c.store);
    QueueTx(c.store, planId, id, Applied(c, planId, id).store);
  }

  lemma Queues(run: Run, c: Scene, planId: Id, id: Id) returns (next: Run, d: Scene)
    requires ComesTo(run, c) && CanQueue(c, planId, id)
    ensures d == Applied(c, planId, id) && ComesTo(next, d)
  {
    d := Applied(c, planId, id);
    QueueIs(Now(run), c, planId, id);
    next := Then(run, Apply(planId, id, 0, id, true, 0, Written));
    Steps(run, c, Apply(planId, id, 0, id, true, 0, Written), d);
  }

  function BegunOp(o: Operation): Operation { Touched(o, 0).(state := Running) }

  predicate CanBegin(c: Scene, id: Id) {
    && c.process.Up? && c.worker.Free? && id in c.store.operations && c.store.operations[id].state.Queued?
    && Admits(c.store.operations, OperationRoots(c.store.operations), c.store.operations[id].plan.draft, id)
  }

  function AfterBegin(c: Scene, id: Id): Scene
    requires id in c.store.operations
  {
    WithOps(c, c.store.operations[id := BegunOp(c.store.operations[id])]).(worker := Busy(id, c.store.operations[id].plan, Begun))
  }

  lemma BeginTxIs(s: Store, id: Id)
    requires id in s.operations && s.operations[id].state.Queued?
    requires Admits(s.operations, OperationRoots(s.operations), s.operations[id].plan.draft, id)
    ensures BeginTx(s, id, true, 0) == Some(s.(operations := s.operations[id := BegunOp(s.operations[id])]))
  {
  }

  lemma BeginIs(w: World, c: Scene, id: Id)
    requires Shows(w, c) && CanBegin(c, id)
    ensures var e := Begin(id, true, 0, Written); Enabled(w, e) && Shows(Next(w, e), AfterBegin(c, id))
  {
    BeginAsks(w, c, id);
    Stores(w, c, Begin(id, true, 0, Written), AfterBegin(c, id).store);
  }

  lemma BeginAsks(w: World, c: Scene, id: Id)
    requires Shows(w, c) && CanBegin(c, id)
    ensures var e := Begin(id, true, 0, Written); Enabled(w, e) && TxOf(w, e) == Some(AfterBegin(c, id).store)
  {
    NothingPruned(c.store);
    BeginTxIs(c.store, id);
  }

  lemma Begins(run: Run, c: Scene, id: Id) returns (next: Run, d: Scene)
    requires ComesTo(run, c) && CanBegin(c, id)
    ensures d == AfterBegin(c, id) && ComesTo(next, d)
  {
    d := AfterBegin(c, id);
    BeginIs(Now(run), c, id);
    next := Then(run, Begin(id, true, 0, Written));
    Steps(run, c, Begin(id, true, 0, Written), d);
  }

  function CancelledOp(o: Operation): Operation { Touched(o, 0).(cancelRequested := true, state := CancelRequested) }

  lemma CancelTxIs(s: Store, id: Id)
    requires id in s.operations && s.operations[id].state.Running?
    ensures CancelTx(s, id, 0, 0) == Some(s.(operations := s.operations[id := CancelledOp(s.operations[id])]))
  {
  }

  lemma CancelAsks(w: World, c: Scene, id: Id)
    requires Shows(w, c) && c.process.Up? && id in c.store.operations && c.store.operations[id].state.Running?
    ensures var e := Cancel(id, 0, 0, Written);
            Enabled(w, e) && TxOf(w, e) == Some(WithOps(c, c.store.operations[id := CancelledOp(c.store.operations[id])]).store)
  {
    NothingPruned(c.store);
    CancelTxIs(c.store, id);
  }

  lemma CancelIs(w: World, c: Scene, id: Id, d: Scene)
    requires Shows(w, c) && c.process.Up? && id in c.store.operations && c.store.operations[id].state.Running?
    requires d == WithOps(c, c.store.operations[id := CancelledOp(c.store.operations[id])])
    ensures var e := Cancel(id, 0, 0, Written); Enabled(w, e) && Shows(Next(w, e), d)
  {
    CancelAsks(w, c, id);
    Stores(w, c, Cancel(id, 0, 0, Written), d.store);
  }

  lemma Cancels(run: Run, c: Scene, id: Id) returns (next: Run, d: Scene)
    requires ComesTo(run, c) && c.process.Up? && id in c.store.operations && c.store.operations[id].state.Running?
    ensures d == WithOps(c, c.store.operations[id := CancelledOp(c.store.operations[id])]) && ComesTo(next, d)
  {
    d := WithOps(c, c.store.operations[id := CancelledOp(c.store.operations[id])]);
    CancelIs(Now(run), c, id, d);
    next := Then(run, Cancel(id, 0, 0, Written));
    Steps(run, c, Cancel(id, 0, 0, Written), d);
  }

  function LookedAgain(c: Scene): Scene
    requires c.worker.Busy? && c.worker.id in c.store.operations
  {
    if c.store.operations[c.worker.id].state.Running? then c.(worker := c.worker.(stage := Validating))
    else c.(worker := Free, abandoned := c.abandoned + {c.worker.id})
  }

  lemma LooksAgain(run: Run, c: Scene) returns (next: Run, d: Scene)
    requires ComesTo(run, c) && c.process.Up? && c.worker.Busy? && c.worker.stage.Begun? && c.worker.id in c.store.operations
    requires InFlight(c.store.operations[c.worker.id].state)
    ensures d == LookedAgain(c) && ComesTo(next, d)
  {
    d := LookedAgain(c);
    next := Then(run, Reread);
    Steps(run, c, Reread, d);
  }

  function DispatchedOp(o: Operation): Operation { Touched(o, 0).(dispatched := true) }

  predicate CanDispatch(c: Scene) {
    && c.process.Up? && c.worker.Busy? && c.worker.stage.Validating? && c.worker.id in c.store.operations
    && !c.worker.plan.draft.action.OperationReconcile? && c.worker.plan.draft.source == c.source == c.worker.plan.desired
  }

  function AfterDispatch(c: Scene): Scene
    requires CanDispatch(c)
  {
    var id := c.worker.id;
    WithOps(c, c.store.operations[id := DispatchedOp(c.store.operations[id])]).(worker := c.worker.(stage := Dispatching))
  }

  lemma DispatchIs(w: World, c: Scene)
    requires Shows(w, c) && CanDispatch(c)
    ensures Enabled(w, Dispatch(0, Written)) && Shows(Next(w, Dispatch(0, Written)), AfterDispatch(c))
  {
    DispatchAsks(w, c);
    Stores(w, c, Dispatch(0, Written), AfterDispatch(c).store);
  }

  lemma DispatchAsks(w: World, c: Scene)
    requires Shows(w, c) && CanDispatch(c)
    ensures Enabled(w, Dispatch(0, Written)) && TxOf(w, Dispatch(0, Written)) == Some(AfterDispatch(c).store)
  {
    NothingPruned(c.store);
  }

  lemma Dispatches(run: Run, c: Scene) returns (next: Run, d: Scene)
    requires ComesTo(run, c) && CanDispatch(c)
    ensures d == AfterDispatch(c) && ComesTo(next, d)
  {
    d := AfterDispatch(c);
    DispatchIs(Now(run), c);
    next := Then(run, Dispatch(0, Written));
    Steps(run, c, Dispatch(0, Written), d);
  }

  function Restarted(c: Scene): Scene {
    c.(process := Starting(set id | id in c.store.operations && InFlight(c.store.operations[id].state)), worker := Free)
  }

  lemma CrashIs(w: World, c: Scene)
    requires Shows(w, c) && c.process.Up?
    ensures Enabled(w, Crash) && Shows(Next(w, Crash), c.(process := Down, worker := Free))
  {
  }

  lemma ReopenIs(w: World, c: Scene)
    requires Shows(w, c) && c.process.Down? && c.worker.Free?
    ensures Enabled(w, Reopen) && Shows(Next(w, Reopen), Restarted(c))
  {
    var ops := c.store.operations;
    assert (set id | id in ops && InFlight(ops[id].state)) == set id | id in ops && !Terminal(ops[id].state) && !ops[id].state.Queued?;
  }

  lemma Crashes(run: Run, c: Scene) returns (next: Run, d: Scene)
    requires ComesTo(run, c) && c.process.Up?
    ensures d == Restarted(c) && ComesTo(next, d)
  {
    var down := c.(process := Down, worker := Free);
    CrashIs(Now(run), c);
    Steps(run, c, Crash, down);
    ReopenIs(Now(Then(run, Crash)), down);
    d := Restarted(c);
    next := Then(Then(run, Crash), Reopen);
    Steps(Then(run, Crash), down, Reopen, d);
  }

  function UnknownOp(o: Operation): Operation { Finished(o, Outcome(RecoveryRequired, true), 0) }

  function AfterResolve(c: Scene, id: Id): Scene
    requires c.process.Starting? && id in c.store.operations
  {
    WithOps(c, c.store.operations[id := UnknownOp(c.store.operations[id])]).(process := Starting(c.process.todo - {id}))
  }

  lemma UnknownTx(s: Store, id: Id)
    requires id in s.operations
    ensures FinishTx(s, id, Outcome(RecoveryRequired, true), 0) == Some(s.(operations := s.operations[id := UnknownOp(s.operations[id])]))
  {
  }

  lemma ResolveIs(w: World, c: Scene, id: Id)
    requires Shows(w, c) && c.process.Starting? && id in c.process.todo && id in c.store.operations
    ensures var e := StartOne(id, None, 0, Written); Enabled(w, e) && Shows(Next(w, e), AfterResolve(c, id))
  {
    ResolveAsks(w, c, id);
    NothingPruned(AfterResolve(c, id).store);
  }

  lemma ResolveAsks(w: World, c: Scene, id: Id)
    requires Shows(w, c) && c.process.Starting? && id in c.process.todo && id in c.store.operations
    ensures var e := StartOne(id, None, 0, Written); Enabled(w, e) && TxOf(w, e) == Some(AfterResolve(c, id).store)
  {
    NothingPruned(c.store);
    UnknownTx(c.store, id);
  }

  /** Startup learns nothing about an operation. */
  lemma Resolves(run: Run, c: Scene, id: Id) returns (next: Run, d: Scene)
    requires ComesTo(run, c) && c.process.Starting? && id in c.process.todo && id in c.store.operations
    ensures d == AfterResolve(c, id) && ComesTo(next, d)
  {
    d := AfterResolve(c, id);
    ResolveIs(Now(run), c, id);
    next := Then(run, StartOne(id, None, 0, Written));
    Steps(run, c, StartOne(id, None, 0, Written), d);
  }

  lemma Serves(run: Run, c: Scene) returns (next: Run, d: Scene)
    requires ComesTo(run, c) && c.process == Starting({})
    ensures d == c.(process := Up) && ComesTo(next, d)
  {
    d := c.(process := Up);
    next := Then(run, StartDone);
    Steps(run, c, StartDone, d);
  }

  // ---------------------------------------------------------------------------
  // Scripts: what is to happen, told by scenes alone.

  datatype Move =
    | PlanIt(planId: Id, plan: Plan)
    | QueueIt(planId: Id, id: Id)
    | TakeIt(id: Id)
    | CancelIt(id: Id)
    | LookAgain
    | SendIt
    | StopAndReopen
    | LoseIt(id: Id)
    | Serve

  predicate Can(c: Scene, m: Move) {
    match m
    case PlanIt(_, plan) => c.process.Up? && PlanOk(plan) && |c.store.plans| < MAX_PLANS
    case QueueIt(planId, id) => CanQueue(c, planId, id)
    case TakeIt(id) => CanBegin(c, id)
    case CancelIt(id) => c.process.Up? && id in c.store.operations && c.store.operations[id].state.Running?
    case LookAgain =>
      && c.process.Up? && c.worker.Busy? && c.worker.stage.Begun? && c.worker.id in c.store.operations
      && InFlight(c.store.operations[c.worker.id].state)
    case SendIt => CanDispatch(c)
    case StopAndReopen => c.process.Up?
    case LoseIt(id) => c.process.Starting? && id in c.process.todo && id in c.store.operations
    case Serve => c.process == Starting({})
  }

  function After(c: Scene, m: Move): Scene
    requires Can(c, m)
  {
    match m
    case PlanIt(planId, plan) => c.(store := c.store.(plans := c.store.plans[planId := plan]))
    case QueueIt(planId, id) => Applied(c, planId, id)
    case TakeIt(id) => AfterBegin(c, id)
    case CancelIt(id) => WithOps(c, c.store.operations[id := CancelledOp(c.store.operations[id])])
    case LookAgain => LookedAgain(c)
    case SendIt => AfterDispatch(c)
    case StopAndReopen => Restarted(c)
    case LoseIt(id) => AfterResolve(c, id)
    case Serve => c.(process := Up)
  }

  lemma Moves(run: Run, c: Scene, m: Move) returns (next: Run)
    requires ComesTo(run, c) && Can(c, m)
    ensures ComesTo(next, After(c, m))
  {
    var d;
    match m
    case PlanIt(planId, plan) => next, d := Planned(run, c, planId, plan);
    case QueueIt(planId, id) => next, d := Queues(run, c, planId, id);
    case TakeIt(id) => next, d := Begins(run, c, id);
    case CancelIt(id) => next, d := Cancels(run, c, id);
    case LookAgain => next, d := LooksAgain(run, c);
    case SendIt => next, d := Dispatches(run, c);
    case StopAndReopen => next, d := Crashes(run, c);
    case LoseIt(id) => next, d := Resolves(run, c, id);
    case Serve => next, d := Serves(run, c);
  }

  /** The scenes `cs` follow one another by the moves `ms`. */
  predicate Story(cs: seq<Scene>, ms: seq<Move>) {
    |cs| == |ms| + 1 && forall i | 0 <= i < |ms| :: Leads(cs, ms, i)
  }

  predicate Leads(cs: seq<Scene>, ms: seq<Move>, i: nat)
    requires i < |ms| && |cs| == |ms| + 1
  {
    Can(cs[i], ms[i]) && cs[i + 1] == After(cs[i], ms[i])
  }

  lemma {:induction false} Happens(cs: seq<Scene>, ms: seq<Move>, n: nat, source: Configuration) returns (run: Run)
    requires Story(cs, ms) && n <= |ms| && cs[0] == Start(source)
    ensures ComesTo(run, cs[n])
  {
    if n == 0 {
      run := Opened(source);
    } else {
      run := Happens(cs, ms, n - 1, source);
      assert Leads(cs, ms, n - 1);
      run := Moves(run, cs[n - 1], ms[n - 1]);
    }
  }

  function Start(source: Configuration): Scene {
    Scene(Store(map[], map[], map[]), Up, Free, source, {}, {})
  }

  lemma Told(cs: seq<Scene>, ms: seq<Move>, m: Move)
    requires Story(cs, ms) && Can(cs[|cs| - 1], m)
    ensures Story(cs + [After(cs[|cs| - 1], m)], ms + [m])
  {
    var cs', ms' := cs + [After(cs[|cs| - 1], m)], ms + [m];
    forall i | 0 <= i < |ms'| ensures Leads(cs', ms', i) {
      if i < |ms| { assert Leads(cs, ms, i); }
    }
  }

  // ---------------------------------------------------------------------------
  // The routes.

  const TARGET: Id := 1

  function PlanFor(action: Action, parent: Id, source: Configuration): Plan {
    Plan(Draft(action, TARGET, source, parent, 0, None, None, None), source, 0, 0)
  }

  lemma PlanIsOk(action: Action, parent: Id, source: Configuration)
    requires !EvidenceAction(action) && (parent != 0 ==> RecoveryAction(action))
    ensures PlanOk(PlanFor(action, parent, source))
  {
  }

  /** Where a script has come to. */
  datatype Tale = Tale(cs: seq<Scene>, ms: seq<Move>)

  predicate Tells(t: Tale, source: Configuration, c: Scene) {
    Story(t.cs, t.ms) && t.cs[0] == Start(source) && t.cs[|t.cs| - 1] == c
  }

  lemma Then1(t: Tale, source: Configuration, c: Scene, m: Move) returns (t': Tale, d: Scene)
    requires Tells(t, source, c) && Can(c, m)
    ensures d == After(c, m) && Tells(t', source, d)
  {
    d := After(c, m);
    Told(t.cs, t.ms, m);
    t' := Tale(t.cs + [d], t.ms + [m]);
  }

  lemma PlainAdmitted(ops: Operations, d: Draft, executing: Id)
    requires d.parent == 0 && forall k | k in ops && k != executing :: !ops[k].recoveryRequired || d.action.HardwareRefresh?
    ensures Admits(ops, OperationRoots(ops), d, executing)
  {
  }

  lemma FewUnfinished(ops: Operations, busy: set<Id>)
    requires forall id | id in ops && !Terminal(ops[id].state) :: id in busy
    ensures |NonTerminal(ops)| <= |busy|
  {
    SubsetSize(NonTerminal(ops), busy);
  }

  /** An operation is planned and queued. */
  lemma Enters(t: Tale, source: Configuration, c: Scene, action: Action, parent: Id, id: Id, busy: set<Id>) returns (t': Tale, d: Scene)
    requires Tells(t, source, c) && c.source == source && !EvidenceAction(action) && (parent != 0 ==> RecoveryAction(action)) && Roomy(c, id, busy)
    requires Admits(c.store.operations, OperationRoots(c.store.operations), PlanFor(action, parent, source).draft, 0)
    ensures Tells(t', source, d)
    ensures d == Entered(c, action, parent, id)
  {
    PlanIsOk(action, parent, source);
    t', d := Then1(t, source, c, PlanIt(id, PlanFor(action, parent, source)));
    FewUnfinished(d.store.operations, busy);
    t', d := Then1(t', source, d, QueueIt(id, id));
  }

  function Entered(c: Scene, action: Action, parent: Id, id: Id): Scene {
    c.(store := Store(c.store.operations[id := NewOperation(id, id, PlanFor(action, parent, c.source), 0)],
                      c.store.idempotency[id := Idempotency(0, id)], c.store.plans[id := PlanFor(action, parent, c.source)]),
       used := c.used + {id})
  }

  predicate Roomy(c: Scene, id: Id, busy: set<Id>) {
    && c.process.Up? && |c.store.plans| < 5 && |c.store.operations| < 5 && id != 0 && id !in c.used && id !in c.store.idempotency
    && |busy| < 2 && forall k | k in c.store.operations && !Terminal(c.store.operations[k].state) :: k in busy
  }

  /** Nothing stands in the way of an operation that recovers nothing. */
  predicate Clear(ops: Operations, action: Action, executing: Id) {
    forall k | k in ops && k != executing :: !ops[k].recoveryRequired || action.HardwareRefresh?
  }

  lemma EntersPlain(t: Tale, source: Configuration, c: Scene, action: Action, id: Id, busy: set<Id>) returns (t': Tale, d: Scene)
    requires Tells(t, source, c) && c.source == source && !EvidenceAction(action) && Roomy(c, id, busy) && Clear(c.store.operations, action, 0)
    ensures Tells(t', source, d) && d == Entered(c, action, 0, id)
  {
    PlainAdmitted(c.store.operations, PlanFor(action, 0, source).draft, 0);
    t', d := Enters(t, source, c, action, 0, id, busy);
  }

  lemma TakesPlain(t: Tale, source: Configuration, c: Scene, id: Id) returns (t': Tale, d: Scene)
    requires Tells(t, source, c) && c.process.Up? && c.worker.Free? && id in c.store.operations && c.store.operations[id].state.Queued?
    requires c.store.operations[id].plan.draft.parent == 0 && Clear(c.store.operations, c.store.operations[id].plan.draft.action, id)
    ensures Tells(t', source, d) && d == AfterBegin(c, id)
  {
    PlainAdmitted(c.store.operations, c.store.operations[id].plan.draft, id);
    t', d := Then1(t, source, c, TakeIt(id));
  }

  /** The process stops with one operation in execution, and learns nothing about it. */
  lemma LosesIt(t: Tale, source: Configuration, c: Scene, id: Id) returns (t': Tale, d: Scene)
    requires Tells(t, source, c) && c.process.Up? && id in c.store.operations
    requires forall k | k in c.store.operations :: InFlight(c.store.operations[k].state) <==> k == id
    ensures d == WithOps(c, c.store.operations[id := UnknownOp(c.store.operations[id])]).(worker := Free) && Tells(t', source, d)
  {
    t', d := Then1(t, source, c, StopAndReopen);
    assert d.process.todo == {id};
    t', d := Then1(t', source, d, LoseIt(id));
    t', d := Then1(t', source, d, Serve);
  }

  lemma LosesBoth(t: Tale, source: Configuration, c: Scene, a: Id, b: Id) returns (t': Tale, d: Scene)
    requires Tells(t, source, c) && c.process.Up? && a in c.store.operations && b in c.store.operations && a != b
    requires forall k | k in c.store.operations :: InFlight(c.store.operations[k].state) <==> k == a || k == b
    ensures Tells(t', source, d) && d.process.Up?
    ensures d.store.operations == c.store.operations[a := UnknownOp(c.store.operations[a])][b := UnknownOp(c.store.operations[b])]
  {
    t', d := Then1(t, source, c, StopAndReopen);
    assert d.process.todo == {a, b};
    t', d := Then1(t', source, d, LoseIt(a));
    t', d := Then1(t', source, d, LoseIt(b));
    t', d := Then1(t', source, d, Serve);
  }

  /** Two operations that require recovery, in different chains. */
  predicate Split(run: Run, a: Id, b: Id) {
    && Legal(run) && Now(run).process.Up? && !Now(run).poisoned
    && var ops := Now(run).mem.operations;
       Outstanding(ops, a) && Outstanding(ops, b) && !SameChain(OperationRoots(ops), a, b)
  }

  lemma PlainRootsDiffer(ops: Operations, a: Id, b: Id)
    requires a != b && a in ops && b in ops && ParentOf(ops, a) == 0 && ParentOf(ops, b) == 0
    ensures !SameChain(OperationRoots(ops), a, b)
  {
    RootStep(OperationLinks(ops), a);
    RootStep(OperationLinks(ops), b);
  }

  lemma EndsSplit(t: Tale, source: Configuration, c: Scene, a: Id, b: Id) returns (run: Run)
    requires Tells(t, source, c) && c.process.Up?
    requires Outstanding(c.store.operations, a) && Outstanding(c.store.operations, b)
    requires !SameChain(OperationRoots(c.store.operations), a, b)
    ensures Split(run, a, b) && Now(run).mem == c.store && Now(run).env.abandoned == c.abandoned
  {
    run := Happens(t.cs, t.ms, |t.ms|, source);
  }

  lemma Opens(source: Configuration) returns (t: Tale)
    ensures Tells(t, source, Start(source))
  {
    t := Tale([Start(source)], []);
  }

  // An operation let go, and another one.

  lemma LetsFirstGo(source: Configuration) returns (t: Tale, c: Scene)
    ensures Tells(t, source, c) && c.process.Up? && c.worker.Free? && c.abandoned == {1} && c.store.operations.Keys == {1, 2}
    ensures var o := c.store.operations[1]; o.plan == PlanFor(ServingRestart, 0, source) && Forsaken(o) && !o.recoveryRequired
    ensures c.store.operations[2] == NewOperation(2, 2, PlanFor(ServingRestart, 0, source), 0)
  {
    t := Opens(source);
    c := Start(source);
    t, c := EntersPlain(t, source, c, ServingRestart, 1, {});
    t, c := EntersPlain(t, source, c, ServingRestart, 2, {1});
    t, c := TakesPlain(t, source, c, 1);
    t, c := Then1(t, source, c, CancelIt(1));
    t, c := Then1(t, source, c, LookAgain);
  }

  /** An operation is cancelled between its start and the second look, another one is started,
      and the process stops: afterwards both require recovery, neither having been dispatched. */
  lemma AbandonmentRoute(source: Configuration) returns (run: Run)
    ensures Split(run, 1, 2)
    ensures forall id | id in Now(run).mem.operations ::
              var o := Now(run).mem.operations[id]; o.plan == PlanFor(ServingRestart, 0, source) && !o.dispatched
  {
    var t, c := LetsFirstGo(source);
    t, c := TakesPlain(t, source, c, 2);
    t, c := LosesBoth(t, source, c, 1, 2);
    PlainRootsDiffer(c.store.operations, 1, 2);
    run := EndsSplit(t, source, c, 1, 2);
  }

  // A hardware refresh beside an operation that requires recovery.

  lemma HostOperationLost(source: Configuration) returns (t: Tale, c: Scene)
    ensures Tells(t, source, c) && c.process.Up? && c.worker.Free? && c.source == source && c.used == {1} && c.abandoned == {}
    ensures c.store.operations.Keys == {1} && c.store.idempotency.Keys == {1} && |c.store.plans| == 1
    ensures var o := c.store.operations[1];
            o.plan == PlanFor(ServingRestart, 0, source) && o.recoveryRequired && o.dispatched && Terminal(o.state)
  {
    t := Opens(source);
    c := Start(source);
    t, c := EntersPlain(t, source, c, ServingRestart, 1, {});
    t, c := TakesPlain(t, source, c, 1);
    t, c := Then1(t, source, c, LookAgain);
    t, c := Then1(t, source, c, SendIt);
    t, c := LosesIt(t, source, c, 1);
  }

  /** An operation requires recovery; a hardware refresh is admitted all the same, and the
      process stops. */
  lemma RefreshRoute(source: Configuration) returns (run: Run)
    ensures Split(run, 1, 2)
    ensures Now(run).mem.operations[2].plan.draft.action.HardwareRefresh? && Now(run).env.abandoned == {}
  {
    var t, c := HostOperationLost(source);
    t, c := EntersPlain(t, source, c, HardwareRefresh, 2, {});
    t, c := TakesPlain(t, source, c, 2);
    t, c := LosesIt(t, source, c, 2);
    PlainRootsDiffer(c.store.operations, 1, 2);
    run := EndsSplit(t, source, c, 1, 2);
  }

  // A restore of an operation without host effects.

  predicate AllInChainOf(ops: Operations, parent: Id, executing: Id) {
    && parent in ops && parent != executing && parent != 0
    && ops[parent].recoveryRequired && ops[parent].plan.draft.target == TARGET
    && parent in OperationRoots(ops)
    && (forall k | k in ops && k != executing :: Terminal(ops[k].state))
    && (forall k | k in ops && k != executing && ops[k].recoveryRequired :: SameChain(OperationRoots(ops), parent, k))
  }

  lemma RecoveryAdmitted(ops: Operations, action: Action, parent: Id, executing: Id, source: Configuration)
    requires AllInChainOf(ops, parent, executing) && RecoveryAction(action)
    ensures Admits(ops, OperationRoots(ops), PlanFor(action, parent, source).draft, executing)
  {
  }

  lemma StillInChain(ops: Operations, o: Operation, parent: Id)
    requires AllInChainOf(ops, parent, 0) && o.id !in ops && 0 !in ops
    ensures AllInChainOf(ops[o.id := o], parent, o.id)
  {
    var ops' := ops[o.id := o];
    forall k | k in OperationRoots(ops) ensures k in OperationRoots(ops') && OperationRoots(ops')[k] == OperationRoots(ops)[k] {
      RootSurvivesExtension(OperationLinks(ops), OperationLinks(ops'), k);
    }
  }

  function Tried(c: Scene, action: Action, parent: Id, id: Id): Scene {
    WithOps(Entered(c, action, parent, id), c.store.operations[id := LostOp(NewOperation(id, id, PlanFor(action, parent, c.source), 0))])
  }

  /** A recovery is admitted, begun and interrupted. */
  lemma TriedAndLost(t: Tale, source: Configuration, c: Scene, action: Action, parent: Id, id: Id) returns (t': Tale, d: Scene)
    requires Tells(t, source, c) && c.process.Up? && c.worker.Free? && c.source == source && RecoveryAction(action)
    requires |c.store.plans| < 5 && |c.store.operations| < 5 && 0 !in c.store.operations
    requires id != 0 && id !in c.used && id !in c.store.idempotency && id !in c.store.operations
    requires AllInChainOf(c.store.operations, parent, 0)
    ensures Tells(t', source, d) && d == Tried(c, action, parent, id)
  {
    t', d := EntersRecovery(t, source, c, action, parent, id);
    var o := NewOperation(id, id, PlanFor(action, parent, source), 0);
    Overwritten(c.store.operations, id, o, LostOp(o));
    t', d := TakenAndLost(t', source, d, parent, id);
  }

  lemma TakenAndLost(t: Tale, source: Configuration, c: Scene, parent: Id, id: Id) returns (t': Tale, d: Scene)
    requires Tells(t, source, c) && c.process.Up? && c.worker.Free? && id in c.store.operations && c.store.operations[id].state.Queued?
    requires AllInChainOf(c.store.operations, parent, id)
    requires var plan := c.store.operations[id].plan; RecoveryAction(plan.draft.action) && plan == PlanFor(plan.draft.action, parent, source)
    ensures Tells(t', source, d)
    ensures d == WithOps(c, c.store.operations[id := LostOp(c.store.operations[id])])
  {
    t', d := TakesRecovery(t, source, c, parent, id);
    OnlyOneFlies(c.store.operations, d.store.operations, parent, id);
    Overwritten(c.store.operations, id, BegunOp(c.store.operations[id]), LostOp(c.store.operations[id]));
    t', d := LosesIt(t', source, d, id);
  }

  lemma Overwritten(ops: Operations, id: Id, a: Operation, b: Operation)
    ensures ops[id := a][id := b] == ops[id := b]
  {
  }

  lemma OnlyOneFlies(ops: Operations, ops': Operations, parent: Id, id: Id)
    requires AllInChainOf(ops, parent, id) && id in ops && ops' == ops[id := BegunOp(ops[id])]
    ensures forall k | k in ops' :: InFlight(ops'[k].state) <==> k == id
  {
  }

  lemma EntersRecovery(t: Tale, source: Configuration, c: Scene, action: Action, parent: Id, id: Id) returns (t': Tale, d: Scene)
    requires Tells(t, source, c) && c.source == source && RecoveryAction(action) && Roomy(c, id, {})
    requires 0 !in c.store.operations && id !in c.store.operations && AllInChainOf(c.store.operations, parent, 0)
    ensures Tells(t', source, d) && d == Entered(c, action, parent, id) && AllInChainOf(d.store.operations, parent, id)
  {
    RecoveryAdmitted(c.store.operations, action, parent, 0, source);
    t', d := Enters(t, source, c, action, parent, id, {});
    StillInChain(c.store.operations, d.store.operations[id], parent);
  }

  lemma TakesRecovery(t: Tale, source: Configuration, c: Scene, parent: Id, id: Id) returns (t': Tale, d: Scene)
    requires Tells(t, source, c) && c.process.Up? && c.worker.Free? && id in c.store.operations && c.store.operations[id].state.Queued?
    requires AllInChainOf(c.store.operations, parent, id)
    requires var plan := c.store.operations[id].plan; RecoveryAction(plan.draft.action) && plan == PlanFor(plan.draft.action, parent, source)
    ensures Tells(t', source, d) && d == AfterBegin(c, id)
  {
    RecoveryAdmitted(c.store.operations, c.store.operations[id].plan.draft.action, parent, id, source);
    t', d := Then1(t, source, c, TakeIt(id));
  }

  function LostOp(o: Operation): Operation { UnknownOp(BegunOp(o)) }

  lemma TwoInChain(ops: Operations, source: Configuration)
    requires ops.Keys == {1, 2} && ops[1].plan == PlanFor(ServingRestart, 0, source) && ops[2].plan == PlanFor(OperationReconcile, 1, source)
    requires forall k | k in ops :: ops[k].recoveryRequired && Terminal(ops[k].state)
    ensures AllInChainOf(ops, 2, 0)
  {
    RootStep(OperationLinks(ops), 1);
    RootStep(OperationLinks(ops), 2);
  }

  lemma OneInChain(ops: Operations, source: Configuration)
    requires ops.Keys == {1} && ops[1].plan == PlanFor(ServingRestart, 0, source)
    requires forall k | k in ops :: ops[k].recoveryRequired && Terminal(ops[k].state)
    ensures AllInChainOf(ops, 1, 0)
  {
    RootStep(OperationLinks(ops), 1);
  }

  lemma ThirdIsLoose(ops: Operations, source: Configuration)
    requires ops.Keys == {1, 2, 3} && ops[1].plan == PlanFor(ServingRestart, 0, source)
    requires ops[2].plan == PlanFor(OperationReconcile, 1, source) && ops[3].plan == PlanFor(ProfileRestore, 2, source)
    ensures 3 !in OperationRoots(ops) && 2 in OperationRoots(ops)
  {
    RootStep(OperationLinks(ops), 1);
    RootStep(OperationLinks(ops), 2);
    RootStep(OperationLinks(ops), 3);
  }

  lemma ReconciliationLost(source: Configuration) returns (t: Tale, c: Scene)
    ensures Tells(t, source, c) && c.process.Up? && c.worker.Free? && c.source == source && c.used == {1, 2} && c.abandoned == {}
    ensures c.store.operations.Keys == {1, 2} && c.store.idempotency.Keys == {1, 2} && |c.store.plans| <= 2
    ensures var ops := c.store.operations;
            && ops[1].plan == PlanFor(ServingRestart, 0, source) && ops[2].plan == PlanFor(OperationReconcile, 1, source)
            && !ops[2].dispatched
            && forall k | k in ops :: ops[k].recoveryRequired && Terminal(ops[k].state)
  {
    t, c := HostOperationLost(source);
    OneInChain(c.store.operations, source);
    t, c := TriedAndLost(t, source, c, OperationReconcile, 1, 2);
  }

  /** A host operation, a reconciliation of it and a restore of that, all requiring recovery. */
  predicate ThreeLost(ops: Operations, source: Configuration) {
    && ops.Keys == {1, 2, 3}
    && ops[1].plan == PlanFor(ServingRestart, 0, source) && ops[2].plan == PlanFor(OperationReconcile, 1, source)
    && ops[3].plan == PlanFor(ProfileRestore, 2, source)
    && ops[1].recoveryRequired && ops[2].recoveryRequired && ops[3].recoveryRequired
    && !ops[2].dispatched && !ops[3].dispatched
  }

  lemma ThirdAdded(ops: Operations, source: Configuration)
    requires ops.Keys == {1, 2} && ops[1].plan == PlanFor(ServingRestart, 0, source) && ops[2].plan == PlanFor(OperationReconcile, 1, source)
    requires ops[1].recoveryRequired && ops[2].recoveryRequired && !ops[2].dispatched
    ensures ThreeLost(ops[3 := LostOp(NewOperation(3, 3, PlanFor(ProfileRestore, 2, source), 0))], source)
  {
  }

  lemma TwoOperations(ops: Operations)
    requires ops.Keys == {1, 2}
    ensures |ops| == 2 && 0 !in ops && 3 !in ops
  {
    assert |ops.Keys| == 2;
  }

  lemma RestoreLost(source: Configuration) returns (t: Tale, c: Scene)
    ensures Tells(t, source, c) && c.process.Up? && c.abandoned == {} && ThreeLost(c.store.operations, source)
  {
    t, c := ReconciliationLost(source);
    var ops := c.store.operations;
    TwoOperations(ops);
    ThirdAdded(ops, source);
    TwoInChain(ops, source);
    t, c := TriedAndLost(t, source, c, ProfileRestore, 2, 3);
  }

  /** A host operation requires recovery, then a reconciliation of it, then a restore that
      names the reconciliation: it was admitted, yet its own link does not resolve. */
  lemma RestoreRoute(source: Configuration) returns (run: Run)
    ensures Split(run, 1, 3)
    ensures var ops := Now(run).mem.operations;
            ThreeLost(ops, source) && 3 !in OperationRoots(ops) && 2 in OperationRoots(ops)
    ensures Now(run).env.abandoned == {}
  {
    var t, c := RestoreLost(source);
    ThirdIsLoose(c.store.operations, source);
    run := EndsSplit(t, source, c, 1, 3);
  }
}
