/** Everything the controller can do, one store transaction or source write at a time,
    with every interleaving of clients and worker, writes that fail before or after
    taking effect, and crashes anywhere (internal/engine, internal/store, internal/source). */
module ControllerMachine {
  import opened Domain
  import opened RecoveryGraph
  import opened ControllerStore
  import opened ControllerTransactions
  import opened ControllerEvolution

  /** How far the worker has come with the operation it took from the queue. */
  datatype Stage =
    | Begun                            // recorded as running
    | Validating                       // found still running
    | Intending                        // source-update intent recorded
    | Replaced                         // source replaced
    | ReplaceFailed(uncertain: bool)
    | Ready                            // source update recorded
    | Dispatching                      // dispatch intent recorded
    | Executing(answer: Outcome)       // handed to the adapter, which will give this answer

  datatype Worker = Free | Busy(id: Id, plan: Plan, stage: Stage)

  datatype Process = Down | Starting(todo: set<Id>) | Up

  datatype Env = Env(
    source: Configuration,             // the managed source file
    worker: Worker,
    inspecting: set<Id>,               // operations a recovery request has found unresolved
    executed: multiset<Id>,            // every call of the adapter
    used: set<Id>,                     // every operation ID ever drawn
    abandoned: set<Id>)                // operations the worker's second look found cancelled

  datatype World = World(
    mem: Store,
    disk: Store,
    poisoned: bool,
    process: Process,
    env: Env,
    visible: set<Id>,                  // every operation ever present in memory
    depth: nat)                        // the configured queue depth

  datatype SourceWrite = SourceWritten | SourceFailedBefore | SourceFailedAfter | SourceRefused

  datatype Event =
    | Crash
    | Reopen
    | StartOne(id: Id, inspected: Option<Outcome>, now: nat, write: Write)
    | StartDone
    | CreatePlan(planId: Id, plan: Plan, now: nat, write: Write)
    | Apply(planId: Id, key: nat, payload: nat, newId: Id, permitted: bool, now: nat, write: Write)
    | Cancel(id: Id, revision: nat, now: nat, write: Write)
    | RecoverRead(id: Id)
    | RecoverFinish(id: Id, outcome: Outcome, now: nat, write: Write)
    | EvidenceFinish(id: Id, outcome: Outcome, now: nat, write: Write)
    | Begin(id: Id, authorized: bool, now: nat, write: Write)
    | Reread
    | Abort(state: State, now: nat, write: Write)
    | Reconcile(now: nat, write: Write)
    | Intend(now: nat, write: Write)
    | Replace(sourceWrite: SourceWrite)
    | FailReplace(now: nat, write: Write)
    | RecordSource(now: nat, write: Write)
    | Dispatch(now: nat, write: Write)
    | Execute(answer: Outcome)
    | ReportPhase(now: nat, write: Write)
    | Complete(outcome: Outcome, now: nat, write: Write)

  // ---------------------------------------------------------------------------
  // The store.

  predicate Committed(w: World, tx: Option<Store>, o: Write) {
    !w.poisoned && tx.Some? && o.Written?
  }

  /** `Update`: `tx` is the outcome of the transaction on the pruned state. A failed write
      leaves memory as it was and refuses everything until the store is reopened. */
  function Commit(w: World, tx: Option<Store>, now: nat, o: Write): World {
    if w.poisoned || tx.None? then w
    else
      var v := Prune(tx.value, now);
      match o
      case Written => w.(mem := v, disk := v, visible := w.visible + v.operations.Keys)
      case FailedBefore => w.(poisoned := true)
      case FailedAfter => w.(poisoned := true, disk := v)
  }

  function SetWorker(w: World, worker: Worker): World {
    w.(env := w.env.(worker := worker))
  }

  /** A worker transaction: on any failure the worker gives the operation up. */
  function WorkerCommit(w: World, tx: Option<Store>, now: nat, o: Write, next: Worker): World {
    SetWorker(Commit(w, tx, now, o), if Committed(w, tx, o) then next else Free)
  }

  /** What startup makes of an operation found unfinished. */
  function StartOutcome(o: Operation, inspected: Option<Outcome>): Outcome {
    if !o.dispatched || inspected.None? || inspected.value.state.Running? || inspected.value.state.Queued?
    then Outcome(RecoveryRequired, true) else inspected.value
  }

  function StageWorker(w: Worker, stage: Stage): Worker
    requires w.Busy?
  {
    w.(stage := stage)
  }

  predicate At(w: World, stage: Stage) {
    w.process.Up? && w.env.worker.Busy? && w.env.worker.stage == stage
  }

  predicate AtExecution(w: World) {
    w.process.Up? && w.env.worker.Busy? && w.env.worker.stage.Executing?
  }

  /** What the worker makes of the adapter's answer: without a final one, nothing is known of
      the effects. */
  function Verdict(answer: Outcome): Outcome {
    if Terminal(answer.state) then answer else Outcome(RecoveryRequired, true)
  }

  /** The validated plan still starts from the current source. */
  predicate SourceUnchanged(w: World)
    requires w.env.worker.Busy?
  {
    w.env.worker.plan.draft.source == w.env.source
  }

  predicate Enabled(w: World, e: Event) {
    match e
    case Crash => !w.process.Down?
    case Reopen => w.process.Down?
    case StartOne(id, inspected, now, o) =>
      && w.process.Starting? && id in w.process.todo && id in w.mem.operations
      && (inspected.Some? ==> OutcomeOk(inspected.value) && (Terminal(inspected.value.state) || inspected.value.state.Running? || inspected.value.state.Queued?))
    case StartDone => w.process == Starting({})
    case CreatePlan(planId, plan, now, o) => w.process.Up? && PlanOk(plan)
    case Apply(planId, key, payload, newId, permitted, now, o) => w.process.Up? && newId != 0 && newId !in w.env.used
    case Cancel(id, revision, now, o) => w.process.Up?
    case RecoverRead(id) => w.process.Up? && id in w.mem.operations && w.mem.operations[id].recoveryRequired
    case RecoverFinish(id, r, now, o) =>
      && w.process.Up? && id in w.env.inspecting && OutcomeOk(r) && Terminal(r.state) && !r.recoveryRequired
      && (id in w.mem.operations ==> w.mem.operations[id].dispatched)
    case EvidenceFinish(id, r, now, o) =>
      && w.process.Up? && OutcomeOk(r) && Terminal(r.state)
      && (id in w.mem.operations ==> EvidenceAction(w.mem.operations[id].plan.draft.action) && w.mem.operations[id].dispatched)
    case Begin(id, authorized, now, o) =>
      w.process.Up? && w.env.worker.Free? && !w.poisoned && id in w.mem.operations && w.mem.operations[id].state.Queued?
    case Reread => At(w, Begun)
    case Abort(state, now, o) => At(w, Validating) && (state.Failed? || state.Cancelled?)
    case Reconcile(now, o) => At(w, Validating) && w.env.worker.plan.draft.action.OperationReconcile? && SourceUnchanged(w)
    case Intend(now, o) =>
      && At(w, Validating) && !w.env.worker.plan.draft.action.OperationReconcile? && SourceUnchanged(w)
      && w.env.worker.plan.desired != w.env.source
    case Replace(sw) => At(w, Intending) && (!sw.SourceRefused? ==> SourceUnchanged(w))
    case FailReplace(now, o) => At(w, ReplaceFailed(true)) || At(w, ReplaceFailed(false))
    case RecordSource(now, o) => At(w, Replaced)
    case Dispatch(now, o) =>
      || At(w, Ready)
      || (At(w, Validating) && !w.env.worker.plan.draft.action.OperationReconcile? && SourceUnchanged(w)
          && w.env.worker.plan.desired == w.env.source)
    case Execute(answer) => At(w, Dispatching) && OutcomeOk(answer)
    case ReportPhase(now, o) => AtExecution(w)
    case Complete(r, now, o) => AtExecution(w) && r == Verdict(w.env.worker.stage.answer) && OutcomeOk(r) && Terminal(r.state)
  }

  /** The events that update the store. */
  predicate Writes(e: Event) {
    !(e.Crash? || e.Reopen? || e.StartDone? || e.RecoverRead? || e.Reread? || e.Replace? || e.Execute?)
  }

  /** The transaction of an event, run on the pruned state. */
  function TxOf(w: World, e: Event): Option<Store>
    requires Enabled(w, e) && Writes(e)
  {
    var p := Prune(w.mem, e.now);
    match e
    case StartOne(id, inspected, now, _) => FinishTx(p, id, StartOutcome(w.mem.operations[id], inspected), now)
    case CreatePlan(planId, plan, _, _) => CreatePlanTx(p, planId, plan)
    case Apply(planId, key, payload, newId, permitted, now, _) => ApplyTx(p, planId, key, payload, newId, w.depth, permitted, now)
    case Cancel(id, revision, now, _) => CancelTx(p, id, revision, now)
    case RecoverFinish(id, r, now, _) => FinishTx(p, id, r, now)
    case EvidenceFinish(id, r, now, _) => FinishTx(p, id, r, now)
    case Begin(id, authorized, now, _) => BeginTx(p, id, authorized, now)
    case Abort(state, now, _) => FinishTx(p, w.env.worker.id, Outcome(state, false), now)
    case Reconcile(now, _) => FinishTx(p, w.env.worker.id, Outcome(Succeeded, false), now)
    case Intend(now, _) => ProgressTx(p, w.env.worker.id, SourceIntent, now)
    case FailReplace(now, _) =>
      FinishTx(p, w.env.worker.id, if w.env.worker.stage.uncertain then Outcome(RecoveryRequired, true) else Outcome(Failed, false), now)
    case RecordSource(now, _) => SourceUpdatedTx(p, w.env.worker.id, now)
    case Dispatch(now, _) => ProgressTx(p, w.env.worker.id, DispatchIntent, now)
    case ReportPhase(now, _) => ProgressTx(p, w.env.worker.id, OtherPhase, now)
    case Complete(r, now, _) => FinishTx(p, w.env.worker.id, r, now)
  }

  /** Where an event that updates the store leads, `tx` being its transaction. */
  function Update(w: World, e: Event, tx: Option<Store>): World
    requires Writes(e)
    requires e.Intend? || e.RecordSource? || e.Dispatch? ==> w.env.worker.Busy?
    requires e.StartOne? ==> w.process.Starting?
  {
    match e
    case StartOne(id, _, now, o) =>
      var w' := Commit(w, tx, now, o);
      if Committed(w, tx, o) then w'.(process := Starting(w.process.todo - {id})) else Stopped(w')
    case Apply(_, _, _, newId, _, now, o) => Commit(w.(env := w.env.(used := w.env.used + {newId})), tx, now, o)
    case Begin(id, _, now, o) =>
      WorkerCommit(w, tx, now, o,
        if tx.Some? && id in tx.value.operations && tx.value.operations[id].state.Running?
        then Busy(id, tx.value.operations[id].plan, Begun) else Free)
    case Intend(now, o) => WorkerCommit(w, tx, now, o, StageWorker(w.env.worker, Intending))
    case RecordSource(now, o) => WorkerCommit(w, tx, now, o, StageWorker(w.env.worker, Ready))
    case Dispatch(now, o) => WorkerCommit(w, tx, now, o, StageWorker(w.env.worker, Dispatching))
    case Abort(_, now, o) => WorkerCommit(w, tx, now, o, Free)
    case Reconcile(now, o) => WorkerCommit(w, tx, now, o, Free)
    case FailReplace(now, o) => WorkerCommit(w, tx, now, o, Free)
    case Complete(_, now, o) => WorkerCommit(w, tx, now, o, Free)
    case _ => Commit(w, tx, e.now, e.write)
  }

  /** The process is gone; what it would read back is what is on disk. */
  function Stopped(w: World): World {
    w.(mem := w.disk, poisoned := false, process := Down, visible := w.visible + w.disk.operations.Keys,
       env := w.env.(worker := Free, inspecting := {}))
  }

  function Next(w: World, e: Event): World
    requires Enabled(w, e)
  {
    if Writes(e) then Update(w, e, TxOf(w, e)) else
    match e
    case Crash => Stopped(w)
    case Reopen =>
      w.(process := Starting(set id | id in w.mem.operations && !Terminal(w.mem.operations[id].state) && !w.mem.operations[id].state.Queued?))
    case StartDone => w.(process := Up)
    case RecoverRead(id) => w.(env := w.env.(inspecting := w.env.inspecting + {id}))
    case Reread =>
      var id := w.env.worker.id;
      if id in w.mem.operations && w.mem.operations[id].state.Running? then SetWorker(w, StageWorker(w.env.worker, Validating))
      else if id in w.mem.operations && w.mem.operations[id].state.CancelRequested? then
        w.(env := w.env.(worker := Free, abandoned := w.env.abandoned + {id}))
      else SetWorker(w, Free)
    case Replace(sw) =>
      var changed := sw.SourceWritten? || sw.SourceFailedAfter?;
      var stage := if sw.SourceWritten? then Replaced else ReplaceFailed(!sw.SourceRefused?);
      w.(env := w.env.(source := if changed then w.env.worker.plan.desired else w.env.source,
                       worker := StageWorker(w.env.worker, stage)))
    case Execute(answer) =>
      w.(env := w.env.(executed := w.env.executed + multiset{w.env.worker.id}, worker := StageWorker(w.env.worker, Executing(answer))))
  }

  // ---------------------------------------------------------------------------
  // Runs.

  datatype Run = Fresh(source: Configuration, depth: nat) | Then(past: Run, event: Event)

  predicate Legal(run: Run)
    decreases run, 0
  {
    run.Then? ==> Legal(run.past) && Enabled(Now(run.past), run.event)
  }

  function Now(run: Run): World
    requires Legal(run)
    decreases run, 1
  {
    match run
    case Fresh(source, depth) =>
      var empty := Store(map[], map[], map[]);
      World(empty, empty, false, Down, Env(source, Free, {}, multiset{}, {}, {}), {}, depth)
    case Then(past, e) => Next(Now(past), e)
  }

  predicate Extends(later: Run, run: Run) {
    later == run || (later.Then? && Extends(later.past, run))
  }

  // ---------------------------------------------------------------------------
  // The invariant of all runs.

  /** Unfinished business with the source: announced, and neither finished nor resolved. */
  predicate Pending(o: Operation) {
    o.sourceIntent && (o.recoveryRequired || !Terminal(o.state))
  }

  predicate OnASide(o: Operation, source: Configuration) {
    source == o.plan.draft.source || source == o.plan.desired
  }

  predicate SidesOk(ops: Operations, source: Configuration) {
    forall id | id in ops && Pending(ops[id]) :: OnASide(ops[id], source)
  }

  /** Only `held` may be in execution with a source update announced. */
  predicate LooseOnly(ops: Operations, held: Id) {
    forall id | id in ops && ops[id].sourceIntent && !Terminal(ops[id].state) :: id == held
  }

  predicate StageOk(plan: Plan, stage: Stage, source: Configuration) {
    match stage
    case Begun => true
    case Validating => true
    case Intending => source == plan.draft.source && plan.desired != source
    case Replaced => source == plan.desired
    case ReplaceFailed(_) => source == plan.draft.source || source == plan.desired
    case Ready => source == plan.desired
    case Dispatching => source == plan.desired
    case Executing(_) => source == plan.desired
  }

  /** Everyone else awaiting recovery is in the chain that `plan` recovers. */
  predicate OthersInChain(ops: Operations, roots: map<Id, Id>, id: Id, plan: Plan) {
    !plan.draft.action.HardwareRefresh? ==>
      forall k | k in ops && k != id && ops[k].recoveryRequired ::
        plan.draft.parent != 0 && SameChain(roots, plan.draft.parent, k)
  }

  predicate HeldOk(ops: Operations, roots: map<Id, Id>, id: Id, plan: Plan) {
    && PlanOk(plan)
    && id != 0
    && (id in ops ==> ops[id].plan == plan && !ops[id].state.Queued?)
    && (!EvidenceAction(plan.draft.action) ==> id in ops && InFlight(ops[id].state))
    && OthersInChain(ops, roots, id, plan)
    && LooseOnly(ops, id)
  }

  /** The marks that an operation in execution carries by now. */
  predicate MarksOk(ops: Operations, id: Id, stage: Stage) {
    id in ops ==>
      && (stage.Intending? || stage.Replaced? || stage.ReplaceFailed? || stage.Ready? ==> ops[id].sourceIntent)
      && (stage.Dispatching? || stage.Executing? ==> ops[id].dispatched)
  }

  predicate WorkerOk(ops: Operations, worker: Worker) {
    worker.Busy? ==>
      && MarksOk(ops, worker.id, worker.stage)
      && HeldOk(ops, OperationRoots(ops), worker.id, worker.plan)
      && (worker.stage.Begun? || worker.stage.Validating? ==> LooseOnly(ops, 0))
  }

  predicate PlansOk(plans: map<Id, Plan>) {
    forall p | p in plans :: PlanOk(plans[p])
  }

  predicate IdsOk(ops: Operations, env: Env) {
    && ops.Keys <= env.used
    && (forall id | id in ops && id in env.inspecting :: Terminal(ops[id].state))
    && (forall id | id in ops && id in env.executed :: !ops[id].state.Queued? && ops[id].dispatched)
  }

  /** What holds of the state in memory and of the state on disk alike. */
  predicate StoreOk(s: Store, env: Env) {
    && OperationsOk(s.operations)
    && PlansOk(s.plans)
    && SidesOk(s.operations, env.source)
    && WorkerOk(s.operations, env.worker)
    && IdsOk(s.operations, env)
  }

  predicate EnvOk(env: Env) {
    && env.inspecting <= env.used
    && (forall id | id in env.executed :: env.executed[id] == 1 && id in env.used)
    && (env.worker.Busy? ==>
          && env.worker.id in env.used
          && StageOk(env.worker.plan, env.worker.stage, env.source)
          && (env.worker.stage.Executing? <==> env.worker.id in env.executed))
  }

  /** How far an operation has come; it never goes back. */
  function Rank(s: State): nat {
    match s case Queued => 0 case Running => 1 case CancelRequested => 2 case _ => 3
  }

  /** A later version of the same operation carries a larger revision. */
  predicate Newer(a: Operations, b: Operations) {
    forall id | id in a && id in b ::
      b[id].plan == a[id].plan &&
      (b[id] == a[id] || (a[id].revision < b[id].revision && Rank(a[id].state) <= Rank(b[id].state)))
  }

  predicate LinedUp(w: World) {
    && (!w.poisoned ==> w.disk == w.mem)
    && Newer(w.mem.operations, w.disk.operations)
    && w.mem.operations.Keys <= w.visible <= w.env.used
    && w.disk.operations.Keys * w.visible <= w.mem.operations.Keys
  }

  predicate UnfinishedAre(ops: Operations, todo: set<Id>) {
    todo <= ops.Keys && forall id | id in ops :: InFlight(ops[id].state) <==> id in todo
  }

  predicate ProcessOk(w: World) {
    match w.process
    case Down => w.env.worker.Free? && !w.poisoned && w.env.inspecting == {}
    case Starting(todo) =>
      && w.env.worker.Free? && !w.poisoned && w.env.inspecting == {}
      && UnfinishedAre(w.mem.operations, todo)
    case Up => w.env.worker.Free? && !w.poisoned ==> LooseOnly(w.mem.operations, 0)
  }

  predicate Inv(w: World) {
    StoreOk(w.mem, w.env) && StoreOk(w.disk, w.env) && EnvOk(w.env) && LinedUp(w) && ProcessOk(w)
  }
}
