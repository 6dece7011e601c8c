/** Which operations can be in execution with no worker on them: exactly those whose
    cancellation came in between their start and the worker's second look
    (`execute` and `Cancel` in internal/engine/engine.go). */
module ControllerHandover {
  import opened Domain
  import opened RecoveryGraph
  import opened ControllerStore
  import opened ControllerTransactions
  import opened ControllerEvolution
  import opened ControllerMachine
  import opened ControllerInvariant
  import opened ControllerSteps

  // ---------------------------------------------------------------------------
  // What holds of every store.

  /** In execution, and not known to have been let go. */
  predicate Flying(ops: Operations, abandoned: set<Id>, x: Id) {
    x in ops && InFlight(ops[x].state) && x !in abandoned
  }

  /** Cancelled before anything was announced or sent. */
  predicate Forsaken(o: Operation) {
    o.state.CancelRequested? && !o.dispatched && !o.sourceIntent
  }

  ghost predicate FlightsOk(ops: Operations, abandoned: set<Id>) {
    && (forall x | x in ops && x in abandoned :: !ops[x].state.Queued? && (InFlight(ops[x].state) ==> Forsaken(ops[x])))
    && (forall x, y | Flying(ops, abandoned, x) && Flying(ops, abandoned, y) :: x == y)
  }

  predicate NoneFlying(ops: Operations, abandoned: set<Id>) {
    forall x | x in ops :: !Flying(ops, abandoned, x)
  }

  /** Only the worker's operation is flying, and it is dispatched only once that is announced. */
  ghost predicate PilotOk(ops: Operations, worker: Worker, abandoned: set<Id>) {
    worker.Busy? ==>
      && (forall x | Flying(ops, abandoned, x) :: x == worker.id)
      && (worker.id in ops && !worker.stage.Dispatching? && !worker.stage.Executing? ==> !ops[worker.id].dispatched)
  }

  ghost predicate HandoverOk(w: World) {
    && w.env.abandoned <= w.env.used
    && (w.env.worker.Busy? ==> w.env.worker.id !in w.env.abandoned)
    && FlightsOk(w.mem.operations, w.env.abandoned) && FlightsOk(w.disk.operations, w.env.abandoned)
    && PilotOk(w.mem.operations, w.env.worker, w.env.abandoned) && PilotOk(w.disk.operations, w.env.worker, w.env.abandoned)
    && (w.process.Up? && !w.poisoned && w.env.worker.Free? ==> NoneFlying(w.mem.operations, w.env.abandoned))
  }

  // ---------------------------------------------------------------------------
  // Transactions.

  /** Only an operation that is begun takes off. */
  lemma FlightsFollow(ops: Operations, ops': Operations, subject: Id, abandoned: set<Id>)
    requires Follows(ops, ops', subject) && FlightsOk(ops, abandoned)
    requires forall x | x in ops' && x !in ops :: x !in abandoned
    requires subject in ops' && InFlight(ops'[subject].state) ==>
               subject in ops && subject !in abandoned && (InFlight(ops[subject].state) || NoneFlying(ops, abandoned))
    ensures FlightsOk(ops', abandoned)
    ensures forall x | Flying(ops', abandoned, x) :: Flying(ops, abandoned, x) || (x == subject && ops[x].state.Queued?)
  {
    forall x | x in ops' && x in ops ensures OperationFollows(ops[x], ops'[x], x == subject) {}
    forall x | Flying(ops', abandoned, x)
      ensures Flying(ops, abandoned, x) || (x == subject && ops[x].state.Queued?)
    {
      if x in ops { assert OperationFollows(ops[x], ops'[x], x == subject); }
    }
  }

  /** What is asked of the operations `v` that an update leaves, the worker then being `good`
      if the write succeeds and `bad` if it fails. */
  ghost predicate NextOk(w: World, v: Operations, good: Worker, bad: Worker) {
    && FlightsOk(v, w.env.abandoned)
    && PilotOk(v, good, w.env.abandoned) && PilotOk(v, bad, w.env.abandoned)
    && (good.Free? && w.process.Up? ==> NoneFlying(v, w.env.abandoned))
  }

  /** The common part of every event that updates the store. */
  lemma CommitHandover(w: World, tx: Option<Store>, now: nat, o: Write, env': Env, good: Worker, bad: Worker)
    requires HandoverOk(w) && env'.abandoned == w.env.abandoned && w.env.used <= env'.used
    requires tx.Some? ==> NextOk(w, Prune(tx.value, now).operations, good, bad)
    requires bad.Free? || bad == w.env.worker
    requires good.Busy? ==> good.id !in w.env.abandoned
    requires tx.None? && bad.Free? && w.process.Up? && !w.poisoned ==> NoneFlying(w.mem.operations, w.env.abandoned)
    ensures HandoverOk(SetWorker(Commit(w.(env := env'), tx, now, o), if Committed(w, tx, o) then good else bad))
  {
  }

  // ---------------------------------------------------------------------------
  // Events that leave the worker alone.

  predicate SideEvent(e: Event) {
    e.CreatePlan? || e.Apply? || e.Cancel? || e.RecoverFinish? || e.EvidenceFinish? || e.ReportPhase?
  }

  function UsedAfter(w: World, e: Event): Env {
    if e.Apply? then w.env.(used := w.env.used + {e.newId}) else w.env
  }

  lemma SideIs(w: World, e: Event, tx: Option<Store>)
    requires SideEvent(e)
    ensures Update(w, e, tx) == SetWorker(Commit(w.(env := UsedAfter(w, e)), tx, e.now, e.write), w.env.worker)
  {
  }

  lemma SideHandover(w: World, e: Event, tx: Option<Store>)
    requires HandoverOk(w) && SideEvent(e)
    requires tx.Some? ==> NextOk(w, Prune(tx.value, e.now).operations, w.env.worker, w.env.worker)
    ensures HandoverOk(Update(w, e, tx))
  {
    SideIs(w, e, tx);
    CommitHandover(w, tx, e.now, e.write, UsedAfter(w, e), w.env.worker, w.env.worker);
  }

  /** The worker's operation goes on as it was. */
  lemma PilotFollows(w: World, v: Operations, subject: Id)
    requires HandoverOk(w) && Follows(w.mem.operations, v, subject)
    requires w.env.worker.Busy? ==> w.env.worker.id in w.env.used
    requires forall x | x in v && x !in w.mem.operations :: x !in w.env.used
    requires subject in v && InFlight(v[subject].state) ==> subject in w.mem.operations && InFlight(w.mem.operations[subject].state)
    requires subject in v && InFlight(v[subject].state) ==> subject !in w.env.abandoned
    requires subject in v && subject in w.mem.operations ==> v[subject].dispatched == w.mem.operations[subject].dispatched
    ensures NextOk(w, v, w.env.worker, w.env.worker) || (w.env.worker.Free? && w.poisoned && w.process.Up?)
    ensures FlightsOk(v, w.env.abandoned) && PilotOk(v, w.env.worker, w.env.abandoned)
  {
    var worker := w.env.worker;
    FlightsFollow(w.mem.operations, v, subject, w.env.abandoned);
    if worker.Busy? && worker.id in v {
      assert OperationFollows(w.mem.operations[worker.id], v[worker.id], worker.id == subject);
    }
  }

  lemma ClientHandover(w: World, e: Event, tx: Option<Store>)
    requires Inv(w) && HandoverOk(w) && Enabled(w, e) && (e.CreatePlan? || e.Apply? || e.Cancel?) && tx == TxOf(w, e)
    requires !w.poisoned
    ensures HandoverOk(Update(w, e, tx))
  {
    if tx.Some? {
      ClientLands(w, e, tx);
      PilotFollows(w, Prune(tx.value, e.now).operations, 0);
    }
    SideHandover(w, e, tx);
  }

  lemma ReportedPilot(w: World, e: Event, tx: Option<Store>)
    requires Inv(w) && HandoverOk(w) && Enabled(w, e) && (e.RecoverFinish? || e.EvidenceFinish?) && tx == TxOf(w, e) && tx.Some?
    requires !w.poisoned
    ensures NextOk(w, Prune(tx.value, e.now).operations, w.env.worker, w.env.worker)
  {
    ReportIs(w, e);
    ReportLands(w, e, tx);
    PilotFollows(w, Prune(tx.value, e.now).operations, e.id);
  }

  // ---------------------------------------------------------------------------
  // Events of the worker.

  /** What is reported on is finished, or not there. */
  lemma ReportSettles(w: World, e: Event, tx: Option<Store>)
    requires Inv(w) && Enabled(w, e) && ReportingEvent(e) && tx == TxOf(w, e) && tx.Some?
    ensures var id, v := Subject(w, e), Prune(tx.value, e.now).operations;
            && Follows(w.mem.operations, v, id)
            && (forall x | x in v && x !in w.mem.operations :: x !in w.env.used)
            && (id in v ==> Terminal(v[id].state))
  {
    ReportIs(w, e);
    ReportLands(w, e, tx);
  }

  lemma SettledFlights(w: World, v: Operations, id: Id)
    requires HandoverOk(w) && Follows(w.mem.operations, v, id)
    requires forall x | x in v && x !in w.mem.operations :: x !in w.env.used
    requires id in v ==> Terminal(v[id].state)
    ensures FlightsOk(v, w.env.abandoned)
    ensures w.env.worker.Busy? && w.env.worker.id == id ==> NoneFlying(v, w.env.abandoned)
  {
    FlightsFollow(w.mem.operations, v, id, w.env.abandoned);
  }

  /** An operation that was put down in its final state leaves nothing flying. */
  lemma PutDownPilot(w: World, e: Event, tx: Option<Store>)
    requires Inv(w) && HandoverOk(w) && Enabled(w, e) && FinishingEvent(e) && tx == TxOf(w, e)
    ensures tx.Some? ==> NextOk(w, Prune(tx.value, e.now).operations, Free, Free)
    ensures tx.None? ==> NoneFlying(w.mem.operations, w.env.abandoned)
  {
    FinishingIs(w, e, tx);
    if tx.Some? {
      ReportSettles(w, e, tx);
      SettledFlights(w, Prune(tx.value, e.now).operations, w.env.worker.id);
    } else {
      ReportLands(w, e, tx);
      MissedPilot(w, e.now);
    }
  }

  lemma FinishHandover(w: World, e: Event, tx: Option<Store>)
    requires Inv(w) && HandoverOk(w) && Enabled(w, e) && FinishingEvent(e) && tx == TxOf(w, e)
    ensures HandoverOk(Update(w, e, tx))
  {
    SameEnv(w);
    FinishingIs(w, e, tx);
    PutDownPilot(w, e, tx);
    CommitHandover(w, tx, e.now, e.write, w.env, Free, Free);
  }

  lemma MarkedIs(w: World, e: Event, tx: Option<Store>)
    requires MarkingEvent(e) && !e.ReportPhase? && w.env.worker.Busy?
    ensures Update(w, e, tx) == SetWorker(Commit(w, tx, e.now, e.write), if Committed(w, tx, e.write) then MarkedWorker(w, e) else Free)
  {
  }

  lemma MarkHandover(w: World, e: Event, tx: Option<Store>)
    requires Inv(w) && HandoverOk(w) && Enabled(w, e) && MarkingEvent(e) && tx == TxOf(w, e)
    ensures HandoverOk(Update(w, e, tx))
  {
    SameEnv(w);
    MarkIs(w, e, tx);
    if tx.Some? { MarkPilot(w, e, tx); } else { MissedPilot(w, e.now); }
    if e.ReportPhase? {
      SideHandover(w, e, tx);
    } else {
      MarkedIs(w, e, tx);
      CommitHandover(w, tx, e.now, e.write, w.env, MarkedWorker(w, e), Free);
    }
  }

  lemma MissedPilot(w: World, now: nat)
    requires Inv(w) && HandoverOk(w) && w.env.worker.Busy? && w.env.worker.id !in Prune(w.mem, now).operations
    ensures NoneFlying(w.mem.operations, w.env.abandoned)
  {
    PruneAgrees(w.mem, now, w.env.worker.id);
  }

  function MarkedWorker(w: World, e: Event): Worker
    requires MarkingEvent(e) && w.env.worker.Busy?
  {
    if e.Intend? then StageWorker(w.env.worker, Intending)
    else if e.RecordSource? then StageWorker(w.env.worker, Ready)
    else if e.Dispatch? then StageWorker(w.env.worker, Dispatching)
    else w.env.worker
  }

  lemma MarkPilot(w: World, e: Event, tx: Option<Store>)
    requires Inv(w) && HandoverOk(w) && Enabled(w, e) && MarkingEvent(e) && tx == TxOf(w, e) && tx.Some?
    ensures w.env.worker.Busy?
    ensures NextOk(w, Prune(tx.value, e.now).operations, MarkedWorker(w, e), if e.ReportPhase? then w.env.worker else Free)
  {
    MarkIs(w, e, tx);
    MarkLands(w, e, tx);
    var id, v := w.env.worker.id, Prune(tx.value, e.now).operations;
    PruneAgrees(w.mem, e.now, id);
    FlightsFollow(w.mem.operations, v, id, w.env.abandoned);
  }

  lemma BeginHandover(w: World, e: Event, tx: Option<Store>)
    requires Inv(w) && HandoverOk(w) && Enabled(w, e) && e.Begin? && tx == TxOf(w, e)
    ensures HandoverOk(Update(w, e, tx))
  {
    SameEnv(w);
    BeginPilot(w, e, tx);
    CommitHandover(w, tx, e.now, e.write, w.env, BegunWorker(tx, e.id), Free);
  }

  function BegunWorker(tx: Option<Store>, id: Id): Worker {
    if tx.Some? && id in tx.value.operations && tx.value.operations[id].state.Running?
    then Busy(id, tx.value.operations[id].plan, Begun) else Free
  }

  /** What was begun is all that is flying. */
  lemma BeginPilot(w: World, e: Event, tx: Option<Store>)
    requires e.Begin? && Enabled(w, e) && tx == TxOf(w, e) && Inv(w) && HandoverOk(w)
    ensures tx.Some? && e.id !in w.env.abandoned && NextOk(w, Prune(tx.value, e.now).operations, BegunWorker(tx, e.id), Free)
  {
    BeginLands(w, e, tx);
    PruneAgrees(w.mem, e.now, e.id);
    assert OperationOk(w.mem.operations[e.id], e.id);
    BeginRecords(Prune(w.mem, e.now), e.id, e.authorized, e.now);
    BegunFlies(w, tx.value, Prune(tx.value, e.now).operations, e.id);
  }

  lemma BeginRecords(p: Store, id: Id, authorized: bool, now: nat)
    requires BeginTx(p, id, authorized, now).Some?
    ensures var t := BeginTx(p, id, authorized, now).value;
            id in t.operations && (t.operations[id].state.Running? || t.operations[id].state.Failed?)
            && t.operations[id].dispatched == p.operations[id].dispatched
  {
  }

  lemma BegunFlies(w: World, t: Store, v: Operations, id: Id)
    requires HandoverOk(w) && w.process.Up? && w.env.worker.Free? && !w.poisoned && Follows(w.mem.operations, v, id)
    requires forall x | x in v && x !in w.mem.operations :: x !in w.env.used
    requires id in w.mem.operations && w.mem.operations[id].state.Queued?
    requires id in t.operations && (t.operations[id].state.Running? || t.operations[id].state.Failed?) && !t.operations[id].dispatched
    requires id in v ==> v[id] == t.operations[id]
    ensures id !in w.env.abandoned && NextOk(w, v, BegunWorker(Some(t), id), Free)
  {
    FlightsFollow(w.mem.operations, v, id, w.env.abandoned);
  }

  lemma StartedIs(w: World, e: Event, tx: Option<Store>)
    requires e.StartOne? && w.process.Starting? && w.env.worker.Free?
    ensures var c := Commit(w, tx, e.now, e.write);
            Update(w, e, tx) == if Committed(w, tx, e.write) then c.(process := Starting(w.process.todo - {e.id})) else Stopped(c)
  {
  }

  lemma StartHandover(w: World, e: Event, tx: Option<Store>)
    requires Inv(w) && HandoverOk(w) && Enabled(w, e) && e.StartOne? && tx == TxOf(w, e)
    ensures HandoverOk(Update(w, e, tx))
  {
    StartedIs(w, e, tx);
    if tx.Some? { StartFlights(w, e, tx); }
    StartCommitHandover(w, tx, e.now, e.write, e.id);
  }

  lemma StartFlights(w: World, e: Event, tx: Option<Store>)
    requires e.StartOne? && Enabled(w, e) && tx == TxOf(w, e) && tx.Some? && Inv(w) && HandoverOk(w)
    ensures FlightsOk(Prune(tx.value, e.now).operations, w.env.abandoned)
  {
    ReportSettles(w, e, tx);
    SettledFlights(w, Prune(tx.value, e.now).operations, e.id);
  }

  lemma StartCommitHandover(w: World, tx: Option<Store>, now: nat, o: Write, id: Id)
    requires HandoverOk(w) && w.process.Starting? && w.env.worker.Free?
    requires tx.Some? ==> FlightsOk(Prune(tx.value, now).operations, w.env.abandoned)
    ensures var c := Commit(w, tx, now, o);
            HandoverOk(c.(process := Starting(w.process.todo - {id}))) && HandoverOk(Stopped(c))
  {
  }

  lemma RereadHandover(w: World)
    requires Inv(w) && HandoverOk(w) && At(w, Begun)
    ensures HandoverOk(Next(w, Reread))
  {
    var id := w.env.worker.id;
    if id in w.mem.operations && w.mem.operations[id].state.CancelRequested? {
      LetGoCleanly(w, w.mem);
      LetGoCleanly(w, w.disk);
      OneAbandoned(w.mem.operations, w.env.abandoned, id);
      OneAbandoned(w.disk.operations, w.env.abandoned, id);
    } else if id !in w.mem.operations || !w.mem.operations[id].state.Running? {
      assert Next(w, Reread) == SetWorker(w, Free);
    }
  }

  lemma OneAbandoned(ops: Operations, abandoned: set<Id>, id: Id)
    requires FlightsOk(ops, abandoned) && (forall x | Flying(ops, abandoned, x) :: x == id)
    requires id in ops ==> !ops[id].state.Queued? && (InFlight(ops[id].state) ==> Forsaken(ops[id]))
    ensures FlightsOk(ops, abandoned + {id}) && NoneFlying(ops, abandoned + {id})
  {
    forall x | Flying(ops, abandoned + {id}, x) ensures Flying(ops, abandoned, x) && x != id {}
  }

  /** On disk too, an operation the worker has only begun is neither announced nor running
      once it has been cancelled. */
  lemma LetGoCleanly(w: World, s: Store)
    requires Inv(w) && HandoverOk(w) && At(w, Begun) && (s == w.mem || s == w.disk)
    requires var id := w.env.worker.id; id in w.mem.operations && w.mem.operations[id].state.CancelRequested?
    ensures var id := w.env.worker.id;
            id in s.operations ==> !s.operations[id].state.Queued? && (InFlight(s.operations[id].state) ==> Forsaken(s.operations[id]))
  {
  }

  lemma QuietHandover(w: World, e: Event)
    requires Inv(w) && HandoverOk(w) && Enabled(w, e) && !Writes(e)
    ensures HandoverOk(Next(w, e))
  {
    if e.Reread? {
      RereadHandover(w);
    } else if e.StartDone? {
      NoneFlyingAtStart(w);
    }
  }

  lemma NoneFlyingAtStart(w: World)
    requires Inv(w) && w.process == Starting({})
    ensures NoneFlying(w.mem.operations, w.env.abandoned)
  {
  }

  lemma PoisonedSide(w: World, e: Event, tx: Option<Store>)
    requires HandoverOk(w) && w.poisoned && SideEvent(e)
    ensures HandoverOk(Update(w, e, tx))
  {
  }

  lemma StepKeepsHandover(w: World, e: Event)
    requires Inv(w) && HandoverOk(w) && Enabled(w, e)
    ensures HandoverOk(Next(w, e))
  {
    if !Writes(e) {
      QuietHandover(w, e);
    } else if FinishingEvent(e) {
      FinishHandover(w, e, TxOf(w, e));
    } else if e.StartOne? {
      StartHandover(w, e, TxOf(w, e));
    } else if MarkingEvent(e) {
      MarkHandover(w, e, TxOf(w, e));
    } else if e.Begin? {
      BeginHandover(w, e, TxOf(w, e));
    } else {
      BystanderHandover(w, e, TxOf(w, e));
    }
  }

  /** Events of clients. */
  lemma BystanderHandover(w: World, e: Event, tx: Option<Store>)
    requires e.CreatePlan? || e.Apply? || e.Cancel? || e.RecoverFinish? || e.EvidenceFinish?
    requires Enabled(w, e) && tx == TxOf(w, e) && Inv(w) && HandoverOk(w)
    ensures HandoverOk(Update(w, e, tx))
  {
    if w.poisoned {
      PoisonedSide(w, e, tx);
    } else if e.RecoverFinish? || e.EvidenceFinish? {
      if tx.Some? { ReportedPilot(w, e, tx); }
      SideHandover(w, e, tx);
    } else {
      ClientHandover(w, e, tx);
    }
  }

  lemma {:induction false} HandoverAlwaysOk(run: Run)
    requires Legal(run)
    ensures HandoverOk(Now(run))
  {
    if run.Then? {
      HandoverAlwaysOk(run.past);
      EveryRun(run.past);
      StepKeepsHandover(Now(run.past), run.event);
    }
  }
}
