/** What the controller promises, over every run of `ControllerMachine`
    (internal/engine, docs/ARCHITECTURE.md). */
module ControllerGuarantees {
  import opened Domain
  import opened RecoveryGraph
  import opened ControllerStore
  import opened ControllerTransactions
  import opened ControllerEvolution
  import opened ControllerMachine
  import opened ControllerInvariant

  /** When the adapter is called for anything but a hardware refresh, every other operation
      that requires recovery, in memory and on disk, is in the chain the operation recovers;
      if it recovers none, there is none. */
  lemma {:induction false} ExecutionRespectsFence(run: Run, answer: Outcome, k: Id)
    requires Legal(run) && Enabled(Now(run), Execute(answer))
    requires !Now(run).env.worker.plan.draft.action.HardwareRefresh? && k != Now(run).env.worker.id
    ensures var w := Now(run); var parent := w.env.worker.plan.draft.parent;
            && (k in w.mem.operations && w.mem.operations[k].recoveryRequired ==>
                  parent != 0 && SameChain(OperationRoots(w.mem.operations), parent, k))
            && (k in w.disk.operations && w.disk.operations[k].recoveryRequired ==>
                  parent != 0 && SameChain(OperationRoots(w.disk.operations), parent, k))
  {
    EveryRun(run);
  }

  /** The adapter has been called at most once for `id`. If it is about to be called, it has
      not been, and a record of the operation is on disk, in execution and with its dispatch
      announced (evidence work may meanwhile have been completed by an inspection). */
  predicate CalledAtMostOnce(w: World, id: Id) {
    && w.env.executed[id] <= 1
    && (At(w, Dispatching) && w.env.worker.id == id ==>
          && w.env.executed[id] == 0
          && (EvidenceAction(w.env.worker.plan.draft.action) || (id in w.disk.operations && InFlight(w.disk.operations[id].state)))
          && (id in w.disk.operations ==> w.disk.operations[id].dispatched))
  }

  /** The adapter is called at most once for an operation, over all restarts. */
  lemma {:induction false} ExecutedAtMostOnce(run: Run, id: Id)
    requires Legal(run)
    ensures CalledAtMostOnce(Now(run), id)
  {
    WorkerIsOk(run);
    ExecutedOnceIn(Now(run), id);
  }

  lemma {:induction false} WorkerIsOk(run: Run)
    requires Legal(run)
    ensures EnvOk(Now(run).env) && WorkerOk(Now(run).disk.operations, Now(run).env.worker)
  {
    EveryRun(run);
  }

  lemma ExecutedOnceIn(w: World, id: Id)
    requires EnvOk(w.env) && WorkerOk(w.disk.operations, w.env.worker)
    ensures CalledAtMostOnce(w, id)
  {
    if id in w.env.executed { assert w.env.executed[id] == 1; }
  }

  /** The managed source changes only from the planned revision to the desired one of an
      operation whose intent to do so is on disk, and never while one requires recovery. */
  lemma {:induction false} SourceChangesOnlyUnfenced(run: Run, e: Event)
    requires Legal(Then(run, e)) && Now(Then(run, e)).env.source != Now(run).env.source
    ensures var w, w' := Now(run), Now(Then(run, e));
            && w.env.worker.Busy?
            && w.env.source == w.env.worker.plan.draft.source && w'.env.source == w.env.worker.plan.desired
            && (forall k | k in w.mem.operations :: !w.mem.operations[k].recoveryRequired)
            && (forall k | k in w.disk.operations :: !w.disk.operations[k].recoveryRequired)
            && w'.mem == w.mem && w'.disk == w.disk
            && w.env.worker.id in w.disk.operations && Pending(w.disk.operations[w.env.worker.id])
  {
    EveryRun(run);
    if !e.Replace? { OnlyReplaceChangesSource(Now(run), e); }
    ReplaceIsSafe(Now(run));
    ReplaceIsAnnounced(Now(run));
  }

  lemma ReplaceIsAnnounced(w: World)
    requires WorkerOk(w.disk.operations, w.env.worker) && At(w, Intending) && StageOk(w.env.worker.plan, Intending, w.env.source)
    ensures w.env.worker.id in w.disk.operations && Pending(w.disk.operations[w.env.worker.id])
  {
    var plan := w.env.worker.plan;
    if !ConfigureAction(plan.draft.action) { OnlyConfigureChangesSource(plan.draft.source, plan.draft); }
  }

  lemma UpdateKeepsSource(w: World, e: Event, tx: Option<Store>)
    requires Writes(e)
    requires e.Intend? || e.RecordSource? || e.Dispatch? ==> w.env.worker.Busy?
    requires e.StartOne? ==> w.process.Starting?
    ensures Update(w, e, tx).env.source == w.env.source
  {
  }

  lemma OnlyReplaceChangesSource(w: World, e: Event)
    requires Enabled(w, e) && !e.Replace?
    ensures Next(w, e).env.source == w.env.source
  {
    if Writes(e) { UpdateKeepsSource(w, e, TxOf(w, e)); }
  }

  /** From the announcement of its source update until it is finished or resolved, the
      source is one of the two sides of an operation, however it was interrupted. */
  lemma {:induction false} InterruptedUpdateStaysOnASide(run: Run, id: Id)
    requires Legal(run)
    ensures var w := Now(run);
            && (id in w.mem.operations && Pending(w.mem.operations[id]) ==> OnASide(w.mem.operations[id], w.env.source))
            && (id in w.disk.operations && Pending(w.disk.operations[id]) ==> OnASide(w.disk.operations[id], w.env.source))
  {
    EveryRun(run);
  }

  /** Completion never aborts: whatever the terminal result, the links of a recorded
      operation still resolve. */
  lemma {:induction false} CompletionNeverAborts(run: Run, id: Id, r: Outcome, now: nat)
    requires Legal(run) && OutcomeOk(r) && Terminal(r.state)
    requires id in Now(run).mem.operations && !Terminal(Now(run).mem.operations[id].state)
    ensures FinishTx(Prune(Now(run).mem, now), id, r, now).Some?
  {
    EveryRun(run);
    PruneAgrees(Now(run).mem, now, id);
    FinishIsOk(Now(run).mem, id, r, now, Now(run).env);
  }

  // ---------------------------------------------------------------------------
  // A successful recovery.

  /** The worker completes a recovery successfully and durably. */
  predicate RecoverySucceeds(w: World, e: Event) {
    && Enabled(w, e) && !w.poisoned
    && w.env.worker.Busy? && w.env.worker.plan.draft.parent != 0
    && ((e.Complete? && e.outcome.state.Succeeded? && e.write.Written?) || (e.Reconcile? && e.write.Written?))
  }

  lemma ResolvesAll(ops: Operations, roots: map<Id, Id>, id: Id, plan: Plan, o: Operation, now: nat)
    requires id in ops && HeldOk(ops, roots, id, plan) && plan.draft.parent != 0
    requires o.plan == plan && o.state.Succeeded? && !o.recoveryRequired
    ensures AllResolved(ops, ResolveChain(ops[id := o], roots, id, now), id, plan)
  {
    var ops1 := ops[id := o];
    var ops' := ResolveChain(ops1, roots, id, now);
    forall k | k in ops && k != id
      ensures if ops[k].recoveryRequired then ShownResolved(ops[k], ops'[k], plan) && !ops'[k].recoveryRequired else ops'[k] == ops[k]
    {
      if ops[k].recoveryRequired { assert SameChain(roots, plan.draft.parent, k); }
    }
  }

  lemma RecoveryTx(w: World, now: nat)
    requires Inv(w) && w.env.worker.Busy? && w.env.worker.plan.draft.parent != 0
    ensures var id := w.env.worker.id;
            var p := Prune(w.mem, now);
            && id in p.operations
            && RecoveredBy(p, FinishTx(p, id, Outcome(Succeeded, false), now), id, w.env.worker.plan)
  {
    var id, plan := w.env.worker.id, w.env.worker.plan;
    HeldIsKept(w, now);
    PruneKeepsHeld(w.mem, now, id, plan);
    RecoveryTxOn(Prune(w.mem, now), id, plan, now);
  }

  /** What a resolved operation shows: it failed, and after a reconciliation, whether the
      source is its desired side; otherwise it is as it was, one revision on. */
  predicate ShownResolved(before: Operation, after: Operation, recovery: Plan) {
    && after == before.(state := Failed, recoveryRequired := false, sourceUpdated := after.sourceUpdated,
                        revision := before.revision + 1, updatedAt := after.updatedAt)
    && (after.sourceUpdated <==>
          if recovery.draft.action.OperationReconcile? then recovery.desired == before.plan.desired != before.plan.draft.source
          else before.sourceUpdated)
  }

  /** The transaction succeeds, clears every recovery requirement and touches nothing else. */
  predicate RecoveredBy(p: Store, tx: Option<Store>, id: Id, plan: Plan) {
    tx.Some? && AllResolved(p.operations, tx.value.operations, id, plan)
  }

  predicate AllResolved(ops: Operations, ops': Operations, id: Id, plan: Plan) {
    && ops'.Keys == ops.Keys
    && id in ops' && ops'[id].state.Succeeded?
    && (forall k | k in ops' :: !ops'[k].recoveryRequired)
    && (forall k | k in ops && k != id ::
          if ops[k].recoveryRequired then ShownResolved(ops[k], ops'[k], plan) else ops'[k] == ops[k])
  }

  lemma RecoveryTxOn(p: Store, id: Id, plan: Plan, now: nat)
    requires OperationsOk(p.operations) && id in p.operations
    requires HeldOk(p.operations, OperationRoots(p.operations), id, plan) && plan.draft.parent != 0
    ensures RecoveredBy(p, FinishTx(p, id, Outcome(Succeeded, false), now), id, plan)
  {
    var o := Finished(p.operations[id], Outcome(Succeeded, false), now);
    assert ParentOf(p.operations, id) in OperationRoots(p.operations);
    FinishShape(p, id, Outcome(Succeeded, false), now);
    ResolvesAll(p.operations, OperationRoots(p.operations), id, plan, o, now);
  }

  /** Nobody requires recovery, those that did are shown as failed, and nothing else changed. */
  predicate Cleared(ops: Operations, ops': Operations, id: Id, plan: Plan) {
    && (forall k | k in ops' :: !ops'[k].recoveryRequired)
    && (id in ops' ==> ops'[id].state.Succeeded?)
    && (forall k | k in ops' && k != id && k in ops ::
          if ops[k].recoveryRequired then ShownResolved(ops[k], ops'[k], plan) else ops'[k] == ops[k])
  }

  lemma PruningKeepsCleared(s: Store, t: Store, now: nat, id: Id, plan: Plan)
    ensures AllResolved(Prune(s, now).operations, t.operations, id, plan) ==> Cleared(s.operations, Prune(t, now).operations, id, plan)
  {
    var p, v := Prune(s, now).operations, Prune(t, now).operations;
    if AllResolved(p, t.operations, id, plan) {
      forall k | k in v ensures k in t.operations && v[k] == t.operations[k] && k in p && p[k] == s.operations[k] {}
    }
  }

  /** That holds of the step from `w` to `w'`, which is on disk. */
  predicate FenceCleared(w: World, w': World) {
    && w.env.worker.Busy? && w'.mem == w'.disk
    && Cleared(w.mem.operations, w'.mem.operations, w.env.worker.id, w.env.worker.plan)
  }

  predicate RecoversBy(w: World, now: nat)
    requires w.env.worker.Busy?
  {
    var p := Prune(w.mem, now);
    RecoveredBy(p, FinishTx(p, w.env.worker.id, Outcome(Succeeded, false), now), w.env.worker.id, w.env.worker.plan)
  }

  lemma ClearsBy(w: World, e: Event)
    requires RecoverySucceeds(w, e)
    ensures RecoversBy(w, e.now) ==> FenceCleared(w, Next(w, e))
  {
    CompleteIsRecovery(w, e);
    if RecoversBy(w, e.now) {
      var t := FinishTx(Prune(w.mem, e.now), w.env.worker.id, Outcome(Succeeded, false), e.now).value;
      PruningKeepsCleared(w.mem, t, e.now, w.env.worker.id, w.env.worker.plan);
    }
  }

  lemma {:induction false} RecoveryTxOf(run: Run, now: nat)
    requires Legal(run) && Now(run).env.worker.Busy? && Now(run).env.worker.plan.draft.parent != 0
    ensures RecoversBy(Now(run), now)
  {
    EveryRun(run);
    RecoveryTx(Now(run), now);
  }

  /** After a recovery has succeeded, no operation requires recovery, those that did are shown
      as failed, and every record that did not await recovery is as it was. */
  lemma {:induction false} RecoveryClearsFence(run: Run, e: Event)
    requires Legal(run) && RecoverySucceeds(Now(run), e)
    ensures Legal(Then(run, e)) && FenceCleared(Now(run), Now(Then(run, e)))
  {
    RecoveryTxOf(run, e.now);
    ClearsBy(Now(run), e);
    ThenIs(run, e);
  }

  lemma {:induction false} ThenIs(run: Run, e: Event)
    requires Legal(run) && Enabled(Now(run), e)
    ensures Legal(Then(run, e)) && Now(Then(run, e)) == Next(Now(run), e)
  {
  }

  /** After a reconciliation, an operation it resolved says that its source update was made
      exactly if the managed source is the one it asked for. */
  lemma {:induction false} ReconciliationTellsTheSide(run: Run, e: Event, k: Id)
    requires Legal(run) && RecoverySucceeds(Now(run), e) && e.Reconcile?
    requires k in Now(run).mem.operations && Now(run).mem.operations[k].recoveryRequired && k != Now(run).env.worker.id
    ensures Legal(Then(run, e))
    ensures var w' := Now(Then(run, e)); var plan := Now(run).mem.operations[k].plan;
            k in w'.mem.operations ==>
              (w'.mem.operations[k].sourceUpdated <==> w'.env.source == plan.desired != plan.draft.source)
  {
    RecoveryClearsFence(run, e);
    OnlyReplaceChangesSource(Now(run), e);
    ReconcileKeepsSource(run);
  }

  lemma {:induction false} ReconcileKeepsSource(run: Run)
    requires Legal(run) && At(Now(run), Validating) && Now(run).env.worker.plan.draft.action.OperationReconcile? && SourceUnchanged(Now(run))
    ensures Now(run).env.worker.plan.desired == Now(run).env.source
  {
    WorkerIsOk(run);
    var plan := Now(run).env.worker.plan;
    OnlyConfigureChangesSource(plan.draft.source, plan.draft);
  }

  lemma CompleteIsRecovery(w: World, e: Event)
    requires RecoverySucceeds(w, e)
    ensures var tx := FinishTx(Prune(w.mem, e.now), w.env.worker.id, Outcome(Succeeded, false), e.now);
            tx.Some? ==> Next(w, e).mem == Prune(tx.value, e.now) && Next(w, e).disk == Prune(tx.value, e.now)
  {
  }

  // ---------------------------------------------------------------------------
  // Revisions.

  /** In memory, `after` holds later versions of the operations in `before`, and none that
      had been seen and dropped. */
  predicate Advances(before: Operations, visible: set<Id>, after: Operations) {
    Newer(before, after) && forall id | id in after && id in visible :: id in before
  }

  /** The same event with another outcome of its write. */
  function WithWrite(e: Event, o: Write): Event
    requires Writes(e)
  {
    e.(write := o)
  }

  function Twin(e: Event): Event
    requires Writes(e)
  {
    WithWrite(e, FailedAfter)
  }

  /** But for startup, what an event does to the store is one commit. */
  lemma UpdateCommits(w: World, e: Event, tx: Option<Store>)
    requires Writes(e) && !e.StartOne?
    requires e.Intend? || e.RecordSource? || e.Dispatch? ==> w.env.worker.Busy?
    ensures var w', c := Update(w, e, tx), Commit(w, tx, e.now, e.write);
            && w'.mem == c.mem && w'.disk == c.disk && w'.poisoned == c.poisoned && w'.visible == c.visible
            && w'.depth == w.depth && w'.process == w.process
  {
  }

  /** What an event commits to memory is what its twin leaves on disk. */
  lemma UpdateTwin(w: World, e: Event, tx: Option<Store>)
    requires Writes(e) && !e.StartOne?
    requires e.Intend? || e.RecordSource? || e.Dispatch? ==> w.env.worker.Busy?
    ensures var w', twin := Update(w, e, tx), Update(w, Twin(e), tx);
            && (w'.mem == w.mem || (w'.mem == twin.disk && twin.mem == w.mem))
            && w.visible <= w'.visible && twin.visible == w.visible
  {
    UpdateCommits(w, e, tx);
    UpdateCommits(w, Twin(e), tx);
  }

  /** Whether an event can happen, and what it asks for, does not depend on the write. */
  lemma WriteIsFree(w: World, e: Event, o: Write)
    requires Enabled(w, e) && Writes(e)
    ensures Enabled(w, WithWrite(e, o))
  {
  }

  lemma SameTx(w: World, e: Event, o: Write)
    requires Enabled(w, e) && Writes(e) && Enabled(w, WithWrite(e, o))
    ensures TxOf(w, WithWrite(e, o)) == TxOf(w, e)
  {
  }

  lemma StartAdvances(w: World, e: Event, tx: Option<Store>)
    requires e.StartOne? && w.process.Starting?
    requires LinedUp(w) && LinedUp(Commit(w, tx, e.now, FailedAfter))
    ensures Advances(w.mem.operations, w.visible, Update(w, e, tx).mem.operations) && w.visible <= Update(w, e, tx).visible
  {
    SelfAdvances(w);
    SelfAdvances(Commit(w, tx, e.now, FailedAfter));
  }

  lemma StartLinesUp(w: World, e: Event, tx: Option<Store>)
    requires Inv(w) && e.StartOne? && Enabled(w, e)
    requires tx == FinishTx(Prune(w.mem, e.now), e.id, StartOutcome(w.mem.operations[e.id], e.inspected), e.now)
    ensures LinedUp(Commit(w, tx, e.now, FailedAfter))
  {
    FinishIsOk(w.mem, e.id, StartOutcome(w.mem.operations[e.id], e.inspected), e.now, w.env);
    PruneAgrees(w.mem, e.now, e.id);
    SameEnv(w);
    CommitLinesUp(w, tx.value, e.now, FailedAfter, e.id, w.env);
  }

  lemma WriteAdvances(w: World, e: Event)
    requires Inv(w) && Enabled(w, e) && Writes(e) && !e.StartOne?
    ensures Advances(w.mem.operations, w.visible, Next(w, e).mem.operations) && w.visible <= Next(w, e).visible
  {
    WriteIsFree(w, e, FailedAfter);
    SameTx(w, e, FailedAfter);
    UpdateTwin(w, e, TxOf(w, e));
    StepKeepsInv(w, Twin(e));
    SelfAdvances(w);
  }

  lemma SelfAdvances(w: World)
    requires LinedUp(w)
    ensures Advances(w.mem.operations, w.visible, w.mem.operations)
    ensures Advances(w.mem.operations, w.visible, w.disk.operations)
  {
  }

  lemma StepAdvances(w: World, e: Event)
    requires Inv(w) && Enabled(w, e)
    ensures Advances(w.mem.operations, w.visible, Next(w, e).mem.operations) && w.visible <= Next(w, e).visible
  {
    if e.StartOne? {
      StartLinesUp(w, e, TxOf(w, e));
      StartAdvances(w, e, TxOf(w, e));
    } else if Writes(e) {
      WriteAdvances(w, e);
    } else {
      SelfAdvances(w);
    }
  }

  /** Over any stretch of any run, with restarts, an operation that is still recorded is
      either unchanged or carries a larger revision. */
  lemma {:induction false} OperationsAdvance(run: Run, later: Run)
    requires Legal(later) && Extends(later, run)
    ensures Legal(run)
    ensures Advances(Now(run).mem.operations, Now(run).visible, Now(later).mem.operations)
    ensures Now(run).visible <= Now(later).visible
  {
    if later == run {
      EveryRun(run);
      SelfAdvances(Now(run));
    } else {
      OperationsAdvance(run, later.past);
      EveryRun(run);
      EveryRun(later.past);
      OneMore(Now(run), Now(later.past), later.event);
    }
  }

  lemma OneMore(a: World, w: World, e: Event)
    requires LinedUp(a) && Inv(w) && Enabled(w, e)
    requires Advances(a.mem.operations, a.visible, w.mem.operations) && a.visible <= w.visible
    ensures Advances(a.mem.operations, a.visible, Next(w, e).mem.operations) && a.visible <= Next(w, e).visible
  {
    StepAdvances(w, e);
    AdvancesTransitive(a, w, Next(w, e));
  }

  lemma AdvancesTransitive(a: World, b: World, c: World)
    requires Advances(a.mem.operations, a.visible, b.mem.operations) && Advances(b.mem.operations, b.visible, c.mem.operations)
    requires a.visible <= b.visible && a.mem.operations.Keys <= a.visible
    ensures Advances(a.mem.operations, a.visible, c.mem.operations)
  {
  }

  /** A revision is a version stamp: two observations of an operation with the same revision
      saw the same record. */
  lemma {:induction false} RevisionIsVersionStamp(run: Run, later: Run, id: Id)
    requires Legal(later) && Extends(later, run) && Legal(run)
    requires id in Now(run).mem.operations && id in Now(later).mem.operations
    requires Now(run).mem.operations[id].revision == Now(later).mem.operations[id].revision
    ensures Now(run).mem.operations[id] == Now(later).mem.operations[id]
  {
    OperationsAdvance(run, later);
  }

  /** A cancellation that names the revision its sender observed acts on exactly the record
      observed, or on nothing. */
  lemma {:induction false} CancelActsOnWhatWasSeen(run: Run, later: Run, id: Id, now: nat)
    requires Legal(later) && Extends(later, run) && Legal(run)
    requires id in Now(run).mem.operations && Now(run).mem.operations[id].revision != 0
    ensures var seen := Now(run).mem.operations[id];
            var p := Prune(Now(later).mem, now);
            CancelTx(p, id, seen.revision, now).Some? ==> id in p.operations && p.operations[id] == seen
  {
    EveryRun(later);
    PruneAgrees(Now(later).mem, now, id);
    if id in Now(later).mem.operations && Now(later).mem.operations[id].revision == Now(run).mem.operations[id].revision {
      RevisionIsVersionStamp(run, later, id);
    }
  }

  /** After a failed write nothing changes, in memory or on disk, until the store is reopened. */
  lemma PoisonedIsFrozen(w: World, e: Event)
    requires w.poisoned && Enabled(w, e) && !e.Crash? && !e.StartOne?
    ensures Next(w, e).mem == w.mem && Next(w, e).disk == w.disk && Next(w, e).poisoned
  {
    if Writes(e) { PoisonedUpdate(w, e, TxOf(w, e)); }
  }

  lemma PoisonedUpdate(w: World, e: Event, tx: Option<Store>)
    requires w.poisoned && Writes(e) && !e.StartOne?
    requires e.Intend? || e.RecordSource? || e.Dispatch? ==> w.env.worker.Busy?
    ensures Update(w, e, tx).mem == w.mem && Update(w, e, tx).disk == w.disk && Update(w, e, tx).poisoned
  {
    UpdateCommits(w, e, tx);
  }

  /** A cancellation that arrives between the start of an operation and the worker's second
      look leaves it in that state with nobody at work on it. */
  lemma {:induction false} CancelBeforeSecondLook(run: Run, now: nat)
    requires Legal(run) && At(Now(run), Begun) && !Now(run).poisoned
    requires Now(run).env.worker.id in Now(run).mem.operations && Now(run).mem.operations[Now(run).env.worker.id].state.Running?
    ensures var id := Now(run).env.worker.id;
            var raced := Then(run, Cancel(id, 0, now, Written));
            && Legal(raced) && Legal(Then(raced, Reread))
            && var w := Now(Then(raced, Reread));
               w.env.worker.Free? && w.mem == w.disk && id in w.mem.operations && w.mem.operations[id].state.CancelRequested?
  {
    var w := Now(run);
    var id := w.env.worker.id;
    StaysCancelled(run, id, now);
    CancelledIs(w, id, now, CancelTx(Prune(w.mem, now), id, 0, now).value);
    var raced := Then(run, Cancel(id, 0, now, Written));
    assert Legal(raced);
    SecondLook(Now(raced));
  }

  lemma {:induction false} StaysCancelled(run: Run, id: Id, now: nat)
    requires Legal(run) && id in Now(run).mem.operations && Now(run).mem.operations[id].state.Running?
    ensures var tx := CancelTx(Prune(Now(run).mem, now), id, 0, now);
            tx.Some? && id in Prune(tx.value, now).operations && Prune(tx.value, now).operations[id].state.CancelRequested?
  {
    EveryRun(run);
    PruneAgrees(Now(run).mem, now, id);
    CancelKeepsIt(Prune(Now(run).mem, now), id, now);
  }

  lemma CancelKeepsIt(p: Store, id: Id, now: nat)
    requires id in p.operations && p.operations[id].state.Running?
    ensures var tx := CancelTx(p, id, 0, now);
            tx.Some? && id in Prune(tx.value, now).operations && Prune(tx.value, now).operations[id].state.CancelRequested?
  {
    StillThere(CancelTx(p, id, 0, now).value, now, id);
  }

  lemma SecondLook(w: World)
    requires At(w, Begun) && w.env.worker.id in w.mem.operations && w.mem.operations[w.env.worker.id].state.CancelRequested?
    ensures Enabled(w, Reread)
    ensures Next(w, Reread) == w.(env := w.env.(worker := Free, abandoned := w.env.abandoned + {w.env.worker.id}))
  {
  }

  lemma CancelledIs(w: World, id: Id, now: nat, t: Store)
    requires w.process.Up? && !w.poisoned && CancelTx(Prune(w.mem, now), id, 0, now) == Some(t)
    ensures Enabled(w, Cancel(id, 0, now, Written))
    ensures var w' := Next(w, Cancel(id, 0, now, Written));
            w'.mem == Prune(t, now) && w'.disk == w'.mem && w'.process == w.process && w'.env == w.env
  {
  }
}
