/** The one way in which the worker can leave an operation in execution, told in terms of
    what happened (`execute` and `Cancel` in internal/engine/engine.go). */
module ControllerRace {
  import opened Domain
  import opened ControllerStore
  import opened ControllerTransactions
  import opened ControllerEvolution
  import opened ControllerMachine
  import opened ControllerInvariant
  import opened ControllerGuarantees
  import opened ControllerLedger
  import opened ControllerSteps
  import opened ControllerHandover

  /** A cancellation of `x` takes effect. */
  predicate CancelCommits(w: World, e: Event, x: Id) {
    e.Cancel? && e.id == x && Enabled(w, e) && Committed(w, TxOf(w, e), e.write)
  }

  /** The worker has begun `x` and not yet looked again. */
  predicate JustBegun(w: World, x: Id) {
    At(w, Begun) && w.env.worker.id == x
  }

  /** A cancellation took effect since the worker began `x`, and it has not looked again. */
  predicate CancelledSinceBegin(run: Run, x: Id)
    requires Legal(run)
  {
    && run.Then? && JustBegun(Now(run), x) && JustBegun(Now(run.past), x)
    && (CancelCommits(Now(run.past), run.event, x) || CancelledSinceBegin(run.past, x))
  }

  /** At some time a cancellation took effect between the start of `x` and the second look. */
  predicate Raced(run: Run, x: Id)
    requires Legal(run)
  {
    run.Then? &&
    (Raced(run.past, x) || (run.event.Reread? && JustBegun(Now(run.past), x) && CancelledSinceBegin(run.past, x)))
  }

  /** In execution with no worker on it. */
  predicate Orphan(w: World, x: Id) {
    x in w.mem.operations && InFlight(w.mem.operations[x].state) && !(w.env.worker.Busy? && w.env.worker.id == x)
  }

  predicate IsCancelled(ops: Operations, x: Id) {
    x in ops && ops[x].state.CancelRequested?
  }

  // ---------------------------------------------------------------------------
  // Between start and second look.

  lemma FinishCancelsNobody(p: Store, id: Id, r: Outcome, now: nat, x: Id)
    requires Terminal(r.state) && FinishTx(p, id, r, now).Some?
    ensures IsCancelled(FinishTx(p, id, r, now).value.operations, x) ==> IsCancelled(p.operations, x)
  {
    var o := Finished(p.operations[id], r, now);
    assert Terminal(o.state);
  }

  lemma OnlyCancelCancels(w: World, e: Event, tx: Option<Store>, x: Id)
    requires Enabled(w, e) && Writes(e) && tx == TxOf(w, e) && tx.Some? && !(e.Cancel? && e.id == x)
    ensures IsCancelled(tx.value.operations, x) ==> IsCancelled(Prune(w.mem, e.now).operations, x)
  {
    if ReportingEvent(e) {
      ReportIs(w, e);
      FinishCancelsNobody(Prune(w.mem, e.now), Subject(w, e), Reported(w, e), e.now, x);
    }
  }

  lemma NobodyElseCancels(w: World, e: Event, x: Id)
    requires Enabled(w, e) && !CancelCommits(w, e, x) && w.process.Up? && !e.Crash?
    ensures IsCancelled(Next(w, e).mem.operations, x) ==> IsCancelled(w.mem.operations, x)
  {
    if Writes(e) {
      UpdateCommits(w, e, TxOf(w, e));
      if Committed(w, TxOf(w, e), e.write) { OnlyCancelCancels(w, e, TxOf(w, e), x); }
    }
  }

  lemma CancelIs(w: World, e: Event, x: Id)
    requires Inv(w) && CancelCommits(w, e, x) && JustBegun(w, x)
    ensures IsCancelled(Next(w, e).mem.operations, x)
  {
    BegunIsOutOfQueue(w, x);
    CancelLands(w, e, x);
  }

  lemma BegunIsOutOfQueue(w: World, x: Id)
    requires Inv(w) && JustBegun(w, x)
    ensures x in w.mem.operations ==> !w.mem.operations[x].state.Queued?
  {
  }

  lemma CancelTxLands(p: Store, x: Id, revision: nat, now: nat)
    requires CancelTx(p, x, revision, now).Some? && !p.operations[x].state.Queued?
    ensures IsCancelled(Prune(CancelTx(p, x, revision, now).value, now).operations, x)
  {
    StillThere(CancelTx(p, x, revision, now).value, now, x);
  }

  lemma CancelLands(w: World, e: Event, x: Id)
    requires CancelCommits(w, e, x) && (x in w.mem.operations ==> !w.mem.operations[x].state.Queued?)
    ensures IsCancelled(Next(w, e).mem.operations, x)
  {
    CancelTxLands(Prune(w.mem, e.now), x, e.revision, e.now);
    UpdateCommits(w, e, TxOf(w, e));
  }

  lemma KeepsCancelled(ops: Operations, v: Operations, subject: Id, x: Id)
    requires Follows(ops, v, subject) && IsCancelled(ops, x) && subject != x
    ensures IsCancelled(v, x)
  {
    assert x in v && OperationFollows(ops[x], v[x], false);
  }

  /** Nobody reports on an operation that was never dispatched, and nobody begins it again. */
  lemma NotTheSubject(w: World, e: Event, x: Id)
    requires Enabled(w, e) && Writes(e) && IsCancelled(w.mem.operations, x) && !w.mem.operations[x].dispatched
    requires e.RecoverFinish? || e.EvidenceFinish? || e.Begin?
    ensures Subject(w, e) != x
  {
  }

  lemma CancelledStays(w: World, e: Event, x: Id)
    requires Inv(w) && Enabled(w, e) && w.process.Up? && !e.Crash? && IsCancelled(w.mem.operations, x)
    requires Writes(e) ==> Subject(w, e) != x
    ensures IsCancelled(Next(w, e).mem.operations, x)
  {
    if !Writes(e) {
      QuietMemory(w, e);
    } else {
      WriteMemory(w, e, TxOf(w, e));
      if TxOf(w, e).Some? { LandsCancelled(w, e, TxOf(w, e), x); }
    }
  }

  lemma WriteMemory(w: World, e: Event, tx: Option<Store>)
    requires Enabled(w, e) && Writes(e) && !e.StartOne? && tx == TxOf(w, e)
    ensures Next(w, e).mem == w.mem || (tx.Some? && Next(w, e).mem == Prune(tx.value, e.now))
  {
    CommittedMemory(w, e, tx);
  }

  lemma QuietMemory(w: World, e: Event)
    requires Enabled(w, e) && !Writes(e) && !e.Crash?
    ensures Next(w, e).mem == w.mem && (w.process.Up? ==> Next(w, e).process.Up?)
  {
  }

  lemma StaysUp(w: World, e: Event)
    requires Enabled(w, e) && !e.Crash? && w.process.Up?
    ensures Next(w, e).process.Up?
  {
    if Writes(e) { CommittedMemory(w, e, TxOf(w, e)); } else { QuietMemory(w, e); }
  }

  lemma CommittedMemory(w: World, e: Event, tx: Option<Store>)
    requires Writes(e) && !e.StartOne?
    requires e.Intend? || e.RecordSource? || e.Dispatch? ==> w.env.worker.Busy?
    ensures Update(w, e, tx).mem == if Committed(w, tx, e.write) then Prune(tx.value, e.now) else w.mem
    ensures Update(w, e, tx).process == w.process
  {
    UpdateCommits(w, e, tx);
  }

  lemma LandsCancelled(w: World, e: Event, tx: Option<Store>, x: Id)
    requires Inv(w) && Enabled(w, e) && Writes(e) && IsCancelled(w.mem.operations, x) && Subject(w, e) != x
    requires tx == TxOf(w, e) && tx.Some?
    ensures IsCancelled(Prune(tx.value, e.now).operations, x)
  {
    StepLands(w, e, tx);
    KeepsCancelled(w.mem.operations, Prune(tx.value, e.now).operations, Subject(w, e), x);
  }

  lemma TakenUp(w: World, e: Event, x: Id)
    requires Enabled(w, e) && JustBegun(Next(w, e), x) && !JustBegun(w, x) && (!w.process.Up? ==> w.env.worker.Free?)
    ensures e.Begin? && e.id == x && Committed(w, TxOf(w, e), e.write)
    ensures var tx := TxOf(w, e); tx.Some? && x in tx.value.operations && tx.value.operations[x].state.Running?
  {
    if Writes(e) && !e.Begin? { OnlyBeginBegins(w, e, TxOf(w, e)); }
  }

  lemma OnlyBeginBegins(w: World, e: Event, tx: Option<Store>)
    requires Writes(e) && !e.Begin?
    requires e.Intend? || e.RecordSource? || e.Dispatch? ==> w.env.worker.Busy?
    requires e.StartOne? ==> w.process.Starting?
    ensures At(Update(w, e, tx), Begun) ==> Update(w, e, tx).env.worker == w.env.worker && w.process.Up?
  {
  }

  lemma StartsUncancelled(w: World, e: Event, x: Id)
    requires Enabled(w, e) && JustBegun(Next(w, e), x) && !JustBegun(w, x) && (!w.process.Up? ==> w.env.worker.Free?)
    ensures !IsCancelled(Next(w, e).mem.operations, x)
  {
    TakenUp(w, e, x);
    UpdateCommits(w, e, TxOf(w, e));
  }

  lemma StillBegun(w: World, e: Event, x: Id)
    requires Enabled(w, e) && JustBegun(w, x) && JustBegun(Next(w, e), x) && Writes(e)
    ensures SideEvent(e) && !e.ReportPhase?
  {
  }

  /** One event later, a begun operation is cancelled if it was, or if the event cancelled it. */
  lemma CancelledStep(w: World, e: Event, x: Id)
    requires Inv(w) && HandoverOk(w) && Enabled(w, e) && JustBegun(w, x) && JustBegun(Next(w, e), x)
    ensures IsCancelled(Next(w, e).mem.operations, x) <==> IsCancelled(w.mem.operations, x) || CancelCommits(w, e, x)
  {
    if CancelCommits(w, e, x) {
      CancelIs(w, e, x);
    } else {
      NobodyElseCancels(w, e, x);
      if IsCancelled(w.mem.operations, x) {
        if Writes(e) { StillBegun(w, e, x); }
        if e.RecoverFinish? || e.EvidenceFinish? { NotTheSubject(w, e, x); }
        CancelledStays(w, e, x);
      }
    }
  }

  /** The second look finds an operation cancelled exactly if it was cancelled since its start. */
  lemma {:induction false} CancelledIffSinceBegin(run: Run, x: Id)
    requires Legal(run) && JustBegun(Now(run), x)
    ensures IsCancelled(Now(run).mem.operations, x) <==> CancelledSinceBegin(run, x)
  {
    var w := Now(run.past);
    if JustBegun(w, x) {
      CancelledIffSinceBegin(run.past, x);
      EveryRun(run.past);
      HandoverAlwaysOk(run.past);
      CancelledStep(w, run.event, x);
    } else {
      EveryRun(run.past);
      StartsUncancelled(w, run.event, x);
    }
  }

  lemma AbandonedStep(w: World, e: Event, x: Id)
    requires Enabled(w, e)
    ensures x in Next(w, e).env.abandoned <==>
            x in w.env.abandoned || (e.Reread? && JustBegun(w, x) && IsCancelled(w.mem.operations, x))
  {
    if Writes(e) { UpdateAbandonsNobody(w, e, TxOf(w, e)); }
  }

  lemma UpdateAbandonsNobody(w: World, e: Event, tx: Option<Store>)
    requires Writes(e)
    requires e.Intend? || e.RecordSource? || e.Dispatch? ==> w.env.worker.Busy?
    requires e.StartOne? ==> w.process.Starting?
    ensures Update(w, e, tx).env.abandoned == w.env.abandoned
  {
  }

  lemma {:induction false} AbandonedIffRaced(run: Run, x: Id)
    requires Legal(run)
    ensures x in Now(run).env.abandoned <==> Raced(run, x)
  {
    if run.Then? {
      AbandonedIffRaced(run.past, x);
      AbandonedStep(Now(run.past), run.event, x);
      if JustBegun(Now(run.past), x) { CancelledIffSinceBegin(run.past, x); }
    }
  }

  // ---------------------------------------------------------------------------
  // The results.

  /** While the controller is up and its store healthy, an unfinished operation that is out of
      the queue has no worker on it if and only if a cancellation took effect between its
      start and the worker's second look. */
  lemma {:induction false} OrphanIffRaced(run: Run, x: Id)
    requires Legal(run) && Now(run).process.Up? && !Now(run).poisoned
    ensures Orphan(Now(run), x) <==>
            x in Now(run).mem.operations && !Terminal(Now(run).mem.operations[x].state) && Raced(run, x)
  {
    HandoverAlwaysOk(run);
    AbandonedIffRaced(run, x);
    OrphanIn(Now(run), x);
  }

  lemma OrphanIn(w: World, x: Id)
    requires HandoverOk(w) && w.process.Up? && !w.poisoned
    ensures Orphan(w, x) <==> x in w.mem.operations && !Terminal(w.mem.operations[x].state) && x in w.env.abandoned
    ensures Orphan(w, x) ==> Forsaken(w.mem.operations[x])
  {
    assert Orphan(w, x) && x !in w.env.abandoned ==> Flying(w.mem.operations, w.env.abandoned, x);
  }

  /** Such an operation is cancel-requested; nothing was sent for it and no source update
      announced. */
  lemma {:induction false} OrphanIsForsaken(run: Run, x: Id)
    requires Legal(run) && Now(run).process.Up? && !Now(run).poisoned && Orphan(Now(run), x)
    ensures Forsaken(Now(run).mem.operations[x])
  {
    HandoverAlwaysOk(run);
    OrphanIn(Now(run), x);
  }

  lemma OrphanIsNoSubject(w: World, e: Event, x: Id)
    requires HandoverOk(w) && Enabled(w, e) && w.process.Up? && x != 0
    requires x in w.env.abandoned && IsCancelled(w.mem.operations, x)
    ensures Writes(e) ==> Subject(w, e) != x
  {
    if e.RecoverFinish? || e.EvidenceFinish? || e.Begin? { NotTheSubject(w, e, x); }
  }

  lemma OrphanStep(w: World, e: Event, x: Id)
    requires Inv(w) && HandoverOk(w) && Enabled(w, e) && w.process.Up? && !e.Crash?
    requires x in w.env.abandoned && IsCancelled(w.mem.operations, x)
    ensures x in Next(w, e).env.abandoned && IsCancelled(Next(w, e).mem.operations, x) && Next(w, e).process.Up?
  {
    AbandonedStep(w, e, x);
    StaysUp(w, e);
    OrphanIsNoSubject(w, e, x);
    CancelledStays(w, e, x);
  }

  /** It stays so until the process stops. */
  lemma {:induction false} OrphanUntilRestart(run: Run, later: Run, x: Id)
    requires Legal(later) && SameProcess(later, run)
    ensures Legal(run)
    ensures Now(run).process.Up? && x in Now(run).env.abandoned && IsCancelled(Now(run).mem.operations, x) ==>
              Now(later).process.Up? && x in Now(later).env.abandoned && IsCancelled(Now(later).mem.operations, x)
  {
    if later != run {
      OrphanUntilRestart(run, later.past, x);
      EveryRun(later.past);
      HandoverAlwaysOk(later.past);
      var w := Now(later.past);
      if w.process.Up? && x in w.env.abandoned && IsCancelled(w.mem.operations, x) {
        OrphanStep(w, later.event, x);
      }
    }
  }

  lemma OrphansAreUnfinished(s: Store, now: nat, orphans: set<Id>)
    requires OperationsOk(s.operations) && forall x | x in orphans :: IsCancelled(s.operations, x)
    ensures |orphans| <= |NonTerminal(Prune(s, now).operations)|
  {
    forall x | x in orphans ensures x in NonTerminal(Prune(s, now).operations) { PruneAgrees(s, now, x); }
    SubsetSize(orphans, NonTerminal(Prune(s, now).operations));
  }

  /** Such operations count against the queue depth: as many of them as the depth, and until
      the process stops nothing is queued under a new key, recoveries included. */
  lemma {:induction false} OrphansFillTheQueue(run: Run, later: Run, orphans: set<Id>, e: Event)
    requires Legal(run) && Legal(later) && SameProcess(later, run) && Now(run).process.Up?
    requires forall x | x in orphans :: x in Now(run).env.abandoned && IsCancelled(Now(run).mem.operations, x)
    requires |orphans| >= Now(later).depth
    requires e.Apply? && Enabled(Now(later), e) && e.key !in Prune(Now(later).mem, e.now).idempotency
    ensures TxOf(Now(later), e).None?
  {
    forall x | x in orphans ensures IsCancelled(Now(later).mem.operations, x) { OrphanUntilRestart(run, later, x); }
    OperationsSound(later);
    OrphansAreUnfinished(Now(later).mem, e.now, orphans);
    FullQueueRefuses(Now(later), e);
  }

  lemma {:induction false} OperationsSound(run: Run)
    requires Legal(run)
    ensures OperationsOk(Now(run).mem.operations)
  {
    EveryRun(run);
  }

  lemma FullQueueRefuses(w: World, e: Event)
    requires e.Apply? && Enabled(w, e) && e.key !in Prune(w.mem, e.now).idempotency
    requires |NonTerminal(Prune(w.mem, e.now).operations)| >= w.depth
    ensures TxOf(w, e).None?
  {
  }
}
