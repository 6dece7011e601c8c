/** What the records of the controller say: how every answer, failure and start is written
    down, and what the managed source holds when the adapter is called
    (internal/engine/engine.go, internal/domain/types.go). */
module ControllerResults {
  import opened Domain
  import opened RecoveryGraph
  import opened ControllerStore
  import opened ControllerTransactions
  import opened ControllerEvolution
  import opened ControllerMachine
  import opened ControllerInvariant
  import opened ControllerGuarantees
  import opened ControllerSteps

  /** `after` is `before` at its next revision, in this state and otherwise the same. */
  predicate Shows(before: Operation, after: Operation, state: State, recovery: bool, now: nat) {
    after == before.(state := state, recoveryRequired := recovery, revision := before.revision + 1, updatedAt := now)
  }

  /** The operation went from `before` to `after` as said, in memory and on disk. */
  predicate ShownIn(w: World, w': World, id: Id, state: State, recovery: bool, now: nat) {
    && id in w.mem.operations && id in w'.mem.operations && w'.mem == w'.disk
    && Shows(w.mem.operations[id], w'.mem.operations[id], state, recovery, now)
  }

  lemma JustTouched(t: Store, now: nat, id: Id)
    requires id in t.operations && t.operations[id].updatedAt == now
    ensures id in Prune(t, now).operations && Prune(t, now).operations[id] == t.operations[id]
  {
    RetainedIsLeast(t.operations, now);
    assert Live(t.operations[id], now);
  }

  /** How a result is written down: evidence work never requires recovery. */
  lemma FinishedShows(o: Operation, r: Outcome, now: nat)
    requires OutcomeOk(r) && Terminal(r.state)
    ensures if EvidenceAction(o.plan.draft.action)
            then Shows(o, Finished(o, r, now), if r.state.RecoveryRequired? then Failed else r.state, false, now)
            else Shows(o, Finished(o, r, now), r.state, r.state.RecoveryRequired?, now)
  {
  }

  /** Pruned after its transaction, the store holds the operation `e` reports on with its result. */
  predicate Leaves(w: World, e: Event, tx: Option<Store>)
    requires ReportingEvent(e) && Enabled(w, e)
  {
    tx.Some? ==>
      var id := Subject(w, e); var v := Prune(tx.value, e.now).operations;
      id in w.mem.operations && id in v && v[id] == Finished(w.mem.operations[id], Reported(w, e), e.now)
  }

  lemma ReportLeaves(w: World, e: Event, tx: Option<Store>)
    requires Inv(w) && ReportingEvent(e) && Enabled(w, e) && tx == TxOf(w, e)
    ensures Leaves(w, e, tx)
  {
    if tx.Some? {
      ReportLands(w, e, tx);
      JustTouched(tx.value, e.now, Subject(w, e));
    }
  }

  lemma {:induction false} EveryReportLeaves(run: Run, e: Event)
    requires Legal(Then(run, e)) && Writes(e) && ReportingEvent(e)
    ensures Leaves(Now(run), e, TxOf(Now(run), e))
  {
    EveryRun(run);
    ReportLeaves(Now(run), e, TxOf(Now(run), e));
  }

  /** But for evidence work, the operation of the worker is there to be completed. */
  lemma {:induction false} WorkIsRecorded(run: Run, e: Event)
    requires Legal(Then(run, e)) && FinishingEvent(e)
    ensures var w := Now(run); var id := w.env.worker.id;
            && w.env.worker.Busy? && Subject(w, e) == id
            && (id in w.mem.operations ==> w.mem.operations[id].plan == w.env.worker.plan)
            && (!EvidenceAction(w.env.worker.plan.draft.action) ==> TxOf(w, e).Some?)
  {
    EveryRun(run);
    WorkIsThere(Now(run), e);
  }

  lemma WorkIsThere(w: World, e: Event)
    requires Inv(w) && FinishingEvent(e) && Enabled(w, e)
    ensures var id := w.env.worker.id;
            && w.env.worker.Busy? && Subject(w, e) == id
            && (id in w.mem.operations ==> w.mem.operations[id].plan == w.env.worker.plan)
            && (!EvidenceAction(w.env.worker.plan.draft.action) ==> TxOf(w, e).Some?)
  {
    FinishingIs(w, e, TxOf(w, e));
    HeldIsKept(w, e.now);
    ReportLands(w, e, TxOf(w, e));
  }

  /** An update that left the store healthy was written. */
  lemma HealthyMeansWritten(w: World, e: Event, tx: Option<Store>)
    requires Writes(e) && !e.StartOne? && tx.Some?
    requires e.Intend? || e.RecordSource? || e.Dispatch? ==> w.env.worker.Busy?
    ensures !Update(w, e, tx).poisoned ==>
              Update(w, e, tx).mem == Prune(tx.value, e.now) && Update(w, e, tx).disk == Prune(tx.value, e.now)
  {
    UpdateCommits(w, e, tx);
  }

  lemma ResultShows(w: World, e: Event, tx: Option<Store>)
    requires FinishingEvent(e) && Writes(e) && Enabled(w, e) && tx == TxOf(w, e) && tx.Some? && Leaves(w, e, tx) && !Next(w, e).poisoned
    ensures var r := ResultOf(w, e); var id := w.env.worker.id;
            && id in w.mem.operations
            && if EvidenceAction(w.mem.operations[id].plan.draft.action)
               then ShownIn(w, Next(w, e), id, if r.state.RecoveryRequired? then Failed else r.state, false, e.now)
               else ShownIn(w, Next(w, e), id, r.state, r.state.RecoveryRequired?, e.now)
  {
    FinishingIs(w, e, tx);
    HealthyMeansWritten(w, e, tx);
    FinishedShows(w.mem.operations[w.env.worker.id], ResultOf(w, e), e.now);
  }

  lemma {:induction false} ResultIsRecorded(run: Run, e: Event)
    requires Legal(Then(run, e)) && FinishingEvent(e) && !Now(Then(run, e)).poisoned
    requires !EvidenceAction(Now(run).env.worker.plan.draft.action)
    ensures var w := Now(run); var r := ResultOf(w, e);
            w.env.worker.Busy? && ShownIn(w, Now(Then(run, e)), w.env.worker.id, r.state, r.state.RecoveryRequired?, e.now)
  {
    WorkIsRecorded(run, e);
    EveryReportLeaves(run, e);
    ResultShows(Now(run), e, TxOf(Now(run), e));
  }

  /** The record of an operation is what the adapter answered if that is final, and requires
      recovery exactly if the adapter said so or gave no final answer. */
  lemma {:induction false} AnswerIsRecorded(run: Run, e: Event)
    requires Legal(Then(run, e)) && e.Complete? && !Now(Then(run, e)).poisoned
    requires !EvidenceAction(Now(run).env.worker.plan.draft.action)
    ensures var w := Now(run);
            && w.env.worker.Busy? && w.env.worker.stage.Executing?
            && var answer := w.env.worker.stage.answer;
               ShownIn(w, Now(Then(run, e)), w.env.worker.id,
                 if Terminal(answer.state) then answer.state else RecoveryRequired,
                 !Terminal(answer.state) || answer.recoveryRequired,
                 e.now)
  {
    ResultIsRecorded(run, e);
  }

  /** So is every end without the adapter: a refusal or cancellation before any effect, a
      reconciliation, and a source update that failed, which requires recovery exactly if it
      may have taken effect. */
  lemma {:induction false} OtherEndIsRecorded(run: Run, e: Event)
    requires Legal(Then(run, e)) && (e.Abort? || e.Reconcile? || e.FailReplace?) && !Now(Then(run, e)).poisoned
    requires !EvidenceAction(Now(run).env.worker.plan.draft.action)
    ensures var w, w' := Now(run), Now(Then(run, e)); var id := w.env.worker.id;
            && w.env.worker.Busy?
            && (e.Abort? ==> ShownIn(w, w', id, e.state, false, e.now))
            && (e.Reconcile? ==> ShownIn(w, w', id, Succeeded, false, e.now))
            && (e.FailReplace? ==>
                  if w.env.worker.stage == ReplaceFailed(true) then ShownIn(w, w', id, RecoveryRequired, true, e.now)
                  else ShownIn(w, w', id, Failed, false, e.now))
  {
    ResultIsRecorded(run, e);
  }

  /** The result of evidence work, if it is recorded: a final answer that requires no recovery,
      or a failure. */
  lemma {:induction false} EvidenceIsRecorded(run: Run, e: Event)
    requires Legal(Then(run, e)) && e.Complete? && !Now(Then(run, e)).poisoned
    requires EvidenceAction(Now(run).env.worker.plan.draft.action)
    ensures var w, w' := Now(run), Now(Then(run, e)); var id := w.env.worker.id;
            && w.env.worker.Busy? && w.env.worker.stage.Executing?
            && var answer := w.env.worker.stage.answer;
               w'.mem == w.mem ||
               ShownIn(w, w', id, if Terminal(answer.state) && !answer.recoveryRequired then answer.state else Failed, false, e.now)
  {
    var w := Now(run);
    WorkIsRecorded(run, e);
    EveryReportLeaves(run, e);
    if TxOf(w, e).Some? {
      ResultShows(w, e, TxOf(w, e));
    } else {
      NothingToWrite(w, e, TxOf(w, e));
    }
  }

  lemma NothingToWrite(w: World, e: Event, tx: Option<Store>)
    requires FinishingEvent(e) && tx.None?
    ensures Update(w, e, tx).mem == w.mem
  {
    UpdateCommits(w, e, tx);
  }

  /** What a recovery request or an evidence inspection proved is recorded; only evidence work
      is asked about otherwise, and has then failed. */
  lemma {:induction false} InspectionIsRecorded(run: Run, e: Event)
    requires Legal(Then(run, e)) && (e.RecoverFinish? || e.EvidenceFinish?) && Committed(Now(run), TxOf(Now(run), e), e.write)
    ensures ShownIn(Now(run), Now(Then(run, e)), e.id, if e.outcome.recoveryRequired then Failed else e.outcome.state, false, e.now)
  {
    EveryReportLeaves(run, e);
    InspectionShows(Now(run), e, TxOf(Now(run), e));
  }

  lemma InspectionShows(w: World, e: Event, tx: Option<Store>)
    requires (e.RecoverFinish? || e.EvidenceFinish?) && Writes(e) && Enabled(w, e) && tx == TxOf(w, e)
    requires Committed(w, tx, e.write) && Leaves(w, e, tx)
    ensures ShownIn(w, Next(w, e), e.id, if e.outcome.recoveryRequired then Failed else e.outcome.state, false, e.now)
  {
    FinishedShows(w.mem.operations[e.id], e.outcome, e.now);
  }

  /** What startup records of an operation found unfinished: what the executor proved of a
      dispatched one; otherwise it requires recovery, or has failed if it was evidence work. */
  predicate RecordedAtStart(w: World, w': World, id: Id, inspected: Option<Outcome>, now: nat) {
    && id in w.mem.operations
    && var o := w.mem.operations[id];
       var proven := o.dispatched && inspected.Some? && Terminal(inspected.value.state);
       if EvidenceAction(o.plan.draft.action) then
         ShownIn(w, w', id, if proven && !inspected.value.recoveryRequired then inspected.value.state else Failed, false, now)
       else if proven then
         ShownIn(w, w', id, inspected.value.state, inspected.value.recoveryRequired, now)
       else
         ShownIn(w, w', id, RecoveryRequired, true, now)
  }

  lemma {:induction false} StartIsRecorded(run: Run, e: Event)
    requires Legal(Then(run, e)) && e.StartOne? && !Now(Then(run, e)).process.Down?
    ensures RecordedAtStart(Now(run), Now(Then(run, e)), e.id, e.inspected, e.now)
  {
    EveryReportLeaves(run, e);
    StartShows(Now(run), e, TxOf(Now(run), e));
    StartProves(Now(run), Now(Then(run, e)), e);
  }

  lemma StartProves(w: World, w': World, e: Event)
    requires e.StartOne? && Enabled(w, e)
    requires var r := StartOutcome(w.mem.operations[e.id], e.inspected);
             if EvidenceAction(w.mem.operations[e.id].plan.draft.action)
             then ShownIn(w, w', e.id, if r.state.RecoveryRequired? then Failed else r.state, false, e.now)
             else ShownIn(w, w', e.id, r.state, r.state.RecoveryRequired?, e.now)
    ensures RecordedAtStart(w, w', e.id, e.inspected, e.now)
  {
  }

  lemma StartCommits(w: World, e: Event, tx: Option<Store>)
    requires e.StartOne? && w.process.Starting? && !Update(w, e, tx).process.Down?
    ensures tx.Some? && Update(w, e, tx).mem == Prune(tx.value, e.now) && Update(w, e, tx).disk == Prune(tx.value, e.now)
  {
  }

  lemma StartShows(w: World, e: Event, tx: Option<Store>)
    requires e.StartOne? && Writes(e) && Enabled(w, e) && tx == TxOf(w, e) && Leaves(w, e, tx) && !Next(w, e).process.Down?
    ensures var r := StartOutcome(w.mem.operations[e.id], e.inspected);
            if EvidenceAction(w.mem.operations[e.id].plan.draft.action)
            then ShownIn(w, Next(w, e), e.id, if r.state.RecoveryRequired? then Failed else r.state, false, e.now)
            else ShownIn(w, Next(w, e), e.id, r.state, r.state.RecoveryRequired?, e.now)
  {
    ReportIs(w, e);
    StartCommits(w, e, tx);
    FinishedShows(w.mem.operations[e.id], Reported(w, e), e.now);
  }

  // ---------------------------------------------------------------------------
  // Starting.

  /** A queued operation the worker takes is started exactly if it is admitted and still
      authorized; otherwise it has failed, and nothing is sent. */
  lemma {:induction false} BeginDecides(run: Run, e: Event)
    requires Legal(Then(run, e)) && e.Begin? && !Now(Then(run, e)).poisoned
    ensures var w, w' := Now(run), Now(Then(run, e));
            && e.id in w.mem.operations && w.mem.operations[e.id].state.Queued?
            && var o := w.mem.operations[e.id];
               var started := Admits(w.mem.operations, OperationRoots(w.mem.operations), o.plan.draft, e.id) && e.authorized;
               && ShownIn(w, w', e.id, if started then Running else Failed, false, e.now)
               && w'.env.worker == if started then Busy(e.id, o.plan, Begun) else Free
  {
    QueuedIsThere(run, e);
    BeginShows(Now(run), e, TxOf(Now(run), e));
  }

  lemma {:induction false} QueuedIsThere(run: Run, e: Event)
    requires Legal(Then(run, e)) && e.Begin?
    ensures var w := Now(run); var p := Prune(w.mem, e.now); var o := w.mem.operations[e.id];
            && e.id in p.operations && p.operations[e.id] == o && !o.recoveryRequired
            && Admits(p.operations, OperationRoots(p.operations), o.plan.draft, e.id) ==
               Admits(w.mem.operations, OperationRoots(w.mem.operations), o.plan.draft, e.id)
  {
    EveryRun(run);
    var w := Now(run);
    PruneAgrees(w.mem, e.now, e.id);
    assert OperationOk(w.mem.operations[e.id], e.id);
    AdmissionSurvivesPruning(w.mem, e.now, w.mem.operations[e.id].plan.draft, e.id);
  }

  lemma BeginTxShows(p: Store, id: Id, authorized: bool, now: nat)
    requires id in p.operations && p.operations[id].state.Queued? && !p.operations[id].recoveryRequired
    ensures var o := p.operations[id]; var tx := BeginTx(p, id, authorized, now);
            && tx.Some? && id in Prune(tx.value, now).operations
            && tx.value.operations[id] == Prune(tx.value, now).operations[id]
            && Shows(o, tx.value.operations[id],
                 if Admits(p.operations, OperationRoots(p.operations), o.plan.draft, id) && authorized then Running else Failed, false, now)
  {
    JustTouched(BeginTx(p, id, authorized, now).value, now, id);
  }

  lemma BeginUpdates(w: World, e: Event, tx: Option<Store>)
    requires e.Begin? && tx.Some? && e.id in tx.value.operations && !w.poisoned
    ensures var w' := Update(w, e, tx);
            !w'.poisoned ==>
              && w'.mem == Prune(tx.value, e.now) && w'.disk == Prune(tx.value, e.now)
              && w'.env.worker == if tx.value.operations[e.id].state.Running? then Busy(e.id, tx.value.operations[e.id].plan, Begun) else Free
  {
  }

  lemma BeginShows(w: World, e: Event, tx: Option<Store>)
    requires e.Begin? && Enabled(w, e) && tx == TxOf(w, e) && !Next(w, e).poisoned
    requires var p := Prune(w.mem, e.now);
             e.id in p.operations && p.operations[e.id] == w.mem.operations[e.id] && !w.mem.operations[e.id].recoveryRequired
    ensures var o := w.mem.operations[e.id]; var p := Prune(w.mem, e.now);
            var started := Admits(p.operations, OperationRoots(p.operations), o.plan.draft, e.id) && e.authorized;
            && ShownIn(w, Next(w, e), e.id, if started then Running else Failed, false, e.now)
            && Next(w, e).env.worker == if started then Busy(e.id, o.plan, Begun) else Free
  {
    BeginTxShows(Prune(w.mem, e.now), e.id, e.authorized, e.now);
    BeginUpdates(w, e, tx);
  }

  // ---------------------------------------------------------------------------
  // The source.

  /** `c` is what draft `d` asks for: the fields it gives, and elsewhere what it was made
      against. */
  predicate CarriesOut(c: Configuration, d: Draft) {
    && c.resources == (if d.resources.Some? then d.resources.value else d.source.resources)
    && c.caches == (if d.caches.Some? then d.caches.value else d.source.caches)
    && c.serving.limits == (if d.serving.Some? then d.serving.value.limits else d.source.serving.limits)
    && c.serving.model == (if d.serving.Some? then d.serving.value.model
                           else if d.action.ServingConfigure? && d.model != 0 then d.model
                           else d.source.serving.model)
  }

  /** When the adapter is called, and while it is at work, the managed source has the value
      the draft gave for each field it gave, and is otherwise as the draft found it. */
  lemma {:induction false} SourceCarriesDraft(run: Run)
    requires Legal(run) && (At(Now(run), Dispatching) || AtExecution(Now(run)))
    ensures CarriesOut(Now(run).env.source, Now(run).env.worker.plan.draft)
  {
    WorkerIsOk(run);
  }
}
