/** What any one transaction of the controller does to the recorded operations, whatever
    event it belongs to. */
module ControllerSteps {
  import opened Domain
  import opened RecoveryGraph
  import opened ControllerStore
  import opened ControllerTransactions
  import opened ControllerEvolution
  import opened ControllerMachine
  import opened ControllerInvariant

  /** The operation an event is about; cancellations and new operations are about none. */
  function Subject(w: World, e: Event): Id
    requires Enabled(w, e) && Writes(e)
  {
    if e.CreatePlan? || e.Apply? || e.Cancel? then 0
    else if e.StartOne? || e.RecoverFinish? || e.EvidenceFinish? || e.Begin? then e.id
    else w.env.worker.id
  }

  /** Pruned after the transaction, `t` is a permitted successor of `s`, and what is new in it
      is new altogether. */
  predicate LandsOn(s: Store, now: nat, t: Store, subject: Id, used: set<Id>) {
    var v := Prune(t, now);
    && Follows(s.operations, v.operations, subject)
    && OperationsOk(v.operations)
    && (forall id | id in v.operations && id !in s.operations :: id !in used)
    && forall id | id in v.operations :: id in t.operations && v.operations[id] == t.operations[id]
  }

  lemma TransactionLands(s: Store, now: nat, t: Store, subject: Id, env: Env, env': Env)
    requires RecordsOk(s, env) && TransactionOk(s, now, t, subject, env, env')
    ensures LandsOn(s, now, t, subject, env.used)
  {
    UpdateKeepsRecords(s, now, t, subject, env, env');
    PrunedIds(s, now, t, env.used);
  }

  lemma ClientLands(w: World, e: Event, tx: Option<Store>)
    requires Inv(w) && Enabled(w, e) && (e.CreatePlan? || e.Apply? || e.Cancel?) && tx == TxOf(w, e) && tx.Some?
    ensures LandsOn(w.mem, e.now, tx.value, 0, w.env.used)
  {
    var p := Prune(w.mem, e.now);
    match e
    case CreatePlan(_, _, now, _) =>
      PruneFollows(w.mem, now);
      RewriteFollows(p.operations, p.operations, 0);
      TransactionLands(w.mem, now, tx.value, 0, w.env, w.env);
    case Apply(_, _, _, newId, _, now, _) =>
      var env' := w.env.(used := w.env.used + {newId});
      ApplyIsOk(w.mem, e, w.depth, w.env, env', tx.value);
      TransactionLands(w.mem, now, tx.value, 0, w.env, env');
    case Cancel(id, revision, now, _) =>
      PruneFollows(w.mem, now);
      CancelFollows(p, id, revision, now);
      TransactionLands(w.mem, now, tx.value, 0, w.env, w.env);
  }

  lemma FinishLands(w: World, id: Id, r: Outcome, now: nat)
    requires RecordsOk(w.mem, w.env) && EnvOk(w.env) && OutcomeOk(r) && Terminal(r.state)
    requires id in w.mem.operations && r.recoveryRequired ==>
               !Terminal(w.mem.operations[id].state) || EvidenceAction(w.mem.operations[id].plan.draft.action)
    ensures var tx := FinishTx(Prune(w.mem, now), id, r, now);
            && (tx.None? ==> id !in Prune(w.mem, now).operations)
            && (tx.Some? ==>
                  && LandsOn(w.mem, now, tx.value, id, w.env.used)
                  && id in w.mem.operations && id in tx.value.operations
                  && tx.value.operations[id] == Finished(w.mem.operations[id], r, now))
  {
    FinishIsOk(w.mem, id, r, now, w.env);
    var tx := FinishTx(Prune(w.mem, now), id, r, now);
    if tx.Some? { TransactionLands(w.mem, now, tx.value, id, w.env, w.env); }
  }

  predicate ReportingEvent(e: Event) {
    FinishingEvent(e) || e.StartOne? || e.RecoverFinish? || e.EvidenceFinish?
  }

  /** The result an event reports. */
  function Reported(w: World, e: Event): Outcome
    requires ReportingEvent(e) && Enabled(w, e)
  {
    if FinishingEvent(e) then ResultOf(w, e)
    else if e.StartOne? then StartOutcome(w.mem.operations[e.id], e.inspected)
    else e.outcome
  }

  lemma ReportIs(w: World, e: Event)
    requires ReportingEvent(e) && Enabled(w, e)
    ensures OutcomeOk(Reported(w, e)) && Terminal(Reported(w, e).state)
    ensures TxOf(w, e) == FinishTx(Prune(w.mem, e.now), Subject(w, e), Reported(w, e), e.now)
  {
    if FinishingEvent(e) { FinishingIs(w, e, TxOf(w, e)); }
  }

  lemma ReportIsAllowed(w: World, e: Event)
    requires Inv(w) && ReportingEvent(e) && Enabled(w, e)
    ensures var id := Subject(w, e);
            id in w.mem.operations && Reported(w, e).recoveryRequired ==>
              InFlight(w.mem.operations[id].state) || EvidenceAction(w.mem.operations[id].plan.draft.action)
  {
    if FinishingEvent(e) {
      FinishingIs(w, e, TxOf(w, e));
      if w.env.worker.id in w.mem.operations { HeldInFlight(w); }
    }
  }

  lemma HeldInFlight(w: World)
    requires Inv(w) && w.env.worker.Busy? && w.env.worker.id in w.mem.operations
    ensures var o := w.mem.operations[w.env.worker.id]; InFlight(o.state) || EvidenceAction(o.plan.draft.action)
  {
  }

  /** What a report leads to. */
  lemma ReportLands(w: World, e: Event, tx: Option<Store>)
    requires Inv(w) && ReportingEvent(e) && Enabled(w, e) && tx == TxOf(w, e)
    ensures var id := Subject(w, e);
            && (tx.None? ==> id !in Prune(w.mem, e.now).operations)
            && (tx.Some? ==>
                  && LandsOn(w.mem, e.now, tx.value, id, w.env.used)
                  && id in w.mem.operations && id in tx.value.operations
                  && tx.value.operations[id] == Finished(w.mem.operations[id], Reported(w, e), e.now))
  {
    ReportIs(w, e);
    ReportIsAllowed(w, e);
    FinishLands(w, Subject(w, e), Reported(w, e), e.now);
  }

  predicate MarkingEvent(e: Event) {
    e.Intend? || e.RecordSource? || e.Dispatch? || e.ReportPhase?
  }

  /** A phase recorded by the worker leaves the state of its operation as it was. */
  predicate Marks(a: Operation, b: Operation, e: Event) {
    b.state == a.state && b.recoveryRequired == a.recoveryRequired && (e.Dispatch? || b.dispatched == a.dispatched)
  }

  lemma MarkIs(w: World, e: Event, tx: Option<Store>)
    requires MarkingEvent(e) && Enabled(w, e) && tx == TxOf(w, e)
    ensures var id := w.env.worker.id; var p := Prune(w.mem, e.now);
            && w.process.Up? && w.env.worker.Busy? && Subject(w, e) == id
            && (tx.None? <==> id !in p.operations)
            && (tx.Some? ==> id in tx.value.operations && Marks(p.operations[id], tx.value.operations[id], e))
            && tx == (if e.RecordSource? then SourceUpdatedTx(p, id, e.now)
                      else ProgressTx(p, id, if e.Intend? then SourceIntent else if e.Dispatch? then DispatchIntent else OtherPhase, e.now))
  {
  }

  lemma MarkIsOk(w: World, e: Event, tx: Option<Store>)
    requires Inv(w) && MarkingEvent(e) && Enabled(w, e) && tx == TxOf(w, e) && tx.Some?
    ensures TransactionOk(w.mem, e.now, tx.value, w.env.worker.id, w.env, w.env)
  {
    MarkIs(w, e, tx);
    if e.RecordSource? {
      SourceUpdatedIsOk(w, e.now);
    } else if e.Intend? {
      var plan := w.env.worker.plan;
      if !ConfigureAction(plan.draft.action) { OnlyConfigureChangesSource(plan.draft.source, plan.draft); }
      ProgressIsOk(w, SourceIntent, e.now);
    } else if e.Dispatch? {
      ProgressIsOk(w, DispatchIntent, e.now);
    } else {
      ProgressIsOk(w, OtherPhase, e.now);
    }
  }

  lemma MarkLands(w: World, e: Event, tx: Option<Store>)
    requires Inv(w) && MarkingEvent(e) && Enabled(w, e) && tx == TxOf(w, e) && tx.Some?
    ensures LandsOn(w.mem, e.now, tx.value, w.env.worker.id, w.env.used)
  {
    MarkIsOk(w, e, tx);
    TransactionLands(w.mem, e.now, tx.value, w.env.worker.id, w.env, w.env);
  }

  lemma BeginLands(w: World, e: Event, tx: Option<Store>)
    requires Inv(w) && e.Begin? && Enabled(w, e) && tx == TxOf(w, e)
    ensures tx.Some? && LandsOn(w.mem, e.now, tx.value, e.id, w.env.used)
  {
    PruneAgrees(w.mem, e.now, e.id);
    BeginIsOk(w, e.id, e.authorized, e.now);
    TransactionLands(w.mem, e.now, tx.value, e.id, w.env, w.env);
  }

  /** Every transaction lands on a permitted successor of the operations in memory. */
  lemma StepLands(w: World, e: Event, tx: Option<Store>)
    requires Inv(w) && Enabled(w, e) && Writes(e) && tx == TxOf(w, e) && tx.Some?
    ensures LandsOn(w.mem, e.now, tx.value, Subject(w, e), w.env.used)
  {
    if ReportingEvent(e) {
      ReportLands(w, e, tx);
    } else if MarkingEvent(e) {
      MarkIs(w, e, tx);
      MarkLands(w, e, tx);
    } else if e.Begin? {
      BeginLands(w, e, tx);
    } else {
      ClientLands(w, e, tx);
    }
  }
}
