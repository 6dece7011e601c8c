/** Two chains of undispatched operations that require recovery fence the controller for good:
    nothing is asked about them, and nothing that could resolve them is admitted
    (internal/engine/recovery.go). */
module ControllerDeadlock {
  import opened Domain
  import opened RecoveryGraph
  import opened ControllerStore
  import opened ControllerTransactions
  import opened ControllerEvolution
  import opened ControllerMachine
  import opened ControllerInvariant
  import opened ControllerSteps
  import opened ControllerHandover
  import opened ControllerRace
  import opened ControllerChains
  import opened ControllerLedger
  import opened ControllerRoutes

  /** Its success, if ever reported, would resolve nothing. */
  predicate Harmless(o: Operation) {
    o.plan.draft.parent == 0 || !o.dispatched
  }

  predicate Tamed(ops: Operations, inspecting: set<Id>) {
    forall x | x in ops && (InFlight(ops[x].state) || ops[x].recoveryRequired || x in inspecting) :: Harmless(ops[x])
  }

  predicate HeldApart(ops: Operations, a: Id, b: Id) {
    && Outstanding(ops, a) && Outstanding(ops, b) && !ops[a].dispatched && !ops[b].dispatched
    && !SameChain(OperationRoots(ops), a, b)
  }

  predicate JammedIn(ops: Operations, inspecting: set<Id>, a: Id, b: Id) {
    HeldApart(ops, a, b) && Tamed(ops, inspecting)
  }

  predicate Jammed(w: World, a: Id, b: Id) {
    JammedIn(w.mem.operations, w.env.inspecting, a, b) && JammedIn(w.disk.operations, {}, a, b)
  }

  // ---------------------------------------------------------------------------
  // Nothing that happens resolves either of them.

  lemma HeldIsRefresh(w: World, a: Id, b: Id)
    requires Inv(w) && Jammed(w, a, b) && w.env.worker.Busy?
    ensures w.env.worker.plan.draft.action.HardwareRefresh? && w.env.worker.plan.draft.parent == 0
    ensures w.env.worker.id != a && w.env.worker.id != b
    ensures w.env.worker.id in w.mem.operations ==> ParentOf(w.mem.operations, w.env.worker.id) == 0
  {
    var ops := w.mem.operations;
    assert OperationOk(ops[a], a) && OperationOk(ops[b], b);
    HeldFenced(ops, OperationRoots(ops), w.env.worker.id, w.env.worker.plan, a, b);
  }

  lemma HeldFenced(ops: Operations, roots: map<Id, Id>, id: Id, plan: Plan, a: Id, b: Id)
    requires HeldOk(ops, roots, id, plan) && Outstanding(ops, a) && Outstanding(ops, b) && !SameChain(roots, a, b)
    requires OperationOk(ops[a], a) && OperationOk(ops[b], b)
    ensures plan.draft.action.HardwareRefresh? && plan.draft.parent == 0 && id != a && id != b
  {
  }

  /** A success that is reported resolves nobody else. */
  predicate ResolvesNobody(w: World, e: Event, a: Id, b: Id)
    requires ReportingEvent(e) && Enabled(w, e)
  {
    var id := Subject(w, e);
    && id != a && id != b
    && (id in w.mem.operations && Reported(w, e).state.Succeeded? ==> ParentOf(w.mem.operations, id) == 0)
  }

  lemma FinishIsHarmless(w: World, e: Event, a: Id, b: Id)
    requires Inv(w) && Jammed(w, a, b) && FinishingEvent(e) && Enabled(w, e)
    ensures ResolvesNobody(w, e, a, b)
  {
    HeldIsRefresh(w, a, b);
  }

  lemma StartIsHarmless(w: World, e: Event, a: Id, b: Id)
    requires JammedIn(w.mem.operations, w.env.inspecting, a, b) && e.StartOne? && Enabled(w, e)
    requires OperationOk(w.mem.operations[a], a) && OperationOk(w.mem.operations[b], b) && InFlight(w.mem.operations[e.id].state)
    ensures ResolvesNobody(w, e, a, b)
  {
  }

  lemma AnswerIsHarmless(w: World, e: Event, a: Id, b: Id)
    requires JammedIn(w.mem.operations, w.env.inspecting, a, b) && (e.RecoverFinish? || e.EvidenceFinish?) && Enabled(w, e)
    requires OperationOk(w.mem.operations[a], a) && OperationOk(w.mem.operations[b], b)
    requires e.id in w.mem.operations ==> OperationOk(w.mem.operations[e.id], e.id)
    ensures ResolvesNobody(w, e, a, b)
  {
  }

  lemma ReportIsHarmless(w: World, e: Event, a: Id, b: Id)
    requires Inv(w) && Jammed(w, a, b) && ReportingEvent(e) && Enabled(w, e)
    ensures ResolvesNobody(w, e, a, b)
  {
    assert OperationOk(w.mem.operations[a], a) && OperationOk(w.mem.operations[b], b);
    if FinishingEvent(e) {
      FinishIsHarmless(w, e, a, b);
    } else if e.StartOne? {
      StartIsHarmless(w, e, a, b);
    } else {
      if e.id in w.mem.operations { assert OperationOk(w.mem.operations[e.id], e.id); }
      AnswerIsHarmless(w, e, a, b);
    }
  }

  lemma FinishTouchesOne(p: Store, id: Id, r: Outcome, now: nat)
    requires FinishTx(p, id, r, now).Some? && (r.state.Succeeded? ==> ParentOf(p.operations, id) == 0)
    ensures FinishTx(p, id, r, now).value.operations == p.operations[id := Finished(p.operations[id], r, now)]
  {
  }

  lemma MarksUntouched(p: Store, id: Id, authorized: bool, phase: Report, now: nat, x: Id)
    requires x != id && x in p.operations
    ensures BeginTx(p, id, authorized, now).Some? ==> x in BeginTx(p, id, authorized, now).value.operations && BeginTx(p, id, authorized, now).value.operations[x] == p.operations[x]
    ensures ProgressTx(p, id, phase, now).Some? ==> x in ProgressTx(p, id, phase, now).value.operations && ProgressTx(p, id, phase, now).value.operations[x] == p.operations[x]
    ensures SourceUpdatedTx(p, id, now).Some? ==> x in SourceUpdatedTx(p, id, now).value.operations && SourceUpdatedTx(p, id, now).value.operations[x] == p.operations[x]
  {
  }

  lemma ClientsUntouched(p: Store, e: Event, depth: nat, x: Id)
    requires x in p.operations && Terminal(p.operations[x].state)
    ensures e.Cancel? ==> var tx := CancelTx(p, e.id, e.revision, e.now);
              tx.Some? ==> x in tx.value.operations && tx.value.operations[x] == p.operations[x]
    ensures e.Apply? && x != e.newId ==> var tx := ApplyTx(p, e.planId, e.key, e.payload, e.newId, depth, e.permitted, e.now);
              tx.Some? ==> x in tx.value.operations && tx.value.operations[x] == p.operations[x]
  {
  }

  lemma OthersUntouched(w: World, e: Event, tx: Option<Store>, x: Id)
    requires Enabled(w, e) && Writes(e) && !ReportingEvent(e) && tx == TxOf(w, e) && tx.Some?
    requires x != Subject(w, e) && x in Prune(w.mem, e.now).operations && Terminal(Prune(w.mem, e.now).operations[x].state) && x in w.env.used
    ensures x in tx.value.operations && tx.value.operations[x] == Prune(w.mem, e.now).operations[x]
  {
    var p := Prune(w.mem, e.now);
    if MarkingEvent(e) {
      MarkIs(w, e, tx);
      MarksUntouched(p, w.env.worker.id, false, if e.Intend? then SourceIntent else if e.Dispatch? then DispatchIntent else OtherPhase, e.now, x);
    } else if e.Begin? {
      MarksUntouched(p, e.id, e.authorized, OtherPhase, e.now, x);
    } else {
      ClientsUntouched(p, e, w.depth, x);
    }
  }

  lemma ReportPasses(w: World, e: Event, tx: Option<Store>, a: Id, b: Id, x: Id)
    requires ReportingEvent(e) && Writes(e) && Enabled(w, e) && ResolvesNobody(w, e, a, b) && (x == a || x == b) && x in Prune(w.mem, e.now).operations
    requires tx == FinishTx(Prune(w.mem, e.now), Subject(w, e), Reported(w, e), e.now) && tx.Some?
    ensures x in tx.value.operations && tx.value.operations[x] == Prune(w.mem, e.now).operations[x]
  {
    FinishTouchesOne(Prune(w.mem, e.now), Subject(w, e), Reported(w, e), e.now);
  }

  lemma PassesBy(w: World, e: Event, tx: Option<Store>, a: Id, b: Id, x: Id)
    requires Inv(w) && Jammed(w, a, b) && (x == a || x == b) && Enabled(w, e) && Writes(e) && tx == TxOf(w, e) && tx.Some?
    requires x in Prune(w.mem, e.now).operations && Prune(w.mem, e.now).operations[x] == w.mem.operations[x]
    ensures x in tx.value.operations && tx.value.operations[x] == w.mem.operations[x]
  {
    if ReportingEvent(e) {
      ReportIs(w, e);
      ReportIsHarmless(w, e, a, b);
      ReportPasses(w, e, tx, a, b, x);
    } else {
      assert OperationOk(w.mem.operations[x], x);
      NotItsSubject(w, e, a, b, x);
      OthersUntouched(w, e, tx, x);
    }
  }

  lemma StaysOut(w: World, e: Event, tx: Option<Store>, a: Id, b: Id, x: Id)
    requires Inv(w) && Jammed(w, a, b) && (x == a || x == b) && Enabled(w, e) && Writes(e) && tx == TxOf(w, e) && tx.Some?
    ensures x in Prune(tx.value, e.now).operations && Prune(tx.value, e.now).operations[x] == w.mem.operations[x]
  {
    KeepsOutstanding(w.mem, e.now, x);
    PassesBy(w, e, tx, a, b, x);
    KeepsOutstanding(tx.value, e.now, x);
  }

  lemma NotItsSubject(w: World, e: Event, a: Id, b: Id, x: Id)
    requires Inv(w) && Jammed(w, a, b) && (x == a || x == b) && Enabled(w, e) && Writes(e) && !ReportingEvent(e)
    ensures Subject(w, e) != x
  {
    assert OperationOk(w.mem.operations[x], x);
    if MarkingEvent(e) {
      MarkIs(w, e, TxOf(w, e));
      HeldIsRefresh(w, a, b);
    }
  }

  lemma KeptIsClosed(ops: Operations, ops': Operations, subject: Id, kept: set<Id>)
    requires Lineal(ops) && Follows(ops, ops', subject) && kept == ops.Keys * ops'.Keys
    ensures AncestorClosed(ops, kept) && AncestorClosed(ops', kept)
  {
    forall id | id in kept && id in ops' && ParentOf(ops', id) in ops' ensures ParentOf(ops', id) in kept {
      assert OperationFollows(ops[id], ops'[id], id == subject);
      assert LinealOk(ops, ops[id]);
    }
  }

  lemma SamePlansKept(ops: Operations, ops': Operations, subject: Id, kept: set<Id>)
    requires Follows(ops, ops', subject) && kept == ops.Keys * ops'.Keys
    ensures OperationRoots(Restrict(ops, kept)) == OperationRoots(Restrict(ops', kept))
  {
    forall id | id in kept ensures ops'[id].plan == ops[id].plan {
      assert OperationFollows(ops[id], ops'[id], id == subject);
    }
    SamePlansSameRoots(Restrict(ops, kept), Restrict(ops', kept));
  }

  /** Every operation recorded before and after resolves as it did. */
  lemma RootsAgree(ops: Operations, ops': Operations, subject: Id, a: Id, b: Id)
    requires OperationsOk(ops) && OperationsOk(ops') && Follows(ops, ops', subject)
    requires a in ops && a in ops' && b in ops && b in ops'
    ensures SameChain(OperationRoots(ops'), a, b) <==> SameChain(OperationRoots(ops), a, b)
  {
    var kept := ops.Keys * ops'.Keys;
    KeptIsClosed(ops, ops', subject, kept);
    SamePlansKept(ops, ops', subject, kept);
    RestrictedChain(ops, kept, a, b);
    RestrictedChain(ops', kept, a, b);
  }

  lemma RestrictedChain(ops: Operations, kept: set<Id>, a: Id, b: Id)
    requires 0 !in ops && AncestorClosed(ops, kept) && a in kept && b in kept
    ensures SameChain(OperationRoots(Restrict(ops, kept)), a, b) <==> SameChain(OperationRoots(ops), a, b)
  {
    RestrictKeepsRoots(ops, kept);
  }

  lemma StaysApart(w: World, e: Event, tx: Option<Store>, a: Id, b: Id)
    requires Inv(w) && Jammed(w, a, b) && Enabled(w, e) && Writes(e) && tx == TxOf(w, e) && tx.Some?
    ensures HeldApart(Prune(tx.value, e.now).operations, a, b)
  {
    StaysOut(w, e, tx, a, b, a);
    StaysOut(w, e, tx, a, b, b);
    StepLands(w, e, tx);
    RootsAgree(w.mem.operations, Prune(tx.value, e.now).operations, Subject(w, e), a, b);
  }

  // ---------------------------------------------------------------------------
  // Nothing comes to be dispatched that could.

  lemma SubjectHarmless(w: World, e: Event, a: Id, b: Id)
    requires Inv(w) && Jammed(w, a, b) && Enabled(w, e) && Writes(e) && TxOf(w, e).Some?
    ensures var v, x := Attempt(w, e), Subject(w, e);
            x in v && (InFlight(v[x].state) || v[x].recoveryRequired || x in w.env.inspecting) ==> Harmless(v[x])
  {
    var v, x := Attempt(w, e), Subject(w, e);
    StepLands(w, e, TxOf(w, e));
    if x in v {
      if e.Begin? {
        BegunMarks(w, e);
      } else if MarkingEvent(e) {
        MarkIs(w, e, TxOf(w, e));
        HeldIsRefresh(w, a, b);
        assert OperationFollows(w.mem.operations[x], v[x], true);
      } else {
        ReportLeavesDispatch(w, e, TxOf(w, e), x);
        assert OperationOk(w.mem.operations[x], x);
        StaysHarmless(w.mem.operations[x], v[x], x, x in w.env.inspecting);
      }
    }
  }

  lemma BegunMarks(w: World, e: Event)
    requires Inv(w) && Enabled(w, e) && e.Begin? && TxOf(w, e).Some?
    ensures e.id in Attempt(w, e) ==> !Attempt(w, e)[e.id].dispatched
  {
    PruneAgrees(w.mem, e.now, e.id);
    assert OperationOk(w.mem.operations[e.id], e.id);
  }

  lemma StaysHarmless(a: Operation, b: Operation, id: Id, inspected: bool)
    requires OperationOk(a, id) && OperationFollows(a, b, true) && b.dispatched == a.dispatched
    requires InFlight(a.state) || a.recoveryRequired || inspected ==> Harmless(a)
    ensures InFlight(b.state) || b.recoveryRequired || inspected ==> Harmless(b)
  {
  }

  lemma ReportLeavesDispatch(w: World, e: Event, tx: Option<Store>, x: Id)
    requires Enabled(w, e) && ReportingEvent(e) && Writes(e) && tx == TxOf(w, e) && tx.Some? && x == Subject(w, e) && Inv(w)
    ensures x in w.mem.operations && Follows(w.mem.operations, Prune(tx.value, e.now).operations, x)
    ensures x in Prune(tx.value, e.now).operations ==> Prune(tx.value, e.now).operations[x].dispatched == w.mem.operations[x].dispatched
  {
    ReportLands(w, e, tx);
  }

  lemma StaysTamed(w: World, e: Event, a: Id, b: Id)
    requires Inv(w) && Jammed(w, a, b) && Enabled(w, e) && Writes(e) && TxOf(w, e).Some?
    ensures Tamed(Attempt(w, e), w.env.inspecting)
  {
    StepLands(w, e, TxOf(w, e));
    SubjectHarmless(w, e, a, b);
    TamedFollows(w.mem.operations, Attempt(w, e), Subject(w, e), w.env.inspecting, w.env.used);
  }

  lemma TamedFollows(ops: Operations, v: Operations, s: Id, inspecting: set<Id>, used: set<Id>)
    requires Follows(ops, v, s) && Tamed(ops, inspecting) && inspecting <= used
    requires forall x | x in v && x !in ops :: x !in used
    requires s in v && (InFlight(v[s].state) || v[s].recoveryRequired || s in inspecting) ==> Harmless(v[s])
    ensures Tamed(v, inspecting)
  {
    forall x | x in v && (InFlight(v[x].state) || v[x].recoveryRequired || x in inspecting) ensures Harmless(v[x]) {
      assert OperationOk(v[x], x);
      if x != s && x in ops { assert OperationFollows(ops[x], v[x], false); }
    }
  }

  // ---------------------------------------------------------------------------
  // For good.

  lemma InspectingAfter(w: World, e: Event, tx: Option<Store>)
    requires Writes(e)
    requires e.Intend? || e.RecordSource? || e.Dispatch? ==> w.env.worker.Busy?
    requires e.StartOne? ==> w.process.Starting?
    ensures Update(w, e, tx).env.inspecting <= w.env.inspecting
  {
  }

  lemma FewerInspected(ops: Operations, inspecting: set<Id>, fewer: set<Id>, a: Id, b: Id)
    requires JammedIn(ops, inspecting, a, b) && fewer <= inspecting
    ensures JammedIn(ops, fewer, a, b)
  {
  }

  lemma WriteJams(w: World, e: Event, a: Id, b: Id)
    requires Inv(w) && Jammed(w, a, b) && Enabled(w, e) && Writes(e)
    ensures Jammed(Next(w, e), a, b)
  {
    var fewer := Next(w, e).env.inspecting;
    InspectingAfter(w, e, TxOf(w, e));
    StoresAfter(w, e);
    if Takes(w, e) {
      StaysApart(w, e, TxOf(w, e), a, b);
      StaysTamed(w, e, a, b);
      FewerInspected(Attempt(w, e), w.env.inspecting, fewer, a, b);
      FewerInspected(Attempt(w, e), w.env.inspecting, {}, a, b);
    }
    FewerInspected(w.mem.operations, w.env.inspecting, fewer, a, b);
  }

  lemma QuietJams(w: World, e: Event, a: Id, b: Id)
    requires Inv(w) && Jammed(w, a, b) && Enabled(w, e) && !Writes(e)
    ensures Jammed(Next(w, e), a, b)
  {
    if e.RecoverRead? {
      InspectedIsTamed(w, e.id);
    } else {
      QuietInspects(w, e);
      FewerInspected(w.mem.operations, w.env.inspecting, {}, a, b);
    }
  }

  lemma QuietInspects(w: World, e: Event)
    requires Enabled(w, e) && !Writes(e) && !e.RecoverRead?
    ensures var w' := Next(w, e);
            && w'.disk == w.disk
            && ((w'.mem == w.mem && w'.env.inspecting == w.env.inspecting) || (w'.mem == w.disk && w'.env.inspecting == {}))
  {
  }

  lemma InspectedIsTamed(w: World, id: Id)
    requires Enabled(w, RecoverRead(id)) && Tamed(w.mem.operations, w.env.inspecting)
    ensures Tamed(w.mem.operations, w.env.inspecting + {id})
  {
  }

  lemma StepJams(w: World, e: Event, a: Id, b: Id)
    requires Inv(w) && Jammed(w, a, b) && Enabled(w, e)
    ensures Jammed(Next(w, e), a, b)
  {
    if Writes(e) { WriteJams(w, e, a, b); } else { QuietJams(w, e, a, b); }
  }

  /** Whatever happens from then on, restarts included, both still require recovery, in
      different chains, and nothing but a hardware refresh is ever executed. */
  lemma {:induction false} FencedForGood(run: Run, later: Run, a: Id, b: Id)
    requires Legal(later) && Extends(later, run)
    ensures Legal(run)
    ensures Jammed(Now(run), a, b) ==>
              && Jammed(Now(later), a, b)
              && (Now(later).env.worker.Busy? ==> Now(later).env.worker.plan.draft.action.HardwareRefresh?)
  {
    if later != run {
      FencedForGood(run, later.past, a, b);
      EveryRun(later.past);
      if Jammed(Now(later.past), a, b) { StepJams(Now(later.past), later.event, a, b); }
    }
    EveryRun(later);
    if Jammed(Now(later), a, b) && Now(later).env.worker.Busy? { HeldIsRefresh(Now(later), a, b); }
  }

  /** A run from a fresh start that leads there. */
  lemma AbandonmentIsForGood(source: Configuration) returns (run: Run)
    ensures Split(run, 1, 2) && Jammed(Now(run), 1, 2)
  {
    run := AbandonmentRoute(source);
    MemoryIsDisk(run);
  }

  /** And so does a restore of a reconciliation: neither was dispatched. */
  lemma RestoreIsForGood(source: Configuration) returns (run: Run)
    ensures Split(run, 1, 3) && Jammed(Now(run), 2, 3)
  {
    run := RestoreRoute(source);
    MemoryIsDisk(run);
    LooseIsJammed(Now(run).mem.operations, Now(run).env.inspecting, source);
    LooseIsJammed(Now(run).mem.operations, {}, source);
  }

  lemma LooseIsJammed(ops: Operations, inspecting: set<Id>, source: Configuration)
    requires ThreeLost(ops, source) && 3 !in OperationRoots(ops)
    ensures JammedIn(ops, inspecting, 2, 3)
  {
  }
}
