/** When the controller's outstanding recoveries form one chain, when they do not, and what
    its admission then lets in (internal/engine/recovery.go, internal/engine/engine.go). */
module ControllerChains {
  import opened Domain
  import opened RecoveryGraph
  import opened ControllerStore
  import opened ControllerTransactions
  import opened ControllerEvolution
  import opened ControllerMachine
  import opened ControllerInvariant
  import opened ControllerGuarantees
  import opened ControllerSteps
  import opened ControllerHandover
  import opened ControllerRace

  predicate Outstanding(ops: Operations, k: Id) {
    k in ops && ops[k].recoveryRequired
  }

  /** All operations that require recovery lie in one chain, which resolves. */
  predicate OneChain(ops: Operations, roots: map<Id, Id>) {
    forall a, b | a in ops && b in ops && Outstanding(ops, a) && Outstanding(ops, b) :: SameChain(roots, a, b)
  }

  predicate OneChainIn(ops: Operations) {
    OneChain(ops, OperationRoots(ops))
  }

  // ---------------------------------------------------------------------------
  // What is admitted.

  /** With two chains outstanding, admission refuses everything but a hardware refresh, and so
      every recovery. */
  lemma TwoChainsAdmitNothing(ops: Operations, roots: map<Id, Id>, a: Id, b: Id, d: Draft, executing: Id)
    requires Outstanding(ops, a) && Outstanding(ops, b) && !SameChain(roots, a, b)
    requires !d.action.HardwareRefresh? && executing != a && executing != b
    ensures !Admits(ops, roots, d, executing)
  {
  }

  predicate AttemptInChain(ops: Operations, roots: map<Id, Id>, id: Id) {
    exists k | k in ops :: !Terminal(ops[k].state) && ParentOf(ops, k) != 0 && SameChain(roots, id, k)
  }

  /** With one chain outstanding, admission is exact: a recovery naming any of its operations
      that require recovery, with their target and no other attempt under way, or a hardware
      refresh; with none outstanding, anything that names no operation. */
  lemma AdmissionInOneChain(ops: Operations, d: Draft)
    requires OperationsOk(ops) && OneChainIn(ops)
    ensures Admits(ops, OperationRoots(ops), d, 0) <==>
            if exists k | k in ops :: Outstanding(ops, k) then
              || (d.action.HardwareRefresh? && d.parent == 0)
              || (&& Outstanding(ops, d.parent) && RecoveryAction(d.action)
                  && ops[d.parent].plan.draft.target == d.target
                  && !AttemptInChain(ops, OperationRoots(ops), d.parent))
            else d.parent == 0
  {
    var roots := OperationRoots(ops);
    if Outstanding(ops, d.parent) { assert SameChain(roots, d.parent, d.parent); }
    if exists k | k in ops :: Outstanding(ops, k) {
      var k :| k in ops && Outstanding(ops, k);
      if Outstanding(ops, d.parent) { assert SameChain(roots, d.parent, k); }
    }
  }

  // ---------------------------------------------------------------------------
  // Roots.

  /** A restore names an operation with host effects. */
  predicate LinkFits(ops: Operations, x: Id) {
    x in ops &&
    (ParentOf(ops, x) != 0 && ops[x].plan.draft.action.ProfileRestore? ==>
       ParentOf(ops, x) in ops && HostRestoreRequired(ops[ParentOf(ops, x)].plan.draft.action))
  }

  lemma FittingLinkIsOk(ops: Operations, x: Id)
    requires x in ops && OperationOk(ops[x], x) && LinealOk(ops, ops[x])
    ensures LinkOk(OperationLinks(ops), x) <==> LinkFits(ops, x)
  {
  }

  /** Where an operation's own chain starts. */
  lemma RootOf(ops: Operations, x: Id)
    requires OperationsOk(ops) && x in ops
    ensures var roots := OperationRoots(ops);
            && (x in roots <==> LinkFits(ops, x))
            && (x in roots && ParentOf(ops, x) == 0 ==> roots[x] == x)
            && (x in roots && ParentOf(ops, x) != 0 ==> ParentOf(ops, x) in roots && roots[x] == roots[ParentOf(ops, x)])
  {
    assert OperationOk(ops[x], x) && LinealOk(ops, ops[x]);
    FittingLinkIsOk(ops, x);
    RootStep(OperationLinks(ops), x);
    if ParentOf(ops, x) != 0 { assert ParentOf(ops, x) in OperationRoots(ops); }
  }

  lemma {:induction false} LineageEndsFinished(ops: Operations, path: seq<Id>)
    requires Lineal(ops) && Lineage(OperationLinks(ops), path) && |path| > 1
    ensures path[|path| - 1] in ops && Terminal(ops[path[|path| - 1]].state)
  {
    assert LinealOk(ops, ops[path[0]]);
    if |path| > 2 { LineageEndsFinished(ops, path[1..]); }
  }

  /** The root of another operation is finished: it required recovery when it was named. */
  lemma ForeignRootIsFinished(ops: Operations, k: Id)
    requires Lineal(ops) && k in OperationRoots(ops) && OperationRoots(ops)[k] != k
    ensures var x := OperationRoots(ops)[k]; x in ops && Terminal(ops[x].state)
  {
    var x := OperationRoots(ops)[k];
    RootIffLineage(OperationLinks(ops), k, x);
    var path :| LineageFromTo(OperationLinks(ops), path, k, x);
    LineageEndsFinished(ops, path);
  }

  // ---------------------------------------------------------------------------
  // An operation comes to require recovery.

  /** `x` joins what is outstanding: its own link is sound, and whatever else requires recovery
      is in the chain of the operation it recovers. */
  predicate Fits(ops: Operations, roots: map<Id, Id>, x: Id) {
    && LinkFits(ops, x)
    && forall k | k in ops && k != x && Outstanding(ops, k) :: ParentOf(ops, x) != 0 && SameChain(roots, ParentOf(ops, x), k)
  }

  /** `ops'` differs from `ops` in that `x` requires recovery, but for operations dropped or
      rewritten that do not. */
  ghost predicate Joins(ops: Operations, ops': Operations, x: Id) {
    && x in ops && x in ops' && !Terminal(ops[x].state) && ops'[x].recoveryRequired
    && (forall k | k in ops' :: k in ops && ops'[k].plan == ops[k].plan)
    && (forall k | k != x :: Outstanding(ops, k) <==> Outstanding(ops', k))
  }

  lemma SameRootsKept(ops: Operations, ops': Operations)
    requires OperationsOk(ops) && AncestorClosed(ops, ops'.Keys) && forall k | k in ops' :: k in ops && ops'[k].plan == ops[k].plan
    ensures OperationRoots(ops') == map id | id in OperationRoots(ops) && id in ops' :: OperationRoots(ops)[id]
  {
    RestrictKeepsRoots(ops, ops'.Keys);
    SamePlansSameRoots(Restrict(ops, ops'.Keys), ops');
  }

  lemma JoinsRoots(ops: Operations, roots: map<Id, Id>, x: Id)
    requires OperationsOk(ops) && roots == OperationRoots(ops) && x in ops && !Terminal(ops[x].state)
    ensures Fits(ops, roots, x) <==> x in roots && forall k | k in ops && k != x && Outstanding(ops, k) :: SameChain(roots, x, k)
  {
    RootOf(ops, x);
    if x in roots && ParentOf(ops, x) == 0 {
      forall k | k in roots && k != x && roots[k] == x ensures false { ForeignRootIsFinished(ops, k); }
    }
  }

  /** The same, of any roots. */
  lemma JoinsChain(ops: Operations, roots: map<Id, Id>, ops': Operations, roots': map<Id, Id>, x: Id)
    requires Joins(ops, ops', x) && !Outstanding(ops, x)
    requires roots' == map id | id in roots && id in ops' :: roots[id]
    ensures OneChain(ops', roots') <==>
            OneChain(ops, roots) && x in roots && forall k | k in ops && k != x && Outstanding(ops, k) :: SameChain(roots, x, k)
  {
    assert Outstanding(ops', x);
    if OneChain(ops', roots') {
      assert SameChain(roots', x, x);
      forall a, b | a in ops && b in ops && Outstanding(ops, a) && Outstanding(ops, b) ensures SameChain(roots, a, b) {
        assert SameChain(roots', a, b);
      }
      forall k | k in ops && k != x && Outstanding(ops, k) ensures SameChain(roots, x, k) {
        assert SameChain(roots', x, k);
      }
    }
  }

  /** After `x` has come to require recovery there is one chain if and only if there was one
      and `x` fits. */
  lemma JoinsExactly(ops: Operations, ops': Operations, x: Id)
    requires OperationsOk(ops) && AncestorClosed(ops, ops'.Keys) && Joins(ops, ops', x)
    requires !Outstanding(ops, x)
    ensures OneChainIn(ops') <==> OneChainIn(ops) && Fits(ops, OperationRoots(ops), x)
  {
    SameRootsKept(ops, ops');
    JoinsRoots(ops, OperationRoots(ops), x);
    JoinsChain(ops, OperationRoots(ops), ops', OperationRoots(ops'), x);
  }

  /** What requires recovery, and required it before, stays in one chain. */
  lemma StaysOneChain(ops: Operations, ops': Operations, subject: Id)
    requires OperationsOk(ops) && Follows(ops, ops', subject) && OneChainIn(ops)
    requires Outstanding(ops', subject) ==> Outstanding(ops, subject)
    ensures OneChainIn(ops')
  {
    FollowsKeepsRoots(ops, ops', subject);
    forall k | Outstanding(ops', k) ensures Outstanding(ops, k) {
      assert OperationOk(ops'[k], k);
      if k in ops { assert OperationFollows(ops[k], ops'[k], k == subject); }
    }
    forall a, b | a in ops' && b in ops' && Outstanding(ops', a) && Outstanding(ops', b)
      ensures SameChain(OperationRoots(ops'), a, b)
    {
      assert SameChain(OperationRoots(ops), a, b);
    }
  }

  // ---------------------------------------------------------------------------
  // Events that make an operation require recovery.

  /** What an event leaves, if its write takes effect. */
  function Attempt(w: World, e: Event): Operations
    requires Enabled(w, e) && Writes(e) && TxOf(w, e).Some?
  {
    Prune(TxOf(w, e).value, e.now).operations
  }

  /** The write of the event takes effect, reported or not. */
  predicate Takes(w: World, e: Event) {
    Enabled(w, e) && Writes(e) && !w.poisoned && TxOf(w, e).Some? && !e.write.FailedBefore?
  }

  /** The event makes `x` require recovery, on disk at least. */
  predicate Brings(w: World, e: Event, x: Id) {
    Takes(w, e) && Outstanding(Attempt(w, e), x) && !Outstanding(w.mem.operations, x)
  }

  lemma BringsItsSubject(w: World, e: Event, x: Id)
    requires Inv(w) && Brings(w, e, x)
    ensures x == Subject(w, e) && x in w.mem.operations && !Terminal(w.mem.operations[x].state)
    ensures Follows(w.mem.operations, Attempt(w, e), x)
  {
    StepLands(w, e, TxOf(w, e));
    var ops, v := w.mem.operations, Attempt(w, e);
    assert OperationOk(v[x], x);
    if x in ops { assert OperationFollows(ops[x], v[x], x == Subject(w, e)); }
  }

  lemma BringsByReport(w: World, e: Event, x: Id)
    requires Inv(w) && Brings(w, e, x)
    ensures ReportingEvent(e) && Subject(w, e) == x && Reported(w, e).state.RecoveryRequired?
    ensures InFlight(w.mem.operations[x].state)
  {
    BringsItsSubject(w, e, x);
    var tx := TxOf(w, e);
    assert x in tx.value.operations && tx.value.operations[x] == Attempt(w, e)[x] by { StepLands(w, e, tx); }
    PruneAgrees(w.mem, e.now, x);
    if ReportingEvent(e) {
      ReportLands(w, e, tx);
      ReportIs(w, e);
      assert OperationOk(w.mem.operations[x], x);
      ReportIsAllowed(w, e);
    } else {
      NothingBrought(w, e, x);
    }
  }

  lemma NothingBrought(w: World, e: Event, x: Id)
    requires Enabled(w, e) && Writes(e) && !ReportingEvent(e) && TxOf(w, e).Some? && x == Subject(w, e) != 0
    ensures x in TxOf(w, e).value.operations && x in Prune(w.mem, e.now).operations
    ensures TxOf(w, e).value.operations[x].recoveryRequired == Prune(w.mem, e.now).operations[x].recoveryRequired
  {
  }

  lemma UnresolvedFinish(p: Store, id: Id, r: Outcome, now: nat)
    requires id in p.operations && FinishTx(p, id, r, now).Some? && r.state.RecoveryRequired?
    ensures FinishTx(p, id, r, now).value.operations == p.operations[id := Finished(p.operations[id], r, now)]
  {
  }

  lemma KeepsOutstanding(s: Store, now: nat, k: Id)
    requires Outstanding(s.operations, k)
    ensures k in Prune(s, now).operations && Prune(s, now).operations[k] == s.operations[k]
  {
    RetainedIsLeast(s.operations, now);
    assert Live(s.operations[k], now);
  }

  lemma JoinsBy(s: Store, now: nat, t: Store, x: Id)
    requires x in Prune(s, now).operations && !Terminal(s.operations[x].state)
    requires x in t.operations && t.operations[x].recoveryRequired && t.operations[x].plan == s.operations[x].plan
    requires t.operations == Prune(s, now).operations[x := t.operations[x]]
    ensures Joins(s.operations, Prune(t, now).operations, x)
  {
    forall k | k != x ensures Outstanding(s.operations, k) <==> Outstanding(Prune(t, now).operations, k) {
      if Outstanding(s.operations, k) {
        KeepsOutstanding(s, now, k);
        KeepsOutstanding(t, now, k);
      }
    }
    KeepsOutstanding(t, now, x);
  }

  /** A report that an operation requires recovery changes nothing else that does. */
  lemma BringsJoins(w: World, e: Event, x: Id)
    requires Inv(w) && Brings(w, e, x)
    ensures Joins(w.mem.operations, Attempt(w, e), x) && AncestorClosed(w.mem.operations, Attempt(w, e).Keys)
  {
    BringsItsSubject(w, e, x);
    BringsByReport(w, e, x);
    ReportIs(w, e);
    PruneAgrees(w.mem, e.now, x);
    BringsAlone(w, e, x);
    JoinsBy(w.mem, e.now, TxOf(w, e).value, x);
  }

  lemma BringsAlone(w: World, e: Event, x: Id)
    requires Takes(w, e) && ReportingEvent(e) && Subject(w, e) == x && Reported(w, e).state.RecoveryRequired?
    requires TxOf(w, e) == FinishTx(Prune(w.mem, e.now), x, Reported(w, e), e.now)
    requires x in Prune(w.mem, e.now).operations && Outstanding(Attempt(w, e), x)
    ensures var p, t := Prune(w.mem, e.now), TxOf(w, e).value;
            && x in t.operations && t.operations[x].recoveryRequired && t.operations[x].plan == w.mem.operations[x].plan
            && t.operations == p.operations[x := t.operations[x]]
  {
    UnresolvedFinish(Prune(w.mem, e.now), x, Reported(w, e), e.now);
  }

  /** At the step at which `x` comes to require recovery: one chain afterwards, if and only if
      there was one before and `x` fits. */
  lemma BringsExactly(w: World, e: Event, x: Id)
    requires Inv(w) && Brings(w, e, x)
    ensures OneChainIn(Attempt(w, e)) <==> OneChainIn(w.mem.operations) && Fits(w.mem.operations, OperationRoots(w.mem.operations), x)
  {
    BringsJoins(w, e, x);
    JoinsExactly(w.mem.operations, Attempt(w, e), x);
  }

  lemma BringsNobody(w: World, e: Event)
    requires Inv(w) && Takes(w, e) && OneChainIn(w.mem.operations)
    requires forall x | x in w.mem.operations :: !Brings(w, e, x)
    ensures OneChainIn(Attempt(w, e))
  {
    StepLands(w, e, TxOf(w, e));
    var v := Attempt(w, e);
    if Outstanding(v, Subject(w, e)) && !Outstanding(w.mem.operations, Subject(w, e)) {
      assert Brings(w, e, Subject(w, e));
      BringsItsSubject(w, e, Subject(w, e));
    }
    StaysOneChain(w.mem.operations, v, Subject(w, e));
  }

  // ---------------------------------------------------------------------------
  // Over runs.

  predicate BothOneChain(w: World) {
    OneChainIn(w.mem.operations) && OneChainIn(w.disk.operations)
  }

  /** Whatever comes to require recovery fits what is outstanding. */
  predicate StepFits(w: World, e: Event) {
    forall x | x in w.mem.operations && Brings(w, e, x) :: Fits(w.mem.operations, OperationRoots(w.mem.operations), x)
  }

  predicate AllFit(run: Run)
    requires Legal(run)
  {
    run.Then? ==> AllFit(run.past) && StepFits(Now(run.past), run.event)
  }

  predicate AlwaysOneChain(run: Run)
    requires Legal(run)
  {
    BothOneChain(Now(run)) && (run.Then? ==> AlwaysOneChain(run.past))
  }

  lemma StoresAfter(w: World, e: Event)
    requires Enabled(w, e) && Writes(e) && (w.process.Starting? ==> !w.poisoned) && (e.StartOne? ==> w.mem == w.disk)
    ensures var w' := Next(w, e);
            if Takes(w, e) then
              && w'.disk.operations == Attempt(w, e)
              && (w'.mem == w.mem || w'.mem.operations == Attempt(w, e))
            else w'.mem == w.mem && w'.disk == w.disk
  {
    UpdateLeaves(w, e, TxOf(w, e));
  }

  lemma UpdateLeaves(w: World, e: Event, tx: Option<Store>)
    requires Writes(e) && (e.StartOne? ==> w.process.Starting? && !w.poisoned && w.mem == w.disk)
    requires e.Intend? || e.RecordSource? || e.Dispatch? ==> w.env.worker.Busy?
    ensures var w' := Update(w, e, tx);
            if !w.poisoned && tx.Some? && !e.write.FailedBefore? then
              w'.disk == Prune(tx.value, e.now) && (w'.mem == w.mem || w'.mem == w'.disk)
            else w'.mem == w.mem && w'.disk == w.disk
  {
    if e.StartOne? { StartStores(w, e, tx); } else { UpdateCommits(w, e, tx); }
  }

  lemma StartStores(w: World, e: Event, tx: Option<Store>)
    requires e.StartOne? && w.process.Starting? && !w.poisoned && w.mem == w.disk
    ensures var w' := Update(w, e, tx);
            if tx.Some? && !e.write.FailedBefore? then w'.disk == Prune(tx.value, e.now) && w'.mem == w'.disk
            else w'.mem == w.mem && w'.disk == w.disk
  {
  }

  lemma AttemptIsOneChain(w: World, e: Event)
    requires Inv(w) && Takes(w, e) && OneChainIn(w.mem.operations)
    ensures OneChainIn(Attempt(w, e)) <==> StepFits(w, e)
  {
    if x :| x in w.mem.operations && Brings(w, e, x) {
      BringsExactly(w, e, x);
      forall y | y in w.mem.operations && Brings(w, e, y) ensures y == x { BringsOne(w, e, x, y); }
    } else {
      BringsNobody(w, e);
    }
  }

  lemma BringsOne(w: World, e: Event, x: Id, y: Id)
    requires Inv(w) && Brings(w, e, x) && Brings(w, e, y)
    ensures x == y
  {
    BringsItsSubject(w, e, x);
    BringsItsSubject(w, e, y);
  }

  lemma QuietChains(w: World, e: Event)
    requires Enabled(w, e) && !Writes(e) && BothOneChain(w)
    ensures BothOneChain(Next(w, e))
  {
  }

  lemma StepChains(w: World, e: Event)
    requires Inv(w) && Enabled(w, e) && BothOneChain(w)
    ensures BothOneChain(Next(w, e)) <==> StepFits(w, e)
  {
    if !Writes(e) {
      QuietChains(w, e);
    } else {
      StoresAfter(w, e);
      if Takes(w, e) { AttemptIsOneChain(w, e); }
    }
  }

  /** All through a run, in memory and on disk, what requires recovery lies in one resolving
      chain, if and only if everything that came to require recovery fitted. */
  lemma {:induction false} AlwaysOneChainIffAllFit(run: Run)
    requires Legal(run)
    ensures AlwaysOneChain(run) <==> AllFit(run)
  {
    if run.Then? {
      AlwaysOneChainIffAllFit(run.past);
      if AlwaysOneChain(run.past) {
        EveryRun(run.past);
        StepChains(Now(run.past), run.event);
      }
    }
  }
}
