/** The three kinds of operations that can break up the outstanding recoveries, and what holds
    as long as none of them comes to require recovery (internal/engine/recovery.go). */
module ControllerFence {
  import opened Domain
  import opened RecoveryGraph
  import opened ControllerStore
  import opened ControllerTransactions
  import opened ControllerEvolution
  import opened ControllerMachine
  import opened ControllerInvariant
  import opened ControllerGuarantees
  import opened ControllerSteps
  import opened ControllerHandover
  import opened ControllerRace
  import opened ControllerChains

  /** A hardware refresh, a restore of an operation without host effects, or an operation that
      the worker let go of when it found it cancelled. */
  predicate Unusual(w: World, x: Id) {
    x in w.mem.operations &&
    (w.mem.operations[x].plan.draft.action.HardwareRefresh? || !LinkFits(w.mem.operations, x) || x in w.env.abandoned)
  }

  /** No unusual operation comes to require recovery. */
  predicate StepCalm(w: World, e: Event) {
    forall x | x in w.mem.operations && Brings(w, e, x) :: !Unusual(w, x)
  }

  predicate Calm(run: Run)
    requires Legal(run)
  {
    run.Then? ==> Calm(run.past) && StepCalm(Now(run.past), run.event)
  }

  // ---------------------------------------------------------------------------
  // Whatever is flying was admitted, and still would be.

  predicate SkiesOk(ops: Operations, roots: map<Id, Id>, abandoned: set<Id>) {
    forall x | x in ops && Flying(ops, abandoned, x) :: OthersInChain(ops, roots, x, ops[x].plan)
  }

  predicate SkiesIn(ops: Operations, abandoned: set<Id>) {
    SkiesOk(ops, OperationRoots(ops), abandoned)
  }

  lemma OthersFollow(ops: Operations, ops': Operations, subject: Id, x: Id)
    requires OperationsOk(ops) && Follows(ops, ops', subject) && x in ops && x in ops'
    requires OthersInChain(ops, OperationRoots(ops), x, ops[x].plan)
    requires subject != x && Outstanding(ops', subject) ==> Outstanding(ops, subject)
    ensures OthersInChain(ops', OperationRoots(ops'), x, ops'[x].plan)
  {
    FollowsKeepsRoots(ops, ops', subject);
    assert OperationFollows(ops[x], ops'[x], x == subject);
    var parent := ops[x].plan.draft.parent;
    if !ops[x].plan.draft.action.HardwareRefresh? {
      forall k | k in ops' && k != x && ops'[k].recoveryRequired
        ensures parent != 0 && SameChain(OperationRoots(ops'), parent, k)
      {
        assert OperationOk(ops'[k], k);
        if k in ops { assert OperationFollows(ops[k], ops'[k], k == subject); }
        assert Outstanding(ops, k);
        assert SameChain(OperationRoots(ops), parent, k);
        assert ParentOf(ops, x) == parent && parent in ops'.Keys;
      }
    }
  }

  lemma SkiesFollow(ops: Operations, ops': Operations, subject: Id, abandoned: set<Id>)
    requires OperationsOk(ops) && Follows(ops, ops', subject) && FlightsOk(ops, abandoned) && SkiesIn(ops, abandoned)
    requires forall x | x in ops' && Flying(ops', abandoned, x) :: Flying(ops, abandoned, x)
    requires Outstanding(ops', subject) && !Outstanding(ops, subject) ==> Flying(ops, abandoned, subject)
    ensures SkiesIn(ops', abandoned)
  {
    forall x | x in ops' && Flying(ops', abandoned, x)
      ensures OthersInChain(ops', OperationRoots(ops'), x, ops'[x].plan)
    {
      OthersFollow(ops, ops', subject, x);
    }
  }

  lemma FollowersFlew(ops: Operations, v: Operations, s: Id, abandoned: set<Id>)
    requires Follows(ops, v, s)
    ensures forall x | x in v && Flying(v, abandoned, x) && x != s :: Flying(ops, abandoned, x)
  {
    forall x | x in v && Flying(v, abandoned, x) && x != s ensures Flying(ops, abandoned, x) {
      if x in ops { assert OperationFollows(ops[x], v[x], false); }
    }
  }

  /** Only a begun operation takes off. */
  lemma NoTakeoff(w: World, e: Event)
    requires Inv(w) && HandoverOk(w) && Enabled(w, e) && Writes(e) && TxOf(w, e).Some? && !e.Begin?
    ensures forall x | x in Attempt(w, e) && Flying(Attempt(w, e), w.env.abandoned, x) :: Flying(w.mem.operations, w.env.abandoned, x)
  {
    var v, s := Attempt(w, e), Subject(w, e);
    StepLands(w, e, TxOf(w, e));
    FollowersFlew(w.mem.operations, v, s, w.env.abandoned);
    if s in v && Flying(v, w.env.abandoned, s) { SubjectStaysDown(w, e, s); }
  }

  lemma SubjectStaysDown(w: World, e: Event, x: Id)
    requires Inv(w) && Enabled(w, e) && Writes(e) && TxOf(w, e).Some? && !e.Begin?
    requires x == Subject(w, e) && x in Attempt(w, e) && InFlight(Attempt(w, e)[x].state)
    ensures x in w.mem.operations && InFlight(w.mem.operations[x].state)
  {
    var tx := TxOf(w, e);
    StepLands(w, e, tx);
    if ReportingEvent(e) {
      ReportSettles(w, e, tx);
    } else if MarkingEvent(e) {
      MarkIs(w, e, tx);
      PruneAgrees(w.mem, e.now, x);
    }
  }

  lemma TakeoffSkies(ops: Operations, v: Operations, id: Id, abandoned: set<Id>)
    requires Follows(ops, v, id) && NoneFlying(ops, abandoned)
    requires id in v && InFlight(v[id].state) ==> OthersInChain(v, OperationRoots(v), id, v[id].plan)
    ensures SkiesIn(v, abandoned)
  {
    FollowersFlew(ops, v, id, abandoned);
  }

  lemma BegunIsFenced(w: World, e: Event, tx: Option<Store>)
    requires Inv(w) && Enabled(w, e) && e.Begin? && tx == TxOf(w, e) && tx.Some?
    ensures var v := Prune(tx.value, e.now).operations;
            e.id in v && InFlight(v[e.id].state) ==> OthersInChain(v, OperationRoots(v), e.id, v[e.id].plan)
  {
    BeginIsOk(w, e.id, e.authorized, e.now);
    BegunOrFailed(Prune(w.mem, e.now), e.id, e.authorized, e.now);
  }

  lemma BegunOrFailed(p: Store, id: Id, authorized: bool, now: nat)
    requires BeginTx(p, id, authorized, now).Some?
    ensures var t := BeginTx(p, id, authorized, now).value; var v := Prune(t, now).operations;
            id in v ==> v[id] == t.operations[id] && (InFlight(v[id].state) ==> v[id].state.Running?)
  {
  }

  lemma BeginSkies(w: World, e: Event)
    requires Inv(w) && HandoverOk(w) && Enabled(w, e) && e.Begin? && TxOf(w, e).Some?
    ensures SkiesIn(Attempt(w, e), w.env.abandoned)
  {
    BeginLands(w, e, TxOf(w, e));
    BegunIsFenced(w, e, TxOf(w, e));
    TakeoffSkies(w.mem.operations, Attempt(w, e), e.id, w.env.abandoned);
  }

  lemma BroughtWasFlying(w: World, e: Event, x: Id)
    requires Inv(w) && Brings(w, e, x) && StepCalm(w, e)
    ensures Flying(w.mem.operations, w.env.abandoned, x)
  {
    BringsItsSubject(w, e, x);
    BringsByReport(w, e, x);
  }

  lemma AttemptSkies(w: World, e: Event)
    requires Inv(w) && HandoverOk(w) && Takes(w, e) && StepCalm(w, e) && SkiesIn(w.mem.operations, w.env.abandoned)
    ensures SkiesIn(Attempt(w, e), w.env.abandoned)
  {
    if e.Begin? {
      BeginSkies(w, e);
    } else {
      var s := Subject(w, e);
      StepLands(w, e, TxOf(w, e));
      NoTakeoff(w, e);
      if Outstanding(Attempt(w, e), s) && !Outstanding(w.mem.operations, s) { BroughtWasFlying(w, e, s); }
      SkiesFollow(w.mem.operations, Attempt(w, e), s, w.env.abandoned);
    }
  }

  predicate BothSkies(w: World) {
    SkiesIn(w.mem.operations, w.env.abandoned) && SkiesIn(w.disk.operations, w.env.abandoned)
  }

  lemma FewerFlying(ops: Operations, abandoned: set<Id>, more: set<Id>)
    requires SkiesIn(ops, abandoned) && abandoned <= more
    ensures SkiesIn(ops, more)
  {
    forall x | x in ops && Flying(ops, more, x) ensures Flying(ops, abandoned, x) {}
  }

  lemma QuietSkies(w: World, e: Event)
    requires Enabled(w, e) && !Writes(e) && BothSkies(w)
    ensures BothSkies(Next(w, e))
  {
    FewerFlying(w.mem.operations, w.env.abandoned, Next(w, e).env.abandoned);
    FewerFlying(w.disk.operations, w.env.abandoned, Next(w, e).env.abandoned);
  }

  lemma StepSkies(w: World, e: Event)
    requires Inv(w) && HandoverOk(w) && Enabled(w, e) && StepCalm(w, e) && BothSkies(w)
    ensures BothSkies(Next(w, e))
  {
    if !Writes(e) {
      QuietSkies(w, e);
    } else {
      StoresAfter(w, e);
      UpdateAbandonsNobody(w, e, TxOf(w, e));
      if Takes(w, e) { AttemptSkies(w, e); }
    }
  }

  // ---------------------------------------------------------------------------
  // The results.

  /** An ordinary operation that comes to require recovery fits what is outstanding: it was
      admitted, and nobody else has come since. */
  lemma OrdinaryFits(w: World, e: Event)
    requires Inv(w) && StepCalm(w, e) && SkiesIn(w.mem.operations, w.env.abandoned)
    ensures StepFits(w, e)
  {
    forall x | x in w.mem.operations && Brings(w, e, x)
      ensures Fits(w.mem.operations, OperationRoots(w.mem.operations), x)
    {
      BroughtWasFlying(w, e, x);
      assert !Unusual(w, x);
    }
  }

  lemma {:induction false} CalmSkies(run: Run)
    requires Legal(run) && Calm(run)
    ensures BothSkies(Now(run)) && AllFit(run)
  {
    if run.Then? {
      CalmSkies(run.past);
      EveryRun(run.past);
      HandoverAlwaysOk(run.past);
      StepSkies(Now(run.past), run.event);
      OrdinaryFits(Now(run.past), run.event);
    }
  }

  /** In every run in which no unusual operation comes to require recovery, everything that
      requires recovery lies, in memory and on disk, in one chain that resolves. */
  lemma {:induction false} CalmMeansOneChain(run: Run)
    requires Legal(run) && Calm(run)
    ensures AlwaysOneChain(run) && BothOneChain(Now(run))
  {
    CalmSkies(run);
    AlwaysOneChainIffAllFit(run);
  }

  /** And then a recovery naming any operation that requires it is admitted, unless another
      attempt for the chain is queued or under way. */
  lemma {:induction false} CalmRecoveryIsAdmitted(run: Run, k: Id, d: Draft)
    requires Legal(run) && Calm(run) && Outstanding(Now(run).mem.operations, k)
    requires d.parent == k && RecoveryAction(d.action) && d.target == Now(run).mem.operations[k].plan.draft.target
    ensures var ops := Now(run).mem.operations;
            Admits(ops, OperationRoots(ops), d, 0) <==> !AttemptInChain(ops, OperationRoots(ops), k)
  {
    CalmMeansOneChain(run);
    OperationsSound(run);
    AdmissionInOneChain(Now(run).mem.operations, d);
  }

  /** Conversely, an unusual operation that comes to require recovery breaks the chain up: a
      restore that does not resolve always does; a refresh, or an operation let go that
      recovers nothing, as soon as another one is outstanding. */
  lemma UnusualBreaksUp(w: World, e: Event, x: Id)
    requires Inv(w) && Brings(w, e, x)
    requires x in w.mem.operations
    requires !LinkFits(w.mem.operations, x) ||
             (&& (w.mem.operations[x].plan.draft.action.HardwareRefresh? || ParentOf(w.mem.operations, x) == 0)
              && exists k | k in w.mem.operations :: k != x && Outstanding(w.mem.operations, k))
    ensures !OneChainIn(Attempt(w, e))
  {
    BringsExactly(w, e, x);
    assert OperationOk(w.mem.operations[x], x);
  }

  lemma {:induction false} UnusualBreaksUpOnDisk(run: Run, e: Event, x: Id)
    requires Legal(run) && Brings(Now(run), e, x) && Unusual(Now(run), x)
    requires var ops := Now(run).mem.operations;
             LinkFits(ops, x) ==> ParentOf(ops, x) == 0 && exists k | k in ops :: k != x && Outstanding(ops, k)
    ensures Legal(Then(run, e)) && !OneChainIn(Now(Then(run, e)).disk.operations)
  {
    EveryRun(run);
    UnusualBreaksUp(Now(run), e, x);
    StoresAfter(Now(run), e);
  }
}
