/** The helper never deletes a record, and takes no fresh request once the journal holds as
    many as its policy allows (`Submit` in internal/hostexec/executor.go). */
module HostRetention {
  import opened Domain
  import opened RecoveryGraph
  import opened HostJournal
  import opened HostMachine
  import opened HostGuarantees

  // ---------------------------------------------------------------------------
  // A full journal.

  /** Idle and full. Whatever starts over it is allowed no more records. */
  predicate Full(w: World, j: Journal, limit: nat) {
    && w.disk == j && |j| >= limit && NoneRunning(j) && Settled(j)
    && w.active.None? && !w.process.Settling?
    && (!w.process.Down? ==> w.limit <= limit)
  }

  /** No start in between allows more records. */
  predicate LimitStands(later: Run, run: Run, limit: nat) {
    later == run ||
    (later.Then? && (later.event.Boot? ==> later.event.policyLimit <= limit) && LimitStands(later.past, run, limit))
  }

  lemma SubmitFindsRoom(w: World, e: Event)
    requires Inv(w) && e.Submit? && Enabled(w, e)
    ensures |w.disk| < w.limit
  {
  }

  /** A full journal takes nothing, and there is nothing left in it to change. */
  lemma NothingApplies(w: World, e: Event, j: Journal, limit: nat)
    requires Inv(w) && Full(w, j, limit) && Enabled(w, e)
    ensures !e.Submit? && !e.Settle? && !e.GiveUp? && !e.StartEffect? && !e.Gate? && !e.Final? && !e.FinishSettling?
    ensures e.Read? ==> !Interrupted(w.disk[e.id])
  {
    match e
    case Submit(_, _, _, _) => SubmitFindsRoom(w, e);
    case Settle(s, id, _) => OpenIsUnsettled(w.mem, s, id);
    case GiveUp(s) => CompletedIsLast(w.mem, RootsOf(w.mem), w.clock, s);
    case Read(id, _) => assert RecordOk(w.disk[id], id, w.clock);
    case _ =>
  }

  lemma FullStep(w: World, e: Event, j: Journal, limit: nat)
    requires Inv(w) && Full(w, j, limit) && Enabled(w, e) && (e.Boot? ==> e.policyLimit <= limit)
    ensures Full(Next(w, e), j, limit)
  {
    NothingApplies(w, e, j, limit);
  }

  /** As long as the limit stands, a full journal stays as it is over all restarts, and no
      fresh request is taken. */
  lemma {:induction false} FullForGood(run: Run, later: Run, limit: nat)
    requires Legal(later) && LimitStands(later, run, limit)
    ensures Legal(run)
    ensures Full(Now(run), Now(run).disk, limit) ==>
              && Full(Now(later), Now(run).disk, limit)
              && forall q: Request, peer: nat, at: nat, o: Write :: !Enabled(Now(later), Submit(q, peer, at, o))
  {
    if later != run {
      FullForGood(run, later.past, limit);
      EveryRun(later.past);
      if Full(Now(run), Now(run).disk, limit) { FullStep(Now(later.past), later.event, Now(run).disk, limit); }
    }
    EveryRun(later);
    if Full(Now(later), Now(run).disk, limit) {
      forall q: Request, peer: nat, at: nat, o: Write ensures !Enabled(Now(later), Submit(q, peer, at, o)) {
        if Enabled(Now(later), Submit(q, peer, at, o)) {
          NothingApplies(Now(later), Submit(q, peer, at, o), Now(run).disk, limit);
        }
      }
    }
  }

  /** So a record that awaits recovery in a full journal does so for as long as the limit
      stands. */
  lemma {:induction false} UnresolvedForGood(run: Run, later: Run, p: Id)
    requires Legal(run) && Legal(later) && LimitStands(later, run, Now(run).limit)
    requires var w := Now(run); w.process.Up? && w.active.None? && !w.fenced && |w.mem| >= w.limit
    requires p in Now(run).disk && Now(run).disk[p].state.RecoveryRequired?
    ensures p in Now(later).disk && Now(later).disk[p] == Now(run).disk[p]
  {
    EveryRun(run);
    FullForGood(run, later, Now(run).limit);
  }

  // ---------------------------------------------------------------------------
  // A run that fills the journal and leaves a record unresolved.

  function RequestFor(id: Id, target: Id): Request {
    Request(id, ProfileSwitch, 0, target, 0)
  }

  function RecordFor(id: Id, target: Id, state: State, phase: Phase): Record {
    Record(RequestFor(id, target), 0, id, state, phase)
  }

  /** Operations 1 to `n`, all refused in preflight. */
  function Refusals(n: nat, target: Id): Journal {
    if n == 0 then map[] else Refusals(n - 1, target)[n := RecordFor(n, target, Failed, PreflightRefused)]
  }

  predicate IdleWith(w: World, j: Journal, n: nat, target: Id, limit: nat) {
    && w.process.Up? && !w.fenced && w.active.None? && w.mem == w.disk == j
    && w.target == target && w.limit == limit && w.clock == n && (forall id | id in w.effects :: id <= n)
  }

  lemma {:induction false} RefusalsAre(n: nat, target: Id)
    ensures |Refusals(n, target)| == n
    ensures forall id | id in Refusals(n, target) :: id <= n && Refusals(n, target)[id].state.Failed?
  {
    if n > 0 {
      RefusalsAre(n - 1, target);
      var before := Refusals(n - 1, target);
      assert Refusals(n, target).Keys == before.Keys + {n};
    }
  }

  function RunningFor(id: Id, target: Id): Record {
    RecordFor(id, target, Running, IntentPersisted)
  }

  /** In execution, its effect started or not. */
  predicate BusyWith(w: World, j: Journal, n: nat, target: Id, limit: nat, started: bool) {
    && w.process.Up? && !w.fenced && w.active == Some(n) && w.mem == w.disk == j[n := RunningFor(n, target)]
    && w.target == target && w.limit == limit && w.clock == n && w.effectStarted == started
    && (forall id | id in w.effects :: id <= n)
  }

  lemma SubmitIs(w: World, j: Journal, n: nat, target: Id, limit: nat)
    requires IdleWith(w, j, n, target, limit) && target != 0 && |j| < limit && n + 1 !in j
    requires forall id | id in j :: !j[id].state.RecoveryRequired?
    ensures var e := Submit(RequestFor(n + 1, target), 0, n + 1, Written);
            Enabled(w, e) && BusyWith(Next(w, e), j, n + 1, target, limit, false)
  {
  }

  lemma EffectIs(w: World, j: Journal, n: nat, target: Id, limit: nat)
    requires BusyWith(w, j, n, target, limit, false)
    ensures Enabled(w, StartEffect) && BusyWith(Next(w, StartEffect), j, n, target, limit, true)
  {
  }

  lemma FinalIs(w: World, j: Journal, n: nat, target: Id, limit: nat, state: State, phase: Phase)
    requires BusyWith(w, j, n, target, limit, true) && (state.Failed? || state.RecoveryRequired?)
    ensures var e := Final(state, phase, Written);
            Enabled(w, e) && IdleWith(Next(w, e), j[n := RecordFor(n, target, state, phase)], n, target, limit)
  {
    assert j[n := RunningFor(n, target)][n := RecordFor(n, target, state, phase)] == j[n := RecordFor(n, target, state, phase)];
  }

  /** One operation from submission to its final record. */
  lemma {:induction false} Runs(run: Run, j: Journal, n: nat, target: Id, limit: nat, state: State, phase: Phase) returns (next: Run)
    requires Legal(run) && IdleWith(Now(run), j, n, target, limit) && target != 0 && |j| < limit && n + 1 !in j
    requires forall id | id in j :: !j[id].state.RecoveryRequired?
    requires state.Failed? || state.RecoveryRequired?
    ensures Legal(next) && IdleWith(Now(next), j[n + 1 := RecordFor(n + 1, target, state, phase)], n + 1, target, limit)
  {
    var submitted := Then(run, Submit(RequestFor(n + 1, target), 0, n + 1, Written));
    var started := Then(submitted, StartEffect);
    next := Then(started, Final(state, phase, Written));
    SubmitIs(Now(run), j, n, target, limit);
    assert Legal(submitted);
    EffectIs(Now(submitted), j, n + 1, target, limit);
    assert Legal(started);
    FinalIs(Now(started), j, n + 1, target, limit, state, phase);
  }

  lemma Starts(target: Id, limit: nat) returns (run: Run)
    requires target != 0
    ensures Legal(run) && IdleWith(Now(run), map[], 0, target, limit)
  {
    var booted := Then(Fresh, Boot(target, limit));
    BootIs(Now(Fresh), target, limit);
    assert Legal(booted);
    var read := Then(booted, ReadAll(true));
    ReadAllIs(Now(booted));
    assert Legal(read);
    run := Then(read, Serve);
    ServeIs(Now(read));
  }

  lemma BootIs(w: World, target: Id, limit: nat)
    requires w == Pristine && target != 0
    ensures Enabled(w, Boot(target, limit))
    ensures Next(w, Boot(target, limit)) == w.(process := Loading({}), target := target, limit := limit)
  {
    assert w.disk.Keys == {};
  }

  lemma ReadAllIs(w: World)
    requires w.process == Loading({}) && w.mem == map[]
    ensures Enabled(w, ReadAll(true)) && Next(w, ReadAll(true)) == w.(process := RollingForward, lock := false)
  {
    assert !SettlementPending(w.mem);
  }

  lemma ServeIs(w: World)
    requires w.process.RollingForward? && w.mem == map[]
    ensures Enabled(w, Serve) && Next(w, Serve) == Release(w)
  {
    assert Settled(w.mem);
  }

  lemma {:induction false} Fills(n: nat, target: Id, limit: nat) returns (run: Run)
    requires target != 0 && n <= limit
    ensures Legal(run) && IdleWith(Now(run), Refusals(n, target), n, target, limit)
  {
    if n == 0 {
      run := Starts(target, limit);
    } else {
      run := Fills(n - 1, target, limit);
      RefusalsAre(n - 1, target);
      run := Runs(run, Refusals(n - 1, target), n - 1, target, limit, Failed, PreflightRefused);
    }
  }

  /** For every limit there is a run from a fresh start to an idle, healthy helper whose journal
      is full and whose last record awaits recovery: no restore can be submitted, ever. */
  lemma FullJournalRoute(target: Id, limit: nat) returns (run: Run)
    requires target != 0 && limit > 0
    ensures Legal(run) && Now(run).limit == limit && Now(run).target == target
    ensures var w := Now(run); w.process.Up? && w.active.None? && !w.fenced && |w.mem| >= w.limit && w.mem == w.disk
    ensures limit in Now(run).mem && Now(run).mem[limit].state.RecoveryRequired? && Now(run).mem[limit].request.target == target
  {
    var n := limit - 1;
    run := Fills(n, target, limit);
    RefusalsAre(n, target);
    var j := Refusals(n, target);
    run := Runs(run, j, n, target, limit, RecoveryRequired, EffectUncertain);
    assert |j[limit := RecordFor(limit, target, RecoveryRequired, EffectUncertain)].Keys| == |j.Keys + {limit}|;
  }
}
