/** Everything the host helper can do to its journal, one write at a time, with crashes
    anywhere and writes that fail before or after taking effect; and what holds in every
    run (internal/hostexec/executor.go). */
module HostMachine {
  import opened Domain
  import opened RecoveryGraph
  import opened HostJournal

  datatype Process =
    | Down                          // not running, or refused to start
    | Loading(unread: set<Id>)      // reading the journal
    | RollingForward                // finishing settlements before serving
    | Up                            // serving
    | Settling(restore: Id)         // completing `restore`, with the mutex held

  datatype World = World(
    disk: Journal,                  // the journal directory
    mem: Journal,                   // the records in memory
    process: Process,
    fenced: bool,                   // a journal write failed or a chain was ambiguous
    active: Option<Id>,             // the operation in progress
    effectStarted: bool,            // its external effect has been started
    lock: bool,                     // the canonical session lock is held
    target: Id,                     // the target of the root policy in force
    limit: nat,                     // and the number of records it lets the journal hold
    clock: nat,                     // the latest start time handed out
    effects: multiset<Id>)          // every external effect ever started

  datatype Event =
    | Crash
    | Boot(policyTarget: Id, policyLimit: nat)
    | Read(id: Id, outcome: Write)
    | ReadAll(lockFree: bool)
    | Settle(restore: Id, id: Id, outcome: Write)
    | GiveUp(restore: Id)
    | Serve
    | Submit(request: Request, peer: nat, at: nat, outcome: Write)
    | StartEffect
    | Gate(outcome: Write)
    | Final(state: State, phase: Phase, outcome: Write)
    | FinishSettling

  function Save(w: World, r: Record, o: Write): World {
    match o
    case Written => w.(disk := w.disk[r.request.id := r], mem := w.mem[r.request.id := r])
    case FailedBefore => w.(fenced := true)
    case FailedAfter => w.(fenced := true, disk := w.disk[r.request.id := r])
  }

  function Halt(w: World): World {
    w.(mem := map[], process := Down, fenced := false, active := None, effectStarted := false, lock := false)
  }

  function Release(w: World): World {
    w.(process := Up, active := None, effectStarted := false, lock := false)
  }

  /** Leaves a settlement that could not be completed: startup is refused, a serving
      helper stays up behind the fence. */
  function Abandon(w: World): World {
    if w.process.RollingForward? then Halt(w) else Release(w)
  }

  predicate SettlementPending(j: Journal) {
    exists s, id | s in j && id in j :: Restored(j[s]) && Open(j, RootsOf(j), s, id)
  }

  predicate InSettlement(w: World, restore: Id) {
    && (w.process.RollingForward? || w.process == Settling(restore))
    && restore in w.mem
    && Restored(w.mem[restore])
  }

  /** The event speaks of records and a process that are there. */
  predicate Applicable(w: World, e: Event) {
    match e
    case Read(id, o) => w.process.Loading? && id in w.disk && w.disk[id].request.id == id
    case Settle(s, id, o) => id in w.mem && w.mem[id].request.id == id
    case StartEffect => w.active.Some?
    case Gate(o) => w.active.Some? && w.active.value in w.mem
    case Final(state, phase, o) => w.active.Some? && w.active.value in w.mem
    case _ => true
  }

  /** The helper may take this step now. */
  predicate Enabled(w: World, e: Event) {
    && Applicable(w, e)
    && match e
       case Crash => !w.process.Down?
       case Boot(t, _) => w.process.Down? && t != 0
       case Read(id, o) => id in w.process.unread
       case ReadAll(_) => w.process == Loading({})
       case Settle(s, id, o) =>
         && InSettlement(w, s)
         && !Ambiguous(w.mem, RootsOf(w.mem), s)
         && Open(w.mem, RootsOf(w.mem), s, id)
       case GiveUp(s) => InSettlement(w, s) && Ambiguous(w.mem, RootsOf(w.mem), s)
       case Serve => w.process.RollingForward? && Settled(w.mem)
       case Submit(q, peer, at, o) =>
         && w.process.Up? && w.active.None? && !w.fenced
         && q.id != 0 && q.id !in w.mem
         && |w.mem| < w.limit
         && q.target == w.target
         && RecoveryAdmits(w.mem, RootsOf(w.mem), q)
         && HostAction(q.action)
         && w.clock < at
       case StartEffect => w.process.Up? && !w.effectStarted
       case Gate(o) =>
         && w.process.Up? && w.effectStarted
         && !ReadOnlyAction(w.mem[w.active.value].request.action)
       case Final(state, phase, o) =>
         && w.process.Up? && w.effectStarted
         && FinalAllowed(w.mem[w.active.value], state)
       case FinishSettling =>
         w.process.Settling? && SettledFor(w.mem, RootsOf(w.mem), w.process.restore)
  }

  /** A diagnostic never requires recovery; any other success passed the build gate. */
  predicate FinalAllowed(r: Record, state: State) {
    && (state.Succeeded? || state.Failed? || state.RecoveryRequired?)
    && (state.RecoveryRequired? ==> !ReadOnlyAction(r.request.action))
    && (state.Succeeded? && !ReadOnlyAction(r.request.action) ==> r.phase.BuildGateDisposition?)
  }

  function Next(w: World, e: Event): World
    requires Applicable(w, e)
  {
    match e
    case Crash => Halt(w)
    case Boot(t, n) => Halt(w).(process := Loading(w.disk.Keys), target := t, limit := n)
    case Read(id, o) =>
      var w1 := w.(mem := w.mem[id := w.disk[id]], process := Loading(w.process.unread - {id}));
      if !Interrupted(w.disk[id]) then w1
      else
        var w2 := Save(w1, Interrupt(w.disk[id]), o);
        if o.Written? then w2 else Halt(w2)
    case ReadAll(lockFree) =>
      if SettlementPending(w.mem) && !lockFree then Halt(w)
      else w.(process := RollingForward, lock := SettlementPending(w.mem))
    case Settle(s, id, o) =>
      var w1 := Save(w, SettledRecord(w.mem[id], s), o);
      if o.Written? then w1 else Abandon(w1)
    case GiveUp(s) => Abandon(w.(fenced := true))
    case Serve => Release(w)
    case Submit(q, peer, at, o) =>
      var w1 := Save(w.(clock := at), Record(q, peer, at, Running, IntentPersisted), o);
      if o.Written? then w1.(active := Some(q.id), effectStarted := false, lock := true) else w1
    case StartEffect => w.(effectStarted := true, effects := w.effects + multiset{w.active.value})
    case Gate(o) =>
      var w1 := Save(w, w.mem[w.active.value].(phase := BuildGateDisposition), o);
      if o.Written? then w1 else Release(w1)
    case Final(state, phase, o) =>
      var r := w.mem[w.active.value].(state := state, phase := phase);
      var w1 := Save(w, r, o);
      if o.Written? && state.Succeeded? && r.request.parent != 0 then
        w1.(process := Settling(r.request.id))
      else
        Release(w1)
    case FinishSettling => Release(w)
  }

  // ---------------------------------------------------------------------------
  // Runs.

  /** A history of events, the latest outermost, from a host with an empty journal. */
  datatype Run = Fresh | Then(past: Run, event: Event)

  const Pristine := World(map[], map[], Down, false, None, false, false, 0, 0, 0, multiset{})

  predicate Legal(run: Run)
    decreases run, 0
  {
    run.Then? ==> Legal(run.past) && Enabled(Now(run.past), run.event)
  }

  function Now(run: Run): World
    requires Legal(run)
    decreases run, 1
  {
    match run
    case Fresh => Pristine
    case Then(past, e) => Next(Now(past), e)
  }

  predicate Extends(later: Run, run: Run) {
    later == run || (later.Then? && Extends(later.past, run))
  }

  // ---------------------------------------------------------------------------
  // The invariant of all runs.

  predicate NoneRunning(j: Journal) {
    forall id | id in j :: !j[id].state.Running?
  }

  predicate EffectsOk(w: World) {
    && (forall id | id in w.effects :: w.effects[id] == 1)
    && (forall id | id in w.effects :: id in w.disk)
  }

  predicate ServingOk(w: World) {
    && w.mem == w.disk
    && Settled(w.mem)
    && match w.active
       case None => NoneRunning(w.mem)
       case Some(a) =>
         && a in w.mem && w.mem[a].state.Running? && w.lock
         && (w.effectStarted <==> a in w.effects)
  }

  predicate SettlingOk(w: World, s: Id) {
    && !w.fenced && w.mem == w.disk && NoneRunning(w.mem) && w.lock
    && s in w.mem && Restored(w.mem[s]) && w.active == Some(s)
    && forall t | t in w.mem && t != s && Restored(w.mem[t]) :: SettledFor(w.mem, RootsOf(w.mem), t)
  }

  /** What holds between memory and disk, by what the helper is doing. */
  predicate ProcessOk(w: World) {
    match w.process
    case Down => true
    case Loading(unread) =>
      && !w.fenced && w.active.None?
      && w.mem.Keys == w.disk.Keys - unread
      && unread <= w.disk.Keys
      && (forall id | id in w.mem :: w.mem[id] == w.disk[id])
      && NoneRunning(w.mem)
    case RollingForward =>
      && !w.fenced && w.active.None? && w.mem == w.disk && NoneRunning(w.mem)
      && (w.lock || Settled(w.mem))
    case Up =>
      if w.fenced then w.active.None? && Consistent(w.mem, w.clock) else ServingOk(w)
    case Settling(s) => SettlingOk(w, s)
  }

  predicate DiskOk(w: World) {
    && Consistent(w.disk, w.clock)
    && EffectsOk(w)
    && (!w.process.Down? ==> w.target != 0)
  }

  predicate Inv(w: World) {
    DiskOk(w) && ProcessOk(w)
  }

  lemma SaveKeepsDisk(w: World, r: Record, o: Write)
    requires Consistent(w.disk, w.clock)
    requires r.request.id in w.disk && Progress(w.disk[r.request.id], r)
    ensures Consistent(Save(w, r, o).disk, w.clock)
  {
    ProgressConsistent(w.disk, w.clock, r.request.id, r);
  }

  lemma LaterClock(j: Journal, clock: nat, at: nat)
    requires Consistent(j, clock) && clock <= at
    ensures Consistent(j, at)
  {
    forall id | id in j ensures RecordOk(j[id], id, at) {
      assert RecordOk(j[id], id, clock);
    }
  }

  // One event at a time: what it leaves on disk, then where it leaves the process.

  lemma ReadKeepsDisk(w: World, id: Id, o: Write)
    requires Inv(w) && Enabled(w, Read(id, o))
    ensures DiskOk(Next(w, Read(id, o)))
  {
    assert RecordOk(w.disk[id], id, w.clock);
    if Interrupted(w.disk[id]) {
      SaveKeepsDisk(w, Interrupt(w.disk[id]), o);
      ReadLeaves(w, id, o);
      SavedDisk(w, Interrupt(w.disk[id]), o, Next(w, Read(id, o)));
    } else {
      SameDisk(w, Next(w, Read(id, o)));
    }
  }

  lemma ReadLeaves(w: World, id: Id, o: Write)
    requires Applicable(w, Read(id, o)) && Interrupted(w.disk[id])
    ensures var w' := Next(w, Read(id, o));
            && w'.disk == Save(w, Interrupt(w.disk[id]), o).disk && w'.clock == w.clock && w'.effects == w.effects && w'.target == w.target
            && w.disk.Keys <= w'.disk.Keys
  {
  }

  lemma SavedDisk(w: World, r: Record, o: Write, w': World)
    requires DiskOk(w) && w'.disk == Save(w, r, o).disk && w'.clock == w.clock && w'.effects == w.effects
    requires Consistent(w'.disk, w.clock) && (!w'.process.Down? ==> w'.target != 0)
    ensures DiskOk(w')
  {
  }

  lemma StepRead(w: World, id: Id, o: Write)
    requires ProcessOk(w) && Enabled(w, Read(id, o))
    ensures ProcessOk(Next(w, Read(id, o)))
  {
    if !Interrupted(w.disk[id]) { StepReadAsIs(w, id, o); } else if o.Written? { StepReadInterrupted(w, id); }
  }

  lemma StepReadAsIs(w: World, id: Id, o: Write)
    requires ProcessOk(w) && Enabled(w, Read(id, o)) && !Interrupted(w.disk[id])
    ensures ProcessOk(Next(w, Read(id, o)))
  {
  }

  lemma StepReadInterrupted(w: World, id: Id)
    requires ProcessOk(w) && Enabled(w, Read(id, Written)) && Interrupted(w.disk[id])
    ensures ProcessOk(Next(w, Read(id, Written)))
  {
  }

  /** Settlement of one record opens nothing. */
  lemma SettleOne(j: Journal, roots: map<Id, Id>, s: Id, id: Id)
    requires Open(j, roots, s, id)
    ensures var k := j[id := SettledRecord(j[id], s)];
            forall t | t in k && Restored(k[t]) && SettledFor(j, roots, t) :: Restored(j[t]) && SettledFor(k, roots, t)
  {
    var k := j[id := SettledRecord(j[id], s)];
    forall t | t in k && Restored(k[t]) && SettledFor(j, roots, t)
      ensures SettledFor(k, roots, t)
    {
      forall m | m in k ensures !Open(k, roots, t, m) { assert !Open(j, roots, t, m); }
    }
  }

  lemma SettleKeepsDisk(w: World, s: Id, id: Id, o: Write)
    requires Inv(w) && Enabled(w, Settle(s, id, o))
    ensures DiskOk(Next(w, Settle(s, id, o)))
  {
    assert w.mem == w.disk;
    SaveKeepsDisk(w, SettledRecord(w.mem[id], s), o);
  }

  lemma StepSettleLoading(w: World, s: Id, id: Id, o: Write)
    requires ProcessOk(w) && w.process.RollingForward? && Enabled(w, Settle(s, id, o))
    ensures ProcessOk(Next(w, Settle(s, id, o)))
  {
    OpenIsUnsettled(w.mem, s, id);
  }

  lemma OpenIsUnsettled(j: Journal, s: Id, id: Id)
    requires s in j && Restored(j[s]) && Open(j, RootsOf(j), s, id)
    ensures !Settled(j)
  {
    assert !SettledFor(j, RootsOf(j), s);
  }

  lemma StepSettleServing(w: World, s: Id, id: Id, o: Write)
    requires SettlingOk(w, s) && w.process == Settling(s) && Enabled(w, Settle(s, id, o))
    requires Consistent(w.disk, w.clock)
    ensures ProcessOk(Next(w, Settle(s, id, o)))
  {
    if o.Written? { SettleWritten(w, s, id); }
  }

  /** Settling one record leaves the other completed restores settled. */
  lemma SettledJournal(j: Journal, s: Id, id: Id)
    requires s in j && id in j && Open(j, RootsOf(j), s, id) && NoneRunning(j)
    requires forall t | t in j && t != s && Restored(j[t]) :: SettledFor(j, RootsOf(j), t)
    ensures var k := j[id := SettledRecord(j[id], s)];
            && NoneRunning(k) && k[s] == j[s]
            && forall t | t in k && t != s && Restored(k[t]) :: SettledFor(k, RootsOf(k), t)
  {
    SameRoots(j, id, SettledRecord(j[id], s));
    SettleOne(j, RootsOf(j), s, id);
  }

  lemma SettleWritten(w: World, s: Id, id: Id)
    requires SettlingOk(w, s) && w.process == Settling(s) && Enabled(w, Settle(s, id, Written))
    ensures ProcessOk(Next(w, Settle(s, id, Written)))
  {
    SettledJournal(w.mem, s, id);
  }

  lemma SubmitKeepsDisk(w: World, q: Request, peer: nat, at: nat, o: Write)
    requires Inv(w) && Enabled(w, Submit(q, peer, at, o))
    ensures DiskOk(Next(w, Submit(q, peer, at, o)))
  {
    FreshConsistent(w.disk, w.clock, Record(q, peer, at, Running, IntentPersisted));
    LaterClock(w.disk, w.clock, at);
  }

  lemma StepSubmit(w: World, q: Request, peer: nat, at: nat, o: Write)
    requires Inv(w) && Enabled(w, Submit(q, peer, at, o))
    ensures ProcessOk(Next(w, Submit(q, peer, at, o)))
  {
    FreshConsistent(w.disk, w.clock, Record(q, peer, at, Running, IntentPersisted));
    LaterClock(w.disk, w.clock, at);
  }

  /** Writing over a record in progress leaves the other chains settled, and its own too
      unless a completed restore is written: nothing in its chain had succeeded. */
  lemma RunningWriteSettled(j: Journal, roots: map<Id, Id>, clock: nat, id: Id, r: Record)
    requires ConsistentBy(j, roots, clock) && SettledBy(j, roots)
    requires id in j && j[id].state.Running? && Progress(j[id], r)
    ensures forall t | t in j && t != id && Restored(j[t]) :: SettledFor(j[id := r], roots, t)
    ensures !Restored(r) ==> SettledBy(j[id := r], roots)
    ensures !r.state.Running? ==> NoneRunning(j[id := r])
  {
    var k := j[id := r];
    assert RunningOk(j, roots, id);
    forall t | t in j && t != id && Restored(j[t])
      ensures SettledFor(k, roots, t)
    {
      assert SettledFor(j, roots, t);
      forall m | m in k ensures !Open(k, roots, t, m) { assert !Open(j, roots, t, m); }
    }
  }

  lemma StepGate(w: World, o: Write)
    requires Inv(w) && Enabled(w, Gate(o))
    ensures Inv(Next(w, Gate(o)))
  {
    var a := w.active.value;
    var r := w.mem[a].(phase := BuildGateDisposition);
    assert RecordOk(w.disk[a], a, w.clock);
    SaveKeepsDisk(w, r, o);
    SameRoots(w.mem, a, r);
    RunningWriteSettled(w.mem, RootsOf(w.mem), w.clock, a, r);
    if o.Written? {
      assert ServingOk(Next(w, Gate(o)));
    }
  }

  lemma FinalKeepsDisk(w: World, state: State, phase: Phase, o: Write)
    requires Inv(w) && Enabled(w, Final(state, phase, o))
    ensures DiskOk(Next(w, Final(state, phase, o)))
  {
    var a := w.active.value;
    assert RecordOk(w.disk[a], a, w.clock);
    SaveKeepsDisk(w, w.mem[a].(state := state, phase := phase), o);
  }

  /** Where the last write of an operation leaves the journal. */
  lemma FinalJournal(w: World, state: State, phase: Phase)
    requires Inv(w) && Enabled(w, Final(state, phase, Written))
    ensures var a := w.active.value; var r := w.mem[a].(state := state, phase := phase); var k := w.mem[a := r];
            && w.mem == w.disk && r.request.id == a && !w.fenced && w.lock
            && RootsOf(k) == RootsOf(w.mem) && NoneRunning(k)
            && (forall t | t in k && t != a && Restored(k[t]) :: SettledFor(k, RootsOf(k), t))
            && (!Restored(r) ==> Settled(k))
            && (state.Succeeded? && r.request.parent != 0 ==> Restored(r))
  {
    var a := w.active.value;
    var r := w.mem[a].(state := state, phase := phase);
    assert RecordOk(w.disk[a], a, w.clock);
    SameRoots(w.mem, a, r);
    RunningWriteSettled(w.mem, RootsOf(w.mem), w.clock, a, r);
  }

  lemma FinalWritten(w: World, state: State, phase: Phase)
    requires Applicable(w, Final(state, phase, Written)) && w.process.Up?
    requires var a := w.active.value; var r := w.mem[a].(state := state, phase := phase); var k := w.mem[a := r];
             && w.mem == w.disk && r.request.id == a && !w.fenced && w.lock
             && RootsOf(k) == RootsOf(w.mem) && NoneRunning(k)
             && (forall t | t in k && t != a && Restored(k[t]) :: SettledFor(k, RootsOf(k), t))
             && (!Restored(r) ==> Settled(k))
             && (state.Succeeded? && r.request.parent != 0 ==> Restored(r))
    ensures ProcessOk(Next(w, Final(state, phase, Written)))
  {
  }

  lemma StepFinal(w: World, state: State, phase: Phase, o: Write)
    requires Inv(w) && Enabled(w, Final(state, phase, o))
    ensures ProcessOk(Next(w, Final(state, phase, o)))
  {
    if o.Written? {
      FinalJournal(w, state, phase);
      FinalWritten(w, state, phase);
    }
  }

  lemma StepServe(w: World, e: Event)
    requires ProcessOk(w) && Enabled(w, e)
    requires e.Serve? || e.FinishSettling?
    ensures ProcessOk(Next(w, e))
  {
    if e.FinishSettling? {
      forall t | t in w.mem && Restored(w.mem[t])
        ensures SettledFor(w.mem, RootsOf(w.mem), t)
      {
      }
    }
    assert ServingOk(Next(w, e));
  }

  lemma StepOther(w: World, e: Event)
    requires ProcessOk(w) && Enabled(w, e) && Consistent(w.disk, w.clock)
    requires e.GiveUp? || e.ReadAll? || e.Crash? || e.Boot? || e.StartEffect?
    ensures ProcessOk(Next(w, e))
  {
    if e.ReadAll? { StepReadAll(w, e); }
  }

  lemma StepReadAll(w: World, e: Event)
    requires ProcessOk(w) && e.ReadAll? && Enabled(w, e)
    ensures ProcessOk(Next(w, e))
  {
    SettledUnlessPending(w.mem);
  }

  lemma SettledUnlessPending(j: Journal)
    ensures !SettlementPending(j) ==> Settled(j)
  {
    if !SettlementPending(j) {
      forall s, id | s in j && Restored(j[s]) && id in j ensures !Open(j, RootsOf(j), s, id) {
      }
    }
  }

  lemma StartKeepsDisk(w: World)
    requires Inv(w) && Enabled(w, StartEffect)
    ensures DiskOk(Next(w, StartEffect))
  {
    var w' := Next(w, StartEffect);
    assert ServingOk(w);
    forall id | id in w'.effects ensures id in w'.disk && w'.effects[id] == 1 {
      assert id in w.effects || id == w.active.value;
    }
  }

  predicate QuietEvent(e: Event) {
    e.GiveUp? || e.ReadAll? || e.Crash? || e.Boot? || e.Serve? || e.FinishSettling?
  }

  lemma QuietLeavesDisk(w: World, e: Event)
    requires Enabled(w, e) && QuietEvent(e) && (!w.process.Down? ==> w.target != 0)
    ensures Next(w, e).disk == w.disk && Next(w, e).clock == w.clock && Next(w, e).effects == w.effects
    ensures !Next(w, e).process.Down? ==> Next(w, e).target != 0
  {
  }

  lemma SameDisk(w: World, w': World)
    requires DiskOk(w) && w'.disk == w.disk && w'.clock == w.clock && w'.effects == w.effects
    requires !w'.process.Down? ==> w'.target != 0
    ensures DiskOk(w')
  {
  }

  lemma QuietKeepsDisk(w: World, e: Event)
    requires DiskOk(w) && Enabled(w, e) && QuietEvent(e)
    ensures DiskOk(Next(w, e))
  {
    QuietLeavesDisk(w, e);
    SameDisk(w, Next(w, e));
  }

  lemma SettleKeepsInv(w: World, s: Id, id: Id, o: Write)
    requires Inv(w) && Enabled(w, Settle(s, id, o))
    ensures Inv(Next(w, Settle(s, id, o)))
  {
    SettleKeepsDisk(w, s, id, o);
    if w.process.RollingForward? { StepSettleLoading(w, s, id, o); } else { StepSettleServing(w, s, id, o); }
  }

  lemma QuietKeepsInv(w: World, e: Event)
    requires Inv(w) && Enabled(w, e) && (QuietEvent(e) || e.StartEffect?)
    ensures Inv(Next(w, e))
  {
    if e.StartEffect? { StartKeepsDisk(w); } else { QuietKeepsDisk(w, e); }
    if e.Serve? || e.FinishSettling? { StepServe(w, e); } else { StepOther(w, e); }
  }

  lemma StepKeepsInv(w: World, e: Event)
    requires Inv(w) && Enabled(w, e)
    ensures Inv(Next(w, e))
  {
    match e
    case Read(id, o) =>
      ReadKeepsDisk(w, id, o);
      StepRead(w, id, o);
    case Settle(s, id, o) =>
      SettleKeepsInv(w, s, id, o);
    case Submit(q, peer, at, o) =>
      SubmitKeepsDisk(w, q, peer, at, o);
      StepSubmit(w, q, peer, at, o);
    case Gate(o) =>
      StepGate(w, o);
    case Final(state, phase, o) =>
      FinalKeepsDisk(w, state, phase, o);
      StepFinal(w, state, phase, o);
    case _ =>
      QuietKeepsInv(w, e);
  }

  /** Every state of every run satisfies the invariant. */
  lemma {:induction false} EveryRun(run: Run)
    requires Legal(run)
    ensures Inv(Now(run))
  {
    if run.Then? {
      EveryRun(run.past);
      StepKeepsInv(Now(run.past), run.event);
    }
  }
}
