/** What the host helper promises its clients and its owner, over every run of
    `HostMachine` (internal/hostexec/executor.go, docs/HOST-EXECUTOR.md). */
module HostGuarantees {
  import opened Domain
  import opened RecoveryGraph
  import opened HostJournal
  import opened HostMachine

  /** The state reported for a record: behind the fence, a completed restore is not yet
      reported as such. */
  function VisibleState(fenced: bool, r: Record): State {
    if fenced && Restored(r) then RecoveryRequired else r.state
  }

  /** On a journal the helper wrote, settlement never finds its chain ambiguous. */
  lemma {:induction false} SettlementNeverAmbiguous(run: Run, restore: Id)
    requires Legal(run) && InSettlement(Now(run), restore)
    ensures !Ambiguous(Now(run).mem, RootsOf(Now(run).mem), restore)
    ensures !Enabled(Now(run), GiveUp(restore))
  {
    EveryRun(run);
    var w := Now(run);
    assert w.mem == w.disk;
    CompletedIsLast(w.mem, RootsOf(w.mem), w.clock, restore);
  }

  lemma CompletedIsLast(j: Journal, roots: map<Id, Id>, clock: nat, s: Id)
    requires ConsistentBy(j, roots, clock) && s in j && j[s].state.Succeeded?
    ensures !Ambiguous(j, roots, s)
    ensures forall m | m in j && m != s && SameChain(roots, m, s) ::
              j[m].startedAt < j[s].startedAt && !j[m].state.Succeeded?
  {
    assert SuccessOk(j, roots, s);
    assert RecordOk(j[s], s, clock);
    forall m | m in j && Open(j, roots, s, m) ensures StartedBefore(j[m], j[s]) {
      assert RecordOk(j[m], m, clock);
    }
  }

  /** Every settlement write, at startup or after a completed restore, is made under the
      canonical lock. */
  lemma {:induction false} SettlementHoldsLock(run: Run, restore: Id, id: Id, o: Write)
    requires Legal(run) && Enabled(Now(run), Settle(restore, id, o))
    ensures Now(run).lock
  {
    EveryRun(run);
    OpenIsUnsettled(Now(run).mem, restore, id);
  }

  /** Whoever may ask, the helper serves only when every completed restore is settled. */
  lemma {:induction false} ServingMeansSettled(run: Run)
    requires Legal(run) && Now(run).process.Up? && !Now(run).fenced
    ensures Settled(Now(run).mem) && Now(run).mem == Now(run).disk
  {
    EveryRun(run);
  }

  /** All records awaiting recovery lie in one chain, and every link resolves, on disk
      always and in memory whenever the helper serves. */
  lemma {:induction false} OneUnresolvedChain(run: Run, a: Id, b: Id)
    requires Legal(run)
    ensures var j := Now(run).disk;
            && RootsOf(j).Keys == j.Keys
            && (a in j && b in j && j[a].state.RecoveryRequired? && j[b].state.RecoveryRequired? ==>
                  SameChain(RootsOf(j), a, b))
    ensures Now(run).process.Up? ==>
              var j := Now(run).mem;
              && RootsOf(j).Keys == j.Keys
              && (a in j && b in j && j[a].state.RecoveryRequired? && j[b].state.RecoveryRequired? ==>
                    SameChain(RootsOf(j), a, b))
  {
    EveryRun(run);
  }

  /** A serving, idle, healthy helper admits exactly these requests: without anything to
      recover, those naming no record; otherwise, restores naming any of the records
      awaiting recovery with their target. */
  lemma {:induction false} FenceIsExact(run: Run, q: Request)
    requires Legal(run)
    requires var w := Now(run); w.process.Up? && w.active.None? && !w.fenced
    ensures var j := Now(run).mem;
            RecoveryAdmits(j, RootsOf(j), q) <==>
              if exists id | id in j :: j[id].state.RecoveryRequired? then
                && q.action.ProfileRestore? && q.parent != 0
                && q.parent in j && j[q.parent].state.RecoveryRequired?
                && j[q.parent].request.target == q.target
              else
                q.parent == 0
  {
    EveryRun(run);
    var w := Now(run);
    if q.parent in w.mem { assert RecordOk(w.mem[q.parent], q.parent, w.clock); }
  }

  /** Under an unchanged policy target, a restore naming any record awaiting recovery can be
      submitted if and only if the journal has room for it. */
  lemma {:induction false} RecoveryIffRoom(run: Run, p: Id, newId: Id, payload: nat, peer: nat)
    requires Legal(run)
    requires var w := Now(run); w.process.Up? && w.active.None? && !w.fenced
    requires var j := Now(run).mem; p in j && j[p].state.RecoveryRequired? && j[p].request.target == Now(run).target
    requires newId != 0 && newId !in Now(run).mem
    ensures CanSubmit(Now(run), Request(newId, ProfileRestore, p, Now(run).target, payload), peer) <==> |Now(run).mem| < Now(run).limit
  {
    var q := Request(newId, ProfileRestore, p, Now(run).target, payload);
    RestoreIsAdmitted(run, p, q);
    RoomDecides(Now(run), q, peer);
  }

  /** The request is taken at the next tick of the clock, if its record can be written. */
  predicate CanSubmit(w: World, q: Request, peer: nat) {
    Enabled(w, Submit(q, peer, w.clock + 1, Written))
  }

  predicate Admitted(w: World, q: Request) {
    RecoveryAdmits(w.mem, RootsOf(w.mem), q)
  }

  lemma {:induction false} RestoreIsAdmitted(run: Run, p: Id, q: Request)
    requires Legal(run)
    requires var w := Now(run); w.process.Up? && w.active.None? && !w.fenced
    requires var j := Now(run).mem; p in j && j[p].state.RecoveryRequired? && j[p].request.target == q.target
    requires q.action.ProfileRestore? && q.parent == p
    ensures Admitted(Now(run), q)
  {
    FenceIsExact(run, q);
    RecordedIdsAreReal(run, p);
  }

  lemma {:induction false} RecordedIdsAreReal(run: Run, p: Id)
    requires Legal(run) && Now(run).process.Up? && !Now(run).fenced && p in Now(run).mem
    ensures p != 0
  {
    EveryRun(run);
    assert RecordOk(Now(run).mem[p], p, Now(run).clock);
  }

  lemma RoomDecides(w: World, q: Request, peer: nat)
    requires w.process.Up? && w.active.None? && !w.fenced && q.id != 0 && q.id !in w.mem && q.target == w.target && HostAction(q.action)
    ensures Admitted(w, q) ==> (CanSubmit(w, q, peer) <==> |w.mem| < w.limit)
  {
  }

  /** A client is told that a restore succeeded only when every other record of its chain
      is durably resolved, and then it is the last-started and only success of the chain. */
  lemma {:induction false} ToldSucceededMeansSettled(run: Run, s: Id)
    requires Legal(run) && Now(run).process.Up?
    requires var w := Now(run); s in w.mem && Restored(w.mem[s]) && VisibleState(w.fenced, w.mem[s]).Succeeded?
    ensures var j := Now(run).disk;
            && s in j && Restored(j[s])
            && forall m | m in j && m != s && SameChain(RootsOf(j), m, s) ::
                 && !j[m].state.RecoveryRequired?
                 && !j[m].state.Succeeded?
                 && j[m].startedAt < j[s].startedAt
  {
    EveryRun(run);
    var w := Now(run);
    var roots := RootsOf(w.disk);
    CompletedIsLast(w.disk, roots, w.clock, s);
    assert SettledFor(w.disk, roots, s);
    forall m | m in w.disk && m != s && SameChain(roots, m, s)
      ensures !w.disk[m].state.RecoveryRequired?
    {
      assert !Open(w.disk, roots, s, m);
    }
  }

  /** At any time, crashed or not, a chain holds at most one success. */
  lemma {:induction false} OneSuccessPerChain(run: Run, s: Id, t: Id)
    requires Legal(run)
    requires var j := Now(run).disk; s in j && t in j && j[s].state.Succeeded? && j[t].state.Succeeded? && SameChain(RootsOf(j), s, t)
    ensures s == t
  {
    EveryRun(run);
    if s != t { CompletedIsLast(Now(run).disk, RootsOf(Now(run).disk), Now(run).clock, s); }
  }

  /** The effect of `id` has been started at most once. If it is about to be started, it has
      not been, and a running record of it is on disk. */
  predicate StartedAtMostOnce(w: World, id: Id) {
    && w.effects[id] <= 1
    && (w.active == Some(id) && Enabled(w, StartEffect) ==>
          w.effects[id] == 0 && id in w.disk && w.disk[id].state.Running?)
  }

  lemma StartedAtMostOnceIn(w: World, id: Id)
    requires EffectsOk(w) && (w.process.Up? ==> if w.fenced then w.active.None? else ServingOk(w))
    ensures StartedAtMostOnce(w, id)
  {
    if id in w.effects { assert w.effects[id] == 1; }
  }

  lemma EffectsAreOk(w: World)
    requires Inv(w)
    ensures EffectsOk(w) && (w.process.Up? ==> if w.fenced then w.active.None? else ServingOk(w))
  {
  }

  /** An external effect is started at most once for an operation, over all restarts. */
  lemma {:induction false} EffectAtMostOnce(run: Run, id: Id)
    requires Legal(run)
    ensures StartedAtMostOnce(Now(run), id)
  {
    EveryRun(run);
    EffectsAreOk(Now(run));
    StartedAtMostOnceIn(Now(run), id);
  }

  // ---------------------------------------------------------------------------
  // History.

  /** What may happen to a durable record later: nothing once it has succeeded or failed, and
      only work in progress comes to succeed. */
  predicate Kept(before: Record, after: Record) {
    && after.request == before.request
    && after.startedAt == before.startedAt
    && (before.state.Succeeded? || before.state.Failed? ==> after == before)
    && (!before.state.Running? && (after.state.Running? || after.state.Succeeded?) ==> after.state == before.state)
    && (before.state.RecoveryRequired? ==> after == before || (after.state.Failed? && after.phase.RecoveredBy?))
  }

  predicate AllKept(before: Journal, after: Journal) {
    forall id | id in before :: id in after && Kept(before[id], after[id])
  }

  lemma SaveKeepsHistory(w: World, r: Record, o: Write)
    requires r.request.id in w.disk ==> Kept(w.disk[r.request.id], r)
    ensures AllKept(w.disk, Save(w, r, o).disk)
  {
  }

  lemma ReadKeepsHistory(w: World, id: Id, o: Write)
    requires Applicable(w, Read(id, o)) && !w.disk[id].state.Queued?
    ensures AllKept(w.disk, Next(w, Read(id, o)).disk)
  {
    if Interrupted(w.disk[id]) {
      SaveKeepsHistory(w, Interrupt(w.disk[id]), o);
    }
  }

  lemma SettleKeepsHistory(w: World, s: Id, id: Id, o: Write)
    requires ProcessOk(w) && Enabled(w, Settle(s, id, o))
    ensures AllKept(w.disk, Next(w, Settle(s, id, o)).disk)
  {
    assert w.mem == w.disk;
    SaveKeepsHistory(w, SettledRecord(w.mem[id], s), o);
  }

  lemma ActiveKeepsHistory(w: World, e: Event)
    requires Inv(w) && Enabled(w, e) && (e.Gate? || e.Final?)
    ensures AllKept(w.disk, Next(w, e).disk)
  {
    var r := w.disk[w.active.value];
    assert RecordOk(r, w.active.value, w.clock);
    if e.Gate? {
      SaveKeepsHistory(w, r.(phase := BuildGateDisposition), e.outcome);
    } else {
      SaveKeepsHistory(w, r.(state := e.state, phase := e.phase), e.outcome);
    }
  }

  lemma SubmitKeepsHistory(w: World, e: Event)
    requires ProcessOk(w) && Enabled(w, e) && e.Submit?
    ensures AllKept(w.disk, Next(w, e).disk)
  {
    assert ServingOk(w);
    SaveKeepsHistory(w, Record(e.request, e.peer, e.at, Running, IntentPersisted), e.outcome);
  }

  lemma QuietKeepsHistory(w: World, e: Event)
    requires Applicable(w, e)
    requires e.GiveUp? || e.ReadAll? || e.Crash? || e.Boot? || e.Serve? || e.FinishSettling? || e.StartEffect?
    ensures AllKept(w.disk, Next(w, e).disk)
  {
    assert Next(w, e).disk == w.disk;
  }

  lemma StepKeepsHistory(w: World, e: Event)
    requires Inv(w) && Enabled(w, e)
    ensures AllKept(w.disk, Next(w, e).disk)
  {
    match e
    case Read(id, o) =>
      assert RecordOk(w.disk[id], id, w.clock);
      ReadKeepsHistory(w, id, o);
    case Settle(s, id, o) => SettleKeepsHistory(w, s, id, o);
    case Gate(_) => ActiveKeepsHistory(w, e);
    case Final(_, _, _) => ActiveKeepsHistory(w, e);
    case Submit(_, _, _, _) => SubmitKeepsHistory(w, e);
    case _ => QuietKeepsHistory(w, e);
  }

  lemma KeptOnwards(a: Journal, b: Journal, c: Journal)
    requires AllKept(a, b) && AllKept(b, c)
    ensures AllKept(a, c)
  {
  }

  /** Whatever happens later, finished records stay as they are and the others keep their
      request; nothing is forgotten. */
  lemma {:induction false} HistoryIsKept(run: Run, later: Run)
    requires Legal(later) && Extends(later, run)
    ensures Legal(run) && AllKept(Now(run).disk, Now(later).disk)
  {
    if later != run {
      HistoryIsKept(run, later.past);
      EveryRun(later.past);
      StepKeepsHistory(Now(later.past), later.event);
      KeptOnwards(Now(run).disk, Now(later.past).disk, Now(later).disk);
    }
  }
}
