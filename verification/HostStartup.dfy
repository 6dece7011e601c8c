/** What becomes of work that was under way when the helper stopped (`load` in
    internal/hostexec/executor.go). */
module HostStartup {
  import opened Domain
  import opened RecoveryGraph
  import opened HostJournal
  import opened HostMachine
  import opened HostGuarantees

  /** `r` says that a refresh, a policy export or evidence work was interrupted and failed, or
      that the effects of anything else are unknown. */
  predicate Marked(before: Record, r: Record) {
    var action := before.request.action;
    if action.HardwareRefresh? || action.CpuPolicyExport? || EvidenceAction(action)
    then r == before.(state := Failed, phase := ReadOnlyInterrupted)
    else r == before.(state := RecoveryRequired, phase := ExecutorRestart)
  }

  /** Marked, or after that resolved by a restore recorded since. */
  predicate Accounted(before: Record, known: set<Id>, r: Record, recorded: set<Id>) {
    || Marked(before, r)
    || (&& HostRestoreRequired(before.request.action)
        && r == before.(state := Failed, phase := r.phase)
        && r.phase.RecoveredBy? && r.phase.restore in recorded && r.phase.restore !in known)
  }

  /** Until the entry of `id` is read it may be as it was left; from then on it is accounted for. */
  predicate Followed(before: Record, known: set<Id>, w: World, id: Id) {
    && id in w.disk
    && (Accounted(before, known, w.disk[id], w.disk.Keys) ||
        ((w.process.Down? || (w.process.Loading? && id in w.process.unread)) && w.disk[id] == before))
  }

  lemma InterruptMarks(r: Record)
    ensures Marked(r, Interrupt(r))
  {
  }

  lemma ReadFollows(before: Record, known: set<Id>, w: World, id: Id, m: Id, o: Write)
    requires before.state.Running? && Followed(before, known, w, id) && Enabled(w, Read(m, o))
    ensures Followed(before, known, Next(w, Read(m, o)), id)
  {
    InterruptMarks(before);
  }

  /** A write that leaves the record of `id` alone. */
  lemma ElsewhereFollows(before: Record, known: set<Id>, w: World, w': World, id: Id)
    requires id in w.disk && Accounted(before, known, w.disk[id], w.disk.Keys)
    requires w.disk.Keys <= w'.disk.Keys && w'.disk[id] == w.disk[id]
    ensures Followed(before, known, w', id)
  {
  }

  lemma SettleWrites(w: World, s: Id, id: Id, o: Write)
    requires Enabled(w, Settle(s, id, o)) && w.mem == w.disk
    ensures id in w.disk && s in w.disk && w.disk[id].state.RecoveryRequired?
    ensures var j := Next(w, Settle(s, id, o)).disk;
            j == w.disk || j == w.disk[id := w.disk[id].(state := Failed, phase := RecoveredBy(s))]
  {
  }

  lemma SettleFollows(before: Record, known: set<Id>, w: World, id: Id, e: Event)
    requires e.Settle? && Enabled(w, e) && w.mem == w.disk && RecordOk(before, id, w.clock)
    requires before.state.Running? && Followed(before, known, w, id) && !w.process.Loading? && !w.process.Down?
    requires e.id == id ==> e.restore !in known
    ensures Followed(before, known, Next(w, e), id)
  {
    SettleWrites(w, e.restore, e.id, e.outcome);
    if e.id == id { SettledIsAccounted(before, known, w.disk, id, e.restore); }
    if e.id != id || Next(w, e).disk == w.disk { ElsewhereFollows(before, known, w, Next(w, e), id); }
  }

  lemma SettledIsAccounted(before: Record, known: set<Id>, j: Journal, id: Id, s: Id)
    requires id in j && s in j && s !in known && HostRestoreRequired(before.request.action)
    requires j[id].state.RecoveryRequired? && Accounted(before, known, j[id], j.Keys)
    ensures Accounted(before, known, j[id].(state := Failed, phase := RecoveredBy(s)), j.Keys)
  {
  }

  /** The work in progress is another record, or a new one. */
  lemma WorkWrites(w: World, e: Event)
    requires (e.Submit? || e.Gate? || e.Final?) && Enabled(w, e) && ServingOk(w)
    requires e.Submit? || w.mem[w.active.value].request.id == w.active.value
    ensures w.disk.Keys <= Next(w, e).disk.Keys
    ensures forall id | id in w.disk && !w.disk[id].state.Running? :: Next(w, e).disk[id] == w.disk[id]
  {
  }

  lemma WorkFollows(before: Record, known: set<Id>, w: World, id: Id, e: Event)
    requires (e.Submit? || e.Gate? || e.Final?) && Enabled(w, e) && ServingOk(w)
    requires e.Submit? || w.mem[w.active.value].request.id == w.active.value
    requires before.state.Running? && Followed(before, known, w, id)
    ensures Followed(before, known, Next(w, e), id)
  {
    WorkWrites(w, e);
    ElsewhereFollows(before, known, w, Next(w, e), id);
  }

  lemma ServingFacts(w: World, e: Event)
    requires Inv(w) && (e.Submit? || e.Gate? || e.Final?) && Enabled(w, e)
    ensures ServingOk(w) && (e.Submit? || w.mem[w.active.value].request.id == w.active.value)
  {
    if !e.Submit? { assert RecordOk(w.mem[w.active.value], w.active.value, w.clock); }
  }

  lemma SettlingFacts(w: World, e: Event)
    requires ProcessOk(w) && e.Settle? && Enabled(w, e)
    ensures w.mem == w.disk && !w.process.Loading? && !w.process.Down?
  {
  }

  lemma OtherFollows(before: Record, known: set<Id>, w: World, id: Id, e: Event)
    requires Enabled(w, e) && (QuietEvent(e) || e.StartEffect?)
    requires before.state.Running? && Followed(before, known, w, id)
    ensures Followed(before, known, Next(w, e), id)
  {
  }

  lemma StepFollows(before: Record, known: set<Id>, w: World, id: Id, e: Event)
    requires Inv(w) && Enabled(w, e) && RecordOk(before, id, w.clock)
    requires before.state.Running? && Followed(before, known, w, id)
    requires e.Settle? && e.id == id ==> e.restore !in known
    ensures Followed(before, known, Next(w, e), id)
  {
    match e
    case Read(m, o) => ReadFollows(before, known, w, id, m, o);
    case Settle(_, _, _) =>
      SettlingFacts(w, e);
      SettleFollows(before, known, w, id, e);
    case _ =>
      if e.Submit? || e.Gate? || e.Final? {
        ServingFacts(w, e);
        WorkFollows(before, known, w, id, e);
      } else {
        OtherFollows(before, known, w, id, e);
      }
  }

  /** Nothing recorded in the chain of a running record has succeeded, or ever will. */
  lemma NeverSucceeds(crash: Journal, roots: map<Id, Id>, clock: nat, j: Journal, id: Id, s: Id)
    requires ConsistentBy(crash, roots, clock) && AllKept(crash, j) && id in crash && crash[id].state.Running?
    requires s in crash && s != id && SameChain(roots, s, id)
    ensures !j[s].state.Succeeded?
  {
    assert RunningOk(crash, roots, id);
    assert Kept(crash[s], j[s]);
  }

  /** Only a restore recorded since can come to settle what was interrupted. */
  lemma SettlerIsNew(crash: Journal, clock: nat, j: Journal, id: Id, s: Id)
    requires Consistent(crash, clock) && AllKept(crash, j) && id in crash && crash[id].state.Running?
    requires s in j && Restored(j[s]) && Open(j, RootsOf(j), s, id)
    ensures s !in crash
  {
    if s in crash {
      var roots := RootsOf(crash);
      assert roots.Keys == crash.Keys;
      SameRootsLater(crash, j, s);
      SameRootsLater(crash, j, id);
      NeverSucceeds(crash, roots, clock, j, id, s);
    }
  }

  lemma SameRootsLater(crash: Journal, j: Journal, k: Id)
    requires AllKept(crash, j) && k in RootsOf(crash)
    ensures k in RootsOf(j) && RootsOf(j)[k] == RootsOf(crash)[k]
  {
    RootSurvivesExtension(LinksOf(crash), LinksOf(j), k);
  }

  lemma {:induction false} InterruptedIsFollowed(run: Run, later: Run, id: Id)
    requires Legal(later) && Extends(later, run) && Legal(run) && Now(run).process.Down?
    requires id in Now(run).disk && Now(run).disk[id].state.Running?
    ensures Followed(Now(run).disk[id], Now(run).disk.Keys, Now(later), id)
  {
    if later != run {
      InterruptedIsFollowed(run, later.past, id);
      HistoryIsKept(run, later.past);
      EveryRun(run);
      EveryRun(later.past);
      OneStepFollows(Now(run), Now(later.past), later.event, id);
    }
  }

  lemma OneStepFollows(a: World, w: World, e: Event, id: Id)
    requires DiskOk(a) && Inv(w) && AllKept(a.disk, w.disk) && Enabled(w, e)
    requires id in a.disk && a.disk[id].state.Running? && Followed(a.disk[id], a.disk.Keys, w, id)
    ensures Followed(a.disk[id], a.disk.Keys, Next(w, e), id)
  {
    assert RecordOk(a.disk[id], id, a.clock);
    if e.Settle? && e.id == id {
      SettlingFacts(w, e);
      SettlerIsNew(a.disk, a.clock, w.disk, id, e.restore);
    }
    StepFollows(a.disk[id], a.disk.Keys, w, id, e);
  }

  /** Work under way when the helper stopped is never forgotten: from the next successful start
      on, a diagnostic is recorded as failed, and anything else as requiring recovery until a
      restore recorded since has resolved it. */
  lemma {:induction false} InterruptedIsAccounted(run: Run, later: Run, id: Id)
    requires Legal(later) && Extends(later, run) && Legal(run) && Now(run).process.Down?
    requires id in Now(run).disk && Now(run).disk[id].state.Running?
    requires Now(later).process.Up?
    ensures var j := Now(later).disk; id in j && Accounted(Now(run).disk[id], Now(run).disk.Keys, j[id], j.Keys)
  {
    InterruptedIsFollowed(run, later, id);
  }

  /** So after the start, with nothing recorded since, no request without a parent is taken
      unless what was interrupted was a diagnostic. */
  lemma {:induction false} InterruptedWorkFences(run: Run, later: Run, id: Id, q: Request, peer: nat, at: nat, o: Write)
    requires Legal(later) && Extends(later, run) && Legal(run) && Now(run).process.Down?
    requires id in Now(run).disk && Now(run).disk[id].state.Running? && !ReadOnlyAction(Now(run).disk[id].request.action)
    requires Now(later).process.Up? && Now(later).disk.Keys == Now(run).disk.Keys && q.parent == 0
    ensures Now(later).disk[id].state.RecoveryRequired?
    ensures !Enabled(Now(later), Submit(q, peer, at, o))
  {
    InterruptedIsAccounted(run, later, id);
    EveryRun(later);
    NoFreshWork(Now(later), id, q, peer, at, o);
  }

  lemma NoFreshWork(w: World, id: Id, q: Request, peer: nat, at: nat, o: Write)
    requires ProcessOk(w) && w.process.Up? && id in w.disk && w.disk[id].state.RecoveryRequired? && q.parent == 0
    ensures !Enabled(w, Submit(q, peer, at, o))
  {
  }
}
