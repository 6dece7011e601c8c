/** The host helper itself (internal/hostexec/executor.go): the methods that keep the
    journal, each proved to take only steps of `HostMachine`. */
module HostExecutor {
  import opened Domain
  import opened RecoveryGraph
  import opened HostJournal
  import opened HostMachine
  import opened HostGuarantees
  import opened HostStartup

  /** How the external work of an operation ended. */
  datatype RunResult = Completed | RefusedInPreflight | Uncertain

  datatype Settlement = Done | Interruption | Ambiguity

  datatype Reply =
    | Refused                     // with an error; nothing was recorded
    | Known(state: State)         // an operation already recorded under this ID
    | Accepted                    // recorded and started

  /** What a completed run is first recorded as. */
  function ResultState(action: Action, result: RunResult): State {
    if result.Completed? then Succeeded
    else if ReadOnlyAction(action) || result.RefusedInPreflight? then Failed
    else RecoveryRequired
  }

  function ResultPhase(action: Action, result: RunResult): Phase {
    if result.Completed? then (if EvidenceAction(action) then AnalysisComplete else EffectsComplete)
    else if ReadOnlyAction(action) then ReadOnlyFailed
    else if result.RefusedInPreflight? then PreflightRefused
    else EffectUncertain
  }

  /** How a record ends: a diagnostic succeeds or fails; anything else fails if it was refused
      before its effects, succeeds if it completed and the build gate was disposed of, and
      requires recovery in all other cases. */
  predicate EndsAs(r: Record, result: RunResult, gateOk: bool) {
    var action := r.request.action;
    if action.HardwareRefresh? || action.CpuPolicyExport? || EvidenceAction(action) then
      if result.Completed?
      then r.state.Succeeded? && r.phase == (if EvidenceAction(action) then AnalysisComplete else EffectsComplete)
      else r.state.Failed? && r.phase.ReadOnlyFailed?
    else
      match result
      case RefusedInPreflight => r.state.Failed? && r.phase.PreflightRefused?
      case Uncertain => r.state.RecoveryRequired? && r.phase.EffectUncertain?
      case Completed =>
        if gateOk then r.state.Succeeded? && r.phase.EffectsComplete?
        else r.state.RecoveryRequired? && r.phase.BuildGateDisposition?
  }

  class Executor {
    const allowedPeer: nat
    const maxRecords: nat
    const target: Id
    var disk: Journal           // the journal directory
    var records: Journal
    var active: bool
    var journalFailed: bool
    ghost var run: Run          // everything that has happened to this journal

    /** The object agrees with the run. Once the process is down only the disk counts. */
    ghost predicate Valid()
      reads this
    {
      && Legal(run)
      && disk == Now(run).disk
      && (Now(run).process.Down? || (
            && records == Now(run).mem
            && journalFailed == Now(run).fenced
            && active == Now(run).active.Some?
            && target == Now(run).target && maxRecords == Now(run).limit))
    }

    ghost predicate Serving()
      reads this
    {
      Valid() && Now(run).process.Up?
    }

    /** A process started over the journal that some run left behind. */
    constructor (directory: Journal, policyTarget: Id, peer: nat, limit: nat, ghost past: Run)
      requires Legal(past) && Now(past).process.Down? && Now(past).disk == directory
      ensures Valid() && run == past && target == policyTarget && allowedPeer == peer && maxRecords == limit
      ensures records == map[] && !active && !journalFailed
    {
      allowedPeer, maxRecords, target := peer, limit, policyTarget;
      disk, records, active, journalFailed := directory, map[], false, false;
      run := past;
    }

    ghost method Happened(e: Event)
      requires Legal(run) && Enabled(Now(run), e)
      modifies this`run
      ensures run == Then(old(run), e) && Legal(run) && Now(run) == Next(Now(old(run)), e)
    {
      run := Then(run, e);
    }

    /** Replaces one record. The caller learns only whether an error was reported. */
    method SaveRecord(r: Record) returns (ok: bool, ghost o: Write)
      modifies this`disk, this`records, this`journalFailed
      ensures ok == o.Written?
      ensures disk == if o.FailedBefore? then old(disk) else old(disk)[r.request.id := r]
      ensures records == if ok then old(records)[r.request.id := r] else old(records)
      ensures journalFailed == (old(journalFailed) || !ok)
    {
      var outcome: Write := *;
      o := outcome;
      if !outcome.FailedBefore? {
        disk := disk[r.request.id := r];
      }
      ok := outcome.Written?;
      if ok {
        records := records[r.request.id := r];
      } else {
        journalFailed := true;
      }
    }

    method RecoveryLinks() returns (links: Links)
      ensures links == LinksOf(records)
    {
      links := map[];
      var todo := records.Keys;
      while todo != {}
        invariant todo <= records.Keys
        invariant links.Keys == records.Keys - todo
        invariant forall id | id in links :: links[id] == LinksOf(records)[id]
        decreases todo
      {
        var id :| id in todo;
        todo := todo - {id};
        var q := records[id].request;
        links := links[id := Link(q.parent, q.target, q.action)];
      }
    }

    /** The recovery fence of `validate`. */
    method ValidateRecovery(q: Request) returns (ok: bool)
      ensures ok == RecoveryAdmits(records, RootsOf(records), q)
    {
      if q.parent == 0 {
        var todo := records.Keys;
        while todo != {}
          invariant todo <= records.Keys
          invariant forall id | id in records && id !in todo :: !records[id].state.RecoveryRequired?
          decreases todo
        {
          var id :| id in todo;
          todo := todo - {id};
          if records[id].state.RecoveryRequired? {
            return false;
          }
        }
        return true;
      }
      if !q.action.ProfileRestore? || q.parent !in records {
        return false;
      }
      var parent := records[q.parent];
      if !parent.state.RecoveryRequired? || !HostRestoreRequired(parent.request.action) || parent.request.target != q.target {
        return false;
      }
      var links := RecoveryLinks();
      var chain := RecoveryChain(links, q.parent);
      if chain.Err? || q.parent !in chain.value {
        return false;
      }
      var todo := records.Keys;
      while todo != {}
        invariant todo <= records.Keys
        invariant forall id | id in records && id !in todo && records[id].state.RecoveryRequired? :: id in chain.value
        decreases todo
      {
        var id :| id in todo;
        todo := todo - {id};
        if records[id].state.RecoveryRequired? && id !in chain.value {
          return false;
        }
      }
      return true;
    }

    /** Where a settlement that could not be completed leaves things: startup is refused,
        a serving helper is fenced. */
    ghost predicate Abandoned(loading: bool)
      reads this
    {
      && Legal(run)
      && disk == Now(run).disk
      && if loading then Now(run).process.Down?
         else
           && Now(run).process.Up? && Now(run).active.None? && Now(run).fenced && journalFailed
           && records == Now(run).mem && target == Now(run).target && maxRecords == Now(run).limit
    }

    /** Is every open record of the chain strictly older than the completed restore? */
    method ChainIsOrdered(s: Id, chain: set<Id>) returns (ok: bool)
      requires s in records && s in RootsOf(records) && chain == Chain(RootsOf(records), s)
      ensures ok == !Ambiguous(records, RootsOf(records), s)
    {
      ghost var roots := RootsOf(records);
      var todo := chain - {s};
      while todo != {}
        invariant todo <= chain - {s}
        invariant forall id | id in records && Open(records, roots, s, id) && id !in todo :: StartedBefore(records[id], records[s])
        decreases todo
      {
        var id :| id in todo;
        todo := todo - {id};
        var candidate, restored := records[id], records[s];
        if candidate.state.RecoveryRequired? &&
           (candidate.startedAt == 0 || restored.startedAt == 0 || !(candidate.startedAt < restored.startedAt)) {
          assert Open(records, roots, s, id);
          return false;
        }
      }
      return true;
    }

    method SettleRecord(s: Id, id: Id) returns (ok: bool)
      requires Valid() && InSettlement(Now(run), s) && Now(run).lock
      requires id in records && Open(records, RootsOf(records), s, id) && !Ambiguous(records, RootsOf(records), s)
      modifies this`disk, this`records, this`journalFailed, this`run
      ensures run.Then? && run.past == old(run)
      ensures !ok ==> Abandoned(old(Now(run).process.RollingForward?)) && records == old(records)
      ensures ok ==> Valid() && records == old(records)[id := SettledRecord(old(records)[id], s)]
      ensures ok ==> Now(run) == old(Now(run)).(disk := disk, mem := records)
    {
      RecordsKnowTheirId(run, id);
      ghost var o: Write;
      ok, o := SaveRecord(SettledRecord(records[id], s));
      Happened(Settle(s, id, o));
    }

    /** Fences the helper when the chain to settle is ambiguous. */
    method Refuse(s: Id)
      requires Valid() && InSettlement(Now(run), s) && Ambiguous(records, RootsOf(records), s)
      modifies this`journalFailed, this`run
      ensures Abandoned(old(Now(run).process.RollingForward?)) && run.Then? && run.past == old(run)
    {
      journalFailed := true;
      Happened(GiveUp(s));
    }

    /** The chain of a completed restore, unless it is ambiguous. */
    method ChainToSettle(s: Id) returns (chain: Option<set<Id>>)
      requires s in records
      ensures chain.None? <==> Ambiguous(records, RootsOf(records), s)
      ensures chain.Some? ==> s in RootsOf(records) && chain.value == Chain(RootsOf(records), s)
    {
      var links := RecoveryLinks();
      var found := RecoveryChain(links, s);
      if found.Err? || s !in found.value {
        return None;
      }
      var ordered := ChainIsOrdered(s, found.value);
      return if ordered then Some(found.value) else None;
    }

    method SettleAll(s: Id, chain: set<Id>) returns (ok: bool)
      requires Valid() && InSettlement(Now(run), s) && !Ambiguous(records, RootsOf(records), s)
      requires chain == Chain(RootsOf(records), s)
      requires Now(run).lock || SettledFor(records, RootsOf(records), s)
      modifies this`disk, this`records, this`journalFailed, this`run
      ensures Extends(run, old(run))
      ensures OnlySettled(old(records), records, RootsOf(old(records)), s)
      ensures ok ==> Valid() && SettledFor(records, RootsOf(records), s) && RootsOf(records) == RootsOf(old(records))
      ensures ok ==> Now(run) == old(Now(run)).(disk := disk, mem := records)
      ensures !ok ==> Abandoned(old(Now(run).process.RollingForward?))
    {
      ghost var roots := RootsOf(records);
      ghost var start, w, before := run, Now(run), records;
      var todo := chain - {s};
      while todo != {}
        invariant todo <= chain - {s} && Underway(start, w, before, roots, s)
        invariant forall id | id in records && Open(records, roots, s, id) :: id in todo
        decreases todo
      {
        var id :| id in todo;
        todo := todo - {id};
        ok := SettleIfOpen(s, id, start, w, before, roots);
        if !ok {
          return;
        }
      }
      return true;
    }

    /** Part of the chain has been settled since `start`, and nothing else has happened. */
    ghost predicate Underway(start: Run, w: World, before: Journal, roots: map<Id, Id>, s: Id)
      reads this
    {
      && Valid() && Extends(run, start) && Now(run) == w.(disk := disk, mem := records)
      && OnlySettled(before, records, roots, s) && RootsOf(records) == roots
      && s in records && !Ambiguous(records, roots, s)
    }

    method SettleIfOpen(s: Id, id: Id, ghost start: Run, ghost w: World, ghost before: Journal, ghost roots: map<Id, Id>)
      returns (ok: bool)
      requires Underway(start, w, before, roots, s) && InSettlement(Now(run), s)
      requires Now(run).lock || SettledFor(records, roots, s)
      requires id in records && id != s && SameChain(roots, s, id)
      modifies this`disk, this`records, this`journalFailed, this`run
      ensures Extends(run, start) && OnlySettled(before, records, roots, s)
      ensures ok ==> Underway(start, w, before, roots, s)
      ensures ok ==> forall m | m in records && Open(records, roots, s, m) :: m in old(records) && Open(old(records), roots, s, m) && m != id
      ensures !ok ==> Abandoned(old(Now(run).process.RollingForward?))
    {
      if !records[id].state.RecoveryRequired? {
        return true;
      }
      SettleStep(before, records, roots, s, id);
      ok := SettleRecord(s, id);
    }

    /** Marks every other unresolved member of the chain of a completed restore as failed,
        one durable write at a time. */
    method SettleRecoveryChain(s: Id) returns (r: Settlement)
      requires Valid() && InSettlement(Now(run), s)
      requires Now(run).lock || SettledFor(records, RootsOf(records), s)
      modifies this`disk, this`records, this`journalFailed, this`run
      ensures Extends(run, old(run))
      ensures r.Ambiguity? <==> Ambiguous(old(records), RootsOf(old(records)), s)
      ensures OnlySettled(old(records), records, RootsOf(old(records)), s)
      ensures r.Done? ==> Valid() && SettledFor(records, RootsOf(records), s) && RootsOf(records) == RootsOf(old(records))
      ensures r.Done? ==> Now(run) == old(Now(run)).(disk := disk, mem := records)
      ensures !r.Done? ==> Abandoned(old(Now(run).process.RollingForward?))
    {
      var chain := ChainToSettle(s);
      if chain.None? {
        Refuse(s);
        return Ambiguity;
      }
      var ok := SettleAll(s, chain.value);
      return if ok then Done else Interruption;
    }

    method HasOpen(s: Id, chain: set<Id>) returns (found: bool)
      requires s in RootsOf(records) && chain == Chain(RootsOf(records), s)
      ensures found == exists id | id in records :: Open(records, RootsOf(records), s, id)
    {
      var todo := chain;
      while todo != {}
        invariant todo <= chain
        invariant forall id | id in records && Open(records, RootsOf(records), s, id) :: id in todo
        decreases todo
      {
        var candidate :| candidate in todo;
        todo := todo - {candidate};
        if candidate != s && records[candidate].state.RecoveryRequired? {
          assert Open(records, RootsOf(records), s, candidate);
          return true;
        }
      }
      return false;
    }

    /** Does some completed restore have an open record in its chain? */
    method RecoverySettlementPending() returns (pending: bool)
      ensures pending == SettlementPending(records)
    {
      var links := RecoveryLinks();
      var todo := records.Keys;
      while todo != {}
        invariant todo <= records.Keys
        invariant forall s, id | s in records && id in records && Restored(records[s]) && Open(records, RootsOf(records), s, id) :: s in todo
        decreases todo
      {
        var s :| s in todo;
        todo := todo - {s};
        var r := records[s];
        if r.state.Succeeded? && r.request.action.ProfileRestore? && r.request.parent != 0 {
          var chain := RecoveryChain(links, s);
          if chain.Ok? {
            var open := HasOpen(s, chain.value);
            if open {
              return true;
            }
          }
        }
      }
      return false;
    }

    /** Reads one journal entry; interrupted work is marked before anything else happens. */
    method ReadEntry(id: Id) returns (ok: bool)
      requires Valid() && Now(run).process.Loading? && id in Now(run).process.unread && id in disk
      modifies this`disk, this`records, this`journalFailed, this`run
      ensures run.Then? && run.past == old(run)
      ensures ok ==> Valid() && Now(run).process == Loading(old(Now(run).process.unread) - {id})
      ensures !ok ==> Legal(run) && Now(run).process.Down?
      ensures disk == Now(run).disk && disk.Keys == old(disk.Keys)
    {
      EntriesKnowTheirId(run, id);
      if Interrupted(disk[id]) {
        ok := MarkInterrupted(id);
      } else {
        ReadIs(Now(run), id, Written);
        records := records[id := disk[id]];
        Happened(Read(id, Written));
        ok := true;
      }
    }

    method MarkInterrupted(id: Id) returns (ok: bool)
      requires Valid() && Now(run).process.Loading? && id in Now(run).process.unread && id in disk
      requires disk[id].request.id == id && Interrupted(disk[id])
      modifies this`disk, this`records, this`journalFailed, this`run
      ensures run.Then? && run.past == old(run)
      ensures ok ==> Valid() && Now(run).process == Loading(old(Now(run).process.unread) - {id})
      ensures !ok ==> Legal(run) && Now(run).process.Down?
      ensures disk == Now(run).disk && disk.Keys == old(disk.Keys)
    {
      records := records[id := disk[id]];
      ghost var o: Write;
      ok, o := SaveRecord(Interrupt(disk[id]));
      ReadIs(Now(run), id, o);
      Happened(Read(id, o));
    }

    method ReadJournal() returns (ok: bool)
      requires Valid() && Now(run).process == Loading(disk.Keys)
      modifies this`disk, this`records, this`journalFailed, this`run
      ensures Extends(run, old(run)) && Legal(run) && disk == Now(run).disk
      ensures ok ==> Valid() && Now(run).process == Loading({}) && disk.Keys == old(disk.Keys)
      ensures !ok ==> Now(run).process.Down?
    {
      var todo := disk.Keys;
      while todo != {}
        invariant Valid() && Extends(run, old(run)) && Now(run).process == Loading(todo) && todo <= disk.Keys == old(disk.Keys)
        decreases todo
      {
        var id :| id in todo;
        todo := todo - {id};
        ok := ReadEntry(id);
        if !ok {
          return;
        }
      }
      return true;
    }

    ghost predicate Rolling(start: Run, roots: map<Id, Id>)
      reads this
    {
      && Valid() && Extends(run, start) && Now(run).process.RollingForward?
      && RootsOf(records) == roots && (Now(run).lock || SettledBy(records, roots))
    }

    /** Settles one completed restore, and unsettles none. */
    method RollOne(s: Id, ghost start: Run, ghost roots: map<Id, Id>) returns (ok: bool)
      requires Rolling(start, roots) && s in records && Restored(records[s])
      modifies this`disk, this`records, this`journalFailed, this`run
      ensures Legal(run) && Extends(run, start) && disk == Now(run).disk
      ensures ok ==> Rolling(start, roots) && records.Keys == old(records).Keys && SettledFor(records, roots, s)
      ensures ok ==> forall t | t in records && Restored(records[t]) ::
                       Restored(old(records)[t]) && (SettledFor(old(records), roots, t) ==> SettledFor(records, roots, t))
      ensures !ok ==> Now(run).process.Down?
    {
      ghost var before, past := records, run;
      var r := SettleRecoveryChain(s);
      ExtendsTransitive(start, past, run);
      ok := r.Done?;
      if ok {
        SettlingOpensNothing(before, records, roots, s);
      }
    }

    /** Finishes the settlement of every completed restore. */
    method RollForward() returns (ok: bool)
      requires Valid() && Now(run).process.RollingForward?
      requires Now(run).lock || Settled(records)
      modifies this`disk, this`records, this`journalFailed, this`run
      ensures Extends(run, old(run)) && Legal(run) && disk == Now(run).disk
      ensures ok ==> Valid() && Now(run).process.RollingForward? && Settled(records) && records.Keys == old(records.Keys)
      ensures !ok ==> Now(run).process.Down?
    {
      ghost var roots, start := RootsOf(records), run;
      var todo := records.Keys;
      while todo != {}
        invariant todo <= records.Keys == old(records.Keys) && Rolling(start, roots)
        invariant forall s | s in records && s !in todo && Restored(records[s]) :: SettledFor(records, roots, s)
        decreases todo
      {
        var s :| s in todo;
        todo := todo - {s};
        if Restored(records[s]) {
          ok := RollOne(s, start, roots);
          if !ok {
            return;
          }
        }
      }
      return true;
    }

    /** Startup: serves only if every completed restore is settled. Work found running is
        recorded as failed if it was a refresh, a policy export or evidence work, and as
        requiring recovery otherwise; then nothing without a parent is admitted. */
    method Load(lockFree: bool) returns (ok: bool)
      requires Valid() && Now(run).process.Down? && target != 0
      requires records == map[] && !active && !journalFailed
      modifies this`disk, this`records, this`journalFailed, this`run
      ensures Extends(run, old(run))
      ensures ok ==> Serving() && !active && !journalFailed && records == disk && Settled(records)
      ensures ok ==> disk.Keys == old(disk.Keys) && AllKept(old(disk), disk)
      ensures ok ==> forall id | id in old(disk) && old(disk)[id].state.Running? ::
                       id in records && Marked(old(disk)[id], records[id])
      ensures ok ==> forall id, q: Request | id in old(disk) && old(disk)[id].state.Running? && q.parent == 0 ::
                       ReadOnlyAction(old(disk)[id].request.action) || !RecoveryAdmits(records, RootsOf(records), q)
      ensures !ok ==> Legal(run) && Now(run).process.Down? && disk == Now(run).disk
    {
      ghost var start := run;
      ok := LoadJournal(lockFree);
      if ok {
        HistoryIsKept(start, run);
        forall id | id in Now(start).disk && Now(start).disk[id].state.Running?
          ensures id in records && Marked(Now(start).disk[id], records[id])
        {
          InterruptedIsAccounted(start, run, id);
        }
      }
    }

    method LoadJournal(lockFree: bool) returns (ok: bool)
      requires Valid() && Now(run).process.Down? && target != 0
      requires records == map[] && !active && !journalFailed
      modifies this`disk, this`records, this`journalFailed, this`run
      ensures Extends(run, old(run))
      ensures ok ==> Serving() && !active && !journalFailed && records == disk && Settled(records) && disk.Keys == old(disk.Keys)
      ensures !ok ==> Legal(run) && Now(run).process.Down? && disk == Now(run).disk
    {
      ghost var start := run;
      Happened(Boot(target, maxRecords));
      ghost var booted := run;
      ok := ReadJournal();
      ExtendsTransitive(start, booted, run);
      if ok {
        ghost var read := run;
        ok := SettleAndServe(lockFree);
        ExtendsTransitive(start, read, run);
      }
    }

    /** Takes the canonical lock if a settlement is to be finished. */
    method LockIfPending(lockFree: bool) returns (ok: bool)
      requires Valid() && Now(run).process == Loading({})
      modifies this`journalFailed, this`run
      ensures run.Then? && run.past == old(run)
      ensures ok ==> Valid() && Now(run).process.RollingForward? && (Now(run).lock || Settled(records))
      ensures ok ==> records.Keys == disk.Keys
      ensures !ok ==> Legal(run) && Now(run).process.Down? && disk == Now(run).disk
    {
      AllIsRead(run);
      SettledUnlessPending(records);
      var pending := RecoverySettlementPending();
      Happened(ReadAll(lockFree));
      ok := !pending || lockFree;
      if !ok {
        journalFailed := true;
      }
    }

    /** What startup does once every entry has been read. */
    method SettleAndServe(lockFree: bool) returns (ok: bool)
      requires Valid() && Now(run).process == Loading({})
      modifies this`disk, this`records, this`journalFailed, this`run
      ensures Extends(run, old(run))
      ensures ok ==> Serving() && !active && !journalFailed && records == disk && Settled(records) && disk.Keys == old(disk.Keys)
      ensures !ok ==> Legal(run) && Now(run).process.Down? && disk == Now(run).disk
    {
      ghost var start := run;
      ok := LockIfPending(lockFree);
      if !ok {
        return;
      }
      ghost var read := run;
      ok := RollForward();
      ExtendsTransitive(start, read, run);
      if ok {
        NotFencedYet(run);
        Happened(Serve);
        ServingMeansSettled(run);
      }
    }

    method Status(id: Id) returns (state: Option<State>)
      requires Serving()
      ensures state.None? <==> id !in records
      ensures state.Some? ==> state.value == VisibleState(journalFailed, records[id])
      ensures state.Some? ==>
                state.value == if journalFailed && records[id].state.Succeeded? && records[id].request.action.ProfileRestore? && records[id].request.parent != 0
                               then RecoveryRequired else records[id].state
      ensures state == Some(Succeeded) && Restored(records[id]) ==>
                forall m | m in disk && m != id && SameChain(RootsOf(disk), m, id) :: !disk[m].state.RecoveryRequired?
    {
      if id !in records {
        return None;
      }
      var r := records[id];
      state := Some(if journalFailed && r.state.Succeeded? && r.request.action.ProfileRestore? && r.request.parent != 0
                    then RecoveryRequired else r.state);
      if state == Some(Succeeded) && Restored(r) {
        ToldSucceededMeansSettled(run, id);
      }
    }

    /** Admission. `wellFormed` stands for the contract version, identity and hash checks,
        `otherChecks` for the remaining content checks of `validate`, `verified` for the
        runtime verification, `lockFree` for the canonical lock, `at` for the clock. */
    method Accept(peer: nat, q: Request, wellFormed: bool, otherChecks: bool, verified: bool, lockFree: bool, at: nat)
      returns (reply: Reply)
      requires Serving() && Now(run).clock < at
      modifies this`disk, this`records, this`journalFailed, this`active, this`run
      ensures Serving() && (run == old(run) || (run.Then? && run.past == old(run) && run.event.Submit?))
      ensures reply.Accepted? ==>
                && run.event == Submit(q, peer, at, Written)
                && active && Now(run).active == Some(q.id) && !Now(run).effectStarted
                && !old(active) && !old(journalFailed) && q.id !in old(records) && peer == allowedPeer && |old(records)| < maxRecords
                && RecoveryAdmits(old(records), RootsOf(old(records)), q)
                && wellFormed && otherChecks && verified && lockFree && HostAction(q.action) && q.target == target
                && records == old(records)[q.id := Record(q, peer, at, Running, IntentPersisted)]
      ensures reply.Known? ==> run == old(run) && q.id in records && reply.state == VisibleState(journalFailed, records[q.id])
      ensures reply.Known? ==> records[q.id].request.payload == q.payload && records[q.id].peer == peer
      ensures !reply.Accepted? ==> records == old(records) && active == old(active)
      ensures !reply.Accepted? && run != old(run) ==> journalFailed
      ensures reply.Refused? && peer == allowedPeer && wellFormed && q.id != 0 && q.id !in records && !active && !old(journalFailed)
                && |records| < maxRecords && q.target == target && otherChecks && HostAction(q.action) && verified && lockFree ==>
                journalFailed || !RecoveryAdmits(records, RootsOf(records), q)
    {
      if peer != allowedPeer || !wellFormed || q.id == 0 {
        return Refused;
      }
      if q.id in records {
        var known := records[q.id];
        if known.request.payload != q.payload || known.peer != peer {
          return Refused;
        }
        var state := Status(q.id);
        return Known(state.value);
      }
      if active || journalFailed || |records| >= maxRecords || q.target != target {
        return Refused;
      }
      var admitted := ValidateRecovery(q);
      if !admitted || !HostAction(q.action) || !otherChecks || !verified || !lockFree {
        return Refused;
      }
      var ok, o := SaveRecord(Record(q, peer, at, Running, IntentPersisted));
      Happened(Submit(q, peer, at, o));
      if !ok {
        return Refused;
      }
      active := true;
      return Accepted;
    }

    /** The goroutine of an accepted operation starts its external work. */
    method StartWork(id: Id)
      requires Serving() && Now(run).active == Some(id) && !Now(run).effectStarted
      modifies this`run
      ensures Serving() && Now(run).active == Some(id) && Now(run).effectStarted
      ensures id !in Now(old(run)).effects && Now(run).effects[id] == 1
      ensures id in records && id in disk && disk[id].state.Running?
    {
      ActiveFacts(run, id);
      EffectAtMostOnce(Then(run, StartEffect), id);
      Happened(StartEffect);
    }

    /** The last write of an operation. */
    method SaveFinal(id: Id, r: Record) returns (ok: bool)
      requires Serving() && Now(run).active == Some(id) && Now(run).effectStarted && id in records
      requires r == records[id].(state := r.state, phase := r.phase) && r.request.id == id && FinalAllowed(records[id], r.state)
      modifies this`disk, this`records, this`journalFailed, this`run
      ensures Legal(run) && run.Then? && run.past == old(run) && disk == Now(run).disk
      ensures records == Now(run).mem && journalFailed == Now(run).fenced && target == Now(run).target && maxRecords == Now(run).limit
      ensures ok ==> records == old(records)[id := r] && journalFailed == old(journalFailed)
      ensures ok && Restored(r) ==> Now(run).process == Settling(id) && Now(run).active == Some(id) && Now(run).lock == old(Now(run).lock)
      ensures !(ok && r.state.Succeeded? && r.request.parent != 0) ==> Now(run).process.Up? && Now(run).active.None?
      ensures !ok ==> journalFailed
    {
      ghost var o: Write;
      ok, o := SaveRecord(r);
      Happened(Final(r.state, r.phase, o));
    }

    /** Records that the effects are complete and the build gate is being disposed of. */
    method SaveGate(id: Id) returns (ok: bool)
      requires Serving() && Now(run).active == Some(id) && Now(run).effectStarted && id in records
      requires !ReadOnlyAction(records[id].request.action)
      modifies this`disk, this`records, this`journalFailed, this`run
      ensures Legal(run) && run.Then? && run.past == old(run) && disk == Now(run).disk && Now(run).process.Up?
      ensures records == Now(run).mem && journalFailed == Now(run).fenced && target == Now(run).target && maxRecords == Now(run).limit
      ensures ok ==> Now(run).active == Some(id) && Now(run).effectStarted && journalFailed == old(journalFailed)
      ensures ok ==> records == old(records)[id := old(records)[id].(phase := BuildGateDisposition)]
      ensures !ok ==> Now(run).active.None? && journalFailed
    {
      ActiveFacts(run, id);
      ghost var o: Write;
      ok, o := SaveRecord(records[id].(phase := BuildGateDisposition));
      Happened(Gate(o));
    }

    /** Completes an operation: the build gate, the final record, and for a restore the
        settlement of its chain. */
    method Finish(id: Id, result: RunResult, gateOk: bool)
      requires Serving() && Now(run).active == Some(id) && Now(run).effectStarted && id in records
      modifies this`disk, this`records, this`journalFailed, this`active, this`run
      ensures Serving() && !active && Extends(run, old(run))
      ensures !journalFailed ==>
                && records == disk && Settled(records)
                && id in records && records[id].request == old(records)[id].request
                && EndsAs(records[id], result, gateOk)
      ensures result.Uncertain? && !ReadOnlyAction(old(records)[id].request.action) ==>
                forall q: Request | q.parent == 0 :: journalFailed || !RecoveryAdmits(records, RootsOf(records), q)
    {
      var ok, r := ToRecord(id, result, gateOk);
      if !ok {
        active := false;
        return;
      }
      ghost var gated := run;
      Conclude(id, r);
      ExtendsTransitive(old(run), gated, run);
    }

    /** The record an operation ends with, its build gate having been disposed of. */
    method ToRecord(id: Id, result: RunResult, gateOk: bool) returns (ok: bool, r: Record)
      requires Serving() && Now(run).active == Some(id) && Now(run).effectStarted && id in records
      modifies this`disk, this`records, this`journalFailed, this`run
      ensures Legal(run) && Extends(run, old(run)) && disk == Now(run).disk && Now(run).process.Up?
      ensures records == Now(run).mem && journalFailed == Now(run).fenced && target == Now(run).target && maxRecords == Now(run).limit
      ensures !ok ==> Now(run).active.None? && journalFailed
      ensures ok ==> Now(run).active == Some(id) && Now(run).effectStarted && id in records
      ensures ok ==> r == records[id].(state := r.state, phase := r.phase) && FinalAllowed(records[id], r.state)
      ensures ok ==> r.request == old(records)[id].request
      ensures ok ==> EndsAs(r, result, gateOk)
    {
      ActiveFacts(run, id);
      ok := true;
      var action := records[id].request.action;
      r := records[id].(state := ResultState(action, result), phase := ResultPhase(action, result));
      if r.state.Succeeded? && !ReadOnlyAction(action) {
        ok := SaveGate(id);
        if !gateOk {
          r := r.(state := RecoveryRequired, phase := BuildGateDisposition);
        }
      }
    }

    /** The final record, and for a restore the settlement of its chain. */
    method Conclude(id: Id, r: Record)
      requires Serving() && Now(run).active == Some(id) && Now(run).effectStarted && id in records
      requires r == records[id].(state := r.state, phase := r.phase) && FinalAllowed(records[id], r.state)
      modifies this`disk, this`records, this`journalFailed, this`active, this`run
      ensures Serving() && !active && Extends(run, old(run))
      ensures !journalFailed ==> records == disk && Settled(records) && id in records && records[id] == r
    {
      ActiveFacts(run, id);
      ghost var start := run;
      var ok := SaveFinal(id, r);
      if ok && r.state.Succeeded? && r.request.parent != 0 {
        SettleAfter(id, start);
      }
      active := false;
      if !Now(run).fenced {
        ServingMeansSettled(run);
      }
    }

    method SettleAfter(id: Id, ghost start: Run)
      requires Legal(run) && Extends(run, start) && disk == Now(run).disk && records == Now(run).mem && journalFailed == Now(run).fenced
      requires target == Now(run).target && maxRecords == Now(run).limit && active == Now(run).active.Some?
      requires Now(run).process == Settling(id) && Now(run).lock && id in records && Restored(records[id])
      modifies this`disk, this`records, this`journalFailed, this`run
      ensures Legal(run) && Extends(run, start) && disk == Now(run).disk && records == Now(run).mem && journalFailed == Now(run).fenced
      ensures target == Now(run).target && maxRecords == Now(run).limit && Now(run).process.Up? && Now(run).active.None?
      ensures id in records && records[id] == old(records)[id]
    {
      ghost var saved := run;
      var settled := SettleRecoveryChain(id);
      ExtendsTransitive(start, saved, run);
      if settled.Done? {
        Happened(FinishSettling);
      }
    }
  }

  /** The only difference is that open records of the chain of `s` have been settled. */
  predicate OnlySettled(before: Journal, after: Journal, roots: map<Id, Id>, s: Id) {
    && after.Keys == before.Keys
    && forall m | m in before ::
         after[m] == before[m] || (Open(before, roots, s, m) && after[m] == before[m].(state := Failed, phase := RecoveredBy(s)))
  }

  lemma OnlySettledStep(before: Journal, mid: Journal, roots: map<Id, Id>, s: Id, id: Id)
    requires OnlySettled(before, mid, roots, s) && Open(mid, roots, s, id)
    ensures OnlySettled(before, mid[id := SettledRecord(mid[id], s)], roots, s)
    ensures Open(before, roots, s, id)
  {
  }

  /** Settling one open record of the chain. */
  lemma SettleStep(before: Journal, j: Journal, roots: map<Id, Id>, s: Id, id: Id)
    requires OnlySettled(before, j, roots, s) && roots == RootsOf(j) && s in j && Open(j, roots, s, id) && !Ambiguous(j, roots, s)
    ensures var k := j[id := SettledRecord(j[id], s)];
            && OnlySettled(before, k, roots, s) && RootsOf(k) == roots && !Ambiguous(k, roots, s)
            && forall m | m in k && Open(k, roots, s, m) :: Open(j, roots, s, m) && m != id
  {
    SettleProgress(j, roots, s, id);
    OnlySettledStep(before, j, roots, s, id);
    SameRoots(j, id, SettledRecord(j[id], s));
  }

  lemma SettleProgress(j: Journal, roots: map<Id, Id>, s: Id, id: Id)
    requires s in j && Open(j, roots, s, id) && !Ambiguous(j, roots, s)
    ensures var k := j[id := SettledRecord(j[id], s)];
            && !Ambiguous(k, roots, s)
            && forall m | m in k && Open(k, roots, s, m) :: Open(j, roots, s, m) && m != id
  {
    var k := j[id := SettledRecord(j[id], s)];
    forall m | m in k && Open(k, roots, s, m)
      ensures Open(j, roots, s, m) && m != id && StartedBefore(k[m], k[s])
    {
      assert Open(j, roots, s, m);
    }
  }

  lemma {:induction false} RecordsKnowTheirId(run: Run, id: Id)
    requires Legal(run) && !Now(run).process.Down? && !Now(run).process.Up? && id in Now(run).mem
    ensures Now(run).mem[id].request.id == id
  {
    EveryRun(run);
    assert RecordOk(Now(run).disk[id], id, Now(run).clock);
  }

  function AfterRead(w: World, id: Id): World
    requires w.process.Loading? && id in w.disk
  {
    w.(mem := w.mem[id := w.disk[id]], process := Loading(w.process.unread - {id}))
  }

  lemma ReadIs(w: World, id: Id, o: Write)
    requires w.process.Loading? && id in w.process.unread && id in w.disk && w.disk[id].request.id == id
    ensures Enabled(w, Read(id, o))
    ensures Next(w, Read(id, o)) ==
              if !Interrupted(w.disk[id]) then AfterRead(w, id)
              else
                var saved := Save(AfterRead(w, id), Interrupt(w.disk[id]), o);
                if o.Written? then saved else Halt(saved)
  {
  }

  lemma {:induction false} EntriesKnowTheirId(run: Run, id: Id)
    requires Legal(run) && id in Now(run).disk
    ensures Now(run).disk[id].request.id == id
  {
    EveryRun(run);
    assert RecordOk(Now(run).disk[id], id, Now(run).clock);
  }

  lemma {:induction false} ExtendsTransitive(a: Run, b: Run, c: Run)
    requires Extends(b, a) && Extends(c, b)
    ensures Extends(c, a)
  {
    if c != b { ExtendsTransitive(a, b, c.past); }
  }

  lemma SettlingOpensNothing(before: Journal, after: Journal, roots: map<Id, Id>, s: Id)
    requires OnlySettled(before, after, roots, s)
    ensures forall t | t in after && Restored(after[t]) && SettledFor(before, roots, t) ::
              Restored(before[t]) && SettledFor(after, roots, t)
  {
    forall t | t in after && Restored(after[t]) && SettledFor(before, roots, t)
      ensures Restored(before[t]) && SettledFor(after, roots, t)
    {
      forall m | m in after ensures !Open(after, roots, t, m) { assert !Open(before, roots, t, m); }
    }
  }

  lemma {:induction false} AllIsRead(run: Run)
    requires Legal(run) && Now(run).process == Loading({})
    ensures Now(run).mem.Keys == Now(run).disk.Keys
  {
    EveryRun(run);
  }

  lemma {:induction false} NotFencedYet(run: Run)
    requires Legal(run) && Now(run).process.RollingForward?
    ensures !Now(run).fenced && Now(run).active.None?
  {
    EveryRun(run);
  }

  lemma {:induction false} ActiveFacts(run: Run, id: Id)
    requires Legal(run) && Now(run).process.Up? && Now(run).active == Some(id)
    ensures var w := Now(run);
            && id in w.mem && w.mem[id].state.Running? && w.mem[id].request.id == id
            && (w.mem[id].request.parent != 0 ==> w.mem[id].request.action.ProfileRestore?)
            && w.lock && !w.fenced
  {
    EveryRun(run);
    assert RecordOk(Now(run).disk[id], id, Now(run).clock);
  }
}
