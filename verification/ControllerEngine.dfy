/** The controller itself (internal/engine, internal/store, internal/source): the worker
    and the client requests as methods, with other clients acting between any two of the
    worker's steps. Each method is proved to take only steps of `ControllerMachine`, so what
    is proved of all runs holds of it. */
module ControllerEngine {
  import opened Domain
  import opened RecoveryGraph
  import opened ControllerStore
  import opened ControllerTransactions
  import opened ControllerEvolution
  import opened ControllerMachine
  import opened ControllerInvariant
  import opened ControllerGuarantees
  import opened ControllerRace
  import opened ControllerResults
  import opened ControllerLedger

  // ---------------------------------------------------------------------------
  // The transactions, as they are carried out on the copied state.

  method Finishing(s: Store, id: Id, r: Outcome, now: nat) returns (tx: Option<Store>)
    ensures tx == FinishTx(s, id, r, now)
  {
    if id !in s.operations {
      return None;
    }
    var o := Finished(s.operations[id], r, now);
    var ops := s.operations[id := o];
    if o.state.Succeeded? && o.plan.draft.parent != 0 {
      var links := BuildLinks(ops);
      var chain := RecoveryChain(links, o.plan.draft.parent);
      if chain.Err? {
        return None;
      }
      ops := ResolvePrevious(ops, chain.value, id, now);
    }
    return Some(s.(operations := ops));
  }

  method CountUnfinished(ops: Operations) returns (active: nat)
    ensures active == |NonTerminal(ops)|
  {
    active := 0;
    var todo := ops.Keys;
    ghost var seen: set<Id> := {};
    while todo != {}
      invariant todo <= ops.Keys && seen == NonTerminal(ops) - todo && active == |seen|
      decreases todo
    {
      var id :| id in todo;
      todo := todo - {id};
      if !Terminal(ops[id].state) {
        assert NonTerminal(ops) - todo == seen + {id};
        seen := seen + {id};
        active := active + 1;
      } else {
        assert NonTerminal(ops) - todo == seen;
      }
    }
    assert seen == NonTerminal(ops);
  }

  /** The checks on a request under a new key. */
  method MayQueue(s: Store, planId: Id, depth: nat, permitted: bool, now: nat) returns (ok: bool)
    ensures ok <==>
              && permitted && planId in s.plans && now <= s.plans[planId].expiresAt
              && Admits(s.operations, OperationRoots(s.operations), s.plans[planId].draft, 0)
              && |NonTerminal(s.operations)| < depth && |s.operations| < MAX_OPERATIONS
  {
    if planId !in s.plans || !permitted || now > s.plans[planId].expiresAt {
      return false;
    }
    ok := RecoveryAdmission(s.operations, s.plans[planId].draft, 0);
    if !ok {
      return;
    }
    var active := CountUnfinished(s.operations);
    return active < depth && |s.operations| < MAX_OPERATIONS;
  }

  method Applying(s: Store, planId: Id, key: nat, payload: nat, newId: Id, depth: nat, permitted: bool, now: nat)
    returns (tx: Option<Store>)
    ensures tx == ApplyTx(s, planId, key, payload, newId, depth, permitted, now)
    ensures key in s.idempotency ==> tx == if permitted && s.idempotency[key].payload == payload then Some(s) else None
    ensures key !in s.idempotency ==>
              (tx.Some? <==>
                 && permitted && planId in s.plans && now <= s.plans[planId].expiresAt
                 && Admits(s.operations, OperationRoots(s.operations), s.plans[planId].draft, 0)
                 && |NonTerminal(s.operations)| < depth && |s.operations| < MAX_OPERATIONS)
    ensures key !in s.idempotency && tx.Some? ==>
              && tx.value.idempotency == s.idempotency[key := Idempotency(payload, newId)]
              && tx.value.operations.Keys == s.operations.Keys + {newId}
              && tx.value.operations[newId].plan == s.plans[planId] && tx.value.operations[newId].state.Queued?
  {
    if key in s.idempotency {
      return if s.idempotency[key].payload == payload && permitted then Some(s) else None;
    }
    var ok := MayQueue(s, planId, depth, permitted, now);
    if !ok {
      return None;
    }
    return Some(s.(
      operations := s.operations[newId := NewOperation(newId, key, s.plans[planId], now)],
      idempotency := s.idempotency[key := Idempotency(payload, newId)]));
  }

  method Beginning(s: Store, id: Id, authorized: bool, now: nat) returns (tx: Option<Store>)
    ensures tx == BeginTx(s, id, authorized, now)
    ensures tx.Some? <==> id in s.operations && s.operations[id].state.Queued?
    ensures tx.Some? ==>
              && tx.value.operations.Keys == s.operations.Keys
              && (tx.value.operations[id].state.Running? <==>
                    authorized && Admits(s.operations, OperationRoots(s.operations), s.operations[id].plan.draft, id))
              && (!tx.value.operations[id].state.Running? ==> tx.value.operations[id].state.Failed?)
  {
    if id !in s.operations || !s.operations[id].state.Queued? {
      return None;
    }
    var o := s.operations[id];
    var admitted := RecoveryAdmission(s.operations, o.plan.draft, id);
    var state := if !admitted then Failed else if !authorized then Failed else Running;
    return Some(s.(operations := s.operations[id := Touched(o, now).(state := state)]));
  }

  method Reporting(s: Store, id: Id, phase: Report, now: nat) returns (tx: Option<Store>)
    ensures tx == ProgressTx(s, id, phase, now)
    ensures tx.None? <==> id !in s.operations
    ensures tx.Some? ==>
              && tx.value.operations.Keys == s.operations.Keys
              && id in Prune(tx.value, now).operations && Prune(tx.value, now).operations[id] == tx.value.operations[id]
              && (phase.SourceIntent? ==> tx.value.operations[id].sourceIntent)
              && (phase.DispatchIntent? ==> tx.value.operations[id].dispatched)
  {
    if id !in s.operations {
      return None;
    }
    var o := Touched(s.operations[id], now);
    if phase.DispatchIntent? {
      o := o.(dispatched := true);
    }
    if phase.SourceIntent? {
      o := o.(sourceIntent := true);
    }
    tx := Some(s.(operations := s.operations[id := o]));
    JustTouched(tx.value, now, id);
  }

  method MarkingSource(s: Store, id: Id, now: nat) returns (tx: Option<Store>)
    ensures tx == SourceUpdatedTx(s, id, now)
    ensures tx.None? <==> id !in s.operations
    ensures tx.Some? ==>
              && tx.value.operations.Keys == s.operations.Keys
              && id in Prune(tx.value, now).operations && Prune(tx.value, now).operations[id] == tx.value.operations[id]
              && tx.value.operations[id].sourceUpdated
  {
    if id !in s.operations {
      return None;
    }
    tx := Some(s.(operations := s.operations[id := Touched(s.operations[id], now).(sourceUpdated := true)]));
    JustTouched(tx.value, now, id);
  }

  /** The queued operation created first; nothing else is said of equal times. */
  method OldestQueued(ops: Operations) returns (next: Option<Operation>)
    ensures next.None? <==> forall id | id in ops :: !ops[id].state.Queued?
    ensures next.Some? ==> exists id | id in ops :: ops[id] == next.value && ops[id].state.Queued?
    ensures next.Some? ==> forall id | id in ops && ops[id].state.Queued? :: next.value.createdAt <= ops[id].createdAt
  {
    next := None;
    var todo := ops.Keys;
    while todo != {}
      invariant todo <= ops.Keys
      invariant next.None? ==> forall id | id in ops && id !in todo :: !ops[id].state.Queued?
      invariant next.Some? ==> exists id | id in ops :: ops[id] == next.value && ops[id].state.Queued?
      invariant next.Some? ==> forall id | id in ops && id !in todo && ops[id].state.Queued? :: next.value.createdAt <= ops[id].createdAt
      decreases todo
    {
      var id :| id in todo;
      todo := todo - {id};
      if ops[id].state.Queued? && (next.None? || ops[id].createdAt < next.value.createdAt) {
        next := Some(ops[id]);
      }
    }
  }

  /** Has an unresolved operation of the chain of `id` been dispatched to the host? */
  predicate HostTouched(ops: Operations, id: Id) {
    exists k | k in ops ::
      SameChain(OperationRoots(ops), id, k) && ops[k].recoveryRequired && ops[k].dispatched && HostRestoreRequired(ops[k].plan.draft.action)
  }

  /** A final result that leaves nothing to recover. */
  predicate Proven(answer: Option<Outcome>) {
    answer.Some? && Terminal(answer.value.state) && !answer.value.recoveryRequired && !answer.value.state.RecoveryRequired?
  }

  /** What is known of an operation: nobody is asked about one that was never dispatched. */
  function Inspected(seen: Operation, reported: Option<Outcome>): Option<Outcome> {
    if seen.dispatched then reported else Some(Outcome(RecoveryRequired, true))
  }

  /** What an explicit recovery of `id` has to do: restore the host if some unresolved
      operation of the chain has touched it, otherwise only reconcile the records. */
  method ChooseRecovery(ops: Operations, id: Id) returns (r: Option<Action>)
    ensures r.None? <==> id !in OperationRoots(ops)
    ensures r.Some? ==> RecoveryAction(r.value)
    ensures r.Some? ==> (r.value.ProfileRestore? <==> HostTouched(ops, id))
  {
    var links := BuildLinks(ops);
    var chain := RecoveryChain(links, id);
    if chain.Err? {
      return None;
    }
    var action := OperationReconcile;
    ghost var roots := OperationRoots(ops);
    var todo := chain.value;
    while todo != {}
      invariant todo <= chain.value == Chain(roots, id)
      invariant action.OperationReconcile? || action.ProfileRestore?
      invariant action.ProfileRestore? <==>
                  exists k | k in ops :: k !in todo && SameChain(roots, id, k) && ops[k].recoveryRequired && ops[k].dispatched
                                         && HostRestoreRequired(ops[k].plan.draft.action)
      decreases todo
    {
      var k :| k in todo;
      todo := todo - {k};
      assert k in ops && SameChain(roots, id, k);
      if ops[k].recoveryRequired && ops[k].dispatched && HostRestoreRequired(ops[k].plan.draft.action) {
        action := ProfileRestore;
      }
    }
    return Some(action);
  }

  // ---------------------------------------------------------------------------

  lemma {:induction false} ExtendsTransitive(a: Run, b: Run, c: Run)
    requires Extends(b, a) && Extends(c, b)
    ensures Extends(c, a)
  {
    if c != b { ExtendsTransitive(a, b, c.past); }
  }

  /** Identifiers never run out. */
  lemma UnusedExists(drawn: set<Id>)
    ensures exists id: Id :: id != 0 && id !in drawn
  {
    var top := Bound(drawn);
    assert top + 1 !in drawn;
  }

  ghost function Bound(drawn: set<Id>): (top: Id)
    ensures forall id | id in drawn :: id <= top
  {
    if drawn == {} then 0
    else
      var id :| id in drawn;
      var rest := Bound(drawn - {id});
      assert forall k | k in drawn :: k == id || k in drawn - {id};
      if id <= rest then rest else id
  }

  /** Events that move neither the worker nor the source. */
  predicate PlainEvent(e: Event) {
    e.CreatePlan? || e.Apply? || e.Cancel? || e.RecoverFinish? || e.EvidenceFinish? || e.ReportPhase?
  }

  /** Where such a transaction leads, whatever becomes of the write. */
  lemma PlainUpdates(w: World, e: Event, tx: Option<Store>, o: Write)
    requires PlainEvent(e) && Enabled(w, e) && tx == TxOf(w, e)
    ensures Enabled(w, WithWrite(e, o))
    ensures var w' := Next(w, WithWrite(e, o)); var c := Commit(w, tx, e.now, o);
            && w'.mem == c.mem && w'.disk == c.disk && w'.poisoned == c.poisoned
            && w'.process == w.process && w'.depth == w.depth
            && w'.env == w.env.(used := if e.Apply? then w.env.used + {e.newId} else w.env.used)
  {
    WriteIsFree(w, e, o);
    SameTx(w, e, o);
  }

  predicate WorkerEvent(e: Event) {
    || e.Begin? || e.Abort? || e.Reconcile? || e.Intend? || e.FailReplace? || e.RecordSource? || e.Dispatch? || e.Complete?
  }

  /** What the worker holds after a committed transaction. */
  function WorkerAfter(w: World, e: Event, tx: Option<Store>): Worker
    requires Enabled(w, e)
  {
    match e
    case Begin(id, _, _, _) =>
      if tx.Some? && id in tx.value.operations && tx.value.operations[id].state.Running?
      then Busy(id, tx.value.operations[id].plan, Begun) else Free
    case Intend(_, _) => StageWorker(w.env.worker, Intending)
    case RecordSource(_, _) => StageWorker(w.env.worker, Ready)
    case Dispatch(_, _) => StageWorker(w.env.worker, Dispatching)
    case _ => Free
  }

  lemma WorkerUpdates(w: World, e: Event, tx: Option<Store>, o: Write)
    requires WorkerEvent(e) && Enabled(w, e) && tx == TxOf(w, e)
    ensures Enabled(w, WithWrite(e, o))
    ensures var w' := Next(w, WithWrite(e, o)); var c := Commit(w, tx, e.now, o);
            && w'.mem == c.mem && w'.disk == c.disk && w'.poisoned == c.poisoned
            && w'.process == w.process && w'.depth == w.depth
            && w'.env == w.env.(worker := if Committed(w, tx, o) then WorkerAfter(w, e, tx) else Free)
  {
    WriteIsFree(w, e, o);
    SameTx(w, e, o);
  }

  lemma FinishIsFinal(p: Store, id: Id, r: Outcome, now: nat)
    requires Terminal(r.state) && FinishTx(p, id, r, now).Some?
    ensures var t := FinishTx(p, id, r, now).value;
            id in Prune(t, now).operations ==> Terminal(Prune(t, now).operations[id].state)
  {
    var t := FinishTx(p, id, r, now).value;
    assert t.operations[id] == Finished(p.operations[id], r, now);
  }

  /** Completion leaves a finished record, or there is none. */
  lemma {:induction false} FinishLeaves(run: Run, id: Id, r: Outcome, now: nat)
    requires Legal(run) && OutcomeOk(r) && Terminal(r.state)
    ensures var s := Now(run).mem; var tx := FinishTx(Prune(s, now), id, r, now);
            && (tx.Some? && id in Prune(tx.value, now).operations ==> Terminal(Prune(tx.value, now).operations[id].state))
            && (tx.None? && id in s.operations ==> Terminal(s.operations[id].state))
  {
    if FinishTx(Prune(Now(run).mem, now), id, r, now).Some? {
      FinishIsFinal(Prune(Now(run).mem, now), id, r, now);
    }
    if id in Now(run).mem.operations && !Terminal(Now(run).mem.operations[id].state) {
      CompletionNeverAborts(run, id, r, now);
    }
  }

  lemma {:induction false} MissingIsFinished(run: Run, id: Id, now: nat)
    requires Legal(run) && id !in Prune(Now(run).mem, now).operations && id in Now(run).mem.operations
    ensures Terminal(Now(run).mem.operations[id].state)
  {
    EveryRun(run);
    PruneAgrees(Now(run).mem, now, id);
  }

  lemma {:induction false} NotQueuedAnyMore(run: Run, id: Id, authorized: bool, now: nat)
    requires Legal(run) && BeginTx(Prune(Now(run).mem, now), id, authorized, now).None? && id in Now(run).mem.operations
    ensures !Now(run).mem.operations[id].state.Queued?
  {
    if id !in Prune(Now(run).mem, now).operations { MissingIsFinished(run, id, now); }
  }

  /** A record just touched survives the pruning of the same update. */
  lemma BeginLeaves(p: Store, id: Id, authorized: bool, now: nat)
    requires BeginTx(p, id, authorized, now).Some?
    ensures var t := BeginTx(p, id, authorized, now).value;
            id in Prune(t, now).operations && Prune(t, now).operations[id] == t.operations[id]
  {
    var t := BeginTx(p, id, authorized, now).value;
    RetainedIsLeast(t.operations, now);
    assert Live(t.operations[id], now);
  }

  /** A plan just made survives the pruning of the same update. */
  lemma PlanStays(s: Store, planId: Id, plan: Plan, now: nat)
    requires now <= plan.expiresAt && plan.desired == Desired(plan.draft.source, plan.draft) && FieldsBelong(plan.draft)
    ensures var p := Prune(s, now); var v := Prune(p.(plans := p.plans[planId := plan]), now);
            planId in v.plans && v.plans[planId] == plan && v.operations == p.operations
    ensures CarriesOut(plan.desired, plan.draft)
  {
    PruneTwice(s, now);
  }

  /** What happened since does not change a plan, nor bring a finished operation back. */
  lemma {:induction false} RecordsLast(run: Run, later: Run, id: Id)
    requires Legal(later) && Extends(later, run)
    ensures Legal(run)
    ensures id in Now(run).mem.operations && id in Now(later).mem.operations ==>
              && Now(later).mem.operations[id].plan == Now(run).mem.operations[id].plan
              && (Terminal(Now(run).mem.operations[id].state) ==> Terminal(Now(later).mem.operations[id].state))
  {
    OperationsAdvance(run, later);
  }

  /** Startup touches no other unfinished operation. */
  lemma StartLeavesOthers(w: World, id: Id, r: Outcome, now: nat, k: Id)
    requires Inv(w) && id in w.mem.operations && k in w.mem.operations && k != id && InFlight(w.mem.operations[k].state)
    requires FinishTx(Prune(w.mem, now), id, r, now).Some?
    ensures var v := Prune(FinishTx(Prune(w.mem, now), id, r, now).value, now);
            k in v.operations && v.operations[k] == w.mem.operations[k]
  {
    assert OperationOk(w.mem.operations[k], k);
    PruneAgrees(w.mem, now, k);
    FinishPasses(Prune(w.mem, now), id, r, now, k);
  }

  lemma FinishPasses(p: Store, id: Id, r: Outcome, now: nat, k: Id)
    requires FinishTx(p, id, r, now).Some? && k in p.operations && k != id
    requires !p.operations[k].recoveryRequired && InFlight(p.operations[k].state)
    ensures var v := Prune(FinishTx(p, id, r, now).value, now).operations; k in v && v[k] == p.operations[k]
  {
    var t := FinishTx(p, id, r, now).value;
    assert t.operations[k] == p.operations[k];
    StillThere(t, now, k);
  }

  lemma {:induction false} StartLeavesAll(run: Run, id: Id, r: Outcome, now: nat, tx: Option<Store>)
    requires Legal(run) && id in Now(run).mem.operations && tx == FinishTx(Prune(Now(run).mem, now), id, r, now)
    ensures tx.Some? ==>
              var ops := Now(run).mem.operations; var v := Prune(tx.value, now).operations;
              forall k | k in ops && k != id && InFlight(ops[k].state) :: k in v && v[k] == ops[k]
  {
    EveryRun(run);
    var ops := Now(run).mem.operations;
    forall k | tx.Some? && k in ops && k != id && InFlight(ops[k].state)
      ensures var v := Prune(tx.value, now).operations; k in v && v[k] == ops[k]
    {
      StartLeavesOthers(Now(run), id, r, now, k);
    }
  }

  function Unfinished(ops: Operations, within: set<Id>): set<Id> {
    set id | id in within && id in ops && InFlight(ops[id].state)
  }

  lemma {:induction false} IdleWhenDown(run: Run)
    requires Legal(run) && Now(run).process.Down?
    ensures Now(run).env.worker.Free?
  {
    EveryRun(run);
  }

  lemma ReopenIs(w: World)
    requires w.process.Down?
    ensures Enabled(w, Reopen)
    ensures Next(w, Reopen) == w.(process := Starting(Unfinished(w.mem.operations, w.mem.operations.Keys)))
  {
    var ops := w.mem.operations;
    assert (set id | id in ops && !Terminal(ops[id].state) && !ops[id].state.Queued?) == Unfinished(ops, ops.Keys);
  }

  lemma FinishingTx(w: World, e: Event, tx: Option<Store>)
    requires FinishingEvent(e) && Enabled(w, e)
    requires tx == FinishTx(Prune(w.mem, e.now), w.env.worker.id, ResultOf(w, e), e.now)
    ensures WorkerEvent(e) && TxOf(w, e) == tx && WorkerAfter(w, e, tx) == Free
  {
  }

  lemma {:induction false} StartingIsDone(run: Run)
    requires Legal(run) && Now(run).process == Starting({})
    ensures Legal(Then(run, StartDone))
    ensures Now(Then(run, StartDone)) == Now(run).(process := Up)
    ensures Now(run).env.worker.Free? && forall id | id in Now(run).mem.operations :: !InFlight(Now(run).mem.operations[id].state)
  {
    EveryRun(run);
  }

  lemma StartUpdates(w: World, e: Event, tx: Option<Store>, o: Write)
    requires e.StartOne? && Enabled(w, e) && tx == TxOf(w, e)
    ensures Enabled(w, WithWrite(e, o))
    ensures var w' := Next(w, WithWrite(e, o)); var c := Commit(w, tx, e.now, o);
            && w'.disk == c.disk && w'.depth == w.depth && w'.env.executed == w.env.executed
            && if Committed(w, tx, o)
               then w'.mem == c.mem && w'.poisoned == c.poisoned && w'.env == w.env && w'.process == Starting(w.process.todo - {e.id})
               else w'.process.Down?
  {
    WriteIsFree(w, e, o);
    SameTx(w, e, o);
  }

  /** What an executor may answer about an operation: nothing, that it is at work, or how
      the operation ended. */
  predicate PlausibleAnswer(answer: Option<Outcome>) {
    answer.Some? ==>
      && OutcomeOk(answer.value)
      && (Terminal(answer.value.state) || answer.value.state.Running? || answer.value.state.Queued?)
  }

  class Engine {
    const depth: nat
    var state: Store
    var disk: Store                  // the state file
    var poisoned: bool
    var source: Configuration        // the managed source file
    var drawn: set<Id>               // identifiers handed out so far
    var inspecting: set<Id>          // recovery requests waiting for the executor's answer
    ghost var run: Run               // everything that has happened to this controller

    ghost predicate Holds(w: World)
      reads this
    {
      state == w.mem && disk == w.disk && poisoned == w.poisoned
    }

    /** The object agrees with the run. */
    ghost predicate Agrees()
      reads this
    {
      && Legal(run)
      && Holds(Now(run))
      && source == Now(run).env.source && drawn == Now(run).env.used && inspecting == Now(run).env.inspecting
      && depth == Now(run).depth
    }

    ghost predicate Valid()
      reads this
    {
      Agrees() && Now(run).process.Up?
    }

    /** Every call of the adapter so far. */
    ghost function Calls(): multiset<Id>
      reads this
      requires Legal(run)
    {
      Now(run).env.executed
    }

    ghost function AtWork(): Worker
      reads this
      requires Legal(run)
    {
      Now(run).env.worker
    }

    /** A process about to start over the files that some run left behind. */
    constructor (file: Store, managed: Configuration, queueDepth: nat, ids: set<Id>, ghost past: Run)
      requires Legal(past) && Now(past).process.Down? && Now(past).disk == file
      requires Now(past).env.source == managed && Now(past).depth == queueDepth && Now(past).env.used == ids
      ensures Agrees() && run == past
    {
      EveryRun(past);
      depth, state, disk, poisoned := queueDepth, file, file, false;
      source, drawn, inspecting, run := managed, ids, {}, past;
    }

    ghost method Happened(e: Event)
      requires Legal(run) && Enabled(Now(run), e)
      modifies this`run
      ensures run == Then(old(run), e) && Legal(run) && Now(run) == Next(Now(old(run)), e)
    {
      run := Then(run, e);
    }

    /** The second half of `Update`: prune, write, and poison the store on any error. */
    method Persist(tx: Option<Store>, now: nat, ghost w: World) returns (ok: bool, ghost o: Write)
      requires Holds(w) && (tx.Some? ==> 0 !in tx.value.operations)
      modifies this`state, this`disk, this`poisoned
      ensures Holds(Commit(w, tx, now, o)) && ok == Committed(w, tx, o)
      ensures ok ==> tx.Some? && state == Prune(tx.value, now)
      ensures !ok ==> state == old(state) && (poisoned || tx.None?)
    {
      o := Written;
      if poisoned || tx.None? {
        return false, o;
      }
      var v := PruneState(tx.value, now);
      var outcome: Write := *;
      o := outcome;
      if !outcome.FailedBefore? {
        disk := v;
      }
      ok := outcome.Written?;
      if ok {
        state := v;
      } else {
        poisoned := true;
      }
    }

    /** The first half of `Update`: the pruned copy a transaction works on. */
    method Copy(now: nat) returns (p: Store)
      requires Agrees()
      ensures p == Prune(state, now) && 0 !in p.operations && 0 !in state.operations
    {
      EveryRun(run);
      p := PruneState(state, now);
    }

    /** One transaction of a client, or a phase report of the adapter. */
    method Transact(tx: Option<Store>, now: nat, ids: set<Id>, ghost e: Event) returns (ok: bool, ghost o: Write)
      requires Valid() && PlainEvent(e) && Enabled(Now(run), e) && e.now == now
      requires tx == TxOf(Now(run), e) && (tx.Some? ==> 0 !in tx.value.operations)
      requires ids == if e.Apply? then {e.newId} else {}
      modifies this`state, this`disk, this`poisoned, this`drawn, this`run
      ensures Valid() && source == old(source) && AtWork() == old(AtWork()) && Calls() == old(Calls())
      ensures run == Then(old(run), WithWrite(e, o)) && ok == Committed(old(Now(run)), tx, o)
      ensures if ok then state == Prune(tx.value, now) else poisoned || tx.None?
    {
      ghost var w := Now(run);
      ok, o := Persist(tx, now, w);
      drawn := drawn + ids;
      PlainUpdates(w, e, tx, o);
      Happened(WithWrite(e, o));
    }

    // -------------------------------------------------------------------------
    // Requests of clients. None of them touches the source or the worker.

    /** `refused` stands for the role, the preflight and the rest of draft validation. A plan
        asks for what its draft gives, field by field, and leaves the rest of the source alone. */
    method CreatePlan(d: Draft, actor: nat, refused: bool, planId: Id, now: nat) returns (ok: bool, ghost o: Write)
      requires Valid()
      modifies this
      ensures Valid() && source == old(source) && AtWork() == old(AtWork()) && Calls() == old(Calls())
      ensures var plan := Plan(d, Desired(source, d), actor, now + PLAN_LIFETIME);
              if refused || d.source != source || !PlanOk(plan) then !ok && run == old(run)
              else
                && run == Then(old(run), Event.CreatePlan(planId, plan, now, o))
                && ok == Committed(old(Now(run)), CreatePlanTx(Prune(old(state), now), planId, plan), o)
      ensures ok ==>
                && planId in state.plans && state.operations == Prune(old(state), now).operations
                && d.source == source && state.plans[planId].draft == d
                && CarriesOut(state.plans[planId].desired, d)
                && |Prune(old(state), now).plans| < MAX_PLANS
      ensures run != old(run) && !ok ==> poisoned || |Prune(old(state), now).plans| >= MAX_PLANS
    {
      if refused || d.target == 0 || d.source != source || !FieldsBelong(d) || (d.parent != 0 && !RecoveryAction(d.action)) {
        return false, Written;
      }
      var plan := Plan(d, Desired(source, d), actor, now + PLAN_LIFETIME);
      var p := Copy(now);
      var tx := if |p.plans| >= MAX_PLANS then None else Some(p.(plans := p.plans[planId := plan]));
      PlanStays(state, planId, plan, now);
      ok, o := Transact(tx, now, {}, Event.CreatePlan(planId, plan, now, Written));
    }

    /** Queues an operation for a plan, once per idempotency key. `answer` is the operation the
        sender is told of. On success the key stands for this payload and this operation. If the
        key was still held, it did so before and no operation changed; otherwise the plan was
        stored, current and admitted, and its operation is new and queued. */
    method Apply(planId: Id, key: nat, payload: nat, permitted: bool, now: nat)
      returns (ok: bool, answer: Id, ghost newId: Id, ghost o: Write)
      requires Valid()
      modifies this
      ensures Valid() && source == old(source) && AtWork() == old(AtWork()) && Calls() == old(Calls())
      ensures newId !in old(drawn) && run == Then(old(run), Event.Apply(planId, key, payload, newId, permitted, now, o))
      ensures ok == Committed(old(Now(run)), ApplyTx(Prune(old(state), now), planId, key, payload, newId, depth, permitted, now), o)
      ensures answer == AnswerTo(Prune(old(state), now), key, newId)
      ensures ok ==> Answers(old(state), state, run.event, depth, answer)
    {
      UnusedExists(drawn);
      var id :| id != 0 && id !in drawn;
      newId := id;
      var p := Copy(now);
      var tx := Applying(p, planId, key, payload, id, depth, permitted, now);
      answer := if key in p.idempotency then p.idempotency[key].operation else id;
      ghost var before := run;
      ok, o := Transact(tx, now, {id}, Event.Apply(planId, key, payload, newId, permitted, now, Written));
      if ok {
        RequestIsAnswered(before, run.event);
      }
    }

    method Cancel(id: Id, revision: nat, now: nat) returns (ok: bool, ghost o: Write)
      requires Valid()
      modifies this
      ensures Valid() && source == old(source) && AtWork() == old(AtWork()) && Calls() == old(Calls())
      ensures run == Then(old(run), Event.Cancel(id, revision, now, o))
      ensures ok == Committed(old(Now(run)), CancelTx(Prune(old(state), now), id, revision, now), o)
      ensures ok ==> id in old(state).operations && !Terminal(old(state).operations[id].state)
      ensures ok && revision != 0 ==> old(state).operations[id].revision == revision
      ensures ok ==>
                && id in state.operations && state.operations[id].cancelRequested
                && state.operations[id].state == (if old(state).operations[id].state.Queued? then Cancelled else CancelRequested)
                && state.operations[id].revision == old(state).operations[id].revision + 1
    {
      var p := Copy(now);
      var tx: Option<Store> := None;
      if id in p.operations {
        var it := p.operations[id];
        if (revision == 0 || revision == it.revision) && !Terminal(it.state) {
          tx := Some(p.(operations := p.operations[id := Touched(it, now).(
            cancelRequested := true, state := if it.state.Queued? then Cancelled else CancelRequested)]));
          JustTouched(tx.value, now, id);
        }
      }
      ok, o := Transact(tx, now, {}, Event.Cancel(id, revision, now, Written));
    }

    /** An explicit recovery finds the operation unresolved and asks the executor about it. */
    method StartRecover(id: Id) returns (ok: bool)
      requires Valid()
      modifies this
      ensures Valid() && source == old(source) && AtWork() == old(AtWork()) && Calls() == old(Calls())
      ensures ok == (id in state.operations && state.operations[id].recoveryRequired)
      ensures run == if ok then Then(old(run), RecoverRead(id)) else old(run)
    {
      if id !in state.operations || !state.operations[id].recoveryRequired {
        return false;
      }
      inspecting := inspecting + {id};
      Happened(RecoverRead(id));
      return true;
    }

    /** The executor has answered. A proven result is recorded; otherwise a plan is made, to
        restore the host if the chain has touched it. */
    method FinishRecover(seen: Operation, reported: Option<Outcome>, d: Draft, actor: nat, refused: bool, planId: Id, now: nat)
      returns (ok: bool, ghost o: Write)
      requires Valid() && seen.id in inspecting && (reported.Some? ==> OutcomeOk(reported.value))
      requires seen.id in state.operations && seen.dispatched ==> state.operations[seen.id].dispatched
      modifies this
      ensures Valid() && source == old(source) && AtWork() == old(AtWork()) && Calls() == old(Calls())
      ensures var answer := Inspected(seen, reported);
              Proven(answer) ==>
                && run == Then(old(run), RecoverFinish(seen.id, answer.value, now, o))
                && ok == Committed(old(Now(run)), FinishTx(Prune(old(state), now), seen.id, answer.value, now), o)
      ensures ok && Proven(Inspected(seen, reported)) ==>
                && seen.id in state.operations && !state.operations[seen.id].recoveryRequired
                && state.operations[seen.id].state == Inspected(seen, reported).value.state
      ensures var answer := Inspected(seen, reported);
              answer.Some? && (answer.value.state.Running? || answer.value.state.Queued?) ==> !ok && run == old(run)
      ensures !Proven(Inspected(seen, reported)) && run != old(run) ==>
                && run.Then? && run.past == old(run) && run.event.CreatePlan?
                && run.event.plan.draft.parent == seen.id && run.event.plan.draft.source == source
                && (run.event.plan.draft.action.ProfileRestore? <==> HostTouched(old(state).operations, seen.id))
    {
      o := Written;
      var id, answer := seen.id, Inspected(seen, reported);
      if answer.Some? && (answer.value.state.Running? || answer.value.state.Queued?) {
        return false, o;
      }
      if answer.Some? && Terminal(answer.value.state) && !answer.value.state.RecoveryRequired? && !answer.value.recoveryRequired {
        var p := Copy(now);
        var tx := Finishing(p, id, answer.value, now);
        ghost var before := run;
        ok, o := Transact(tx, now, {}, RecoverFinish(id, answer.value, now, Written));
        if ok {
          InspectionIsRecorded(before, run.event);
        }
        return;
      }
      var action := ChooseRecovery(state.operations, id);
      if action.None? {
        return false, o;
      }
      ok, o := CreatePlan(d.(action := action.value, parent := id, source := source), actor, refused, planId, now);
    }

    /** Evidence inspection, with what it read of the operation before asking the executor. */
    method InspectEvidence(seen: Operation, answer: Option<Outcome>, now: nat) returns (ok: bool, ghost o: Write)
      requires Valid() && (answer.Some? ==> OutcomeOk(answer.value))
      requires seen.id in state.operations ==> state.operations[seen.id].plan == seen.plan
      requires seen.id in state.operations && seen.dispatched ==> state.operations[seen.id].dispatched
      modifies this
      ensures Valid() && source == old(source) && AtWork() == old(AtWork()) && Calls() == old(Calls())
      ensures if EvidenceAction(seen.plan.draft.action) && seen.dispatched && answer.Some? && Terminal(answer.value.state)
              then
                && run == Then(old(run), EvidenceFinish(seen.id, answer.value, now, o))
                && ok == Committed(old(Now(run)), FinishTx(Prune(old(state), now), seen.id, answer.value, now), o)
              else !ok && run == old(run)
      ensures ok ==>
                && seen.id in state.operations && !state.operations[seen.id].recoveryRequired
                && state.operations[seen.id].state == if answer.value.recoveryRequired then Failed else answer.value.state
    {
      o := Written;
      if !EvidenceAction(seen.plan.draft.action) || !seen.dispatched {
        return false, o;
      }
      if answer.None? || answer.value.state.Running? || answer.value.state.Queued? || !Terminal(answer.value.state) {
        return false, o;
      }
      var p := Copy(now);
      var tx := Finishing(p, seen.id, answer.value, now);
      ghost var before := run;
      ok, o := Transact(tx, now, {}, EvidenceFinish(seen.id, answer.value, now, Written));
      if ok {
        InspectionIsRecorded(before, run.event);
      }
    }

    /** What other clients may do meanwhile: any number of requests of any kind. */
    method Others()
      requires Valid()
      modifies this
      ensures Valid() && source == old(source) && AtWork() == old(AtWork()) && Calls() == old(Calls()) && Extends(run, old(run))
    {
      var requests: nat :| 0 <= requests;
      for i := 0 to requests
        invariant Valid() && source == old(source) && AtWork() == old(AtWork()) && Calls() == old(Calls()) && Extends(run, old(run))
      {
        ghost var before := run;
        Another();
        ExtendsTransitive(old(run), before, run);
      }
    }

    method Another()
      requires Valid()
      modifies this
      ensures Valid() && source == old(source) && AtWork() == old(AtWork()) && Calls() == old(Calls()) && Extends(run, old(run))
    {
      var id: Id, planId: Id, now: nat, n: nat, m: nat, b: bool := *, *, *, *, *, *;
      var d: Draft := *;
      var answer: Option<Outcome> := *;
      var ok: bool;
      ghost var o: Write;
      if
      case true => ok, o := CreatePlan(d, n, b, planId, now);
      case true => var answer: Id; ghost var newId: Id; ok, answer, newId, o := Apply(planId, n, m, b, now);
      case true => ok, o := Cancel(id, n, now);
      case true => ok := StartRecover(id);
      case id in inspecting && id in state.operations && (answer.Some? ==> OutcomeOk(answer.value)) =>
        EveryRun(run);
        assert OperationOk(state.operations[id], id);
        ok, o := FinishRecover(state.operations[id], answer, d, n, b, planId, now);
      case id in state.operations && (answer.Some? ==> OutcomeOk(answer.value)) =>
        EveryRun(run);
        assert OperationOk(state.operations[id], id);
        ok, o := InspectEvidence(state.operations[id], answer, now);
    }

    // -------------------------------------------------------------------------
    // The worker.

    /** One transaction of the worker; if it fails the worker gives the operation up. */
    method WorkerTransact(tx: Option<Store>, now: nat, ghost e: Event) returns (ok: bool, ghost o: Write)
      requires Valid() && WorkerEvent(e) && Enabled(Now(run), e) && e.now == now
      requires tx == TxOf(Now(run), e) && (tx.Some? ==> 0 !in tx.value.operations)
      modifies this`state, this`disk, this`poisoned, this`run
      ensures Valid() && run == Then(old(run), WithWrite(e, o)) && ok == Committed(old(Now(run)), tx, o) && Calls() == old(Calls())
      ensures AtWork() == if ok then WorkerAfter(old(Now(run)), e, tx) else Free
      ensures ok ==> state == Prune(tx.value, now)
      ensures !ok ==> state == old(state) && (poisoned || tx.None?)
    {
      ghost var w := Now(run);
      ok, o := Persist(tx, now, w);
      WorkerUpdates(w, e, tx, o);
      Happened(WithWrite(e, o));
    }

    /** The operation is finished, unless the store no longer takes writes. */
    ghost predicate Done(id: Id)
      reads this
    {
      poisoned || id !in state.operations || Terminal(state.operations[id].state)
    }

    ghost predicate Unqueued(id: Id)
      reads this
    {
      poisoned || id !in state.operations || !state.operations[id].state.Queued?
    }

    method FinishWork(id: Id, r: Outcome, now: nat, ghost e: Event) returns (ok: bool, ghost o: Write)
      requires Valid() && AtWork().Busy? && AtWork().id == id && OutcomeOk(r) && Terminal(r.state)
      requires FinishingEvent(e) && Enabled(Now(run), e) && e.now == now && r == ResultOf(Now(run), e)
      modifies this
      ensures Valid() && AtWork().Free? && run == Then(old(run), WithWrite(e, o)) && Calls() == old(Calls())
      ensures source == old(source) && Done(id)
    {
      var p := Copy(now);
      var tx := Finishing(p, id, r, now);
      FinishLeaves(run, id, r, now);
      FinishingTx(Now(run), e, tx);
      ok, o := WorkerTransact(tx, now, e);
    }

    /** Moves a queued operation into execution, if it is still queued and admitted. */
    method BeginWork(op: Operation, authorized: bool, now: nat) returns (ok: bool)
      requires Valid() && AtWork().Free? && (op.id in state.operations ==> state.operations[op.id].plan == op.plan)
      modifies this
      ensures Valid() && source == old(source) && Calls() == old(Calls())
      ensures ok ==> run == Then(old(run), Event.Begin(op.id, authorized, now, Written))
      ensures !ok ==> Extends(run, old(run)) && AtWork().Free? && Unqueued(op.id)
      ensures AtWork().Busy? ==> AtWork() == Busy(op.id, op.plan, Begun) && authorized
      ensures ok && AtWork().Free? ==> op.id in state.operations && Terminal(state.operations[op.id].state)
    {
      if poisoned {
        return false;
      }
      var p := Copy(now);
      var tx := Beginning(p, op.id, authorized, now);
      if tx.None? {
        if op.id in state.operations {
          NotQueuedAnyMore(run, op.id, authorized, now);
        }
        return false;
      }
      BeginLeaves(p, op.id, authorized, now);
      ghost var o: Write;
      ok, o := WorkerTransact(tx, now, Event.Begin(op.id, authorized, now, Written));
    }

    /** The source-update intent, recorded before the source is replaced. */
    method AnnounceSourceUpdate(id: Id, now: nat) returns (ok: bool)
      requires Valid() && Enabled(Now(run), Intend(now, Written)) && AtWork().id == id
      modifies this
      ensures Valid() && source == old(source) && run.Then? && run.past == old(run) && run.event.Intend? && Calls() == old(Calls())
      ensures ok ==> AtWork() == StageWorker(old(AtWork()), Intending)
      ensures ok ==> id in state.operations && state.operations[id].sourceIntent
      ensures !ok ==> AtWork().Free? && Done(id)
    {
      var p := Copy(now);
      var tx := Reporting(p, id, SourceIntent, now);
      if tx.None? && id in state.operations {
        MissingIsFinished(run, id, now);
      }
      ghost var o: Write;
      ok, o := WorkerTransact(tx, now, Intend(now, Written));
    }

    /** The dispatch intent, recorded before the adapter is called. */
    method AnnounceDispatch(id: Id, now: nat) returns (ok: bool)
      requires Valid() && Enabled(Now(run), Dispatch(now, Written)) && AtWork().id == id
      modifies this
      ensures Valid() && source == old(source) && run.Then? && run.past == old(run) && run.event.Dispatch? && Calls() == old(Calls())
      ensures ok ==> AtWork() == StageWorker(old(AtWork()), Dispatching)
      ensures ok ==> id in state.operations && state.operations[id].dispatched
      ensures !ok ==> AtWork().Free? && Done(id)
    {
      var p := Copy(now);
      var tx := Reporting(p, id, DispatchIntent, now);
      if tx.None? && id in state.operations {
        MissingIsFinished(run, id, now);
      }
      ghost var o: Write;
      ok, o := WorkerTransact(tx, now, Dispatch(now, Written));
    }

    method RecordSourceUpdate(id: Id, now: nat) returns (ok: bool)
      requires Valid() && At(Now(run), Replaced) && AtWork().id == id
      modifies this
      ensures Valid() && source == old(source) && Extends(run, old(run)) && Calls() == old(Calls())
      ensures run.Then? && run.past == old(run) && run.event.RecordSource?
      ensures ok ==> AtWork() == StageWorker(old(AtWork()), Ready)
      ensures ok ==> id in state.operations && state.operations[id].sourceUpdated
      ensures !ok ==> AtWork().Free? && Done(id)
    {
      var p := Copy(now);
      var tx := MarkingSource(p, id, now);
      if tx.None? && id in state.operations {
        MissingIsFinished(run, id, now);
      }
      ghost var o: Write;
      ok, o := WorkerTransact(tx, now, RecordSource(now, Written));
    }

    /** Compare-and-swap on the managed source. */
    method ReplaceSource(expected: Configuration, next: Configuration) returns (r: SourceWrite)
      requires Valid() && At(Now(run), Intending)
      requires AtWork().plan.draft.source == expected && AtWork().plan.desired == next
      modifies this
      ensures Valid() && run == Then(old(run), Replace(r)) && Calls() == old(Calls())
      ensures old(source) != expected ==> r.SourceRefused?
      ensures source == if r.SourceWritten? || r.SourceFailedAfter? then next else old(source)
      ensures AtWork() == StageWorker(old(AtWork()), if r.SourceWritten? then Replaced else ReplaceFailed(!r.SourceRefused?))
    {
      r := *;
      if source != expected {
        r := SourceRefused;
      }
      if r.SourceWritten? || r.SourceFailedAfter? {
        source := next;
      }
      Happened(Replace(r));
    }

    /** The adapter does the work. By now everyone else awaiting recovery is in the chain
        that the operation recovers, and the adapter has never been called for it. */
    method CallAdapter(op: Operation) returns (r: Outcome)
      requires Valid() && At(Now(run), Dispatching) && AtWork().id == op.id && AtWork().plan == op.plan
      requires OthersInChain(state.operations, OperationRoots(state.operations), op.id, op.plan)
      requires Now(run).env.executed[op.id] == 0
      modifies this
      ensures Valid() && source == old(source) && OutcomeOk(r) && Extends(run, Then(old(run), Execute(r)))
      ensures AtWork() == StageWorker(old(AtWork()), Executing(r))
    {
      assert OutcomeOk(Outcome(Failed, false));
      r :| OutcomeOk(r);
      Happened(Execute(r));
      ghost var called := run;
      var reports: nat :| 0 <= reports;
      for i := 0 to reports
        invariant Valid() && source == old(source) && Extends(run, called) && AtWork() == StageWorker(old(AtWork()), Executing(r))
      {
        ghost var before := run;
        Others();
        ExtendsTransitive(called, before, run);
        var now: nat := *;
        ReportProgress(op.id, now);
      }
    }

    method ReportProgress(id: Id, now: nat)
      requires Valid() && AtExecution(Now(run)) && AtWork().id == id
      modifies this
      ensures Valid() && source == old(source) && AtWork() == old(AtWork()) && Calls() == old(Calls())
      ensures run.Then? && run.past == old(run) && run.event.ReportPhase?
    {
      var p := Copy(now);
      var tx := Reporting(p, id, OtherPhase, now);
      var ok;
      ghost var o: Write;
      ok, o := Transact(tx, now, {}, ReportPhase(now, Written));
    }

    /** The worker looks again at what it has just moved into execution. */
    method LookAgain(op: Operation) returns (ok: bool)
      requires Valid() && (AtWork().Busy? ==> AtWork() == Busy(op.id, op.plan, Begun))
      requires AtWork().Free? && op.id in state.operations ==> Terminal(state.operations[op.id].state)
      modifies this
      ensures Valid() && source == old(source) && Extends(run, old(run)) && Calls() == old(Calls())
      ensures ok ==> AtWork() == Busy(op.id, op.plan, Validating)
      ensures !ok ==> AtWork().Free? && Unqueued(op.id)
    {
      ok := op.id in state.operations && state.operations[op.id].state.Running?;
      if AtWork().Busy? {
        if op.id in state.operations {
          HeldIsOutOfQueue(run);
        }
        LookIs(Now(run));
        Happened(Reread);
      }
    }

    /** Replaces the source and records that, or how it failed. */
    method SwapSource(op: Operation, c: Configuration) returns (ok: bool)
      requires Valid() && AtWork() == Busy(op.id, op.plan, Intending) && c == source == op.plan.draft.source
      modifies this
      ensures Valid() && Extends(run, old(run)) && (source == c || source == op.plan.desired) && Calls() == old(Calls())
      ensures ok ==> AtWork() == Busy(op.id, op.plan, Ready) && source == op.plan.desired
      ensures !ok ==> AtWork().Free? && Done(op.id)
    {
      ghost var start := run;
      var r := ReplaceSource(c, op.plan.desired);
      ghost var at := run;
      Others();
      ExtendsTransitive(start, at, run);
      at := run;
      var now: nat := *;
      if !r.SourceWritten? {
        ghost var o: Write;
        ok, o := FinishWork(op.id, if r.SourceRefused? then Outcome(Failed, false) else Outcome(RecoveryRequired, true), now, FailReplace(now, Written));
        ok := false;
      } else {
        ok := RecordSourceUpdate(op.id, now);
      }
      ExtendsTransitive(start, at, run);
    }

    /** From the intent to the record of the source update. */
    method UpdateSource(op: Operation, c: Configuration) returns (ok: bool)
      requires Valid() && AtWork() == Busy(op.id, op.plan, Validating) && c == source == op.plan.draft.source != op.plan.desired
      requires !op.plan.draft.action.OperationReconcile?
      modifies this
      ensures Valid() && Extends(run, old(run)) && (source == c || source == op.plan.desired) && Calls() == old(Calls())
      ensures ok ==> AtWork() == Busy(op.id, op.plan, Ready) && source == op.plan.desired
      ensures !ok ==> AtWork().Free? && Done(op.id)
    {
      ghost var start := run;
      var now: nat := *;
      ok := AnnounceSourceUpdate(op.id, now);
      if ok {
        ghost var at := run;
        Others();
        ExtendsTransitive(start, at, run);
        at := run;
        ok := SwapSource(op, c);
        ExtendsTransitive(start, at, run);
      }
    }

    /** The ends that come before any effect: a refusal is recorded as a failure, a cancellation
        as such, and a reconciliation, which has no effect, as a success. */
    method EndEarly(op: Operation, refused: bool, cancelled: bool) returns (ended: bool)
      requires Valid() && AtWork() == Busy(op.id, op.plan, Validating)
      modifies this
      ensures Valid() && Extends(run, old(run)) && Calls() == old(Calls()) && source == old(source)
      ensures ended == (refused || cancelled || op.plan.draft.source != source || op.plan.draft.action.OperationReconcile?)
      ensures ended ==> AtWork().Free? && Done(op.id)
      ensures ended && !poisoned && !EvidenceAction(op.plan.draft.action) ==>
                && op.id in state.operations && !state.operations[op.id].recoveryRequired
                && state.operations[op.id].state ==
                   if refused || op.plan.draft.source != source then Failed else if cancelled then Cancelled else Succeeded
      ensures !ended ==> run == old(run) && AtWork() == old(AtWork())
    {
      var now: nat, ok: bool := *, *;
      ghost var o: Write;
      ghost var before := run;
      if refused || op.plan.draft.source != source {
        ok, o := FinishWork(op.id, Outcome(Failed, false), now, Abort(Failed, now, Written));
      } else if cancelled {
        ok, o := FinishWork(op.id, Outcome(Cancelled, false), now, Abort(Cancelled, now, Written));
      } else if op.plan.draft.action.OperationReconcile? {
        ok, o := FinishWork(op.id, Outcome(Succeeded, false), now, Reconcile(now, Written));
      } else {
        return false;
      }
      if !poisoned && !EvidenceAction(op.plan.draft.action) {
        OtherEndIsRecorded(before, run.event);
      }
      return true;
    }

    /** Everything before the adapter is called. */
    method Prepare(op: Operation) returns (ok: bool)
      requires Valid() && AtWork() == Busy(op.id, op.plan, Validating)
      modifies this
      ensures Valid() && Extends(run, old(run)) && Calls() == old(Calls())
      ensures ok ==> AtWork() == Busy(op.id, op.plan, Dispatching) && source == op.plan.desired
      ensures ok ==> !op.plan.draft.action.OperationReconcile? && old(source) == op.plan.draft.source
      ensures !ok ==> AtWork().Free? && Done(op.id)
    {
      var c, refused: bool, cancelled: bool := source, *, *;
      var ended := EndEarly(op, refused, cancelled);
      if ended {
        return false;
      }
      ghost var start, at := run, run;
      if op.plan.desired != c {
        ok := UpdateSource(op, c);
        if !ok {
          return;
        }
        at := run;
        Others();
        ExtendsTransitive(start, at, run);
        at := run;
      }
      var now: nat := *;
      ok := AnnounceDispatch(op.id, now);
      ExtendsTransitive(start, at, run);
    }

    /** The adapter answered, and that is how the operation is recorded: its state is the
        adapter's if that is final, and it requires recovery exactly if the adapter said so or
        gave no final answer. Evidence work never requires recovery. */
    ghost predicate Answered(op: Operation, answer: Outcome)
      reads this
    {
      && Legal(run) && run.Then? && run.event.Complete?
      && AtExecution(Now(run.past)) && Now(run.past).env.worker == Busy(op.id, op.plan, Executing(answer))
      && (!poisoned && !EvidenceAction(op.plan.draft.action) ==>
            && op.id in state.operations
            && state.operations[op.id].state == (if Terminal(answer.state) then answer.state else RecoveryRequired)
            && (state.operations[op.id].recoveryRequired <==> answer.recoveryRequired || !Terminal(answer.state)))
    }

    /** The adapter's part, and the record of its result. */
    method Deliver(op: Operation) returns (answer: Outcome)
      requires Valid() && AtWork() == Busy(op.id, op.plan, Dispatching)
      modifies this
      ensures Valid() && Extends(run, old(run)) && AtWork().Free? && Done(op.id) && Answered(op, answer)
    {
      ghost var start := run;
      Others();
      ghost var at := run;
      Fenced(run);
      answer := CallAdapter(op);
      ExtendsTransitive(at, Then(at, Execute(answer)), run);
      ExtendsTransitive(start, at, run);
      at := run;
      Others();
      ExtendsTransitive(start, at, run);
      at := run;
      var now: nat := *;
      var r := answer;
      if !Terminal(r.state) {
        r := Outcome(RecoveryRequired, true);
      }
      var ok;
      ghost var o: Write;
      ok, o := FinishWork(op.id, r, now, Complete(r, now, Written));
      ExtendsTransitive(start, at, run);
      if !poisoned && !EvidenceAction(op.plan.draft.action) {
        AnswerIsRecorded(at, run.event);
      }
    }

    /** What follows once the operation was found running. */
    method CarryOut(op: Operation) returns (answer: Option<Outcome>)
      requires Valid() && AtWork() == Busy(op.id, op.plan, Validating)
      modifies this
      ensures Valid() && Extends(run, old(run)) && AtWork().Free? && Done(op.id)
      ensures answer.Some? ==> Answered(op, answer.value)
      ensures answer.None? ==> Calls() == old(Calls())
    {
      ghost var start := run;
      answer := None;
      Others();
      ghost var at := run;
      var ok := Prepare(op);
      ExtendsTransitive(start, at, run);
      if ok {
        at := run;
        var r := Deliver(op);
        answer := Some(r);
        ExtendsTransitive(start, at, run);
      }
    }

    /** Executes one operation taken from the queue. `begun` tells whether it was moved out of
        the queue, `looked` whether the second look found it running. Once it did, the
        operation is finished when it is put down; the only other end is the race. `answer` is
        what the adapter answered, if it was called. */
    method ExecuteOperation(op: Operation) returns (begun: bool, looked: bool, answer: Option<Outcome>)
      requires Valid() && AtWork().Free? && (op.id in state.operations ==> state.operations[op.id].plan == op.plan)
      modifies this
      ensures Valid() && AtWork().Free? && Extends(run, old(run))
      ensures looked ==> begun && Done(op.id)
      ensures begun ==> Done(op.id) || Raced(run, op.id)
      ensures Unqueued(op.id)
      ensures answer.Some? ==> looked && Answered(op, answer.value)
      ensures answer.None? ==> Calls() == old(Calls())
    {
      ghost var start := run;
      var now: nat, authorized: bool := *, *;
      looked, answer := false, None;
      begun := BeginWork(op, authorized, now);
      if !begun {
        return;
      }
      ghost var at := run;
      Others();
      RecordsLast(at, run, op.id);
      OperationsAdvance(at, run);
      ExtendsTransitive(start, at, run);
      at := run;
      var ok := LookAgain(op);
      ExtendsTransitive(start, at, run);
      if !ok {
        if !poisoned && op.id in state.operations {
          PutDownEarly(run, op.id);
        }
        return;
      }
      looked := true;
      at := run;
      answer := CarryOut(op);
      ExtendsTransitive(start, at, run);
    }

    /** One turn of the worker loop: the oldest queued operation, if the store is healthy. */
    method WorkOnce() returns (taken: Option<Operation>, begun: bool)
      requires Valid() && AtWork().Free?
      modifies this
      ensures Valid() && AtWork().Free? && Extends(run, old(run))
      ensures taken.Some? ==> exists id | id in old(state).operations :: old(state).operations[id] == taken.value && taken.value.state.Queued?
      ensures taken.Some? ==>
                forall id | id in old(state).operations && old(state).operations[id].state.Queued? ::
                  taken.value.createdAt <= old(state).operations[id].createdAt
      ensures taken.None? ==> !begun && (old(poisoned) || forall id | id in old(state).operations :: !old(state).operations[id].state.Queued?)
      ensures begun ==> taken.Some? && (Done(taken.value.id) || Raced(run, taken.value.id))
      ensures taken.Some? ==> !old(poisoned) && Unqueued(taken.value.id)
    {
      if poisoned {
        return None, false;
      }
      EveryRun(run);
      assert forall id | id in state.operations :: OperationOk(state.operations[id], id);
      taken := OldestQueued(state.operations);
      if taken.None? {
        return None, false;
      }
      ghost var start := run;
      Others();
      RecordsLast(start, run, taken.value.id);
      ghost var at := run;
      assert taken.value.id in state.operations ==> state.operations[taken.value.id].plan == taken.value.plan by {
        OperationsAdvance(start, at);
        EveryRun(start);
      }
      var looked, answer;
      begun, looked, answer := ExecuteOperation(taken.value);
      ExtendsTransitive(start, at, run);
    }

    // -------------------------------------------------------------------------
    // Startup.

    /** Resolves what a previous process left in execution. Nothing is sent again. */
    method Start() returns (ok: bool)
      requires Agrees() && Now(run).process.Down?
      modifies this
      ensures Legal(run) && Extends(run, old(run)) && Calls() == old(Calls())
      ensures ok ==> Valid() && AtWork().Free? && forall id | id in state.operations :: !InFlight(state.operations[id].state)
      ensures !ok ==> Now(run).process.Down? && disk == Now(run).disk
    {
      IdleWhenDown(run);
      ReopenIs(Now(run));
      ghost var start := run;
      Happened(Reopen);
      ghost var at := run;
      ok := StartAll(state.operations);
      ExtendsTransitive(start, at, run);
      if ok {
        StartingIsDone(run);
        run := Then(run, StartDone);
      }
    }

    /** Startup has dealt with everything in `snapshot` but `todo`. */
    ghost predicate Resolving(start: Run, snapshot: Operations, todo: set<Id>)
      reads this
    {
      && Agrees() && Legal(start) && Extends(run, start) && Calls() == Now(start).env.executed
      && Now(run).process == Starting(Unfinished(snapshot, todo))
      && forall id | id in Unfinished(snapshot, todo) :: id in state.operations && state.operations[id] == snapshot[id]
    }

    method StartAll(snapshot: Operations) returns (ok: bool)
      requires Agrees() && snapshot == state.operations && Now(run).process == Starting(Unfinished(snapshot, snapshot.Keys))
      modifies this`state, this`disk, this`poisoned, this`run
      ensures Legal(run) && Extends(run, old(run)) && Calls() == old(Calls())
      ensures ok ==> Agrees() && Now(run).process == Starting({})
      ensures !ok ==> Now(run).process.Down? && disk == Now(run).disk
    {
      var todo := snapshot.Keys;
      ghost var start := run;
      while todo != {}
        invariant todo <= snapshot.Keys && Resolving(start, snapshot, todo)
        decreases todo
      {
        var id :| id in todo;
        ok := StartNext(id, snapshot, start, todo);
        todo := todo - {id};
        if !ok {
          return;
        }
      }
      assert Unfinished(snapshot, {}) == {};
      return true;
    }

    /** One more operation of the snapshot. */
    method StartNext(id: Id, snapshot: Operations, ghost start: Run, ghost todo: set<Id>) returns (ok: bool)
      requires Resolving(start, snapshot, todo) && id in todo && todo <= snapshot.Keys
      modifies this`state, this`disk, this`poisoned, this`run
      ensures Legal(run) && Extends(run, start) && Calls() == old(Calls())
      ensures ok ==> Resolving(start, snapshot, todo - {id})
      ensures !ok ==> Now(run).process.Down? && disk == Now(run).disk
    {
      var o := snapshot[id];
      ghost var remaining := Unfinished(snapshot, todo);
      if Terminal(o.state) || o.state.Queued? {
        assert Unfinished(snapshot, todo - {id}) == remaining;
        return true;
      }
      assert Unfinished(snapshot, todo - {id}) == remaining - {id};
      var now: nat := *;
      var answer: Option<Outcome> :| PlausibleAnswer(answer);
      ghost var before := run;
      ok := StartOperation(id, o, answer, now, remaining);
      ExtendsTransitive(start, before, run);
    }

    method StartOperation(id: Id, o: Operation, answer: Option<Outcome>, now: nat, ghost todo: set<Id>) returns (ok: bool)
      requires Agrees() && Now(run).process == Starting(todo) && id in todo && PlausibleAnswer(answer)
      requires id in state.operations && state.operations[id] == o
      modifies this`state, this`disk, this`poisoned, this`run
      ensures Legal(run) && Extends(run, old(run)) && Calls() == old(Calls())
      ensures ok ==> Agrees() && Now(run).process == Starting(todo - {id})
      ensures ok ==> forall k | k in todo && k != id && k in old(state).operations && InFlight(old(state).operations[k].state) ::
                       k in state.operations && state.operations[k] == old(state).operations[k]
      ensures ok ==> RecordedAtStart(old(Now(run)), Now(run), id, answer, now)
      ensures !ok ==> Now(run).process.Down? && disk == Now(run).disk
    {
      var p := Copy(now);
      var r := StartOutcome(o, answer);
      var tx := Finishing(p, id, r, now);
      StartLeavesAll(run, id, r, now, tx);
      ghost var before := run;
      ghost var o: Write;
      ok, o := StartTransact(tx, now, StartOne(id, answer, now, Written));
      if ok {
        StartIsRecorded(before, run.event);
      }
    }

    /** One transaction of startup; if it fails the process gives up. */
    method StartTransact(tx: Option<Store>, now: nat, ghost e: Event) returns (ok: bool, ghost o: Write)
      requires Agrees() && e.StartOne? && Enabled(Now(run), e) && e.now == now
      requires tx == TxOf(Now(run), e) && (tx.Some? ==> 0 !in tx.value.operations)
      modifies this`state, this`disk, this`poisoned, this`run
      ensures Legal(run) && Extends(run, old(run)) && Calls() == old(Calls())
      ensures run == Then(old(run), WithWrite(e, o))
      ensures ok ==> Agrees() && Now(run).process == Starting(old(Now(run)).process.todo - {e.id})
      ensures ok ==> tx.Some? && state == Prune(tx.value, now)
      ensures !ok ==> Now(run).process.Down? && disk == Now(run).disk
    {
      ghost var w := Now(run);
      ok, o := Persist(tx, now, w);
      StartUpdates(w, e, tx, o);
      Happened(WithWrite(e, o));
    }
  }

  lemma {:induction false} HeldIsOutOfQueue(run: Run)
    requires Legal(run) && Now(run).env.worker.Busy? && Now(run).env.worker.id in Now(run).mem.operations
    ensures !Now(run).mem.operations[Now(run).env.worker.id].state.Queued?
  {
    EveryRun(run);
  }

  lemma LookIs(w: World)
    requires At(w, Begun)
    ensures var id := w.env.worker.id; var w' := Next(w, Reread);
            && Enabled(w, Reread) && w'.mem == w.mem && w'.disk == w.disk && w'.poisoned == w.poisoned && w'.process == w.process
            && w'.depth == w.depth && w'.env == w.env.(worker := w'.env.worker, abandoned := w'.env.abandoned)
            && w'.env.worker == if id in w.mem.operations && w.mem.operations[id].state.Running?
                                then StageWorker(w.env.worker, Validating) else Free
  {
  }

  /** An operation out of the queue with nobody at work is finished, or was let go. */
  lemma {:induction false} PutDownEarly(run: Run, id: Id)
    requires Legal(run) && Now(run).process.Up? && Now(run).env.worker.Free? && !Now(run).poisoned
    requires id in Now(run).mem.operations && !Now(run).mem.operations[id].state.Queued?
    ensures Terminal(Now(run).mem.operations[id].state) || Raced(run, id)
  {
    OrphanIffRaced(run, id);
  }

  /** The fence at the moment the adapter is called, over all runs. */
  lemma {:induction false} Fenced(run: Run)
    requires Legal(run) && At(Now(run), Dispatching)
    ensures var w := Now(run);
            && OthersInChain(w.mem.operations, OperationRoots(w.mem.operations), w.env.worker.id, w.env.worker.plan)
            && w.env.executed[w.env.worker.id] == 0
  {
    EveryRun(run);
    ExecutedAtMostOnce(run, Now(run).env.worker.id);
  }
}
