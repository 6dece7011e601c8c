/** Idempotency keys, the queue depth, and what a failed write leaves behind
    (internal/store/store.go, `Apply` in internal/engine/engine.go). */
module ControllerLedger {
  import opened Domain
  import opened ControllerStore
  import opened ControllerTransactions
  import opened ControllerMachine
  import opened ControllerInvariant
  import opened ControllerGuarantees
  import opened ControllerResults

  /** Keys and retained operations correspond one to one, and the queue is within its depth. */
  predicate LedgerOk(s: Store, depth: nat) {
    && (forall k | k in s.idempotency ::
          s.idempotency[k].operation in s.operations && s.operations[s.idempotency[k].operation].key == k)
    && (forall id | id in s.operations ::
          s.operations[id].key in s.idempotency && s.idempotency[s.operations[id].key].operation == id)
    && |NonTerminal(s.operations)| <= depth
  }

  lemma SubsetSize(a: set<Id>, b: set<Id>)
    requires a <= b
    ensures |a| <= |b|
  {
    assert b == a + (b - a);
  }

  lemma PruneKeepsLedger(s: Store, now: nat, depth: nat)
    requires LedgerOk(s, depth)
    ensures LedgerOk(Prune(s, now), depth)
  {
    SubsetSize(NonTerminal(Prune(s, now).operations), NonTerminal(s.operations));
  }

  /** `t` has the keys and operations of `s`, and no operation has come back to life. */
  predicate KeepsBooks(s: Store, t: Store) {
    && t.idempotency == s.idempotency && t.operations.Keys == s.operations.Keys
    && forall id | id in s.operations ::
         t.operations[id].key == s.operations[id].key && (Terminal(s.operations[id].state) ==> Terminal(t.operations[id].state))
  }

  lemma BooksKeepLedger(s: Store, t: Store, depth: nat)
    requires LedgerOk(s, depth) && KeepsBooks(s, t)
    ensures LedgerOk(t, depth)
  {
    SubsetSize(NonTerminal(t.operations), NonTerminal(s.operations));
  }

  lemma ResolveKeepsBooks(ops: Operations, roots: map<Id, Id>, id: Id, now: nat)
    requires id in ops
    ensures var ops' := ResolveChain(ops, roots, id, now);
            ops'.Keys == ops.Keys &&
            forall k | k in ops :: ops'[k].key == ops[k].key && (Terminal(ops[k].state) ==> Terminal(ops'[k].state))
  {
  }

  lemma FinishKeepsBooks(s: Store, id: Id, r: Outcome, now: nat)
    requires Terminal(r.state) && FinishTx(s, id, r, now).Some?
    ensures KeepsBooks(s, FinishTx(s, id, r, now).value)
  {
    var o := Finished(s.operations[id], r, now);
    var ops := s.operations[id := o];
    assert o.key == s.operations[id].key && Terminal(o.state);
    if o.state.Succeeded? && o.plan.draft.parent != 0 {
      ResolveKeepsBooks(ops, OperationRoots(ops), id, now);
    }
  }

  lemma CancelKeepsBooks(s: Store, id: Id, revision: nat, now: nat)
    ensures CancelTx(s, id, revision, now).Some? ==> KeepsBooks(s, CancelTx(s, id, revision, now).value)
  {
  }

  lemma BeginKeepsBooks(s: Store, id: Id, authorized: bool, now: nat)
    ensures BeginTx(s, id, authorized, now).Some? ==> KeepsBooks(s, BeginTx(s, id, authorized, now).value)
  {
  }

  lemma ReportKeepsBooks(s: Store, id: Id, p: Report, now: nat)
    ensures ProgressTx(s, id, p, now).Some? ==> KeepsBooks(s, ProgressTx(s, id, p, now).value)
    ensures SourceUpdatedTx(s, id, now).Some? ==> KeepsBooks(s, SourceUpdatedTx(s, id, now).value)
  {
  }

  /** A new operation under a new key. */
  lemma AddKeepsLedger(s: Store, o: Operation, payload: nat, depth: nat)
    requires LedgerOk(s, depth) && o.id !in s.operations && o.key !in s.idempotency && |NonTerminal(s.operations)| < depth
    ensures LedgerOk(s.(operations := s.operations[o.id := o],
                        idempotency := s.idempotency[o.key := Idempotency(payload, o.id)]), depth)
  {
    var t := s.operations[o.id := o];
    SubsetSize(NonTerminal(t), NonTerminal(s.operations) + {o.id});
    assert forall id | id in s.operations :: s.operations[id].key != o.key;
  }

  lemma FinishingKeepsBooks(w: World, e: Event)
    requires e.StartOne? || e.RecoverFinish? || e.EvidenceFinish? || e.Abort? || e.Reconcile? || e.FailReplace? || e.Complete?
    requires Enabled(w, e)
    ensures TxOf(w, e).Some? ==> KeepsBooks(Prune(w.mem, e.now), TxOf(w, e).value)
  {
    if TxOf(w, e).Some? {
      var p := Prune(w.mem, e.now);
      match e
      case StartOne(id, inspected, now, _) => FinishKeepsBooks(p, id, StartOutcome(w.mem.operations[id], inspected), now);
      case RecoverFinish(id, r, now, _) => FinishKeepsBooks(p, id, r, now);
      case EvidenceFinish(id, r, now, _) => FinishKeepsBooks(p, id, r, now);
      case Abort(state, now, _) => FinishKeepsBooks(p, w.env.worker.id, Outcome(state, false), now);
      case Reconcile(now, _) => FinishKeepsBooks(p, w.env.worker.id, Outcome(Succeeded, false), now);
      case FailReplace(now, _) =>
        FinishKeepsBooks(p, w.env.worker.id,
                         if w.env.worker.stage.uncertain then Outcome(RecoveryRequired, true) else Outcome(Failed, false), now);
      case Complete(r, now, _) => FinishKeepsBooks(p, w.env.worker.id, r, now);
    }
  }

  lemma WorkingKeepsBooks(w: World, e: Event)
    requires e.Cancel? || e.Begin? || e.Intend? || e.RecordSource? || e.Dispatch? || e.ReportPhase?
    requires Enabled(w, e)
    ensures TxOf(w, e).Some? ==> KeepsBooks(Prune(w.mem, e.now), TxOf(w, e).value)
  {
    var p := Prune(w.mem, e.now);
    match e
    case Cancel(id, revision, now, _) => CancelKeepsBooks(p, id, revision, now);
    case Begin(id, authorized, now, _) => BeginKeepsBooks(p, id, authorized, now);
    case Intend(now, _) => ReportKeepsBooks(p, w.env.worker.id, SourceIntent, now);
    case RecordSource(now, _) => ReportKeepsBooks(p, w.env.worker.id, OtherPhase, now);
    case Dispatch(now, _) => ReportKeepsBooks(p, w.env.worker.id, DispatchIntent, now);
    case ReportPhase(now, _) => ReportKeepsBooks(p, w.env.worker.id, OtherPhase, now);
  }

  lemma ApplyKeepsLedger(p: Store, e: Event, depth: nat, tx: Option<Store>)
    requires LedgerOk(p, depth) && e.Apply? && e.newId !in p.operations
    requires tx == ApplyTx(p, e.planId, e.key, e.payload, e.newId, depth, e.permitted, e.now)
    ensures tx.Some? ==> LedgerOk(tx.value, depth)
  {
    if tx.Some? && e.key !in p.idempotency {
      AddKeepsLedger(p, NewOperation(e.newId, e.key, p.plans[e.planId], e.now), e.payload, depth);
    }
  }

  lemma TxKeepsLedger(w: World, e: Event)
    requires Enabled(w, e) && Writes(e) && LedgerOk(w.mem, w.depth) && w.mem.operations.Keys <= w.env.used
    ensures TxOf(w, e).Some? ==> LedgerOk(TxOf(w, e).value, w.depth)
  {
    var p, tx := Prune(w.mem, e.now), TxOf(w, e);
    PruneKeepsLedger(w.mem, e.now, w.depth);
    if e.Apply? {
      ApplyKeepsLedger(p, e, w.depth, tx);
    } else if e.CreatePlan? {
      assert tx.Some? ==> KeepsBooks(p, tx.value);
    } else if e.Cancel? || e.Begin? || e.Intend? || e.RecordSource? || e.Dispatch? || e.ReportPhase? {
      WorkingKeepsBooks(w, e);
    } else {
      FinishingKeepsBooks(w, e);
    }
    if tx.Some? && !e.Apply? { BooksKeepLedger(p, tx.value, w.depth); }
  }

  predicate LedgersOk(w: World) {
    LedgerOk(w.mem, w.depth) && LedgerOk(w.disk, w.depth)
  }

  lemma UpdateKeepsLedgers(w: World, e: Event, tx: Option<Store>)
    requires Writes(e) && LedgersOk(w)
    requires e.Intend? || e.RecordSource? || e.Dispatch? ==> w.env.worker.Busy?
    requires e.StartOne? ==> w.process.Starting?
    requires tx.Some? ==> LedgerOk(Prune(tx.value, e.now), w.depth)
    ensures LedgersOk(Update(w, e, tx)) && Update(w, e, tx).depth == w.depth
  {
    UpdateStores(w, e, tx);
  }

  predicate OldOrNew(w: World, tx: Option<Store>, now: nat, s: Store) {
    s == w.mem || s == w.disk || (tx.Some? && s == Prune(tx.value, now))
  }

  lemma UpdateStores(w: World, e: Event, tx: Option<Store>)
    requires Writes(e)
    requires e.Intend? || e.RecordSource? || e.Dispatch? ==> w.env.worker.Busy?
    requires e.StartOne? ==> w.process.Starting?
    ensures Update(w, e, tx).depth == w.depth
    ensures OldOrNew(w, tx, e.now, Update(w, e, tx).mem) && OldOrNew(w, tx, e.now, Update(w, e, tx).disk)
  {
    if !e.StartOne? { UpdateCommits(w, e, tx); }
  }

  lemma StepKeepsLedgers(w: World, e: Event)
    requires LinedUp(w) && LedgersOk(w) && Enabled(w, e)
    ensures LedgersOk(Next(w, e)) && Next(w, e).depth == w.depth
  {
    if Writes(e) {
      var tx := TxOf(w, e);
      TxKeepsLedger(w, e);
      if tx.Some? { PruneKeepsLedger(tx.value, e.now, w.depth); }
      UpdateKeepsLedgers(w, e, tx);
    }
  }

  /** In every reachable state, in memory and on disk: every idempotency entry points at a
      retained operation, each key owns at most one, and no more operations are unfinished
      than the configured depth. */
  lemma {:induction false} LedgersAlwaysOk(run: Run)
    requires Legal(run)
    ensures LedgersOk(Now(run))
  {
    if run.Then? {
      LedgersAlwaysOk(run.past);
      EveryRun(run.past);
      StepKeepsLedgers(Now(run.past), run.event);
    }
  }

  /** A repeated request creates nothing: one key, one operation, over the whole history the
      store retains. */
  lemma {:induction false} OneOperationPerKey(run: Run, a: Id, b: Id)
    requires Legal(run) && a in Now(run).mem.operations && b in Now(run).mem.operations
    requires Now(run).mem.operations[a].key == Now(run).mem.operations[b].key
    ensures a == b
  {
    LedgersAlwaysOk(run);
  }

  // ---------------------------------------------------------------------------
  // Requests under a key.

  /** The operation a request under `key` is about: the owner of the key, or a new one. */
  function AnswerTo(s: Store, key: nat, newId: Id): Id {
    if key in s.idempotency then s.idempotency[key].operation else newId
  }

  predicate SubsetOf(ops: Operations, ops': Operations, newId: Id) {
    forall id | id in ops' && id != newId :: id in ops && ops'[id] == ops[id]
  }

  /** A repeated request: the key was given this payload before, and no operation changed. */
  predicate Repeats(before: Store, after: Store, e: Event, answer: Id)
    requires e.Apply?
  {
    && e.key in before.idempotency && before.idempotency[e.key] == Idempotency(e.payload, answer)
    && e.newId !in after.operations
  }

  /** A first request: its plan is stored, current and admitted, the queue has room, and the
      plan is queued. */
  predicate Queues(before: Store, after: Store, e: Event, depth: nat)
    requires e.Apply?
  {
    && e.planId in before.plans && e.now <= before.plans[e.planId].expiresAt
    && Admits(before.operations, OperationRoots(before.operations), before.plans[e.planId].draft, 0)
    && |NonTerminal(before.operations)| < depth
    && e.newId in after.operations
    && after.operations[e.newId] ==
       Operation(e.newId, e.key, before.plans[e.planId], Queued, false, false, false, false, false, 1, e.now, e.now)
  }

  /** What the success of a request means: the sender was permitted, the key now stands for
      this payload and for `answer`, and no other operation has changed. */
  predicate Answers(before: Store, after: Store, e: Event, depth: nat, answer: Id)
    requires e.Apply?
  {
    && e.permitted
    && e.key in after.idempotency && after.idempotency[e.key] == Idempotency(e.payload, answer)
    && answer in after.operations && after.operations[answer].key == e.key
    && SubsetOf(before.operations, after.operations, e.newId)
    && if answer == e.newId then Queues(before, after, e, depth) else Repeats(before, after, e, answer)
  }

  lemma RepeatAnswers(s: Store, p: Store, e: Event, depth: nat)
    requires e.Apply? && LedgerOk(s, depth) && p == Prune(s, e.now) && e.newId !in s.operations
    requires e.key in p.idempotency && p.idempotency[e.key].payload == e.payload && e.permitted
    ensures Answers(s, p, e, depth, p.idempotency[e.key].operation)
  {
  }

  lemma PruneKeepsUnfinished(s: Store, now: nat)
    ensures NonTerminal(Prune(s, now).operations) == NonTerminal(s.operations)
  {
    RetainedIsLeast(s.operations, now);
  }

  lemma NewAnswers(s: Store, e: Event, depth: nat, t: Store)
    requires e.Apply? && 0 !in s.operations && e.newId !in s.operations && e.key !in Prune(s, e.now).idempotency
    requires ApplyTx(Prune(s, e.now), e.planId, e.key, e.payload, e.newId, depth, e.permitted, e.now) == Some(t)
    ensures Answers(s, Prune(t, e.now), e, depth, e.newId)
  {
    JustTouched(t, e.now, e.newId);
    PruneKeepsUnfinished(s, e.now);
    AdmissionSurvivesPruning(s, e.now, s.plans[e.planId].draft, 0);
  }

  /** A request succeeds on the pruned state only in one of the two ways. */
  lemma ApplyAnswers(s: Store, e: Event, depth: nat, tx: Option<Store>)
    requires e.Apply? && LedgerOk(s, depth) && 0 !in s.operations && e.newId !in s.operations
    requires tx == ApplyTx(Prune(s, e.now), e.planId, e.key, e.payload, e.newId, depth, e.permitted, e.now)
    ensures tx.Some? ==> Answers(s, Prune(tx.value, e.now), e, depth, AnswerTo(Prune(s, e.now), e.key, e.newId))
  {
    if tx.Some? {
      if e.key in Prune(s, e.now).idempotency {
        PruneTwice(s, e.now);
        RepeatAnswers(s, Prune(s, e.now), e, depth);
      } else {
        NewAnswers(s, e, depth, tx.value);
      }
    }
  }

  /** The request succeeded: it was answered and the state written. */
  predicate Succeeds(w: World, e: Event) {
    e.Apply? && Enabled(w, e) && Committed(w, TxOf(w, e), e.write)
  }

  lemma SuccessIs(w: World, e: Event, tx: Option<Store>)
    requires e.Apply? && Enabled(w, e) && tx == TxOf(w, e) && Committed(w, tx, e.write)
    ensures Next(w, e).mem == Prune(tx.value, e.now) && Next(w, e).disk == Prune(tx.value, e.now)
    ensures Next(w, e).env == w.env.(used := w.env.used + {e.newId})
  {
  }

  lemma {:induction false} NewIdIsNew(run: Run, e: Event)
    requires Legal(run) && e.Apply? && Enabled(Now(run), e)
    ensures 0 !in Now(run).mem.operations && e.newId !in Now(run).mem.operations
  {
    EveryRun(run);
  }

  /** Every request that succeeds does so in one of the two ways. */
  lemma {:induction false} RequestIsAnswered(run: Run, e: Event)
    requires Legal(run) && Succeeds(Now(run), e)
    ensures Legal(Then(run, e))
    ensures var w, w' := Now(run), Now(Then(run, e));
            w'.mem == w'.disk && Answers(w.mem, w'.mem, e, w.depth, AnswerTo(Prune(w.mem, e.now), e.key, e.newId))
  {
    LedgersAlwaysOk(run);
    NewIdIsNew(run, e);
    var w := Now(run);
    ApplyAnswers(w.mem, e, w.depth, TxOf(w, e));
    SuccessIs(w, e, TxOf(w, e));
  }

  /** What `s` says of operations known by the time of `a` was already said in `a`. */
  predicate SaidBy(a: World, s: Store) {
    forall k | k in s.idempotency && s.idempotency[k].operation in a.env.used ::
      || (k in a.mem.idempotency && a.mem.idempotency[k] == s.idempotency[k])
      || (k in a.disk.idempotency && a.disk.idempotency[k] == s.idempotency[k])
  }

  /** The entries of `t` are those of `s`, but for some about new operations. */
  predicate EntriesFrom(s: Store, t: Store, drawn: set<Id>) {
    forall k | k in t.idempotency :: (k in s.idempotency && t.idempotency[k] == s.idempotency[k]) || t.idempotency[k].operation in drawn
  }

  function Drawn(e: Event): set<Id> {
    if e.Apply? then {e.newId} else {}
  }

  lemma BooksAddNoEntry(s: Store, t: Store, now: nat, drawn: set<Id>)
    requires t.idempotency == Prune(s, now).idempotency
    ensures EntriesFrom(s, Prune(t, now), drawn)
  {
  }

  lemma ApplyAddsOneEntry(s: Store, e: Event, depth: nat)
    requires e.Apply?
    ensures var tx := ApplyTx(Prune(s, e.now), e.planId, e.key, e.payload, e.newId, depth, e.permitted, e.now);
            tx.Some? ==> EntriesFrom(s, Prune(tx.value, e.now), {e.newId})
  {
  }

  lemma TxAddsOneEntry(w: World, e: Event)
    requires Writes(e) && Enabled(w, e)
    ensures TxOf(w, e).Some? ==> EntriesFrom(w.mem, Prune(TxOf(w, e).value, e.now), Drawn(e))
  {
    var tx := TxOf(w, e);
    if e.Apply? {
      ApplyAddsOneEntry(w.mem, e, w.depth);
    } else if tx.Some? {
      OthersKeepBooks(w, e);
      BooksAddNoEntry(w.mem, tx.value, e.now, Drawn(e));
    }
  }

  lemma OthersKeepBooks(w: World, e: Event)
    requires Writes(e) && Enabled(w, e) && !e.Apply?
    ensures TxOf(w, e).Some? ==> TxOf(w, e).value.idempotency == Prune(w.mem, e.now).idempotency
  {
    if e.Cancel? || e.Begin? || e.Intend? || e.RecordSource? || e.Dispatch? || e.ReportPhase? {
      WorkingKeepsBooks(w, e);
    } else if !e.CreatePlan? {
      FinishingKeepsBooks(w, e);
    }
  }

  lemma UpdateDraws(w: World, e: Event, tx: Option<Store>)
    requires Writes(e)
    requires e.Intend? || e.RecordSource? || e.Dispatch? ==> w.env.worker.Busy?
    requires e.StartOne? ==> w.process.Starting?
    ensures w.env.used <= Update(w, e, tx).env.used
  {
  }

  lemma DrawnIsNew(w: World, e: Event)
    requires Enabled(w, e)
    ensures Drawn(e) * w.env.used == {}
  {
  }

  predicate AllSaidBy(a: World, w: World) {
    a.env.used <= w.env.used && SaidBy(a, w.mem) && SaidBy(a, w.disk)
  }

  lemma SaidAgain(a: World, s: Store, t: Store, drawn: set<Id>)
    requires SaidBy(a, s) && EntriesFrom(s, t, drawn) && drawn * a.env.used == {}
    ensures SaidBy(a, t)
  {
    forall k | k in t.idempotency && t.idempotency[k].operation in a.env.used ensures t.idempotency[k].operation !in drawn {
      assert t.idempotency[k].operation !in drawn * a.env.used;
    }
  }

  lemma StepSays(a: World, w: World, e: Event)
    requires AllSaidBy(a, w) && Enabled(w, e)
    ensures AllSaidBy(a, Next(w, e))
  {
    if Writes(e) {
      var tx := TxOf(w, e);
      UpdateDraws(w, e, tx);
      UpdateStores(w, e, tx);
      if tx.Some? {
        TxAddsOneEntry(w, e);
        DrawnIsNew(w, e);
        SaidAgain(a, w.mem, Prune(tx.value, e.now), Drawn(e));
      }
    }
  }

  /** Whatever happens later, what the store says of a known operation's key and payload is
      what it said before. */
  lemma {:induction false} EntriesNeverChange(run: Run, later: Run)
    requires Legal(later) && Extends(later, run)
    ensures Legal(run) && AllSaidBy(Now(run), Now(later))
  {
    if later != run {
      EntriesNeverChange(run, later.past);
      StepSays(Now(run), Now(later.past), later.event);
    }
  }

  /** Two requests that succeed with the same operation, however far apart, carried the same
      key and the same payload. */
  lemma {:induction false} OnePayloadPerOperation(run: Run, e: Event, later: Run, e': Event)
    requires Legal(run) && Succeeds(Now(run), e)
    requires Legal(later) && Extends(later, Then(run, e)) && Succeeds(Now(later), e')
    requires AnswerTo(Prune(Now(run).mem, e.now), e.key, e.newId) == AnswerTo(Prune(Now(later).mem, e'.now), e'.key, e'.newId)
    ensures e'.key == e.key && e'.payload == e.payload
  {
    RequestIsAnswered(run, e);
    RequestIsAnswered(later, e');
    EntriesNeverChange(Then(run, e), later);
    LedgersAlwaysOk(Then(run, e));
    AnswerIsKnown(Then(run, e), AnswerTo(Prune(Now(run).mem, e.now), e.key, e.newId));
    SamePayload(Now(Then(run, e)), Now(later), e, e', AnswerTo(Prune(Now(run).mem, e.now), e.key, e.newId));
  }

  lemma {:induction false} AnswerIsKnown(run: Run, id: Id)
    requires Legal(run) && id in Now(run).mem.operations
    ensures id in Now(run).env.used
  {
    EveryRun(run);
  }

  lemma SamePayload(a: World, w: World, e: Event, e': Event, id: Id)
    requires e.Apply? && e'.Apply? && LedgerOk(a.mem, a.depth) && a.mem == a.disk && AllSaidBy(a, w) && id in a.env.used
    requires e.key in a.mem.idempotency && a.mem.idempotency[e.key] == Idempotency(e.payload, id)
    requires e'.newId !in w.env.used && e'.key in w.mem.idempotency && w.mem.idempotency[e'.key] == Idempotency(e'.payload, id)
    ensures e'.key == e.key && e'.payload == e.payload
  {
  }

  // ---------------------------------------------------------------------------
  // Failed writes.

  /** Without a failed write, memory is what is on disk. */
  lemma {:induction false} MemoryIsDisk(run: Run)
    requires Legal(run) && !Now(run).poisoned
    ensures Now(run).mem == Now(run).disk
  {
    EveryRun(run);
  }

  /** What a failed write leaves: on disk, what was there or exactly what the same event would
      have stored had it succeeded; in memory, what was there, or after a failed startup, what
      is on disk. */
  predicate AllOrNothing(w: World, e: Event)
    requires Enabled(w, e) && Writes(e) && Enabled(w, WithWrite(e, Written))
  {
    var w', sure := Next(w, e), Next(w, WithWrite(e, Written));
    && (w'.disk == w.disk || w'.disk == sure.disk)
    && (if e.StartOne? then w'.process.Down? && w'.mem == w'.disk else w'.mem == w.mem == w.disk)
  }

  lemma {:induction false} FailedWriteIsAllOrNothing(run: Run, e: Event)
    requires Legal(Then(run, e)) && Writes(e) && !Now(run).poisoned && !e.write.Written?
    ensures Legal(Then(run, WithWrite(e, Written))) && AllOrNothing(Now(run), e)
  {
    MemoryIsDisk(run);
    WriteIsFree(Now(run), e, Written);
    AllOrNothingIn(Now(run), e);
  }

  lemma AllOrNothingIn(w: World, e: Event)
    requires Enabled(w, e) && Writes(e) && Enabled(w, WithWrite(e, Written)) && !w.poisoned && w.mem == w.disk && !e.write.Written?
    ensures AllOrNothing(w, e)
  {
    SameTx(w, e, Written);
    if e.StartOne? { StartFails(w, e, TxOf(w, e)); } else { SureUpdate(w, e, TxOf(w, e)); }
  }

  lemma StartFails(w: World, e: Event, tx: Option<Store>)
    requires e.StartOne? && w.process.Starting? && !w.poisoned && !e.write.Written?
    ensures var w', sure := Update(w, e, tx), Update(w, WithWrite(e, Written), tx);
            && (w'.disk == w.disk || w'.disk == sure.disk)
            && w'.process.Down? && w'.mem == w'.disk
  {
  }

  lemma SureUpdate(w: World, e: Event, tx: Option<Store>)
    requires Writes(e) && !e.StartOne? && !w.poisoned && !e.write.Written?
    requires e.Intend? || e.RecordSource? || e.Dispatch? ==> w.env.worker.Busy?
    ensures var w', sure := Update(w, e, tx), Update(w, WithWrite(e, Written), tx);
            w'.mem == w.mem && (w'.disk == w.disk || w'.disk == sure.disk)
  {
    UpdateCommits(w, e, tx);
    UpdateCommits(w, WithWrite(e, Written), tx);
  }

  /** `later` continues `run` without the process stopping in between. */
  predicate SameProcess(later: Run, run: Run) {
    later == run || (later.Then? && !later.event.Crash? && SameProcess(later.past, run))
  }

  /** After a failed write nothing changes, in memory or on disk, until the store is reopened. */
  lemma {:induction false} FrozenUntilReopened(run: Run, later: Run)
    requires Legal(later) && SameProcess(later, run)
    ensures Legal(run)
    ensures Now(run).poisoned ==> Now(later).mem == Now(run).mem && Now(later).disk == Now(run).disk && Now(later).poisoned
  {
    if later != run {
      FrozenUntilReopened(run, later.past);
      EveryRun(later.past);
      if Now(run).poisoned { PoisonedIsFrozen(Now(later.past), later.event); }
    }
  }
}
