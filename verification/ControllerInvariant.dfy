/** Every step of the controller keeps the invariant of `ControllerMachine`. */
module ControllerInvariant {
  import opened Domain
  import opened RecoveryGraph
  import opened ControllerStore
  import opened ControllerTransactions
  import opened ControllerEvolution
  import opened ControllerMachine

  // ---------------------------------------------------------------------------
  // What following transactions keep.

  lemma SidesFollow(ops: Operations, ops': Operations, subject: Id, source: Configuration)
    requires SidesOk(ops, source) && Follows(ops, ops', subject)
    requires subject in ops' && Pending(ops'[subject]) ==> OnASide(ops'[subject], source)
    ensures SidesOk(ops', source)
  {
    forall id | id in ops' && Pending(ops'[id]) ensures OnASide(ops'[id], source) {
      if id != subject && id in ops {
        assert OperationFollows(ops[id], ops'[id], false);
        assert Pending(ops[id]);
      }
    }
  }

  lemma IdsFollow(ops: Operations, ops': Operations, subject: Id, env: Env)
    requires IdsOk(ops, env) && Follows(ops, ops', subject) && ops'.Keys <= env.used
    requires forall id | id in ops' && id !in ops :: id !in env.inspecting && id !in env.executed
    ensures IdsOk(ops', env)
  {
    forall id | id in ops' && id in ops ensures OperationFollows(ops[id], ops'[id], id == subject) {
    }
  }

  lemma LooseFollow(ops: Operations, ops': Operations, subject: Id, held: Id)
    requires LooseOnly(ops, held) && Follows(ops, ops', subject)
    requires subject in ops' && ops'[subject].sourceIntent && !Terminal(ops'[subject].state) ==>
               subject == held || (subject in ops && ops[subject].sourceIntent)
    ensures LooseOnly(ops', held)
  {
    forall id | id in ops' && ops'[id].sourceIntent && !Terminal(ops'[id].state) ensures id == held {
      if id in ops { assert OperationFollows(ops[id], ops'[id], id == subject); }
    }
  }

  lemma HeldFollow(ops: Operations, ops': Operations, subject: Id, id: Id, plan: Plan)
    requires OperationsOk(ops) && Follows(ops, ops', subject)
    requires HeldOk(ops, OperationRoots(ops), id, plan)
    requires subject in ops' && ops'[subject].recoveryRequired ==> subject in ops && ops[subject].recoveryRequired
    requires subject in ops' && subject != id && ops'[subject].sourceIntent ==> subject in ops && ops[subject].sourceIntent
    requires subject == id && !EvidenceAction(plan.draft.action) ==> id in ops' && InFlight(ops'[id].state)
    requires id !in ops ==> id !in ops'
    ensures HeldOk(ops', OperationRoots(ops'), id, plan)
  {
    FollowsKeepsRoots(ops, ops', subject);
    var roots, roots' := OperationRoots(ops), OperationRoots(ops');
    LooseFollow(ops, ops', subject, id);
    if id in ops' { assert OperationFollows(ops[id], ops'[id], id == subject); }
    if !plan.draft.action.HardwareRefresh? {
      forall k | k in ops' && k != id && ops'[k].recoveryRequired
        ensures plan.draft.parent != 0 && SameChain(roots', plan.draft.parent, k)
      {
        assert OperationOk(ops'[k], k);
        assert k in ops;
        assert OperationFollows(ops[k], ops'[k], k == subject);
        assert ops[k].recoveryRequired;
        assert SameChain(roots, plan.draft.parent, k);
        assert id in ops && ParentOf(ops, id) == plan.draft.parent;
      }
    }
  }

  // ---------------------------------------------------------------------------
  // One update: prune, transact, prune, write.

  /** The part of `StoreOk` that does not speak of the worker. */
  predicate RecordsOk(s: Store, env: Env) {
    && OperationsOk(s.operations)
    && PlansOk(s.plans)
    && SidesOk(s.operations, env.source)
    && IdsOk(s.operations, env)
  }

  /** What is asked of the transaction `t` that an update runs on the pruned state. */
  predicate TransactionOk(s: Store, now: nat, t: Store, subject: Id, env: Env, env': Env) {
    && Follows(Prune(s, now).operations, t.operations, subject)
    && PlansOk(t.plans)
    && (subject in t.operations && Pending(t.operations[subject]) ==> OnASide(t.operations[subject], env.source))
    && (forall id | id in t.operations && id !in Prune(s, now).operations :: id !in env.used && id in env'.used)
    && env'.source == env.source && env'.inspecting == env.inspecting && env'.executed == env.executed && env.used <= env'.used
    && env.inspecting <= env.used && (forall id | id in env.executed :: id in env.used)
  }

  lemma UpdateIsFollowed(s: Store, now: nat, t: Store, subject: Id, used: set<Id>)
    requires OperationsOk(s.operations) && s.operations.Keys <= used
    requires Follows(Prune(s, now).operations, t.operations, subject)
    requires forall id | id in t.operations && id !in Prune(s, now).operations :: id !in used
    ensures var v := Prune(t, now);
            && Follows(s.operations, v.operations, subject)
            && OperationsOk(t.operations) && OperationsOk(v.operations)
            && v.operations == Restrict(t.operations, Retained(t.operations, now))
  {
    var p, v := Prune(s, now), Prune(t, now);
    PruneFollows(s, now);
    FollowsKeepsRoots(p.operations, t.operations, subject);
    PruneFollows(t, now);
    assert Pruned(s.operations, p.operations);
    assert Pruned(t.operations, v.operations);
    UpdateFollows(s.operations, p.operations, t.operations, v.operations, subject);
  }

  lemma UpdateKeepsRecords(s: Store, now: nat, t: Store, subject: Id, env: Env, env': Env)
    requires RecordsOk(s, env) && TransactionOk(s, now, t, subject, env, env')
    ensures RecordsOk(Prune(t, now), env')
    ensures Follows(s.operations, Prune(t, now).operations, subject)
    ensures forall id | id in Prune(t, now).operations :: id in t.operations && Prune(t, now).operations[id] == t.operations[id]
  {
    var v := Prune(t, now);
    UpdateIsFollowed(s, now, t, subject, env.used);
    SidesFollow(s.operations, v.operations, subject, env.source);
    PrunedIds(s, now, t, env.used);
    IdsFollow(s.operations, v.operations, subject, env');
  }

  /** An update adds no operation but those the transaction created. */
  lemma PrunedIds(s: Store, now: nat, t: Store, used: set<Id>)
    requires s.operations.Keys <= used
    requires forall id | id in t.operations && id !in Prune(s, now).operations :: id !in used
    ensures forall id | id in Prune(t, now).operations :: id in t.operations
    ensures forall id | id in Prune(t, now).operations && id !in s.operations :: id !in used
    ensures forall id | id in Prune(t, now).operations :: id in s.operations || id !in used
  {
  }

  lemma CommitLinesUp(w: World, t: Store, now: nat, o: Write, subject: Id, env': Env)
    requires LinedUp(w) && RecordsOk(w.mem, w.env) && TransactionOk(w.mem, now, t, subject, w.env, env')
    ensures LinedUp(Commit(w.(env := env'), Some(t), now, o))
  {
    UpdateKeepsRecords(w.mem, now, t, subject, w.env, env');
    var v := Prune(t, now);
    PrunedIds(w.mem, now, t, w.env.used);
    FollowsNewer(w.mem.operations, v.operations, subject);
  }

  lemma FollowsNewer(ops: Operations, ops': Operations, subject: Id)
    requires Follows(ops, ops', subject)
    ensures Newer(ops, ops')
  {
    forall id | id in ops && id in ops'
      ensures ops'[id].plan == ops[id].plan
      ensures ops'[id] == ops[id] || (ops[id].revision < ops'[id].revision && Rank(ops[id].state) <= Rank(ops'[id].state))
    {
      assert OperationFollows(ops[id], ops'[id], id == subject);
    }
  }

  /** The common part of every event that updates the store. */
  lemma CommitKeeps(w: World, tx: Option<Store>, now: nat, o: Write, subject: Id, env': Env, good: Worker, bad: Worker)
    requires StoreOk(w.mem, w.env) && StoreOk(w.disk, w.env) && LinedUp(w)
    requires env'.source == w.env.source && env'.inspecting == w.env.inspecting && env'.executed == w.env.executed && w.env.used <= env'.used
    requires tx.Some? ==> TransactionOk(w.mem, now, tx.value, subject, w.env, env')
    requires tx.Some? ==> WorkerOk(Prune(tx.value, now).operations, good) && WorkerOk(Prune(tx.value, now).operations, bad)
    requires bad.Free? || bad == w.env.worker
    ensures var w' := SetWorker(Commit(w.(env := env'), tx, now, o), if Committed(w, tx, o) then good else bad);
            StoreOk(w'.mem, w'.env) && StoreOk(w'.disk, w'.env) && LinedUp(w')
  {
    if tx.Some? && !w.poisoned {
      UpdateKeepsRecords(w.mem, now, tx.value, subject, w.env, env');
      CommitLinesUp(w, tx.value, now, o, subject, env');
    }
  }

  // ---------------------------------------------------------------------------
  // Events of clients.

  /** An update on behalf of a client: it announces no source update, makes nothing require
      recovery, and is not about the operation in execution unless that is evidence work. */
  predicate ClientUpdate(ops: Operations, t: Operations, subject: Id, worker: Worker) {
    && (subject in t ==>
          && subject in ops
          && (t[subject].recoveryRequired ==> ops[subject].recoveryRequired)
          && (t[subject].sourceIntent ==> ops[subject].sourceIntent))
    && (worker.Busy? && subject == worker.id ==> EvidenceAction(worker.plan.draft.action))
  }

  lemma MarksFollow(ops: Operations, ops': Operations, subject: Id, id: Id, stage: Stage)
    requires MarksOk(ops, id, stage) && Follows(ops, ops', subject) && (id !in ops ==> id !in ops')
    ensures MarksOk(ops', id, stage)
  {
    if id in ops' { assert OperationFollows(ops[id], ops'[id], id == subject); }
  }

  lemma ClientKeepsWorker(s: Store, t: Store, now: nat, subject: Id, env: Env, env': Env)
    requires RecordsOk(s, env) && WorkerOk(s.operations, env.worker) && (env.worker.Busy? ==> env.worker.id in env.used)
    requires TransactionOk(s, now, t, subject, env, env') && ClientUpdate(s.operations, t.operations, subject, env.worker)
    ensures WorkerOk(Prune(t, now).operations, env.worker)
    ensures LooseOnly(s.operations, 0) ==> LooseOnly(Prune(t, now).operations, 0)
  {
    var v := Prune(t, now);
    UpdateKeepsRecords(s, now, t, subject, env, env');
    if env.worker.Busy? {
      PrunedIds(s, now, t, env.used);
      HeldFollow(s.operations, v.operations, subject, env.worker.id, env.worker.plan);
      MarksFollow(s.operations, v.operations, subject, env.worker.id, env.worker.stage);
    }
    if LooseOnly(s.operations, 0) {
      LooseFollow(s.operations, v.operations, subject, 0);
    }
  }

  lemma ClientStep(w: World, tx: Option<Store>, now: nat, o: Write, subject: Id, env': Env)
    requires Inv(w) && w.process.Up?
    requires env' == w.env.(used := env'.used) && w.env.used <= env'.used
    requires tx.Some? ==>
               && TransactionOk(w.mem, now, tx.value, subject, w.env, env')
               && ClientUpdate(w.mem.operations, tx.value.operations, subject, w.env.worker)
    ensures Inv(Commit(w.(env := env'), tx, now, o))
  {
    if tx.Some? {
      ClientKeepsWorker(w.mem, tx.value, now, subject, w.env, env');
    }
    CommitKeeps(w, tx, now, o, subject, env', w.env.worker, w.env.worker);
    assert SetWorker(Commit(w.(env := env'), tx, now, o), w.env.worker) == Commit(w.(env := env'), tx, now, o);
  }

  lemma SameEnv(w: World)
    ensures w.(env := w.env) == w
  {
  }

  lemma StepCreatePlan(w: World, e: Event, tx: Option<Store>)
    requires Inv(w) && e.CreatePlan? && Enabled(w, e)
    requires tx == CreatePlanTx(Prune(w.mem, e.now), e.planId, e.plan)
    ensures Inv(Update(w, e, tx))
  {
    SameEnv(w);
    PruneFollows(w.mem, e.now);
    var p := Prune(w.mem, e.now);
    if tx.Some? {
      RewriteFollows(p.operations, p.operations, 0);
    }
    ClientStep(w, tx, e.now, e.write, 0, w.env);
  }

  /** Applying a plan is an update of the required kind. */
  lemma ApplyIsOk(s: Store, e: Event, depth: nat, env: Env, env': Env, t: Store)
    requires RecordsOk(s, env) && e.Apply? && e.newId != 0 && e.newId !in env.used
    requires env.inspecting <= env.used && (forall k | k in env.executed :: k in env.used)
    requires env' == env.(used := env.used + {e.newId})
    requires ApplyTx(Prune(s, e.now), e.planId, e.key, e.payload, e.newId, depth, e.permitted, e.now) == Some(t)
    ensures TransactionOk(s, e.now, t, 0, env, env') && 0 !in t.operations
  {
    PruneFollows(s, e.now);
    ApplyFollows(Prune(s, e.now), e.planId, e.key, e.payload, e.newId, depth, e.permitted, e.now);
  }

  lemma StepApply(w: World, e: Event, tx: Option<Store>)
    requires Inv(w) && e.Apply? && Enabled(w, e)
    requires tx == ApplyTx(Prune(w.mem, e.now), e.planId, e.key, e.payload, e.newId, w.depth, e.permitted, e.now)
    ensures Inv(Update(w, e, tx))
  {
    var env' := w.env.(used := w.env.used + {e.newId});
    if tx.Some? {
      ApplyIsOk(w.mem, e, w.depth, w.env, env', tx.value);
    }
    ClientStep(w, tx, e.now, e.write, 0, env');
  }

  lemma StepCancel(w: World, e: Event, tx: Option<Store>)
    requires Inv(w) && e.Cancel? && Enabled(w, e)
    requires tx == CancelTx(Prune(w.mem, e.now), e.id, e.revision, e.now)
    ensures Inv(Update(w, e, tx))
  {
    SameEnv(w);
    PruneFollows(w.mem, e.now);
    var p := Prune(w.mem, e.now);
    if tx.Some? {
      CancelFollows(p, e.id, e.revision, e.now);
    }
    ClientStep(w, tx, e.now, e.write, 0, w.env);
  }

  lemma FinishPending(o: Operation, id: Id, r: Outcome, now: nat)
    requires OperationOk(o, id) && OutcomeOk(r) && Terminal(r.state)
    requires r.recoveryRequired ==> !Terminal(o.state) || EvidenceAction(o.plan.draft.action)
    requires Pending(Finished(o, r, now))
    ensures Pending(o)
  {
  }

  lemma PruneAgrees(s: Store, now: nat, id: Id)
    requires OperationsOk(s.operations)
    ensures OperationsOk(Prune(s, now).operations)
    ensures id in Prune(s, now).operations ==> id in s.operations && Prune(s, now).operations[id] == s.operations[id]
    ensures id in s.operations && !Terminal(s.operations[id].state) ==> id in Prune(s, now).operations
  {
    PruneFollows(s, now);
    RetainedIsLeast(s.operations, now);
  }

  /** Completing a recorded operation, whoever reports it. */
  lemma FinishIsOk(s: Store, id: Id, r: Outcome, now: nat, env: Env)
    requires RecordsOk(s, env) && env.inspecting <= env.used && (forall k | k in env.executed :: k in env.used)
    requires OutcomeOk(r) && Terminal(r.state)
    requires id in s.operations && r.recoveryRequired ==>
               !Terminal(s.operations[id].state) || EvidenceAction(s.operations[id].plan.draft.action)
    ensures FinishTx(Prune(s, now), id, r, now).Some? <==> id in Prune(s, now).operations
    ensures id in Prune(s, now).operations ==>
              var t := FinishTx(Prune(s, now), id, r, now).value;
              && TransactionOk(s, now, t, id, env, env)
              && id in s.operations && id in t.operations
              && t.operations[id] == Finished(s.operations[id], r, now)
  {
    FinishPruned(s, id, r, now);
    if id in Prune(s, now).operations {
      FinishSides(s, id, r, now, env.source);
      IsTransaction(s, now, FinishTx(Prune(s, now), id, r, now).value, id, env);
    }
  }

  lemma FinishPruned(s: Store, id: Id, r: Outcome, now: nat)
    requires OperationsOk(s.operations) && OutcomeOk(r) && Terminal(r.state)
    requires id in s.operations && r.recoveryRequired ==>
               !Terminal(s.operations[id].state) || EvidenceAction(s.operations[id].plan.draft.action)
    ensures FinishTx(Prune(s, now), id, r, now).Some? <==> id in Prune(s, now).operations
    ensures id in Prune(s, now).operations ==>
              id in s.operations && IsFinish(Prune(s, now), FinishTx(Prune(s, now), id, r, now).value, id, Finished(s.operations[id], r, now))
  {
    PruneAgrees(s, now, id);
    FinishOf(Prune(s, now), id, r, now);
  }

  predicate IsFinish(p: Store, t: Store, id: Id, o: Operation) {
    && Follows(p.operations, t.operations, id)
    && t.operations.Keys == p.operations.Keys && t.plans == p.plans
    && id in t.operations && t.operations[id] == o
  }

  lemma FinishOf(p: Store, id: Id, r: Outcome, now: nat)
    requires OperationsOk(p.operations) && OutcomeOk(r) && Terminal(r.state)
    requires id in p.operations && r.recoveryRequired ==>
               !Terminal(p.operations[id].state) || EvidenceAction(p.operations[id].plan.draft.action)
    ensures FinishTx(p, id, r, now).Some? <==> id in p.operations
    ensures id in p.operations ==> IsFinish(p, FinishTx(p, id, r, now).value, id, Finished(p.operations[id], r, now))
  {
    if id in p.operations {
      FinishFollows(p, id, r, now);
    }
  }

  /** A transaction that rewrites operations and leaves the plans alone. */
  lemma IsTransaction(s: Store, now: nat, t: Store, id: Id, env: Env)
    requires PlansOk(s.plans) && env.inspecting <= env.used && (forall k | k in env.executed :: k in env.used)
    requires Follows(Prune(s, now).operations, t.operations, id)
    requires t.operations.Keys == Prune(s, now).operations.Keys && t.plans == Prune(s, now).plans
    requires id in t.operations && Pending(t.operations[id]) ==> OnASide(t.operations[id], env.source)
    ensures TransactionOk(s, now, t, id, env, env)
  {
  }

  lemma FinishSides(s: Store, id: Id, r: Outcome, now: nat, source: Configuration)
    requires OperationsOk(s.operations) && SidesOk(s.operations, source) && id in s.operations
    requires OutcomeOk(r) && Terminal(r.state)
    requires r.recoveryRequired ==> !Terminal(s.operations[id].state) || EvidenceAction(s.operations[id].plan.draft.action)
    ensures var o := Finished(s.operations[id], r, now); Pending(o) ==> OnASide(o, source)
  {
    var o := s.operations[id];
    assert OperationOk(o, id);
    if Pending(Finished(o, r, now)) {
      FinishPending(o, id, r, now);
    }
  }

  /** A result reported by a client neither requires recovery nor announces anything. */
  lemma ReportedIsQuiet(o: Operation, id: Id, r: Outcome, now: nat)
    requires OperationOk(o, id) && OutcomeOk(r) && (!r.recoveryRequired || EvidenceAction(o.plan.draft.action))
    ensures !Finished(o, r, now).recoveryRequired && Finished(o, r, now).sourceIntent == o.sourceIntent
  {
  }

  /** Clients report on the operation in execution only if it is evidence work. */
  lemma ReportedIsEvidence(ops: Operations, env: Env, e: Event)
    requires WorkerOk(ops, env.worker) && IdsOk(ops, env) && env.worker.Busy? && env.worker.id in ops
    requires e.RecoverFinish? || e.EvidenceFinish?
    requires e.id == env.worker.id
    requires e.RecoverFinish? ==> e.id in env.inspecting
    requires e.EvidenceFinish? ==> EvidenceAction(ops[e.id].plan.draft.action)
    ensures EvidenceAction(env.worker.plan.draft.action)
  {
  }

  lemma StepClientFinish(w: World, e: Event, tx: Option<Store>)
    requires Inv(w) && (e.RecoverFinish? || e.EvidenceFinish?) && Enabled(w, e)
    requires tx == FinishTx(Prune(w.mem, e.now), e.id, e.outcome, e.now)
    ensures Inv(Update(w, e, tx))
  {
    SameEnv(w);
    FinishIsOk(w.mem, e.id, e.outcome, e.now, w.env);
    if tx.Some? {
      assert OperationOk(w.mem.operations[e.id], e.id);
      ReportedIsQuiet(w.mem.operations[e.id], e.id, e.outcome, e.now);
      if w.env.worker.Busy? && e.id == w.env.worker.id { ReportedIsEvidence(w.mem.operations, w.env, e); }
      assert ClientUpdate(w.mem.operations, tx.value.operations, e.id, w.env.worker);
    }
    ClientStep(w, tx, e.now, e.write, e.id, w.env);
  }

  // ---------------------------------------------------------------------------
  // Events of the worker.

  /** The worker's own operation is there, in execution, unless it is evidence work. */
  lemma HeldIsKept(w: World, now: nat)
    requires Inv(w) && w.env.worker.Busy?
    ensures var id := w.env.worker.id;
            && OperationsOk(Prune(w.mem, now).operations)
            && (id in Prune(w.mem, now).operations ==>
                  id in w.mem.operations && Prune(w.mem, now).operations[id] == w.mem.operations[id]
                  && w.mem.operations[id].plan == w.env.worker.plan && !w.mem.operations[id].state.Queued?)
            && (!EvidenceAction(w.env.worker.plan.draft.action) ==>
                  id in Prune(w.mem, now).operations && InFlight(w.mem.operations[id].state))
  {
    PruneFollows(w.mem, now);
  }

  /** The worker gives the operation up after finishing it. */
  lemma StepFinishWork(w: World, r: Outcome, now: nat, o: Write)
    requires Inv(w) && w.process.Up? && w.env.worker.Busy?
    requires OutcomeOk(r) && Terminal(r.state)
    ensures Inv(WorkerCommit(w, FinishTx(Prune(w.mem, now), w.env.worker.id, r, now), now, o, Free))
  {
    var id := w.env.worker.id;
    HeldIsKept(w, now);
    FinishIsOk(w.mem, id, r, now, w.env);
    var tx := FinishTx(Prune(w.mem, now), id, r, now);
    LooseAfterFinish(w, tx, now, id);
    PutDown(w, tx, now, o, id);
  }

  lemma PutDown(w: World, tx: Option<Store>, now: nat, o: Write, id: Id)
    requires Inv(w) && w.process.Up? && w.env.worker.Busy?
    requires tx.Some? ==> TransactionOk(w.mem, now, tx.value, id, w.env, w.env) && LooseOnly(Prune(tx.value, now).operations, 0)
    requires tx.None? ==> LooseOnly(w.mem.operations, 0)
    ensures Inv(WorkerCommit(w, tx, now, o, Free))
  {
    SameEnv(w);
    CommitKeeps(w, tx, now, o, id, w.env, Free, Free);
  }

  /** Nothing is left in execution with an announced source update. */
  lemma LooseAfterFinish(w: World, tx: Option<Store>, now: nat, id: Id)
    requires Inv(w) && w.env.worker.Busy? && id == w.env.worker.id
    requires tx.Some? ==>
               && TransactionOk(w.mem, now, tx.value, id, w.env, w.env)
               && id in tx.value.operations && Terminal(tx.value.operations[id].state)
    requires tx.None? ==> id !in Prune(w.mem, now).operations
    ensures tx.Some? ==> LooseOnly(Prune(tx.value, now).operations, 0)
    ensures tx.None? ==> LooseOnly(w.mem.operations, 0)
  {
    HeldIsKept(w, now);
    if tx.Some? {
      var v := Prune(tx.value, now);
      UpdateKeepsRecords(w.mem, now, tx.value, id, w.env, w.env);
      LooseFollow(w.mem.operations, v.operations, id, id);
    } else if id in w.mem.operations {
      assert OperationOk(w.mem.operations[id], id);
    }
  }

  /** The worker moves on with its operation after an update about it. */
  lemma StepAdvance(w: World, tx: Option<Store>, now: nat, o: Write, stage: Stage)
    requires Inv(w) && w.process.Up? && w.env.worker.Busy?
    requires tx.None? ==> EvidenceAction(w.env.worker.plan.draft.action)
    requires var id := w.env.worker.id;
             tx.Some? ==> && TransactionOk(w.mem, now, tx.value, id, w.env, w.env)
                          && id in tx.value.operations && id in w.mem.operations
                          && tx.value.operations[id].state == w.mem.operations[id].state
                          && tx.value.operations[id].recoveryRequired == w.mem.operations[id].recoveryRequired
    requires tx.Some? ==> MarksOk(tx.value.operations, w.env.worker.id, stage)
    requires StageOk(w.env.worker.plan, stage, w.env.source) && !w.env.worker.stage.Executing?
    requires stage.Intending? || stage.Ready? || stage.Dispatching?
    ensures Inv(WorkerCommit(w, tx, now, o, StageWorker(w.env.worker, stage)))
  {
    SameEnv(w);
    var worker := w.env.worker;
    var good := StageWorker(worker, stage);
    if tx.Some? { AdvanceWorker(w, tx.value, now, stage); } else { NothingLoose(w); }
    CommitKeeps(w, tx, now, o, worker.id, w.env, good, Free);
    AdvanceRest(w, tx, now, o, stage);
  }

  lemma AdvanceWorker(w: World, t: Store, now: nat, stage: Stage)
    requires Inv(w) && w.env.worker.Busy? && (stage.Intending? || stage.Ready? || stage.Dispatching?)
    requires var id := w.env.worker.id;
             && TransactionOk(w.mem, now, t, id, w.env, w.env)
             && id in t.operations && id in w.mem.operations
             && t.operations[id].state == w.mem.operations[id].state
             && t.operations[id].recoveryRequired == w.mem.operations[id].recoveryRequired
             && MarksOk(t.operations, id, stage)
    ensures WorkerOk(Prune(t, now).operations, StageWorker(w.env.worker, stage))
  {
    AdvanceHeld(w, t, now);
  }

  /** Evidence work announces no source update. */
  lemma NothingLoose(w: World)
    requires Inv(w) && w.env.worker.Busy? && EvidenceAction(w.env.worker.plan.draft.action)
    ensures LooseOnly(w.mem.operations, 0)
  {
    var id := w.env.worker.id;
    if id in w.mem.operations { assert OperationOk(w.mem.operations[id], id); }
  }

  lemma AdvanceRest(w: World, tx: Option<Store>, now: nat, o: Write, stage: Stage)
    requires EnvOk(w.env) && w.process.Up? && w.env.worker.Busy? && !w.env.worker.stage.Executing? && !stage.Executing?
    requires StageOk(w.env.worker.plan, stage, w.env.source) && (tx.None? ==> LooseOnly(w.mem.operations, 0))
    ensures var w' := WorkerCommit(w, tx, now, o, StageWorker(w.env.worker, stage)); EnvOk(w'.env) && ProcessOk(w')
  {
  }

  lemma AdvanceHeld(w: World, t: Store, now: nat)
    requires Inv(w) && w.env.worker.Busy?
    requires var id := w.env.worker.id;
             && TransactionOk(w.mem, now, t, id, w.env, w.env)
             && id in t.operations && id in w.mem.operations
             && t.operations[id].state == w.mem.operations[id].state
             && t.operations[id].recoveryRequired == w.mem.operations[id].recoveryRequired
    ensures HeldOk(Prune(t, now).operations, OperationRoots(Prune(t, now).operations), w.env.worker.id, w.env.worker.plan)
  {
    AdvanceHeldOn(w.mem, t, now, w.env.worker.id, w.env.worker.plan, w.env);
  }

  lemma AdvanceHeldOn(s: Store, t: Store, now: nat, id: Id, plan: Plan, env: Env)
    requires RecordsOk(s, env) && HeldOk(s.operations, OperationRoots(s.operations), id, plan)
    requires TransactionOk(s, now, t, id, env, env)
    requires id in t.operations && id in s.operations
    requires t.operations[id].state == s.operations[id].state
    requires t.operations[id].recoveryRequired == s.operations[id].recoveryRequired
    ensures HeldOk(Prune(t, now).operations, OperationRoots(Prune(t, now).operations), id, plan)
  {
    var v := Prune(t, now);
    UpdateKeepsRecords(s, now, t, id, env, env);
    if !EvidenceAction(plan.draft.action) {
      StillThere(t, now, id);
    }
    HeldFollow(s.operations, v.operations, id, id, plan);
  }

  lemma StillThere(t: Store, now: nat, id: Id)
    requires id in t.operations && InFlight(t.operations[id].state)
    ensures id in Prune(t, now).operations && Prune(t, now).operations[id] == t.operations[id]
  {
    RetainedIsLeast(t.operations, now);
    assert Live(t.operations[id], now);
  }

  /** A phase report about the worker's operation is an update of the required kind. */
  lemma ProgressIsOk(w: World, p: Report, now: nat)
    requires Inv(w) && w.env.worker.Busy?
    requires p.SourceIntent? ==> ConfigureAction(w.env.worker.plan.draft.action) && SourceUnchanged(w)
    ensures var id := w.env.worker.id;
            var tx := ProgressTx(Prune(w.mem, now), id, p, now);
            && (tx.None? ==> EvidenceAction(w.env.worker.plan.draft.action))
            && (tx.Some? ==> && TransactionOk(w.mem, now, tx.value, id, w.env, w.env)
                             && id in tx.value.operations && id in w.mem.operations
                             && tx.value.operations[id].state == w.mem.operations[id].state
                             && tx.value.operations[id].recoveryRequired == w.mem.operations[id].recoveryRequired)
  {
    var id := w.env.worker.id;
    HeldIsKept(w, now);
    var s := Prune(w.mem, now);
    if id in s.operations {
      ProgressFollows(s, id, p, now);
      var t := ProgressTx(s, id, p, now).value;
      if Pending(t.operations[id]) && !p.SourceIntent? {
        assert Pending(w.mem.operations[id]);
      }
    }
  }

  lemma StepIntend(w: World, e: Event, tx: Option<Store>)
    requires Inv(w) && e.Intend? && Enabled(w, e)
    requires tx == ProgressTx(Prune(w.mem, e.now), w.env.worker.id, SourceIntent, e.now)
    ensures Inv(Update(w, e, tx))
  {
    var plan := w.env.worker.plan;
    if !ConfigureAction(plan.draft.action) { OnlyConfigureChangesSource(plan.draft.source, plan.draft); }
    AdvanceBy(w, SourceIntent, e.now, e.write, Intending);
  }

  lemma StepDispatch(w: World, e: Event, tx: Option<Store>)
    requires Inv(w) && e.Dispatch? && Enabled(w, e)
    requires tx == ProgressTx(Prune(w.mem, e.now), w.env.worker.id, DispatchIntent, e.now)
    ensures Inv(Update(w, e, tx))
  {
    DispatchesFrom(w, e);
    AdvanceBy(w, DispatchIntent, e.now, e.write, Dispatching);
  }

  lemma DispatchesFrom(w: World, e: Event)
    requires e.Dispatch? && Enabled(w, e) && EnvOk(w.env)
    ensures w.process.Up? && w.env.worker.Busy? && !w.env.worker.stage.Executing? && StageOk(w.env.worker.plan, Dispatching, w.env.source)
  {
  }

  /** The worker announces what it does next. */
  lemma AdvanceBy(w: World, p: Report, now: nat, o: Write, stage: Stage)
    requires Inv(w) && w.process.Up? && w.env.worker.Busy? && !w.env.worker.stage.Executing?
    requires (p.SourceIntent? && stage.Intending? && ConfigureAction(w.env.worker.plan.draft.action) && SourceUnchanged(w)) ||
             (p.DispatchIntent? && stage.Dispatching?)
    requires StageOk(w.env.worker.plan, stage, w.env.source)
    ensures Inv(WorkerCommit(w, ProgressTx(Prune(w.mem, now), w.env.worker.id, p, now), now, o, StageWorker(w.env.worker, stage)))
  {
    ProgressIsOk(w, p, now);
    StepAdvance(w, ProgressTx(Prune(w.mem, now), w.env.worker.id, p, now), now, o, stage);
  }

  lemma SourceUpdatedIsOk(w: World, now: nat)
    requires Inv(w) && w.env.worker.Busy?
    ensures var id := w.env.worker.id;
            var tx := SourceUpdatedTx(Prune(w.mem, now), id, now);
            && (tx.None? ==> EvidenceAction(w.env.worker.plan.draft.action))
            && (tx.Some? ==> && TransactionOk(w.mem, now, tx.value, id, w.env, w.env)
                             && id in tx.value.operations && id in w.mem.operations
                             && tx.value.operations[id].state == w.mem.operations[id].state
                             && tx.value.operations[id].recoveryRequired == w.mem.operations[id].recoveryRequired)
  {
    var id := w.env.worker.id;
    HeldIsKept(w, now);
    var s := Prune(w.mem, now);
    if id in s.operations {
      SourceUpdatedFollows(s, id, now);
      if Pending(SourceUpdatedTx(s, id, now).value.operations[id]) {
        assert Pending(w.mem.operations[id]);
      }
    }
  }

  lemma StepRecordSource(w: World, e: Event, tx: Option<Store>)
    requires Inv(w) && e.RecordSource? && Enabled(w, e)
    requires tx == SourceUpdatedTx(Prune(w.mem, e.now), w.env.worker.id, e.now)
    ensures Inv(Update(w, e, tx))
  {
    SourceUpdatedIsOk(w, e.now);
    StepAdvance(w, tx, e.now, e.write, Ready);
  }

  lemma StepReport(w: World, e: Event, tx: Option<Store>)
    requires Inv(w) && e.ReportPhase? && Enabled(w, e)
    requires tx == ProgressTx(Prune(w.mem, e.now), w.env.worker.id, OtherPhase, e.now)
    ensures Inv(Update(w, e, tx))
  {
    ProgressIsOk(w, OtherPhase, e.now);
    if tx.Some? { AdvanceHeld(w, tx.value, e.now); }
    KeepWorker(w, tx, e.now, e.write);
  }

  lemma KeepWorker(w: World, tx: Option<Store>, now: nat, o: Write)
    requires Inv(w) && AtExecution(w)
    requires tx.Some? ==>
               && TransactionOk(w.mem, now, tx.value, w.env.worker.id, w.env, w.env)
               && WorkerOk(Prune(tx.value, now).operations, w.env.worker)
    ensures Inv(Commit(w, tx, now, o))
  {
    SameEnv(w);
    CommitKeeps(w, tx, now, o, w.env.worker.id, w.env, w.env.worker, w.env.worker);
    assert SetWorker(Commit(w, tx, now, o), w.env.worker) == Commit(w, tx, now, o);
  }

  /** An operation that was admitted and started has everyone else who awaits recovery in
      the chain it recovers. */
  lemma AdmittedIsHeld(ops: Operations, roots: map<Id, Id>, id: Id, o: Operation)
    requires id in ops && OperationOk(ops[id], id) && o.plan == ops[id].plan && o.state.Running? && !o.sourceIntent
    requires Admits(ops, roots, o.plan.draft, id) && LooseOnly(ops, 0) && 0 !in ops
    ensures HeldOk(ops[id := o], roots, id, o.plan)
  {
    var ops' := ops[id := o];
    forall k | k in ops' && k != id ensures ops'[k] == ops[k] {}
  }

  lemma BegunIsHeld(p: Store, id: Id, authorized: bool, now: nat)
    requires OperationsOk(p.operations) && LooseOnly(p.operations, 0)
    requires var tx := BeginTx(p, id, authorized, now); tx.Some? && tx.value.operations[id].state.Running?
    ensures var t := BeginTx(p, id, authorized, now).value;
            HeldOk(t.operations, OperationRoots(t.operations), id, t.operations[id].plan)
  {
    var t := BeginTx(p, id, authorized, now).value;
    assert OperationOk(p.operations[id], id);
    SamePlansSameRoots(p.operations, t.operations);
    AdmittedIsHeld(p.operations, OperationRoots(p.operations), id, t.operations[id]);
  }

  lemma PruneKeepsHeld(t: Store, now: nat, id: Id, plan: Plan)
    requires OperationsOk(t.operations) && HeldOk(t.operations, OperationRoots(t.operations), id, plan)
    ensures HeldOk(Prune(t, now).operations, OperationRoots(Prune(t, now).operations), id, plan)
  {
    PruneFollows(t, now);
    HeldFollow(t.operations, Prune(t, now).operations, 0, id, plan);
  }

  lemma BeginIsOk(w: World, id: Id, authorized: bool, now: nat)
    requires Inv(w) && w.process.Up? && w.env.worker.Free? && !w.poisoned
    requires BeginTx(Prune(w.mem, now), id, authorized, now).Some?
    ensures var t := BeginTx(Prune(w.mem, now), id, authorized, now).value;
            && TransactionOk(w.mem, now, t, id, w.env, w.env)
            && LooseOnly(Prune(t, now).operations, 0)
            && id in t.operations && id in w.env.used && id !in w.env.executed
            && (t.operations[id].state.Running? ==>
                  HeldOk(Prune(t, now).operations, OperationRoots(Prune(t, now).operations), id, t.operations[id].plan))
  {
    PruneAgrees(w.mem, now, id);
    PruneFollows(w.mem, now);
    var p := Prune(w.mem, now);
    var t := BeginTx(p, id, authorized, now).value;
    BeginFollows(p, id, authorized, now);
    assert OperationOk(p.operations[id], id);
    UpdateIsFollowed(w.mem, now, t, id, w.env.used);
    LooseFollow(w.mem.operations, Prune(t, now).operations, id, 0);
    LooseFollow(w.mem.operations, p.operations, 0, 0);
    if t.operations[id].state.Running? {
      BegunIsHeld(p, id, authorized, now);
      PruneKeepsHeld(t, now, id, t.operations[id].plan);
    }
  }

  lemma TakeUp(w: World, t: Store, now: nat, o: Write, id: Id, good: Worker)
    requires Inv(w) && w.process.Up? && w.env.worker.Free? && !w.poisoned
    requires TransactionOk(w.mem, now, t, id, w.env, w.env) && LooseOnly(Prune(t, now).operations, 0)
    requires id in w.env.used && id !in w.env.executed
    requires good.Busy? ==> good.id == id && good.stage.Begun? && WorkerOk(Prune(t, now).operations, good)
    ensures Inv(WorkerCommit(w, Some(t), now, o, good))
  {
    SameEnv(w);
    CommitKeeps(w, Some(t), now, o, id, w.env, good, Free);
  }

  lemma StepBegin(w: World, e: Event, tx: Option<Store>)
    requires Inv(w) && e.Begin? && Enabled(w, e)
    requires tx == BeginTx(Prune(w.mem, e.now), e.id, e.authorized, e.now)
    ensures Inv(Update(w, e, tx))
  {
    PruneAgrees(w.mem, e.now, e.id);
    BeginIsOk(w, e.id, e.authorized, e.now);
    var t := tx.value;
    var good := if t.operations[e.id].state.Running? then Busy(e.id, t.operations[e.id].plan, Begun) else Free;
    TakeUp(w, t, e.now, e.write, e.id, good);
  }

  /** The source is replaced only while nobody requires recovery. */
  lemma ReplaceIsSafe(w: World)
    requires Inv(w) && At(w, Intending)
    ensures forall k | k in w.mem.operations :: !w.mem.operations[k].recoveryRequired
    ensures forall k | k in w.disk.operations :: !w.disk.operations[k].recoveryRequired
    ensures forall s: Store | s == w.mem || s == w.disk ::
              forall k | k in s.operations && Pending(s.operations[k]) :: k == w.env.worker.id
  {
    var plan := w.env.worker.plan;
    if !ConfigureAction(plan.draft.action) { OnlyConfigureChangesSource(plan.draft.source, plan.draft); }
    forall s: Store | s == w.mem || s == w.disk
      ensures forall k | k in s.operations :: !s.operations[k].recoveryRequired
    {
      forall k | k in s.operations ensures !s.operations[k].recoveryRequired {
        if k == w.env.worker.id { assert OperationOk(s.operations[k], k); }
      }
    }
  }

  lemma StepReplace(w: World, e: Event)
    requires Inv(w) && e.Replace? && Enabled(w, e)
    ensures Inv(Next(w, e))
  {
    ReplaceIsSafe(w);
    var w' := Next(w, e);
    var plan := w.env.worker.plan;
    forall s: Store | s == w.mem || s == w.disk
      ensures SidesOk(s.operations, w'.env.source)
    {
      forall k | k in s.operations && Pending(s.operations[k]) ensures OnASide(s.operations[k], w'.env.source) {
        assert s.operations[k].plan == plan;
      }
    }
    assert StoreOk(w'.mem, w'.env) && StoreOk(w'.disk, w'.env);
  }

  lemma StepReread(w: World)
    requires Inv(w) && At(w, Begun)
    ensures Inv(Next(w, Reread))
  {
    var id := w.env.worker.id;
    if id in w.mem.operations && w.mem.operations[id].state.Running? {
      GoesOn(w);
    } else if id in w.mem.operations && w.mem.operations[id].state.CancelRequested? {
      LetsGo(w, w.env.abandoned + {id});
    } else {
      LetsGo(w, w.env.abandoned);
      assert Next(w, Reread) == w.(env := w.env.(worker := Free, abandoned := w.env.abandoned));
    }
  }

  lemma GoesOn(w: World)
    requires Inv(w) && At(w, Begun)
    ensures Inv(SetWorker(w, StageWorker(w.env.worker, Validating)))
  {
  }

  lemma LetsGo(w: World, abandoned: set<Id>)
    requires Inv(w) && At(w, Begun)
    ensures Inv(w.(env := w.env.(worker := Free, abandoned := abandoned)))
  {
  }

  lemma StepExecute(w: World, answer: Outcome)
    requires Inv(w) && At(w, Dispatching) && OutcomeOk(answer)
    ensures Inv(Next(w, Execute(answer)))
  {
    var w' := Next(w, Execute(answer));
    var id := w.env.worker.id;
    forall k | k in w'.env.executed ensures w'.env.executed[k] == 1 && k in w'.env.used {
      assert k in w.env.executed || k == id;
    }
    assert EnvOk(w'.env);
    forall s: Store | s == w.mem || s == w.disk ensures IdsOk(s.operations, w'.env) {
      assert HeldOk(s.operations, OperationRoots(s.operations), id, w.env.worker.plan);
    }
  }

  // ---------------------------------------------------------------------------
  // Starting and stopping.

  lemma StepCrash(w: World)
    requires Inv(w) && Enabled(w, Crash)
    ensures Inv(Next(w, Crash))
  {
    assert StoreOk(w.disk, w.env.(worker := Free, inspecting := {}));
  }

  lemma StepRecoverRead(w: World, id: Id)
    requires Inv(w) && Enabled(w, RecoverRead(id))
    ensures Inv(Next(w, RecoverRead(id)))
  {
    var w' := Next(w, RecoverRead(id));
    assert OperationOk(w.mem.operations[id], id);
    assert IdsOk(w.mem.operations, w'.env) && IdsOk(w.disk.operations, w'.env);
  }

  lemma StepStartDone(w: World)
    requires Inv(w) && Enabled(w, StartDone)
    ensures Inv(Next(w, StartDone))
  {
    forall id | id in w.mem.operations && w.mem.operations[id].sourceIntent
      ensures Terminal(w.mem.operations[id].state)
    {
      assert OperationOk(w.mem.operations[id], id);
    }
  }

  lemma StartLeaves(ops: Operations, ops': Operations, id: Id, todo: set<Id>)
    requires Follows(ops, ops', id) && UnfinishedAre(ops, todo) && (id in ops' ==> Terminal(ops'[id].state))
    ensures UnfinishedAre(ops', todo - {id})
  {
    forall k | k in ops' && k in ops ensures OperationFollows(ops[k], ops'[k], k == id) {}
  }

  /** Startup resolves one unfinished operation. */
  lemma StepStartOne(w: World, e: Event, tx: Option<Store>)
    requires Inv(w) && e.StartOne? && Enabled(w, e)
    requires tx == FinishTx(Prune(w.mem, e.now), e.id, StartOutcome(w.mem.operations[e.id], e.inspected), e.now)
    ensures Inv(Update(w, e, tx))
  {
    var r := StartOutcome(w.mem.operations[e.id], e.inspected);
    FinishIsOk(w.mem, e.id, r, e.now, w.env);
    PruneAgrees(w.mem, e.now, e.id);
    var t := tx.value;
    UpdateKeepsRecords(w.mem, e.now, t, e.id, w.env, w.env);
    StartLeaves(w.mem.operations, Prune(t, e.now).operations, e.id, w.process.todo);
    StartCommits(w, t, e.now, e.write, e.id);
  }

  lemma StartCommits(w: World, t: Store, now: nat, o: Write, id: Id)
    requires Inv(w) && w.process.Starting?
    requires TransactionOk(w.mem, now, t, id, w.env, w.env)
    requires UnfinishedAre(Prune(t, now).operations, w.process.todo - {id})
    ensures o.Written? ==> Inv(Commit(w, Some(t), now, o).(process := Starting(w.process.todo - {id})))
    ensures !o.Written? ==> Inv(Stopped(Commit(w, Some(t), now, o)))
  {
    SameEnv(w);
    CommitKeeps(w, Some(t), now, o, id, w.env, Free, Free);
    assert SetWorker(Commit(w, Some(t), now, o), Free) == Commit(w, Some(t), now, o);
  }

  // ---------------------------------------------------------------------------

  lemma StepReopen(w: World)
    requires Inv(w) && Enabled(w, Reopen)
    ensures Inv(Next(w, Reopen))
  {
  }

  predicate FinishingEvent(e: Event) {
    e.Abort? || e.Reconcile? || e.FailReplace? || e.Complete?
  }

  /** The result with which the worker puts an operation down. */
  function ResultOf(w: World, e: Event): Outcome
    requires FinishingEvent(e) && Enabled(w, e)
  {
    match e
    case Abort(state, _, _) => Outcome(state, false)
    case Reconcile(_, _) => Outcome(Succeeded, false)
    case FailReplace(_, _) => if w.env.worker.stage.uncertain then Outcome(RecoveryRequired, true) else Outcome(Failed, false)
    case Complete(r, _, _) => r
  }

  lemma FinishingIs(w: World, e: Event, tx: Option<Store>)
    requires FinishingEvent(e) && Enabled(w, e) && tx == TxOf(w, e)
    ensures w.process.Up? && w.env.worker.Busy? && OutcomeOk(ResultOf(w, e)) && Terminal(ResultOf(w, e).state)
    ensures tx == FinishTx(Prune(w.mem, e.now), w.env.worker.id, ResultOf(w, e), e.now)
    ensures Update(w, e, tx) == WorkerCommit(w, tx, e.now, e.write, Free)
  {
  }

  lemma FinishingKeepsInv(w: World, e: Event, tx: Option<Store>)
    requires Inv(w) && Enabled(w, e) && FinishingEvent(e) && tx == TxOf(w, e)
    ensures Inv(Update(w, e, tx))
  {
    FinishingIs(w, e, tx);
    StepFinishWork(w, ResultOf(w, e), e.now, e.write);
  }

  lemma TakingKeepsInv(w: World, e: Event, tx: Option<Store>)
    requires (e.Begin? || e.Intend? || e.RecordSource?) && Inv(w) && Enabled(w, e) && tx == TxOf(w, e)
    ensures Inv(Update(w, e, tx))
  {
    match e
    case Begin(_, _, _, _) => StepBegin(w, e, tx);
    case Intend(_, _) => StepIntend(w, e, tx);
    case RecordSource(_, _) => StepRecordSource(w, e, tx);
  }

  lemma DispatchingKeepsInv(w: World, e: Event, tx: Option<Store>)
    requires (e.Dispatch? || e.ReportPhase?) && Inv(w) && Enabled(w, e) && tx == TxOf(w, e)
    ensures Inv(Update(w, e, tx))
  {
    match e
    case Dispatch(_, _) => StepDispatch(w, e, tx);
    case ReportPhase(_, _) => StepReport(w, e, tx);
  }

  lemma ClientKeepsInv(w: World, e: Event, tx: Option<Store>)
    requires e.StartOne? || e.CreatePlan? || e.Apply? || e.Cancel? || e.RecoverFinish? || e.EvidenceFinish?
    requires Inv(w) && Enabled(w, e) && tx == TxOf(w, e)
    ensures Inv(Update(w, e, tx))
  {
    match e
    case StartOne(_, _, _, _) => StepStartOne(w, e, tx);
    case CreatePlan(_, _, _, _) => StepCreatePlan(w, e, tx);
    case Apply(_, _, _, _, _, _, _) => StepApply(w, e, tx);
    case Cancel(_, _, _, _) => StepCancel(w, e, tx);
    case RecoverFinish(_, _, _, _) => StepClientFinish(w, e, tx);
    case EvidenceFinish(_, _, _, _) => StepClientFinish(w, e, tx);
  }

  lemma QuietKeepsInv(w: World, e: Event)
    requires Inv(w) && Enabled(w, e) && !Writes(e)
    ensures Inv(Next(w, e))
  {
    match e
    case Crash => StepCrash(w);
    case Reopen => StepReopen(w);
    case StartDone => StepStartDone(w);
    case RecoverRead(id) => StepRecoverRead(w, id);
    case Reread => StepReread(w);
    case Replace(_) => StepReplace(w, e);
    case Execute(answer) => StepExecute(w, answer);
  }

  lemma StepKeepsInv(w: World, e: Event)
    requires Inv(w) && Enabled(w, e)
    ensures Inv(Next(w, e))
  {
    if !Writes(e) {
      QuietKeepsInv(w, e);
    } else if FinishingEvent(e) {
      FinishingKeepsInv(w, e, TxOf(w, e));
    } else if e.Begin? || e.Intend? || e.RecordSource? {
      TakingKeepsInv(w, e, TxOf(w, e));
    } else if e.Dispatch? || e.ReportPhase? {
      DispatchingKeepsInv(w, e, TxOf(w, e));
    } else {
      ClientKeepsInv(w, e, TxOf(w, e));
    }
  }

  /** Every state of every run satisfies the invariant. */
  lemma {:induction false} EveryRun(run: Run)
    requires Legal(run)
    ensures Inv(Now(run))
  {
    if run.Then? {
      EveryRun(run.past);
      StepKeepsInv(Now(run.past), run.event);
    }
  }
}
