/** What a transaction of the controller can do to the recorded operations, and what
    that leaves true of recovery links. */
module ControllerEvolution {
  import opened Domain
  import opened RecoveryGraph
  import opened ControllerStore
  import opened ControllerTransactions

  predicate InFlight(s: State) {
    s.Running? || s.CancelRequested?
  }

  predicate OperationOk(o: Operation, id: Id) {
    && o.id == id != 0
    && PlanOk(o.plan)
    && (o.recoveryRequired <==> o.state.RecoveryRequired?)
    && (o.state.Queued? ==> !o.sourceIntent && !o.dispatched)
    && (EvidenceAction(o.plan.draft.action) ==> !o.recoveryRequired)
    && (o.sourceIntent ==> ConfigureAction(o.plan.draft.action))
  }

  predicate ParentsResolve(ops: Operations, roots: map<Id, Id>) {
    forall id | id in ops && ParentOf(ops, id) != 0 :: ParentOf(ops, id) in roots
  }

  /** The operation that `o` names is recorded, finished, and has the same target. */
  predicate LinealOk(ops: Operations, o: Operation) {
    var parent := o.plan.draft.parent;
    parent != 0 ==> parent in ops && Terminal(ops[parent].state) && ops[parent].plan.draft.target == o.plan.draft.target
  }

  predicate Lineal(ops: Operations) {
    forall id | id in ops :: LinealOk(ops, ops[id])
  }

  /** Every recorded operation is sound and the parent it names resolves. */
  predicate OperationsOk(ops: Operations) {
    && 0 !in ops
    && (forall id | id in ops :: OperationOk(ops[id], id))
    && ParentsResolve(ops, OperationRoots(ops))
    && Lineal(ops)
  }

  /** `b` is a later version of `a`. Only the operation a transaction is about may leave
      execution, come to require recovery, or announce a source update. */
  predicate OperationFollows(a: Operation, b: Operation, subject: bool) {
    && b.id == a.id && b.key == a.key && b.plan == a.plan && b.createdAt == a.createdAt
    && (b == a || a.revision < b.revision)
    && (b.recoveryRequired ==> a.recoveryRequired || (subject && !Terminal(a.state)))
    && (a.sourceIntent ==> b.sourceIntent)
    && (a.dispatched ==> b.dispatched)
    && (b.dispatched ==> a.dispatched || subject)
    && (b.state.Running? ==> a.state.Running? || (subject && a.state.Queued?))
    && (b.sourceIntent ==> a.sourceIntent || subject)
    && (Terminal(a.state) ==> Terminal(b.state))
    && (b.state.Queued? ==> a.state.Queued?)
    && (InFlight(a.state) && !subject ==> InFlight(b.state))
    && (a.state.Queued? && !subject ==> !InFlight(b.state))
  }

  /** A newly queued operation; the one it names, if any, resolves and awaits recovery. */
  predicate Newborn(o: Operation, ops: Operations, roots: map<Id, Id>) {
    && o.state.Queued? && !o.sourceIntent
    && (o.plan.draft.parent != 0 ==> o.plan.draft.parent in roots && Recovers(ops, o))
  }

  predicate Recovers(ops: Operations, o: Operation) {
    var parent := o.plan.draft.parent;
    parent in ops && ops[parent].recoveryRequired && ops[parent].plan.draft.target == o.plan.draft.target
  }

  predicate FollowsBy(ops: Operations, roots: map<Id, Id>, ops': Operations, subject: Id) {
    && 0 !in ops'
    && AncestorClosed(ops, ops'.Keys)
    && (forall id | id in ops' :: OperationOk(ops'[id], id))
    && (forall id | id in ops' && id in ops :: OperationFollows(ops[id], ops'[id], id == subject))
    && (forall id | id in ops' && id !in ops ::
          Newborn(ops'[id], ops, roots) && (ParentOf(ops', id) != 0 ==> ParentOf(ops', id) in ops'))
    && (forall id | id in ops && InFlight(ops[id].state) && id != subject :: id in ops')
  }

  /** `ops'` is what one transaction about `subject` can make of `ops`. */
  predicate Follows(ops: Operations, ops': Operations, subject: Id) {
    FollowsBy(ops, OperationRoots(ops), ops', subject)
  }

  /** Links that resolved still do, to the same root, and all parents still resolve. */
  lemma FollowsKeepsRoots(ops: Operations, ops': Operations, subject: Id)
    requires OperationsOk(ops) && Follows(ops, ops', subject)
    ensures forall id | id in OperationRoots(ops) && id in ops' ::
              id in OperationRoots(ops') && OperationRoots(ops')[id] == OperationRoots(ops)[id]
    ensures OperationsOk(ops')
  {
    var kept := ops.Keys * ops'.Keys;
    var part := Restrict(ops, kept);
    assert AncestorClosed(ops, kept);
    RestrictKeepsRoots(ops, kept);
    var roots, roots' := OperationRoots(ops), OperationRoots(ops');
    forall id | id in roots && id in ops'
      ensures id in roots' && roots'[id] == roots[id]
    {
      assert id in OperationRoots(part);
      ExtendRoot(part, ops', id);
    }
    forall id | id in ops' && ParentOf(ops', id) != 0
      ensures ParentOf(ops', id) in roots'
    {
      if id in ops {
        assert ParentOf(ops, id) in roots;
        assert ParentOf(ops, id) in ops';
      }
    }
    StaysLineal(ops, roots, ops', subject);
  }

  lemma StaysLineal(ops: Operations, roots: map<Id, Id>, ops': Operations, subject: Id)
    requires FollowsBy(ops, roots, ops', subject) && Lineal(ops) && forall id | id in ops :: OperationOk(ops[id], id)
    ensures Lineal(ops')
  {
    forall id | id in ops' ensures LinealOk(ops', ops'[id]) {
      var parent := ParentOf(ops', id);
      if parent != 0 {
        if id in ops {
          assert LinealOk(ops, ops[id]);
          assert ParentOf(ops, id) == parent && id in ops'.Keys;
        } else {
          assert OperationOk(ops[parent], parent);
        }
        assert OperationFollows(ops[parent], ops'[parent], parent == subject);
      }
    }
  }

  lemma ExtendRoot(part: Operations, ops': Operations, id: Id)
    requires id in OperationRoots(part)
    requires forall k | k in part :: k in ops' && ops'[k].plan == part[k].plan
    ensures id in OperationRoots(ops') && OperationRoots(ops')[id] == OperationRoots(part)[id]
  {
    RootSurvivesExtension(OperationLinks(part), OperationLinks(ops'), id);
  }

  // ---------------------------------------------------------------------------
  // Every transaction follows.

  lemma RestrictFollows(ops: Operations, kept: set<Id>)
    requires OperationsOk(ops) && kept <= ops.Keys && AncestorClosed(ops, kept)
    requires forall id | id in ops && (ops[id].recoveryRequired || !Terminal(ops[id].state)) :: id in kept
    ensures Follows(ops, Restrict(ops, kept), 0)
    ensures NonTerminal(Restrict(ops, kept)) == NonTerminal(ops)
  {
    RestrictFollowsBy(ops, OperationRoots(ops), kept);
  }

  lemma RestrictFollowsBy(ops: Operations, roots: map<Id, Id>, kept: set<Id>)
    requires 0 !in ops && (forall id | id in ops :: OperationOk(ops[id], id)) && kept <= ops.Keys && AncestorClosed(ops, kept)
    requires forall id | id in ops && (ops[id].recoveryRequired || !Terminal(ops[id].state)) :: id in kept
    ensures FollowsBy(ops, roots, Restrict(ops, kept), 0)
    ensures NonTerminal(Restrict(ops, kept)) == NonTerminal(ops)
  {
    var part := Restrict(ops, kept);
    assert part.Keys == kept;
    forall id | id in part ensures part[id] == ops[id] && OperationOk(part[id], id) { assert OperationOk(ops[id], id); }
  }

  /** Pruning drops only finished operations that no kept operation descends from. */
  lemma PruneFollows(s: Store, now: nat)
    requires OperationsOk(s.operations)
    ensures Follows(s.operations, Prune(s, now).operations, 0)
    ensures OperationsOk(Prune(s, now).operations)
    ensures NonTerminal(Prune(s, now).operations) == NonTerminal(s.operations)
    ensures Prune(s, now).operations == Restrict(s.operations, Retained(s.operations, now))
  {
    RetainedIsLeast(s.operations, now);
    RestrictFollows(s.operations, Retained(s.operations, now));
    FollowsKeepsRoots(s.operations, Prune(s, now).operations, 0);
  }

  /** A transaction that rewrites operations in place. */
  lemma RewriteFollows(ops: Operations, ops': Operations, subject: Id)
    requires OperationsOk(ops)
    requires ops'.Keys == ops.Keys
    requires forall id | id in ops :: OperationOk(ops'[id], id) && OperationFollows(ops[id], ops'[id], id == subject)
    ensures Follows(ops, ops', subject)
  {
  }

  lemma SamePlansSameRoots(ops: Operations, ops': Operations)
    requires ops'.Keys == ops.Keys && forall id | id in ops :: ops'[id].plan == ops[id].plan
    ensures OperationRoots(ops') == OperationRoots(ops)
  {
    assert OperationLinks(ops') == OperationLinks(ops);
  }

  lemma FinishedFollows(o: Operation, id: Id, r: Outcome, now: nat)
    requires OperationOk(o, id) && OutcomeOk(r) && Terminal(r.state)
    requires r.recoveryRequired ==> !Terminal(o.state) || EvidenceAction(o.plan.draft.action)
    ensures OperationOk(Finished(o, r, now), id) && OperationFollows(o, Finished(o, r, now), true)
  {
  }

  lemma ResolveFollows(ops: Operations, ops1: Operations, roots: map<Id, Id>, id: Id, now: nat)
    requires id in ops && ops1.Keys == ops.Keys && !ops1[id].recoveryRequired
    requires forall k | k in ops :: OperationOk(ops[k], k) && (k != id ==> ops1[k] == ops[k])
    requires OperationOk(ops1[id], id) && OperationFollows(ops[id], ops1[id], true)
    ensures var ops' := ResolveChain(ops1, roots, id, now);
            ops'.Keys == ops.Keys && ops'[id] == ops1[id] &&
            forall k | k in ops :: OperationOk(ops'[k], k) && OperationFollows(ops[k], ops'[k], k == id)
  {
    var ops' := ResolveChain(ops1, roots, id, now);
    forall k | k in ops ensures OperationOk(ops'[k], k) && OperationFollows(ops[k], ops'[k], k == id) {
      assert OperationOk(ops[k], k);
    }
  }

  /** What completing an operation makes of the others, if the parent it names resolves. */
  function AfterFinish(ops: Operations, roots: map<Id, Id>, id: Id, o: Operation, now: nat): Operations {
    var ops1 := ops[id := o];
    if o.state.Succeeded? && o.plan.draft.parent != 0 then ResolveChain(ops1, roots, id, now) else ops1
  }

  lemma FinishShape(s: Store, id: Id, r: Outcome, now: nat)
    requires id in s.operations && (ParentOf(s.operations, id) != 0 ==> ParentOf(s.operations, id) in OperationRoots(s.operations))
    ensures FinishTx(s, id, r, now) ==
              Some(s.(operations := AfterFinish(s.operations, OperationRoots(s.operations), id, Finished(s.operations[id], r, now), now)))
  {
    SamePlansSameRoots(s.operations, s.operations[id := Finished(s.operations[id], r, now)]);
  }

  lemma AfterFinishFollows(ops: Operations, roots: map<Id, Id>, id: Id, o: Operation, now: nat)
    requires id in ops && OperationOk(o, id) && OperationFollows(ops[id], o, true)
    requires forall k | k in ops :: OperationOk(ops[k], k)
    ensures var ops' := AfterFinish(ops, roots, id, o, now);
            ops'.Keys == ops.Keys && ops'[id] == o &&
            forall k | k in ops :: OperationOk(ops'[k], k) && OperationFollows(ops[k], ops'[k], k == id)
  {
    if o.state.Succeeded? && o.plan.draft.parent != 0 {
      ResolveFollows(ops, ops[id := o], roots, id, now);
    } else {
      forall k | k in ops ensures OperationOk(ops[id := o][k], k) && OperationFollows(ops[k], ops[id := o][k], k == id) {
        assert OperationOk(ops[k], k);
      }
    }
  }

  /** Completing an operation never fails, once it is recorded: the parent it names resolves. */
  lemma FinishFollows(s: Store, id: Id, r: Outcome, now: nat)
    requires OperationsOk(s.operations) && id in s.operations
    requires OutcomeOk(r) && Terminal(r.state)
    requires r.recoveryRequired ==> !Terminal(s.operations[id].state) || EvidenceAction(s.operations[id].plan.draft.action)
    ensures FinishTx(s, id, r, now).Some?
    ensures Follows(s.operations, FinishTx(s, id, r, now).value.operations, id)
    ensures FinishTx(s, id, r, now).value.operations.Keys == s.operations.Keys
    ensures FinishTx(s, id, r, now).value.plans == s.plans
    ensures FinishTx(s, id, r, now).value.operations[id] == Finished(s.operations[id], r, now)
  {
    var ops := s.operations;
    assert OperationOk(ops[id], id);
    FinishShape(s, id, r, now);
    FinishedFollows(ops[id], id, r, now);
    AfterFinishFollows(ops, OperationRoots(ops), id, Finished(ops[id], r, now), now);
    RewriteFollows(ops, FinishTx(s, id, r, now).value.operations, id);
  }

  lemma CancelFollows(s: Store, id: Id, revision: nat, now: nat)
    requires OperationsOk(s.operations) && CancelTx(s, id, revision, now).Some?
    ensures Follows(s.operations, CancelTx(s, id, revision, now).value.operations, 0)
    ensures CancelTx(s, id, revision, now).value.operations.Keys == s.operations.Keys
  {
    var ops' := CancelTx(s, id, revision, now).value.operations;
    forall k | k in s.operations ensures OperationOk(ops'[k], k) && OperationFollows(s.operations[k], ops'[k], k == 0) {
      assert OperationOk(s.operations[k], k);
    }
    RewriteFollows(s.operations, ops', 0);
  }

  lemma BeginFollows(s: Store, id: Id, authorized: bool, now: nat)
    requires OperationsOk(s.operations) && BeginTx(s, id, authorized, now).Some?
    ensures Follows(s.operations, BeginTx(s, id, authorized, now).value.operations, id)
    ensures BeginTx(s, id, authorized, now).value.operations.Keys == s.operations.Keys
  {
    var ops' := BeginTx(s, id, authorized, now).value.operations;
    forall k | k in s.operations ensures OperationOk(ops'[k], k) && OperationFollows(s.operations[k], ops'[k], k == id) {
      assert OperationOk(s.operations[k], k);
    }
    RewriteFollows(s.operations, ops', id);
  }

  lemma ProgressFollows(s: Store, id: Id, p: Report, now: nat)
    requires OperationsOk(s.operations) && ProgressTx(s, id, p, now).Some?
    requires s.operations[id].state.Queued? ==> p.OtherPhase?
    requires p.SourceIntent? ==> ConfigureAction(s.operations[id].plan.draft.action)
    ensures Follows(s.operations, ProgressTx(s, id, p, now).value.operations, id)
    ensures ProgressTx(s, id, p, now).value.operations.Keys == s.operations.Keys
  {
    var ops' := ProgressTx(s, id, p, now).value.operations;
    forall k | k in s.operations ensures OperationOk(ops'[k], k) && OperationFollows(s.operations[k], ops'[k], k == id) {
      assert OperationOk(s.operations[k], k);
    }
    RewriteFollows(s.operations, ops', id);
  }

  lemma SourceUpdatedFollows(s: Store, id: Id, now: nat)
    requires OperationsOk(s.operations) && SourceUpdatedTx(s, id, now).Some?
    ensures Follows(s.operations, SourceUpdatedTx(s, id, now).value.operations, id)
    ensures SourceUpdatedTx(s, id, now).value.operations.Keys == s.operations.Keys
  {
    var ops' := SourceUpdatedTx(s, id, now).value.operations;
    forall k | k in s.operations ensures OperationOk(ops'[k], k) && OperationFollows(s.operations[k], ops'[k], k == id) {
      assert OperationOk(s.operations[k], k);
    }
    RewriteFollows(s.operations, ops', id);
  }

  /** Queueing a fresh operation whose parent, if any, resolves. */
  lemma AddFollows(ops: Operations, o: Operation)
    requires OperationsOk(ops) && o.id !in ops && OperationOk(o, o.id)
    requires Newborn(o, ops, OperationRoots(ops)) && (o.plan.draft.parent != 0 ==> o.plan.draft.parent in ops)
    ensures Follows(ops, ops[o.id := o], 0)
  {
    AddFollowsBy(ops, OperationRoots(ops), o);
  }

  lemma AddFollowsBy(ops: Operations, roots: map<Id, Id>, o: Operation)
    requires 0 !in ops && o.id !in ops && OperationOk(o, o.id) && forall id | id in ops :: OperationOk(ops[id], id)
    requires Newborn(o, ops, roots) && (o.plan.draft.parent != 0 ==> o.plan.draft.parent in ops)
    ensures FollowsBy(ops, roots, ops[o.id := o], 0)
  {
    var ops' := ops[o.id := o];
    forall id | id in ops' ensures OperationOk(ops'[id], id) {
      if id != o.id { assert OperationOk(ops[id], id); }
    }
  }

  lemma ApplyFollows(s: Store, planId: Id, key: nat, payload: nat, newId: Id, depth: nat, permitted: bool, now: nat)
    requires OperationsOk(s.operations) && newId != 0 && newId !in s.operations
    requires forall p | p in s.plans :: PlanOk(s.plans[p])
    requires ApplyTx(s, planId, key, payload, newId, depth, permitted, now).Some?
    ensures Follows(s.operations, ApplyTx(s, planId, key, payload, newId, depth, permitted, now).value.operations, 0)
    ensures ApplyTx(s, planId, key, payload, newId, depth, permitted, now).value.plans == s.plans
    ensures ApplyTx(s, planId, key, payload, newId, depth, permitted, now).value.operations.Keys <= s.operations.Keys + {newId}
  {
    if key in s.idempotency {
      RewriteFollows(s.operations, s.operations, 0);
    } else {
      AddFollows(s.operations, NewOperation(newId, key, s.plans[planId], now));
    }
  }

  /** `b` is what a pruning leaves of `a`. */
  predicate Pruned(a: Operations, b: Operations) {
    Follows(a, b, 0) && b.Keys <= a.Keys && forall id | id in b :: b[id] == a[id]
  }

  lemma UpdateFollowsEach(a: Operations, b: Operations, c: Operations, d: Operations, subject: Id)
    requires Pruned(a, b) && Follows(b, c, subject) && Pruned(c, d)
    requires forall id | id in c && id !in b :: id !in a
    ensures forall id | id in d && id in a :: OperationFollows(a[id], d[id], id == subject)
  {
    forall id | id in d && id in a
      ensures OperationFollows(a[id], d[id], id == subject)
    {
      assert id in c && id in b;
    }
  }

  lemma UpdateKeepsParents(a: Operations, b: Operations, c: Operations, d: Operations, subject: Id)
    requires Pruned(a, b) && Follows(b, c, subject) && Pruned(c, d)
    requires forall id | id in c && id !in b :: id !in a
    ensures AncestorClosed(a, d.Keys)
  {
    forall id | id in d.Keys && id in a && ParentOf(a, id) in a
      ensures ParentOf(a, id) in d.Keys
    {
      assert id in b && ParentOf(b, id) in b;
      assert ParentOf(c, id) == ParentOf(b, id) && ParentOf(c, id) in c;
    }
  }

  /** Transactions run between two prunings. */
  lemma UpdateFollows(a: Operations, b: Operations, c: Operations, d: Operations, subject: Id)
    requires 0 !in a && Pruned(a, b) && Follows(b, c, subject) && Pruned(c, d)
    requires forall id | id in c && id !in b :: id !in a
    ensures Follows(a, d, subject)
  {
    UpdateFollowsEach(a, b, c, d, subject);
    UpdateKeepsParents(a, b, c, d, subject);
    forall id | id in a && InFlight(a[id].state) && id != subject ensures id in d { assert id in b && id in c; }
    forall id | id in d && id !in a
      ensures Newborn(d[id], a, OperationRoots(a)) && (ParentOf(d, id) != 0 ==> ParentOf(d, id) in d)
    {
      assert id in c && id !in b;
      if ParentOf(c, id) != 0 { PartRoot(a, b, ParentOf(c, id)); }
    }
  }

  /** What resolves in an ancestor-closed part resolves in the whole. */
  lemma PartRoot(a: Operations, b: Operations, id: Id)
    requires b.Keys <= a.Keys && (forall k | k in b :: b[k] == a[k]) && id in OperationRoots(b)
    ensures id in OperationRoots(a)
  {
    ExtendRoot(b, a, id);
  }
}
