/** The transactions the controller runs against its store (internal/engine/engine.go,
    internal/engine/recovery.go, internal/engine/memory.go). */
module ControllerTransactions {
  import opened Domain
  import opened RecoveryGraph
  import opened ControllerStore

  // ---------------------------------------------------------------------------
  // The recovery fence.

  /** May an operation with draft `d` be queued or started, `executing` being its own ID? */
  predicate Admits(ops: Operations, roots: map<Id, Id>, d: Draft, executing: Id) {
    && (d.parent != 0 ==>
          && d.parent in ops
          && ops[d.parent].recoveryRequired
          && RecoveryAction(d.action)
          && ops[d.parent].plan.draft.target == d.target
          && d.parent in roots)
    && forall id | id in ops && id != executing ::
         && (ops[id].recoveryRequired && !d.action.HardwareRefresh? ==> SameChain(roots, d.parent, id) && d.parent != 0)
         && (d.parent != 0 && !Terminal(ops[id].state) && ops[id].plan.draft.parent != 0 ==> !SameChain(roots, d.parent, id))
  }

  method BuildLinks(ops: Operations) returns (links: Links)
    ensures links == OperationLinks(ops)
  {
    links := map[];
    var todo := ops.Keys;
    while todo != {}
      invariant todo <= ops.Keys
      invariant links.Keys == ops.Keys - todo
      invariant forall id | id in links :: links[id] == OperationLinks(ops)[id]
      decreases todo
    {
      var id :| id in todo;
      todo := todo - {id};
      var d := ops[id].plan.draft;
      links := links[id := Link(d.parent, d.target, d.action)];
    }
  }

  method RecoveryAdmission(ops: Operations, d: Draft, executing: Id) returns (ok: bool)
    ensures ok == Admits(ops, OperationRoots(ops), d, executing)
  {
    var chain := {};
    if d.parent != 0 {
      if d.parent !in ops || !ops[d.parent].recoveryRequired || (!d.action.ProfileRestore? && !d.action.OperationReconcile?) {
        return false;
      }
      if ops[d.parent].plan.draft.target != d.target {
        return false;
      }
      var links := BuildLinks(ops);
      var r := RecoveryChain(links, d.parent);
      if r.Err? {
        return false;
      }
      chain := r.value;
    }
    ghost var roots := OperationRoots(ops);
    assert forall id | id in ops :: id in chain <==> d.parent != 0 && SameChain(roots, d.parent, id);
    var todo := ops.Keys;
    while todo != {}
      invariant todo <= ops.Keys
      invariant forall id | id in ops && id != executing && id !in todo ::
                  && (ops[id].recoveryRequired && !d.action.HardwareRefresh? ==> id in chain)
                  && (d.parent != 0 && !Terminal(ops[id].state) && ops[id].plan.draft.parent != 0 ==> id !in chain)
      decreases todo
    {
      var id :| id in todo;
      todo := todo - {id};
      if id != executing {
        var o := ops[id];
        if o.recoveryRequired && id !in chain && !d.action.HardwareRefresh? {
          return false;
        }
        if d.parent != 0 && !Terminal(o.state) && o.plan.draft.parent != 0 && id in chain {
          return false;
        }
      }
    }
    return true;
  }

  /** Pruning never changes an admission verdict. */
  lemma AdmissionSurvivesPruning(s: Store, now: nat, d: Draft, executing: Id)
    requires 0 !in s.operations
    ensures Admits(Prune(s, now).operations, OperationRoots(Prune(s, now).operations), d, executing) <==>
            Admits(s.operations, OperationRoots(s.operations), d, executing)
  {
    var ops, kept := s.operations, Retained(s.operations, now);
    RetainedIsLeast(ops, now);
    AdmissionOnRestriction(ops, kept, d, executing);
  }

  lemma AdmissionOnRestriction(ops: Operations, kept: set<Id>, d: Draft, executing: Id)
    requires 0 !in ops && kept <= ops.Keys && AncestorClosed(ops, kept)
    requires forall id | id in ops && (ops[id].recoveryRequired || !Terminal(ops[id].state)) :: id in kept
    ensures Admits(Restrict(ops, kept), OperationRoots(Restrict(ops, kept)), d, executing) <==>
            Admits(ops, OperationRoots(ops), d, executing)
  {
    RestrictKeepsRoots(ops, kept);
    AdmissionOnPart(ops, OperationRoots(ops), kept, d, executing);
  }

  lemma AdmissionOnPart(ops: Operations, roots: map<Id, Id>, kept: set<Id>, d: Draft, executing: Id)
    requires kept <= ops.Keys
    requires forall id | id in ops && (ops[id].recoveryRequired || !Terminal(ops[id].state)) :: id in kept
    ensures Admits(Restrict(ops, kept), map id | id in roots && id in kept :: roots[id], d, executing) <==>
            Admits(ops, roots, d, executing)
  {
    var part, roots' := Restrict(ops, kept), map id | id in roots && id in kept :: roots[id];
    assert forall id | id in part :: part[id] == ops[id];
    assert forall a, b | a in kept && b in kept :: SameChain(roots', a, b) == SameChain(roots, a, b);
    if d.parent == 0 || d.parent in kept {
      if Admits(part, roots', d, executing) {
        assert Admits(ops, roots, d, executing);
      }
      if Admits(ops, roots, d, executing) {
        assert Admits(part, roots', d, executing);
      }
    }
  }

  // ---------------------------------------------------------------------------
  // Results.

  datatype Outcome = Outcome(state: State, recoveryRequired: bool)

  /** What every executor reports: recovery is required exactly in the state of that name. */
  predicate OutcomeOk(r: Outcome) {
    r.recoveryRequired <==> r.state.RecoveryRequired?
  }

  /** Evidence work is read-only: an unknown outcome is a failure, never a recovery. */
  function Effective(a: Action, r: Outcome): Outcome {
    if EvidenceAction(a) && (r.recoveryRequired || r.state.RecoveryRequired? || r.state.Running? || r.state.Queued?)
    then Outcome(Failed, false) else r
  }

  function Touched(o: Operation, now: nat): Operation {
    o.(revision := o.revision + 1, updatedAt := now)
  }

  function Finished(o: Operation, r: Outcome, now: nat): Operation {
    var e := Effective(o.plan.draft.action, r);
    Touched(o, now).(state := e.state, recoveryRequired := e.recoveryRequired || e.state.RecoveryRequired?)
  }

  function Resolved(o: Operation, recovery: Operation, now: nat): Operation {
    Touched(o, now).(
      recoveryRequired := false,
      state := Failed,
      sourceUpdated := if recovery.plan.draft.action.OperationReconcile?
                       then recovery.plan.desired == o.plan.desired && o.plan.desired != o.plan.draft.source
                       else o.sourceUpdated)
  }

  /** Resolves every other operation of the chain that awaits recovery. */
  function ResolveChain(ops: Operations, roots: map<Id, Id>, recovery: Id, now: nat): Operations
    requires recovery in ops
  {
    map id | id in ops ::
      if id != recovery && ops[id].recoveryRequired && SameChain(roots, ops[recovery].plan.draft.parent, id)
      then Resolved(ops[id], ops[recovery], now) else ops[id]
  }

  method ResolvePrevious(ops: Operations, chain: set<Id>, recovery: Id, now: nat) returns (r: Operations)
    requires recovery in ops && chain == Chain(OperationRoots(ops), ops[recovery].plan.draft.parent)
    ensures r == ResolveChain(ops, OperationRoots(ops), recovery, now)
  {
    ghost var roots := OperationRoots(ops);
    r := ops;
    var todo := chain;
    while todo != {}
      invariant todo <= chain && r.Keys == ops.Keys && r[recovery] == ops[recovery]
      invariant forall id | id in ops ::
                  r[id] == if id in todo then ops[id] else ResolveChain(ops, roots, recovery, now)[id]
      decreases todo
    {
      var id :| id in todo;
      todo := todo - {id};
      if id != recovery && r[id].recoveryRequired {
        r := r[id := Resolved(r[id], r[recovery], now)];
      }
    }
  }

  // ---------------------------------------------------------------------------
  // Transactions. None means that the transaction fails and nothing is written.

  function FinishTx(s: Store, id: Id, r: Outcome, now: nat): Option<Store> {
    if id !in s.operations then None
    else
      var o := Finished(s.operations[id], r, now);
      var ops := s.operations[id := o];
      if o.state.Succeeded? && o.plan.draft.parent != 0 then
        if o.plan.draft.parent !in OperationRoots(ops) then None
        else Some(s.(operations := ResolveChain(ops, OperationRoots(ops), id, now)))
      else Some(s.(operations := ops))
  }

  function CancelTx(s: Store, id: Id, revision: nat, now: nat): Option<Store> {
    if id !in s.operations then None
    else
      var o := s.operations[id];
      if (revision != 0 && revision != o.revision) || Terminal(o.state) then None
      else
        Some(s.(operations := s.operations[id := Touched(o, now).(
          cancelRequested := true,
          state := if o.state.Queued? then Cancelled else CancelRequested)]))
  }

  function BeginTx(s: Store, id: Id, authorized: bool, now: nat): Option<Store> {
    if id !in s.operations || !s.operations[id].state.Queued? then None
    else
      var o := s.operations[id];
      var started := Admits(s.operations, OperationRoots(s.operations), o.plan.draft, id) && authorized;
      Some(s.(operations := s.operations[id := Touched(o, now).(state := if started then Running else Failed)]))
  }

  /** A phase report; the two intents also leave a mark on the operation. */
  datatype Report = SourceIntent | DispatchIntent | OtherPhase

  function ProgressTx(s: Store, id: Id, p: Report, now: nat): Option<Store> {
    if id !in s.operations then None
    else
      var o := s.operations[id];
      Some(s.(operations := s.operations[id := Touched(o, now).(
        dispatched := o.dispatched || p.DispatchIntent?,
        sourceIntent := o.sourceIntent || p.SourceIntent?)]))
  }

  function SourceUpdatedTx(s: Store, id: Id, now: nat): Option<Store> {
    if id !in s.operations then None
    else Some(s.(operations := s.operations[id := Touched(s.operations[id], now).(sourceUpdated := true)]))
  }

  const MAX_PLANS: nat := 200
  const MAX_OPERATIONS: nat := 500

  function NonTerminal(ops: Operations): set<Id> {
    set id | id in ops && !Terminal(ops[id].state)
  }

  function CreatePlanTx(s: Store, planId: Id, p: Plan): Option<Store> {
    if |s.plans| >= MAX_PLANS then None else Some(s.(plans := s.plans[planId := p]))
  }

  /** `permitted` stands for the identity, role, target confirmation and hash checks. */
  function ApplyTx(s: Store, planId: Id, key: nat, payload: nat, newId: Id, depth: nat, permitted: bool, now: nat): Option<Store> {
    if key in s.idempotency then
      if s.idempotency[key].payload == payload && permitted then Some(s) else None
    else if planId !in s.plans || !permitted || now > s.plans[planId].expiresAt then None
    else if !Admits(s.operations, OperationRoots(s.operations), s.plans[planId].draft, 0) then None
    else if |NonTerminal(s.operations)| >= depth || |s.operations| >= MAX_OPERATIONS then None
    else
      Some(s.(
        operations := s.operations[newId := NewOperation(newId, key, s.plans[planId], now)],
        idempotency := s.idempotency[key := Idempotency(payload, newId)]))
  }

  function NewOperation(id: Id, key: nat, p: Plan, now: nat): Operation {
    Operation(id, key, p, Queued, false, false, false, false, false, 1, now, now)
  }
}
