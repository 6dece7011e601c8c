/** The controller's persisted state: configurations, drafts, operations, and the
    retention rule (internal/domain/types.go, internal/store/store.go). */
module ControllerStore {
  import opened Domain
  import opened RecoveryGraph

  // ---------------------------------------------------------------------------
  // Configurations and drafts. A revision is the hash of a configuration; hashes are
  // taken to be injective, so a revision is represented by the configuration itself.

  datatype Serving = Serving(model: Id, limits: nat)
  datatype Configuration = Configuration(serving: Serving, resources: nat, caches: nat)

  datatype Draft = Draft(
    action: Action,
    target: Id,
    source: Configuration,             // the source revision the draft was made against
    parent: Id,                        // the operation it recovers, or 0
    model: Id,
    serving: Option<Serving>,
    resources: Option<nat>,
    caches: Option<nat>)

  /** The configuration a draft asks for. */
  function Desired(c: Configuration, d: Draft): Configuration {
    var serving := if d.serving.Some? then d.serving.value else c.serving;
    var serving' := if d.model != 0 && d.action.ServingConfigure? then serving.(model := d.model) else serving;
    Configuration(
      serving',
      if d.resources.Some? then d.resources.value else c.resources,
      if d.caches.Some? then d.caches.value else c.caches)
  }

  /** Which fields `ValidateDraft` accepts with which action. */
  predicate FieldsBelong(d: Draft) {
    && (EvidenceAction(d.action) ==> d.serving.None? && d.resources.None? && d.caches.None? && d.model == 0 && d.parent == 0)
    && (d.serving.Some? ==> d.action.ServingConfigure?)
    && (d.model != 0 ==> d.action.ServingConfigure? || d.action.ModelStage? || d.action.ModelVerify?)
    && (d.serving.Some? && d.model != 0 ==> d.serving.value.model == d.model)
    && (d.resources.Some? ==> d.action.ResourcesConfigure? || d.action.ServingConfigure?)
    && (d.caches.Some? ==> d.action.CachesConfigure?)
  }

  predicate ConfigureAction(a: Action) {
    a.ServingConfigure? || a.ResourcesConfigure? || a.CachesConfigure?
  }

  /** Only configure actions can ask for a source other than the one they were made against. */
  lemma OnlyConfigureChangesSource(c: Configuration, d: Draft)
    requires FieldsBelong(d) && !ConfigureAction(d.action)
    ensures Desired(c, d) == c
  {
  }

  datatype Plan = Plan(draft: Draft, desired: Configuration, actor: nat, expiresAt: nat)

  /** What `CreatePlan` establishes of every plan it stores. */
  predicate PlanOk(p: Plan) {
    && FieldsBelong(p.draft)
    && p.draft.target != 0
    && p.desired == Desired(p.draft.source, p.draft)
    && (p.draft.parent != 0 ==> RecoveryAction(p.draft.action))
  }

  // ---------------------------------------------------------------------------
  // Operations.

  datatype Operation = Operation(
    id: Id,
    key: nat,                          // the idempotency key it was applied under
    plan: Plan,
    state: State,
    recoveryRequired: bool,
    dispatched: bool,
    sourceIntent: bool,                // its events include a source-update intent
    sourceUpdated: bool,
    cancelRequested: bool,
    revision: nat,
    createdAt: nat,
    updatedAt: nat)

  type Operations = map<Id, Operation>

  datatype Idempotency = Idempotency(payload: nat, operation: Id)

  datatype Store = Store(
    operations: Operations,
    idempotency: map<nat, Idempotency>,
    plans: map<Id, Plan>)

  function OperationLinks(ops: Operations): Links {
    map id | id in ops :: Link(ops[id].plan.draft.parent, ops[id].plan.draft.target, ops[id].plan.draft.action)
  }

  function OperationRoots(ops: Operations): map<Id, Id> {
    Roots(OperationLinks(ops))
  }

  function ParentOf(ops: Operations, id: Id): Id
    requires id in ops
  {
    ops[id].plan.draft.parent
  }

  // ---------------------------------------------------------------------------
  // Retention.

  const RETENTION: nat := 30 * 24 * 60 * 60
  const PLAN_LIFETIME: nat := 10 * 60
  const PLAN_GRACE: nat := 60 * 60

  /** Executing, awaiting recovery, or recent. */
  predicate Live(o: Operation, now: nat) {
    !Terminal(o.state) || o.recoveryRequired || now <= o.updatedAt + RETENTION
  }

  predicate AncestorClosed(ops: Operations, kept: set<Id>) {
    forall id | id in kept && id in ops && ParentOf(ops, id) in ops :: ParentOf(ops, id) in kept
  }

  predicate HoldsLive(ops: Operations, now: nat, kept: set<Id>) {
    forall id | id in ops && Live(ops[id], now) :: id in kept
  }

  /** An operation and its recorded ancestors, stopping at a cycle. */
  function Ancestry(ops: Operations, id: Id, seen: set<Id>): set<Id>
    decreases ops.Keys - seen
  {
    if id !in ops || id in seen then {} else {id} + Ancestry(ops, ParentOf(ops, id), seen + {id})
  }

  function Retained(ops: Operations, now: nat): set<Id> {
    set live, id | live in ops && Live(ops[live], now) && id in Ancestry(ops, live, {}) :: id
  }

  /** What is kept of the state when it is written at time `now`. */
  function Prune(s: Store, now: nat): Store {
    var kept := Restrict(s.operations, Retained(s.operations, now));
    Store(kept, KeysInto(s.idempotency, kept), CurrentPlans(s.plans, now))
  }

  function KeysInto(idempotency: map<nat, Idempotency>, ops: Operations): map<nat, Idempotency> {
    map k | k in idempotency && idempotency[k].operation in ops :: idempotency[k]
  }

  function CurrentPlans(plans: map<Id, Plan>, now: nat): map<Id, Plan> {
    map p | p in plans && now <= plans[p].expiresAt + PLAN_GRACE :: plans[p]
  }

  // The walk collects a parent-closed set, and nothing that a parent-closed set could avoid.

  lemma {:induction false} AncestryClosed(ops: Operations, id: Id, seen: set<Id>)
    ensures Ancestry(ops, id, seen) <= ops.Keys
    ensures forall k | k in Ancestry(ops, id, seen) && ParentOf(ops, k) in ops ::
              ParentOf(ops, k) in Ancestry(ops, id, seen) || ParentOf(ops, k) in seen
    ensures id in ops && id !in seen ==> id in Ancestry(ops, id, seen)
    decreases ops.Keys - seen
  {
    if id in ops && id !in seen {
      AncestryClosed(ops, ParentOf(ops, id), seen + {id});
    }
  }

  lemma {:induction false} AncestryLeast(ops: Operations, id: Id, seen: set<Id>, kept: set<Id>)
    requires AncestorClosed(ops, kept) && id in kept
    ensures Ancestry(ops, id, seen) <= kept
    decreases ops.Keys - seen
  {
    if id in ops && id !in seen && ParentOf(ops, id) in ops {
      AncestryLeast(ops, ParentOf(ops, id), seen + {id}, kept);
    }
  }

  /** The retained operations are the least ancestor-closed set that holds the live ones,
      cyclic links or not. */
  lemma RetainedIsLeast(ops: Operations, now: nat)
    ensures Retained(ops, now) <= ops.Keys
    ensures HoldsLive(ops, now, Retained(ops, now))
    ensures AncestorClosed(ops, Retained(ops, now))
    ensures forall kept: set<Id> | HoldsLive(ops, now, kept) && AncestorClosed(ops, kept) :: Retained(ops, now) <= kept
  {
    forall live | live in ops
      ensures Ancestry(ops, live, {}) <= ops.Keys && live in Ancestry(ops, live, {})
    {
      AncestryClosed(ops, live, {});
    }
    forall id | id in Retained(ops, now) && ParentOf(ops, id) in ops
      ensures ParentOf(ops, id) in Retained(ops, now)
    {
      var live :| live in ops && Live(ops[live], now) && id in Ancestry(ops, live, {});
      AncestryClosed(ops, live, {});
    }
    forall kept: set<Id>, live | HoldsLive(ops, now, kept) && AncestorClosed(ops, kept) && live in ops && Live(ops[live], now)
      ensures Ancestry(ops, live, {}) <= kept
    {
      AncestryLeast(ops, live, {}, kept);
    }
  }

  /** A set with the properties of `Retained` is `Retained`. */
  lemma LeastIsUnique(ops: Operations, now: nat, kept: set<Id>)
    requires kept <= ops.Keys && HoldsLive(ops, now, kept) && AncestorClosed(ops, kept)
    requires forall other: set<Id> | HoldsLive(ops, now, other) && AncestorClosed(ops, other) :: kept <= other
    ensures kept == Retained(ops, now)
  {
    RetainedIsLeast(ops, now);
  }

  function Restrict(ops: Operations, kept: set<Id>): Operations {
    map id | id in ops && id in kept :: ops[id]
  }

  /** Restricting to an ancestor-closed set answers every recovery question about a kept
      operation as before. */
  lemma RestrictKeepsRoots(ops: Operations, kept: set<Id>)
    requires 0 !in ops && AncestorClosed(ops, kept)
    ensures forall id | id in ops && id in kept :: Root(OperationLinks(Restrict(ops, kept)), id) == Root(OperationLinks(ops), id)
    ensures OperationRoots(Restrict(ops, kept)) == map id | id in OperationRoots(ops) && id in kept :: OperationRoots(ops)[id]
  {
    var links, part := OperationLinks(ops), OperationLinks(Restrict(ops, kept));
    assert AncestorClosedPart(part, links) by {
      forall k | k in part && part[k].parent != 0 && part[k].parent in links ensures part[k].parent in part {
        assert ParentOf(ops, k) in kept;
      }
    }
    forall id | id in ops && id in kept ensures Root(part, id) == Root(links, id) {
      RootSurvivesPruning(part, links, id);
    }
  }

  /** Pruning keeps exactly the retained operations, and their recovery roots. */
  lemma PruneKeepsRoots(s: Store, now: nat)
    requires 0 !in s.operations
    ensures Prune(s, now).operations == Restrict(s.operations, Retained(s.operations, now))
    ensures forall id | id in Prune(s, now).operations ::
              Root(OperationLinks(Prune(s, now).operations), id) == Root(OperationLinks(s.operations), id)
  {
    RetainedIsLeast(s.operations, now);
    RestrictKeepsRoots(s.operations, Retained(s.operations, now));
  }

  /** What is live or needed among the operations kept is so among them all. */
  lemma KeptAgain(ops: Operations, now: nat, kept: set<Id>, part: Operations, again: set<Id>)
    requires kept <= ops.Keys && HoldsLive(ops, now, kept) && AncestorClosed(ops, kept) && part == Restrict(ops, kept)
    requires again <= part.Keys && HoldsLive(part, now, again) && AncestorClosed(part, again)
    ensures HoldsLive(ops, now, again) && AncestorClosed(ops, again)
  {
    forall id | id in again && ParentOf(ops, id) in ops ensures ParentOf(ops, id) in again {
      assert ParentOf(part, id) == ParentOf(ops, id);
    }
  }

  lemma RetainedAgain(ops: Operations, now: nat)
    ensures Retained(Restrict(ops, Retained(ops, now)), now) == Retained(ops, now)
  {
    var kept := Retained(ops, now);
    var part := Restrict(ops, kept);
    RetainedIsLeast(ops, now);
    RetainedIsLeast(part, now);
    KeptAgain(ops, now, kept, part, Retained(part, now));
  }

  lemma DroppingTwice(s: Store, kept: set<Id>, part: Operations, now: nat)
    ensures Restrict(Restrict(s.operations, kept), kept) == Restrict(s.operations, kept)
    ensures KeysInto(KeysInto(s.idempotency, part), part) == KeysInto(s.idempotency, part)
    ensures CurrentPlans(CurrentPlans(s.plans, now), now) == CurrentPlans(s.plans, now)
  {
  }

  /** Pruning twice at one time is pruning once. */
  lemma PruneTwice(s: Store, now: nat)
    ensures Prune(Prune(s, now), now) == Prune(s, now)
  {
    RetainedAgain(s.operations, now);
    var kept := Retained(s.operations, now);
    DroppingTwice(s, kept, Restrict(s.operations, kept), now);
  }

  // ---------------------------------------------------------------------------
  // The loops of `prune`.

  /** Marks `id` and its ancestors, up to one already marked. */
  method MarkAncestry(ops: Operations, start: Id, marked: set<Id>, ghost now: nat) returns (r: set<Id>)
    requires 0 !in ops && start in ops && Live(ops[start], now)
    requires AncestorClosed(ops, marked)
    requires forall kept: set<Id> | HoldsLive(ops, now, kept) && AncestorClosed(ops, kept) :: marked * ops.Keys <= kept
    ensures marked <= r && start in r && AncestorClosed(ops, r)
    ensures forall kept: set<Id> | HoldsLive(ops, now, kept) && AncestorClosed(ops, kept) :: r * ops.Keys <= kept
  {
    r := marked;
    var id := start;
    while id != 0 && id !in r
      invariant marked <= r && (start in r || id == start)
      invariant forall k | k in r && k in ops && ParentOf(ops, k) in ops :: ParentOf(ops, k) in r || ParentOf(ops, k) == id
      invariant forall kept: set<Id> | HoldsLive(ops, now, kept) && AncestorClosed(ops, kept) :: r * ops.Keys <= kept
      invariant id in ops ==> forall kept: set<Id> | HoldsLive(ops, now, kept) && AncestorClosed(ops, kept) :: id in kept
      decreases ops.Keys - r, id in ops
    {
      r := r + {id};
      if id !in ops {
        break;
      }
      id := ParentOf(ops, id);
    }
  }

  /** The retention pass over the operations, in any order of the map. */
  method MarkRetained(ops: Operations, now: nat) returns (retained: set<Id>)
    requires 0 !in ops
    ensures retained * ops.Keys == Retained(ops, now)
    ensures HoldsLive(ops, now, retained)
  {
    retained := {};
    var todo := ops.Keys;
    while todo != {}
      invariant todo <= ops.Keys
      invariant AncestorClosed(ops, retained)
      invariant forall kept: set<Id> | HoldsLive(ops, now, kept) && AncestorClosed(ops, kept) :: retained * ops.Keys <= kept
      invariant forall id | id in ops && Live(ops[id], now) :: id in todo || id in retained
      decreases todo
    {
      var id :| id in todo;
      todo := todo - {id};
      if Live(ops[id], now) {
        retained := MarkAncestry(ops, id, retained, now);
      }
    }
    LeastIsUnique(ops, now, retained * ops.Keys);
  }

  method DropOperations(ops: Operations, retained: set<Id>, now: nat) returns (r: Operations)
    requires HoldsLive(ops, now, retained)
    ensures r == Restrict(ops, retained)
  {
    r := ops;
    var todo := ops.Keys;
    while todo != {}
      invariant todo <= ops.Keys
      invariant r == Restrict(ops, retained + todo)
      decreases todo
    {
      var id :| id in todo;
      todo := todo - {id};
      var o := ops[id];
      if id !in retained && Terminal(o.state) && !o.recoveryRequired && now > o.updatedAt + RETENTION {
        r := r - {id};
      } else {
        assert id in retained;
      }
    }
  }

  method DropKeys(idempotency: map<nat, Idempotency>, ops: Operations) returns (r: map<nat, Idempotency>)
    ensures r == KeysInto(idempotency, ops)
  {
    r := idempotency;
    var todo := idempotency.Keys;
    while todo != {}
      invariant todo <= idempotency.Keys
      invariant r == map k | k in idempotency && (k in todo || idempotency[k].operation in ops) :: idempotency[k]
      decreases todo
    {
      var k :| k in todo;
      todo := todo - {k};
      if idempotency[k].operation !in ops {
        r := r - {k};
      }
    }
  }

  /** Drops finished operations that nobody's lineage needs, then idempotency entries
      without an operation, and plans long expired. */
  method PruneState(s: Store, now: nat) returns (v: Store)
    requires 0 !in s.operations
    ensures v == Prune(s, now)
    ensures forall k | k in s.idempotency :: k in v.idempotency <==> s.idempotency[k].operation in v.operations
    ensures forall p | p in s.plans :: p in v.plans <==> now <= s.plans[p].expiresAt + PLAN_GRACE
  {
    var retained := MarkRetained(s.operations, now);
    var operations := DropOperations(s.operations, retained, now);
    assert operations == Restrict(s.operations, retained * s.operations.Keys);
    var idempotency := DropKeys(s.idempotency, operations);
    v := Store(operations, idempotency, CurrentPlans(s.plans, now));
  }
}
