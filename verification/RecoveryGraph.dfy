/** The vocabulary shared by the host helper and the controller: identifiers,
    actions and lifecycle states (internal/domain/types.go). */
module Domain {

  /** Identifiers and target names are opaque strings; they are numbered here, and 0 is
      the empty string, which the program uses for "none". */
  type Id = nat

  datatype Action =
    | ProfileSwitch
    | ProfileRestore
    | ServingConfigure
    | ResourcesConfigure
    | ServingStart
    | ServingStop
    | ServingRestart
    | OperationReconcile
    | HardwareRefresh
    | CpuPolicyExport
    | CachesConfigure
    | ModelStage
    | ModelVerify
    | BuildStart
    | MemoryImport
    | MemoryPlanExport
    | PerformanceExport
    | PerformanceSelect
    | OtherAction(name: nat)

  datatype State = Queued | Running | CancelRequested | Succeeded | Failed | Cancelled | RecoveryRequired

  predicate Terminal(s: State) {
    s.Succeeded? || s.Failed? || s.Cancelled? || s.RecoveryRequired?
  }

  predicate HostRestoreRequired(a: Action) {
    || a.ProfileSwitch? || a.ProfileRestore? || a.ServingConfigure? || a.ResourcesConfigure?
    || a.ServingStart? || a.ServingStop? || a.ServingRestart?
  }

  predicate EvidenceAction(a: Action) {
    a.MemoryImport? || a.MemoryPlanExport? || a.PerformanceExport? || a.PerformanceSelect?
  }

  /** Only these two actions may name another record as the one they recover. */
  predicate RecoveryAction(a: Action) {
    a.ProfileRestore? || a.OperationReconcile?
  }

  datatype Result<+T, +E> = Ok(value: T) | Err(error: E)

  datatype Option<+T> = None | Some(value: T)

  /** How the durable replacement of a file can end. `FailedAfter` reports an error
      although the new content is already in place. */
  datatype Write = Written | FailedBefore | FailedAfter
}

/** Recovery links between journal records (internal/domain/recovery.go). */
module RecoveryGraph {
  import opened Domain

  datatype Link = Link(parent: Id, target: Id, action: Action)
  type Links = map<Id, Link>

  datatype LinkError = MissingOrCyclic | CrossesTargets | NonRecoveryAction | CrossesExecutors

  // ---------------------------------------------------------------------------
  // What a resolvable record is, stated without any traversal.

  /** One record's link is sound: it names a target, and if it has a parent then it is a
      recovery action, the parent is recorded, it has the same target, and a restore
      only follows an action with host effects. */
  predicate LinkOk(links: Links, id: Id) {
    && id in links
    && links[id].target != 0
    && (links[id].parent != 0 ==>
          && RecoveryAction(links[id].action)
          && links[id].parent in links
          && links[links[id].parent].target == links[id].target
          && (links[id].action.ProfileRestore? ==> HostRestoreRequired(links[links[id].parent].action)))
  }

  /** A finite line of sound records, each the parent of the one before, ending at a
      record with no parent. */
  predicate Lineage(links: Links, path: seq<Id>) {
    && path != []
    && LinkOk(links, path[0])
    && if |path| == 1 then
         links[path[0]].parent == 0
       else
         links[path[0]].parent == path[1] != 0 && Lineage(links, path[1..])
  }

  predicate LineageFromTo(links: Links, path: seq<Id>, id: Id, root: Id) {
    Lineage(links, path) && path[0] == id && path[|path| - 1] == root
  }

  // ---------------------------------------------------------------------------
  // The traversal.

  /** The rest of the walk from `id`, having visited `seen` and met `target` on the way. */
  function Walk(links: Links, id: Id, target: Id, seen: set<Id>): Result<Id, LinkError>
    decreases links.Keys - seen
  {
    if id !in links || id in seen || links[id].target == 0 then
      Err(MissingOrCyclic)
    else
      var link := links[id];
      if target != 0 && target != link.target then
        Err(CrossesTargets)
      else if link.parent == 0 then
        Ok(id)
      else if !RecoveryAction(link.action) then
        Err(NonRecoveryAction)
      else if link.parent !in links || (link.action.ProfileRestore? && !HostRestoreRequired(links[link.parent].action)) then
        Err(CrossesExecutors)
      else
        Walk(links, link.parent, link.target, seen + {id})
  }

  function Root(links: Links, id: Id): Result<Id, LinkError> {
    Walk(links, id, 0, {})
  }

  /** Where every resolving record's walk ends. */
  function Roots(links: Links): map<Id, Id> {
    map id | id in links && Root(links, id).Ok? :: Root(links, id).value
  }

  predicate SameChain(roots: map<Id, Id>, a: Id, b: Id) {
    a in roots && b in roots && roots[a] == roots[b]
  }

  /** The members of the recovery chain of `id`; empty when `id` does not resolve. */
  function Chain(roots: map<Id, Id>, id: Id): set<Id> {
    set c | c in roots && SameChain(roots, id, c)
  }

  /** Follows parent links to the record a recovery chain started from. The loop
      terminates on every finite map, cyclic ones included. */
  method RecoveryRoot(links: Links, start: Id) returns (r: Result<Id, LinkError>)
    ensures r == Root(links, start)
  {
    var id, target, seen := start, 0, {};
    while true
      invariant Walk(links, id, target, seen) == Root(links, start)
      decreases links.Keys - seen
    {
      if id !in links || id in seen || links[id].target == 0 {
        return Err(MissingOrCyclic);
      }
      var link := links[id];
      ghost var before := seen;
      seen := seen + {id};
      if target != 0 && target != link.target {
        return Err(CrossesTargets);
      }
      target := link.target;
      if link.parent == 0 {
        return Ok(id);
      }
      if !link.action.ProfileRestore? && !link.action.OperationReconcile? {
        return Err(NonRecoveryAction);
      }
      if link.parent !in links || (link.action.ProfileRestore? && !HostRestoreRequired(links[link.parent].action)) {
        return Err(CrossesExecutors);
      }
      id := link.parent;
    }
  }

  /** Collects every record with the same root. */
  method RecoveryChain(links: Links, id: Id) returns (r: Result<set<Id>, LinkError>)
    ensures r.Ok? <==> Root(links, id).Ok?
    ensures r.Ok? ==> r.value == Chain(Roots(links), id)
    ensures r.Err? ==> Root(links, id) == Err(r.error)
  {
    var root := RecoveryRoot(links, id);
    if root.Err? {
      return Err(root.error);
    }
    var chain := {};
    var todo := links.Keys;
    while todo != {}
      invariant todo <= links.Keys
      invariant chain == Chain(Roots(links), id) - todo
      decreases todo
    {
      var candidate :| candidate in todo;
      todo := todo - {candidate};
      var r := RecoveryRoot(links, candidate);
      if r == root {
        chain := chain + {candidate};
      }
    }
    return Ok(chain);
  }

  // ---------------------------------------------------------------------------
  // The traversal computes exactly the end of the lineage.

  lemma {:induction false} LineageUnique(links: Links, p: seq<Id>, q: seq<Id>)
    requires Lineage(links, p) && Lineage(links, q) && p[0] == q[0]
    ensures p == q
    decreases |p|
  {
    if |p| > 1 && |q| > 1 {
      LineageUnique(links, p[1..], q[1..]);
      assert p == [p[0]] + p[1..] && q == [q[0]] + q[1..];
    }
  }

  lemma {:induction false} LineageSuffix(links: Links, p: seq<Id>, k: nat)
    requires Lineage(links, p) && k < |p|
    ensures Lineage(links, p[k..])
    decreases k
  {
    if k == 0 {
      assert p[0..] == p;
    } else {
      LineageSuffix(links, p[1..], k - 1);
      assert p[1..][k - 1..] == p[k..];
    }
  }

  /** A lineage never repeats a record, so cycles have none. */
  lemma LineageDistinct(links: Links, p: seq<Id>, i: nat, j: nat)
    requires Lineage(links, p) && i < j < |p|
    ensures p[i] != p[j]
  {
    LineageSuffix(links, p, i);
    LineageSuffix(links, p, j);
    if p[i] == p[j] {
      LineageUnique(links, p[i..], p[j..]);
    }
  }

  lemma {:induction false} WalkFollowsLineage(links: Links, p: seq<Id>, k: nat, target: Id, seen: set<Id>)
    requires Lineage(links, p) && k < |p|
    requires p[k] in links && (target == 0 || target == links[p[k]].target)
    requires seen == set i | 0 <= i < k :: p[i]
    ensures Walk(links, p[k], target, seen) == Ok(p[|p| - 1])
    decreases |p| - k
  {
    forall i | 0 <= i < k ensures p[i] != p[k] { LineageDistinct(links, p, i, k); }
    LineageSuffix(links, p, k);
    if k + 1 < |p| {
      WalkFollowsLineage(links, p, k + 1, links[p[k]].target, seen + {p[k]});
    }
  }

  lemma {:induction false} WalkGivesLineage(links: Links, id: Id, target: Id, seen: set<Id>) returns (path: seq<Id>)
    requires Walk(links, id, target, seen).Ok?
    ensures LineageFromTo(links, path, id, Walk(links, id, target, seen).value)
    ensures target == 0 || links[id].target == target
    decreases links.Keys - seen
  {
    if links[id].parent == 0 {
      path := [id];
    } else {
      var rest := WalkGivesLineage(links, links[id].parent, links[id].target, seen + {id});
      path := [id] + rest;
      assert path[1..] == rest;
    }
  }

  /** `RecoveryRoot` succeeds with `root` exactly when a lineage leads from `id` to `root`. */
  lemma RootIffLineage(links: Links, id: Id, root: Id)
    ensures Root(links, id) == Ok(root) <==> exists path :: LineageFromTo(links, path, id, root)
  {
    if Root(links, id) == Ok(root) {
      var path := WalkGivesLineage(links, id, 0, {});
      assert LineageFromTo(links, path, id, root);
    }
    forall path | LineageFromTo(links, path, id, root)
      ensures Root(links, id) == Ok(root)
    {
      WalkFollowsLineage(links, path, 0, 0, {});
    }
  }

  // ---------------------------------------------------------------------------
  // Laws of chains.

  /** A member and its parent have the same root, and a record without a parent is its own. */
  lemma RootStep(links: Links, id: Id)
    ensures Root(links, id).Ok? ==> LinkOk(links, id)
    ensures LinkOk(links, id) && links[id].parent == 0 ==> Root(links, id) == Ok(id)
    ensures LinkOk(links, id) && links[id].parent != 0 && Root(links, links[id].parent).Ok? ==>
              Root(links, id) == Root(links, links[id].parent)
    ensures Root(links, id).Ok? && links[id].parent != 0 ==> Root(links, links[id].parent) == Root(links, id)
  {
    if Root(links, id).Ok? {
      var path := WalkGivesLineage(links, id, 0, {});
      if |path| > 1 {
        WalkFollowsLineage(links, path[1..], 0, 0, {});
      }
    }
    if LinkOk(links, id) && links[id].parent != 0 && Root(links, links[id].parent).Ok? {
      var rest := WalkGivesLineage(links, links[id].parent, 0, {});
      var path := [id] + rest;
      assert path[1..] == rest;
      WalkFollowsLineage(links, path, 0, 0, {});
    }
  }

  /** The root of a resolving record is a recorded, sound record without a parent, with
      the target of the record itself. */
  lemma RootIsRecorded(links: Links, id: Id)
    requires Root(links, id).Ok?
    ensures id in links
    ensures var root := Root(links, id).value;
            && LinkOk(links, root)
            && links[root].parent == 0
            && links[root].target == links[id].target
            && Root(links, root) == Ok(root)
  {
    var path := WalkGivesLineage(links, id, 0, {});
    LineageSharesTarget(links, path);
    var root := Root(links, id).value;
    LineageSuffix(links, path, |path| - 1);
    RootStep(links, root);
  }

  lemma {:induction false} LineageSharesTarget(links: Links, p: seq<Id>)
    requires Lineage(links, p)
    ensures p[|p| - 1] in links && links[p[|p| - 1]].target == links[p[0]].target
  {
    if |p| > 1 {
      LineageSharesTarget(links, p[1..]);
    }
  }

  /** Chains are equal or disjoint, share one target, contain the ancestors of their
      members, and hold their own root and index. */
  lemma ChainLaws(links: Links, a: Id, b: Id)
    requires a in Roots(links) && b in Roots(links)
    ensures var roots := Roots(links);
            && a in Chain(roots, a) && roots[a] in Chain(roots, a)
            && (Chain(roots, a) == Chain(roots, b) || Chain(roots, a) !! Chain(roots, b))
            && (Chain(roots, a) == Chain(roots, b) <==> roots[a] == roots[b])
            && (forall m | m in Chain(roots, a) :: links[m].target == links[a].target)
            && (forall m | m in Chain(roots, a) && links[m].parent != 0 :: links[m].parent in Chain(roots, a))
  {
    var roots := Roots(links);
    RootIsRecorded(links, a);
    RootIsRecorded(links, b);
    assert a in Chain(roots, a) && b in Chain(roots, b);
    forall m | m in Chain(roots, a)
      ensures links[m].target == links[a].target
      ensures links[m].parent != 0 ==> links[m].parent in Chain(roots, a)
    {
      RootIsRecorded(links, m);
      RootStep(links, m);
    }
  }

  lemma {:induction false} LineageSurvivesExtension(links: Links, more: Links, p: seq<Id>)
    requires Lineage(links, p)
    requires forall k | k in links :: k in more && more[k] == links[k]
    ensures Lineage(more, p)
  {
    if |p| > 1 {
      LineageSurvivesExtension(links, more, p[1..]);
    }
  }

  /** Recording more never changes an answer that was a success. */
  lemma RootSurvivesExtension(links: Links, more: Links, id: Id)
    requires Root(links, id).Ok?
    requires forall k | k in links :: k in more && more[k] == links[k]
    ensures Root(more, id) == Root(links, id)
  {
    var path := WalkGivesLineage(links, id, 0, {});
    LineageSurvivesExtension(links, more, path);
    WalkFollowsLineage(more, path, 0, 0, {});
  }

  /** A fresh record resolves to itself when it has no parent and to its parent's root
      otherwise; everybody else keeps theirs. */
  lemma RootsOfFresh(links: Links, id: Id, link: Link)
    requires id !in links && id != 0 && LinkOk(links[id := link], id)
    requires link.parent != 0 ==> link.parent in Roots(links)
    requires Roots(links).Keys == links.Keys
    ensures Roots(links[id := link]) == Roots(links)[id := if link.parent == 0 then id else Roots(links)[link.parent]]
    ensures id !in Roots(links).Values
  {
    var more := links[id := link];
    forall k | k in links
      ensures Root(links, k).Ok? && Root(more, k) == Root(links, k) && Root(links, k).value != id
    {
      assert k in Roots(links);
      RootSurvivesExtension(links, more, k);
      RootIsRecorded(links, k);
    }
    RootStep(more, id);
  }

  /** `kept` is what remains of `links` after dropping records, never dropping the parent
      of a record that stays. */
  predicate AncestorClosedPart(kept: Links, links: Links) {
    && (forall k | k in kept :: k in links && kept[k] == links[k])
    && (forall k | k in kept && kept[k].parent != 0 && kept[k].parent in links :: kept[k].parent in kept)
  }

  lemma {:induction false} WalkSurvivesPruning(kept: Links, links: Links, id: Id, target: Id, seen: set<Id>)
    requires AncestorClosedPart(kept, links)
    requires id in kept || id !in links
    ensures Walk(kept, id, target, seen) == Walk(links, id, target, seen)
    decreases links.Keys - seen
  {
    if id in kept && id !in seen && kept[id].parent != 0 && kept[id].parent in kept {
      WalkSurvivesPruning(kept, links, kept[id].parent, kept[id].target, seen + {id});
    }
  }

  /** Dropping records without dropping ancestors leaves every remaining answer, success
      or error, as it was. */
  lemma RootSurvivesPruning(kept: Links, links: Links, id: Id)
    requires AncestorClosedPart(kept, links)
    requires id in kept || id !in links
    ensures Root(kept, id) == Root(links, id)
  {
    WalkSurvivesPruning(kept, links, id, 0, {});
  }
}
