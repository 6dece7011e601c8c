/** The host helper's journal (internal/hostexec/executor.go): records, what each
    decision of the helper means on a journal, and what every journal it writes satisfies. */
module HostJournal {
  import opened Domain
  import opened RecoveryGraph

  datatype Request = Request(id: Id, action: Action, parent: Id, target: Id, payload: nat)

  datatype Phase =
    | IntentPersisted
    | BuildGateDisposition
    | EffectsComplete
    | AnalysisComplete
    | EffectUncertain
    | PreflightRefused
    | ReadOnlyFailed
    | ReadOnlyInterrupted
    | ExecutorRestart
    | RecoveredBy(restore: Id)

  datatype Record = Record(request: Request, peer: nat, startedAt: nat, state: State, phase: Phase)

  type Journal = map<Id, Record>

  predicate ReadOnlyAction(a: Action) {
    a.HardwareRefresh? || a.CpuPolicyExport? || EvidenceAction(a)
  }

  /** The actions `validate` lets through. */
  predicate HostAction(a: Action) {
    HostRestoreRequired(a) || ReadOnlyAction(a)
  }

  function LinksOf(j: Journal): Links {
    map id | id in j :: Link(j[id].request.parent, j[id].request.target, j[id].request.action)
  }

  /** Where each record's recovery link resolves to. */
  function RootsOf(j: Journal): map<Id, Id> {
    Roots(LinksOf(j))
  }

  // ---------------------------------------------------------------------------
  // What the helper looks for in its journal.

  predicate Interrupted(r: Record) {
    r.state.Running? || r.state.Queued?
  }

  /** An interrupted diagnostic has failed; any other interrupted work has unknown effects. */
  function Interrupt(r: Record): Record {
    if ReadOnlyAction(r.request.action) then
      r.(state := Failed, phase := ReadOnlyInterrupted)
    else
      r.(state := RecoveryRequired, phase := ExecutorRestart)
  }

  /** A restore that completed on behalf of an earlier operation. */
  predicate Restored(r: Record) {
    r.state.Succeeded? && r.request.action.ProfileRestore? && r.request.parent != 0
  }

  /** `id` awaits recovery in the chain that `restore` recovered. */
  predicate Open(j: Journal, roots: map<Id, Id>, restore: Id, id: Id) {
    id in j && id != restore && j[id].state.RecoveryRequired? && SameChain(roots, restore, id)
  }

  predicate SettledFor(j: Journal, roots: map<Id, Id>, restore: Id) {
    forall id | id in j :: !Open(j, roots, restore, id)
  }

  predicate SettledBy(j: Journal, roots: map<Id, Id>) {
    forall s | s in j && Restored(j[s]) :: SettledFor(j, roots, s)
  }

  /** No completed restore has an unresolved record left in its chain. */
  predicate Settled(j: Journal) {
    SettledBy(j, RootsOf(j))
  }

  predicate StartedBefore(a: Record, b: Record) {
    a.startedAt != 0 && b.startedAt != 0 && a.startedAt < b.startedAt
  }

  /** When settlement refuses to choose: the chain does not resolve, or an unresolved
      member is not strictly older than the restore. */
  predicate Ambiguous(j: Journal, roots: map<Id, Id>, restore: Id)
    requires restore in j
  {
    || restore !in roots
    || exists id | id in j :: Open(j, roots, restore, id) && !StartedBefore(j[id], j[restore])
  }

  function SettledRecord(r: Record, restore: Id): Record {
    r.(state := Failed, phase := RecoveredBy(restore))
  }

  /** The admission rule of the recovery fence. */
  predicate RecoveryAdmits(j: Journal, roots: map<Id, Id>, q: Request) {
    if q.parent == 0 then
      forall id | id in j :: !j[id].state.RecoveryRequired?
    else
      && q.action.ProfileRestore?
      && q.parent in j
      && j[q.parent].state.RecoveryRequired?
      && HostRestoreRequired(j[q.parent].request.action)
      && j[q.parent].request.target == q.target
      && q.parent in roots
      && forall id | id in j && j[id].state.RecoveryRequired? :: SameChain(roots, q.parent, id)
  }

  // ---------------------------------------------------------------------------
  // What every journal written by the helper satisfies.

  /** Awaiting recovery, or bound to if the helper stops now. */
  predicate Unresolved(r: Record) {
    r.state.RecoveryRequired? || (Interrupted(r) && !ReadOnlyAction(r.request.action))
  }

  predicate RecordOk(r: Record, id: Id, clock: nat) {
    && r.request.id == id != 0
    && 0 < r.startedAt <= clock
    && !r.state.Queued?
    && (r.request.parent != 0 ==> r.request.action.ProfileRestore?)
    && (Unresolved(r) ==> HostRestoreRequired(r.request.action))
  }

  /** The record in progress is the last one started, and nothing in its chain succeeded. */
  predicate RunningOk(j: Journal, roots: map<Id, Id>, r: Id)
    requires r in j
  {
    forall m | m in j && m != r ::
      && j[m].startedAt < j[r].startedAt
      && (SameChain(roots, m, r) ==> !j[m].state.Succeeded? && j[r].request.parent != 0)
  }

  /** A success closes its chain: a completed restore is the last-started member and the
      only success, and a first-time success is alone. */
  predicate SuccessOk(j: Journal, roots: map<Id, Id>, s: Id)
    requires s in j
  {
    forall m | m in j && m != s && SameChain(roots, m, s) ::
      && j[s].request.parent != 0
      && j[m].startedAt < j[s].startedAt
      && !j[m].state.Succeeded?
      && !j[m].state.Running?
  }

  predicate ConsistentBy(j: Journal, roots: map<Id, Id>, clock: nat) {
    && roots.Keys == j.Keys
    && (forall id | id in j :: RecordOk(j[id], id, clock))
    && (forall a, b | a in j && b in j && Unresolved(j[a]) && Unresolved(j[b]) :: SameChain(roots, a, b))
    && (forall r | r in j && j[r].state.Running? :: RunningOk(j, roots, r))
    && (forall s | s in j && j[s].state.Succeeded? :: SuccessOk(j, roots, s))
  }

  /** Every link resolves, all unresolved records lie in one chain, at most one record is
      in progress, and a success closes its chain. */
  predicate Consistent(j: Journal, clock: nat) {
    ConsistentBy(j, RootsOf(j), clock)
  }

  // ---------------------------------------------------------------------------
  // How each kind of write keeps that.

  lemma SameRoots(j: Journal, id: Id, r: Record)
    requires id in j && r.request == j[id].request
    ensures RootsOf(j[id := r]) == RootsOf(j)
  {
    assert LinksOf(j[id := r]) == LinksOf(j);
  }

  /** The changes of a record's state that the helper writes. */
  predicate Progress(before: Record, after: Record) {
    && after == before.(state := after.state, phase := after.phase)
    && match after.state
       case Failed => !before.state.Succeeded?
       case RecoveryRequired => before.state.Running? && !ReadOnlyAction(before.request.action)
       case Running => before.state.Running?
       case Succeeded => before.state.Running?
       case _ => false
  }

  lemma ProgressConsistentBy(j: Journal, roots: map<Id, Id>, clock: nat, id: Id, r: Record)
    requires ConsistentBy(j, roots, clock) && id in j && Progress(j[id], r)
    ensures ConsistentBy(j[id := r], roots, clock)
  {
    var k := j[id := r];
    forall s | s in k && k[s].state.Succeeded?
      ensures SuccessOk(k, roots, s)
    {
      if s == id {
        assert RunningOk(j, roots, id);
      } else {
        assert SuccessOk(j, roots, s);
      }
    }
    forall s | s in k && k[s].state.Running?
      ensures RunningOk(k, roots, s)
    {
      assert RunningOk(j, roots, s);
      if r.state.Succeeded? { assert RunningOk(j, roots, id); }
    }
  }

  lemma ProgressConsistent(j: Journal, clock: nat, id: Id, r: Record)
    requires Consistent(j, clock) && id in j && Progress(j[id], r)
    ensures Consistent(j[id := r], clock)
  {
    SameRoots(j, id, r);
    ProgressConsistentBy(j, RootsOf(j), clock, id, r);
  }

  /** On a settled journal nothing has succeeded in the chain of a record awaiting recovery. */
  lemma NothingSucceededHere(j: Journal, roots: map<Id, Id>, clock: nat, p: Id)
    requires ConsistentBy(j, roots, clock) && SettledBy(j, roots) && p in j && j[p].state.RecoveryRequired?
    ensures forall m | m in j && SameChain(roots, m, p) :: !j[m].state.Succeeded?
  {
    forall m | m in j && SameChain(roots, m, p) && j[m].state.Succeeded?
      ensures false
    {
      assert SuccessOk(j, roots, m);
      assert SettledFor(j, roots, m);
      assert Open(j, roots, m, p);
    }
  }

  /** The roots once a fresh record has joined the chain of its parent or started one. */
  function FreshRoots(roots: map<Id, Id>, q: Request): map<Id, Id>
    requires q.parent != 0 ==> q.parent in roots
  {
    roots[q.id := if q.parent == 0 then q.id else roots[q.parent]]
  }

  lemma FreshChains(j: Journal, roots: map<Id, Id>, q: Request)
    requires q.id !in j && q.id !in roots.Values && roots.Keys == j.Keys && (q.parent != 0 ==> q.parent in roots)
    ensures forall a, b | a in j && b in j :: SameChain(FreshRoots(roots, q), a, b) == SameChain(roots, a, b)
    ensures forall a | a in j :: SameChain(FreshRoots(roots, q), a, q.id) == (q.parent != 0 && SameChain(roots, a, q.parent))
  {
    forall a | a in j ensures roots[a] != q.id { assert roots[a] in roots.Values; }
  }

  /** A fresh, admitted request over a consistent, settled and idle journal. */
  predicate FreshOk(j: Journal, roots: map<Id, Id>, clock: nat, r: Record) {
    && ConsistentBy(j, roots, clock) && SettledBy(j, roots)
    && (forall id | id in j :: !j[id].state.Running?)
    && r.request.id !in j && r.request.id != 0 && HostAction(r.request.action) && RecoveryAdmits(j, roots, r.request)
    && clock < r.startedAt && r.state.Running? && r.request.id !in roots.Values
  }

  lemma FreshRecords(j: Journal, roots: map<Id, Id>, clock: nat, r: Record, k: Journal)
    requires FreshOk(j, roots, clock, r) && k == j[r.request.id := r]
    ensures forall id | id in k :: RecordOk(k[id], id, r.startedAt)
  {
    forall id | id in k && id in j ensures RecordOk(k[id], id, r.startedAt) { assert RecordOk(j[id], id, clock); }
  }

  lemma FreshUnresolved(j: Journal, roots: map<Id, Id>, clock: nat, r: Record, k: Journal)
    requires FreshOk(j, roots, clock, r) && k == j[r.request.id := r]
    ensures forall a, b | a in k && b in k && Unresolved(k[a]) && Unresolved(k[b]) :: SameChain(FreshRoots(roots, r.request), a, b)
  {
    FreshChains(j, roots, r.request);
  }

  lemma FreshRunning(j: Journal, roots: map<Id, Id>, clock: nat, r: Record)
    requires FreshOk(j, roots, clock, r)
    ensures RunningOk(j[r.request.id := r], FreshRoots(roots, r.request), r.request.id)
  {
    FreshChains(j, roots, r.request);
    if r.request.parent != 0 { NothingSucceededHere(j, roots, clock, r.request.parent); }
  }

  lemma FreshSuccess(j: Journal, roots: map<Id, Id>, clock: nat, r: Record, s: Id)
    requires FreshOk(j, roots, clock, r) && s in j && j[s].state.Succeeded?
    ensures SuccessOk(j[r.request.id := r], FreshRoots(roots, r.request), s)
  {
    FreshChains(j, roots, r.request);
    if r.request.parent != 0 { NothingSucceededHere(j, roots, clock, r.request.parent); }
    assert SuccessOk(j, roots, s);
  }

  lemma FreshSettled(j: Journal, roots: map<Id, Id>, clock: nat, r: Record)
    requires FreshOk(j, roots, clock, r)
    ensures SettledBy(j[r.request.id := r], FreshRoots(roots, r.request))
  {
    FreshChains(j, roots, r.request);
    var k, roots' := j[r.request.id := r], FreshRoots(roots, r.request);
    forall s, id | s in k && Restored(k[s]) && id in k && Open(k, roots', s, id)
      ensures false
    {
      assert Open(j, roots, s, id);
    }
  }

  lemma FreshConsistentBy(j: Journal, roots: map<Id, Id>, clock: nat, r: Record)
    requires FreshOk(j, roots, clock, r)
    ensures ConsistentBy(j[r.request.id := r], FreshRoots(roots, r.request), r.startedAt)
    ensures SettledBy(j[r.request.id := r], FreshRoots(roots, r.request))
  {
    var k, roots' := j[r.request.id := r], FreshRoots(roots, r.request);
    FreshRecords(j, roots, clock, r, k);
    FreshUnresolved(j, roots, clock, r, k);
    FreshRunning(j, roots, clock, r);
    FreshSettled(j, roots, clock, r);
    forall s | s in k && k[s].state.Succeeded? ensures SuccessOk(k, roots', s) { FreshSuccess(j, roots, clock, r, s); }
  }

  /** A fresh request is recorded when the fence admits it on a settled journal. */
  lemma FreshConsistent(j: Journal, clock: nat, r: Record)
    requires Consistent(j, clock) && Settled(j)
    requires forall id | id in j :: !j[id].state.Running?
    requires var q := r.request;
             q.id !in j && q.id != 0 && q.target != 0 && HostAction(q.action) && RecoveryAdmits(j, RootsOf(j), q)
    requires clock < r.startedAt && r.state.Running?
    ensures Consistent(j[r.request.id := r], r.startedAt)
    ensures Settled(j[r.request.id := r])
  {
    var q := r.request;
    var link := Link(q.parent, q.target, q.action);
    assert LinksOf(j[q.id := r]) == LinksOf(j)[q.id := link];
    RootsOfFresh(LinksOf(j), q.id, link);
    FreshConsistentBy(j, RootsOf(j), clock, r);
  }
}
