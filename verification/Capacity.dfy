/** The two accountings of node capacity: the inventory a draft is validated against, and
    the check before a deployment is applied (internal/hostexec/inventory.go,
    internal/hostexec/runtime.go, internal/domain/types.go). */
module Capacity {
  import opened Domain

  datatype Resource = Cpu | Memory | Gpu

  /** A resource quantity as found: CPU in thousandths, memory in bytes. */
  datatype Quantity = Absent | Unparsable | Amount(n: nat)

  datatype Requests = Requests(cpu: Quantity, memory: Quantity, gpu: Quantity)

  datatype Container = Container(requests: Requests, restartable: bool)

  datatype Pod = Pod(
    finished: bool,                  // succeeded or failed
    owners: seq<Id>,
    onTarget: bool,
    podLevel: bool,                  // has resources of its own
    containers: seq<Container>,
    inits: seq<Container>,
    overhead: Requests)

  datatype Node = Node(cpu: Quantity, memory: Quantity, gpu: Quantity)

  function Asked(r: Requests, key: Resource): Quantity {
    match key case Cpu => r.cpu case Memory => r.memory case Gpu => r.gpu
  }

  function Value(q: Quantity): nat {
    if q.Amount? then q.n else 0
  }

  // ---------------------------------------------------------------------------
  // One pod.

  function Sum(cs: seq<Container>, key: Resource): nat {
    if cs == [] then 0 else Sum(cs[..|cs| - 1], key) + Value(Asked(cs[|cs| - 1].requests, key))
  }

  function Largest(cs: seq<Container>, key: Resource): nat {
    if cs == [] then 0
    else
      var front, last := Largest(cs[..|cs| - 1], key), Value(Asked(cs[|cs| - 1].requests, key));
      if last > front then last else front
  }

  /** Can the pod be accounted for at all? */
  predicate Accountable(p: Pod) {
    && !p.podLevel
    && forall key: Resource :: AccountableFor(p, key)
  }

  predicate AccountableFor(p: Pod, key: Resource) {
    && (forall i | 0 <= i < |p.containers| :: !Asked(p.containers[i].requests, key).Unparsable?)
    && (forall i | 0 <= i < |p.inits| :: !p.inits[i].restartable && !Asked(p.inits[i].requests, key).Unparsable?)
    && !Asked(p.overhead, key).Unparsable?
  }

  /** Init containers run one after the other before the others run together. */
  function Budget(p: Pod, key: Resource): nat {
    var sum, init := Sum(p.containers, key), Largest(p.inits, key);
    (if init > sum then init else sum) + Value(Asked(p.overhead, key))
  }

  lemma SumStep(cs: seq<Container>, i: nat, key: Resource)
    requires i < |cs|
    ensures Sum(cs[..i + 1], key) == Sum(cs[..i], key) + Value(Asked(cs[i].requests, key))
  {
    assert cs[..i + 1][..i] == cs[..i];
  }

  lemma LargestStep(cs: seq<Container>, i: nat, key: Resource)
    requires i < |cs|
    ensures var front, last := Largest(cs[..i], key), Value(Asked(cs[i].requests, key));
            Largest(cs[..i + 1], key) == if last > front then last else front
  {
    assert cs[..i + 1][..i] == cs[..i];
  }

  method SumRequests(cs: seq<Container>, key: Resource) returns (r: Option<nat>)
    ensures r.Some? <==> forall i | 0 <= i < |cs| :: !Asked(cs[i].requests, key).Unparsable?
    ensures r.Some? ==> r.value == Sum(cs, key)
  {
    var sum: nat := 0;
    for i := 0 to |cs|
      invariant sum == Sum(cs[..i], key)
      invariant forall k | 0 <= k < i :: !Asked(cs[k].requests, key).Unparsable?
    {
      SumStep(cs, i, key);
      var v := Asked(cs[i].requests, key);
      if v.Unparsable? {
        return None;
      }
      if v.Amount? {
        sum := sum + v.n;
      }
    }
    assert cs[..|cs|] == cs;
    return Some(sum);
  }

  method LargestInit(cs: seq<Container>, key: Resource) returns (r: Option<nat>)
    ensures r.Some? <==> forall i | 0 <= i < |cs| :: !cs[i].restartable && !Asked(cs[i].requests, key).Unparsable?
    ensures r.Some? ==> r.value == Largest(cs, key)
  {
    var maxInit: nat := 0;
    for i := 0 to |cs|
      invariant maxInit == Largest(cs[..i], key)
      invariant forall k | 0 <= k < i :: !cs[k].restartable && !Asked(cs[k].requests, key).Unparsable?
    {
      LargestStep(cs, i, key);
      var v := Asked(cs[i].requests, key);
      if cs[i].restartable || v.Unparsable? {
        return None;
      }
      if v.Amount? && v.n > maxInit {
        maxInit := v.n;
      }
    }
    assert cs[..|cs|] == cs;
    return Some(maxInit);
  }

  method BudgetFor(p: Pod, key: Resource) returns (r: Option<nat>)
    ensures r.Some? <==> AccountableFor(p, key)
    ensures r.Some? ==> r.value == Budget(p, key)
  {
    var sum := SumRequests(p.containers, key);
    if sum.None? {
      return None;
    }
    var maxInit := LargestInit(p.inits, key);
    if maxInit.None? {
      return None;
    }
    var total := if maxInit.value > sum.value then maxInit.value else sum.value;
    var v := Asked(p.overhead, key);
    if v.Unparsable? {
      return None;
    }
    if v.Amount? {
      total := total + v.n;
    }
    return Some(total);
  }

  method PodBudget(p: Pod) returns (r: Option<(nat, nat, nat)>)
    ensures r.Some? <==> Accountable(p)
    ensures r.Some? ==> r.value == (Budget(p, Cpu), Budget(p, Memory), Budget(p, Gpu))
  {
    if p.podLevel {
      return None;
    }
    var cpu := BudgetFor(p, Cpu);
    if cpu.None? {
      return None;
    }
    var memory := BudgetFor(p, Memory);
    if memory.None? {
      return None;
    }
    var gpu := BudgetFor(p, Gpu);
    if gpu.None? {
      return None;
    }
    forall key: Resource ensures AccountableFor(p, key) {
      assert key == Cpu || key == Memory || key == Gpu;
    }
    return Some((cpu.value, memory.value, gpu.value));
  }

  /** The budget is the least amount that covers the containers together and each init
      container alone, with the overhead on top. */
  lemma BudgetIsLeast(p: Pod, key: Resource, amount: nat)
    ensures Budget(p, key) <= amount <==>
            && Sum(p.containers, key) + Value(Asked(p.overhead, key)) <= amount
            && forall i | 0 <= i < |p.inits| :: Value(Asked(p.inits[i].requests, key)) + Value(Asked(p.overhead, key)) <= amount
  {
    LargestIsLeast(p.inits, key, amount - Value(Asked(p.overhead, key)));
  }

  lemma {:induction false} LargestIsLeast(cs: seq<Container>, key: Resource, amount: int)
    ensures amount >= 0 ==> (Largest(cs, key) <= amount <==> forall i | 0 <= i < |cs| :: Value(Asked(cs[i].requests, key)) <= amount)
  {
    if cs != [] {
      LargestIsLeast(cs[..|cs| - 1], key, amount);
    }
  }

  // ---------------------------------------------------------------------------
  // All pods.

  predicate Managed(p: Pod, managed: set<Id>) {
    exists i | 0 <= i < |p.owners| :: p.owners[i] in managed
  }

  /** Pods that count against capacity: unfinished and not the controller's own. */
  predicate Counts(p: Pod, managed: set<Id>) {
    !p.finished && !Managed(p, managed)
  }

  method IsManaged(p: Pod, managed: set<Id>) returns (skip: bool)
    ensures skip == Managed(p, managed)
  {
    skip := false;
    for i := 0 to |p.owners|
      invariant skip == exists k | 0 <= k < i :: p.owners[k] in managed
    {
      if p.owners[i] in managed {
        skip := true;
      }
    }
  }

  /** The total of the other workloads on the node. */
  function Used(pods: seq<Pod>, managed: set<Id>, key: Resource): nat {
    if pods == [] then 0
    else
      var p := pods[|pods| - 1];
      Used(pods[..|pods| - 1], managed, key) + (if Counts(p, managed) && p.onTarget then Budget(p, key) else 0)
  }

  function CeilDiv(n: nat, d: nat): nat
    requires d > 0
  {
    (n + d - 1) / d
  }

  /** The same, rounded up pod by pod to whole units. */
  function UsedUnits(pods: seq<Pod>, managed: set<Id>, key: Resource, unit: nat): nat
    requires unit > 0
  {
    if pods == [] then 0
    else
      var p := pods[|pods| - 1];
      UsedUnits(pods[..|pods| - 1], managed, key, unit) + (if Counts(p, managed) && p.onTarget then CeilDiv(Budget(p, key), unit) else 0)
  }

  /** GPUs are counted wherever the pod is, scheduled or not. */
  function GpusAnywhere(pods: seq<Pod>, managed: set<Id>): nat {
    if pods == [] then 0
    else
      var p := pods[|pods| - 1];
      GpusAnywhere(pods[..|pods| - 1], managed) + (if Counts(p, managed) then Budget(p, Gpu) else 0)
  }

  lemma Distribute(a: nat, b: nat, unit: nat)
    ensures (a + b) * unit == a * unit + b * unit
  {
  }

  lemma CeilCovers(n: nat, d: nat)
    requires d > 0
    ensures n <= CeilDiv(n, d) * d < n + d
  {
    assert (n + d - 1) == d * ((n + d - 1) / d) + (n + d - 1) % d;
  }

  /** Rounding up never hides usage. */
  lemma {:induction false} UnitsCover(pods: seq<Pod>, managed: set<Id>, key: Resource, unit: nat)
    requires unit > 0
    ensures Used(pods, managed, key) <= UsedUnits(pods, managed, key, unit) * unit
  {
    if pods != [] {
      var front, p := pods[..|pods| - 1], pods[|pods| - 1];
      UnitsCover(front, managed, key, unit);
      if Counts(p, managed) && p.onTarget {
        CeilCovers(Budget(p, key), unit);
        Distribute(UsedUnits(front, managed, key, unit), CeilDiv(Budget(p, key), unit), unit);
      }
    }
  }

  // ---------------------------------------------------------------------------
  // The inventory.

  const CORE: nat := 1000
  const MEBIBYTE: nat := 0x10_0000

  datatype Hardware = Hardware(
    threads: int, memoryMiB: int, gpus: nat,
    reservedCpu: int, hostReserveMiB: int, kubeReserveMiB: int,
    otherCpu: int, otherMemoryMiB: int, otherGpus: int)

  /** The accounting of the inventory: the observed hardware `h` completed by what the
      cluster reports, and whether that succeeded. */
  predicate Observed(h: Hardware, node: Node, pods: seq<Pod>, managed: set<Id>) {
    && (forall i | 0 <= i < |pods| && Counts(pods[i], managed) :: Accountable(pods[i]))
    && node.cpu.Amount? && node.memory.Amount?
    && h.threads - node.cpu.n / CORE >= 0
    && h.memoryMiB - node.memory.n / MEBIBYTE >= 0
  }

  method Snapshot(h: Hardware, node: Node, pods: seq<Pod>, managed: set<Id>) returns (inv: Hardware, available: bool)
    requires h.otherCpu == h.otherMemoryMiB == h.otherGpus == 0
    ensures available <==> Observed(h, node, pods, managed)
    ensures available ==>
              inv == h.(reservedCpu := h.threads - node.cpu.n / CORE,
                        hostReserveMiB := 0,
                        kubeReserveMiB := h.memoryMiB - node.memory.n / MEBIBYTE,
                        otherCpu := UsedUnits(pods, managed, Cpu, CORE),
                        otherMemoryMiB := UsedUnits(pods, managed, Memory, MEBIBYTE),
                        otherGpus := GpusAnywhere(pods, managed))
  {
    inv, available := h, false;
    for i := 0 to |pods|
      invariant forall k | 0 <= k < i && Counts(pods[k], managed) :: Accountable(pods[k])
      invariant inv == h.(otherCpu := UsedUnits(pods[..i], managed, Cpu, CORE),
                          otherMemoryMiB := UsedUnits(pods[..i], managed, Memory, MEBIBYTE),
                          otherGpus := GpusAnywhere(pods[..i], managed))
      invariant !available
    {
      assert pods[..i + 1][..i] == pods[..i];
      var p := pods[i];
      var skip := IsManaged(p, managed);
      if !p.finished && !skip {
        var b := PodBudget(p);
        if b.None? {
          return;
        }
        inv := inv.(otherGpus := inv.otherGpus + b.value.2);
        if p.onTarget {
          inv := inv.(otherCpu := inv.otherCpu + (b.value.0 + 999) / 1000,
                      otherMemoryMiB := inv.otherMemoryMiB + (b.value.1 + MEBIBYTE - 1) / MEBIBYTE);
        }
      }
    }
    assert pods[..|pods|] == pods;
    if !node.cpu.Amount? || !node.memory.Amount? {
      return;
    }
    inv := inv.(reservedCpu := h.threads - node.cpu.n / CORE, hostReserveMiB := 0,
                kubeReserveMiB := h.memoryMiB - node.memory.n / MEBIBYTE);
    available := inv.reservedCpu >= 0 && inv.kubeReserveMiB >= 0;
  }

  // ---------------------------------------------------------------------------
  // The check before applying.

  datatype Budgeted = Budgeted(cpu: nat, memoryMiB: nat, gpus: nat)

  function Wanted(r: Budgeted, key: Resource): nat {
    match key case Cpu => r.cpu * CORE case Memory => r.memoryMiB * MEBIBYTE case Gpu => r.gpus
  }

  function Allocatable(node: Node, key: Resource): Quantity {
    match key case Cpu => node.cpu case Memory => node.memory case Gpu => node.gpu
  }

  predicate Fits(r: Budgeted, node: Node, pods: seq<Pod>, managed: set<Id>, key: Resource) {
    Allocatable(node, key).Amount? && Used(pods, managed, key) + Wanted(r, key) <= Allocatable(node, key).n
  }

  /** Adds what one pod uses of a resource, counting its containers on the spot. */
  method Charge(p: Pod, key: Resource, used: nat) returns (ok: bool, total: nat)
    ensures ok <==> AccountableFor(p, key)
    ensures ok ==> total == used + Budget(p, key)
  {
    total := used;
    var sum: nat := 0;
    var i := 0;
    while i < |p.containers|
      invariant 0 <= i <= |p.containers| && sum == Sum(p.containers[..i], key)
      invariant forall k | 0 <= k < i :: !Asked(p.containers[k].requests, key).Unparsable?
    {
      var v := Asked(p.containers[i].requests, key);
      if v.Unparsable? {
        return false, total;
      }
      SumStep(p.containers, i, key);
      sum := sum + Value(v);
      i := i + 1;
    }
    assert p.containers[..i] == p.containers;
    ghost var containers := sum;
    i := 0;
    while i < |p.inits|
      invariant 0 <= i <= |p.inits|
      invariant sum == if Largest(p.inits[..i], key) > containers then Largest(p.inits[..i], key) else containers
      invariant forall k | 0 <= k < i :: !p.inits[k].restartable && !Asked(p.inits[k].requests, key).Unparsable?
    {
      var v := Asked(p.inits[i].requests, key);
      if p.inits[i].restartable || v.Unparsable? {
        return false, total;
      }
      LargestStep(p.inits, i, key);
      if Value(v) > sum {
        sum := Value(v);
      }
      i := i + 1;
    }
    assert p.inits[..i] == p.inits;
    if Asked(p.overhead, key).Unparsable? {
      return false, total;
    }
    return true, used + sum + Value(Asked(p.overhead, key));
  }

  method ChargeAll(p: Pod, before: map<Resource, nat>) returns (ok: bool, used: map<Resource, nat>)
    requires forall key: Resource :: key in before
    ensures ok <==> forall key: Resource :: AccountableFor(p, key)
    ensures ok ==> forall key: Resource :: key in used && used[key] == before[key] + Budget(p, key)
  {
    used := before;
    var total;
    ok, total := Charge(p, Cpu, used[Cpu]);
    if !ok {
      return;
    }
    used := used[Cpu := total];
    ok, total := Charge(p, Memory, used[Memory]);
    if !ok {
      return;
    }
    used := used[Memory := total];
    ok, total := Charge(p, Gpu, used[Gpu]);
    used := used[Gpu := total];
    forall key: Resource ensures key in used && (ok ==> AccountableFor(p, key) && used[key] == before[key] + Budget(p, key)) {
      assert key == Cpu || key == Memory || key == Gpu;
    }
  }

  predicate Chargeable(pods: seq<Pod>, managed: set<Id>) {
    forall i | 0 <= i < |pods| && Counts(pods[i], managed) && pods[i].onTarget :: Accountable(pods[i])
  }

  /** Accepts exactly if every pod that counts on the node is accountable and, resource by
      resource, the sum of their pod budgets and the wanted budget fits. */
  method CheckCapacity(r: Budgeted, node: Node, pods: seq<Pod>, managed: set<Id>) returns (ok: bool)
    ensures ok <==> Chargeable(pods, managed) && forall key: Resource :: Fits(r, node, pods, managed, key)
  {
    var keys := [Cpu, Memory, Gpu];
    var used := map[Cpu := 0, Memory := 0, Gpu := 0];
    forall key: Resource ensures key in used && used[key] == 0 {
      assert key == Cpu || key == Memory || key == Gpu;
    }
    for i := 0 to |pods|
      invariant Chargeable(pods[..i], managed)
      invariant forall key: Resource :: key in used && used[key] == Used(pods[..i], managed, key)
    {
      var p := pods[i];
      var skip := IsManaged(p, managed);
      if !p.finished && !skip && p.onTarget {
        assert !Accountable(p) ==> !Chargeable(pods, managed);
        if p.podLevel {
          return false;
        }
        ok, used := ChargeAll(p, used);
        if !ok {
          return;
        }
      }
      UsedStep(pods, i, managed);
    }
    assert pods[..|pods|] == pods;
    for n := 0 to 3
      invariant forall m | 0 <= m < n :: Fits(r, node, pods, managed, keys[m])
    {
      var available := Allocatable(node, keys[n]);
      if !available.Amount? || used[keys[n]] + Wanted(r, keys[n]) > available.n {
        assert !Fits(r, node, pods, managed, keys[n]);
        return false;
      }
    }
    forall key: Resource ensures Fits(r, node, pods, managed, key) {
      assert key == keys[0] || key == keys[1] || key == keys[2];
    }
    return true;
  }

  lemma UsedStep(pods: seq<Pod>, i: nat, managed: set<Id>)
    requires i < |pods|
    ensures forall key: Resource ::
              Used(pods[..i + 1], managed, key) ==
              Used(pods[..i], managed, key) + if Counts(pods[i], managed) && pods[i].onTarget then Budget(pods[i], key) else 0
    ensures Chargeable(pods[..i], managed) && (Counts(pods[i], managed) && pods[i].onTarget ==> Accountable(pods[i])) ==>
              Chargeable(pods[..i + 1], managed)
  {
    assert pods[..i + 1][..i] == pods[..i];
    assert forall k | 0 <= k < i :: pods[..i + 1][k] == pods[..i][k];
  }

  // ---------------------------------------------------------------------------
  // The two agree.

  /** The capacity test of draft validation. */
  predicate DraftFits(r: Budgeted, h: Hardware) {
    && r.cpu + h.reservedCpu + h.otherCpu <= h.threads
    && r.memoryMiB + h.hostReserveMiB + h.kubeReserveMiB + h.otherMemoryMiB <= h.memoryMiB
    && r.gpus + h.otherGpus <= h.gpus
  }

  /** The inventory for given pods, node and observed hardware. */
  function Inventory(h: Hardware, node: Node, pods: seq<Pod>, managed: set<Id>): Hardware
    requires Observed(h, node, pods, managed)
  {
    h.(reservedCpu := h.threads - node.cpu.n / CORE,
       hostReserveMiB := 0,
       kubeReserveMiB := h.memoryMiB - node.memory.n / MEBIBYTE,
       otherCpu := UsedUnits(pods, managed, Cpu, CORE),
       otherMemoryMiB := UsedUnits(pods, managed, Memory, MEBIBYTE),
       otherGpus := GpusAnywhere(pods, managed))
  }

  /** A budget accepted against the inventory passes the check before applying, for CPU and
      for memory, on the same pods and node. */
  lemma AcceptedDraftsFit(r: Budgeted, h: Hardware, node: Node, pods: seq<Pod>, managed: set<Id>)
    requires Observed(h, node, pods, managed) && DraftFits(r, Inventory(h, node, pods, managed))
    ensures Fits(r, node, pods, managed, Cpu) && Fits(r, node, pods, managed, Memory)
    ensures Chargeable(pods, managed)
  {
    UnitsCover(pods, managed, Cpu, CORE);
    UnitsCover(pods, managed, Memory, MEBIBYTE);
    var units, mib := UsedUnits(pods, managed, Cpu, CORE), UsedUnits(pods, managed, Memory, MEBIBYTE);
    WholeUnits(r.cpu + units, node.cpu.n, CORE);
    WholeUnits(r.memoryMiB + mib, node.memory.n, MEBIBYTE);
  }

  lemma WholeUnits(a: nat, n: nat, unit: nat)
    requires unit > 0 && a <= n / unit
    ensures a * unit <= n
  {
    assert a * unit <= n / unit * unit;
  }

  /** GPUs counted wherever a pod is are no fewer than those counted on the node. */
  lemma {:induction false} GpusCover(pods: seq<Pod>, managed: set<Id>)
    ensures Used(pods, managed, Gpu) <= GpusAnywhere(pods, managed)
  {
    if pods != [] { GpusCover(pods[..|pods| - 1], managed); }
  }

  /** For GPUs the same holds when the node advertises as many as were observed. */
  lemma AcceptedDraftsFitGpus(r: Budgeted, h: Hardware, node: Node, pods: seq<Pod>, managed: set<Id>)
    requires Observed(h, node, pods, managed) && DraftFits(r, Inventory(h, node, pods, managed))
    requires node.gpu.Amount? && h.gpus <= node.gpu.n
    ensures forall key: Resource :: Fits(r, node, pods, managed, key)
  {
    AcceptedDraftsFit(r, h, node, pods, managed);
    GpusCover(pods, managed);
    forall key: Resource ensures Fits(r, node, pods, managed, key) {
      assert key == Cpu || key == Memory || key == Gpu;
    }
  }

  /** The bounds of draft validation on a budget. */
  predicate BudgetAllowed(r: Budgeted) {
    1 <= r.cpu <= 4096 && 1024 <= r.memoryMiB <= 0x4000_0000 && 1 <= r.gpus <= 2
  }

  /** On an otherwise empty node the condition is exact: an accepted budget for all observed
      GPUs fits exactly if the node advertises that many. */
  lemma AdvertisedGpusDecide(r: Budgeted, h: Hardware, node: Node)
    requires Observed(h, node, [], {}) && node.gpu.Amount?
    requires BudgetAllowed(r) && r.gpus == h.gpus && DraftFits(r, Inventory(h, node, [], {}))
    ensures (forall key: Resource :: Fits(r, node, [], {}, key)) <==> h.gpus <= node.gpu.n
  {
    AcceptedDraftsFit(r, h, node, [], {});
    assert Fits(r, node, [], {}, Gpu) <==> h.gpus <= node.gpu.n;
    forall key: Resource | h.gpus <= node.gpu.n ensures Fits(r, node, [], {}, key) {
      assert key == Cpu || key == Memory || key == Gpu;
    }
  }

  /** Two cards observed, one advertised: accepted, and then refused. */
  lemma UnadvertisedGpuIsAcceptedFirst()
    ensures var h := Hardware(8, 1024, 2, 0, 0, 0, 0, 0, 0); var node := Node(Amount(8000), Amount(1024 * MEBIBYTE), Amount(1));
            var r := Budgeted(1, 1024, 2);
            BudgetAllowed(r) && Observed(h, node, [], {}) && DraftFits(r, Inventory(h, node, [], {})) && !Fits(r, node, [], {}, Gpu)
  {
  }
}
