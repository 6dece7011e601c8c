/** CPU topology evidence (`SanitizeHardware` in internal/hostexec/hardware.go). */
module Topology {

  /** A field of the decoded report. */
  datatype Field = Missing | NotANumber | Num(value: real)

  datatype Cpu = Cpu(id: Field, core: Field, socket: Field, siblings: seq<Field>)

  function Number(f: Field): real {
    if f.Num? then f.value else 0.0
  }

  // ---------------------------------------------------------------------------
  // What the report has to say.

  predicate SameCore(a: Cpu, b: Cpu) {
    a.core == b.core && a.socket == b.socket
  }

  /** The identifiers of all CPUs that report the same core and socket as `c`. */
  function Class(cpus: seq<Cpu>, c: Cpu): set<real> {
    set i | 0 <= i < |cpus| && SameCore(cpus[i], c) :: Number(cpus[i].id)
  }

  function Ids(cpus: seq<Cpu>): set<real> {
    set i | 0 <= i < |cpus| :: Number(cpus[i].id)
  }

  function Listed(siblings: seq<Field>): set<real> {
    set i | 0 <= i < |siblings| :: Number(siblings[i])
  }

  predicate EntryOk(cpus: seq<Cpu>, i: nat)
    requires i < |cpus|
  {
    && cpus[i].id.Num? && !cpus[i].core.Missing? && !cpus[i].socket.Missing?
    && Number(cpus[i].id) !in Ids(cpus[..i])
    && 0 < |cpus[i].siblings| == |cpus[0].siblings|
  }

  predicate SiblingOk(siblings: seq<Field>, j: nat, expected: set<real>)
    requires j < |siblings|
  {
    siblings[j].Num? && siblings[j].value in expected && siblings[j].value !in Listed(siblings[..j])
  }

  predicate CoreOk(cpus: seq<Cpu>, i: nat)
    requires i < |cpus|
  {
    var c := cpus[i];
    && c.core.Num? && c.socket.Num? && c.core.value >= 0.0 && c.socket.value >= 0.0
    && (forall j | 0 <= j < |c.siblings| :: SiblingOk(c.siblings, j, Class(cpus, c)))
    && |Listed(c.siblings)| == |Class(cpus, c)|
  }

  predicate TopologyOk(online: seq<Field>, cpus: seq<Cpu>) {
    && 0 < |online| == |cpus|
    && (forall i | 0 <= i < |cpus| :: EntryOk(cpus, i))
    && (forall i | 0 <= i < |online| :: online[i].Num? && online[i].value in Ids(cpus))
    && (forall i | 0 <= i < |cpus| :: CoreOk(cpus, i))
  }

  // ---------------------------------------------------------------------------
  // The check.

  lemma IdsStep(cpus: seq<Cpu>, i: nat)
    requires i < |cpus|
    ensures Ids(cpus[..i + 1]) == Ids(cpus[..i]) + {Number(cpus[i].id)}
  {
    assert forall k | 0 <= k < i :: cpus[..i + 1][k] == cpus[..i][k];
    assert cpus[..i + 1][i] == cpus[i];
    forall x | x in Ids(cpus[..i]) ensures x in Ids(cpus[..i + 1]) {
      var k :| 0 <= k < i && x == Number(cpus[..i][k].id);
      assert x == Number(cpus[..i + 1][k].id);
    }
  }

  lemma ListedStep(siblings: seq<Field>, j: nat)
    requires j < |siblings|
    ensures Listed(siblings[..j + 1]) == Listed(siblings[..j]) + {Number(siblings[j])}
  {
    assert siblings[..j + 1][j] == siblings[j];
    forall x | x in Listed(siblings[..j]) ensures x in Listed(siblings[..j + 1]) {
      var k :| 0 <= k < j && x == Number(siblings[..j][k]);
      assert x == Number(siblings[..j + 1][k]);
    }
  }

  /** The CPUs entered one by one; `width` is the number of siblings they all have. */
  method CheckEntries(cpus: seq<Cpu>) returns (ok: bool, seen: set<real>, width: nat)
    ensures ok <==> forall i | 0 <= i < |cpus| :: EntryOk(cpus, i)
    ensures seen == Ids(cpus)
    ensures ok && cpus != [] ==> width == |cpus[0].siblings|
  {
    ok, seen, width := true, {}, 0;
    for i := 0 to |cpus|
      invariant ok <==> forall k | 0 <= k < i :: EntryOk(cpus, k)
      invariant seen == Ids(cpus[..i])
      invariant ok && i > 0 ==> width == |cpus[0].siblings| > 0
      invariant i == 0 ==> width == 0
    {
      var c := cpus[i];
      var good := true;
      if !c.id.Num? || Number(c.id) in seen || |c.siblings| == 0 || c.core.Missing? || c.socket.Missing? {
        good := false;
      }
      IdsStep(cpus, i);
      seen := seen + {Number(c.id)};
      if width == 0 {
        width := |c.siblings|;
      } else if width != |c.siblings| {
        good := false;
      }
      assert ok ==> (good <==> EntryOk(cpus, i));
      ok := ok && good;
    }
    assert cpus[..|cpus|] == cpus;
  }

  method ExpectedSiblings(cpus: seq<Cpu>, c: Cpu) returns (expected: set<real>)
    ensures expected == Class(cpus, c)
  {
    expected := {};
    for i := 0 to |cpus|
      invariant expected == set k | 0 <= k < i && SameCore(cpus[k], c) :: Number(cpus[k].id)
    {
      if cpus[i].core == c.core && cpus[i].socket == c.socket {
        expected := expected + {Number(cpus[i].id)};
      }
    }
  }

  method CheckSiblings(siblings: seq<Field>, expected: set<real>) returns (ok: bool)
    ensures ok <==> (forall j | 0 <= j < |siblings| :: SiblingOk(siblings, j, expected)) && |Listed(siblings)| == |expected|
  {
    ok := true;
    var listed: set<real> := {};
    for j := 0 to |siblings|
      invariant ok <==> forall k | 0 <= k < j :: SiblingOk(siblings, k, expected)
      invariant listed == Listed(siblings[..j])
    {
      var n := Number(siblings[j]);
      if !siblings[j].Num? || n !in expected || n in listed {
        assert !SiblingOk(siblings, j, expected);
        ok := false;
      }
      ListedStep(siblings, j);
      listed := listed + {n};
    }
    assert siblings[..|siblings|] == siblings;
    if |listed| != |expected| {
      ok := false;
    }
  }

  method CheckCore(cpus: seq<Cpu>, i: nat) returns (ok: bool)
    requires i < |cpus|
    ensures ok <==> CoreOk(cpus, i)
  {
    var c := cpus[i];
    if !c.core.Num? || !c.socket.Num? || c.core.value < 0.0 || c.socket.value < 0.0 {
      return false;
    }
    var expected := ExpectedSiblings(cpus, c);
    ok := CheckSiblings(c.siblings, expected);
  }

  /** Reports the topology as known exactly if the evidence is consistent. */
  method SanitizeTopology(online: seq<Field>, cpus: seq<Cpu>) returns (known: bool, threads: nat, smtWidth: nat, reserved: nat)
    ensures known <==> TopologyOk(online, cpus)
    ensures threads == |online|
    ensures known ==> smtWidth == |cpus[0].siblings| && reserved == 3 * smtWidth
  {
    threads, smtWidth, reserved := |online|, 0, 0;
    known := |online| > 0 && |cpus| == |online|;
    var entries, seen, width := CheckEntries(cpus);
    known := known && entries;
    for i := 0 to |online|
      invariant known <==>
                0 < |online| == |cpus| && entries && forall k | 0 <= k < i :: online[k].Num? && online[k].value in Ids(cpus)
    {
      if !online[i].Num? || online[i].value !in seen {
        known := false;
      }
    }
    ghost var before := known;
    for i := 0 to |cpus|
      invariant known <==> before && forall k | 0 <= k < i :: CoreOk(cpus, k)
    {
      var core := CheckCore(cpus, i);
      if !core {
        known := false;
      }
    }
    if known {
      smtWidth, reserved := width, 3 * width;
    }
  }

  // ---------------------------------------------------------------------------
  // What a known topology means.

  lemma SubsetOfSameSize(a: set<real>, b: set<real>)
    requires a <= b && |a| == |b|
    ensures a == b
  {
    assert |b - a| == |b| - |a|;
    assert b == a + (b - a);
  }

  lemma {:induction false} DistinctSize(siblings: seq<Field>, n: nat)
    requires n <= |siblings| && forall j | 0 <= j < n :: siblings[j].Num? && siblings[j].value !in Listed(siblings[..j])
    ensures |Listed(siblings[..n])| == n
  {
    if n > 0 {
      DistinctSize(siblings, n - 1);
      ListedStep(siblings, n - 1);
    } else {
      assert Listed(siblings[..0]) == {};
    }
  }

  /** The siblings a CPU lists are exactly the CPUs of its core and socket, as many as the
      SMT width says, itself among them. */
  lemma SiblingsAreTheClass(online: seq<Field>, cpus: seq<Cpu>, i: nat)
    requires TopologyOk(online, cpus) && i < |cpus|
    ensures Listed(cpus[i].siblings) == Class(cpus, cpus[i])
    ensures |Class(cpus, cpus[i])| == |cpus[0].siblings| > 0
    ensures Number(cpus[i].id) in Listed(cpus[i].siblings)
  {
    var c := cpus[i];
    assert EntryOk(cpus, i) && CoreOk(cpus, i);
    assert Listed(c.siblings) <= Class(cpus, c) by {
      forall x | x in Listed(c.siblings) ensures x in Class(cpus, c) {
        var j :| 0 <= j < |c.siblings| && x == Number(c.siblings[j]);
        assert SiblingOk(c.siblings, j, Class(cpus, c));
      }
    }
    SubsetOfSameSize(Listed(c.siblings), Class(cpus, c));
    forall j | 0 <= j < |c.siblings| ensures c.siblings[j].Num? && c.siblings[j].value !in Listed(c.siblings[..j]) {
      assert SiblingOk(c.siblings, j, Class(cpus, c));
    }
    DistinctSize(c.siblings, |c.siblings|);
    assert c.siblings[..|c.siblings|] == c.siblings;
    assert SameCore(c, c);
  }

  /** A CPU has one identifier, and an identifier one CPU. */
  lemma IdsAreDistinct(online: seq<Field>, cpus: seq<Cpu>, i: nat, k: nat)
    requires TopologyOk(online, cpus) && i < |cpus| && k < |cpus| && Number(cpus[i].id) == Number(cpus[k].id)
    ensures i == k
  {
    if i < k {
      LaterIdDiffers(cpus, i, k);
    } else if k < i {
      LaterIdDiffers(cpus, k, i);
    }
  }

  lemma LaterIdDiffers(cpus: seq<Cpu>, i: nat, k: nat)
    requires i < k < |cpus| && EntryOk(cpus, k)
    ensures Number(cpus[i].id) != Number(cpus[k].id)
  {
    assert cpus[..k][i] == cpus[i];
    assert Number(cpus[i].id) in Ids(cpus[..k]);
  }

  /** Sibling lists partition the CPUs: two of them are equal or have nothing in common. */
  lemma SiblingsPartition(online: seq<Field>, cpus: seq<Cpu>, i: nat, k: nat)
    requires TopologyOk(online, cpus) && i < |cpus| && k < |cpus|
    ensures Listed(cpus[i].siblings) == Listed(cpus[k].siblings) || Listed(cpus[i].siblings) !! Listed(cpus[k].siblings)
    ensures Listed(cpus[i].siblings) == Listed(cpus[k].siblings) <==> SameCore(cpus[i], cpus[k])
  {
    SiblingsAreTheClass(online, cpus, i);
    SiblingsAreTheClass(online, cpus, k);
    if SameCore(cpus[i], cpus[k]) {
      assert forall m | 0 <= m < |cpus| :: SameCore(cpus[m], cpus[i]) <==> SameCore(cpus[m], cpus[k]);
    } else {
      forall x | x in Class(cpus, cpus[i]) && x in Class(cpus, cpus[k]) ensures false {
        var a :| 0 <= a < |cpus| && SameCore(cpus[a], cpus[i]) && x == Number(cpus[a].id);
        var b :| 0 <= b < |cpus| && SameCore(cpus[b], cpus[k]) && x == Number(cpus[b].id);
        IdsAreDistinct(online, cpus, a, b);
      }
    }
  }

  /** With each CPU, `part` holds its whole core. */
  predicate WholeCores(cpus: seq<Cpu>, part: set<real>) {
    && part <= Ids(cpus)
    && forall i | 0 <= i < |cpus| && Number(cpus[i].id) in part :: Class(cpus, cpus[i]) <= part
  }

  lemma {:induction false} WholeCoresDivide(online: seq<Field>, cpus: seq<Cpu>, part: set<real>)
    requires TopologyOk(online, cpus) && WholeCores(cpus, part)
    ensures exists cores: nat :: |part| == cores * |cpus[0].siblings|
    decreases |part|
  {
    var width := |cpus[0].siblings|;
    if part == {} {
      assert |part| == 0 * width;
      return;
    }
    var x :| x in part;
    var i :| 0 <= i < |cpus| && x == Number(cpus[i].id);
    SiblingsAreTheClass(online, cpus, i);
    var core := Class(cpus, cpus[i]);
    var rest := part - core;
    RestIsWhole(online, cpus, part, i);
    assert |rest| == |part| - |core|;
    WholeCoresDivide(online, cpus, rest);
    var cores: nat :| |rest| == cores * width;
    assert |part| == (cores + 1) * width;
  }

  lemma MultipleDivides(cores: nat, width: nat)
    requires width > 0
    ensures (cores * width) % width == 0
  {
    var n := cores * width;
    var d := cores - n / width;
    assert width * d == n % width;
    Scaling(width, d);
  }

  lemma Scaling(width: int, d: int)
    requires width > 0
    ensures d >= 1 ==> width * d >= width
    ensures d <= -1 ==> width * d <= -width
  {
    if d <= -1 { assert width * -d >= width; }
  }

  lemma RestIsWhole(online: seq<Field>, cpus: seq<Cpu>, part: set<real>, i: nat)
    requires TopologyOk(online, cpus) && WholeCores(cpus, part) && i < |cpus| && Number(cpus[i].id) in part
    ensures WholeCores(cpus, part - Class(cpus, cpus[i]))
  {
    var rest := part - Class(cpus, cpus[i]);
    forall k | 0 <= k < |cpus| && Number(cpus[k].id) in rest ensures Class(cpus, cpus[k]) <= rest {
      SiblingsAreTheClass(online, cpus, i);
      SiblingsAreTheClass(online, cpus, k);
      SiblingsPartition(online, cpus, i, k);
    }
  }

  lemma {:induction false} CountIds(cpus: seq<Cpu>, n: nat)
    requires n <= |cpus| && forall i | 0 <= i < n :: EntryOk(cpus, i)
    ensures |Ids(cpus[..n])| == n
  {
    if n > 0 {
      CountIds(cpus, n - 1);
      IdsStep(cpus, n - 1);
      assert EntryOk(cpus, n - 1);
    } else {
      assert Ids(cpus[..0]) == {};
    }
  }

  /** The SMT width divides the number of CPU threads. */
  lemma WidthDividesThreads(online: seq<Field>, cpus: seq<Cpu>)
    requires TopologyOk(online, cpus)
    ensures |cpus[0].siblings| > 0 && |online| % |cpus[0].siblings| == 0
  {
    CountIds(cpus, |cpus|);
    assert cpus[..|cpus|] == cpus;
    SiblingsAreTheClass(online, cpus, 0);
    WholeCoresDivide(online, cpus, Ids(cpus));
    var cores: nat :| |Ids(cpus)| == cores * |cpus[0].siblings|;
    MultipleDivides(cores, |cpus[0].siblings|);
  }
}
