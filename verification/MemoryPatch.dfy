/** JSON documents and the two patches of a memory plan (internal/memory/plan.go;
    sections 4.3 and 4.6 of RFC 6902 and section 4 of RFC 6901). */
module Json {
  import opened Domain

  datatype Json =
    | Null
    | Bool(truth: bool)
    | Number(value: real)
    | Text(text: string)
    | List(items: seq<Json>)
    | Object(fields: map<string, Json>)

  /** The reference tokens of a JSON pointer. */
  type Path = seq<string>

  function Digit(n: nat): char
    requires n < 10
  {
    "0123456789"[n]
  }

  function Decimal(n: nat): (s: string)
    ensures |s| > 0
  {
    if n < 10 then [Digit(n)] else Decimal(n / 10) + [Digit(n % 10)]
  }

  /** The array index below `n`, from `i` on, that is written `token`. */
  function Position(token: string, i: nat, n: nat): (r: Option<nat>)
    requires i <= n
    ensures r.Some? ==> i <= r.value < n && Decimal(r.value) == token
    decreases n - i
  {
    if i == n then None else if Decimal(i) == token then Some(i) else Position(token, i + 1, n)
  }

  function Child(j: Json, token: string): Option<Json> {
    match j
    case Object(fields) => if token in fields then Some(fields[token]) else None
    case List(items) => (match Position(token, 0, |items|) case Some(i) => Some(items[i]) case None => None)
    case _ => None
  }

  function WithChild(j: Json, token: string, v: Json): Json
    requires Child(j, token).Some?
  {
    match j
    case Object(fields) => Object(fields[token := v])
    case List(items) => List(items[Position(token, 0, |items|).value := v])
  }

  function Get(j: Json, path: Path): Option<Json> {
    if path == [] then Some(j)
    else
      var c := Child(j, path[0]);
      if c.None? then None else Get(c.value, path[1..])
  }

  /** Replaces what `path` refers to, which has to exist. */
  function Put(j: Json, path: Path, v: Json): Option<Json> {
    if path == [] then Some(v)
    else
      var c := Child(j, path[0]);
      if c.None? then None
      else
        var below := Put(c.value, path[1..], v);
        if below.None? then None else Some(WithChild(j, path[0], below.value))
  }

  lemma ChildLaws(j: Json, token: string, v: Json)
    requires Child(j, token).Some?
    ensures Child(WithChild(j, token, v), token) == Some(v)
    ensures WithChild(j, token, Child(j, token).value) == j
    ensures forall w :: WithChild(WithChild(j, token, v), token, w) == WithChild(j, token, w)
    ensures forall other | other != token :: Child(WithChild(j, token, v), other) == Child(j, other)
  {
    match j
    case Object(fields) =>
      forall w: Json ensures WithChild(WithChild(j, token, v), token, w) == WithChild(j, token, w) {
        assert fields[token := v][token := w] == fields[token := w];
      }
      assert fields[token := fields[token]] == fields;
    case List(items) =>
      var i := Position(token, 0, |items|).value;
      forall w: Json ensures WithChild(WithChild(j, token, v), token, w) == WithChild(j, token, w) {
        assert items[i := v][i := w] == items[i := w];
      }
      assert items[i := items[i]] == items;
  }

  /** What was put is there, and putting back what was there undoes it. */
  lemma {:induction false} PutLaws(j: Json, path: Path, v: Json)
    ensures Put(j, path, v).Some? <==> Get(j, path).Some?
    ensures Get(j, path).Some? ==> Get(Put(j, path, v).value, path) == Some(v)
    ensures Get(j, path).Some? ==> Put(Put(j, path, v).value, path, Get(j, path).value) == Some(j)
  {
    if path != [] && Child(j, path[0]).Some? {
      var c := Child(j, path[0]).value;
      PutLaws(c, path[1..], v);
      if Put(c, path[1..], v).Some? {
        ChildLaws(j, path[0], Put(c, path[1..], v).value);
      }
    }
  }

  lemma {:induction false} GetThrough(j: Json, p: Path, q: Path)
    requires Get(j, p).Some?
    ensures Get(j, p + q) == Get(Get(j, p).value, q)
  {
    if p == [] {
      assert p + q == q;
    } else {
      assert (p + q)[1..] == p[1..] + q;
      GetThrough(Child(j, p[0]).value, p[1..], q);
    }
  }

  /** Replacing below `p` is replacing `p` by the changed value. */
  lemma {:induction false} PutThrough(j: Json, p: Path, q: Path, v: Json)
    requires Get(j, p).Some?
    ensures Put(j, p + q, v) == var below := Put(Get(j, p).value, q, v); if below.None? then None else Put(j, p, below.value)
  {
    if p == [] {
      assert p + q == q;
    } else {
      assert (p + q)[1..] == p[1..] + q;
      var c := Child(j, p[0]).value;
      PutThrough(c, p[1..], q, v);
      var below := Put(Get(j, p).value, q, v);
      if below.Some? { PutLaws(c, p[1..], below.value); }
    }
  }

  /** Neither path leads through the other. */
  predicate Apart(p: Path, q: Path) {
    !(p <= q) && !(q <= p)
  }

  lemma {:induction false} PutElsewhere(j: Json, p: Path, q: Path, v: Json)
    requires Get(j, p).Some? && Apart(p, q)
    ensures Put(j, p, v).Some? && Get(Put(j, p, v).value, q) == Get(j, q)
  {
    PutLaws(j, p, v);
    var c := Child(j, p[0]).value;
    PutLaws(c, p[1..], v);
    var c' := Put(c, p[1..], v).value;
    ChildLaws(j, p[0], c');
    if p[0] == q[0] {
      assert p == [p[0]] + p[1..] && q == [q[0]] + q[1..];
      PutElsewhere(c, p[1..], q[1..], v);
    }
  }

  // ---------------------------------------------------------------------------
  // JSON Patch. Only the two operations that plans may use have a meaning here.

  datatype Operator = TestOp | ReplaceOp | OtherOp
  datatype Edit = Edit(op: Operator, path: Path, value: Json)

  function ApplyEdit(doc: Json, e: Edit): Option<Json> {
    match e.op
    case TestOp => if Get(doc, e.path) == Some(e.value) then Some(doc) else None
    case ReplaceOp => Put(doc, e.path, e.value)
    case OtherOp => None
  }

  function ApplyPatch(doc: Json, patch: seq<Edit>): Option<Json>
    decreases |patch|
  {
    if patch == [] then Some(doc)
    else
      var d := ApplyEdit(doc, patch[0]);
      if d.None? then None else ApplyPatch(d.value, patch[1..])
  }

  // ---------------------------------------------------------------------------
  // Memory quantities.

  function DigitValue(c: char): Option<nat> {
    if '0' <= c <= '9' then Some(c as int - '0' as int) else None
  }

  /** Decimal notation without superfluous zeros. */
  function ParseDecimal(s: string): Option<nat> {
    if s == [] || (|s| > 1 && s[0] == '0') then None else Digits(s)
  }

  function Digits(s: string): Option<nat> {
    if s == [] then Some(0)
    else
      var high, low := Digits(s[..|s| - 1]), DigitValue(s[|s| - 1]);
      if high.None? || low.None? then None else Some(10 * high.value + low.value)
  }

  predicate Blank(c: char) {
    c == ' ' || c == '\t' || c == '\n' || c == '\r'
  }

  function Trim(s: string): string {
    if s != [] && Blank(s[0]) then Trim(s[1..])
    else if s != [] && Blank(s[|s| - 1]) then Trim(s[..|s| - 1])
    else s
  }

  const MAX_QUANTITY: nat := 0x4000_0000

  function MiB(v: Option<Json>): Option<nat> {
    if v.None? || !v.value.Text? || |v.value.text| < 2 then None
    else
      var s := v.value.text;
      var unit := s[|s| - 2..];
      var n := ParseDecimal(Trim(s[..|s| - 2]));
      if (unit != "Gi" && unit != "Mi") || n.None? || n.value == 0 || n.value > MAX_QUANTITY then None
      else Some(if unit == "Gi" then n.value * 1024 else n.value)
  }

  function Quantity(mib: nat): Json {
    Text(Decimal(mib) + "Mi")
  }

  lemma DigitReads(n: nat)
    requires n < 10
    ensures DigitValue(Digit(n)) == Some(n) && (Digit(n) == '0' <==> n == 0) && !Blank(Digit(n))
  {
  }

  lemma {:induction false} DecimalDigits(n: nat)
    ensures Digits(Decimal(n)) == Some(n)
    ensures n > 0 ==> Decimal(n)[0] != '0'
    ensures !Blank(Decimal(n)[0]) && !Blank(Decimal(n)[|Decimal(n)| - 1])
  {
    DigitReads(n % 10);
    var s := Decimal(n);
    if n < 10 {
      assert s[..|s| - 1] == [];
    } else {
      DecimalDigits(n / 10);
      assert s[..|s| - 1] == Decimal(n / 10);
    }
  }

  /** A written quantity reads back as itself. */
  lemma QuantityRoundTrip(mib: nat)
    requires 0 < mib <= MAX_QUANTITY
    ensures MiB(Some(Quantity(mib))) == Some(mib)
  {
    DecimalDigits(mib);
    var s := Decimal(mib) + "Mi";
    assert s[..|s| - 2] == Decimal(mib) && s[|s| - 2..] == "Mi";
  }
}

module MemoryPatch {
  import opened Domain
  import opened Json

  const SPEC: Path := ["spec", "template", "spec"]
  const RESOURCES: Path := ["containers", "0", "resources"]

  /** The spec with both memory quantities set to the candidate. */
  function WithMemory(resources: Json, v: Json): Option<Json> {
    var r := Put(resources, ["requests", "memory"], v);
    if r.None? then None else Put(r.value, ["limits", "memory"], v)
  }

  /** A spec with one container, named sglang, whose requests equal its limits. */
  predicate SpecOk(spec: Json, baseline: nat) {
    && Get(spec, ["containers"]).Some? && Get(spec, ["containers"]).value.List? && |Get(spec, ["containers"]).value.items| == 1
    && Get(spec, ["containers", "0", "name"]) == Some(Text("sglang"))
    && Get(spec, RESOURCES).Some?
    && var resources := Get(spec, RESOURCES).value;
       && resources.Object?
       && Get(resources, ["requests"]) == Get(resources, ["limits"])
       && MiB(Get(resources, ["limits", "memory"])) == Some(baseline)
  }

  predicate EditsOk(patch: seq<Edit>) {
    && |patch| == 2
    && patch[0].op.TestOp? && patch[0].path == SPEC
    && patch[1].op.ReplaceOp? && patch[1].path == SPEC + RESOURCES
  }

  /** What the validator accepts as the patch and the rollback of a plan for `doc`. */
  predicate PatchesOk(doc: Json, patch: seq<Edit>, rollback: seq<Edit>, baseline: nat, candidate: nat) {
    && EditsOk(patch) && EditsOk(rollback)
    && Get(doc, SPEC).Some?
    && var spec := Get(doc, SPEC).value;
       && SpecOk(spec, baseline)
       && patch[0].value == spec
       && var original := Get(spec, RESOURCES).value;
          var changed := WithMemory(original, Quantity(candidate));
          && changed.Some?
          && patch[1].value == changed.value
          && Some(rollback[0].value) == Put(spec, RESOURCES, changed.value)
          && rollback[1].value == original
  }

  lemma PatchApplies(doc: Json, patch: seq<Edit>)
    requires EditsOk(patch)
    ensures ApplyPatch(doc, patch) ==
              if Get(doc, SPEC) == Some(patch[0].value) then Put(doc, SPEC + RESOURCES, patch[1].value) else None
  {
    var rest := patch[1..];
    assert rest[1..] == [];
    var d := ApplyEdit(doc, patch[0]);
    if d.Some? {
      assert ApplyPatch(d.value, rest) == ApplyEdit(d.value, rest[0]) by {
        var d2 := ApplyEdit(d.value, rest[0]);
        if d2.Some? { assert ApplyPatch(d2.value, rest[1..]) == d2; }
      }
    }
  }

  /** The patch applies to the baseline and yields the candidate spec; the rollback applies
      to that and gives the baseline back exactly. */
  lemma PatchRoundTrip(doc: Json, patch: seq<Edit>, rollback: seq<Edit>, baseline: nat, candidate: nat)
    requires PatchesOk(doc, patch, rollback, baseline, candidate)
    ensures ApplyPatch(doc, patch).Some?
    ensures Get(ApplyPatch(doc, patch).value, SPEC) == Some(rollback[0].value)
    ensures ApplyPatch(ApplyPatch(doc, patch).value, rollback) == Some(doc)
  {
    var spec := Get(doc, SPEC).value;
    var original := Get(spec, RESOURCES).value;
    var changed := patch[1].value;
    PatchApplies(doc, patch);
    GetThrough(doc, SPEC, RESOURCES);
    PutLaws(doc, SPEC + RESOURCES, changed);
    var doc' := ApplyPatch(doc, patch).value;
    PutThrough(doc, SPEC, RESOURCES, changed);
    PutLaws(doc, SPEC, rollback[0].value);
    PatchApplies(doc', rollback);
  }

  const REQUEST: Path := ["requests", "memory"]
  const LIMIT: Path := ["limits", "memory"]

  lemma ResourcesChange(resources: Json, v: Json)
    requires WithMemory(resources, v).Some?
    ensures var r := WithMemory(resources, v).value;
            && Get(r, REQUEST) == Some(v) && Get(r, LIMIT) == Some(v)
            && forall q | Apart(REQUEST, q) && Apart(LIMIT, q) :: Get(r, q) == Get(resources, q)
  {
    var r1 := Put(resources, REQUEST, v).value;
    PutLaws(resources, REQUEST, v);
    PutLaws(r1, LIMIT, v);
    PutElsewhere(r1, LIMIT, REQUEST, v);
    var r := WithMemory(resources, v).value;
    forall q | Apart(REQUEST, q) && Apart(LIMIT, q) ensures Get(r, q) == Get(resources, q) {
      PutElsewhere(resources, REQUEST, q, v);
      PutElsewhere(r1, LIMIT, q, v);
    }
  }

  /** Nothing but the memory request and the memory limit changes. */
  lemma OnlyMemoryChanges(doc: Json, patch: seq<Edit>, rollback: seq<Edit>, baseline: nat, candidate: nat, q: Path)
    requires PatchesOk(doc, patch, rollback, baseline, candidate)
    requires Apart(SPEC + RESOURCES + REQUEST, q) && Apart(SPEC + RESOURCES + LIMIT, q)
    ensures ApplyPatch(doc, patch).Some? && Get(ApplyPatch(doc, patch).value, q) == Get(doc, q)
  {
    var base := SPEC + RESOURCES;
    PatchRoundTrip(doc, patch, rollback, baseline, candidate);
    PatchApplies(doc, patch);
    GetThrough(doc, SPEC, RESOURCES);
    var original, changed := Get(doc, base).value, patch[1].value;
    PutLaws(doc, base, changed);
    if base <= q {
      var rest := q[|base|..];
      assert q == base + rest;
      Below(base, REQUEST, rest);
      Below(base, LIMIT, rest);
      GetThrough(doc, base, rest);
      GetThrough(ApplyPatch(doc, patch).value, base, rest);
      ResourcesChange(original, Quantity(candidate));
    } else {
      assert base <= base + REQUEST;
      PutElsewhere(doc, base, q, changed);
    }
  }

  lemma Below(base: Path, p: Path, q: Path)
    requires Apart(base + p, base + q)
    ensures Apart(p, q)
  {
  }

  /** The validator's walk over the baseline and the two patches, changing a copy of the
      spec as it goes. */
  method CheckPatches(doc: Json, patch: seq<Edit>, rollback: seq<Edit>, baseline: nat, candidate: nat) returns (ok: bool)
    ensures ok == PatchesOk(doc, patch, rollback, baseline, candidate)
  {
    var spec := Get(doc, SPEC);
    if |patch| != 2 || |rollback| != 2 {
      return false;
    }
    var lists := [patch, rollback];
    for i := 0 to 2
      invariant forall k | 0 <= k < i :: EditsOk(lists[k])
    {
      var rows := lists[i];
      if !rows[0].op.TestOp? || rows[0].path != SPEC || !rows[1].op.ReplaceOp? || rows[1].path != SPEC + RESOURCES {
        assert !EditsOk(rows);
        return false;
      }
    }
    assert lists[0] == patch && lists[1] == rollback;
    if spec.None? || patch[0].value != spec.value {
      return false;
    }
    var containers := Get(spec.value, ["containers"]);
    if containers.None? || !containers.value.List? || |containers.value.items| != 1 {
      return false;
    }
    if Get(spec.value, ["containers", "0", "name"]) != Some(Text("sglang")) {
      return false;
    }
    var original := Get(spec.value, RESOURCES);
    if original.None? || !original.value.Object? {
      return false;
    }
    var resources := original.value;
    if Get(resources, ["requests"]) != Get(resources, ["limits"]) || MiB(Get(resources, ["limits", "memory"])) != Some(baseline) {
      return false;
    }
    SidesHaveMemory(resources, Quantity(candidate));
    resources := Put(resources, REQUEST, Quantity(candidate)).value;
    resources := Put(resources, LIMIT, Quantity(candidate)).value;
    PutLaws(spec.value, RESOURCES, resources);
    var changed := Put(spec.value, RESOURCES, resources).value;
    return patch[1].value == resources && rollback[0].value == changed && rollback[1].value == original.value;
  }

  /** Equal sides of which one has a memory quantity both have one. */
  lemma SidesHaveMemory(resources: Json, v: Json)
    requires Get(resources, ["requests"]) == Get(resources, ["limits"]) && Get(resources, LIMIT).Some?
    ensures Put(resources, REQUEST, v).Some?
    ensures Put(Put(resources, REQUEST, v).value, LIMIT, v).Some?
  {
    GetThrough(resources, ["limits"], ["memory"]);
    GetThrough(resources, ["requests"], ["memory"]);
    PutLaws(resources, REQUEST, v);
    PutElsewhere(resources, REQUEST, LIMIT, v);
    PutLaws(Put(resources, REQUEST, v).value, LIMIT, v);
  }

  /** In the candidate spec the requests still equal the limits, both memory quantities say
      what the plan says, and the container is otherwise as it was. */
  lemma CandidateSpec(doc: Json, patch: seq<Edit>, rollback: seq<Edit>, baseline: nat, candidate: nat)
    requires PatchesOk(doc, patch, rollback, baseline, candidate) && 0 < candidate <= MAX_QUANTITY
    ensures var doc' := ApplyPatch(doc, patch);
            && doc'.Some?
            && MiB(Get(doc'.value, SPEC + RESOURCES + LIMIT)) == Some(candidate)
            && MiB(Get(doc'.value, SPEC + RESOURCES + REQUEST)) == Some(candidate)
            && Get(doc'.value, SPEC + RESOURCES + ["requests"]) == Get(doc'.value, SPEC + RESOURCES + ["limits"])
  {
    var base := SPEC + RESOURCES;
    PatchRoundTrip(doc, patch, rollback, baseline, candidate);
    PatchApplies(doc, patch);
    GetThrough(doc, SPEC, RESOURCES);
    var original, changed := Get(doc, base).value, patch[1].value;
    PutLaws(doc, base, changed);
    var doc' := ApplyPatch(doc, patch).value;
    ResourcesChange(original, Quantity(candidate));
    QuantityRoundTrip(candidate);
    forall q: Path ensures Get(doc', base + q) == Get(changed, q) { GetThrough(doc', base, q); }
    EqualSides(original, Quantity(candidate));
  }

  lemma EqualSides(resources: Json, v: Json)
    requires resources.Object? && Get(resources, ["requests"]) == Get(resources, ["limits"]) && WithMemory(resources, v).Some?
    ensures Get(WithMemory(resources, v).value, ["requests"]) == Get(WithMemory(resources, v).value, ["limits"])
  {
    var side := Get(resources, ["requests"]);
    assert side == Child(resources, "requests") && side == Child(resources, "limits");
  }

  // ---------------------------------------------------------------------------
  // There are such patches.

  function PatchFor(spec: Json, resources: Json): seq<Edit> {
    [Edit(TestOp, SPEC, spec), Edit(ReplaceOp, SPEC + RESOURCES, resources)]
  }

  /** Every sound baseline has an accepted pair of patches for any candidate. */
  lemma PatchesExist(doc: Json, baseline: nat, candidate: nat) returns (patch: seq<Edit>, rollback: seq<Edit>)
    requires Get(doc, SPEC).Some? && SpecOk(Get(doc, SPEC).value, baseline)
    ensures PatchesOk(doc, patch, rollback, baseline, candidate)
  {
    var spec := Get(doc, SPEC).value;
    var original := Get(spec, RESOURCES).value;
    SidesHaveMemory(original, Quantity(candidate));
    var changed := WithMemory(original, Quantity(candidate)).value;
    PutLaws(spec, RESOURCES, changed);
    patch := PatchFor(spec, changed);
    rollback := PatchFor(Put(spec, RESOURCES, changed).value, original);
  }

  function Side(mib: nat): Json { Object(map["memory" := Quantity(mib)]) }

  function SmallSpec(mib: nat): Json {
    Object(map["containers" := List([Object(map["name" := Text("sglang"),
                                                "resources" := Object(map["requests" := Side(mib), "limits" := Side(mib)])])])])
  }

  function SmallDeployment(mib: nat): Json {
    Object(map["spec" := Object(map["template" := Object(map["spec" := SmallSpec(mib)])])])
  }

  /** A deployment that is accepted, with its patches. */
  lemma SmallDeploymentIsAccepted(mib: nat, candidate: nat) returns (patch: seq<Edit>, rollback: seq<Edit>)
    requires 0 < mib <= MAX_QUANTITY
    ensures PatchesOk(SmallDeployment(mib), patch, rollback, mib, candidate)
  {
    var doc, spec := SmallDeployment(mib), SmallSpec(mib);
    PathOf3(doc, "spec", "template", "spec");
    PathOf3(spec, "containers", "0", "resources");
    PathOf3(spec, "containers", "0", "name");
    var resources := Get(spec, RESOURCES).value;
    PathOf2(resources, "limits", "memory");
    QuantityRoundTrip(mib);
    patch, rollback := PatchesExist(doc, mib, candidate);
  }

  lemma PathOf2(j: Json, a: string, b: string)
    requires Child(j, a).Some?
    ensures Get(j, [a]) == Child(j, a)
    ensures Get(j, [a, b]) == Child(Child(j, a).value, b)
  {
    GetThrough(j, [a], [b]);
    assert [a] + [b] == [a, b];
  }

  lemma PathOf3(j: Json, a: string, b: string, c: string)
    requires Child(j, a).Some? && Child(Child(j, a).value, b).Some?
    ensures Get(j, [a]) == Child(j, a)
    ensures Get(j, [a, b, c]) == Child(Child(Child(j, a).value, b).value, c)
  {
    PathOf2(j, a, b);
    GetThrough(j, [a, b], [c]);
    assert [a, b] + [c] == [a, b, c];
  }
}
