/** Memory telemetry windows and the conservative memory budget
    (internal/memory/window.go, internal/memory/plan.go). */
module MemoryWindow {
  import opened Domain

  /** Go's int64 arithmetic. */
  function Wrap64(x: int): int {
    if -MAX_INT64 <= x <= MAX_INT64 then x
    else (x + 0x8000_0000_0000_0000) % 0x1_0000_0000_0000_0000 - 0x8000_0000_0000_0000
  }

  const MAX_INT64: int := 0x7fff_ffff_ffff_ffff

  const MEBIBYTE: nat := 0x10_0000
  const MAX_SAMPLES: nat := 100_000
  const MAX_GAP_NS: nat := 30_000_000_000

  /** One telemetry record, its counters parsed. Identifiers are numbered, 0 being empty. */
  datatype Sample = Sample(
    mono: int, unix: int, cgroup: nat, path: nat,
    current: nat, peak: nat, maximum: nat, swap: nat,
    anon: nat, file: nat, shmem: nat,
    quiet: bool,                     // no high, max or oom event counted
    pressure: (nat, nat),            // total stall time, some and full
    memTotal: nat, memAvailable: nat, swapTotal: nat)

  datatype Line = Malformed | Parsed(sample: Sample)

  datatype Window = Window(
    samples: nat, duration: real, cgroup: nat, path: nat,
    firstMono: int, lastMono: int, firstUnix: int, lastUnix: int,
    sampled: int, peak: int, anon: int, file: int, shmem: int, available: int, envelope: int)

  /** A sample acceptable by itself. */
  predicate SampleOk(s: Sample, limit: int, total: int) {
    && s.mono > 0 && s.unix > 0 && s.cgroup != 0 && s.path != 0
    && s.maximum == Wrap64(limit * MEBIBYTE) && 0 < s.current <= s.peak <= s.maximum
    && s.swap == 0
    && s.shmem <= s.file && s.shmem <= s.current
    && s.quiet
    && s.memTotal / 1024 == total && s.swapTotal == 0
  }

  /** May `b` come directly after `a` in a window? */
  predicate Continues(a: Sample, b: Sample) {
    && b.cgroup == a.cgroup && b.path == a.path
    && a.mono < b.mono <= a.mono + MAX_GAP_NS
    && a.unix < b.unix
    && a.peak <= b.peak
    && b.pressure == a.pressure
  }

  predicate LinesOk(lines: seq<Line>, limit: int, total: int) {
    && (forall i | 0 <= i < |lines| :: lines[i].Parsed? && SampleOk(lines[i].sample, limit, total))
    && (forall i | 0 < i < |lines| :: ContinuesAt(lines, i))
  }

  predicate ContinuesAt(lines: seq<Line>, i: nat)
    requires 0 < i < |lines|
  {
    lines[i - 1].Parsed? && lines[i].Parsed? && Continues(lines[i - 1].sample, lines[i].sample)
  }

  predicate WindowOk(lines: seq<Line>, limit: int, total: int) {
    2 <= |lines| <= MAX_SAMPLES && LinesOk(lines, limit, total)
  }

  datatype Counter = Current | Peak | Anon | File | Shmem | Shortage

  function Reading(s: Sample, c: Counter): int {
    match c
    case Current => s.current
    case Peak => s.peak
    case Anon => s.anon
    case File => s.file
    case Shmem => s.shmem
    case Shortage => -Available(s)
  }

  /** `v` is the largest reading of a counter in the samples. */
  predicate Largest(lines: seq<Line>, c: Counter, v: int) {
    && (forall i | 0 <= i < |lines| && lines[i].Parsed? :: Reading(lines[i].sample, c) <= v)
    && (exists i | 0 <= i < |lines| && lines[i].Parsed? :: Reading(lines[i].sample, c) == v)
  }

  function Available(s: Sample): int {
    Wrap64(s.memAvailable * 1024)
  }

  /** The window tells of the lines what it claims to tell. */
  predicate Describes(w: Window, lines: seq<Line>, shm: int) {
    && 0 < |lines| == w.samples && lines[0].Parsed? && lines[|lines| - 1].Parsed?
    && var first, last := lines[0].sample, lines[|lines| - 1].sample;
       && w.cgroup == first.cgroup && w.path == first.path
       && w.firstMono == first.mono && w.lastMono == last.mono
       && w.firstUnix == first.unix && w.lastUnix == last.unix
       && w.duration == (last.mono - first.mono) as real / 1e9
       && Largest(lines, Current, w.sampled)
       && Largest(lines, Peak, w.peak)
       && Largest(lines, Anon, w.anon)
       && Largest(lines, File, w.file)
       && Largest(lines, Shmem, w.shmem)
       && Largest(lines, Shortage, -w.available)
       && w.envelope == Wrap64(w.peak + Wrap64(shm * MEBIBYTE))
  }

  function Max(a: int, b: int): int { if a >= b then a else b }
  function Min(a: int, b: int): int { if a <= b then a else b }

  lemma LargestExtends(lines: seq<Line>, i: nat, c: Counter, v: int)
    requires i < |lines| && lines[i].Parsed?
    requires if i == 0 then v <= Reading(lines[0].sample, c) else Largest(lines[..i], c, v)
    ensures Largest(lines[..i + 1], c, Max(v, Reading(lines[i].sample, c)))
  {
    var more := lines[..i + 1];
    assert more[i] == lines[i];
    if i > 0 && Reading(lines[i].sample, c) < v {
      var k :| 0 <= k < |lines[..i]| && lines[..i][k].Parsed? && Reading(lines[..i][k].sample, c) == v;
      assert more[k] == lines[..i][k];
    }
    forall k | 0 <= k < |more| && more[k].Parsed? ensures Reading(more[k].sample, c) <= Max(v, Reading(lines[i].sample, c)) {
      if k < i { assert more[k] == lines[..i][k]; }
    }
  }

  const EMPTY := Window(0, 0.0, 0, 0, 0, 0, 0, 0, 0, 0, 0, 0, 0, 0, 0)

  /** `w` is what the first `i` lines have told so far. */
  predicate SoFar(lines: seq<Line>, i: nat, w: Window)
    requires i <= |lines|
  {
    && w.samples == i
    && if i == 0 then w == EMPTY
       else
         && lines[0].Parsed?
         && w.cgroup == lines[0].sample.cgroup && w.path == lines[0].sample.path
         && w.firstMono == lines[0].sample.mono && w.firstUnix == lines[0].sample.unix
         && Largest(lines[..i], Current, w.sampled)
         && Largest(lines[..i], Peak, w.peak)
         && Largest(lines[..i], Anon, w.anon)
         && Largest(lines[..i], File, w.file)
         && Largest(lines[..i], Shmem, w.shmem)
         && Largest(lines[..i], Shortage, -w.available)
  }

  function Started(w: Window, s: Sample): Window {
    w.(cgroup := s.cgroup, path := s.path, firstMono := s.mono, firstUnix := s.unix, available := Available(s))
  }

  function Added(w: Window, s: Sample): Window {
    w.(samples := w.samples + 1, sampled := Max(w.sampled, s.current), peak := Max(w.peak, s.peak),
       anon := Max(w.anon, s.anon), file := Max(w.file, s.file), shmem := Max(w.shmem, s.shmem),
       available := Min(w.available, Available(s)))
  }

  lemma SoFarStep(lines: seq<Line>, i: nat, w: Window)
    requires i < |lines| && lines[i].Parsed? && SoFar(lines, i, w)
    ensures SoFar(lines, i + 1, Added(if i == 0 then Started(w, lines[0].sample) else w, lines[i].sample))
  {
    var w1 := if i == 0 then Started(w, lines[0].sample) else w;
    LargestExtends(lines, i, Current, w1.sampled);
    LargestExtends(lines, i, Peak, w1.peak);
    LargestExtends(lines, i, Anon, w1.anon);
    LargestExtends(lines, i, File, w1.file);
    LargestExtends(lines, i, Shmem, w1.shmem);
    LargestExtends(lines, i, Shortage, -w1.available);
  }

  /** The values the loop carries over from the previous sample. */
  predicate Carries(lines: seq<Line>, i: nat, mono: int, unix: int, peak: int, pressure: (nat, nat), w: Window)
    requires i <= |lines|
  {
    i > 0 ==>
      && lines[i - 1].Parsed?
      && var s := lines[i - 1].sample;
         mono == s.mono && unix == s.unix && peak == s.peak && pressure == s.pressure && w.cgroup == s.cgroup && w.path == s.path
  }

  /** One pass over the records of a window: accepted exactly if they form one, and then
      summarised. */
  method ObserveWindow(lines: seq<Line>, limit: int, shm: int, total: int) returns (r: Option<Window>)
    ensures r.Some? <==> WindowOk(lines, limit, total)
    ensures r.Some? ==> Describes(r.value, lines, shm)
  {
    var w := EMPTY;
    var lastMono, lastUnix, lastPeak, psi := 0, 0, 0, (0, 0);
    for i := 0 to |lines|
      invariant i <= MAX_SAMPLES && LinesOk(lines[..i], limit, total)
      invariant SoFar(lines, i, w) && Carries(lines, i, lastMono, lastUnix, lastPeak, psi, w)
    {
      if lines[i].Malformed? || !SampleOk(lines[i].sample, limit, total) {
        return None;
      }
      SoFarStep(lines, i, w);
      var s := lines[i].sample;
      if w.samples == 0 {
        w := Started(w, s);
        psi := s.pressure;
      } else if w.cgroup != s.cgroup || w.path != s.path || s.mono <= lastMono || s.mono - lastMono > MAX_GAP_NS ||
                s.unix <= lastUnix || s.peak < lastPeak || s.pressure != psi {
        assert !ContinuesAt(lines, i);
        return None;
      }
      if w.samples + 1 > MAX_SAMPLES {
        return None;
      }
      LinesOkExtends(lines, i, limit, total);
      w := Added(w, s);
      lastMono, lastUnix, lastPeak := s.mono, s.unix, s.peak;
    }
    assert lines[..|lines|] == lines;
    if w.samples < 2 {
      return None;
    }
    return Some(w.(lastMono := lastMono, lastUnix := lastUnix, duration := (lastMono - w.firstMono) as real / 1e9,
                   envelope := Wrap64(w.peak + Wrap64(shm * MEBIBYTE))));
  }

  lemma LinesOkExtends(lines: seq<Line>, i: nat, limit: int, total: int)
    requires i < |lines| && LinesOk(lines[..i], limit, total) && lines[i].Parsed? && SampleOk(lines[i].sample, limit, total)
    requires i > 0 ==> lines[i - 1].Parsed? && Continues(lines[i - 1].sample, lines[i].sample)
    ensures LinesOk(lines[..i + 1], limit, total)
  {
    var a, b := lines[..i], lines[..i + 1];
    assert forall k | 0 <= k < i :: b[k] == a[k];
    assert b[i] == lines[i];
    forall k | 0 < k < |b| ensures ContinuesAt(b, k) {
      if k < i { assert ContinuesAt(a, k); }
    }
  }

  /** In an accepted window clocks increase throughout, and the lifetime peak is that of the
      last sample. */
  lemma {:induction false} WindowIsMonotone(lines: seq<Line>, limit: int, total: int, i: nat, k: nat)
    requires LinesOk(lines, limit, total) && i < k < |lines|
    ensures lines[i].sample.mono < lines[k].sample.mono && lines[i].sample.unix < lines[k].sample.unix
    ensures lines[i].sample.peak <= lines[k].sample.peak && lines[i].sample.cgroup == lines[k].sample.cgroup
    decreases k - i
  {
    assert ContinuesAt(lines, k);
    if i < k - 1 { WindowIsMonotone(lines, limit, total, i, k - 1); }
  }

  /** A description is determined by the lines. */
  lemma DescriptionIsUnique(a: Window, b: Window, lines: seq<Line>, shm: int)
    requires Describes(a, lines, shm) && Describes(b, lines, shm)
    ensures a == b
  {
    LargestIsUnique(lines, Current, a.sampled, b.sampled);
    LargestIsUnique(lines, Peak, a.peak, b.peak);
    LargestIsUnique(lines, Anon, a.anon, b.anon);
    LargestIsUnique(lines, File, a.file, b.file);
    LargestIsUnique(lines, Shmem, a.shmem, b.shmem);
    LargestIsUnique(lines, Shortage, -a.available, -b.available);
  }

  lemma LargestIsUnique(lines: seq<Line>, c: Counter, a: int, b: int)
    requires Largest(lines, c, a) && Largest(lines, c, b)
    ensures a == b
  {
  }
}

module MemoryPlan {
  import opened Domain
  import opened MemoryWindow

  datatype CacheState = Cold | Warm | Unknown

  datatype Observation = Observation(phase: CacheState, pod: string, startup: Window, steady: Window)

  /** The files of one observation: what they identify, and their telemetry. */
  datatype Evidence = Evidence(
    phase: CacheState, startPod: string, resultPod: string,
    observed: bool, measured: bool, sameRuntime: bool,
    startup: seq<Line>, steady: seq<Line>)

  datatype Plan = Plan(
    baseline: int, candidate: int, minimum: int,        // MiB
    other: int, allocatable: int, shm: int,             // MiB
    envelope: int, headroom: int,                       // bytes
    observations: seq<Observation>)

  /** What the plan is checked against: the deployment, the node and the request. */
  datatype Given = Given(
    other: int, allocatable: int, total: int,
    shmVolumes: seq<Option<nat>>,                       // size limits of the volumes named shm
    reserve: Option<int>,                               // of the telemetry profile, if any
    evidence: seq<Evidence>)

  const STEP: nat := 256
  const LARGEST_MIB: nat := 0x4000_0000
  const LEAST_HEADROOM: nat := 2048 * MEBIBYTE

  // ---------------------------------------------------------------------------
  // The arithmetic, as computed and as meant.

  function ComputedHeadroom(envelope: int): int {
    Max(Wrap64(LEAST_HEADROOM), Wrap64(envelope + 3) / 4)
  }

  function ComputedCandidate(envelope: int, headroom: int): int {
    Wrap64(Wrap64(Wrap64(Wrap64(envelope + headroom) + STEP * MEBIBYTE) - 1) / (STEP * MEBIBYTE) * STEP)
  }

  /** Two gibibytes or a quarter rounded up, whichever is more. */
  function Headroom(bytes: int): int {
    Max(LEAST_HEADROOM, -((-bytes) / 4))
  }

  /** What a sample asks for: its lifetime peak, all of shared memory, and headroom. */
  function Need(s: Sample, shm: int): int {
    var bytes := s.peak + shm * MEBIBYTE;
    bytes + Headroom(bytes)
  }

  /** Does `bytes` suffice for every sample of every window? */
  predicate Covers(bytes: int, shm: int, evidence: seq<Evidence>) {
    forall e | 0 <= e < |evidence| :: CoversLines(bytes, shm, evidence[e].startup) && CoversLines(bytes, shm, evidence[e].steady)
  }

  predicate CoversLines(bytes: int, shm: int, lines: seq<Line>) {
    forall i | 0 <= i < |lines| && lines[i].Parsed? :: Need(lines[i].sample, shm) <= bytes
  }

  /** Below 2^52 nothing overflows, and the computation means what it should. */
  lemma ComputationIsExact(envelope: int)
    requires 0 <= envelope < 0x10_0000_0000_0000
    ensures ComputedHeadroom(envelope) == Headroom(envelope)
    ensures 0 <= envelope + Headroom(envelope) + STEP * MEBIBYTE <= MAX_INT64
    ensures ComputedCandidate(envelope, Headroom(envelope)) ==
              (envelope + Headroom(envelope) + STEP * MEBIBYTE - 1) / (STEP * MEBIBYTE) * STEP
  {
    var headroom := Headroom(envelope);
    Unwrapped(LEAST_HEADROOM);
    Unwrapped(envelope + 3);
    QuarterUp(envelope);
    var sum := envelope + headroom;
    Unwrapped(sum);
    Unwrapped(sum + STEP * MEBIBYTE);
    Unwrapped(sum + STEP * MEBIBYTE - 1);
    Unwrapped((sum + STEP * MEBIBYTE - 1) / (STEP * MEBIBYTE) * STEP);
  }

  lemma Unwrapped(x: int)
    requires 0 <= x <= MAX_INT64
    ensures Wrap64(x) == x
  {
  }

  lemma QuarterUp(n: int)
    ensures (n + 3) / 4 == -((-n) / 4)
  {
  }

  lemma RoundedUp(need: int, m: int)
    ensures var c := (need + STEP * MEBIBYTE - 1) / (STEP * MEBIBYTE);
            need <= c * STEP * MEBIBYTE && (need <= m * STEP * MEBIBYTE ==> c <= m)
  {
  }

  lemma NeedIsMonotone(a: int, b: int)
    requires a <= b
    ensures a + Headroom(a) <= b + Headroom(b)
  {
  }

  // ---------------------------------------------------------------------------
  // What is accepted.

  predicate FiguresOk(p: Plan, g: Given) {
    && 0 < p.baseline <= LARGEST_MIB
    && 0 < p.candidate < p.baseline
    && p.candidate == p.minimum && p.candidate % STEP == 0
    && 4 <= |p.observations| <= 20
    && p.other == g.other >= 0
    && p.allocatable > 0 && Wrap64(p.candidate + g.other) <= p.allocatable
    && 0 < p.shm < p.baseline
    && (g.reserve.Some? ==> g.reserve.value <= g.other)
    && g.allocatable == p.allocatable && |g.evidence| == |p.observations|
    && g.shmVolumes != [] && (forall i | 0 <= i < |g.shmVolumes| :: g.shmVolumes[i] == Some(p.shm as nat))
  }

  predicate WindowFits(w: Window, p: Plan, steady: bool) {
    && 2 <= w.samples <= MAX_SAMPLES && w.duration >= 0.0
    && 0 < w.firstMono < w.lastMono && 0 < w.firstUnix < w.lastUnix
    && 0 < w.sampled <= w.peak <= Wrap64(p.baseline * MEBIBYTE)
    && w.available >= 0 && w.anon >= 0 && 0 <= w.shmem <= w.file
    && w.envelope == Wrap64(w.peak + Wrap64(p.shm * MEBIBYTE))
    && w.cgroup != 0 && w.path != 0
    && (steady ==> w.duration >= 60.0)
  }

  predicate ObservationOk(p: Plan, g: Given, i: nat)
    requires i < |p.observations| == |g.evidence|
  {
    var o, e := p.observations[i], g.evidence[i];
    && e.sameRuntime && e.phase == o.phase && e.resultPod == o.pod == e.startPod && e.observed && e.measured
    && 0 < g.total <= LARGEST_MIB
    && WindowOk(e.startup, p.baseline, g.total) && Describes(o.startup, e.startup, p.shm)
    && WindowOk(e.steady, p.baseline, g.total) && Describes(o.steady, e.steady, p.shm)
    && (forall k | 0 <= k < i :: p.observations[k].pod != o.pod) && |o.pod| == 36
    && !o.phase.Unknown?
    && WindowFits(o.startup, p, false) && WindowFits(o.steady, p, true)
    && o.startup.cgroup == o.steady.cgroup && o.startup.path == o.steady.path && o.startup.lastUnix <= o.steady.firstUnix
  }

  predicate ObservationsOk(p: Plan, g: Given)
    requires |p.observations| == |g.evidence|
  {
    forall i | 0 <= i < |p.observations| :: ObservationOk(p, g, i)
  }

  function Count(obs: seq<Observation>, phase: CacheState): nat {
    if obs == [] then 0 else Count(obs[..|obs| - 1], phase) + (if obs[|obs| - 1].phase == phase then 1 else 0)
  }

  function Envelope(obs: seq<Observation>): int {
    if obs == [] then 0
    else Max(Max(Envelope(obs[..|obs| - 1]), obs[|obs| - 1].startup.envelope), obs[|obs| - 1].steady.envelope)
  }

  predicate PlanOk(p: Plan, g: Given) {
    && FiguresOk(p, g)
    && ObservationsOk(p, g)
    && Count(p.observations, Cold) >= 2 && Count(p.observations, Warm) >= 2
    && p.envelope == Envelope(p.observations)
    && p.headroom == ComputedHeadroom(p.envelope)
    && p.minimum == ComputedCandidate(p.envelope, p.headroom)
  }

  // ---------------------------------------------------------------------------
  // What an accepted plan is worth.

  predicate Sized(o: Observation) {
    0 < o.startup.envelope < 0x10_0000_0000_0000 && 0 < o.steady.envelope < 0x10_0000_0000_0000
  }

  predicate InEnvelope(obs: seq<Observation>, envelope: int) {
    && (forall e | 0 <= e < |obs| :: obs[e].startup.envelope <= envelope && obs[e].steady.envelope <= envelope)
    && (exists e | 0 <= e < |obs| :: envelope == obs[e].startup.envelope || envelope == obs[e].steady.envelope)
  }

  /** The envelope is the largest of all windows' envelopes. */
  lemma {:induction false} EnvelopeIsLargest(obs: seq<Observation>)
    requires obs != [] && forall e | 0 <= e < |obs| :: Sized(obs[e])
    ensures InEnvelope(obs, Envelope(obs)) && 0 < Envelope(obs) < 0x10_0000_0000_0000
  {
    var front, last := obs[..|obs| - 1], obs[|obs| - 1];
    assert Sized(last);
    if front == [] {
      assert Envelope(front) == 0;
    } else {
      assert forall e | 0 <= e < |front| :: front[e] == obs[e];
      EnvelopeIsLargest(front);
    }
  }

  lemma EnvelopeIsExact(w: Window, p: Plan, steady: bool)
    requires 0 < p.baseline <= LARGEST_MIB && 0 < p.shm < p.baseline && WindowFits(w, p, steady)
    ensures w.envelope == w.peak + p.shm * MEBIBYTE && 0 < w.envelope < 0x10_0000_0000_0000
  {
  }

  lemma WindowCovered(w: Window, lines: seq<Line>, shm: int, bytes: int)
    requires Describes(w, lines, shm)
    ensures CoversLines(bytes, shm, lines) <==> var e := w.peak + shm * MEBIBYTE; e + Headroom(e) <= bytes
  {
    var c := Peak;
    var i :| 0 <= i < |lines| && lines[i].Parsed? && Reading(lines[i].sample, c) == w.peak;
    assert Need(lines[i].sample, shm) == w.peak + shm * MEBIBYTE + Headroom(w.peak + shm * MEBIBYTE);
    forall k | 0 <= k < |lines| && lines[k].Parsed?
      ensures Need(lines[k].sample, shm) <= Need(lines[i].sample, shm)
    {
      assert Reading(lines[k].sample, c) <= w.peak;
      NeedIsMonotone(lines[k].sample.peak + shm * MEBIBYTE, w.peak + shm * MEBIBYTE);
    }
  }

  function Total(bytes: int): int {
    bytes + Headroom(bytes)
  }

  lemma ObservationCovered(p: Plan, g: Given, e: nat, bytes: int)
    requires FiguresOk(p, g) && e < |p.observations| && ObservationOk(p, g, e)
    ensures Sized(p.observations[e])
    ensures CoversLines(bytes, p.shm, g.evidence[e].startup) <==> Total(p.observations[e].startup.envelope) <= bytes
    ensures CoversLines(bytes, p.shm, g.evidence[e].steady) <==> Total(p.observations[e].steady.envelope) <= bytes
  {
    var o := p.observations[e];
    EnvelopeIsExact(o.startup, p, false);
    EnvelopeIsExact(o.steady, p, true);
    WindowCovered(o.startup, g.evidence[e].startup, p.shm, bytes);
    WindowCovered(o.steady, g.evidence[e].steady, p.shm, bytes);
  }

  lemma EnvelopeCovers(obs: seq<Observation>, envelope: int, bytes: int)
    requires InEnvelope(obs, envelope)
    ensures Total(envelope) <= bytes <==>
            forall e | 0 <= e < |obs| :: Total(obs[e].startup.envelope) <= bytes && Total(obs[e].steady.envelope) <= bytes
  {
    forall e | 0 <= e < |obs|
      ensures Total(obs[e].startup.envelope) <= Total(envelope) && Total(obs[e].steady.envelope) <= Total(envelope)
    {
      NeedIsMonotone(obs[e].startup.envelope, envelope);
      NeedIsMonotone(obs[e].steady.envelope, envelope);
    }
  }

  /** An amount covers all evidence exactly if it covers the recorded envelope. */
  lemma EnvelopeDecides(p: Plan, g: Given, bytes: int)
    requires PlanOk(p, g)
    ensures 0 <= p.envelope < 0x10_0000_0000_0000
    ensures Covers(bytes, p.shm, g.evidence) <==> Total(p.envelope) <= bytes
  {
    var obs := p.observations;
    forall e | 0 <= e < |obs|
      ensures Sized(obs[e])
      ensures CoversLines(bytes, p.shm, g.evidence[e].startup) <==> Total(obs[e].startup.envelope) <= bytes
      ensures CoversLines(bytes, p.shm, g.evidence[e].steady) <==> Total(obs[e].steady.envelope) <= bytes
    {
      assert ObservationOk(p, g, e);
      ObservationCovered(p, g, e, bytes);
    }
    EnvelopeIsLargest(obs);
    EnvelopeCovers(obs, p.envelope, bytes);
  }

  /** The accepted candidate is the least multiple of 256 MiB that suffices for every sample
      of every window, and it is below the baseline. */
  lemma CandidateIsLeast(p: Plan, g: Given)
    requires PlanOk(p, g)
    ensures p.candidate % STEP == 0 && 0 < p.candidate < p.baseline
    ensures Covers(p.candidate * MEBIBYTE, p.shm, g.evidence)
    ensures forall m: int :: Covers(m * STEP * MEBIBYTE, p.shm, g.evidence) ==> p.candidate <= m * STEP
  {
    EnvelopeDecides(p, g, p.candidate * MEBIBYTE);
    ComputationIsExact(p.envelope);
    var need := Total(p.envelope);
    RoundedUp(need, 0);
    forall m: int | Covers(m * STEP * MEBIBYTE, p.shm, g.evidence) ensures p.candidate <= m * STEP {
      EnvelopeDecides(p, g, m * STEP * MEBIBYTE);
      RoundedUp(need, m);
    }
  }

  /** The candidate is determined by the evidence and the deployment's shared memory limit. */
  lemma CandidateIsDetermined(p: Plan, q: Plan, g: Given, h: Given)
    requires PlanOk(p, g) && PlanOk(q, h) && g.evidence == h.evidence && g.shmVolumes == h.shmVolumes
    ensures p.candidate == q.candidate && p.envelope == q.envelope && p.headroom == q.headroom
  {
    assert g.shmVolumes[0] == Some(p.shm as nat) && h.shmVolumes[0] == Some(q.shm as nat);
    EnvelopeDecides(p, g, Total(p.envelope));
    EnvelopeDecides(q, h, Total(p.envelope));
    EnvelopeDecides(p, g, Total(q.envelope));
    EnvelopeDecides(q, h, Total(q.envelope));
  }

  /** The candidate fits beside the other workloads, unless the sum of the two overflows. */
  lemma FitsUnlessOverflow(p: Plan, g: Given)
    requires PlanOk(p, g) && g.other <= MAX_INT64 && g.allocatable <= MAX_INT64
    ensures p.candidate + g.other <= g.allocatable <==> p.candidate + g.other <= MAX_INT64
  {
  }

  /** And such an overflow does pass: any accepted plan remains accepted when both figures for
      the other workloads are raised to the largest there is. */
  lemma OverflowIsAccepted(p: Plan, g: Given)
    requires PlanOk(p, g) && g.other <= MAX_INT64 && g.allocatable <= MAX_INT64
    ensures PlanOk(p.(other := MAX_INT64), g.(other := MAX_INT64))
    ensures p.candidate + MAX_INT64 > g.allocatable
  {
    var p', g' := p.(other := MAX_INT64), g.(other := MAX_INT64);
    forall i | 0 <= i < |p'.observations| ensures ObservationOk(p', g', i) {
      assert ObservationOk(p, g, i);
    }
  }

  /** A request for a memory plan is accepted only with a bounded figure for the others. */
  predicate RequestOk(other: int) {
    0 <= other <= LARGEST_MIB
  }

  lemma FitsAllocatable(p: Plan, g: Given)
    requires PlanOk(p, g) && RequestOk(g.other) && g.allocatable <= MAX_INT64
    ensures p.candidate + g.other <= g.allocatable
  {
  }

  // ---------------------------------------------------------------------------
  // The validator.

  method CheckVolumes(g: Given, shm: int) returns (ok: bool)
    requires shm > 0
    ensures ok <==> g.shmVolumes != [] && forall i | 0 <= i < |g.shmVolumes| :: g.shmVolumes[i] == Some(shm as nat)
  {
    var found := false;
    for i := 0 to |g.shmVolumes|
      invariant forall k | 0 <= k < i :: g.shmVolumes[k] == Some(shm as nat)
      invariant found == (i > 0)
    {
      if g.shmVolumes[i].None? || g.shmVolumes[i].value != shm {
        return false;
      }
      found := true;
    }
    return found;
  }

  /** Are the recorded windows what the telemetry shows? */
  method CheckWindow(lines: seq<Line>, recorded: Window, p: Plan, total: int) returns (ok: bool)
    ensures ok <==> WindowOk(lines, p.baseline, total) && Describes(recorded, lines, p.shm)
  {
    var observed := ObserveWindow(lines, p.baseline, p.shm, total);
    if observed.None? {
      return false;
    }
    ok := observed.value == recorded;
    if !ok && Describes(recorded, lines, p.shm) {
      DescriptionIsUnique(observed.value, recorded, lines, p.shm);
    }
  }

  method CheckObservation(p: Plan, g: Given, i: nat, seen: set<string>) returns (ok: bool)
    requires i < |p.observations| == |g.evidence|
    requires seen == Pods(p.observations, i)
    ensures ok <==> ObservationOk(p, g, i)
  {
    var o, e := p.observations[i], g.evidence[i];
    if !e.sameRuntime || e.phase != o.phase || e.resultPod != o.pod || e.startPod != o.pod || !e.observed || !e.measured {
      return false;
    }
    if g.total <= 0 || g.total > LARGEST_MIB {
      return false;
    }
    var startup := CheckWindow(e.startup, o.startup, p, g.total);
    var steady := CheckWindow(e.steady, o.steady, p, g.total);
    if !startup || !steady || o.pod in seen || |o.pod| != 36 || o.phase.Unknown? {
      return false;
    }
    return WindowFits(o.startup, p, false) && WindowFits(o.steady, p, true)
           && o.startup.cgroup == o.steady.cgroup && o.startup.path == o.steady.path && o.startup.lastUnix <= o.steady.firstUnix;
  }

  method CheckFigures(p: Plan, g: Given) returns (ok: bool)
    ensures ok <==> FiguresOk(p, g)
  {
    if p.baseline <= 0 || p.baseline > LARGEST_MIB || p.candidate <= 0 || p.candidate >= p.baseline ||
       p.candidate != p.minimum || p.candidate % STEP != 0 || |p.observations| < 4 || |p.observations| > 20 {
      return false;
    }
    if p.other != g.other || g.other < 0 || p.allocatable <= 0 || Wrap64(p.candidate + g.other) > p.allocatable ||
       p.shm <= 0 || p.shm >= p.baseline {
      return false;
    }
    if (g.reserve.Some? && g.other < g.reserve.value) || g.allocatable != p.allocatable || |g.evidence| != |p.observations| {
      return false;
    }
    ok := CheckVolumes(g, p.shm);
  }

  /** The pods of the first `i` observations. */
  function Pods(obs: seq<Observation>, i: nat): set<string>
    requires i <= |obs|
  {
    set k | 0 <= k < i :: obs[k].pod
  }

  datatype Tally = Tally(cold: nat, warm: nat, envelope: int)

  /** What the first `i` observations add up to. */
  function TallyOf(obs: seq<Observation>, i: nat): Tally
    requires i <= |obs|
  {
    Tally(Count(obs[..i], Cold), Count(obs[..i], Warm), Envelope(obs[..i]))
  }

  function Tallied(t: Tally, o: Observation): Tally {
    Tally(if o.phase.Cold? then t.cold + 1 else t.cold, if o.phase.Warm? then t.warm + 1 else t.warm,
          Max(Max(t.envelope, o.startup.envelope), o.steady.envelope))
  }

  lemma TallyStep(obs: seq<Observation>, i: nat)
    requires i < |obs|
    ensures TallyOf(obs, i + 1) == Tallied(TallyOf(obs, i), obs[i]) && Pods(obs, i + 1) == Pods(obs, i) + {obs[i].pod}
  {
    assert obs[..i + 1][..i] == obs[..i];
  }

  method CheckObservations(p: Plan, g: Given) returns (ok: bool, tally: Tally)
    requires |p.observations| == |g.evidence|
    ensures ok <==> ObservationsOk(p, g)
    ensures ok ==> tally == TallyOf(p.observations, |p.observations|)
  {
    var obs := p.observations;
    tally := Tally(0, 0, 0);
    var seen: set<string> := {};
    for i := 0 to |obs|
      invariant forall k | 0 <= k < i :: ObservationOk(p, g, k)
      invariant seen == Pods(obs, i) && tally == TallyOf(obs, i)
    {
      ok := CheckObservation(p, g, i, seen);
      if !ok {
        return;
      }
      TallyStep(obs, i);
      tally := Tallied(tally, obs[i]);
      seen := seen + {obs[i].pod};
    }
    ok := true;
  }

  /** Accepts exactly the plans that satisfy `PlanOk`. */
  method ValidateOutput(p: Plan, g: Given) returns (ok: bool)
    ensures ok <==> PlanOk(p, g)
  {
    ok := CheckFigures(p, g);
    if !ok {
      return;
    }
    var tally;
    ok, tally := CheckObservations(p, g);
    if !ok {
      return;
    }
    assert p.observations[..|p.observations|] == p.observations;
    var headroom := ComputedHeadroom(tally.envelope);
    ok := tally.cold >= 2 && tally.warm >= 2 && p.envelope == tally.envelope && p.headroom == headroom
          && ComputedCandidate(tally.envelope, headroom) == p.minimum;
  }

  // ---------------------------------------------------------------------------
  // There are such plans.

  const GIB: nat := 1024 * MEBIBYTE

  /** One GiB in use of a limit of four, on a host with eight. */
  function Steadily(mono: int): Line {
    Parsed(Sample(mono, mono, 1, 1, GIB, GIB, 4 * GIB, 0, 0, 0, 0, true, (0, 0), 8192 * 1024, 0, 0))
  }

  const STARTUP := [Steadily(1), Steadily(1_000_000_001)]
  const STEADY := [Steadily(2_000_000_000), Steadily(32_000_000_000), Steadily(62_000_000_000)]

  function WindowOver(samples: nat, duration: real, first: int, last: int): Window {
    Window(samples, duration, 1, 1, first, last, first, last, GIB, GIB, 0, 0, 0, 0, GIB + 64 * MEBIBYTE)
  }

  function Pod(n: nat): string
    requires n < 4
  {
    ["00000000-0000-0000-0000-000000000000", "00000000-0000-0000-0000-000000000001",
     "00000000-0000-0000-0000-000000000002", "00000000-0000-0000-0000-000000000003"][n]
  }

  function Seen(n: nat): Observation
    requires n < 4
  {
    Observation(if n < 2 then Cold else Warm, Pod(n), WindowOver(2, 1.0, 1, 1_000_000_001), WindowOver(3, 60.0, 2_000_000_000, 62_000_000_000))
  }

  function Filed(n: nat): Evidence
    requires n < 4
  {
    Evidence(if n < 2 then Cold else Warm, Pod(n), Pod(n), true, true, true, STARTUP, STEADY)
  }

  const SMALL_PLAN := Plan(4096, 3328, 3328, 0, 8192, 64, 1088 * MEBIBYTE, 2 * GIB, [Seen(0), Seen(1), Seen(2), Seen(3)])
  const SMALL_CASE := Given(0, 8192, 8192, [Some(64)], None, [Filed(0), Filed(1), Filed(2), Filed(3)])

  lemma ConstantIsLargest(lines: seq<Line>, c: Counter, v: int)
    requires lines != [] && forall i | 0 <= i < |lines| :: lines[i].Parsed? && Reading(lines[i].sample, c) == v
    ensures Largest(lines, c, v)
  {
    assert lines[0].Parsed? && Reading(lines[0].sample, c) == v;
  }

  lemma SteadilyDescribed(lines: seq<Line>, w: Window)
    requires lines != [] && forall i | 0 <= i < |lines| :: lines[i].Parsed? && lines[i] == Steadily(lines[i].sample.mono)
    requires var first, last := lines[0].sample.mono, lines[|lines| - 1].sample.mono;
             w == WindowOver(|lines|, (last - first) as real / 1e9, first, last)
    ensures Describes(w, lines, 64)
  {
    ConstantIsLargest(lines, Current, GIB);
    ConstantIsLargest(lines, Peak, GIB);
    ConstantIsLargest(lines, Anon, 0);
    ConstantIsLargest(lines, File, 0);
    ConstantIsLargest(lines, Shmem, 0);
    ConstantIsLargest(lines, Shortage, 0);
  }

  lemma SteadilyOk(mono: int)
    requires mono > 0
    ensures Steadily(mono).Parsed? && SampleOk(Steadily(mono).sample, 4096, 8192)
  {
    Unwrapped(4096 * MEBIBYTE);
  }

  lemma SmallWindowsAreOk()
    ensures WindowOk(STARTUP, 4096, 8192) && WindowOk(STEADY, 4096, 8192)
  {
    SteadilyOk(1);
    SteadilyOk(1_000_000_001);
    SteadilyOk(2_000_000_000);
    SteadilyOk(32_000_000_000);
    SteadilyOk(62_000_000_000);
    assert ContinuesAt(STARTUP, 1);
    assert ContinuesAt(STEADY, 1) && ContinuesAt(STEADY, 2);
  }

  lemma StartupWindow()
    ensures Describes(WindowOver(2, 1.0, 1, 1_000_000_001), STARTUP, 64)
  {
    assert (1_000_000_001 - 1) as real / 1e9 == 1.0;
    SteadilyDescribed(STARTUP, WindowOver(2, 1.0, 1, 1_000_000_001));
  }

  lemma SteadyWindow()
    ensures Describes(WindowOver(3, 60.0, 2_000_000_000, 62_000_000_000), STEADY, 64)
  {
    assert (62_000_000_000 - 2_000_000_000) as real / 1e9 == 60.0;
    SteadilyDescribed(STEADY, WindowOver(3, 60.0, 2_000_000_000, 62_000_000_000));
  }

  lemma SmallFits(n: nat)
    requires n < 4
    ensures WindowFits(Seen(n).startup, SMALL_PLAN, false) && WindowFits(Seen(n).steady, SMALL_PLAN, true)
  {
    Unwrapped(4096 * MEBIBYTE);
    Unwrapped(64 * MEBIBYTE);
    Unwrapped(GIB + 64 * MEBIBYTE);
  }

  lemma PodsDiffer(n: nat, k: nat)
    requires k < n < 4
    ensures |Pod(n)| == |Pod(k)| == 36 && Pod(n) != Pod(k)
  {
    assert Pod(n)[35] != Pod(k)[35];
  }

  lemma SmallPods(n: nat)
    requires n < 4
    ensures SMALL_PLAN.observations[n] == Seen(n) && SMALL_CASE.evidence[n] == Filed(n) && |Pod(n)| == 36
    ensures forall k | 0 <= k < n :: SMALL_PLAN.observations[k].pod != Pod(n)
  {
    forall k | 0 <= k < n ensures SMALL_PLAN.observations[k].pod != Pod(n) {
      assert SMALL_PLAN.observations[k] == Seen(k);
      PodsDiffer(n, k);
    }
  }

  lemma SmallObservation(n: nat)
    requires n < 4
    ensures ObservationOk(SMALL_PLAN, SMALL_CASE, n)
  {
    SmallPods(n);
    SmallWindowsAreOk();
    StartupWindow();
    SteadyWindow();
    SmallFits(n);
  }

  lemma SmallTally()
    ensures var obs := SMALL_PLAN.observations;
            Count(obs, Cold) == 2 && Count(obs, Warm) == 2 && Envelope(obs) == 1088 * MEBIBYTE
  {
    var obs := SMALL_PLAN.observations;
    assert obs[..0] == [];
    TallyStep(obs, 0);
    TallyStep(obs, 1);
    TallyStep(obs, 2);
    TallyStep(obs, 3);
    assert obs[..4] == obs;
  }

  /** A plan that is accepted. */
  lemma SmallPlanIsAccepted()
    ensures PlanOk(SMALL_PLAN, SMALL_CASE)
  {
    forall n | 0 <= n < |SMALL_PLAN.observations| ensures ObservationOk(SMALL_PLAN, SMALL_CASE, n) { SmallObservation(n); }
    SmallTally();
    ComputationIsExact(1088 * MEBIBYTE);
  }

  /** And one that is accepted although it does not fit, the sum having overflowed. */
  lemma SmallOverflowIsAccepted()
    ensures var p, g := SMALL_PLAN.(other := MAX_INT64), SMALL_CASE.(other := MAX_INT64);
            PlanOk(p, g) && p.candidate + g.other > g.allocatable
  {
    SmallPlanIsAccepted();
    OverflowIsAccepted(SMALL_PLAN, SMALL_CASE);
  }
}
