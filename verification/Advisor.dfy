/** The bounded advisory session against an arbitrary provider, and its admission
    (internal/advisor/client.go). Whatever the provider answers is an arbitrary value. */
module Advisor {
  import opened Domain

  /** The three local functions the provider may ask for. */
  datatype Fn = ReadEvidence | ExplainCapacity | RequestPlan

  datatype Verdict = Success | Refused | Unusable

  /** What the session does, in order. All but the last two kinds are requests it sends. */
  datatype Act =
    | Create
    | ReadTurns
    | Answer(fn: Fn, success: bool)     // the result of a local function, sent to the provider
    | Poll
    | ReadItems
    | CancelWork
    | Local(call: Fn, verdict: Verdict) // a local function is called

  const MAX_REQUESTS: nat := 64
  const MAX_RESPONSE_BYTES: nat := 128 * 1024
  const MAX_TOTAL_BYTES: nat := 1024 * 1024
  const MAX_SUMMARY_BYTES: nat := 8 * 1024
  const MAX_TOKENS: int := 16384
  const MAX_PAGES: nat := 4

  datatype Usage = Usage(input: int, output: int, total: int)

  predicate UsageOk(u: Option<Usage>) {
    u.Some? ==> 0 <= u.value.input <= MAX_TOKENS && 0 <= u.value.output <= MAX_TOKENS && 0 <= u.value.total <= MAX_TOKENS
  }

  /** `supported`: a call of one of the three functions, without arguments, with a safe ID. */
  datatype Call = Call(supported: bool, turn: Id, callId: Id, fn: Fn)

  datatype Snapshot = Snapshot(id: Id, bounded: bool, working: bool, usage: Option<Usage>, actions: seq<Call>)

  datatype TurnStatus = Completed | Ended | Working | Unsupported

  datatype Turn = Turn(safe: bool, id: Id, session: Id, subagent: bool, status: TurnStatus, usage: Option<Usage>)

  // ---------------------------------------------------------------------------
  // What a session log has to satisfy.

  function Requests(log: seq<Act>): nat {
    if log == [] then 0
    else Requests(log[..|log| - 1]) + (if log[|log| - 1].Local? || log[|log| - 1].CancelWork? then 0 else 1)
  }

  function Pages(log: seq<Act>): nat {
    if log == [] then 0 else Pages(log[..|log| - 1]) + (if log[|log| - 1].ReadItems? then 1 else 0)
  }

  predicate EachOnce(log: seq<Act>) {
    forall i, j | 0 <= i < j < |log| && log[i].Local? && log[j].Local? :: log[i].call != log[j].call
  }

  predicate PlanComesLast(log: seq<Act>) {
    forall i | 0 <= i < |log| && log[i].Local? && log[i].call.RequestPlan? ::
      Local(ReadEvidence, Success) in log[..i] && Local(ExplainCapacity, Success) in log[..i]
  }

  /** The provider is told only what the local functions said. */
  predicate AnswersAreHonest(log: seq<Act>) {
    forall i | 0 <= i < |log| && log[i].Answer? ::
      Local(log[i].fn, if log[i].success then Success else Refused) in log[..i]
  }

  predicate NoCancel(log: seq<Act>) {
    forall i | 0 <= i < |log| :: !log[i].CancelWork?
  }

  predicate LogOk(log: seq<Act>) {
    EachOnce(log) && PlanComesLast(log) && AnswersAreHonest(log)
  }

  lemma AppendRequest(log: seq<Act>, a: Act)
    requires LogOk(log) && !a.Local? && !a.CancelWork?
    requires a.Answer? ==> Local(a.fn, if a.success then Success else Refused) in log
    ensures LogOk(log + [a]) && Requests(log + [a]) == Requests(log) + 1
    ensures Pages(log + [a]) == Pages(log) + if a.ReadItems? then 1 else 0
    ensures NoCancel(log) ==> NoCancel(log + [a])
  {
    var more := log + [a];
    assert more[..|log|] == log;
    forall i | 0 <= i < |log| ensures more[..i] == log[..i] && more[i] == log[i] {}
  }

  lemma AppendLocal(log: seq<Act>, fn: Fn, v: Verdict)
    requires LogOk(log)
    requires forall other :: Local(fn, other) !in log
    requires fn.RequestPlan? ==> Local(ReadEvidence, Success) in log && Local(ExplainCapacity, Success) in log
    ensures LogOk(log + [Local(fn, v)]) && Requests(log + [Local(fn, v)]) == Requests(log)
    ensures Pages(log + [Local(fn, v)]) == Pages(log)
    ensures NoCancel(log) ==> NoCancel(log + [Local(fn, v)])
  {
    var more := log + [Local(fn, v)];
    assert more[..|log|] == log;
    forall i | 0 <= i < |log| ensures more[..i] == log[..i] && more[i] == log[i] {}
    forall i | 0 <= i < |log| && log[i].Local? ensures log[i].call != fn {
      assert log[i] == Local(log[i].call, log[i].verdict) && log[i] in log;
    }
  }

  // ---------------------------------------------------------------------------
  // The session.

  datatype Progress = Progress(
    log: seq<Act>,
    requests: nat,
    bytes: nat,
    tools: map<Fn, bool>,              // results of the functions called so far
    calls: map<Id, Call>,              // calls seen so far, by call ID
    toolCalls: nat)

  /** The results kept are those of the log. */
  predicate ToolsMatch(log: seq<Act>, tools: map<Fn, bool>) {
    && (forall fn | fn in tools :: Local(fn, if tools[fn] then Success else Refused) in log)
    && (forall fn, v | Local(fn, v) in log :: fn in tools)
  }

  predicate InBounds(p: Progress, maxCalls: nat) {
    && LogOk(p.log) && NoCancel(p.log)
    && Requests(p.log) <= p.requests <= MAX_REQUESTS
    && p.bytes <= MAX_TOTAL_BYTES + MAX_RESPONSE_BYTES + 1
    && p.toolCalls <= maxCalls
  }

  predicate Running(p: Progress, maxCalls: nat) {
    InBounds(p, maxCalls) && Pages(p.log) == 0 && ToolsMatch(p.log, p.tools)
  }

  /** One request, if the budget still allows it. It may fail before or after it is sent. */
  method Request(p: Progress, act: Act, maxCalls: nat) returns (q: Progress, ok: bool)
    requires InBounds(p, maxCalls) && !act.Local? && !act.CancelWork?
    requires act.Answer? ==> Local(act.fn, if act.success then Success else Refused) in p.log
    ensures InBounds(q, maxCalls) && q == p.(log := q.log, requests := q.requests, bytes := q.bytes)
    ensures q.requests >= p.requests && (q.log == p.log || q.log == p.log + [act])
    ensures ok ==> q.log == p.log + [act] && q.requests == p.requests + 1 && q.bytes <= MAX_TOTAL_BYTES
    ensures p.requests == MAX_REQUESTS || p.bytes >= MAX_TOTAL_BYTES ==> !ok && q == p
    ensures q.bytes >= p.bytes
  {
    if p.requests >= MAX_REQUESTS || p.bytes >= MAX_TOTAL_BYTES {
      return p, false;
    }
    q := p.(requests := p.requests + 1);
    var encoded: nat :| 0 <= encoded;
    if encoded > MAX_RESPONSE_BYTES {
      return q, false;
    }
    q := q.(bytes := q.bytes + encoded);
    if q.bytes > MAX_TOTAL_BYTES {
      return q, false;
    }
    AppendRequest(p.log, act);
    q := q.(log := q.log + [act]);
    var answered: bool := *;
    if !answered {
      return q, false;
    }
    var received: nat :| 0 <= received <= MAX_RESPONSE_BYTES + 1;
    q := q.(bytes := q.bytes + received);
    if received > MAX_RESPONSE_BYTES || q.bytes > MAX_TOTAL_BYTES {
      return q, false;
    }
    var decoded: bool := *;
    return q, decoded;
  }

  /** The outcome of a local function: from the cache, or by calling it. */
  method Consult(p: Progress, fn: Fn, maxCalls: nat) returns (q: Progress, ok: bool)
    requires Running(p, maxCalls)
    ensures InBounds(q, maxCalls) && Pages(q.log) == 0 && q == p.(log := q.log, tools := q.tools)
    ensures ok ==> Running(q, maxCalls) && fn in q.tools
    ensures fn in p.tools ==> ok && q == p
  {
    if fn in p.tools {
      return p, true;
    }
    if fn.RequestPlan? && !(ReadEvidence in p.tools && p.tools[ReadEvidence] && ExplainCapacity in p.tools && p.tools[ExplainCapacity]) {
      return p, false;
    }
    var v: Verdict := *;
    AppendLocal(p.log, fn, v);
    q := p.(log := p.log + [Local(fn, v)]);
    if v.Unusable? {
      return q, false;
    }
    ToolsMatchStep(p.log, p.tools, fn, v);
    q := q.(tools := q.tools[fn := v.Success?]);
    return q, true;
  }

  lemma ToolsMatchStep(log: seq<Act>, tools: map<Fn, bool>, fn: Fn, v: Verdict)
    requires ToolsMatch(log, tools) && fn !in tools && !v.Unusable?
    ensures ToolsMatch(log + [Local(fn, v)], tools[fn := v.Success?])
  {
  }

  /** Counts a call against the limit, unless it repeats one seen before. */
  method Register(p: Progress, c: Call, maxCalls: nat) returns (q: Progress, ok: bool)
    requires Running(p, maxCalls)
    ensures Running(q, maxCalls) && q == p.(toolCalls := q.toolCalls, calls := q.calls)
    ensures ok ==> c.callId in q.calls && q.calls[c.callId].fn == c.fn && q.calls[c.callId].turn == c.turn
    ensures ok ==> q.toolCalls == p.toolCalls + if c.callId in p.calls then 0 else 1
  {
    if c.callId in p.calls {
      return p, p.calls[c.callId].fn == c.fn && p.calls[c.callId].turn == c.turn;
    }
    if p.toolCalls >= maxCalls {
      return p, false;
    }
    return p.(toolCalls := p.toolCalls + 1, calls := p.calls[c.callId := c]), true;
  }

  method ServeCall(p: Progress, c: Call, maxCalls: nat) returns (q: Progress, ok: bool)
    requires Running(p, maxCalls)
    ensures InBounds(q, maxCalls) && Pages(q.log) == 0 && q.requests >= p.requests
    ensures ok ==> Running(q, maxCalls)
  {
    q, ok := Register(p, c, maxCalls);
    if !ok {
      return;
    }
    q, ok := Consult(q, c.fn, maxCalls);
    if !ok {
      return;
    }
    var before, act := q, Answer(c.fn, q.tools[c.fn]);
    q, ok := Request(q, act, maxCalls);
    KeepsRunning(before, q, act, maxCalls);
  }

  /** Serves the calls of one snapshot, in order. */
  method ServeCalls(p: Progress, actions: seq<Call>, turn: Id, maxCalls: nat) returns (q: Progress, ok: bool)
    requires Running(p, maxCalls)
    ensures InBounds(q, maxCalls) && Pages(q.log) == 0 && q.requests >= p.requests
    ensures ok ==> Running(q, maxCalls)
  {
    q := p;
    for i := 0 to |actions|
      invariant Running(q, maxCalls) && q.requests >= p.requests
    {
      var expired: bool := *;
      if expired || !actions[i].supported || actions[i].turn != turn {
        return q, false;
      }
      q, ok := ServeCall(q, actions[i], maxCalls);
      if !ok {
        return;
      }
    }
    return q, true;
  }

  lemma KeepsRunning(p: Progress, q: Progress, act: Act, maxCalls: nat)
    requires Running(p, maxCalls) && InBounds(q, maxCalls) && q.tools == p.tools && !act.Local? && !act.ReadItems?
    requires q.log == p.log || q.log == p.log + [act]
    ensures Running(q, maxCalls)
  {
    if q.log != p.log {
      assert q.log[..|q.log| - 1] == p.log;
    }
  }

  datatype Outcome = Outcome(session: Id, done: bool, ok: bool, summary: nat)

  /** Reads the final explanation, at most four pages of it; only its length is kept. */
  method FinalText(p: Progress, maxCalls: nat) returns (q: Progress, ok: bool, text: nat)
    requires Running(p, maxCalls)
    ensures InBounds(q, maxCalls) && Pages(q.log) <= MAX_PAGES && q.toolCalls == p.toolCalls
    ensures ok ==> 0 < text <= MAX_SUMMARY_BYTES
  {
    q, text := p, 0;
    var seen: set<Id> := {};
    for page := 0 to MAX_PAGES
      invariant InBounds(q, maxCalls) && Pages(q.log) <= page && q.toolCalls == p.toolCalls && text <= MAX_SUMMARY_BYTES
    {
      var before := q;
      q, ok := Request(q, ReadItems, maxCalls);
      if q.log != before.log {
        assert q.log[..|q.log| - 1] == before.log;
      }
      if !ok {
        return;
      }
      var parts: seq<nat> :| |parts| >= 0;
      for i := 0 to |parts|
        invariant text <= MAX_SUMMARY_BYTES
      {
        if text + parts[i] + 1 > MAX_SUMMARY_BYTES {
          return q, false, text;
        }
        text := text + parts[i] + 1;
      }
      var more: bool, last: Id, safe: bool := *, *, *;
      if !more {
        var blanks: nat :| 0 <= blanks <= text;
        text := text - blanks;
        return q, text > 0, text;
      }
      if !safe || last in seen {
        return q, false, text;
      }
      seen := seen + {last};
    }
    return q, false, text;
  }

  /** The session proper: create, then poll until the one turn has ended. */
  method RunSession(maxCalls: nat) returns (p: Progress, r: Outcome)
    ensures InBounds(p, maxCalls) && Pages(p.log) <= MAX_PAGES
    ensures r.ok ==> r.done && r.session != 0 && 0 < r.summary <= MAX_SUMMARY_BYTES
  {
    p := Progress([], 0, 0, map[], map[], 0);
    r := Outcome(0, false, false, 0);
    var current: Snapshot := *;
    var safe: bool := *;
    var ok;
    var before := p;
    p, ok := Request(p, Create, maxCalls);
    KeepsRunning(before, p, Create, maxCalls);
    if !ok {
      // An identity that could be read still permits cancellation.
      return p, if safe then r.(session := current.id) else r;
    }
    if !safe || current.id == 0 {
      return;
    }
    r := r.(session := current.id);
    var rootTurn: Id := 0;
    while true
      invariant Running(p, maxCalls) && r == Outcome(r.session, false, false, 0) && r.session != 0
      decreases MAX_REQUESTS - p.requests
    {
      if current.id != r.session || !current.bounded || !UsageOk(current.usage) || !current.working {
        return;
      }
      before := p;
      p, ok := Request(p, ReadTurns, maxCalls);
      KeepsRunning(before, p, ReadTurns, maxCalls);
      if !ok {
        return;
      }
      var turns: seq<Turn>, hasMore: bool := *, *;
      if hasMore || |turns| > 1 {
        return;
      }
      if |turns| == 1 {
        var t := turns[0];
        if !t.safe || t.session != r.session || t.subagent || (rootTurn != 0 && rootTurn != t.id) {
          return;
        }
        rootTurn := t.id;
        if !UsageOk(t.usage) {
          return;
        }
        if t.status.Completed? {
          r := r.(done := true);
          if current.actions != [] {
            return;
          }
          var text;
          p, ok, text := FinalText(p, maxCalls);
          return p, r.(ok := ok, summary := if ok then text else 0);
        } else if t.status.Ended? {
          return p, r.(done := true);
        } else if t.status.Unsupported? {
          return;
        }
      }
      if |current.actions| > maxCalls {
        return;
      }
      if rootTurn != 0 {
        p, ok := ServeCalls(p, current.actions, rootTurn, maxCalls);
        if !ok {
          return;
        }
      }
      var expired: bool := *;
      if expired {
        return;
      }
      before := p;
      p, ok := Request(p, Poll, maxCalls);
      KeepsRunning(before, p, Poll, maxCalls);
      if !ok {
        return;
      }
      current := *;
    }
  }

  /** The session with its cleanup. For any provider it ends, having sent at most 64 requests
      and one cancellation, the latter exactly if it failed with the provider possibly still
      at work; each local function was called at most once, the plan function only after
      both inspections succeeded, and the provider was told only what they said. */
  method Converse(maxCalls: nat) returns (log: seq<Act>, r: Outcome, toolCalls: nat)
    ensures LogOk(log)
    ensures Requests(log) <= MAX_REQUESTS && Pages(log) <= MAX_PAGES && toolCalls <= maxCalls
    ensures forall i | 0 <= i < |log| && log[i].CancelWork? :: i == |log| - 1
    ensures (log != [] && log[|log| - 1].CancelWork?) <==> (!r.ok && r.session != 0 && !r.done)
    ensures r.ok ==> 0 < r.summary <= MAX_SUMMARY_BYTES
  {
    var p: Progress;
    p, r := RunSession(maxCalls);
    log, toolCalls := p.log, p.toolCalls;
    if !r.ok && r.session != 0 && !r.done {
      AppendCancel(log);
      log := log + [CancelWork];
    }
  }

  lemma AppendCancel(log: seq<Act>)
    requires LogOk(log)
    ensures LogOk(log + [CancelWork]) && Requests(log + [CancelWork]) == Requests(log) && Pages(log + [CancelWork]) == Pages(log)
  {
    var more := log + [CancelWork];
    assert more[..|log|] == log;
    forall i | 0 <= i < |log| ensures more[..i] == log[..i] && more[i] == log[i] {}
  }

  /** So there are at most three local calls in a session. */
  lemma AtMostThreeCalls(log: seq<Act>, at: set<nat>)
    requires EachOnce(log) && forall i | i in at :: i < |log| && log[i].Local?
    ensures |at| <= 3
  {
    var fns := set i | i in at :: log[i].call;
    Injective(log, at, fns);
    assert fns <= {ReadEvidence, ExplainCapacity, RequestPlan};
    assert |{ReadEvidence, ExplainCapacity, RequestPlan} - fns| == 3 - |fns|;
  }

  lemma {:induction false} Injective(log: seq<Act>, at: set<nat>, fns: set<Fn>)
    requires EachOnce(log) && (forall i | i in at :: i < |log| && log[i].Local?) && fns == set i | i in at :: log[i].call
    ensures |fns| == |at|
    decreases |at|
  {
    if at != {} {
      var i :| i in at;
      var rest := at - {i};
      var others := set k | k in rest :: log[k].call;
      assert log[i].call !in others;
      assert fns == others + {log[i].call};
      Injective(log, rest, others);
    }
  }

  // ---------------------------------------------------------------------------
  // Admission.

  const HOUR: nat := 3600 * 1_000_000_000

  /** The admissions less than an hour old. */
  function Recent(started: seq<int>, now: int): seq<int> {
    if started == [] then []
    else Recent(started[..|started| - 1], now) + (if now - started[|started| - 1] < HOUR then [started[|started| - 1]] else [])
  }

  predicate Sorted(s: seq<int>) {
    forall i, k | 0 <= i < k < |s| :: s[i] <= s[k]
  }

  lemma {:induction false} NoneRecent(s: seq<int>, now: int)
    requires forall i | 0 <= i < |s| :: now - s[i] >= HOUR
    ensures Recent(s, now) == []
  {
    if s != [] {
      NoneRecent(s[..|s| - 1], now);
    }
  }

  /** The `n` last of the times are those less than an hour old. */
  predicate Splits(s: seq<int>, now: int, n: nat) {
    && n <= |s|
    && (forall i | 0 <= i < |s| - n :: now - s[i] >= HOUR)
    && (forall i | |s| - n <= i < |s| :: now - s[i] < HOUR)
  }

  /** Of sorted times the recent ones are a suffix. */
  lemma {:induction false} RecentIsSuffix(s: seq<int>, now: int)
    requires Sorted(s)
    ensures Splits(s, now, |Recent(s, now)|) && Recent(s, now) == s[|s| - |Recent(s, now)|..]
  {
    if s == [] {
    } else if now - s[|s| - 1] >= HOUR {
      NoneRecent(s, now);
    } else {
      var front := s[..|s| - 1];
      RecentIsSuffix(front, now);
      var n := |Recent(front, now)|;
      assert s == front + [s[|s| - 1]];
      assert Recent(s, now) == s[|s| - (n + 1)..];
      forall i | 0 <= i < |front| ensures front[i] == s[i] {}
    }
  }

  /** Keeps the recent admissions, moving them to the front. */
  method Compact(started: seq<int>, now: int) returns (kept: seq<int>)
    ensures kept == Recent(started, now)
  {
    kept := [];
    for i := 0 to |started|
      invariant kept == Recent(started[..i], now)
    {
      assert started[..i + 1][..i] == started[..i];
      if now - started[i] < HOUR {
        kept := kept + [started[i]];
      }
    }
    assert started[..|started|] == started;
  }

  class Client {
    const maxPerHour: nat
    const maxToolCalls: nat
    var active: bool
    var started: seq<int>
    ghost var admitted: seq<int>      // the times of all admissions so far
    ghost var clock: int              // the latest time seen

    ghost predicate Valid()
      reads this
    {
      Tracks(admitted, started, clock) && HourlyLimit(admitted, maxPerHour)
    }

    constructor (perHour: nat, toolCalls: nat, now: int)
      ensures Valid() && admitted == [] && !active && maxPerHour == perHour && maxToolCalls == toolCalls && clock == now
    {
      maxPerHour, maxToolCalls, active, started := perHour, toolCalls, false, [];
      admitted, clock := [], now;
    }

    /** Admits a session if none is active and fewer than the limit began within the hour. */
    method Admit(now: int) returns (ok: bool)
      requires Valid() && now >= clock
      modifies this
      ensures Valid() && clock == now
      ensures ok <==> !old(active) && |Recent(old(admitted), now)| < maxPerHour
      ensures active == (old(active) || ok) && admitted == if ok then old(admitted) + [now] else old(admitted)
    {
      TracksLater(admitted, started, clock, now);
      clock := now;
      if active {
        return false;
      }
      started := Compact(started, now);
      if |started| >= maxPerHour {
        return false;
      }
      LimitKept(admitted, maxPerHour, now);
      TracksMore(admitted, started, now);
      started := started + [now];
      admitted := admitted + [now];
      active := true;
      return true;
    }

    /** One session from admission to release. */
    method Advise(now: int) returns (admittedNow: bool, log: seq<Act>, ok: bool)
      requires Valid() && now >= clock
      modifies this
      ensures Valid() && clock == now && active == (old(active) && !admittedNow)
      ensures admitted == if admittedNow then old(admitted) + [now] else old(admitted)
      ensures !admittedNow ==> log == [] && !ok
      ensures LogOk(log) && Requests(log) <= MAX_REQUESTS
    {
      admittedNow := Admit(now);
      if !admittedNow {
        return false, [], false;
      }
      var r, toolCalls;
      log, r, toolCalls := Converse(maxToolCalls);
      active := false;
      return true, log, r.ok;
    }
  }

  /** Any `limit + 1` consecutive admissions span an hour or more. */
  predicate HourlyLimit(admitted: seq<int>, limit: nat) {
    forall i, k | 0 <= i < |admitted| && 0 <= k < |admitted| && k == i + limit :: admitted[k] - admitted[i] >= HOUR
  }

  /** `started` ends the list of all admissions, and what it lacks is an hour old. */
  predicate Tracks(admitted: seq<int>, started: seq<int>, clock: int) {
    && Sorted(admitted) && (forall i | 0 <= i < |admitted| :: admitted[i] <= clock)
    && |started| <= |admitted| && started == admitted[|admitted| - |started|..]
    && (forall i | 0 <= i < |admitted| - |started| :: clock - admitted[i] >= HOUR)
  }

  lemma {:induction false} OldOnesDoNotCount(past: seq<int>, s: seq<int>, now: int)
    requires forall i | 0 <= i < |past| :: now - past[i] >= HOUR
    ensures Recent(past + s, now) == Recent(s, now)
  {
    if s == [] {
      assert past + s == past;
      NoneRecent(past, now);
    } else {
      assert (past + s)[..|past + s| - 1] == past + s[..|s| - 1];
      OldOnesDoNotCount(past, s[..|s| - 1], now);
    }
  }

  /** Time passes, and what has become old may be dropped. */
  lemma TracksLater(admitted: seq<int>, started: seq<int>, clock: int, now: int)
    requires Tracks(admitted, started, clock) && now >= clock
    ensures Recent(started, now) == Recent(admitted, now)
    ensures Tracks(admitted, started, now) && Tracks(admitted, Recent(started, now), now)
  {
    var past := admitted[..|admitted| - |started|];
    assert admitted == past + started;
    OldOnesDoNotCount(past, started, now);
    RecentIsSuffix(admitted, now);
  }

  lemma TracksMore(admitted: seq<int>, started: seq<int>, now: int)
    requires Tracks(admitted, started, now)
    ensures Tracks(admitted + [now], started + [now], now)
  {
    var all, kept := admitted + [now], started + [now];
    assert all[|all| - |kept|..] == admitted[|admitted| - |started|..] + [now];
  }

  lemma LimitKept(admitted: seq<int>, limit: nat, now: int)
    requires Sorted(admitted) && HourlyLimit(admitted, limit) && |Recent(admitted, now)| < limit
    ensures HourlyLimit(admitted + [now], limit)
  {
    RecentIsSuffix(admitted, now);
  }

  /** However chosen, admissions that lie within less than an hour of each other are no more
      than the limit. */
  lemma FewInAnyHour(admitted: seq<int>, limit: nat, chosen: set<nat>)
    requires Sorted(admitted) && HourlyLimit(admitted, limit)
    requires forall i | i in chosen :: i < |admitted|
    requires forall i, k | i in chosen && k in chosen :: admitted[k] - admitted[i] < HOUR
    ensures |chosen| <= limit
  {
    if chosen != {} {
      var low := Lowest(chosen);
      forall k | k in chosen ensures low <= k < low + limit {
        if k >= low + limit { FarApart(admitted, limit, low, k); }
      }
      Interval(chosen, low, limit);
    }
  }

  lemma FarApart(admitted: seq<int>, limit: nat, i: nat, k: nat)
    requires Sorted(admitted) && HourlyLimit(admitted, limit) && i + limit <= k < |admitted|
    ensures admitted[k] - admitted[i] >= HOUR
  {
    var m := i + limit;
    assert admitted[m] - admitted[i] >= HOUR;
    if m < k { assert admitted[m] <= admitted[k]; }
  }

  lemma Lowest(s: set<nat>) returns (low: nat)
    requires s != {}
    ensures low in s && forall k | k in s :: low <= k
    decreases |s|
  {
    low :| low in s;
    if exists k :: k in s && k < low {
      var k :| k in s && k < low;
      assert k in s - {low};
      var top := low;
      low := Lowest(s - {low});
      assert forall k | k in s :: k == top || k in s - {top};
    }
  }

  lemma {:induction false} Interval(s: set<nat>, low: nat, n: nat)
    requires forall k | k in s :: low <= k < low + n
    ensures |s| <= n
  {
    if n == 0 {
      assert s == {};
    } else {
      Interval(s - {low + n - 1}, low, n - 1);
    }
  }
}
