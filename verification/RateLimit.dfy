// The per-client token buckets and the sweep of stale ones. Tokens, rates and
// instants (in seconds) are real numbers.
module RateLimiting {
  import opened Basics

  datatype Bucket = Bucket(tokens: real, lastRefill: real)

  datatype Limiter = Limiter(max: real, rate: real, now: real, buckets: map<Id, Bucket>)

  const STALE := 600.0

  function Min(a: real, b: real): real { if a > b then b else a }

  function Created(max: real, rate: real, now: real): Limiter { Limiter(max, rate, now, map[]) }

  function Refill(tokens: real, elapsed: real, rate: real, max: real): real {
    Min(tokens + elapsed * rate, max)
  }

  // What a bucket holds once refilled; a client without one gets a full one.
  function Level(s: Limiter, ip: Id): real {
    if ip in s.buckets
    then Refill(s.buckets[ip].tokens, s.now - s.buckets[ip].lastRefill, s.rate, s.max)
    else s.max
  }

  predicate Admits(s: Limiter, ip: Id) { Level(s, ip) >= 1.0 }

  // Requests are answered with Admits; an elapsed time is never negative.
  datatype Op = Tick(elapsed: real) | Request(ip: Id) | Cleanup

  function Step(s: Limiter, op: Op): Limiter {
    match op
    case Tick(d) => if d >= 0.0 then s.(now := s.now + d) else s
    case Request(ip) =>
      var level := Level(s, ip);
      s.(buckets := s.buckets[ip := Bucket(if Admits(s, ip) then level - 1.0 else level, s.now)])
    case Cleanup =>
      s.(buckets := map ip | ip in s.buckets && !(s.buckets[ip].lastRefill < s.now - STALE) :: s.buckets[ip])
  }

  function Run(s: Limiter, ops: seq<Op>): Limiter
    decreases |ops|
  {
    if ops == [] then s else Run(Step(s, ops[0]), ops[1..])
  }

  // How many requests of a client a run admits.
  function Admissions(s: Limiter, ops: seq<Op>, ip: Id): nat
    decreases |ops|
  {
    if ops == [] then 0
    else (if ops[0] == Request(ip) && Admits(s, ip) then 1 else 0) + Admissions(Step(s, ops[0]), ops[1..], ip)
  }

  ghost predicate Valid(s: Limiter) {
    s.rate >= 0.0 && forall ip :: ip in s.buckets ==> s.buckets[ip].lastRefill <= s.now
  }

  // ---------------------------------------------------------------------
  // What each step does to a level
  // ---------------------------------------------------------------------

  lemma ProductNonNegative(a: real, b: real)
    requires a >= 0.0 && b >= 0.0
    ensures a * b >= 0.0
  {
  }

  lemma ProductMonotone(a: real, b: real, r: real)
    requires a <= b && r >= 0.0
    ensures a * r <= b * r
  {
    ProductNonNegative(b - a, r);
    assert (b - a) * r == b * r - a * r;
  }

  lemma RefillTwice(tokens: real, e: real, d: real, rate: real, max: real)
    requires d >= 0.0 && rate >= 0.0
    ensures Refill(tokens, e + d, rate, max) == Min(Refill(tokens, e, rate, max) + d * rate, max)
  {
    ProductNonNegative(d, rate);
    assert (e + d) * rate == e * rate + d * rate;
  }

  lemma RefillNone(tokens: real, e: real, rate: real, max: real)
    requires e == 0.0
    ensures Refill(tokens, e, rate, max) == Min(tokens, max)
  {
    assert e * rate == 0.0;
  }

  lemma TickLevel(s: Limiter, d: real, ip: Id)
    requires Valid(s) && d >= 0.0
    ensures Level(Step(s, Tick(d)), ip) == Min(Level(s, ip) + d * s.rate, s.max)
  {
    if ip in s.buckets {
      var b := s.buckets[ip];
      RefillTwice(b.tokens, s.now - b.lastRefill, d, s.rate, s.max);
      assert s.now + d - b.lastRefill == s.now - b.lastRefill + d;
    } else {
      ProductNonNegative(d, s.rate);
    }
  }

  lemma RequestLevel(s: Limiter, ip: Id, k: Id)
    requires Valid(s)
    ensures Level(Step(s, Request(ip)), k) ==
            if k == ip && Admits(s, ip) then Level(s, ip) - 1.0 else Level(s, k)
  {
    var s' := Step(s, Request(ip));
    if k == ip {
      RefillNone(s'.buckets[ip].tokens, s'.now - s'.buckets[ip].lastRefill, s.rate, s.max);
    }
  }

  ghost predicate SameLevels(s: Limiter, t: Limiter) {
    s.max == t.max && s.rate == t.rate && s.now == t.now && forall ip :: Level(s, ip) == Level(t, ip)
  }

  predicate Stale(s: Limiter, ip: Id) {
    ip in s.buckets && s.buckets[ip].lastRefill < s.now - STALE
  }

  lemma CleanupLevel(s: Limiter, ip: Id)
    ensures Level(Step(s, Cleanup), ip) == if Stale(s, ip) then s.max else Level(s, ip)
  {
  }

  lemma StepValid(s: Limiter, op: Op)
    requires Valid(s)
    ensures Valid(Step(s, op)) && Step(s, op).now >= s.now
    ensures Step(s, op).max == s.max && Step(s, op).rate == s.rate
  {
  }

  // ---------------------------------------------------------------------
  // No window admits more than the burst and the sustained rate
  // ---------------------------------------------------------------------

  ghost predicate NonNegative(s: Limiter) {
    s.max >= 0.0 && forall ip :: ip in s.buckets ==> s.buckets[ip].tokens >= 0.0
  }

  // Ten minutes refill a bucket, or no bucket ever admits anything.
  predicate RefillsBeforeStale(s: Limiter) { STALE * s.rate >= s.max || s.max < 1.0 }

  lemma LevelNonNegative(s: Limiter, ip: Id)
    requires Valid(s) && NonNegative(s)
    ensures 0.0 <= Level(s, ip) <= s.max
  {
    if ip in s.buckets {
      RefillInRange(s.buckets[ip].tokens, s.now - s.buckets[ip].lastRefill, s.rate, s.max);
    }
  }

  lemma RefillInRange(tokens: real, e: real, rate: real, max: real)
    requires tokens >= 0.0 && e >= 0.0 && rate >= 0.0 && max >= 0.0
    ensures 0.0 <= Refill(tokens, e, rate, max) <= max
  {
    ProductNonNegative(e, rate);
  }

  lemma StepNonNegative(s: Limiter, op: Op)
    requires Valid(s) && NonNegative(s)
    ensures NonNegative(Step(s, op))
  {
    if op.Request? {
      LevelNonNegative(s, op.ip);
    }
  }

  lemma StaleIsFull(s: Limiter, ip: Id)
    requires Valid(s) && NonNegative(s) && STALE * s.rate >= s.max && Stale(s, ip)
    ensures Level(s, ip) == s.max
  {
    LongIdleFills(s.buckets[ip].tokens, s.now - s.buckets[ip].lastRefill, s.rate, s.max);
  }

  lemma LongIdleFills(tokens: real, idle: real, rate: real, max: real)
    requires tokens >= 0.0 && rate >= 0.0 && idle >= STALE && STALE * rate >= max
    ensures Refill(tokens, idle, rate, max) == max
  {
    ProductNonNegative(idle - STALE, rate);
    assert (idle - STALE) * rate == idle * rate - STALE * rate;
  }

  // What the passing of time adds to every bucket, at most.
  function StepEarns(s: Limiter, op: Op): real {
    if op.Tick? && op.elapsed >= 0.0 then op.elapsed * s.rate else 0.0
  }

  function Earns(s: Limiter, ops: seq<Op>): real
    decreases |ops|
  {
    if ops == [] then 0.0 else StepEarns(s, ops[0]) + Earns(Step(s, ops[0]), ops[1..])
  }

  lemma EarnsMore(rate: real, a: real, b: real, c: real)
    ensures (c - a) * rate == (c - b) * rate + (b - a) * rate
  {
  }

  lemma {:induction false} EarnsWithTime(s: Limiter, ops: seq<Op>)
    requires Valid(s)
    ensures Earns(s, ops) == (Run(s, ops).now - s.now) * s.rate
    decreases |ops|
  {
    if ops != [] {
      var s1 := Step(s, ops[0]);
      StepValid(s, ops[0]);
      EarnsWithTime(s1, ops[1..]);
      EarnsMore(s.rate, s.now, s1.now, Run(s, ops).now);
    }
  }

  predicate NoSweep(ops: seq<Op>) { forall i :: 0 <= i < |ops| ==> !ops[i].Cleanup? }

  // One step: what is admitted, and what is left, is paid for by what was
  // there and the time that passed.
  lemma StepPays(s: Limiter, op: Op, ip: Id)
    requires Valid(s) && NonNegative(s) && (STALE * s.rate >= s.max || !op.Cleanup?)
    ensures (if op == Request(ip) && Admits(s, ip) then 1.0 else 0.0) + Level(Step(s, op), ip) <=
            Level(s, ip) + StepEarns(s, op)
  {
    match op
    case Tick(d) =>
      if d >= 0.0 {
        TickLevel(s, d, ip);
      }
    case Request(k) => RequestLevel(s, k, ip);
    case Cleanup =>
      CleanupLevel(s, ip);
      if Stale(s, ip) {
        StaleIsFull(s, ip);
      }
  }

  lemma {:induction false} RunPays(s: Limiter, ops: seq<Op>, ip: Id)
    requires Valid(s) && NonNegative(s) && (STALE * s.rate >= s.max || NoSweep(ops))
    ensures Admissions(s, ops, ip) as real + Level(Run(s, ops), ip) <= Level(s, ip) + Earns(s, ops)
    decreases |ops|
  {
    if ops != [] {
      StepValid(s, ops[0]);
      StepNonNegative(s, ops[0]);
      StepPays(s, ops[0], ip);
      RunPays(Step(s, ops[0]), ops[1..], ip);
    }
  }

  lemma {:induction false} NothingAdmitted(s: Limiter, ops: seq<Op>, ip: Id)
    requires s.max < 1.0
    ensures Admissions(s, ops, ip) == 0
    decreases |ops|
  {
    if ops != [] {
      NothingAdmitted(Step(s, ops[0]), ops[1..], ip);
    }
  }

  lemma {:induction false} TimePasses(s: Limiter, ops: seq<Op>)
    requires Valid(s)
    ensures Valid(Run(s, ops)) && Run(s, ops).now >= s.now
    ensures Run(s, ops).max == s.max && Run(s, ops).rate == s.rate
    ensures NonNegative(s) ==> NonNegative(Run(s, ops))
    decreases |ops|
  {
    if ops != [] {
      StepValid(s, ops[0]);
      if NonNegative(s) {
        StepNonNegative(s, ops[0]);
      }
      TimePasses(Step(s, ops[0]), ops[1..]);
    }
  }

  // The window admits no more than the burst and what the time in it earns.
  ghost predicate Bounded(s: Limiter, window: seq<Op>, ip: Id) {
    Admissions(s, window, ip) as real <= s.max + (Run(s, window).now - s.now) * s.rate
  }

  lemma BoundFrom(s: Limiter, window: seq<Op>, ip: Id)
    requires Valid(s) && NonNegative(s) && (RefillsBeforeStale(s) || NoSweep(window))
    ensures Bounded(s, window, ip)
  {
    EarnsWithTime(s, window);
    if s.max < 1.0 {
      NothingAdmitted(s, window, ip);
      EarnsNonNegative(s, window);
    } else {
      LevelNonNegative(s, ip);
      RunPays(s, window, ip);
      TimePasses(s, window);
      LevelNonNegative(Run(s, window), ip);
    }
  }

  // From any reachable state on, a client gets at most max + rate * T
  // admissions in any time T in which no sweep runs.
  lemma WindowBound(max: real, rate: real, before: seq<Op>, s: Limiter, window: seq<Op>, ip: Id)
    requires max >= 0.0 && rate >= 0.0 && s == Run(Created(max, rate, 0.0), before) && NoSweep(window)
    ensures s.max == max && s.rate == rate && Bounded(s, window, ip)
  {
    TimePasses(Created(max, rate, 0.0), before);
    BoundFrom(s, window, ip);
  }

  lemma {:induction false} EarnsNonNegative(s: Limiter, ops: seq<Op>)
    requires Valid(s)
    ensures Earns(s, ops) >= 0.0
    decreases |ops|
  {
    if ops != [] {
      StepValid(s, ops[0]);
      if ops[0].Tick? && ops[0].elapsed >= 0.0 {
        ProductNonNegative(ops[0].elapsed, s.rate);
      }
      EarnsNonNegative(Step(s, ops[0]), ops[1..]);
    }
  }

  // ---------------------------------------------------------------------
  // The sweep shows exactly when ten minutes do not refill a bucket
  // ---------------------------------------------------------------------

  // At no later point is any request answered differently.
  ghost predicate Invisible(s: Limiter) {
    forall ops, ip :: Admits(Run(s, ops), ip) == Admits(Run(Step(s, Cleanup), ops), ip)
  }

  lemma StepAlike(s: Limiter, t: Limiter, op: Op)
    requires Valid(s) && Valid(t) && NonNegative(s) && NonNegative(t) && SameLevels(s, t)
    requires STALE * s.rate >= s.max
    ensures SameLevels(Step(s, op), Step(t, op))
  {
    forall ip ensures Level(Step(s, op), ip) == Level(Step(t, op), ip) {
      match op
      case Tick(d) =>
        if d >= 0.0 {
          TickLevel(s, d, ip);
          TickLevel(t, d, ip);
        }
      case Request(k) =>
        RequestLevel(s, k, ip);
        RequestLevel(t, k, ip);
      case Cleanup =>
        CleanupLevel(s, ip);
        CleanupLevel(t, ip);
        if Stale(s, ip) { StaleIsFull(s, ip); }
        if Stale(t, ip) { StaleIsFull(t, ip); }
    }
  }

  lemma {:induction false} RunAlike(s: Limiter, t: Limiter, ops: seq<Op>)
    requires Valid(s) && Valid(t) && NonNegative(s) && NonNegative(t) && SameLevels(s, t)
    requires STALE * s.rate >= s.max
    ensures SameLevels(Run(s, ops), Run(t, ops))
    decreases |ops|
  {
    if ops != [] {
      StepAlike(s, t, ops[0]);
      StepValid(s, ops[0]);
      StepValid(t, ops[0]);
      StepNonNegative(s, ops[0]);
      StepNonNegative(t, ops[0]);
      RunAlike(Step(s, ops[0]), Step(t, ops[0]), ops[1..]);
    }
  }

  lemma {:induction false} NeverAdmits(s: Limiter, ops: seq<Op>, ip: Id)
    requires s.max < 1.0
    ensures !Admits(Run(s, ops), ip)
    decreases |ops|
  {
    if ops != [] {
      NeverAdmits(Step(s, ops[0]), ops[1..], ip);
    }
  }

  lemma CleanupIsInvisible(s: Limiter)
    requires Valid(s) && NonNegative(s) && RefillsBeforeStale(s)
    ensures Invisible(s)
  {
    var t := Step(s, Cleanup);
    forall ops, ip ensures Admits(Run(s, ops), ip) == Admits(Run(t, ops), ip) {
      if s.max < 1.0 {
        NeverAdmits(s, ops, ip);
        NeverAdmits(t, ops, ip);
      } else {
        forall k ensures Level(s, k) == Level(t, k) {
          CleanupLevel(s, k);
          if Stale(s, k) { StaleIsFull(s, k); }
        }
        RunAlike(s, t, ops);
      }
    }
  }

  function Burst(ip: Id, k: nat): seq<Op> {
    if k == 0 then [] else [Request(ip)] + Burst(ip, k - 1)
  }

  lemma {:induction false} RunAppend(s: Limiter, a: seq<Op>, b: seq<Op>)
    ensures Run(s, a + b) == Run(Run(s, a), b)
    decreases |a|
  {
    if a == [] {
      assert a + b == b;
    } else {
      assert (a + b)[1..] == a[1..] + b;
      RunAppend(Step(s, a[0]), a[1..], b);
    }
  }

  lemma RunOne(s: Limiter, op: Op)
    ensures Run(s, [op]) == Step(s, op)
  {
    assert [op][1..] == [];
  }

  // k requests at once, all of them covered, take k tokens.
  lemma {:induction false} BurstDrains(s: Limiter, ip: Id, k: nat)
    requires Valid(s) && Level(s, ip) >= k as real
    ensures var s' := Run(s, Burst(ip, k));
            Valid(s') && s'.max == s.max && s'.rate == s.rate && s'.now == s.now &&
            Level(s', ip) == Level(s, ip) - k as real &&
            (k > 0 ==> ip in s'.buckets && s'.buckets[ip].lastRefill == s.now)
    ensures Admissions(s, Burst(ip, k), ip) == k && Earns(s, Burst(ip, k)) == 0.0
    decreases k
  {
    if k > 0 {
      var s1 := Step(s, Request(ip));
      RequestLevel(s, ip, ip);
      assert Burst(ip, k)[1..] == Burst(ip, k - 1);
      BurstDrains(s1, ip, k - 1);
      if k == 1 {
        assert Run(s1, []) == s1;
      }
    }
  }

  // A full bucket brought as low as it goes: empty, or the fraction that is left
  // when nothing is ever refilled. What it held and earned has been admitted.
  lemma Drain(s: Limiter, ip: Id) returns (ops: seq<Op>)
    requires Valid(s) && s.max >= 1.0 && Level(s, ip) == s.max
    ensures var t := Run(s, ops);
            && Valid(t) && t.max == s.max && t.rate == s.rate && ip in t.buckets && t.buckets[ip].lastRefill == t.now
            && (s.rate > 0.0 ==> Level(t, ip) == 0.0)
            && (s.rate == 0.0 ==> 0.0 <= Level(t, ip) < 1.0)
            && Admissions(s, ops, ip) as real + Level(t, ip) == s.max + Earns(s, ops)
  {
    var n := s.max.Floor;
    var burst := Burst(ip, n);
    BurstDrains(s, ip, n);
    if s.rate > 0.0 {
      var t := Run(s, burst);
      var rest := LastOne(t, s.max - n as real, ip);
      ops := burst + rest;
      RunAppend(s, burst, rest);
      AdmissionsAppend(s, burst, rest, ip);
      EarnsAppend(s, burst, rest);
      assert Admissions(s, ops, ip) == n + 1;
      assert Run(s, ops) == Run(t, rest);
    } else {
      ops := burst;
    }
  }

  // Waiting for the next token and taking it.
  lemma LastOne(s: Limiter, f: real, ip: Id) returns (ops: seq<Op>)
    requires Valid(s) && s.rate > 0.0 && s.max >= 1.0 && 0.0 <= f < 1.0 && Level(s, ip) == f
    ensures var t := Run(s, ops);
            && Valid(t) && t.max == s.max && t.rate == s.rate && ip in t.buckets && t.buckets[ip].lastRefill == t.now
            && Level(t, ip) == 0.0 && Admissions(s, ops, ip) == 1 && Earns(s, ops) == 1.0 - f
  {
    var wait := (1.0 - f) / s.rate;
    WaitForOne(s, wait, f, ip);
    var s2 := Step(s, Tick(wait));
    RequestLevel(s2, ip, ip);
    ops := [Tick(wait), Request(ip)];
    RunOne(s2, Request(ip));
    assert ops[1..] == [Request(ip)] && [Request(ip)][1..] == [];
    assert Admissions(s2, [Request(ip)], ip) == 1 + Admissions(Step(s2, Request(ip)), [], ip);
    assert Earns(s2, [Request(ip)]) == 0.0 + Earns(Step(s2, Request(ip)), []);
    assert Run(s, ops) == Step(s2, Request(ip));
  }

  lemma {:induction false} AdmissionsAppend(s: Limiter, a: seq<Op>, b: seq<Op>, ip: Id)
    ensures Admissions(s, a + b, ip) == Admissions(s, a, ip) + Admissions(Run(s, a), b, ip)
    decreases |a|
  {
    if a == [] {
      assert a + b == b;
    } else {
      assert (a + b)[1..] == a[1..] + b;
      AdmissionsAppend(Step(s, a[0]), a[1..], b, ip);
    }
  }

  lemma {:induction false} EarnsAppend(s: Limiter, a: seq<Op>, b: seq<Op>)
    ensures Earns(s, a + b) == Earns(s, a) + Earns(Run(s, a), b)
    decreases |a|
  {
    if a == [] {
      assert a + b == b;
    } else {
      assert (a + b)[1..] == a[1..] + b;
      EarnsAppend(Step(s, a[0]), a[1..], b);
    }
  }

  // Waiting until a bucket that holds f < 1 holds one token.
  lemma WaitForOne(s: Limiter, wait: real, f: real, ip: Id)
    requires Valid(s) && s.rate > 0.0 && s.max >= 1.0
    requires 0.0 <= f < 1.0 && wait == (1.0 - f) / s.rate
    ensures wait >= 0.0 && wait * s.rate == 1.0 - f
    ensures Valid(Step(s, Tick(wait)))
    ensures Level(Step(s, Tick(wait)), ip) == Min(Level(s, ip) + 1.0 - f, s.max)
  {
    assert wait >= 0.0;
    assert wait * s.rate == 1.0 - f;
    TickLevel(s, wait, ip);
  }

  // When ten minutes do not refill a bucket, a swept one admits what the kept
  // one would not.
  lemma SweepShows(max: real, rate: real, ip: Id) returns (before: seq<Op>, after: seq<Op>)
    requires rate >= 0.0 && max >= 1.0 && STALE * rate < max
    ensures var s := Run(Created(max, rate, 0.0), before);
            !Admits(Run(s, after), ip) && Admits(Run(Step(s, Cleanup), after), ip)
  {
    var s0 := Created(max, rate, 0.0);
    var drain := Drain(s0, ip);
    var d := Run(s0, drain);
    var idle, spare := IdleTime(max, rate);
    var s := Step(d, Tick(idle));
    before := drain + [Tick(idle)];
    RunAppend(s0, drain, [Tick(idle)]);
    RunOne(d, Tick(idle));
    StillShort(d, ip, idle, spare);
    StepValid(d, Tick(idle));
    var t := Step(s, Cleanup);
    StepValid(s, Cleanup);
    CleanupLevel(s, ip);
    assert Stale(s, ip);
    assert Level(t, ip) == max;
    assert 0.0 <= Level(s, ip) < max;
    after := Distinguish(s, t, ip);
  }

  // Longer than ten minutes, and still too short to refill: spare tokens are
  // missing, or at least one when nothing is refilled.
  predicate Forgives(max: real, rate: real, idle: real, spare: real) {
    idle > STALE && spare > 0.0 && if rate == 0.0 then spare == 1.0 else idle * rate + spare == max
  }

  lemma IdleTime(max: real, rate: real) returns (idle: real, spare: real)
    requires rate >= 0.0 && max >= 1.0 && STALE * rate < max
    ensures Forgives(max, rate, idle, spare)
  {
    if rate == 0.0 {
      idle, spare := STALE + 1.0, 1.0;
      assert idle * rate == 0.0;
    } else {
      var full := max / rate;
      assert full * rate == max;
      assert full > STALE by {
        if full <= STALE {
          ProductMonotone(full, STALE, rate);
        }
      }
      idle, spare := (STALE + full) / 2.0, (max - STALE * rate) / 2.0;
      assert idle * rate == (STALE * rate + full * rate) / 2.0;
    }
  }

  // What the drained bucket holds after idling.
  lemma StillShort(d: Limiter, ip: Id, idle: real, spare: real)
    requires Valid(d) && d.max >= 1.0 && Forgives(d.max, d.rate, idle, spare)
    requires if d.rate > 0.0 then Level(d, ip) == 0.0 else 0.0 <= Level(d, ip) < 1.0
    ensures 0.0 <= Level(Step(d, Tick(idle)), ip) < d.max
    ensures d.rate == 0.0 ==> Level(Step(d, Tick(idle)), ip) < 1.0
  {
    TickLevel(d, idle, ip);
    if d.rate == 0.0 {
      assert idle * d.rate == 0.0;
    } else {
      ProductNonNegative(idle, d.rate);
    }
  }

  // From different levels, requests and at most one wait tell the two apart.
  lemma Distinguish(s: Limiter, t: Limiter, ip: Id) returns (after: seq<Op>)
    requires Valid(s) && Valid(t) && s.max == t.max && s.rate == t.rate && s.max >= 1.0
    requires 0.0 <= Level(s, ip) < Level(t, ip) == s.max
    requires s.rate == 0.0 ==> Level(s, ip) < 1.0
    ensures !Admits(Run(s, after), ip) && Admits(Run(t, after), ip)
  {
    var v, m := Level(s, ip), s.max;
    var k, n := v.Floor, m.Floor;
    if k < n {
      BurstDrains(s, ip, k);
      BurstDrains(t, ip, k);
      after := Burst(ip, k);
    } else {
      BurstDrains(s, ip, n);
      BurstDrains(t, ip, n);
      var s1, t1 := Run(s, Burst(ip, n)), Run(t, Burst(ip, n));
      var f := m - n as real;
      var wait := (1.0 - f) / s.rate;
      WaitForOne(s1, wait, f, ip);
      WaitForOne(t1, wait, f, ip);
      after := Burst(ip, n) + [Tick(wait)];
      RunAppend(s, Burst(ip, n), [Tick(wait)]);
      RunAppend(t, Burst(ip, n), [Tick(wait)]);
      RunOne(s1, Tick(wait));
      RunOne(t1, Tick(wait));
    }
  }

  // From every reachable state the sweep is invisible, exactly when ten
  // minutes refill a bucket or the burst is too small to admit anything.
  lemma SweepInvisibleIff(max: real, rate: real, ip: Id)
    requires rate >= 0.0 && max >= 0.0
    ensures (forall ops :: Invisible(Run(Created(max, rate, 0.0), ops))) <==> STALE * rate >= max || max < 1.0
  {
    if STALE * rate >= max || max < 1.0 {
      forall ops ensures Invisible(Run(Created(max, rate, 0.0), ops)) {
        TimePasses(Created(max, rate, 0.0), ops);
        CleanupIsInvisible(Run(Created(max, rate, 0.0), ops));
      }
    } else {
      var before, after := SweepShows(max, rate, ip);
      assert !Invisible(Run(Created(max, rate, 0.0), before));
    }
  }

  // ---------------------------------------------------------------------
  // ... and exactly then sweeps let a window exceed its bound
  // ---------------------------------------------------------------------

  // Draining a full bucket and idling until it is swept leaves it full again,
  // with more admitted than the time has earned.
  lemma Cycle(s: Limiter, ip: Id, idle: real, spare: real) returns (ops: seq<Op>)
    requires Valid(s) && s.max >= 1.0 && Level(s, ip) == s.max && Forgives(s.max, s.rate, idle, spare)
    ensures var t := Run(s, ops);
            && Valid(t) && t.max == s.max && t.rate == s.rate && Level(t, ip) == s.max
            && Admissions(s, ops, ip) as real >= Earns(s, ops) + spare
  {
    var drain := Drain(s, ip);
    var d := Run(s, drain);
    var rest := [Tick(idle), Cleanup];
    ops := drain + rest;
    RunAppend(s, drain, rest);
    AdmissionsAppend(s, drain, rest, ip);
    EarnsAppend(s, drain, rest);
    Forgiven(d, ip, idle);
    if s.rate == 0.0 {
      assert idle * s.rate == 0.0;
      EarnsWithTime(s, drain);
      assert (d.now - s.now) * s.rate == 0.0;
      WholeAdmissions(Admissions(s, drain, ip), s.max, Level(d, ip));
    }
  }

  lemma WholeAdmissions(n: nat, max: real, left: real)
    requires max >= 1.0 && 0.0 <= left < 1.0 && n as real + left == max
    ensures n >= 1
  {
  }

  // A bucket idle for more than ten minutes is full once swept.
  lemma Forgiven(d: Limiter, ip: Id, idle: real)
    requires Valid(d) && ip in d.buckets && d.buckets[ip].lastRefill == d.now && idle > STALE
    ensures var t := Run(d, [Tick(idle), Cleanup]);
            Valid(t) && t.max == d.max && t.rate == d.rate && Level(t, ip) == d.max
    ensures Admissions(d, [Tick(idle), Cleanup], ip) == 0 && Earns(d, [Tick(idle), Cleanup]) == idle * d.rate
  {
    var s, ops := Step(d, Tick(idle)), [Tick(idle), Cleanup];
    StepValid(d, Tick(idle));
    StepValid(s, Cleanup);
    CleanupLevel(s, ip);
    assert ops[1..] == [Cleanup] && [Cleanup][1..] == [];
    RunOne(s, Cleanup);
    assert Admissions(s, [Cleanup], ip) == 0 + Admissions(Step(s, Cleanup), [], ip);
    assert Earns(s, [Cleanup]) == 0.0 + Earns(Step(s, Cleanup), []);
  }

  lemma {:induction false} Cycles(s: Limiter, ip: Id, idle: real, spare: real, k: nat) returns (ops: seq<Op>)
    requires Valid(s) && s.max >= 1.0 && Level(s, ip) == s.max && Forgives(s.max, s.rate, idle, spare)
    ensures Admissions(s, ops, ip) as real >= Earns(s, ops) + Times(k, spare)
    decreases k
  {
    if k == 0 {
      ops := [];
    } else {
      var one := Cycle(s, ip, idle, spare);
      var rest := Cycles(Run(s, one), ip, idle, spare, k - 1);
      ops := one + rest;
      AdmissionsAppend(s, one, rest, ip);
      EarnsAppend(s, one, rest);
    }
  }

  function Times(k: nat, spare: real): real {
    if k == 0 then 0.0 else Times(k - 1, spare) + spare
  }

  lemma {:induction false} TimesIsProduct(k: nat, spare: real)
    ensures Times(k, spare) == k as real * spare
  {
    if k > 0 {
      TimesIsProduct(k - 1, spare);
      assert k as real * spare == (k - 1) as real * spare + spare;
    }
  }

  lemma EnoughCycles(max: real, spare: real) returns (k: nat)
    requires max >= 0.0 && spare > 0.0
    ensures Times(k, spare) > max
  {
    var q := max / spare;
    assert q * spare == max;
    k := q.Floor + 1;
    TimesIsProduct(k, spare);
    assert (k as real - q) * spare == k as real * spare - q * spare;
    assert (k as real - q) * spare > 0.0;
  }

  lemma SweepsExceed(max: real, rate: real, ip: Id) returns (window: seq<Op>)
    requires rate >= 0.0 && max >= 1.0 && STALE * rate < max
    ensures !Bounded(Created(max, rate, 0.0), window, ip)
  {
    var s := Created(max, rate, 0.0);
    var idle, spare := IdleTime(max, rate);
    var k := EnoughCycles(max, spare);
    window := Cycles(s, ip, idle, spare, k);
    EarnsWithTime(s, window);
  }

  // Every window of every run is bounded, sweeps included, exactly when ten
  // minutes refill a bucket or the burst is too small to admit anything.
  lemma WindowBoundIff(max: real, rate: real, ip: Id)
    requires rate >= 0.0 && max >= 0.0
    ensures (forall before, window :: Bounded(Run(Created(max, rate, 0.0), before), window, ip)) <==>
            STALE * rate >= max || max < 1.0
  {
    var s0 := Created(max, rate, 0.0);
    if STALE * rate >= max || max < 1.0 {
      forall before, window ensures Bounded(Run(s0, before), window, ip) {
        TimePasses(s0, before);
        BoundFrom(Run(s0, before), window, ip);
      }
    } else {
      var window := SweepsExceed(max, rate, ip);
      assert !Bounded(Run(s0, []), window, ip);
    }
  }

  // Both configured limiters are on the safe side.
  lemma ConfiguredLimitersAreSafe(before: seq<Op>, window: seq<Op>, ip: Id)
    ensures var s := Run(Created(20.0, 5.0, 0.0), before); Invisible(s) && Bounded(s, window, ip)
    ensures var s := Run(Created(10.0, 3.0, 0.0), before); Invisible(s) && Bounded(s, window, ip)
  {
    SweepInvisibleIff(20.0, 5.0, ip);
    SweepInvisibleIff(10.0, 3.0, ip);
    WindowBoundIff(20.0, 5.0, ip);
    WindowBoundIff(10.0, 3.0, ip);
  }

  // ---------------------------------------------------------------------
  // A request is refused only when it would exceed the bound of a window
  // ---------------------------------------------------------------------

  // The sweeps of the run, if any, hide nothing.
  predicate Faithful(s: Limiter, ops: seq<Op>) { NoSweep(ops) || RefillsBeforeStale(s) }

  // The state after the first i steps.
  function At(s: Limiter, ops: seq<Op>, i: nat): Limiter
    requires i <= |ops|
  {
    Run(s, ops[..i])
  }

  // What the bucket would hold had it been full at step i and stayed below.
  function SinceFull(s: Limiter, ops: seq<Op>, i: nat, ip: Id): real
    requires i <= |ops|
  {
    s.max + Earns(At(s, ops, i), ops[i..]) - Admissions(At(s, ops, i), ops[i..], ip) as real
  }

  lemma SnocWindow(s: Limiter, front: seq<Op>, op: Op, i: nat, ip: Id)
    requires i <= |front|
    ensures var ops, t := front + [op], Run(s, front);
            At(s, ops, i) == At(s, front, i) && Run(s, ops) == Step(t, op) &&
            SinceFull(s, ops, i, ip) ==
            SinceFull(s, front, i, ip) + StepEarns(t, op) - (if op == Request(ip) && Admits(t, ip) then 1.0 else 0.0)
  {
    var ops, u := front + [op], At(s, front, i);
    assert ops[..i] == front[..i] && ops[i..] == front[i..] + [op] && front == front[..i] + front[i..];
    RunAppend(s, front[..i], front[i..]);
    RunAppend(s, front, [op]);
    RunOne(Run(s, front), op);
    AdmissionsAppend(u, front[i..], [op], ip);
    EarnsAppend(u, front[i..], [op]);
    OneStepWindow(Run(s, front), op, ip);
  }

  lemma OneStepWindow(t: Limiter, op: Op, ip: Id)
    ensures Earns(t, [op]) == StepEarns(t, op)
    ensures Admissions(t, [op], ip) == if op == Request(ip) && Admits(t, ip) then 1 else 0
  {
    assert [op][1..] == [];
    assert Earns(Step(t, op), []) == 0.0;
    assert Admissions(Step(t, op), [], ip) == 0;
  }

  // Whatever a bucket holds, it has held less than full since some step.
  lemma {:induction false} LevelSinceFull(s: Limiter, ops: seq<Op>, ip: Id) returns (i: nat)
    requires Valid(s) && NonNegative(s) && Level(s, ip) == s.max && s.max >= 1.0 && Faithful(s, ops)
    ensures i <= |ops| && Level(Run(s, ops), ip) == SinceFull(s, ops, i, ip)
    decreases |ops|
  {
    if ops == [] {
      i := 0;
    } else {
      var front, op := ops[..|ops| - 1], ops[|ops| - 1];
      assert ops == front + [op];
      var t := Run(s, front);
      var j := LevelSinceFull(s, front, ip);
      TimePasses(s, front);
      SnocWindow(s, front, op, j, ip);
      StepLevel(t, op, ip);
      if Level(Step(t, op), ip) == s.max {
        i := |ops|;
        assert ops[..i] == ops && ops[i..] == [];
      } else {
        i := j;
      }
    }
  }

  // A step leaves the bucket full, or changes it by what it earns and admits.
  lemma StepLevel(t: Limiter, op: Op, ip: Id)
    requires Valid(t) && NonNegative(t) && t.max >= 1.0 && (STALE * t.rate >= t.max || !op.Cleanup?)
    ensures Level(Step(t, op), ip) == t.max ||
            Level(Step(t, op), ip) ==
            Level(t, ip) + StepEarns(t, op) - (if op == Request(ip) && Admits(t, ip) then 1.0 else 0.0)
  {
    match op
    case Tick(d) =>
      if d >= 0.0 {
        TickLevel(t, d, ip);
      }
    case Request(k) => RequestLevel(t, k, ip);
    case Cleanup =>
      CleanupLevel(t, ip);
      if Stale(t, ip) { StaleIsFull(t, ip); }
  }

  // One more admission would be one too many for the window from step i on.
  predicate Exhausts(s: Limiter, ops: seq<Op>, i: nat, ip: Id)
    requires i <= |ops|
  {
    var u := At(s, ops, i);
    Admissions(u, ops[i..], ip) as real + 1.0 > s.max + (Run(s, ops).now - u.now) * s.rate
  }

  lemma ExhaustsIff(s: Limiter, ops: seq<Op>, i: nat, ip: Id)
    requires Valid(s) && i <= |ops|
    ensures Exhausts(s, ops, i, ip) <==> SinceFull(s, ops, i, ip) < 1.0
  {
    var u := At(s, ops, i);
    TimePasses(s, ops[..i]);
    EarnsWithTime(u, ops[i..]);
    assert ops == ops[..i] + ops[i..];
    RunAppend(s, ops[..i], ops[i..]);
  }

  // The limiter refuses a request exactly when admitting it would take some
  // window that ends now over its bound: it is no stricter than the bound asks.
  lemma RefusedIff(max: real, rate: real, ops: seq<Op>, ip: Id)
    requires max >= 0.0 && rate >= 0.0 && Faithful(Created(max, rate, 0.0), ops)
    ensures var s := Created(max, rate, 0.0);
            !Admits(Run(s, ops), ip) <==> exists i :: 0 <= i <= |ops| && Exhausts(s, ops, i, ip)
  {
    var s := Created(max, rate, 0.0);
    TimePasses(s, ops);
    if max < 1.0 {
      NeverAdmits(s, ops, ip);
      ExhaustsIff(s, ops, |ops|, ip);
      assert ops[|ops|..] == [] && Earns(Run(s, ops), []) == 0.0;
      assert Exhausts(s, ops, |ops|, ip);
    } else if !Admits(Run(s, ops), ip) {
      var i := LevelSinceFull(s, ops, ip);
      ExhaustsIff(s, ops, i, ip);
    } else {
      forall i | 0 <= i <= |ops| ensures !Exhausts(s, ops, i, ip) {
        NotExhausted(s, ops, i, ip);
      }
    }
  }

  lemma NotExhausted(s: Limiter, ops: seq<Op>, i: nat, ip: Id)
    requires Valid(s) && NonNegative(s) && s.max >= 1.0 && Faithful(s, ops) && i <= |ops| && Admits(Run(s, ops), ip)
    ensures !Exhausts(s, ops, i, ip)
  {
    var u := At(s, ops, i);
    TimePasses(s, ops[..i]);
    assert ops == ops[..i] + ops[i..];
    RunAppend(s, ops[..i], ops[i..]);
    RunPays(u, ops[i..], ip);
    LevelNonNegative(u, ip);
    ExhaustsIff(s, ops, i, ip);
  }

  // ---------------------------------------------------------------------
  // The limiter, step by step
  // ---------------------------------------------------------------------

  class TokenBucket {
    var tokens: real
    var lastRefill: real
    const maxTokens: real
    const refillRate: real

    constructor (max: real, rate: real, now: real)
      ensures tokens == max && lastRefill == now && maxTokens == max && refillRate == rate
    {
      tokens, lastRefill, maxTokens, refillRate := max, now, max, rate;
    }

    method Allow(now: real) returns (allowed: bool)
      modifies this
      ensures var level := Refill(old(tokens), now - old(lastRefill), refillRate, maxTokens);
              allowed == (level >= 1.0) && tokens == (if allowed then level - 1.0 else level) && lastRefill == now
    {
      var elapsed := now - lastRefill;
      tokens := tokens + elapsed * refillRate;
      if tokens > maxTokens {
        tokens := maxTokens;
      }
      lastRefill := now;
      if tokens >= 1.0 {
        tokens := tokens - 1.0;
        return true;
      }
      return false;
    }
  }

  class RateLimiter {
    const max: real
    const rate: real
    var buckets: map<Id, TokenBucket>

    // One bucket a client, all of the limiter's own burst and rate.
    ghost predicate Valid()
      reads this, buckets.Values
    {
      (forall a, b :: a in buckets && b in buckets && buckets[a] == buckets[b] ==> a == b) &&
      forall a :: a in buckets ==> buckets[a].maxTokens == max && buckets[a].refillRate == rate
    }

    ghost function State(now: real): Limiter
      reads this, buckets.Values
    {
      Limiter(max, rate, now, map a | a in buckets :: Bucket(buckets[a].tokens, buckets[a].lastRefill))
    }

    constructor (maxRequests: real, perSecond: real)
      ensures Valid() && forall now :: State(now) == Created(maxRequests, perSecond, now)
    {
      max, rate, buckets := maxRequests, perSecond, map[];
    }

    method GetBucket(ip: Id, now: real) returns (bucket: TokenBucket)
      requires Valid()
      modifies this`buckets
      ensures Valid() && ip in buckets && buckets[ip] == bucket
      ensures ip in old(buckets) ==> buckets == old(buckets)
      ensures ip !in old(buckets) ==> fresh(bucket) && buckets == old(buckets)[ip := bucket] &&
                                      bucket.tokens == max && bucket.lastRefill == now
    {
      if ip in buckets {
        return buckets[ip];
      }
      bucket := new TokenBucket(max, rate, now);
      buckets := buckets[ip := bucket];
    }

    // The middleware's answer to one request.
    method Handle(ip: Id, now: real) returns (allowed: bool)
      requires Valid()
      modifies this`buckets, buckets.Values
      ensures Valid()
      ensures allowed <==> Admits(old(State(now)), ip)
      ensures State(now) == Step(old(State(now)), Request(ip))
    {
      ghost var before := State(now);
      var bucket := GetBucket(ip, now);
      RefillNone(max, 0.0, rate, max);
      assert Refill(bucket.tokens, now - bucket.lastRefill, rate, max) == Level(before, ip);
      ghost var others := map a | a in buckets && a != ip :: Bucket(buckets[a].tokens, buckets[a].lastRefill);
      assert forall a :: a in others ==> a in before.buckets && others[a] == before.buckets[a];
      allowed := bucket.Allow(now);
      ghost var after := Step(before, Request(ip)).buckets;
      forall a | a in buckets ensures State(now).buckets[a] == after[a] {
        if a != ip {
          assert buckets[a] != bucket;
          assert State(now).buckets[a] == others[a];
        }
      }
      assert State(now).buckets == after;
    }

    method RemoveStale(now: real)
      requires Valid()
      modifies this`buckets
      ensures Valid()
      ensures State(now) == Step(old(State(now)), Cleanup)
    {
      var cutoff := now - 600.0;
      buckets := map ip | ip in buckets && !(buckets[ip].lastRefill < cutoff) :: buckets[ip];
    }
  }
}
