/** The queue autoscaler: from queued demand to a bounded number of sandboxes. */
module Autoscaler {
  import opened Domain
  import B = Backoff

  datatype Pool = Pool(
    name: string,
    provider: string,
    workerConcurrency: int,
    minReplicas: int,
    maxReplicas: int,
    scaleUpCooldown: int
  )

  // A live worker in a running sandbox of the pool.
  datatype Seat = Seat(availableSlots: int, reserved: bool, activeAttempts: nat)

  /** What one pass sees of a pool: its demand, its workers in the order of their
      sandboxes, its sandboxes, and how many of those are past the startup timeout. */
  datatype View = View(pool: Pool, queued: nat, seats: seq<Seat>, current: nat, overdue: nat)

  // No limit when it is not positive.
  datatype Limits = Limits(
    maxScaleUpPerRun: int,
    maxTotal: int,
    maxByProvider: map<string, int>,
    backoffBase: int,
    backoffMax: int
  )

  // validatePools
  predicate ValidPool(p: Pool) {
    p.name != "" && p.provider != "" && p.workerConcurrency > 0 && 0 <= p.minReplicas <= p.maxReplicas
  }

  // Demand

  function Slots(seat: Seat, concurrency: int): (n: int)
    requires concurrency > 0
    ensures 0 <= n <= concurrency
  {
    if seat.reserved || seat.availableSlots < 0 then 0 else Min(seat.availableSlots, concurrency)
  }

  function IdleSlots(seats: seq<Seat>, concurrency: int): (n: nat)
    requires concurrency > 0
  {
    if seats == [] then 0
    else IdleSlots(seats[..|seats| - 1], concurrency) + Slots(seats[|seats| - 1], concurrency)
  }

  /** A worker is in use when it already works, or when the demand reaches it. */
  predicate InUse(seats: seq<Seat>, i: nat, queued: nat, concurrency: int)
    requires concurrency > 0 && i < |seats|
  {
    || Slots(seats[i], concurrency) < concurrency
    || seats[i].activeAttempts > 0
    || IdleSlots(seats[..i], concurrency) < queued
  }

  // The workers in use, by position.
  function UsedSeats(seats: seq<Seat>, queued: nat, concurrency: int): set<nat>
    requires concurrency > 0
  {
    set i: nat | i < |seats| && InUse(seats, i, queued, concurrency)
  }

  lemma UsedSeatsGrow(seats: seq<Seat>, n: nat, queued: nat, concurrency: int)
    requires concurrency > 0 && n < |seats|
    ensures |UsedSeats(seats[..n + 1], queued, concurrency)|
         == |UsedSeats(seats[..n], queued, concurrency)| + if InUse(seats, n, queued, concurrency) then 1 else 0
    ensures IdleSlots(seats[..n + 1], concurrency) == IdleSlots(seats[..n], concurrency) + Slots(seats[n], concurrency)
  {
    var more, less := seats[..n + 1], seats[..n];
    assert more[..n] == less;
    forall i: nat | i < n ensures InUse(more, i, queued, concurrency) == InUse(less, i, queued, concurrency) {
      assert more[..i] == less[..i];
    }
    assert InUse(more, n, queued, concurrency) == InUse(seats, n, queued, concurrency);
    if InUse(seats, n, queued, concurrency) {
      assert UsedSeats(more, queued, concurrency) == UsedSeats(less, queued, concurrency) + {n};
    } else {
      assert UsedSeats(more, queued, concurrency) == UsedSeats(less, queued, concurrency);
    }
  }

  /** One walk over the workers hands out the demand: what is left is what their idle
      slots cannot take, and the busy ones are those in use. */
  method Assign(seats: seq<Seat>, queued: nat, concurrency: int) returns (idle: nat, busy: nat, unmet: nat)
    requires concurrency > 0
    ensures idle == IdleSlots(seats, concurrency)
    ensures unmet == Max(0, queued - idle)
    ensures busy == |UsedSeats(seats, queued, concurrency)|
  {
    idle, busy, unmet := 0, 0, queued;
    var n := 0;
    while n < |seats|
      invariant 0 <= n <= |seats|
      invariant idle == IdleSlots(seats[..n], concurrency)
      invariant unmet == Max(0, queued - idle)
      invariant busy == |UsedSeats(seats[..n], queued, concurrency)|
    {
      UsedSeatsGrow(seats, n, queued, concurrency);
      var slots := seats[n].availableSlots;
      if seats[n].reserved {
        slots := 0;
      }
      if slots < 0 {
        slots := 0;
      }
      if slots > concurrency {
        slots := concurrency;
      }
      idle := idle + slots;
      if slots < concurrency || seats[n].activeAttempts > 0 {
        busy := busy + 1;
      }
      if unmet > 0 && slots > 0 {
        unmet := unmet - Min(slots, unmet);
        if slots == concurrency && seats[n].activeAttempts == 0 {
          busy := busy + 1;
        }
      }
      n := n + 1;
    }
    assert seats[..|seats|] == seats;
  }

  function CeilDiv(x: nat, y: int): nat
    requires y > 0
  {
    (x + y - 1) / y
  }

  function Needed(busy: nat, unmet: nat, concurrency: int): nat
    requires concurrency > 0
  {
    busy + CeilDiv(unmet, concurrency)
  }

  /** The replicas asked for are the least number, the busy ones included, whose
      additional slots take the unmet demand. */
  lemma NeededIsLeast(busy: nat, unmet: nat, concurrency: int, n: nat)
    requires concurrency > 0 && n >= busy
    ensures (n - busy) * concurrency >= unmet <==> n >= Needed(busy, unmet, concurrency)
  {
    var q := CeilDiv(unmet, concurrency);
    CeilDivBounds(unmet, concurrency);
    var m := n - busy;
    if m >= q {
      MulMono(q, m, concurrency);
    } else {
      MulMono(m, q - 1, concurrency);
    }
  }

  lemma CeilDivBounds(x: nat, y: int)
    requires y > 0
    ensures CeilDiv(x, y) * y >= x
    ensures CeilDiv(x, y) > 0 ==> (CeilDiv(x, y) - 1) * y < x
  {
    var q, r := (x + y - 1) / y, (x + y - 1) % y;
    assert x + y - 1 == q * y + r;
    assert (q - 1) * y == q * y - y;
  }

  lemma MulMono(a: int, b: int, k: int)
    requires a <= b && k > 0
    ensures a * k <= b * k
  {
  }

  function Clamp(value: int, low: int, high: int): int {
    if value < low then low else if value > high then high else value
  }

  // Limits

  function PositiveLimit(value: int, limit: int): int {
    if limit > 0 && value > limit then limit else value
  }

  function CapacityLimit(value: int, limit: int, current: int): int {
    if limit <= 0 then value else Min(value, Max(0, limit - current))
  }

  function LimitOf(limits: map<string, int>, provider: string): int {
    if provider in limits then limits[provider] else 0
  }

  // A count within a limit, if there is one.
  predicate Fits(count: int, limit: int) {
    limit <= 0 || count <= limit
  }

  function CountOf(counts: map<string, int>, provider: string): int {
    if provider in counts then counts[provider] else 0
  }

  /** How many sandboxes to add, and that adding up to so many keeps every limit. */
  lemma GrantFits(wanted: int, limits: Limits, provider: string, total: int, ofProvider: int, created: nat)
    requires created <= CapacityLimit(CapacityLimit(PositiveLimit(wanted, limits.maxScaleUpPerRun), limits.maxTotal, total),
                                      LimitOf(limits.maxByProvider, provider), ofProvider)
    ensures created > 0 ==>
      && created <= wanted
      && Fits(created, limits.maxScaleUpPerRun)
      && Fits(total + created, limits.maxTotal)
      && Fits(ofProvider + created, LimitOf(limits.maxByProvider, provider))
  {
  }

  // Provider backoff

  function ProviderGrow(delay: int, maximum: int, i: int, failures: int): int
    decreases failures - i
  {
    if i < failures && delay < maximum / 2 then ProviderGrow(2 * delay, maximum, i + 1, failures) else delay
  }

  function OrDefault(x: int, y: int): int {
    if x <= 0 then y else x
  }

  const SECOND: int := 1_000_000_000
  const MINUTE: int := 60 * SECOND

  function ProviderDelay(limits: Limits, failures: int): int {
    var maximum := OrDefault(limits.backoffMax, MINUTE);
    Min(ProviderGrow(OrDefault(limits.backoffBase, SECOND), maximum, 1, failures), maximum)
  }

  // Division towards zero.
  function TruncDiv(x: int, y: int): int
    requires y > 0
  {
    if x >= 0 then x / y else -((-x) / y)
  }

  // The product wraps at 64 bits, and then the jitter may be negative.
  function ProviderJitter(d: int, hash: nat): int {
    TruncDiv(B.Signed(hash * d), 1000)
  }

  function ProviderBackoff(limits: Limits, failures: int, hash: nat): int {
    var d, maximum := ProviderDelay(limits, failures), OrDefault(limits.backoffMax, MINUTE);
    Min(B.Signed(d + ProviderJitter(d, hash)), maximum)
  }

  lemma {:induction false} ProviderGrowMono(delay: int, maximum: int, i: int, m: int, n: int)
    requires delay > 0 && m <= n
    ensures delay <= ProviderGrow(delay, maximum, i, m) <= ProviderGrow(delay, maximum, i, n)
    decreases n - i
  {
    if i < n && delay < maximum / 2 {
      ProviderGrowMono(2 * delay, maximum, i + 1, m, n);
    }
  }

  lemma HashMono(d: int, e: int, hash: nat)
    requires 0 <= d <= e
    ensures 0 <= hash * d <= hash * e
  {
  }

  // No step of the doubling exceeds the maximum's range.
  lemma {:induction false} ProviderGrowFits(delay: int, maximum: int, i: int, failures: int)
    requires 0 < delay < B.TWO63 && 0 < maximum < B.TWO63
    ensures 0 < ProviderGrow(delay, maximum, i, failures) < B.TWO63
    decreases failures - i
  {
    if i < failures && delay < maximum / 2 {
      ProviderGrowFits(2 * delay, maximum, i + 1, failures);
    }
  }

  predicate ValidBackoff(limits: Limits) {
    B.IsInt64(limits.backoffBase) && B.IsInt64(limits.backoffMax)
  }

  /** What a caller can tell from the inputs: the product of hash and delay, in 64 bits, is
      not negative and its thousandth fits on top of the delay, or it is so close below zero
      that its thousandth is zero. */
  predicate ProviderSafe(limits: Limits, failures: int, hash: nat) {
    var d := ProviderDelay(limits, failures);
    var product := hash * d % B.TWO64;
    (product < B.TWO63 && d + product / 1000 < B.TWO63) || product > B.TWO64 - 1000
  }

  lemma JitterOfProduct(d: int, hash: nat)
    ensures var p, j := hash * d % B.TWO64, ProviderJitter(d, hash);
      && (p < B.TWO63 ==> j == p / 1000)
      && (p > B.TWO64 - 1000 ==> j == 0)
      && (B.TWO63 <= p <= B.TWO64 - 1000 ==> -B.TWO62 < j < 0)
  {
    var p := hash * d % B.TWO64;
    SignedOfProduct(hash * d);
    assert B.Signed(hash * d) == if p < B.TWO63 then p else p - B.TWO64;
  }

  lemma SignedOfProduct(x: int)
    ensures B.Signed(x) == var p := x % B.TWO64; if p < B.TWO63 then p else p - B.TWO64
  {
    var q, p := x / B.TWO64, x % B.TWO64;
    assert x + B.TWO63 == B.TWO64 * q + (p + B.TWO63);
    if p < B.TWO63 {
      assert (x + B.TWO63) % B.TWO64 == p + B.TWO63;
    } else {
      assert x + B.TWO63 == B.TWO64 * (q + 1) + (p - B.TWO63);
      assert (x + B.TWO63) % B.TWO64 == p - B.TWO63;
    }
  }

  /** The backoff of a failing pool lies between the undisturbed delay and the maximum if
      and only if the product of hash and delay does not spoil it. */
  lemma BackoffInRange(limits: Limits, failures: int, hash: nat)
    requires ValidBackoff(limits)
    ensures var d, maximum := ProviderDelay(limits, failures), OrDefault(limits.backoffMax, MINUTE);
      d <= ProviderBackoff(limits, failures, hash) <= maximum <==> ProviderSafe(limits, failures, hash)
  {
    var base, maximum := OrDefault(limits.backoffBase, SECOND), OrDefault(limits.backoffMax, MINUTE);
    ProviderGrowFits(base, maximum, 1, failures);
    var d := ProviderDelay(limits, failures);
    JitterOfProduct(d, hash);
    RangeOfSum(d, ProviderJitter(d, hash), maximum);
  }

  lemma RangeOfSum(d: int, j: int, maximum: int)
    requires 0 < d <= maximum < B.TWO63 && -B.TWO62 < j < B.TWO62
    ensures d <= Min(B.Signed(d + j), maximum) <==> 0 <= j && d + j < B.TWO63
  {
    if d + j >= B.TWO63 {
      SignedOfProduct(d + j);
    }
  }

  /** For example, three quarters of a wrapped product make the backoff fall short. */
  lemma BackoffWraps()
    ensures var limits := Limits(0, 0, map[], B.TWO62, B.TWO62);
      ProviderDelay(limits, 1) == B.TWO62 && ProviderBackoff(limits, 1, 3) < B.TWO62
  {
    assert B.Signed(3 * B.TWO62) == -B.TWO62;
  }

  const TWO55: int := 0x80_0000_0000_0000

  /** For a maximum of at most 2^55 nanoseconds it always does, is never shorter than the
      base or the maximum, and never shrinks as failures add up. */
  lemma BackoffBounds(limits: Limits, m: int, n: int, hash: nat)
    requires ValidBackoff(limits) && OrDefault(limits.backoffMax, MINUTE) <= TWO55 && m <= n && hash <= 250
    ensures var base, maximum := OrDefault(limits.backoffBase, SECOND), OrDefault(limits.backoffMax, MINUTE);
      && Min(base, maximum) <= ProviderBackoff(limits, m, hash)
      && ProviderBackoff(limits, m, hash) <= ProviderBackoff(limits, n, hash) <= maximum
  {
    var base, maximum := OrDefault(limits.backoffBase, SECOND), OrDefault(limits.backoffMax, MINUTE);
    ProviderGrowMono(base, maximum, 1, m, n);
    var d, e := ProviderDelay(limits, m), ProviderDelay(limits, n);
    HashMono(d, e, hash);
    HashMono(e, TWO55, hash);
    assert hash * TWO55 < B.TWO63;
  }

  // A pass

  datatype PoolState = PoolState(lastUp: Option<Time>, failures: nat, retryAt: Option<Time>, unhealthy: bool)

  datatype Failed = NoFailure | Permanent | Transient

  /** What a pass did to one pool, with the counters as it left them. */
  datatype Decision = Decision(
    pool: Pool,
    desired: int,
    timedOut: nat,
    created: nat,
    current: int,
    total: int,
    ofProvider: int,
    // What the provider reported; none when it was not asked.
    report: Option<Failed>
  )

  predicate CooldownElapsed(at: Time, previous: Option<Time>, cooldown: int) {
    previous.None? || cooldown <= 0 || at - previous.value >= cooldown
  }

  // Whatever the pool created, the running counts are within the limits.
  predicate WithinLimits(d: Decision, limits: Limits) {
    d.created > 0 ==>
      && d.current <= d.desired <= d.pool.maxReplicas
      && Fits(d.created, limits.maxScaleUpPerRun)
      && Fits(d.total, limits.maxTotal)
      && Fits(d.ofProvider, LimitOf(limits.maxByProvider, d.pool.provider))
  }

  // The pool may be scaled up now.
  predicate Open(s: PoolState, at: Time, pool: Pool) {
    !s.unhealthy && (s.retryAt.None? || s.retryAt.value <= at) && CooldownElapsed(at, s.lastUp, pool.scaleUpCooldown)
  }

  // One more sandbox would break a limit.
  predicate AtLimit(d: Decision, limits: Limits) {
    || (limits.maxScaleUpPerRun > 0 && d.created >= limits.maxScaleUpPerRun)
    || (limits.maxTotal > 0 && d.total >= limits.maxTotal)
    || (LimitOf(limits.maxByProvider, d.pool.provider) > 0 && d.ofProvider >= LimitOf(limits.maxByProvider, d.pool.provider))
  }

  /** What the demand on the pool asks for, within the pool's bounds. */
  function Desired(v: View): int
    requires ValidPool(v.pool)
  {
    var unmet := Max(0, v.queued - IdleSlots(v.seats, v.pool.workerConcurrency));
    Clamp(Needed(|UsedSeats(v.seats, v.queued, v.pool.workerConcurrency)|, unmet, v.pool.workerConcurrency),
          v.pool.minReplicas, v.pool.maxReplicas)
  }

  /** A pool is left with fewer sandboxes than desired only for a reason: it may not be
      scaled up now, one more would break a limit, or the provider failed a request. */
  predicate Served(d: Decision, s: PoolState, at: Time, limits: Limits) {
    d.current < d.desired ==>
      !Open(s, at, d.pool) || AtLimit(d, limits) || (d.report.Some? && !d.report.value.NoFailure?)
  }

  /** What the pool remembers follows from what the provider reported. */
  predicate Remembered(d: Decision, s: PoolState, s': PoolState, at: Time, limits: Limits, hash: nat) {
    match d.report
    case None => s' == s && d.created == 0
    case Some(NoFailure) => s'.failures == 0 && s'.retryAt.None? && s'.unhealthy == s.unhealthy && s'.lastUp == Some(at) && d.created > 0
    case Some(Permanent) => s'.failures == s.failures + 1 && s'.unhealthy && s'.retryAt == s.retryAt
    case Some(Transient) =>
      && s'.failures == s.failures + 1 && s'.unhealthy == s.unhealthy
      && s'.retryAt == Some(at + ProviderBackoff(limits, s.failures + 1, hash))
  }

  /** All that a pass decides about one pool, whose memory goes from `s` to `s'`. */
  predicate Settled(d: Decision, v: View, s: PoolState, s': PoolState, at: Time, limits: Limits, hash: nat)
    requires ValidPool(v.pool)
  {
    && d.pool == v.pool && d.desired == Desired(v)
    && WithinLimits(d, limits)
    && Served(d, s, at, limits)
    && Remembered(d, s, s', at, limits, hash)
  }

  // The net change that these decisions make to the sandboxes, of one provider or of all.
  function Net(ds: seq<Decision>, provider: Option<string>): int {
    if ds == [] then 0
    else
      var d := ds[|ds| - 1];
      Net(ds[..|ds| - 1], provider)
      + if provider.None? || provider.value == d.pool.provider then d.created - d.timedOut else 0
  }

  // The counters that a decision leaves are the initial ones and all changes so far.
  predicate AddsUp(ds: seq<Decision>, i: nat, total: int, byProvider: map<string, int>)
    requires i < |ds|
  {
    && ds[i].total == total + Net(ds[..i + 1], None)
    && ds[i].ofProvider == CountOf(byProvider, ds[i].pool.provider) + Net(ds[..i + 1], Some(ds[i].pool.provider))
  }

  lemma NetGrows(ds: seq<Decision>, d: Decision, provider: Option<string>)
    ensures Net(ds + [d], provider)
         == Net(ds, provider) + if provider.None? || provider.value == d.pool.provider then d.created - d.timedOut else 0
  {
    assert (ds + [d])[..|ds|] == ds;
  }

  lemma AddsUpStays(ds: seq<Decision>, d: Decision, i: nat, total: int, byProvider: map<string, int>)
    requires i < |ds| && AddsUp(ds, i, total, byProvider)
    ensures AddsUp(ds + [d], i, total, byProvider)
  {
    assert (ds + [d])[..i + 1] == ds[..i + 1];
  }

  lemma AddsUpNext(ds: seq<Decision>, d: Decision, total: int, byProvider: map<string, int>)
    requires d.total == total + Net(ds, None) + d.created - d.timedOut
    requires d.ofProvider == CountOf(byProvider, d.pool.provider) + Net(ds, Some(d.pool.provider)) + d.created - d.timedOut
    ensures AddsUp(ds + [d], |ds|, total, byProvider)
  {
    NetGrows(ds, d, None);
    NetGrows(ds, d, Some(d.pool.provider));
    assert (ds + [d])[..|ds| + 1] == ds + [d];
  }

  /** The running counts of a pass: the initial ones and all changes so far, within the limit. */
  ghost predicate Tallies(ds: seq<Decision>, sum: int, counts: map<string, int>, total: int, byProvider: map<string, int>, limits: Limits) {
    && sum == total + Net(ds, None)
    && (forall p :: CountOf(counts, p) == CountOf(byProvider, p) + Net(ds, Some(p)))
    && (forall i :: 0 <= i < |ds| ==> AddsUp(ds, i, total, byProvider))
    && (sum <= Max(total, limits.maxTotal) || limits.maxTotal <= 0)
    && (forall i :: 0 <= i < |ds| ==> ds[i].total <= Max(total, limits.maxTotal) || limits.maxTotal <= 0)
  }

  lemma TalliesOn(ds: seq<Decision>, d: Decision, sum: int, counts: map<string, int>, total: int, byProvider: map<string, int>, limits: Limits)
    requires Tallies(ds, sum, counts, total, byProvider, limits) && WithinLimits(d, limits)
    requires d.total == sum - d.timedOut + d.created
    requires d.ofProvider == CountOf(counts, d.pool.provider) - d.timedOut + d.created
    ensures Tallies(ds + [d], d.total, counts[d.pool.provider := d.ofProvider], total, byProvider, limits)
  {
    AddsUpNext(ds, d, total, byProvider);
    NetGrows(ds, d, None);
    forall p ensures Net(ds + [d], Some(p)) == Net(ds, Some(p)) + if p == d.pool.provider then d.created - d.timedOut else 0 {
      NetGrows(ds, d, Some(p));
    }
    forall i | 0 <= i < |ds| ensures AddsUp(ds + [d], i, total, byProvider) {
      AddsUpStays(ds, d, i, total, byProvider);
    }
  }

  class QueueAutoscaler {
    const limits: Limits
    var state: map<string, PoolState>

    constructor (limits: Limits)
      ensures this.limits == limits && state == map[]
    {
      this.limits := limits;
      state := map[];
    }

    /** One pool: how many sandboxes it should have, which never came up, and how many
        new ones it got. */
    method Scale(v: View, at: Time, total: int, ofProvider: int, hash: nat) returns (d: Decision)
      requires ValidPool(v.pool) && v.overdue <= v.current
      modifies this
      ensures d.timedOut == v.overdue && d.current == v.current - v.overdue + d.created
      ensures d.total == total - v.overdue + d.created && d.ofProvider == ofProvider - v.overdue + d.created
      ensures v.current - v.overdue >= d.desired ==> d.created == 0
      ensures var s := old(StateOf(v.pool.name));
        s.unhealthy || (s.retryAt.Some? && at < s.retryAt.value) || !CooldownElapsed(at, s.lastUp, v.pool.scaleUpCooldown)
        ==> d.created == 0
      ensures Settled(d, v, old(StateOf(v.pool.name)), StateOf(v.pool.name), at, limits, hash)
      ensures forall p :: p != v.pool.name ==> StateOf(p) == old(StateOf(p))
    {
      var idle, busy, unmet := Assign(v.seats, v.queued, v.pool.workerConcurrency);
      var desired := Clamp(Needed(busy, unmet, v.pool.workerConcurrency), v.pool.minReplicas, v.pool.maxReplicas);
      var current, sum, mine := v.current - v.overdue, total - v.overdue, ofProvider - v.overdue;
      var s := StateOf(v.pool.name);
      var created, report := 0, None;
      if current < desired && !s.unhealthy && !(s.retryAt.Some? && at < s.retryAt.value)
         && CooldownElapsed(at, s.lastUp, v.pool.scaleUpCooldown)
      {
        var count := PositiveLimit(desired - current, limits.maxScaleUpPerRun);
        count := CapacityLimit(count, limits.maxTotal, sum);
        count := CapacityLimit(count, LimitOf(limits.maxByProvider, v.pool.provider), mine);
        if count > 0 {
          var failed;
          created, failed := CreateMany(count);
          report := Some(failed);
          GrantFits(desired - current, limits, v.pool.provider, sum, mine, created);
          if created > 0 {
            s := s.(lastUp := Some(at));
          }
          match failed
          case NoFailure => s := s.(failures := 0, retryAt := None);
          case Permanent => s := s.(failures := s.failures + 1, unhealthy := true);
          case Transient =>
            s := s.(failures := s.failures + 1);
            s := s.(retryAt := Some(at + ProviderBackoff(limits, s.failures, hash)));
        }
      }
      state := state[v.pool.name := s];
      d := Decision(v.pool, desired, v.overdue, created, current + created, sum + created, mine + created, report);
    }

    function StateOf(name: string): PoolState
      reads this
    {
      if name in state then state[name] else PoolState(None, 0, None, false)
    }

    /** The provider may fail any of the requests. */
    method CreateMany(count: nat) returns (created: nat, failed: Failed)
      ensures created <= count
      ensures failed.NoFailure? <==> created == count
    {
      created, failed := 0, NoFailure;
      var n := 0;
      while n < count
        invariant 0 <= n <= count && created <= n
        invariant failed.NoFailure? <==> created == n
      {
        var outcome: Failed := *;
        if outcome.NoFailure? {
          created := created + 1;
        } else if failed.NoFailure? {
          failed := outcome;
        }
        n := n + 1;
      }
    }

    /** A whole pass: each pool works with the counts that the pools before it left, so
        no creation anywhere in the pass exceeds a limit, and the counts add up. */
    method Run(views: seq<View>, at: Time, total: int, byProvider: map<string, int>, hash: nat) returns (ds: seq<Decision>)
      requires forall i :: 0 <= i < |views| ==> ValidPool(views[i].pool) && views[i].overdue <= views[i].current
      requires forall i, j :: 0 <= i < j < |views| ==> views[i].pool.name != views[j].pool.name
      modifies this
      ensures |ds| == |views|
      ensures forall i :: 0 <= i < |ds| ==>
        Settled(ds[i], views[i], old(StateOf(views[i].pool.name)), StateOf(views[i].pool.name), at, limits, hash)
      ensures forall i :: 0 <= i < |ds| ==> AddsUp(ds, i, total, byProvider)
      ensures forall i :: 0 <= i < |ds| ==> ds[i].total <= Max(total, limits.maxTotal) || limits.maxTotal <= 0
    {
      ds := [];
      var sum, counts, n := total, byProvider, 0;
      while n < |views|
        invariant 0 <= n == |ds| <= |views|
        invariant forall i :: 0 <= i < n ==>
          Settled(ds[i], views[i], old(StateOf(views[i].pool.name)), StateOf(views[i].pool.name), at, limits, hash)
        invariant forall i :: n <= i < |views| ==> StateOf(views[i].pool.name) == old(StateOf(views[i].pool.name))
        invariant Tallies(ds, sum, counts, total, byProvider, limits)
      {
        var v := views[n];
        var d := Scale(v, at, sum, CountOf(counts, v.pool.provider), hash);
        TalliesOn(ds, d, sum, counts, total, byProvider, limits);
        ds := ds + [d];
        sum := d.total;
        counts := counts[v.pool.provider := d.ofProvider];
        n := n + 1;
      }
    }
  }
}
