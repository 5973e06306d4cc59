/** Placement policy: which queued jobs a worker may run, and in which order. */
module Scheduler {
  import opened Domain
  import opened Tables
  import Ids

  datatype Reason =
    | Eligible
    | ConcurrencyExhausted
    | WorkerUnhealthy
    | SandboxUnavailable
    | CapabilityMismatch
    | ExecutorMismatch
    | LabelMismatch
    | ArchitectureMismatch
    | RegionMismatch
    | UpstreamRefused
    | UpstreamCoolingDown
    | UpstreamBudgetExhausted
    | CostExceeded

  datatype Weights = Weights(
    exactMatch: real,
    preferredRegion: real,
    sandboxAffinity: real,
    providerAffinity: real,
    upstreamHealth: real,
    workerLoad: real,
    queueAge: real,
    starvation: real,
    cost: real
  )

  datatype Config = Config(weights: Weights, starvationAfter: int)

  const MINUTE: int := 60_000_000_000
  const DEFAULT := Config(Weights(20.0, 12.0, 8.0, 6.0, 5.0, 5.0, 1.0, 30.0, 1.0), 5 * MINUTE)

  datatype Request = Request(id: WorkerID, me: Worker, box: Option<Box>, now: Time, active: nat)

  function LowerChar(c: char): char {
    if 'A' <= c <= 'Z' then c - 'A' + 'a' else c
  }

  function Lower(s: string): string {
    seq(|s|, i requires 0 <= i < |s| => LowerChar(s[i]))
  }

  predicate StatusOk(status: string) {
    var s := Lower(status);
    s == "" || s == "ok" || s == "healthy" || s == "ready"
  }

  predicate LabelsMatch(want: map<string, string>, have: map<string, string>) {
    forall k :: k in want ==> Label(have, k) == want[k]
  }

  function Screen(j: Candidate, r: Request): Reason {
    var c := j.want;
    var mine := r.me.spec.caps;
    if r.me.spec.maxSlots > 0 && (r.me.freeSlots <= 0 || r.active >= r.me.spec.maxSlots) then ConcurrencyExhausted
    else if !StatusOk(r.me.report.status) then WorkerUnhealthy
    else if r.box.None? || r.box.value.worker != Some(r.id)
            || (r.box.value.state != "" && r.box.value.state != "ready" && r.box.value.state != "running")
    then SandboxUnavailable
    else
      var its := r.box.value.caps;
      if exists v :: v in c.capabilities && (v !in mine.capabilities || v !in its.capabilities) then CapabilityMismatch
      else if c.executor != "" && (c.executor !in mine.executors || c.executor !in its.executors) then ExecutorMismatch
      else if !LabelsMatch(c.labels, mine.labels) || !LabelsMatch(c.labels, its.labels) then LabelMismatch
      else if c.architecture != "" && (mine.architecture != c.architecture || its.architecture != c.architecture)
      then ArchitectureMismatch
      else if c.region != "" && (mine.region != c.region || its.region != c.region) then RegionMismatch
      else if c.upstream == "" then Eligible
      else if c.upstream !in mine.upstreams || c.upstream !in its.upstreams || c.upstream !in r.me.report.upstreams
      then UpstreamRefused
      else
        var u := r.me.report.upstreams[c.upstream];
        if u.state.UpstreamUnavailable? || u.state.UpstreamUnset? then UpstreamRefused
        else if u.state.UpstreamCooldown? || (u.cooldownUntil.Some? && r.now < u.cooldownUntil.value)
        then UpstreamCoolingDown
        else if !u.state.UpstreamAvailable? then UpstreamRefused
        else if u.budget.Some? && u.budget.value <= 0.0 then UpstreamBudgetExhausted
        else if c.maxCost.Some? && u.cost.Some? && u.cost.value > c.maxCost.value then CostExceeded
        else Eligible
  }

  // Who can run what

  // `a` is the lower-case word `b`, up to the case of its letters.
  predicate Spells(a: string, b: string) {
    |a| == |b| && forall i :: 0 <= i < |a| ==> a[i] == b[i] || ('A' <= a[i] <= 'Z' && b[i] as int == a[i] as int + 32)
  }

  predicate Healthy(status: string) {
    Spells(status, "") || Spells(status, "ok") || Spells(status, "healthy") || Spells(status, "ready")
  }

  lemma LowerSpells(a: string, b: string)
    requires forall i :: 0 <= i < |b| ==> 'a' <= b[i] <= 'z'
    ensures Lower(a) == b <==> Spells(a, b)
  {
    if Spells(a, b) {
      assert forall i :: 0 <= i < |a| ==> Lower(a)[i] == b[i];
    }
    if Lower(a) == b {
      forall i | 0 <= i < |a| ensures a[i] == b[i] || ('A' <= a[i] <= 'Z' && b[i] as int == a[i] as int + 32) {
        assert Lower(a)[i] == b[i];
      }
    }
  }

  lemma HealthyStatus(status: string)
    ensures StatusOk(status) <==> Healthy(status)
  {
    LowerSpells(status, "");
    LowerSpells(status, "ok");
    LowerSpells(status, "healthy");
    LowerSpells(status, "ready");
  }

  // Sandboxes that are still starting have no state.
  predicate Up(box: Box) {
    box.state == "" || box.state == "ready" || box.state == "running"
  }

  // The upstream that the job requires can be called, and within the job's budget.
  predicate Affordable(want: Constraints, upstreams: map<string, Upstream>, now: Time) {
    && want.upstream in upstreams
    && var u := upstreams[want.upstream];
    && u.state.UpstreamAvailable?
    && (u.cooldownUntil.Some? ==> u.cooldownUntil.value <= now)
    && (u.budget.Some? ==> 0.0 < u.budget.value)
    && (want.maxCost.Some? && u.cost.Some? ==> u.cost.value <= want.maxCost.value)
  }

  /** The worker of the request, in its sandbox, can run a job that asks for `want`. */
  predicate CanRun(want: Constraints, r: Request) {
    && (r.me.spec.maxSlots > 0 ==> r.me.freeSlots > 0 && r.active < r.me.spec.maxSlots)
    && Healthy(r.me.report.status)
    && r.box.Some? && r.box.value.worker == Some(r.id) && Up(r.box.value)
    && Satisfies(r.me.spec.caps, want) && Satisfies(r.box.value.caps, want)
    && (want.upstream != "" ==> Affordable(want, r.me.report.upstreams, r.now))
  }

  lemma CapabilitiesFit(want: Constraints, mine: Capabilities, its: Capabilities)
    ensures Satisfies(mine, want) && Satisfies(its, want) <==>
      && (forall v :: v in want.capabilities ==> v in mine.capabilities && v in its.capabilities)
      && (want.executor == "" || (want.executor in mine.executors && want.executor in its.executors))
      && LabelsMatch(want.labels, mine.labels) && LabelsMatch(want.labels, its.labels)
      && (want.architecture == "" || mine.architecture == want.architecture == its.architecture)
      && (want.region == "" || mine.region == want.region == its.region)
      && (want.upstream == "" || (want.upstream in mine.upstreams && want.upstream in its.upstreams))
  {
  }

  /** The scheduler lets a job through exactly when the worker can run it. */
  lemma EligibleExactly(j: Candidate, r: Request)
    ensures Screen(j, r) == Eligible <==> CanRun(j.want, r)
  {
    HealthyStatus(r.me.report.status);
    if r.box.Some? {
      CapabilitiesFit(j.want, r.me.spec.caps, r.box.value.caps);
    }
  }

  /** A worker that was declared dead can run nothing until it reports again. */
  lemma DeadCannotRun(want: Constraints, r: Request)
    requires r.me.report.status == "dead"
    ensures !CanRun(want, r)
  {
    assert r.me.report.status[0] == 'd';
  }

  predicate Exact(c: Constraints, a: Capabilities) {
    && |c.capabilities| == |a.capabilities|
    && |c.labels| == |a.labels|
    && (c.architecture == "" || c.architecture == a.architecture)
    && (c.region == "" || c.region == a.region)
  }

  function When(b: bool, x: real): real {
    if b then x else 0.0
  }

  function Health(c: Constraints, r: Request): real {
    if c.upstream != "" && c.upstream in r.me.report.upstreams then r.me.report.upstreams[c.upstream].health else 0.0
  }

  function Cost(c: Constraints, r: Request): real {
    if c.upstream != "" && c.upstream in r.me.report.upstreams && r.me.report.upstreams[c.upstream].cost.Some?
    then r.me.report.upstreams[c.upstream].cost.value else 0.0
  }

  // The terms of the score that depend on what the job asks for.
  function Affinity(p: Config, c: Constraints, r: Request): real {
    When(Exact(c, r.me.spec.caps), p.weights.exactMatch)
    + When(c.preferredRegion != "" && c.preferredRegion == r.me.spec.caps.region, p.weights.preferredRegion)
    + When(c.preferredBox == Some(r.me.spec.box), p.weights.sandboxAffinity)
    + When(c.preferredProvider != "" && c.preferredProvider == r.me.spec.provider, p.weights.providerAffinity)
    + p.weights.upstreamHealth * Health(c, r)
  }

  // The term that depends on the worker alone.
  function Load(p: Config, r: Request): real {
    if r.me.spec.maxSlots > 0
    then p.weights.workerLoad * (r.me.spec.maxSlots - r.active) as real / r.me.spec.maxSlots as real
    else 0.0
  }

  function Patience(p: Config, created: Time, now: Time): real {
    When(now - created > 0, p.weights.queueAge * ((now - created) as real / MINUTE as real))
    + When(now - created >= p.starvationAfter, p.weights.starvation)
  }

  function Score(p: Config, j: Candidate, r: Request): real {
    Affinity(p, j.want, r) + Load(p, r) + Patience(p, j.created, r.now) - p.weights.cost * Cost(j.want, r)
  }

  // Preferences

  /** Of two jobs that differ only in what they prefer, a met preference is worth exactly
      its weight. */
  lemma PreferencesCount(p: Config, j: Candidate, r: Request)
    ensures var me, c := r.me.spec, j.want; var bare := c.(preferredRegion := "", preferredBox := None, preferredProvider := "");
      Score(p, j, r) == Score(p, j.(want := bare), r)
        + (if c.preferredRegion != "" && c.preferredRegion == me.caps.region then p.weights.preferredRegion else 0.0)
        + (if c.preferredBox == Some(me.box) then p.weights.sandboxAffinity else 0.0)
        + (if c.preferredProvider != "" && c.preferredProvider == me.provider then p.weights.providerAffinity else 0.0)
  {
    var bare := j.want.(preferredRegion := "", preferredBox := None, preferredProvider := "");
    assert Exact(j.want, r.me.spec.caps) == Exact(bare, r.me.spec.caps);
    assert Health(j.want, r) == Health(bare, r) && Cost(j.want, r) == Cost(bare, r);
  }

  // The report of the same worker about upstream `u`.
  function Reporting(r: Request, u: string, health: real, cost: real): Request {
    var was := if u in r.me.report.upstreams then r.me.report.upstreams[u] else Upstream(UpstreamAvailable, 0.0, None, None, None);
    r.(me := r.me.(report := r.me.report.(upstreams := r.me.report.upstreams[u := was.(health := health, cost := Some(cost))])))
  }

  /** A healthier or cheaper upstream raises the score of exactly the jobs that require it. */
  lemma UpstreamsCount(p: Config, j: Candidate, r: Request, u: string, h: real, c: real, h': real, c': real)
    requires u != ""
    ensures Score(p, j, Reporting(r, u, h', c')) - Score(p, j, Reporting(r, u, h, c))
         == if j.want.upstream == u then p.weights.upstreamHealth * (h' - h) - p.weights.cost * (c' - c) else 0.0
  {
    var x, y := Reporting(r, u, h, c), Reporting(r, u, h', c');
    assert Load(p, x) == Load(p, y);
    if j.want.upstream == u {
      assert Health(j.want, x) == h && Health(j.want, y) == h';
      assert Cost(j.want, x) == c && Cost(j.want, y) == c';
      Distributes(p.weights.upstreamHealth, h, h');
      Distributes(p.weights.cost, c, c');
    } else {
      assert Health(j.want, x) == Health(j.want, y) && Cost(j.want, x) == Cost(j.want, y);
    }
  }

  lemma Distributes(k: real, x: real, y: real)
    ensures k * (y - x) == k * y - k * x
  {
  }

  /** A worker that has exactly what the job asks for is worth the weight of an exact match
      more than one with a capability to spare. */
  lemma ExactMatchCounts(p: Config, j: Candidate, r: Request, spare: string)
    requires |j.want.capabilities| == |r.me.spec.caps.capabilities| && |j.want.labels| == |r.me.spec.caps.labels|
    requires Satisfies(r.me.spec.caps, j.want)
    ensures var caps := r.me.spec.caps.(capabilities := r.me.spec.caps.capabilities + [spare]);
      var other := r.(me := r.me.(spec := r.me.spec.(caps := caps)));
      Score(p, j, r) == Score(p, j, other) + p.weights.exactMatch
  {
    var caps := r.me.spec.caps.(capabilities := r.me.spec.caps.capabilities + [spare]);
    var other := r.(me := r.me.(spec := r.me.spec.(caps := caps)));
    assert Health(j.want, other) == Health(j.want, r) && Cost(j.want, other) == Cost(j.want, r);
  }

  /** Every attempt that the worker runs lowers all its scores alike. */
  lemma LoadCounts(p: Config, j: Candidate, r: Request)
    requires r.me.spec.maxSlots > 0
    ensures Score(p, j, r) - Score(p, j, r.(active := r.active + 1)) == p.weights.workerLoad / r.me.spec.maxSlots as real
  {
    var other, n := r.(active := r.active + 1), r.me.spec.maxSlots as real;
    assert Affinity(p, j.want, other) == Affinity(p, j.want, r) && Cost(j.want, other) == Cost(j.want, r);
    var k := p.weights.workerLoad;
    var x := (r.me.spec.maxSlots - r.active) as real;
    assert Load(p, r) == k * x / n && Load(p, other) == k * (x - 1.0) / n;
    Distributes(k, 1.0, x);
    assert k * x / n - (k * x - k) / n == k / n;
  }

  /** Waiting is worth its weight by the minute, and the weight of starvation from its
      threshold on. */
  lemma PatienceCounts(p: Config, j: Candidate, r: Request, earlier: Time)
    requires j.created < r.now && earlier <= j.created && 0 < p.starvationAfter
    ensures Score(p, j.(created := earlier), r) - Score(p, j, r)
         == p.weights.queueAge * ((j.created - earlier) as real / MINUTE as real)
            + (if r.now - j.created < p.starvationAfter <= r.now - earlier then p.weights.starvation else 0.0)
  {
    var x, y := (r.now - j.created) as real / MINUTE as real, (r.now - earlier) as real / MINUTE as real;
    assert y - x == (j.created - earlier) as real / MINUTE as real;
    Distributes(p.weights.queueAge, x, y);
  }

  // Go's order on strings.
  predicate Less(a: string, b: string) {
    b != [] && (a == [] || a[0] < b[0] || (a[0] == b[0] && Less(a[1..], b[1..])))
  }

  lemma {:induction false} LessTotal(a: string, b: string)
    ensures Less(a, b) || Less(b, a) || a == b
    ensures !(Less(a, b) && Less(b, a))
    ensures a == b ==> !Less(a, b)
  {
    if a != [] && b != [] {
      LessTotal(a[1..], b[1..]);
      if a[0] == b[0] && a[1..] == b[1..] {
        assert a == [a[0]] + a[1..] && b == [b[0]] + b[1..];
      }
    }
  }

  lemma {:induction false} LessTransitive(a: string, b: string, c: string)
    requires Less(a, b) && Less(b, c)
    ensures Less(a, c)
  {
    if a != [] && a[0] == b[0] && b[0] == c[0] {
      LessTransitive(a[1..], b[1..], c[1..]);
    }
  }

  /** `x` is placed ahead of `y`: by score, then by age, then by name. */
  predicate Before(p: Config, r: Request, x: Candidate, y: Candidate) {
    || Score(p, x, r) > Score(p, y, r)
    || (Score(p, x, r) == Score(p, y, r)
        && (x.created < y.created || (x.created == y.created && Less(Ids.NameOf(x.id), Ids.NameOf(y.id)))))
  }

  /** Names are compared at their first difference. */
  lemma {:induction false} LessAtDifference(common: string, c: char, a: string, d: char, b: string)
    ensures c != d ==> (Less(common + [c] + a, common + [d] + b) <==> c < d)
  {
    if common != [] {
      LessAtDifference(common[1..], c, a, d, b);
      assert (common + [c] + a)[1..] == common[1..] + [c] + a && (common + [d] + b)[1..] == common[1..] + [d] + b;
    }
  }

  /** The higher score wins; of equal scores, the older job. */
  lemma TiesGoToTheOlder(p: Config, r: Request, x: Candidate, y: Candidate)
    requires Score(p, x, r) > Score(p, y, r) || (Score(p, x, r) == Score(p, y, r) && x.created < y.created)
    ensures Before(p, r, x, y) && !Before(p, r, y, x)
  {
    LessTotal(Ids.NameOf(x.id), Ids.NameOf(y.id));
  }

  lemma BeforeTotal(p: Config, r: Request, x: Candidate, y: Candidate)
    ensures !(Before(p, r, x, y) && Before(p, r, y, x))
    ensures x.id != y.id ==> Before(p, r, x, y) || Before(p, r, y, x)
  {
    LessTotal(Ids.NameOf(x.id), Ids.NameOf(y.id));
    if Ids.NameOf(x.id) == Ids.NameOf(y.id) {
      Ids.NameDeterminesJob(x.id, y.id);
    }
  }

  lemma BeforeTransitive(p: Config, r: Request, x: Candidate, y: Candidate, z: Candidate)
    requires Before(p, r, x, y) && Before(p, r, y, z)
    ensures Before(p, r, x, z)
  {
    var a, b, c := Ids.NameOf(x.id), Ids.NameOf(y.id), Ids.NameOf(z.id);
    if Less(a, b) && Less(b, c) {
      LessTransitive(a, b, c);
    }
  }

  // Ranking

  predicate DistinctJobs(jobs: seq<Candidate>) {
    forall i, j :: 0 <= i < j < |jobs| ==> jobs[i].id != jobs[j].id
  }

  ghost predicate Sorted(p: Config, r: Request, jobs: seq<Candidate>) {
    forall i, j :: 0 <= i < j < |jobs| ==> Before(p, r, jobs[i], jobs[j])
  }

  function Screened(jobs: seq<Candidate>, r: Request): seq<Candidate> {
    if jobs == [] then []
    else
      var last := jobs[|jobs| - 1];
      Screened(jobs[..|jobs| - 1], r) + (if Screen(last, r) == Eligible then [last] else [])
  }

  /** The eligible jobs, each as often as it is queued, in strict order. */
  ghost predicate IsRanking(p: Config, r: Request, jobs: seq<Candidate>, ranked: seq<Candidate>) {
    multiset(ranked) == multiset(Screened(jobs, r)) && Sorted(p, r, ranked)
  }

  lemma {:induction false} ScreenedCounts(jobs: seq<Candidate>, r: Request, x: Candidate)
    ensures multiset(Screened(jobs, r))[x] == if Screen(x, r) == Eligible then multiset(jobs)[x] else 0
  {
    if jobs != [] {
      ScreenedCounts(jobs[..|jobs| - 1], r, x);
      assert jobs == jobs[..|jobs| - 1] + [jobs[|jobs| - 1]];
    }
  }

  lemma ScreenedKeeps(jobs: seq<Candidate>, r: Request, x: Candidate)
    ensures x in Screened(jobs, r) <==> x in jobs && Screen(x, r) == Eligible
    ensures multiset(Screened(jobs, r))[x] == if Screen(x, r) == Eligible then multiset(jobs)[x] else 0
  {
    ScreenedCounts(jobs, r, x);
    assert x in jobs <==> x in multiset(jobs);
    assert x in Screened(jobs, r) <==> x in multiset(Screened(jobs, r));
  }

  // The place of `x`: after all that it does not precede.
  lemma PlaceFound(p: Config, r: Request, sorted: seq<Candidate>, x: Candidate, k: nat)
    requires Sorted(p, r, sorted) && 0 < k <= |sorted| && sorted[k - 1].id != x.id
    requires !Before(p, r, x, sorted[k - 1])
    ensures forall i :: 0 <= i < k ==> Before(p, r, sorted[i], x)
  {
    BeforeTotal(p, r, x, sorted[k - 1]);
    forall i | 0 <= i < k - 1 ensures Before(p, r, sorted[i], x) {
      BeforeTransitive(p, r, sorted[i], sorted[k - 1], x);
    }
  }

  lemma PlacedSorted(p: Config, r: Request, low: seq<Candidate>, x: Candidate, high: seq<Candidate>)
    requires Sorted(p, r, low + high)
    requires forall i :: 0 <= i < |low| ==> Before(p, r, low[i], x)
    requires forall i :: 0 <= i < |high| ==> Before(p, r, x, high[i])
    ensures Sorted(p, r, low + [x] + high)
  {
    var out, whole := low + [x] + high, low + high;
    forall i, j | 0 <= i < j < |out| ensures Before(p, r, out[i], out[j]) {
      if i != |low| && j != |low| {
        var i', j' := if i < |low| then i else i - 1, if j < |low| then j else j - 1;
        assert whole[i'] == out[i] && whole[j'] == out[j];
      }
    }
  }

  method Insert(p: Config, r: Request, sorted: seq<Candidate>, x: Candidate) returns (out: seq<Candidate>)
    requires Sorted(p, r, sorted) && forall i :: 0 <= i < |sorted| ==> sorted[i].id != x.id
    ensures Sorted(p, r, out) && multiset(out) == multiset(sorted) + multiset{x}
  {
    var k := |sorted|;
    while k > 0 && Before(p, r, x, sorted[k - 1])
      invariant 0 <= k <= |sorted|
      invariant forall i :: k <= i < |sorted| ==> Before(p, r, x, sorted[i])
    {
      k := k - 1;
    }
    if k > 0 {
      PlaceFound(p, r, sorted, x, k);
    }
    out := sorted[..k] + [x] + sorted[k..];
    assert sorted == sorted[..k] + sorted[k..];
    PlacedSorted(p, r, sorted[..k], x, sorted[k..]);
  }

  method Rank(p: Config, r: Request, jobs: seq<Candidate>) returns (ranked: seq<Candidate>)
    requires DistinctJobs(jobs)
    ensures IsRanking(p, r, jobs, ranked)
    ensures forall c :: c in ranked <==> c in jobs && CanRun(c.want, r)
  {
    ranked := [];
    for n := 0 to |jobs|
      invariant Sorted(p, r, ranked)
      invariant multiset(ranked) == multiset(Screened(jobs[..n], r))
    {
      assert jobs[..n + 1][..n] == jobs[..n] && jobs[..n + 1][n] == jobs[n];
      if Screen(jobs[n], r) == Eligible {
        forall i | 0 <= i < |ranked| ensures ranked[i].id != jobs[n].id {
          assert ranked[i] in multiset(ranked);
          ScreenedKeeps(jobs[..n], r, ranked[i]);
        }
        ranked := Insert(p, r, ranked, jobs[n]);
      }
    }
    assert jobs[..|jobs|] == jobs;
    forall c ensures c in ranked <==> c in jobs && CanRun(c.want, r) {
      RankedExactly(p, r, jobs, ranked, c);
    }
  }

  lemma RankedExactly(p: Config, r: Request, jobs: seq<Candidate>, ranked: seq<Candidate>, c: Candidate)
    requires IsRanking(p, r, jobs, ranked)
    ensures c in ranked <==> c in jobs && CanRun(c.want, r)
  {
    EligibleExactly(c, r);
    ScreenedKeeps(jobs, r, c);
    assert c in ranked <==> c in multiset(ranked);
    assert c in Screened(jobs, r) <==> c in multiset(Screened(jobs, r));
  }

  lemma HeadsAgree(p: Config, r: Request, x: seq<Candidate>, y: seq<Candidate>)
    requires Sorted(p, r, x) && Sorted(p, r, y) && multiset(x) == multiset(y) && x != []
    ensures y != [] && x[0] == y[0]
  {
    assert x[0] in multiset(y);
    assert x[0] in y;
    assert y[0] in multiset(x);
    var i :| 0 <= i < |y| && y[i] == x[0];
    var j :| 0 <= j < |x| && x[j] == y[0];
    BeforeTotal(p, r, x[0], y[0]);
  }

  lemma {:induction false} SortedUnique(p: Config, r: Request, x: seq<Candidate>, y: seq<Candidate>)
    requires Sorted(p, r, x) && Sorted(p, r, y) && multiset(x) == multiset(y)
    ensures x == y
  {
    if x == [] {
      assert |multiset(y)| == 0;
    } else {
      HeadsAgree(p, r, x, y);
      assert x == [x[0]] + x[1..] && y == [y[0]] + y[1..];
      assert multiset(x[1..]) == multiset(x) - multiset{x[0]} == multiset(y[1..]);
      SortedUnique(p, r, x[1..], y[1..]);
    }
  }

  /** The ranking depends on which jobs are queued, not on the order they are read in. */
  lemma RankingIsCanonical(p: Config, r: Request, jobs: seq<Candidate>, others: seq<Candidate>,
                           x: seq<Candidate>, y: seq<Candidate>)
    requires multiset(jobs) == multiset(others)
    requires IsRanking(p, r, jobs, x) && IsRanking(p, r, others, y)
    ensures x == y
  {
    forall c ensures multiset(Screened(jobs, r))[c] == multiset(Screened(others, r))[c] {
      ScreenedKeeps(jobs, r, c);
      ScreenedKeeps(others, r, c);
    }
    assert multiset(x) == multiset(y);
    SortedUnique(p, r, x, y);
  }

  // Bounded overtaking

  // Upstream health lies in [0, 1] and cost in [0, bound].
  ghost predicate Moderate(r: Request, bound: real) {
    forall u :: u in r.me.report.upstreams ==>
      && 0.0 <= r.me.report.upstreams[u].health <= 1.0
      && (r.me.report.upstreams[u].cost.Some? ==> 0.0 <= r.me.report.upstreams[u].cost.value <= bound)
  }

  lemma AffinityBounds(c: Constraints, r: Request, bound: real)
    requires Moderate(r, bound) && bound >= 0.0
    ensures 0.0 <= Affinity(DEFAULT, c, r) <= 51.0
    ensures 0.0 <= Cost(c, r) <= bound
  {
    assert 0.0 <= Health(c, r) <= 1.0;
  }

  lemma PatienceGrows(older: Time, younger: Time, now: Time)
    requires older <= younger <= now
    ensures Patience(DEFAULT, older, now) - Patience(DEFAULT, younger, now) >= (younger - older) as real / MINUTE as real
  {
    assert ((now - older) as real / MINUTE as real) - ((now - younger) as real / MINUTE as real)
        == (younger - older) as real / MINUTE as real;
  }

  /** Under the default weights a job overtakes an older one by at most 51 minutes
      and the price of an upstream, whatever the two jobs ask for. */
  lemma BoundedOvertaking(r: Request, older: Candidate, younger: Candidate, bound: real)
    requires Moderate(r, bound) && bound >= 0.0
    requires older.created <= younger.created <= r.now
    requires (younger.created - older.created) as real / MINUTE as real > 51.0 + bound
    ensures Before(DEFAULT, r, older, younger) && !Before(DEFAULT, r, younger, older)
  {
    AffinityBounds(older.want, r, bound);
    AffinityBounds(younger.want, r, bound);
    PatienceGrows(older.created, younger.created, r.now);
    assert Score(DEFAULT, older, r) > Score(DEFAULT, younger, r);
  }
}
