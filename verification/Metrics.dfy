/** The metrics summary, whose review counts must not hide work behind a dead claim. */
module Metrics {
  import opened Domain
  import opened ReviewClaims

  datatype DecisionFacts = DecisionFacts(verdict: Decision, needsReview: bool, latencyMs: int, createdAt: Time)

  datatype MetricsSummary = MetricsSummary(
    queueDepth: nat, pendingReviews: nat, claimedReviews: nat,
    total: nat, allow: nat, flag: nat, blocked: nat, autoResolved: nat, autoResolveRate: real,
    p95LatencyMs: Option<real>, lastMinute: nat)

  const DAY: Time := 24 * 60 * MINUTE
  const MINUTE: Time := 60 * 1_000_000

  function CountVerdicts(ds: seq<DecisionFacts>, d: Decision): nat {
    if ds == [] then 0
    else
      var n := |ds| - 1;
      CountVerdicts(ds[..n], d) + if ds[n].verdict == d then 1 else 0
  }

  function CountAuto(ds: seq<DecisionFacts>): nat {
    if ds == [] then 0
    else
      var n := |ds| - 1;
      CountAuto(ds[..n]) + if ds[n].needsReview then 0 else 1
  }

  function CountSince(ds: seq<DecisionFacts>, from: Time): nat {
    if ds == [] then 0
    else
      var n := |ds| - 1;
      CountSince(ds[..n], from) + if ds[n].createdAt > from then 1 else 0
  }

  /** The latencies of decisions younger than a day, smallest first. */
  function Latencies(ds: seq<DecisionFacts>, from: Time): seq<int> {
    if ds == [] then []
    else
      var n := |ds| - 1;
      if ds[n].createdAt > from then Insert(Latencies(ds[..n], from), ds[n].latencyMs) else Latencies(ds[..n], from)
  }

  function Insert(xs: seq<int>, x: int): seq<int> {
    if xs == [] || x <= xs[0] then [x] + xs else [xs[0]] + Insert(xs[1..], x)
  }

  function Blend(a: real, b: real, part: real): real { a + part * (b - a) }

  /** percentile_cont(0.95): linear interpolation between the two nearest ranks; nothing without rows. */
  function Percentile95(xs: seq<int>): Option<real> {
    if xs == [] then None
    else
      var rank := 0.95 * (|xs| - 1) as real;
      var low := rank.Floor;
      if low + 1 < |xs| then Some(Blend(xs[low] as real, xs[low + 1] as real, rank - low as real))
      else Some(xs[|xs| - 1] as real)
  }

  /** round(x, 4), halves to the even neighbour. */
  function Round4(x: real): real {
    var y := x * 10000.0;
    var low := y.Floor;
    var rest := y - low as real;
    (if rest < 0.5 || (rest == 0.5 && low % 2 == 0) then low else low + 1) as real / 10000.0
  }

  /** The clock readings of the two statements about recent decisions. */
  datatype Clocks = Clocks(latencies: Time, lastMinute: Time)

  /** What the first SELECT counts: pending reviews, and claims without an end or with one strictly before now. */
  function PendingAt(reviews: Table, now: Time): set<ReviewId> {
    set v | v in reviews && (|| reviews[v].status == Pending
                             || (reviews[v].status == Claimed
                                 && (reviews[v].expiresAt.None? || reviews[v].expiresAt.value < now)))
  }

  /** What the second SELECT counts: claims that end now or later. */
  function ClaimedAt(reviews: Table, now: Time): set<ReviewId> {
    set v | v in reviews && reviews[v].status == Claimed
            && reviews[v].expiresAt.Some? && reviews[v].expiresAt.value >= now
  }

  /** What one SELECT saw: it has its own snapshot of the table and its own now(). */
  datatype Reading = Reading(reviews: Table, now: Time)

  /** fetch_metrics_summary. Its statements share no transaction, so the two review counts come from two readings. */
  function FetchMetricsSummary(first: Reading, second: Reading,
                               jobs: map<nat, JobStatus>, ds: seq<DecisionFacts>, c: Clocks): MetricsSummary
  {
    var total, auto := |ds|, CountAuto(ds);
    MetricsSummary(
      |set j | j in jobs && jobs[j] in {Queued, Processing}|,
      |PendingAt(first.reviews, first.now)|, |ClaimedAt(second.reviews, second.now)|,
      total, CountVerdicts(ds, ALLOW), CountVerdicts(ds, FLAG), CountVerdicts(ds, BLOCK), auto,
      Round4(if total == 0 then 0.0 else auto as real / total as real),
      Percentile95(Latencies(ds, c.latencies - DAY)), CountSince(ds, c.lastMinute - MINUTE))
  }

  function WithStatus(t: Table, status: ReviewStatus): set<ReviewId> {
    set v | v in t && t[v].status == status
  }

  /** Each reported count is the plain status count a sweep at the moment of its own reading would leave. */
  lemma CountsAgreeWithSweep(first: Reading, second: Reading, jobs: map<nat, JobStatus>, ds: seq<DecisionFacts>,
                             c: Clocks)
    ensures var m := FetchMetricsSummary(first, second, jobs, ds, c);
            && m.pendingReviews == |WithStatus(Sweep(first.reviews, first.now), Pending)|
            && m.claimedReviews == |WithStatus(Sweep(second.reviews, second.now), Claimed)|
  {
    assert PendingAt(first.reviews, first.now) == WithStatus(Sweep(first.reviews, first.now), Pending);
    assert ClaimedAt(second.reviews, second.now) == WithStatus(Sweep(second.reviews, second.now), Claimed);
  }

  /** A sweep moves reviews between pending and claimed and out of neither; the counts of one moment see them all. */
  lemma SweepConservesOpenWork(reviews: Table, now: Time)
    ensures |PendingAt(reviews, now)| + |ClaimedAt(reviews, now)|
            == |WithStatus(reviews, Pending)| + |WithStatus(reviews, Claimed)|
    ensures |WithStatus(Sweep(reviews, now), Pending)| + |WithStatus(Sweep(reviews, now), Claimed)|
            == |WithStatus(reviews, Pending)| + |WithStatus(reviews, Claimed)|
  {
    CountsAgreeWithSweep(Reading(reviews, now), Reading(reviews, now), map[], [], Clocks(now, now));
    var pending, claimed := WithStatus(reviews, Pending), WithStatus(reviews, Claimed);
    assert PendingAt(reviews, now) + ClaimedAt(reviews, now) == pending + claimed;
    assert PendingAt(reviews, now) !! ClaimedAt(reviews, now) && pending !! claimed;
    Disjoint(PendingAt(reviews, now), ClaimedAt(reviews, now));
    Disjoint(pending, claimed);
  }

  lemma Disjoint(a: set<ReviewId>, b: set<ReviewId>)
    requires a !! b
    ensures |a + b| == |a| + |b|
  {
  }

  /** Claims that end at a or later, but before b. */
  function EndingBetween(reviews: Table, a: Time, b: Time): set<ReviewId> {
    set v | v in reviews && reviews[v].status == Claimed
            && reviews[v].expiresAt.Some? && a <= reviews[v].expiresAt.value < b
  }

  ghost function OpenReviews(t: Table): set<ReviewId> { WithStatus(t, Pending) + WithStatus(t, Claimed) }

  lemma OpenIsSum(t: Table)
    ensures |OpenReviews(t)| == |WithStatus(t, Pending)| + |WithStatus(t, Claimed)|
  {
    Disjoint(WithStatus(t, Pending), WithStatus(t, Claimed));
  }

  lemma Overlap(a: set<ReviewId>, b: set<ReviewId>)
    ensures |a| + |b| == |a + b| + |a * b|
  {
    Disjoint(a - b, b);
    Disjoint(a - b, a * b);
    assert a + b == (a - b) + b && a == (a - b) + a * b;
  }

  lemma Beside(a: set<ReviewId>, b: set<ReviewId>)
    ensures |a + b| == |a| + |b - a|
  {
    Disjoint(a, b - a);
    assert a + b == a + (b - a);
  }

  /**
   * For any two readings: against the reviews open at the second, the two counts together miss those in neither,
   * count twice those in both, and still count those settled since the first. So the sum is right exactly when the
   * missed ones are as many as the other two kinds together.
   */
  lemma CountsOffExactly(first: Reading, second: Reading, jobs: map<nat, JobStatus>, ds: seq<DecisionFacts>, c: Clocks)
    ensures var m := FetchMetricsSummary(first, second, jobs, ds, c);
            var p, q := PendingAt(first.reviews, first.now), ClaimedAt(second.reviews, second.now);
            var open := OpenReviews(second.reviews);
            && m.pendingReviews + m.claimedReviews + |open - p - q| == |open| + |p * q| + |p - open|
            && (m.pendingReviews + m.claimedReviews == |open| <==> |open - p - q| == |p * q| + |p - open|)
  {
    var p, q := PendingAt(first.reviews, first.now), ClaimedAt(second.reviews, second.now);
    var open := OpenReviews(second.reviews);
    Overlap(p, q);
    Beside(p + q, open);
    Beside(open, p + q);
    assert open - (p + q) == open - p - q && (p + q) - open == p - open && (p + q) + open == open + (p + q);
  }

  /** With the table at rest between the readings, the counts miss exactly the claims that end between them. */
  lemma CountsMissExactly(reviews: Table, a: Time, b: Time, jobs: map<nat, JobStatus>, ds: seq<DecisionFacts>,
                          c: Clocks)
    requires a <= b
    ensures var m := FetchMetricsSummary(Reading(reviews, a), Reading(reviews, b), jobs, ds, c);
            var open := |WithStatus(reviews, Pending)| + |WithStatus(reviews, Claimed)|;
            && m.pendingReviews + m.claimedReviews + |EndingBetween(reviews, a, b)| == open
            && (m.pendingReviews + m.claimedReviews == open <==> EndingBetween(reviews, a, b) == {})
  {
    CountsOffExactly(Reading(reviews, a), Reading(reviews, b), jobs, ds, c);
    OpenIsSum(reviews);
    AtRest(reviews, a, b);
  }

  lemma AtRest(reviews: Table, a: Time, b: Time)
    requires a <= b
    ensures OpenReviews(reviews) - PendingAt(reviews, a) - ClaimedAt(reviews, b) == EndingBetween(reviews, a, b)
    ensures PendingAt(reviews, a) * ClaimedAt(reviews, b) == {} && PendingAt(reviews, a) - OpenReviews(reviews) == {}
  {
  }

  function AfterSweep(r: Reading, at: Time): Reading { r.(reviews := Sweep(r.reviews, at)) }

  /** The summary reads the same whether or not dead claims were swept at any moment before its readings. */
  lemma SummaryIgnoresSweep(first: Reading, second: Reading, a: Time, b: Time,
                            jobs: map<nat, JobStatus>, ds: seq<DecisionFacts>, c: Clocks)
    requires a <= first.now && b <= second.now
    ensures FetchMetricsSummary(AfterSweep(first, a), AfterSweep(second, b), jobs, ds, c)
            == FetchMetricsSummary(first, second, jobs, ds, c)
  {
    SweepIsAbsorbed(first.reviews, a, first.now);
    SweepIsAbsorbed(second.reviews, b, second.now);
    CountsAgreeWithSweep(first, second, jobs, ds, c);
    CountsAgreeWithSweep(AfterSweep(first, a), AfterSweep(second, b), jobs, ds, c);
  }

  lemma {:induction false} CountsAddUp(ds: seq<DecisionFacts>)
    ensures CountVerdicts(ds, ALLOW) + CountVerdicts(ds, FLAG) + CountVerdicts(ds, BLOCK) == |ds|
    ensures CountAuto(ds) <= |ds|
  {
    if ds != [] { CountsAddUp(ds[..|ds| - 1]); }
  }

  /** The result is the nearest number of four decimals, and the one with an even last digit when two are as near. */
  lemma RoundsToNearest(x: real) returns (k: int)
    ensures Round4(x) == k as real / 10000.0
    ensures -0.5 <= x * 10000.0 - k as real <= 0.5
    ensures x * 10000.0 - k as real in {-0.5, 0.5} ==> k % 2 == 0
  {
    var y := x * 10000.0;
    var rest := y - y.Floor as real;
    k := if rest < 0.5 || (rest == 0.5 && y.Floor % 2 == 0) then y.Floor else y.Floor + 1;
    assert y.Floor as real <= y < y.Floor as real + 1.0;
  }

  lemma RoundKeepsProportion(x: real)
    requires 0.0 <= x <= 1.0
    ensures 0.0 <= Round4(x) <= 1.0 && x - 0.00005 <= Round4(x) <= x + 0.00005
  {
    var k := RoundsToNearest(x);
    assert -1 < k < 10001;
  }

  // ---------------------------------------------------------------- the counts

  lemma OneMore(a: set<int>, n: int, p: bool, b: set<int>)
    requires n !in a && b == a + if p then {n} else {}
    ensures |b| == |a| + if p then 1 else 0
  {
  }

  function OfVerdict(ds: seq<DecisionFacts>, d: Decision): set<int> { set i | 0 <= i < |ds| && ds[i].verdict == d }

  function Unreviewed(ds: seq<DecisionFacts>): set<int> { set i | 0 <= i < |ds| && !ds[i].needsReview }

  function YoungerThan(ds: seq<DecisionFacts>, from: Time): set<int> {
    set i | 0 <= i < |ds| && ds[i].createdAt > from
  }

  function Finished(jobs: map<nat, JobStatus>): set<nat> { set j | j in jobs && jobs[j] in {Succeeded, Failed, Dead} }

  lemma {:induction false} VerdictsCounted(ds: seq<DecisionFacts>, d: Decision)
    ensures CountVerdicts(ds, d) == |OfVerdict(ds, d)|
  {
    if ds != [] {
      var n := |ds| - 1;
      VerdictsCounted(ds[..n], d);
      OneMore(OfVerdict(ds[..n], d), n, ds[n].verdict == d, OfVerdict(ds, d));
    }
  }

  lemma {:induction false} AutoCounted(ds: seq<DecisionFacts>)
    ensures CountAuto(ds) == |Unreviewed(ds)|
  {
    if ds != [] {
      var n := |ds| - 1;
      AutoCounted(ds[..n]);
      OneMore(Unreviewed(ds[..n]), n, !ds[n].needsReview, Unreviewed(ds));
    }
  }

  lemma {:induction false} RecentCounted(ds: seq<DecisionFacts>, from: Time)
    ensures CountSince(ds, from) == |YoungerThan(ds, from)|
  {
    if ds != [] {
      var n := |ds| - 1;
      RecentCounted(ds[..n], from);
      OneMore(YoungerThan(ds[..n], from), n, ds[n].createdAt > from, YoungerThan(ds, from));
    }
  }

  lemma WaitingCounted(jobs: map<nat, JobStatus>, waiting: set<nat>)
    requires waiting == set j | j in jobs && jobs[j] in {Queued, Processing}
    ensures |waiting| + |Finished(jobs)| == |jobs|
  {
    forall j: nat ensures j in jobs.Keys <==> j in waiting + Finished(jobs) {
      if j in jobs {
        match jobs[j]
        case Queued =>
        case Processing =>
        case Succeeded =>
        case Failed =>
        case Dead =>
      }
    }
    assert jobs.Keys == waiting + Finished(jobs) && waiting !! Finished(jobs);
    assert |waiting + Finished(jobs)| == |waiting| + |Finished(jobs)|;
  }

  lemma NoneYoung(ds: seq<DecisionFacts>, from: Time)
    ensures Percentile95(Latencies(ds, from)).None? <==> YoungerThan(ds, from) == {}
  {
    LatenciesSorted(ds, from);
    RecentCounted(ds, from);
  }

  lemma DepthTells(first: Reading, second: Reading, jobs: map<nat, JobStatus>, ds: seq<DecisionFacts>, c: Clocks)
    ensures FetchMetricsSummary(first, second, jobs, ds, c).queueDepth + |Finished(jobs)| == |jobs|
  {
    WaitingCounted(jobs, set j | j in jobs && jobs[j] in {Queued, Processing});
  }

  lemma DecisionsTell(first: Reading, second: Reading, jobs: map<nat, JobStatus>, ds: seq<DecisionFacts>, c: Clocks)
    ensures var m := FetchMetricsSummary(first, second, jobs, ds, c);
            && m.total == |ds| && m.allow == |OfVerdict(ds, ALLOW)| && m.flag == |OfVerdict(ds, FLAG)|
            && m.blocked == |OfVerdict(ds, BLOCK)| && m.autoResolved == |Unreviewed(ds)|
  {
    VerdictsCounted(ds, ALLOW); VerdictsCounted(ds, FLAG); VerdictsCounted(ds, BLOCK);
    AutoCounted(ds);
  }

  lemma RecentTells(first: Reading, second: Reading, jobs: map<nat, JobStatus>, ds: seq<DecisionFacts>, c: Clocks)
    ensures var m := FetchMetricsSummary(first, second, jobs, ds, c);
            && m.lastMinute == |YoungerThan(ds, c.lastMinute - 60_000_000)|
            && (m.p95LatencyMs.None? <==> YoungerThan(ds, c.latencies - 86_400_000_000) == {})
  {
    RecentCounted(ds, c.lastMinute - MINUTE);
    NoneYoung(ds, c.latencies - DAY);
  }

  /** Every count of the summary as a number of rows; times are microseconds. */
  lemma CountsTell(first: Reading, second: Reading, jobs: map<nat, JobStatus>, ds: seq<DecisionFacts>, c: Clocks)
    ensures var m := FetchMetricsSummary(first, second, jobs, ds, c);
            && m.queueDepth + |Finished(jobs)| == |jobs|
            && m.total == |ds| && m.allow == |OfVerdict(ds, ALLOW)| && m.flag == |OfVerdict(ds, FLAG)|
            && m.blocked == |OfVerdict(ds, BLOCK)| && m.autoResolved == |Unreviewed(ds)|
            && m.lastMinute == |YoungerThan(ds, c.lastMinute - 60_000_000)|
            && (m.p95LatencyMs.None? <==> YoungerThan(ds, c.latencies - 86_400_000_000) == {})
  {
    DepthTells(first, second, jobs, ds, c);
    DecisionsTell(first, second, jobs, ds, c);
    RecentTells(first, second, jobs, ds, c);
  }

  /**
   * The verdict counts partition the total, the auto-resolved ones are among them, and the reported rate is a
   * proportion within half a unit of the fourth decimal of the exact one.
   */
  lemma TotalsAddUp(first: Reading, second: Reading, jobs: map<nat, JobStatus>, ds: seq<DecisionFacts>, c: Clocks)
    ensures var m := FetchMetricsSummary(first, second, jobs, ds, c);
            && m.allow + m.flag + m.blocked == m.total && m.autoResolved <= m.total
            && 0.0 <= m.autoResolveRate <= 1.0
            && (m.total > 0 ==>
                  var exact := m.autoResolved as real / m.total as real;
                  exact - 0.00005 <= m.autoResolveRate <= exact + 0.00005)
            && (m.total == 0 ==> m.autoResolveRate == 0.0)
  {
    CountsAddUp(ds);
    var rate := if |ds| == 0 then 0.0 else CountAuto(ds) as real / |ds| as real;
    assert 0.0 <= rate <= 1.0;
    RoundKeepsProportion(rate);
  }

  // ---------------------------------------------------------------- the percentile

  predicate Sorted(xs: seq<int>) { forall i, j :: 0 <= i < j < |xs| ==> xs[i] <= xs[j] }

  lemma Consed(x: int, xs: seq<int>)
    requires Sorted(xs) && (xs != [] ==> x <= xs[0])
    ensures Sorted([x] + xs)
  {
  }

  lemma {:induction false} InsertSorts(xs: seq<int>, x: int)
    requires Sorted(xs)
    ensures Sorted(Insert(xs, x)) && |Insert(xs, x)| == |xs| + 1
    ensures Insert(xs, x)[0] == if xs == [] || x <= xs[0] then x else xs[0]
  {
    if xs == [] || x <= xs[0] {
      Consed(x, xs);
    } else {
      InsertSorts(xs[1..], x);
      Consed(xs[0], Insert(xs[1..], x));
    }
  }

  lemma {:induction false} InsertKeeps(xs: seq<int>, x: int)
    ensures multiset(Insert(xs, x)) == multiset(xs) + multiset{x}
  {
    if !(xs == [] || x <= xs[0]) {
      InsertKeeps(xs[1..], x);
      assert xs == [xs[0]] + xs[1..];
    }
  }

  /** The same latencies in table order. */
  function Recent(ds: seq<DecisionFacts>, from: Time): seq<int> {
    if ds == [] then []
    else
      var n := |ds| - 1;
      Recent(ds[..n], from) + if ds[n].createdAt > from then [ds[n].latencyMs] else []
  }

  lemma {:induction false} LatenciesSorted(ds: seq<DecisionFacts>, from: Time)
    ensures Sorted(Latencies(ds, from)) && |Latencies(ds, from)| == CountSince(ds, from)
  {
    if ds != [] {
      var n := |ds| - 1;
      LatenciesSorted(ds[..n], from);
      if ds[n].createdAt > from { InsertSorts(Latencies(ds[..n], from), ds[n].latencyMs); }
    }
  }

  lemma {:induction false} LatenciesAreRecent(ds: seq<DecisionFacts>, from: Time)
    ensures multiset(Latencies(ds, from)) == multiset(Recent(ds, from))
  {
    if ds != [] {
      var n := |ds| - 1;
      var rest, x := Recent(ds[..n], from), ds[n].latencyMs;
      LatenciesAreRecent(ds[..n], from);
      if ds[n].createdAt > from {
        InsertKeeps(Latencies(ds[..n], from), x);
        assert multiset(rest + [x]) == multiset(rest) + multiset{x};
      } else {
        assert rest + [] == rest;
      }
    }
  }

  /** The reported percentile is there iff a decision is younger than a day, and lies among the recorded latencies. */
  lemma PercentileInRange(ds: seq<DecisionFacts>, from: Time)
    ensures var xs, p := Latencies(ds, from), Percentile95(Latencies(ds, from));
            && (p.Some? <==> CountSince(ds, from) > 0)
            && (p.Some? ==> xs[0] as real <= p.value <= xs[|xs| - 1] as real)
            && Sorted(xs) && multiset(xs) == multiset(Recent(ds, from))
  {
    LatenciesSorted(ds, from);
    LatenciesAreRecent(ds, from);
    var xs := Latencies(ds, from);
    if xs != [] { Interpolates(xs); }
  }

  lemma Interpolates(xs: seq<int>)
    requires Sorted(xs) && xs != []
    ensures xs[0] as real <= Percentile95(xs).value <= xs[|xs| - 1] as real
  {
    var rank := 0.95 * (|xs| - 1) as real;
    var low := rank.Floor;
    if low + 1 < |xs| {
      BlendBetween(xs[low] as real, xs[low + 1] as real, rank - low as real);
      assert xs[0] <= xs[low] && xs[low + 1] <= xs[|xs| - 1];
    }
  }

  lemma Product(x: real, y: real)
    requires 0.0 <= x && 0.0 <= y
    ensures 0.0 <= x * y
  {
  }

  lemma BlendBetween(a: real, b: real, part: real)
    requires a <= b && 0.0 <= part <= 1.0
    ensures a <= Blend(a, b, part) <= b
  {
    Product(part, b - a);
    Product(1.0 - part, b - a);
    assert (1.0 - part) * (b - a) == (b - a) - part * (b - a);
  }

  // ---------------------------------------------------------------- what the percentile divides

  function AtOrBelow(xs: seq<int>, p: real): set<int> { set i | 0 <= i < |xs| && xs[i] as real <= p }

  function AtOrAbove(xs: seq<int>, p: real): set<int> { set i | 0 <= i < |xs| && xs[i] as real >= p }

  function Low(n: int): int { (0.95 * (n - 1) as real).Floor }

  lemma LowIs(n: int)
    requires n >= 1
    ensures 0 <= Low(n) < n && 20 * Low(n) <= 19 * (n - 1) < 20 * (Low(n) + 1) && (n > 1 ==> Low(n) + 1 < n)
  {
    var rank := 0.95 * (n - 1) as real;
    assert 20.0 * rank == (19 * (n - 1)) as real;
    assert Low(n) as real <= rank < Low(n) as real + 1.0;
    assert 20.0 * Low(n) as real == (20 * Low(n)) as real;
  }

  function Range(a: int, b: int): (s: set<int>)
    requires a <= b
    ensures forall i :: i in s <==> a <= i < b
    ensures |s| == b - a
    decreases b - a
  {
    if a == b then {} else {a} + Range(a + 1, b)
  }

  lemma AtLeast(s: set<int>, t: set<int>)
    requires s <= t
    ensures |s| <= |t|
  {
    assert t == s + (t - s);
    assert |s + (t - s)| == |s| + |t - s|;
  }

  /** The value lies between its two neighbours, and reaches the upper one only when they are equal. */
  lemma BetweenNeighbours(xs: seq<int>)
    requires Sorted(xs) && |xs| > 1
    ensures var p, low := Percentile95(xs).value, Low(|xs|);
            && 0 <= low && low + 1 < |xs| && xs[low] as real <= p <= xs[low + 1] as real
            && (p == xs[low + 1] as real <==> xs[low] == xs[low + 1])
  {
    LowIs(|xs|);
    var low, part := Low(|xs|), 0.95 * (|xs| - 1) as real - Low(|xs|) as real;
    BlendBetween(xs[low] as real, xs[low + 1] as real, part);
    Product(1.0 - part, (xs[low + 1] - xs[low]) as real);
    if xs[low] < xs[low + 1] { BlendBelow(xs[low] as real, xs[low + 1] as real, part); }
  }

  lemma BlendBelow(a: real, b: real, part: real)
    requires a < b && 0.0 <= part < 1.0
    ensures Blend(a, b, part) < b
  {
    var x, y := 1.0 - part, b - a;
    assert x * y > 0.0;
    assert x * y == (b - a) - part * (b - a);
  }

  /** More than 95 percent of the gaps between the latencies lie up to the value, five percent from it on. */
  lemma PercentileDivides(xs: seq<int>)
    requires Sorted(xs) && xs != []
    ensures var p, n := Percentile95(xs).value, |xs|;
            20 * |AtOrBelow(xs, p)| > 19 * (n - 1) && 20 * |AtOrAbove(xs, p)| >= n - 1
  {
    LowIs(|xs|);
    if |xs| > 1 { BetweenNeighbours(xs); }
    SplitsAt(xs, Percentile95(xs).value, Low(|xs|));
  }

  lemma SplitsAt(xs: seq<int>, p: real, low: nat)
    requires Sorted(xs) && low < |xs| && xs[low] as real <= p
    requires low + 1 < |xs| ==> p <= xs[low + 1] as real
    ensures |AtOrBelow(xs, p)| >= low + 1 && |AtOrAbove(xs, p)| >= |xs| - low - 1
  {
    AtLeast(Range(0, low + 1), AtOrBelow(xs, p));
    AtLeast(Range(low + 1, |xs|), AtOrAbove(xs, p));
  }

  /**
   * The value need not have 95 percent of the latencies at or below it. It has exactly when their number leaves a
   * remainder of 0 or 1 by 20, or the two latencies it lies between are equal.
   */
  lemma Covers95Iff(xs: seq<int>)
    requires Sorted(xs) && xs != []
    ensures var n, low := |xs|, Low(|xs|);
            && 0 <= low < n
            && (20 * |AtOrBelow(xs, Percentile95(xs).value)| >= 19 * n <==>
                  n % 20 in {0, 1} || (low + 1 < n && xs[low] == xs[low + 1]))
  {
    LowIs(|xs|);
    MultipleOf20(|xs|, Low(|xs|) + 1);
    if |xs| > 1 { CoveredCount(xs); } else { assert AtOrBelow(xs, Percentile95(xs).value) == Range(0, 1); }
  }

  lemma CoveredCount(xs: seq<int>)
    requires Sorted(xs) && |xs| > 1
    ensures var low, covered := Low(|xs|), |AtOrBelow(xs, Percentile95(xs).value)|;
            && 0 <= low && low + 1 < |xs|
            && if xs[low] == xs[low + 1] then covered >= low + 2 else covered == low + 1
  {
    BetweenNeighbours(xs);
    var low, below := Low(|xs|), AtOrBelow(xs, Percentile95(xs).value);
    if xs[low] == xs[low + 1] { AtLeast(Range(0, low + 2), below); } else { assert below == Range(0, low + 1); }
  }

  /** Of the 20 numbers up to 19n + 1 one is a multiple of 20; it is at least 19n when n leaves 0 or 1. */
  lemma MultipleOf20(n: int, k: int)
    requires 19 * (n - 1) < 20 * k <= 19 * (n - 1) + 20
    ensures 20 * k >= 19 * n <==> n % 20 in {0, 1}
  {
    var q, r := n / 20, n % 20;
    assert n == 20 * q + r;
    var m := k - 19 * q;
    assert 19 * (r - 1) < 20 * m <= 19 * (r - 1) + 20;
  }

  /** Between neighbours the value is on the straight line: on evenly spaced latencies it is 0.95 of the way. */
  lemma PercentileOfLine(xs: seq<int>, a: real, d: real)
    requires xs != [] && forall i | 0 <= i < |xs| :: xs[i] as real == OnLine(a, d, i as real)
    ensures Percentile95(xs) == Some(OnLine(a, d, 0.95 * (|xs| - 1) as real))
  {
    LowIs(|xs|);
    var low := Low(|xs|);
    if |xs| > 1 {
      assert (low + 1) as real == low as real + 1.0;
      BlendOnLine(a, d, low as real, 0.95 * (|xs| - 1) as real);
    } else {
      assert xs[0] as real == OnLine(a, d, 0.0);
    }
  }

  function OnLine(a: real, d: real, x: real): real { a + d * x }

  lemma BlendOnLine(a: real, d: real, low: real, rank: real)
    ensures Blend(OnLine(a, d, low), OnLine(a, d, low + 1.0), rank - low) == OnLine(a, d, rank)
  {
  }
}
