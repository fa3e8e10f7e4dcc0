/**
 The limiter over whole runs: requests of any tenants, passing time, and EXPIRE commands
 that arrive at any later moment or not at all. In every aligned window a tenant gets as
 many admissions as it made requests, up to the limit; hence at most twice the limit in
 any stretch of one window's length.
 */
module RateLimitRuns {
  import opened RateLimit

  datatype Request = Request(tenant: string, at: nat, admitted: bool)

  /** created remembers the keys whose INCR answered 1: their handlers owe an EXPIRE. */
  datatype State = State(store: Store, now: nat, created: set<string>, history: seq<Request>)

  datatype Event = Wait(ms: nat) | Check(tenant: string) | ExpireSent(key: string)

  /** The settings: requests per window and window length in seconds, both positive. */
  datatype Config = Config(limit: nat, w: nat)

  predicate Valid(c: Config) { c.limit >= 1 && c.w >= 1 }

  function BucketOf(c: Config, at: nat): nat
    requires Valid(c)
  {
    Bucket(at / 1000, c.w)
  }

  function KeyAt(c: Config, tenant: string, at: nat): string
    requires Valid(c)
  {
    BucketKey(tenant, BucketOf(c, at))
  }

  function Next(c: Config, s: State, e: Event): State
    requires Valid(c)
  {
    match e
    case Wait(ms) => s.(now := s.now + ms)
    case Check(tenant) =>
      var key := KeyAt(c, tenant, s.now);
      var count := Count(s.store, key, s.now) + 1;
      s.(store := Incr(s.store, key, s.now),
         created := if count == 1 then s.created + {key} else s.created,
         history := s.history
                    + [Request(tenant, s.now, EvaluateFixedWindow(count, c.limit, c.w, s.now / 1000).allowed)])
    case ExpireSent(key) =>
      if key in s.created then s.(store := Expire(s.store, key, s.now, 1000 * c.w)) else s
  }

  function Run(c: Config, s: State, es: seq<Event>): State
    requires Valid(c)
    decreases |es|
  {
    if es == [] then s else Run(c, Next(c, s, es[0]), es[1..])
  }

  function Init(start: nat): State { State(map[], start, {}, []) }

  // ---------------------------------------------------------------- counting requests

  ghost function Requests(c: Config, h: seq<Request>, t: string, b: nat): nat
    requires Valid(c)
  {
    if h == [] then 0
    else
      var r := h[|h| - 1];
      Requests(c, h[..|h| - 1], t, b) + if r.tenant == t && BucketOf(c, r.at) == b then 1 else 0
  }

  ghost function Admitted(c: Config, h: seq<Request>, t: string, b: nat): nat
    requires Valid(c)
  {
    if h == [] then 0
    else
      var r := h[|h| - 1];
      Admitted(c, h[..|h| - 1], t, b) + if r.tenant == t && BucketOf(c, r.at) == b && r.admitted then 1 else 0
  }

  /** Requests of t admitted at a time in [from, to). */
  ghost function AdmittedIn(h: seq<Request>, t: string, from: nat, to: nat): nat {
    if h == [] then 0
    else
      var r := h[|h| - 1];
      AdmittedIn(h[..|h| - 1], t, from, to) + if r.tenant == t && from <= r.at < to && r.admitted then 1 else 0
  }

  lemma Snoc(c: Config, h: seq<Request>, r: Request, t: string, b: nat)
    requires Valid(c)
    ensures Requests(c, h + [r], t, b) ==
            Requests(c, h, t, b) + if r.tenant == t && BucketOf(c, r.at) == b then 1 else 0
    ensures Admitted(c, h + [r], t, b) ==
            Admitted(c, h, t, b) + if r.tenant == t && BucketOf(c, r.at) == b && r.admitted then 1 else 0
  {
    assert (h + [r])[..|h|] == h;
  }

  // ---------------------------------------------------------------- the invariant

  /** Milliseconds at which bucket b ends. */
  function EndOf(c: Config, b: nat): nat { 1000 * ((b + 1) * c.w) }

  lemma BucketBounds(c: Config, at: nat, b: nat)
    requires Valid(c)
    ensures BucketOf(c, at) == b <==> 1000 * (b * c.w) <= at < EndOf(c, b)
  {
    BucketIs(at / 1000, c.w, b);
  }

  lemma MulMonotone(a: nat, b: nat, w: nat)
    requires a <= b
    ensures a * w <= b * w
  {
    assert b * w == a * w + (b - a) * w;
  }

  lemma BucketsGrow(c: Config, a: nat, b: nat)
    requires Valid(c) && a <= b
    ensures BucketOf(c, a) <= BucketOf(c, b)
  {
    var p, q := BucketOf(c, a), BucketOf(c, b);
    BucketBounds(c, a, p);
    BucketBounds(c, b, q);
    if q < p { MulMonotone(q + 1, p, c.w); }
  }

  /** No key expires before its own window ends. */
  ghost predicate OutlivesWindow(c: Config, s: State) {
    && (forall t: string, b: nat | BucketKey(t, b) in s.store :: s.store[BucketKey(t, b)].expiry.Some? ==>
          EndOf(c, b) <= s.store[BucketKey(t, b)].expiry.value)
    && (forall t: string, b: nat | BucketKey(t, b) in s.created :: 1000 * (b * c.w) <= s.now)
  }

  /** In the running window and later ones, the counter is the number of requests. */
  ghost predicate Accurate(c: Config, s: State)
    requires Valid(c)
  {
    forall t: string, b: nat | BucketOf(c, s.now) <= b ::
      Count(s.store, BucketKey(t, b), s.now) == Requests(c, s.history, t, b)
  }

  /** Of n requests the first limit are admitted. */
  function Capped(n: nat, limit: nat): nat { if n <= limit then n else limit }

  ghost predicate FirstCome(c: Config, h: seq<Request>)
    requires Valid(c)
  {
    forall t: string, b: nat :: Admitted(c, h, t, b) == Capped(Requests(c, h, t, b), c.limit)
  }

  ghost predicate Inv(c: Config, s: State) {
    Valid(c) && OutlivesWindow(c, s) && Accurate(c, s) && FirstCome(c, s.history)
  }

  lemma WaitKeepsInv(c: Config, s: State, ms: nat)
    requires Inv(c, s)
    ensures Inv(c, Next(c, s, Wait(ms)))
  {
    var u := Next(c, s, Wait(ms));
    forall t: string, b: nat | BucketOf(c, u.now) <= b
      ensures Count(u.store, BucketKey(t, b), u.now) == Requests(c, u.history, t, b)
    {
      BucketsGrow(c, s.now, u.now);
      BucketBounds(c, u.now, BucketOf(c, u.now));
      assert (BucketOf(c, u.now) + 1) * c.w <= (b + 1) * c.w;
      assert Count(s.store, BucketKey(t, b), s.now) == Requests(c, s.history, t, b);
    }
  }

  lemma ExpireKeepsInv(c: Config, s: State, key: string)
    requires Inv(c, s)
    ensures Inv(c, Next(c, s, ExpireSent(key)))
  {
    var u := Next(c, s, ExpireSent(key));
    if key in s.created && Live(s.store, key, s.now) {
      forall t: string, b: nat | BucketKey(t, b) in u.store && u.store[BucketKey(t, b)].expiry.Some?
        ensures EndOf(c, b) <= u.store[BucketKey(t, b)].expiry.value
      {
        if BucketKey(t, b) == key { assert (b + 1) * c.w == b * c.w + c.w; }
      }
      forall t: string, b: nat | BucketOf(c, u.now) <= b
        ensures Count(u.store, BucketKey(t, b), u.now) == Requests(c, u.history, t, b)
      {
        assert Count(s.store, BucketKey(t, b), s.now) == Requests(c, s.history, t, b);
      }
    }
  }

  lemma CheckKeepsOutlives(c: Config, s: State, tenant: string)
    requires Inv(c, s)
    ensures OutlivesWindow(c, Next(c, s, Check(tenant)))
  {
    var u := Next(c, s, Check(tenant));
    var n := BucketOf(c, s.now);
    var key := BucketKey(tenant, n);
    BucketBounds(c, s.now, n);
    forall t: string, b: nat | BucketKey(t, b) in u.created ensures 1000 * (b * c.w) <= u.now {
      if BucketKey(t, b) == key { KeysNeverCollide(t, b, tenant, n); }
    }
  }

  lemma CheckKeepsAccurate(c: Config, s: State, tenant: string)
    requires Valid(c) && Accurate(c, s)
    ensures Accurate(c, Next(c, s, Check(tenant)))
  {
    var u := Next(c, s, Check(tenant));
    var n := BucketOf(c, s.now);
    forall t: string, b: nat | n <= b
      ensures Count(u.store, BucketKey(t, b), u.now) == Requests(c, u.history, t, b)
    {
      Snoc(c, s.history, u.history[|s.history|], t, b);
      assert Count(s.store, BucketKey(t, b), s.now) == Requests(c, s.history, t, b);
      if BucketKey(t, b) == BucketKey(tenant, n) { KeysNeverCollide(t, b, tenant, n); }
    }
  }

  lemma FirstComeGrows(c: Config, h: seq<Request>, r: Request)
    requires Valid(c) && FirstCome(c, h)
    requires r.admitted <==> Requests(c, h, r.tenant, BucketOf(c, r.at)) + 1 <= c.limit
    ensures FirstCome(c, h + [r])
  {
    forall t: string, b: nat ensures Admitted(c, h + [r], t, b) == Capped(Requests(c, h + [r], t, b), c.limit) {
      Snoc(c, h, r, t, b);
    }
  }

  lemma CheckKeepsInv(c: Config, s: State, tenant: string)
    requires Inv(c, s)
    ensures Inv(c, Next(c, s, Check(tenant)))
  {
    CheckKeepsOutlives(c, s, tenant);
    CheckKeepsAccurate(c, s, tenant);
    assert Count(s.store, KeyAt(c, tenant, s.now), s.now) == Requests(c, s.history, tenant, BucketOf(c, s.now));
    FirstComeGrows(c, s.history, Next(c, s, Check(tenant)).history[|s.history|]);
  }

  lemma {:induction false} RunKeepsInv(c: Config, s: State, es: seq<Event>)
    requires Inv(c, s)
    ensures Inv(c, Run(c, s, es))
    decreases |es|
  {
    if es != [] {
      match es[0] {
        case Wait(ms) => WaitKeepsInv(c, s, ms);
        case Check(tenant) => CheckKeepsInv(c, s, tenant);
        case ExpireSent(key) => ExpireKeepsInv(c, s, key);
      }
      RunKeepsInv(c, Next(c, s, es[0]), es[1..]);
    }
  }

  /** One call of the limiter, undisturbed, is a request and, for the first of its window, an EXPIRE right after. */
  lemma CallIsRun(c: Config, s: State, tenant: string)
    requires Valid(c)
    ensures var key := KeyAt(c, tenant, s.now);
            var count := Count(s.store, key, s.now);
            var n := Run(c, s, if count == 0 then [Check(tenant), ExpireSent(key)] else [Check(tenant)]);
            && n.store == (if count == 0 then Expire(Incr(s.store, key, s.now), key, s.now, 1000 * c.w)
                           else Incr(s.store, key, s.now))
            && n.history == s.history + [Request(tenant, s.now, count + 1 <= c.limit)]
  {
    var key := KeyAt(c, tenant, s.now);
    var t := Next(c, s, Check(tenant));
    assert Run(c, s, [Check(tenant)]) == Run(c, t, []);
    assert [Check(tenant), ExpireSent(key)][1..] == [ExpireSent(key)];
    assert Run(c, s, [Check(tenant), ExpireSent(key)]) == Run(c, t, [ExpireSent(key)]);
    assert Run(c, t, [ExpireSent(key)]) == Run(c, Next(c, t, ExpireSent(key)), []);
  }

  // ---------------------------------------------------------------- the theorems

  /** Per tenant and aligned window: min(limit, requests) admissions, whatever happened before. */
  lemma WindowAdmitsFirst(c: Config, start: nat, es: seq<Event>, t: string, b: nat)
    requires Valid(c)
    ensures var h := Run(c, Init(start), es).history;
            Admitted(c, h, t, b) == Capped(Requests(c, h, t, b), c.limit)
  {
    RunKeepsInv(c, Init(start), es);
  }

  /** A key of the running window is never lost: its count is the number of requests so far. */
  lemma KeyLastsItsWindow(c: Config, start: nat, es: seq<Event>, t: string)
    requires Valid(c)
    ensures var s := Run(c, Init(start), es);
            Count(s.store, KeyAt(c, t, s.now), s.now) == Requests(c, s.history, t, BucketOf(c, s.now))
  {
    RunKeepsInv(c, Init(start), es);
  }

  lemma {:induction false} TwoBucketsCover(c: Config, h: seq<Request>, t: string, from: nat)
    requires Valid(c)
    ensures var b := BucketOf(c, from);
            AdmittedIn(h, t, from, from + 1000 * c.w) <= Admitted(c, h, t, b) + Admitted(c, h, t, b + 1)
  {
    if h != [] {
      var b := BucketOf(c, from);
      var r := h[|h| - 1];
      TwoBucketsCover(c, h[..|h| - 1], t, from);
      if from <= r.at < from + 1000 * c.w {
        BucketBounds(c, from, b);
        BucketBounds(c, r.at, b);
        BucketBounds(c, r.at, b + 1);
        assert (b + 2) * c.w == (b + 1) * c.w + c.w;
      }
    }
  }

  /** Any stretch of W seconds, aligned or not, sees at most twice the limit. */
  lemma AnyWindowAdmitsTwice(c: Config, start: nat, es: seq<Event>, t: string, from: nat)
    requires Valid(c)
    ensures AdmittedIn(Run(c, Init(start), es).history, t, from, from + 1000 * c.w) <= 2 * c.limit
  {
    RunKeepsInv(c, Init(start), es);
    var h := Run(c, Init(start), es).history;
    var b := BucketOf(c, from);
    TwoBucketsCover(c, h, t, from);
    assert Admitted(c, h, t, b) <= c.limit && Admitted(c, h, t, b + 1) <= c.limit;
  }

  // ---------------------------------------------------------------- what a decision says

  /** The answer to a request, from the count after its INCR. */
  function DecisionFor(c: Config, s: State, tenant: string): RateLimitDecision
    requires Valid(c)
  {
    EvaluateFixedWindow(Count(s.store, KeyAt(c, tenant, s.now), s.now) + 1, c.limit, c.w, s.now / 1000)
  }

  lemma {:induction false} HistoryGrows(c: Config, s: State, es: seq<Event>)
    requires Valid(c)
    ensures s.history <= Run(c, s, es).history
    decreases |es|
  {
    if es != [] { HistoryGrows(c, Next(c, s, es[0]), es[1..]); }
  }

  lemma {:induction false} RequestsGrow(c: Config, h: seq<Request>, longer: seq<Request>, t: string, b: nat)
    requires Valid(c) && h <= longer
    ensures Requests(c, h, t, b) <= Requests(c, longer, t, b)
    decreases |longer|
  {
    if h != longer { RequestsGrow(c, h, longer[..|longer| - 1], t, b); }
  }

  lemma {:induction false} RunSplits(c: Config, s: State, first: seq<Event>, more: seq<Event>)
    requires Valid(c)
    ensures Run(c, s, first + more) == Run(c, Run(c, s, first), more)
    decreases |first|
  {
    if first == [] {
      assert first + more == more;
    } else {
      assert (first + more)[1..] == first[1..] + more;
      RunSplits(c, Next(c, s, first[0]), first[1..], more);
    }
  }

  /** The reset time of a decision is the end of its window: from then on, and not before, another one runs. */
  lemma ResetIsEnd(c: Config, now: nat, count: int, at: nat)
    requires Valid(c) && now <= at
    ensures var resetAt := EvaluateFixedWindow(count, c.limit, c.w, now / 1000).resetAt;
            now < 1000 * resetAt && (at < 1000 * resetAt <==> BucketOf(c, at) == BucketOf(c, now))
  {
    var b := BucketOf(c, now);
    ResetIsNextStart(count, c.limit, c.w, now / 1000);
    BucketBounds(c, now, b);
    BucketBounds(c, at, b);
  }

  lemma CountTells(c: Config, count: int, now: nat)
    requires Valid(c)
    ensures var d := EvaluateFixedWindow(count, c.limit, c.w, now);
            && d.limit == c.limit && d.count == count && (d.allowed <==> count <= c.limit)
            && d.remaining == if count <= c.limit then c.limit - count else 0
  {
  }

  /**
   * In every run a decision counts the window's requests so far, tells how many of the limit are left after it, and
   * names the end of the window.
   */
  lemma DecisionTells(c: Config, start: nat, es: seq<Event>, t: string, at: nat)
    requires Valid(c) && Run(c, Init(start), es).now <= at
    ensures var s := Run(c, Init(start), es);
            var n, d, b := Next(c, s, Check(t)), DecisionFor(c, s, t), BucketOf(c, s.now);
            && d.limit == c.limit && d.count == Requests(c, n.history, t, b)
            && n.history == s.history + [Request(t, s.now, d.allowed)]
            && d.remaining + Admitted(c, n.history, t, b) == c.limit
            && s.now < 1000 * d.resetAt && (at < 1000 * d.resetAt <==> BucketOf(c, at) == b)
  {
    RunKeepsInv(c, Init(start), es);
    var s := Run(c, Init(start), es);
    CheckKeepsInv(c, s, t);
    var n, b, count := Next(c, s, Check(t)), BucketOf(c, s.now), Count(s.store, KeyAt(c, t, s.now), s.now) + 1;
    assert count == Requests(c, s.history, t, b) + 1;
    Snoc(c, s.history, n.history[|s.history|], t, b);
    assert Admitted(c, n.history, t, b) == Capped(Requests(c, n.history, t, b), c.limit);
    CountTells(c, count, s.now / 1000);
    ResetIsEnd(c, s.now, count, at);
  }

  /** As many more requests of the window as a decision says remain are admitted, and no others. */
  lemma RemainingAreLeft(c: Config, start: nat, es: seq<Event>, t: string, more: seq<Event>)
    requires Valid(c)
    ensures var s := Run(c, Init(start), es);
            var n, b := Next(c, s, Check(t)), BucketOf(c, s.now);
            var m := Run(c, n, more);
            && Requests(c, n.history, t, b) <= Requests(c, m.history, t, b)
            && Admitted(c, m.history, t, b) - Admitted(c, n.history, t, b)
               == Capped(Requests(c, m.history, t, b) - Requests(c, n.history, t, b), DecisionFor(c, s, t).remaining)
  {
    var s := Run(c, Init(start), es);
    var n, b := Next(c, s, Check(t)), BucketOf(c, s.now);
    DecisionTells(c, start, es, t, s.now);
    HistoryGrows(c, n, more);
    RequestsGrow(c, n.history, Run(c, n, more).history, t, b);
    RunSplits(c, Init(start), es, [Check(t)] + more);
    assert ([Check(t)] + more)[1..] == more;
    WindowAdmitsFirst(c, start, es + ([Check(t)] + more), t, b);
    RunSplits(c, Init(start), es, [Check(t)]);
    assert [Check(t)][1..] == [] && Run(c, s, [Check(t)]) == Run(c, n, []);
    WindowAdmitsFirst(c, start, es + [Check(t)], t, b);
  }

  // ---------------------------------------------------------------- keys go away

  ghost predicate Short(c: Config, s: State) {
    forall key | key in s.store && s.store[key].expiry.Some? :: s.store[key].expiry.value <= s.now + 1000 * c.w
  }

  lemma {:induction false} RunKeepsShort(c: Config, s: State, es: seq<Event>)
    requires Valid(c) && Short(c, s)
    ensures Short(c, Run(c, s, es))
    decreases |es|
  {
    if es != [] { RunKeepsShort(c, Next(c, s, es[0]), es[1..]); }
  }

  /** A key with an expiry is gone one window length after its last EXPIRE at the latest. */
  lemma KeysExpire(c: Config, start: nat, es: seq<Event>, key: string)
    requires Valid(c) && key in Run(c, Init(start), es).store
    ensures var s := Run(c, Init(start), es);
            s.store[key].expiry.Some? ==> !Live(s.store, key, s.now + 1000 * c.w)
  {
    RunKeepsShort(c, Init(start), es);
  }
}
