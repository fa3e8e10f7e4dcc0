/**
 The per-tenant fixed-window limiter: a Redis counter per tenant and window. The clock is
 in milliseconds, windows are whole seconds, and reading the clock and incrementing are one
 step. EXPIRE is a separate command that may come late, twice, or (after a crash) never.
 */
module RateLimit {
  import opened Domain
  import opened Text

  // ---------------------------------------------------------------- tenants and keys

  const DEFAULT_TENANT_ID := "default"

  predicate AlphaNumeric(c: char) { 'a' <= c <= 'z' || 'A' <= c <= 'Z' || '0' <= c <= '9' }

  /** ^[a-zA-Z0-9][a-zA-Z0-9._-]{0,63}$ */
  predicate ValidTenant(s: string) {
    && 1 <= |s| <= 64 && AlphaNumeric(s[0])
    && forall i | 0 <= i < |s| :: AlphaNumeric(s[i]) || s[i] in "._-"
  }

  /** One letter or digit, then up to 63 letters, digits, dots, underscores and hyphens. */
  predicate IsTenant(s: string, first: char, rest: string) {
    && s == [first] + rest && |rest| <= 63
    && ('a' <= first <= 'z' || 'A' <= first <= 'Z' || '0' <= first <= '9')
    && forall c | c in rest ::
         'a' <= c <= 'z' || 'A' <= c <= 'Z' || '0' <= c <= '9' || c == '.' || c == '_' || c == '-'
  }

  lemma ValidTenantIff(s: string)
    ensures ValidTenant(s) <==> exists first: char, rest: string :: IsTenant(s, first, rest)
  {
    if ValidTenant(s) {
      forall c | c in s[1..] ensures AlphaNumeric(c) || c == '.' || c == '_' || c == '-' {
        var i :| 0 <= i < |s[1..]| && s[1..][i] == c;
        assert s[i + 1] == c;
      }
      assert IsTenant(s, s[0], s[1..]);
    }
    forall first: char, rest: string | IsTenant(s, first, rest) ensures ValidTenant(s) {
      forall i | 0 <= i < |s| ensures AlphaNumeric(s[i]) || s[i] in "._-" {
        if i > 0 { assert s[i] == rest[i - 1] && rest[i - 1] in rest; }
      }
    }
  }

  function NormalizeTenantId(raw: Option<string>, fallback: string): string {
    match raw
    case None => fallback
    case Some(r) => if ValidTenant(Strip(r)) then Strip(r) else fallback
  }

  lemma ValidIsTrimmed(s: string)
    requires ValidTenant(s)
    ensures Strip(s) == s
  {
    assert !IsSpace(s[0]);
    assert AlphaNumeric(s[|s| - 1]) || s[|s| - 1] in "._-";
    assert TextStart(s) == 0 && TextEnd(s, |s|) == |s|;
  }

  /**
   * Whatever default is configured: the result is valid exactly when the stripped header or the default is, and
   * normalising it again changes it exactly when it is a default with spaces around a valid id.
   */
  lemma NormalizeIsIdempotentIff(raw: Option<string>, fallback: string)
    ensures var t := NormalizeTenantId(raw, fallback);
            var fromHeader := raw.Some? && ValidTenant(Strip(raw.value));
            && (t == if fromHeader then Strip(raw.value) else fallback)
            && (ValidTenant(t) <==> fromHeader || ValidTenant(fallback))
            && (NormalizeTenantId(Some(t), fallback) == t <==>
                  fromHeader || !ValidTenant(Strip(fallback)) || Strip(fallback) == fallback)
  {
    if raw.Some? && ValidTenant(Strip(raw.value)) { ValidIsTrimmed(Strip(raw.value)); }
  }

  /** In particular normalising is idempotent under a valid default such as "default". */
  lemma NormalizeIsIdempotent(raw: Option<string>)
    ensures var t := NormalizeTenantId(raw, DEFAULT_TENANT_ID);
            ValidTenant(t) && NormalizeTenantId(Some(t), DEFAULT_TENANT_ID) == t
  {
    ValidIsTrimmed(DEFAULT_TENANT_ID);
    NormalizeIsIdempotentIff(raw, DEFAULT_TENANT_ID);
  }

  function Digit(d: nat): char
    requires d < 10
  {
    (d as char) + '0'
  }

  function Decimal(n: nat): (s: string)
    ensures |s| >= 1 && forall i | 0 <= i < |s| :: '0' <= s[i] <= '9'
  {
    if n < 10 then [Digit(n)] else Decimal(n / 10) + [Digit(n % 10)]
  }

  lemma {:induction false} DecimalIsInjective(m: nat, n: nat)
    requires Decimal(m) == Decimal(n)
    ensures m == n
  {
    assert Decimal(m)[|Decimal(m)| - 1] == Digit(m % 10);
    assert Decimal(n)[|Decimal(n)| - 1] == Digit(n % 10);
    if m >= 10 && n >= 10 {
      assert Decimal(m)[..|Decimal(m)| - 1] == Decimal(m / 10);
      assert Decimal(n)[..|Decimal(n)| - 1] == Decimal(n / 10);
      DecimalIsInjective(m / 10, n / 10);
    }
  }

  const KEY_PREFIX := "ratelimit:tenant:"

  function BucketKey(tenant: string, bucket: nat): string {
    KEY_PREFIX + tenant + ":" + Decimal(bucket)
  }

  /** No two (tenant, bucket) pairs share a key, not even for unsanitised tenant names. */
  lemma KeysNeverCollide(t: string, b: nat, t': string, b': nat)
    requires BucketKey(t, b) == BucketKey(t', b')
    ensures t == t' && b == b'
  {
    if |t| < |t'| { ColonPosition(t, b, t', b'); }
    if |t'| < |t| { ColonPosition(t', b', t, b); }
    var k, n := BucketKey(t, b), |KEY_PREFIX|;
    assert k[n..n + |t|] == t && BucketKey(t', b')[n..n + |t|] == t';
    assert k[n + |t| + 1..] == Decimal(b) && BucketKey(t', b')[n + |t| + 1..] == Decimal(b');
    DecimalIsInjective(b, b');
  }

  lemma DigitsAfterColon(t: string, b: nat)
    ensures forall i | |KEY_PREFIX| + |t| < i < |BucketKey(t, b)| :: BucketKey(t, b)[i] != ':'
  {
    forall i | |KEY_PREFIX| + |t| < i < |BucketKey(t, b)| ensures BucketKey(t, b)[i] != ':' {
      assert BucketKey(t, b)[i] == Decimal(b)[i - |KEY_PREFIX| - |t| - 1];
    }
  }

  lemma ColonPosition(t: string, b: nat, t': string, b': nat)
    requires BucketKey(t, b) == BucketKey(t', b')
    ensures |t| >= |t'|
  {
    DigitsAfterColon(t, b);
    assert BucketKey(t', b')[|KEY_PREFIX| + |t'|] == ':';
  }

  // ---------------------------------------------------------------- one decision

  datatype RateLimitDecision = RateLimitDecision(
    allowed: bool, limit: int, remaining: int, retryAfter: int, resetAt: int, count: int)

  function AtLeastOne(w: int): nat { if w < 1 then 1 else w }

  /** The window a second falls into. */
  function Bucket(second: nat, w: nat): nat
    requires w >= 1
  {
    second / w
  }

  function EvaluateFixedWindow(count: int, limit: int, windowSeconds: int, now: nat): RateLimitDecision {
    if limit <= 0 then RateLimitDecision(true, 0, 0, 0, 0, count)
    else
      var window := AtLeastOne(windowSeconds);
      var resetAt := (now / window + 1) * window;
      var retryAfter := AtLeastOne(resetAt - now);
      var allowed := count <= limit;
      RateLimitDecision(allowed, limit, if allowed then limit - count else 0,
                        if allowed then 0 else retryAfter, resetAt, count)
  }

  lemma DivIs(q: nat, w: nat, r: nat)
    requires w >= 1 && r < w
    ensures Bucket(q * w + r, w) == q
  {
    var n := q * w + r;
    var k := n / w;
    assert n == k * w + n % w;
    assert k < q ==> (k + 1) * w <= q * w;
    assert k > q ==> (q + 1) * w <= k * w;
  }

  /** Seconds q*w up to (q+1)*w, and only those, lie in bucket q. */
  lemma BucketIs(second: nat, w: nat, q: nat)
    requires w >= 1
    ensures Bucket(second, w) == q <==> q * w <= second < (q + 1) * w
  {
    if q * w <= second < (q + 1) * w {
      DivIs(q, w, second - q * w);
    }
    assert second / w == q ==> second == q * w + second % w;
  }

  lemma NextStart(now: nat, w: nat)
    requires w >= 1
    ensures now < (now / w + 1) * w <= now + w && Bucket((now / w + 1) * w, w) == Bucket(now, w) + 1
  {
    var q := now / w;
    BucketIs(now, w, q);
    DivIs(q + 1, w, 0);
    assert (q + 1) * w == q * w + w;
  }

  /** Every decision names the start of the next window. */
  lemma ResetIsNextStart(count: int, limit: int, windowSeconds: int, now: nat)
    requires limit > 0
    ensures var w := AtLeastOne(windowSeconds);
            EvaluateFixedWindow(count, limit, windowSeconds, now).resetAt == (Bucket(now, w) + 1) * w
  {
  }

  /** A refused caller is told to wait 1 to W seconds; waiting that long lands on the next window, less does not. */
  lemma RetryLandsInNextBucket(count: int, limit: int, windowSeconds: int, now: nat)
    requires !EvaluateFixedWindow(count, limit, windowSeconds, now).allowed
    ensures var w := AtLeastOne(windowSeconds);
            var wait := EvaluateFixedWindow(count, limit, windowSeconds, now).retryAfter;
            && 1 <= wait <= w
            && Bucket(now + wait, w) == Bucket(now, w) + 1
            && forall t: nat | now <= t < now + wait :: Bucket(t, w) == Bucket(now, w)
  {
    var w := AtLeastOne(windowSeconds);
    NextStart(now, w);
    BucketIs(now, w, Bucket(now, w));
    forall t: nat | now <= t < (Bucket(now, w) + 1) * w ensures Bucket(t, w) == Bucket(now, w) {
      BucketIs(t, w, Bucket(now, w));
    }
  }

  // ---------------------------------------------------------------- the counter store

  /** A Redis counter; a key without expiry lives for ever. */
  datatype Counter = Counter(count: nat, expiry: Option<nat>)

  type Store = map<string, Counter>

  predicate Live(store: Store, key: string, now: nat) {
    key in store && (store[key].expiry.None? || now < store[key].expiry.value)
  }

  function Count(store: Store, key: string, now: nat): nat { if Live(store, key, now) then store[key].count else 0 }

  /** INCR: a dead key restarts at one, without expiry. */
  function Incr(store: Store, key: string, now: nat): Store {
    if Live(store, key, now) then store[key := store[key].(count := store[key].count + 1)]
    else store[key := Counter(1, None)]
  }

  /** EXPIRE on a dead key does nothing. */
  function Expire(store: Store, key: string, now: nat, windowMs: nat): Store {
    if Live(store, key, now) then store[key := store[key].(expiry := Some(now + windowMs))] else store
  }

  class RateLimiter {
    var store: Store

    constructor ()
      ensures store == map[]
    {
      store := map[];
    }

    /** check_tenant_rate_limit at a given time, both commands in a row. */
    method CheckTenantRateLimit(tenant: string, limit: int, windowSeconds: int, nowMs: nat)
      returns (d: RateLimitDecision)
      modifies this
      ensures limit <= 0 ==> store == old(store) && d == RateLimitDecision(true, 0, 0, 0, 0, 0)
      ensures limit > 0 ==>
                var w := AtLeastOne(windowSeconds);
                var key := BucketKey(tenant, Bucket(nowMs / 1000, w));
                var incremented := Incr(old(store), key, nowMs);
                && store == (if Count(old(store), key, nowMs) == 0
                             then Expire(incremented, key, nowMs, 1000 * w) else incremented)
                && d == EvaluateFixedWindow(Count(old(store), key, nowMs) + 1, limit, windowSeconds, nowMs / 1000)
    {
      if limit <= 0 {
        d := EvaluateFixedWindow(0, 0, windowSeconds, nowMs / 1000);
        return;
      }
      var now := nowMs / 1000;
      var w := AtLeastOne(windowSeconds);
      var key := BucketKey(tenant, Bucket(now, w));
      store := Incr(store, key, nowMs);
      var count := store[key].count;
      if count == 1 {
        store := Expire(store, key, nowMs, 1000 * w);
      }
      d := EvaluateFixedWindow(count, limit, windowSeconds, now);
    }
  }
}
