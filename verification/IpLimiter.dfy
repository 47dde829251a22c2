/** The per-client token bucket. Time is whole nanoseconds, tokens are exact reals. */
module IpLimiter {

  const MINUTE := 60_000_000_000

  /** Settings after the constructor has corrected them. */
  datatype Settings = Settings(rate: int, burst: int, window: int)

  predicate Valid(c: Settings) { c.rate >= 1 && c.burst >= 1 && c.window >= 1 }

  function Corrected(rate: int, burst: int, window: int): (c: Settings)
    ensures Valid(c)
    ensures (rate >= 1 ==> c.rate == rate) && (burst >= 1 ==> c.burst == burst) && (window >= 1 ==> c.window == window)
    ensures (rate < 1 ==> c.rate == 1) && (burst < 1 ==> c.burst == 1) && (window < 1 ==> c.window == 60 * 1_000_000_000)
  {
    Settings(if rate < 1 then 1 else rate, if burst < 1 then 1 else burst, if window <= 0 then MINUTE else window)
  }

  /** Tokens gained per nanosecond. */
  function PerNs(c: Settings): (p: real)
    requires Valid(c)
    ensures p > 0.0
  {
    c.rate as real / c.window as real
  }

  /** Idle time after which cleanup forgets a bucket: the time to fill it, in whole nanoseconds,
      but at least a minute. */
  function FullAfter(c: Settings): (f: int)
    requires Valid(c)
    ensures f >= MINUTE
  {
    var f := c.burst * c.window / c.rate;
    if f < MINUTE then MINUTE else f
  }

  datatype Visitor = Visitor(tokens: real, lastSeen: int)
  type Visitors = map<string, Visitor>

  function Min(a: real, b: real): real { if a < b then a else b }

  function Gained(c: Settings, ns: int): real
    requires Valid(c)
  {
    if ns > 0 then ns as real * PerNs(c) else 0.0
  }

  /** The tokens a key could spend at `now`; an unknown key has a full bucket. */
  function Credit(c: Settings, m: Visitors, key: string, now: int): real
    requires Valid(c)
  {
    if key !in m then c.burst as real
    else if now - m[key].lastSeen > 0 then Min(c.burst as real, m[key].tokens + Gained(c, now - m[key].lastSeen))
    else m[key].tokens
  }

  predicate Allowed(c: Settings, m: Visitors, key: string, now: int)
    requires Valid(c)
  {
    Credit(c, m, key, now) >= 1.0
  }

  function Spend(c: Settings, m: Visitors, key: string, now: int): Visitors
    requires Valid(c)
  {
    var t := Credit(c, m, key, now);
    m[key := Visitor(if t < 1.0 then t else t - 1.0, now)]
  }

  function Forget(c: Settings, m: Visitors, now: int): Visitors
    requires Valid(c)
  {
    map k | k in m && now - m[k].lastSeen < FullAfter(c) :: m[k]
  }

  // ---- traces ---------------------------------------------------------------------

  datatype Event = Call(key: string, at: int) | Clean(at: int)

  predicate Ordered(es: seq<Event>, from: int) {
    (es != [] ==> es[0].at >= from) && forall i, j :: 0 <= i < j < |es| ==> es[i].at <= es[j].at
  }

  /** One event; `forgets` says whether cleanup really deletes. */
  function Next(c: Settings, forgets: bool, m: Visitors, e: Event): Visitors
    requires Valid(c)
  {
    match e
    case Call(key, at) => Spend(c, m, key, at)
    case Clean(at) => if forgets then Forget(c, m, at) else m
  }

  /** The answers to the calls of a trace. */
  function Answers(c: Settings, forgets: bool, m: Visitors, es: seq<Event>): seq<bool>
    requires Valid(c)
    decreases |es|
  {
    if es == [] then []
    else
      (if es[0].Call? then [Allowed(c, m, es[0].key, es[0].at)] else [])
      + Answers(c, forgets, Next(c, forgets, m, es[0]), es[1..])
  }

  /** Calls of `key` allowed within [lo, hi]. */
  function Count(c: Settings, forgets: bool, m: Visitors, es: seq<Event>, key: string, lo: int, hi: int): nat
    requires Valid(c)
    decreases |es|
  {
    if es == [] then 0
    else
      var e := es[0];
      (if e.Call? && e.key == key && lo <= e.at <= hi && Allowed(c, m, key, e.at) then 1 else 0)
      + Count(c, forgets, Next(c, forgets, m, e), es[1..], key, lo, hi)
  }

  // ---- buckets stay between empty and full ------------------------------------------

  ghost predicate Sane(c: Settings, m: Visitors, now: int) {
    forall k <- m :: 0.0 <= m[k].tokens <= c.burst as real && m[k].lastSeen <= now
  }

  lemma GainedAdds(c: Settings, a: int, b: int)
    requires Valid(c) && a >= 0 && b >= 0
    ensures Gained(c, a) == a as real * PerNs(c) >= 0.0
    ensures Gained(c, a + b) == Gained(c, a) + Gained(c, b)
  {
    var p, x, y := PerNs(c), a as real, b as real;
    assert (a + b) as real == x + y;
    assert (x + y) * p == x * p + y * p;
    assert x * p >= 0.0 && y * p >= 0.0;
  }

  /** Waiting never costs, and gains at most the refill. */
  lemma CreditGrows(c: Settings, m: Visitors, key: string, t: int, t': int)
    requires Valid(c) && Sane(c, m, t) && t <= t'
    ensures 0.0 <= Credit(c, m, key, t) <= Credit(c, m, key, t') <= c.burst as real
    ensures Credit(c, m, key, t') <= Credit(c, m, key, t) + Gained(c, t' - t)
  {
    hide PerNs;
    GainedAdds(c, t' - t, 0);
    if key in m {
      GainedAdds(c, t - m[key].lastSeen, t' - t);
    }
  }

  lemma SaneNext(c: Settings, forgets: bool, m: Visitors, e: Event, now: int)
    requires Valid(c) && Sane(c, m, now) && now <= e.at
    ensures Sane(c, Next(c, forgets, m, e), e.at)
  {
    hide PerNs, Gained;
    if e.Call? {
      CreditGrows(c, m, e.key, now, e.at);
    }
  }

  // ---- does being forgotten refill a bucket? -----------------------------------------------

  /** Being idle long enough to be forgotten really refills the bucket. */
  predicate Exact(c: Settings)
    requires Valid(c)
  {
    c.burst * c.window <= FullAfter(c) * c.rate
  }

  /** In terms of the settings: filling the bucket takes at most a minute, or a whole number of
      nanoseconds. */
  lemma ExactSettings(c: Settings)
    requires Valid(c)
    ensures Exact(c) <==> c.burst * c.window <= 60_000_000_000 * c.rate || (c.burst * c.window) % c.rate == 0
  {
    QuotientBounds(c.burst * c.window, c.rate);
  }

  lemma QuotientBounds(n: int, r: int)
    requires n >= 0 && r >= 1
    ensures var q := n / r;
      && (q < MINUTE ==> n <= MINUTE * r)
      && (q >= MINUTE && n <= MINUTE * r ==> n % r == 0)
      && (n <= q * r <==> n % r == 0)
  {
    var q, m := n / r, n % r;
    DivMod(n, r);
    if q < MINUTE {
      MulMonotone(q + 1, MINUTE, r);
    } else {
      MulMonotone(MINUTE, q, r);
    }
  }

  lemma DivMod(n: int, r: int)
    requires r >= 1
    ensures n == (n / r) * r + n % r && 0 <= n % r < r
  {
  }

  lemma MulMonotone(a: int, b: int, r: int)
    requires a <= b && r >= 0
    ensures a * r <= b * r
  {
  }

  lemma CastProduct(a: int, b: int)
    ensures (a * b) as real == a as real * b as real
  {
  }

  lemma RatioReaches(n: real, r: real, w: real, b: real)
    requires w > 0.0
    ensures n * (r / w) >= b <==> n * r >= b * w
  {
    var q := r / w;
    assert q * w == r;
    Scaled(n, q, w);
    Scaled(n * q - b, 1.0, w);
    assert (n * q - b) * w == n * q * w - b * w;
    SignTimes(n * q - b, w);
  }

  lemma Scaled(n: real, q: real, w: real)
    ensures (n * q) * w == n * (q * w)
  {
  }

  lemma SignTimes(x: real, w: real)
    requires w > 0.0
    ensures x * w >= 0.0 <==> x >= 0.0
  {
  }

  /** Whether `ns` nanoseconds fill a bucket, in whole numbers. */
  lemma Fills(c: Settings, ns: int)
    requires Valid(c)
    ensures ns as real * PerNs(c) >= c.burst as real <==> ns * c.rate >= c.burst * c.window
  {
    CastProduct(ns, c.rate);
    CastProduct(c.burst, c.window);
    RatioReaches(ns as real, c.rate as real, c.window as real, c.burst as real);
  }

  lemma ExactRefills(c: Settings, ns: int)
    requires Valid(c) && Exact(c) && ns >= FullAfter(c)
    ensures Gained(c, ns) >= c.burst as real
  {
    hide PerNs, FullAfter;
    MulMonotone(FullAfter(c), ns, c.rate);
    Fills(c, ns);
  }

  lemma InexactFallsShort(c: Settings)
    requires Valid(c) && !Exact(c)
    ensures FullAfter(c) as real * PerNs(c) < c.burst as real
  {
    hide PerNs, FullAfter;
    Fills(c, FullAfter(c));
  }

  /** The cut loses less than one nanosecond's refill. */
  lemma ShortByLess(c: Settings)
    requires Valid(c)
    ensures FullAfter(c) as real * PerNs(c) + PerNs(c) >= c.burst as real
  {
    hide PerNs;
    var f := FullAfter(c);
    DivMod(c.burst * c.window, c.rate);
    MulMonotone(c.burst * c.window / c.rate + 1, f + 1, c.rate);
    Fills(c, f + 1);
    GainedAdds(c, f, 1);
  }

  // ---- the rate bound -----------------------------------------------------------------

  lemma OrderedTail(es: seq<Event>, from: int)
    requires es != [] && Ordered(es, from)
    ensures es[0].at >= from && Ordered(es[1..], es[0].at)
  {
    assert forall i :: 0 <= i < |es[1..]| ==> es[1..][i] == es[i + 1];
  }

  lemma OrderedWeaken(es: seq<Event>, from: int, from': int)
    requires Ordered(es, from) && from' <= from
    ensures Ordered(es, from')
  {
    assert es != [] ==> es[0].at >= from;
  }

  lemma LateOrdered(es: seq<Event>, from: int, hi: int)
    requires es != [] && Ordered(es, from) && es[0].at > hi
    ensures Ordered(es, hi + 1)
  {
  }

  /** What one cleanup can give a key for nothing: less than a nanosecond's refill, and nothing at
      all when the settings are exact or cleanup does not delete. */
  function Slack(c: Settings, forgets: bool): (d: real)
    requires Valid(c)
    ensures d >= 0.0
  {
    if forgets && !Exact(c) then PerNs(c) else 0.0
  }

  /** Cleanups within [lo, hi]. */
  function Cleans(es: seq<Event>, lo: int, hi: int): nat {
    if es == [] then 0 else (if es[0].Clean? && lo <= es[0].at <= hi then 1 else 0) + Cleans(es[1..], lo, hi)
  }

  lemma ForgetCredit(c: Settings, m: Visitors, at: int, key: string)
    requires Valid(c) && Sane(c, m, at)
    ensures Credit(c, m, key, at) <= Credit(c, Forget(c, m, at), key, at) <= Credit(c, m, key, at) + Slack(c, true)
  {
    hide PerNs, FullAfter, Exact;
    CreditGrows(c, m, key, at, at);
    if key in m && at - m[key].lastSeen >= FullAfter(c) {
      var idle := at - m[key].lastSeen;
      GainedAdds(c, FullAfter(c), idle - FullAfter(c));
      GainedAdds(c, idle - FullAfter(c), 0);
      ShortByLess(c);
      if Exact(c) {
        ExactRefills(c, idle);
      }
    }
  }

  /** An allowed call costs one token; a cleanup gives at most the slack. */
  lemma CreditAfter(c: Settings, forgets: bool, m: Visitors, e: Event, key: string)
    requires Valid(c) && Sane(c, m, e.at)
    ensures var before, after := Credit(c, m, key, e.at), Credit(c, Next(c, forgets, m, e), key, e.at);
      if e.Call? then after == before - (if e.key == key && Allowed(c, m, key, e.at) then 1.0 else 0.0)
      else before <= after <= before + Slack(c, forgets)
  {
    hide PerNs, Slack;
    CreditGrows(c, m, key, e.at, e.at);
    if e.Clean? && forgets {
      ForgetCredit(c, m, e.at, key);
    }
  }

  /** What n cleanups can give. */
  function Given(c: Settings, forgets: bool, n: nat): real
    requires Valid(c)
  {
    n as real * Slack(c, forgets)
  }

  lemma GivenAdds(c: Settings, forgets: bool, n: nat)
    requires Valid(c)
    ensures Given(c, forgets, n) >= 0.0
    ensures Given(c, forgets, n + 1) == Given(c, forgets, n) + Slack(c, forgets)
  {
    hide Slack;
    var d, x := Slack(c, forgets), n as real;
    assert (n + 1) as real == x + 1.0;
    assert (x + 1.0) * d == x * d + d;
    assert x * d >= 0.0;
  }

  /** From time t on, the bucket pays for every call out of what it holds, what it gains and what
      cleanups give it. */
  lemma {:induction false} CountFrom(c: Settings, forgets: bool, m: Visitors, es: seq<Event>, key: string, lo: int, hi: int, t: int)
    requires Valid(c) && Sane(c, m, t) && Ordered(es, t) && lo <= t <= hi
    ensures Count(c, forgets, m, es, key, lo, hi) as real
         <= Credit(c, m, key, t) + Gained(c, hi - t) + Given(c, forgets, Cleans(es, lo, hi))
    decreases |es|
  {
    hide PerNs, Gained, Credit, Next, Sane, Ordered, Slack, Given;
    GainedAdds(c, hi - t, 0);
    CreditGrows(c, m, key, t, t);
    GivenAdds(c, forgets, Cleans(es, lo, hi));
    if es != [] {
      OrderedTail(es, t);
      if es[0].at > hi {
        LateOrdered(es, t, hi);
        CountLate(c, forgets, m, es, key, lo, hi);
      } else {
        CountStep(c, forgets, m, es, key, lo, hi, t);
      }
    }
  }

  lemma {:induction false} CountStep(c: Settings, forgets: bool, m: Visitors, es: seq<Event>, key: string, lo: int, hi: int, t: int)
    requires Valid(c) && Sane(c, m, t) && Ordered(es, t) && lo <= t <= hi && es != [] && t <= es[0].at <= hi
    ensures Count(c, forgets, m, es, key, lo, hi) as real
         <= Credit(c, m, key, t) + Gained(c, hi - t) + Given(c, forgets, Cleans(es, lo, hi))
    decreases |es|, 0
  {
    hide PerNs, Gained, Credit, Next, Sane, Ordered, Slack, Given;
    var e, rest := es[0], es[1..];
    var m' := Next(c, forgets, m, e);
    OrderedTail(es, t);
    SaneNext(c, forgets, m, e, t);
    CountFrom(c, forgets, m', rest, key, lo, hi, e.at);
    CreditGrows(c, m, key, t, e.at);
    GainedAdds(c, e.at - t, hi - e.at);
    SaneLater(c, m, t, e.at);
    CreditAfter(c, forgets, m, e, key);
    GivenAdds(c, forgets, Cleans(rest, lo, hi));
  }

  lemma {:induction false} CountLate(c: Settings, forgets: bool, m: Visitors, es: seq<Event>, key: string, lo: int, hi: int)
    requires Valid(c) && Ordered(es, hi + 1)
    ensures Count(c, forgets, m, es, key, lo, hi) == 0
    decreases |es|
  {
    hide Credit;
    if es != [] {
      OrderedTail(es, hi + 1);
      OrderedWeaken(es[1..], es[0].at, hi + 1);
      CountLate(c, forgets, Next(c, forgets, m, es[0]), es[1..], key, lo, hi);
    }
  }

  lemma {:induction false} CountBound(c: Settings, forgets: bool, m: Visitors, es: seq<Event>, key: string, lo: int, hi: int, t: int)
    requires Valid(c) && Sane(c, m, t) && Ordered(es, t) && lo <= hi
    ensures Count(c, forgets, m, es, key, lo, hi) as real
         <= c.burst as real + Gained(c, hi - lo) + Given(c, forgets, Cleans(es, lo, hi))
    decreases |es|
  {
    hide PerNs, Gained, Credit, Allowed, Next, Sane, Ordered, Slack, Given;
    GainedAdds(c, hi - lo, 0);
    GivenAdds(c, forgets, Cleans(es, lo, hi));
    if es != [] {
      var e := es[0];
      OrderedTail(es, t);
      if e.at < lo {
        SaneNext(c, forgets, m, e, t);
        CountBound(c, forgets, Next(c, forgets, m, e), es[1..], key, lo, hi, e.at);
      } else if e.at > hi {
        LateOrdered(es, t, hi);
        CountLate(c, forgets, m, es, key, lo, hi);
      } else {
        SaneLater(c, m, t, e.at);
        LateOrdered(es, t, e.at - 1);
        CountFrom(c, forgets, m, es, key, lo, hi, e.at);
        CreditGrows(c, m, key, e.at, e.at);
        GainedAdds(c, e.at - lo, hi - e.at);
      }
    }
  }

  /** For every trace with a non-decreasing clock, every interval and all settings: one key's
      allowed calls number at most burst + rate * length, plus the slack for each cleanup in the
      interval. Nothing is added for exact settings. */
  lemma RateBound(c: Settings, forgets: bool, m: Visitors, es: seq<Event>, key: string, lo: int, hi: int, t: int)
    requires Valid(c) && Sane(c, m, t) && Ordered(es, t) && lo <= hi
    ensures Count(c, forgets, m, es, key, lo, hi) as real
         <= c.burst as real + (hi - lo) as real * PerNs(c) + Cleans(es, lo, hi) as real * Slack(c, forgets)
  {
    hide PerNs, Count, Cleans, Sane, Ordered, Slack;
    CountBound(c, forgets, m, es, key, lo, hi, t);
  }

  lemma SaneLater(c: Settings, m: Visitors, t: int, t': int)
    requires Sane(c, m, t) && t <= t'
    ensures Sane(c, m, t')
  {
  }

  // ---- waiting -----------------------------------------------------------------------------

  /** The wait reported to a refused client: the time to the next token, cut to whole nanoseconds. */
  function Wait(c: Settings, tokens: real): int
    requires Valid(c)
  {
    ((1.0 - tokens) / PerNs(c)).Floor
  }

  /** A refused client that comes back after w nanoseconds, with no call of its own in between, is
      allowed if and only if the refill then makes a whole token. Less than the reported wait is
      never enough and more always is; exactly the reported wait is enough only when it was a whole
      number of nanoseconds. */
  lemma RetryExact(c: Settings, m: Visitors, key: string, now: int, w: nat)
    requires Valid(c) && Sane(c, m, now) && !Allowed(c, m, key, now)
    ensures var tokens := Credit(c, m, key, now);
      var wait := Wait(c, tokens);
      && (Allowed(c, Spend(c, m, key, now), key, now + w) <==> w as real * PerNs(c) >= 1.0 - tokens)
      && (w > wait ==> Allowed(c, Spend(c, m, key, now), key, now + w))
      && (w < wait ==> !Allowed(c, Spend(c, m, key, now), key, now + w))
      && (w == wait ==> (Allowed(c, Spend(c, m, key, now), key, now + w) <==> wait as real == (1.0 - tokens) / PerNs(c)))
  {
    hide PerNs;
    var tokens, p := Credit(c, m, key, now), PerNs(c);
    CreditGrows(c, m, key, now, now);
    Quotient(w as real, 1.0 - tokens, p);
    AllowedLater(c, m, key, now, w);
  }

  lemma Quotient(x: real, d: real, p: real)
    requires p > 0.0
    ensures x * p >= d <==> x >= d / p
  {
    var q := d / p;
    assert q * p == d;
    assert (x - q) * p == x * p - d;
    if x >= q {
      assert (x - q) * p >= 0.0;
    } else {
      assert (q - x) * p > 0.0;
    }
  }

  lemma AllowedLater(c: Settings, m: Visitors, key: string, now: int, w: nat)
    requires Valid(c) && Sane(c, m, now) && !Allowed(c, m, key, now)
    ensures Allowed(c, Spend(c, m, key, now), key, now + w) <==> w as real * PerNs(c) >= 1.0 - Credit(c, m, key, now)
  {
    hide PerNs;
    var t := Credit(c, m, key, now);
    assert Spend(c, m, key, now)[key] == Visitor(t, now);
    GainedAdds(c, w, 0);
  }

  // ---- is cleanup lossless? -------------------------------------------------------------------

  /** The forgetful limiter against the one that keeps everything: the same buckets, except that
      the missing ones have long been idle. */
  ghost predicate Agrees(c: Settings, m: Visitors, all: Visitors, now: int)
    requires Valid(c)
  {
    && (forall k <- m :: k in all && all[k] == m[k])
    && (forall k <- all :: k !in m ==> now - all[k].lastSeen >= FullAfter(c))
  }

  lemma SameCredit(c: Settings, m: Visitors, all: Visitors, key: string, now: int)
    requires Valid(c) && Exact(c) && Sane(c, all, now) && Agrees(c, m, all, now)
    ensures Credit(c, m, key, now) == Credit(c, all, key, now)
  {
    hide PerNs;
    if key in all && key !in m {
      ExactRefills(c, now - all[key].lastSeen);
    }
  }

  lemma AgreesNext(c: Settings, m: Visitors, all: Visitors, e: Event, now: int)
    requires Valid(c) && Exact(c) && Sane(c, all, now) && Agrees(c, m, all, now) && now <= e.at
    ensures Agrees(c, Next(c, true, m, e), Next(c, false, all, e), e.at)
    ensures e.Call? ==> Allowed(c, m, e.key, e.at) == Allowed(c, all, e.key, e.at)
  {
    hide PerNs, Gained, Credit;
    if e.Call? {
      SaneLater(c, all, now, e.at);
      SameCredit(c, m, all, e.key, e.at);
    }
  }

  lemma {:induction false} SameAnswers(c: Settings, m: Visitors, all: Visitors, es: seq<Event>, now: int)
    requires Valid(c) && Exact(c) && Sane(c, all, now) && Agrees(c, m, all, now) && Ordered(es, now)
    ensures Answers(c, true, m, es) == Answers(c, false, all, es)
    decreases |es|
  {
    hide Credit, Agrees;
    if es != [] {
      OrderedTail(es, now);
      AgreesNext(c, m, all, es[0], now);
      SaneNext(c, false, all, es[0], now);
      SameAnswers(c, Next(c, true, m, es[0]), Next(c, false, all, es[0]), es[1..], es[0].at);
    }
  }

  function Burst(key: string, at: int, n: nat): seq<Event> { seq(n, _ => Call(key, at)) }

  function Yes(n: nat): seq<bool> { seq(n, _ => true) }

  lemma YesSum(m: nat, n: nat)
    ensures Yes(m) + Yes(n) == Yes(m + n) && Yes(1) == [true]
  {
  }

  function AfterBurst(c: Settings, m: Visitors, key: string, at: int, n: nat): Visitors
    requires Valid(c)
    decreases n
  {
    if n == 0 then m else AfterBurst(c, Spend(c, m, key, at), key, at, n - 1)
  }

  /** A bucket with n tokens answers n calls at once with yes. */
  lemma {:induction false} BurstAllowed(c: Settings, forgets: bool, m: Visitors, key: string, at: int, n: nat, rest: seq<Event>)
    requires Valid(c) && Sane(c, m, at) && Credit(c, m, key, at) >= n as real
    ensures Answers(c, forgets, m, Burst(key, at, n) + rest)
         == Yes(n) + Answers(c, forgets, AfterBurst(c, m, key, at, n), rest)
    decreases n
  {
    if n == 0 {
      assert Burst(key, at, 0) + rest == rest;
    } else {
      hide PerNs, Gained, Credit, AfterBurst, Answers, Burst, Sane, Yes, Spend;
      var e := Call(key, at);
      var m1 := Spend(c, m, key, at);
      SaneNext(c, false, m, e, at);
      CreditAfter(c, false, m, e, key);
      AnswersHead(c, forgets, m, key, at, n, rest);
      BurstAllowed(c, forgets, m1, key, at, n - 1, rest);
      YesSum(1, n - 1);
      assert [true] + (Yes(n - 1) + Answers(c, forgets, AfterBurst(c, m1, key, at, n - 1), rest))
          == ([true] + Yes(n - 1)) + Answers(c, forgets, AfterBurst(c, m1, key, at, n - 1), rest);
      assert AfterBurst(c, m, key, at, n) == AfterBurst(c, m1, key, at, n - 1) by { BurstStep(c, m, key, at, n); }
    }
  }

  lemma BurstStep(c: Settings, m: Visitors, key: string, at: int, n: nat)
    requires Valid(c) && n > 0
    ensures AfterBurst(c, m, key, at, n) == AfterBurst(c, Spend(c, m, key, at), key, at, n - 1)
  {
  }

  lemma AnswersHead(c: Settings, forgets: bool, m: Visitors, key: string, at: int, n: nat, rest: seq<Event>)
    requires Valid(c) && n > 0
    ensures Answers(c, forgets, m, Burst(key, at, n) + rest)
         == [Allowed(c, m, key, at)] + Answers(c, forgets, Spend(c, m, key, at), Burst(key, at, n - 1) + rest)
  {
    hide Credit;
    var es := Burst(key, at, n) + rest;
    assert es[0] == Call(key, at) && es[1..] == Burst(key, at, n - 1) + rest;
  }

  lemma {:induction false} BurstOnlyKey(c: Settings, m: Visitors, key: string, at: int, n: nat)
    requires Valid(c) && forall k <- m :: k == key && m[k].lastSeen == at
    ensures forall k <- AfterBurst(c, m, key, at, n) :: AfterBurst(c, m, key, at, n)[k].lastSeen == at
    decreases n
  {
    if n > 0 {
      BurstOnlyKey(c, Spend(c, m, key, at), key, at, n - 1);
    }
  }

  function Trues(answers: seq<bool>): nat {
    if answers == [] then 0 else (if answers[0] then 1 else 0) + Trues(answers[1..])
  }

  lemma {:induction false} AllTrue(n: nat)
    ensures Trues(Yes(n)) == n
  {
    if n > 0 {
      assert Yes(n)[1..] == Yes(n - 1);
      AllTrue(n - 1);
    }
  }

  lemma {:induction false} CountIsTrues(c: Settings, forgets: bool, m: Visitors, es: seq<Event>, key: string, lo: int, hi: int)
    requires Valid(c) && forall e <- es :: lo <= e.at <= hi && (e.Call? ==> e.key == key)
    ensures Trues(Answers(c, forgets, m, es)) == Count(c, forgets, m, es, key, lo, hi)
    decreases |es|
  {
    hide Credit;
    if es != [] {
      CountIsTrues(c, forgets, Next(c, forgets, m, es[0]), es[1..], key, lo, hi);
      var rest := Answers(c, forgets, Next(c, forgets, m, es[0]), es[1..]);
      if es[0].Call? {
        assert ([Allowed(c, m, key, es[0].at)] + rest)[1..] == rest;
      } else {
        assert [] + rest == rest;
      }
    }
  }

  /** Spend a full bucket, be forgotten as soon as cleanup allows it, spend a full bucket again. */
  function TwoBursts(c: Settings, key: string): seq<Event>
    requires Valid(c)
  {
    Burst(key, 0, c.burst) + ([Clean(FullAfter(c))] + (Burst(key, FullAfter(c), c.burst) + []))
  }

  lemma ForgetfulAllowsBoth(c: Settings, key: string)
    requires Valid(c)
    ensures Answers(c, true, map[], TwoBursts(c, key)) == Yes(2 * c.burst)
  {
    var n, f := c.burst, FullAfter(c);
    var tail := Burst(key, f, n) + [];
    var m1 := AfterBurst(c, map[], key, 0, n);
    BurstAllowed(c, true, map[], key, 0, n, [Clean(f)] + tail);
    BurstOnlyKey(c, map[], key, 0, n);
    assert ([Clean(f)] + tail)[1..] == tail;
    assert Forget(c, m1, f) == map[];
    assert Answers(c, true, m1, [Clean(f)] + tail) == Answers(c, true, map[], tail);
    BurstAllowed(c, true, map[], key, f, n, []);
    assert Yes(n) + (Yes(n) + []) == Yes(2 * n);
  }

  lemma TwoBurstsOrdered(c: Settings, key: string)
    requires Valid(c)
    ensures Ordered(TwoBursts(c, key), 0)
    ensures forall e <- TwoBursts(c, key) :: 0 <= e.at <= FullAfter(c) && (e.Call? ==> e.key == key)
  {
    hide FullAfter;
    var es, n, f := TwoBursts(c, key), c.burst, FullAfter(c);
    forall i | 0 <= i < |es|
      ensures es[i].at == if i < n then 0 else f
      ensures es[i].Call? ==> es[i].key == key
    {
    }
  }

  /** Cleanup is lossless, on every trace with a non-decreasing clock, if and only if the settings
      are exact; otherwise there is a trace on which forgetting a bucket gives an extra token. */
  lemma CleanupLosslessIff(c: Settings, key: string)
    requires Valid(c)
    ensures Exact(c) ==> forall es, now :: Ordered(es, now) ==> Answers(c, true, map[], es) == Answers(c, false, map[], es)
    ensures !Exact(c) ==> Ordered(TwoBursts(c, key), 0)
    ensures !Exact(c) ==> Answers(c, true, map[], TwoBursts(c, key)) != Answers(c, false, map[], TwoBursts(c, key))
  {
    hide Answers, Exact, TwoBursts, Ordered, FullAfter, PerNs, Count;
    if Exact(c) {
      forall es, now | Ordered(es, now)
        ensures Answers(c, true, map[], es) == Answers(c, false, map[], es)
      {
        SameAnswers(c, map[], map[], es, now);
      }
    } else {
      var es, f := TwoBursts(c, key), FullAfter(c);
      TwoBurstsOrdered(c, key);
      ForgetfulAllowsBoth(c, key);
      AllTrue(2 * c.burst);
      CountIsTrues(c, false, map[], es, key, 0, f);
      RateBound(c, false, map[], es, key, 0, f, 0);
      InexactFallsShort(c);
    }
  }

  ghost predicate WithinRate(c: Settings, es: seq<Event>, key: string, lo: int, hi: int)
    requires Valid(c)
  {
    Count(c, true, map[], es, key, lo, hi) as real <= c.burst as real + (hi - lo) as real * PerNs(c)
  }

  /** The documented bound, burst + rate * length, holds of the limiter as it ships, cleanup and
      all, on every trace and interval, if and only if the settings are exact. */
  lemma RateBoundIff(c: Settings, key: string)
    requires Valid(c)
    ensures Exact(c) <==> forall es, lo, hi, t :: Ordered(es, t) && lo <= hi ==> WithinRate(c, es, key, lo, hi)
    ensures !Exact(c) ==> Ordered(TwoBursts(c, key), 0) && !WithinRate(c, TwoBursts(c, key), key, 0, FullAfter(c))
  {
    hide Answers, Exact, TwoBursts, Ordered, FullAfter, PerNs, Count, Cleans;
    if Exact(c) {
      forall es, lo, hi, t | Ordered(es, t) && lo <= hi
        ensures WithinRate(c, es, key, lo, hi)
      {
        RateBound(c, true, map[], es, key, lo, hi, t);
      }
    } else {
      var es, f := TwoBursts(c, key), FullAfter(c);
      TwoBurstsOrdered(c, key);
      ForgetfulAllowsBoth(c, key);
      AllTrue(2 * c.burst);
      CountIsTrues(c, true, map[], es, key, 0, f);
      InexactFallsShort(c);
      assert Ordered(es, 0) && !WithinRate(c, es, key, 0, f);
    }
  }

  // ---- the reported wait can be too short ----------------------------------------------------

  lemma {:induction false} BurstSpends(c: Settings, m: Visitors, key: string, at: int, n: nat)
    requires Valid(c) && Sane(c, m, at) && Credit(c, m, key, at) >= n as real
    ensures Sane(c, AfterBurst(c, m, key, at, n), at)
    ensures Credit(c, AfterBurst(c, m, key, at, n), key, at) == Credit(c, m, key, at) - n as real
    decreases n
  {
    hide PerNs, Gained, Credit, Sane;
    if n > 0 {
      var e := Call(key, at);
      SaneNext(c, false, m, e, at);
      CreditAfter(c, false, m, e, key);
      BurstSpends(c, Spend(c, m, key, at), key, at, n - 1);
    }
  }

  lemma Reciprocal(r: real, w: real)
    requires r > 0.0 && w > 0.0
    ensures 1.0 / (r / w) == w / r
  {
    Inverse(r / w, w / r, r, w);
    Cancel(r / w, w / r);
  }

  lemma Inverse(p: real, v: real, r: real, w: real)
    requires p * w == r && v * r == w && w > 0.0
    ensures v * p == 1.0
  {
    Scaled(v, p, w);
    assert (v * p - 1.0) * w == v * p * w - w;
    SignTimes(v * p - 1.0, w);
    SignTimes(1.0 - v * p, w);
  }

  lemma Cancel(p: real, v: real)
    requires v * p == 1.0 && p > 0.0
    ensures 1.0 / p == v
  {
  }

  /** Real and whole-number division agree on the whole part. */
  lemma Quotients(n: int, r: int)
    requires n >= 0 && r >= 1
    ensures (n as real / r as real).Floor == n / r
    ensures (n / r) as real == n as real / r as real <==> n % r == 0
  {
    var d, x, y := n / r, n as real, r as real;
    DivMod(n, r);
    CastProduct(d, r);
    assert x == d as real * y + (n % r) as real;
    Between(d as real, x, y, (n % r) as real);
    FloorIs(x / y, d);
  }

  lemma Between(d: real, x: real, y: real, m: real)
    requires x == d * y + m && 0.0 <= m < y
    ensures d <= x / y < d + 1.0 && (d == x / y <==> m == 0.0)
  {
    var q := x / y;
    assert q * y == x;
    assert (q - d) * y == m;
    SignTimes(q - d, y);
    SignTimes(d - q, y);
    assert (d + 1.0 - q) * y == y - m;
    SignTimes(q - d - 1.0, y);
  }

  lemma FloorIs(x: real, d: int)
    requires d as real <= x < d as real + 1.0
    ensures x.Floor == d
  {
  }

  /** The wait for a whole token from an empty bucket. */
  lemma EmptyWait(c: Settings)
    requires Valid(c)
    ensures Wait(c, 0.0) == c.window / c.rate
    ensures Wait(c, 0.0) as real == 1.0 / PerNs(c) <==> c.window % c.rate == 0
  {
    Reciprocal(c.rate as real, c.window as real);
    Quotients(c.window, c.rate);
  }

  /** Whether the reported wait is enough is decided by the settings alone for a client that has just
      spent its burst: with 7 per minute, say, it is told to wait 8571428571 ns and refused again. */
  lemma ReportedWaitTooShort(c: Settings, key: string, at: int)
    requires Valid(c)
    ensures var m := AfterBurst(c, map[], key, at, c.burst);
      var wait := Wait(c, Credit(c, m, key, at));
      && !Allowed(c, m, key, at) && wait == c.window / c.rate
      && (Allowed(c, Spend(c, m, key, at), key, at + wait) <==> c.window % c.rate == 0)
  {
    hide PerNs, Gained, AfterBurst, Wait;
    var m := AfterBurst(c, map[], key, at, c.burst);
    BurstSpends(c, map[], key, at, c.burst);
    hide Credit;
    assert Credit(c, m, key, at) == 0.0;
    EmptyWait(c);
    assert c.window / c.rate >= 0 by { DivMod(c.window, c.rate); }
    RetryExact(c, m, key, at, c.window / c.rate);
  }

  // ---- the limiter ---------------------------------------------------------------------------

  class Limiter {
    const settings: Settings
    var visitors: Visitors

    constructor (rate: int, burst: int, window: int)
      ensures settings == Corrected(rate, burst, window) && visitors == map[]
    {
      settings := Corrected(rate, burst, window);
      visitors := map[];
    }

    method Allow(key: string, now: int) returns (ok: bool, wait: int)
      requires Valid(settings)
      modifies this
      ensures ok == Allowed(settings, old(visitors), key, now)
      ensures visitors == Spend(settings, old(visitors), key, now)
      ensures wait == if ok then 0 else Wait(settings, Credit(settings, old(visitors), key, now))
    {
      hide PerNs;
      var burst := settings.burst as real;
      var v: Visitor;
      if key !in visitors {
        v := Visitor(burst, now);
      } else {
        v := visitors[key];
        var elapsed := now - v.lastSeen;
        if elapsed > 0 {
          v := v.(tokens := Min(burst, v.tokens + elapsed as real * PerNs(settings)));
        }
        v := v.(lastSeen := now);
      }
      assert v == Visitor(Credit(settings, visitors, key, now), now);
      if v.tokens < 1.0 {
        visitors := visitors[key := v];
        return false, Wait(settings, v.tokens);
      }
      visitors := visitors[key := v.(tokens := v.tokens - 1.0)];
      return true, 0;
    }

    method Cleanup(now: int)
      requires Valid(settings)
      modifies this
      ensures visitors == Forget(settings, old(visitors), now)
    {
      var full := FullAfter(settings);
      var todo := visitors.Keys;
      while todo != {}
        invariant todo <= old(visitors).Keys
        invariant visitors == map k | k in old(visitors) && (k in todo || now - old(visitors)[k].lastSeen < full) :: old(visitors)[k]
        decreases todo
      {
        var k :| k in todo;
        if now - visitors[k].lastSeen >= full {
          visitors := visitors - {k};
        }
        todo := todo - {k};
      }
    }
  }
}
