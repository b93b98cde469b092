/** The control plane's fixed-window request counter and what it really bounds. */
module RateLimit {

  datatype LimitOptions = LimitOptions(windowMs: nat, max: nat)

  datatype Hits = Hits(count: nat, resetAt: int)

  type Table = map<string, Hits>

  /** A missing or expired counter restarts at one; a live one admits up to `max`. */
  function Step(opts: LimitOptions, t: Table, key: string, now: int): (Table, bool) {
    if key !in t || now >= t[key].resetAt then (t[key := Hits(1, now + opts.windowMs)], true)
    else if t[key].count >= opts.max then (t, false)
    else (t[key := Hits(t[key].count + 1, t[key].resetAt)], true)
  }

  datatype Call = Call(key: string, now: int)

  function After(opts: LimitOptions, calls: seq<Call>): Table {
    if calls == [] then map[]
    else Step(opts, After(opts, calls[..|calls| - 1]), calls[|calls| - 1].key, calls[|calls| - 1].now).0
  }

  /** The times at which one key was let through. */
  function Allowed(opts: LimitOptions, calls: seq<Call>, key: string): seq<int> {
    if calls == [] then []
    else
      var c := calls[|calls| - 1];
      var front := calls[..|calls| - 1];
      Allowed(opts, front, key) +
      if c.key == key && Step(opts, After(opts, front), key, c.now).1 then [c.now] else []
  }

  function CountIn(times: seq<int>, lo: int, hi: int): nat {
    if times == [] then 0
    else CountIn(times[..|times| - 1], lo, hi) + if lo <= times[|times| - 1] < hi then 1 else 0
  }

  ghost predicate InOrder(calls: seq<Call>) {
    forall i, j :: 0 <= i < j < |calls| ==> calls[i].now <= calls[j].now
  }

  /** Even a limit of zero lets the first request of each window through. */
  function Quota(opts: LimitOptions): nat { if opts.max == 0 then 1 else opts.max }

  lemma CountAppend(times: seq<int>, t: int, lo: int, hi: int)
    ensures CountIn(times + [t], lo, hi) == CountIn(times, lo, hi) + if lo <= t < hi then 1 else 0
  {
    assert (times + [t])[..|times|] == times;
  }

  lemma {:induction false} CountWider(times: seq<int>, lo: int, hi: int, lo': int, hi': int)
    requires forall k :: 0 <= k < |times| && lo <= times[k] < hi ==> lo' <= times[k] < hi'
    ensures CountIn(times, lo, hi) <= CountIn(times, lo', hi')
  {
    if times != [] {
      assert forall k :: 0 <= k < |times| - 1 ==> times[..|times| - 1][k] == times[k];
      CountWider(times[..|times| - 1], lo, hi, lo', hi');
    }
  }

  lemma {:induction false} CountSplits(times: seq<int>, lo: int, mid: int, hi: int)
    requires lo <= mid <= hi
    ensures CountIn(times, lo, hi) == CountIn(times, lo, mid) + CountIn(times, mid, hi)
  {
    if times != [] { CountSplits(times[..|times| - 1], lo, mid, hi); }
  }

  /** Half-open intervals of the window's length hold one less than two quotas. */
  ghost predicate FitsFrom(opts: LimitOptions, times: seq<int>, lo: int) {
    CountIn(times, lo, lo + opts.windowMs) <= 2 * Quota(opts) - 1
  }

  ghost predicate Bounded(opts: LimitOptions, times: seq<int>) {
    forall lo :: FitsFrom(opts, times, lo)
  }

  /**
   The current counter window starts at `s`, with a request let through at that very moment;
   just before it, less than one window length back, lies less than a quota, because the
   previous window's own first request is further back than that.
   */
  ghost predicate WindowsOk(opts: LimitOptions, times: seq<int>, h: Hits, now: int) {
    var s := h.resetAt - opts.windowMs;
    && s <= now && (forall k :: 0 <= k < |times| ==> times[k] <= now && times[k] < h.resetAt)
    && CountIn(times, s, h.resetAt) == h.count <= Quota(opts)
    && CountIn(times, s, s + 1) >= 1
    && CountIn(times, s - opts.windowMs + 1, s) <= Quota(opts) - 1
  }

  lemma {:induction false} NothingIn(times: seq<int>, lo: int, hi: int)
    requires forall k :: 0 <= k < |times| ==> !(lo <= times[k] < hi)
    ensures CountIn(times, lo, hi) == 0
  {
    if times != [] {
      assert forall k :: 0 <= k < |times| - 1 ==> times[..|times| - 1][k] == times[k];
      NothingIn(times[..|times| - 1], lo, hi);
    }
  }

  /** Only intervals that hold the new request need to be looked at again. */
  lemma StillBounded(opts: LimitOptions, times: seq<int>, now: int)
    requires Bounded(opts, times)
    requires forall lo :: lo <= now < lo + opts.windowMs ==> FitsFrom(opts, times + [now], lo)
    ensures Bounded(opts, times + [now])
  {
    forall lo ensures FitsFrom(opts, times + [now], lo) {
      assert FitsFrom(opts, times, lo);
      CountAppend(times, now, lo, lo + opts.windowMs);
    }
  }

  lemma NewWindow(opts: LimitOptions, times: seq<int>, h: Hits, before: int, now: int)
    requires opts.windowMs > 0 && WindowsOk(opts, times, h, before) && Bounded(opts, times)
    requires before <= now && now >= h.resetAt
    ensures WindowsOk(opts, times + [now], Hits(1, now + opts.windowMs), now) && Bounded(opts, times + [now])
  {
    var w, s := opts.windowMs, h.resetAt - opts.windowMs;
    NothingIn(times, now, now + w);
    CountAppend(times, now, now, now + w);
    CountAppend(times, now, now, now + 1);
    CountSplits(times, s, s + 1, h.resetAt);
    CountAppend(times, now, now - w + 1, now);
    CountWider(times, now - w + 1, now, s + 1, h.resetAt);
    forall lo | lo <= now < lo + w ensures FitsFrom(opts, times + [now], lo) {
      CountAppend(times, now, lo, lo + w);
      CountWider(times, lo, lo + w, s + 1, h.resetAt);
    }
    StillBounded(opts, times, now);
  }

  lemma SameWindow(opts: LimitOptions, times: seq<int>, h: Hits, before: int, now: int)
    requires WindowsOk(opts, times, h, before) && Bounded(opts, times)
    requires before <= now < h.resetAt && h.count < opts.max
    ensures WindowsOk(opts, times + [now], Hits(h.count + 1, h.resetAt), now) && Bounded(opts, times + [now])
  {
    var w, s := opts.windowMs, h.resetAt - opts.windowMs;
    CountAppend(times, now, s, h.resetAt);
    CountAppend(times, now, s, s + 1);
    CountAppend(times, now, s - w + 1, s);
    forall lo | lo <= now < lo + w ensures FitsFrom(opts, times + [now], lo) {
      CountAppend(times, now, lo, lo + w);
      if lo > s {
        CountWider(times, lo, lo + w, s, h.resetAt);
      } else {
        CountSplits(times, lo, s, lo + w);
        CountWider(times, lo, s, s - w + 1, s);
        CountWider(times, s, lo + w, s, h.resetAt);
      }
    }
    StillBounded(opts, times, now);
  }

  ghost predicate KeyOk(opts: LimitOptions, t: Table, times: seq<int>, key: string, now: int) {
    && (key !in t ==> times == [])
    && (key in t ==> WindowsOk(opts, times, t[key], now))
    && Bounded(opts, times)
  }

  /** The first request a key ever makes. */
  lemma FirstWindow(opts: LimitOptions, now: int)
    requires opts.windowMs > 0
    ensures WindowsOk(opts, [now], Hits(1, now + opts.windowMs), now) && Bounded(opts, [now])
  {
    CountOne(now, now, now + opts.windowMs);
    CountOne(now, now, now + 1);
    CountOne(now, now - opts.windowMs + 1, now);
    forall lo ensures FitsFrom(opts, [now], lo) { CountOne(now, lo, lo + opts.windowMs); }
  }

  lemma CountOne(t: int, lo: int, hi: int)
    ensures CountIn([t], lo, hi) == if lo <= t < hi then 1 else 0
  {
    CountAppend([], t, lo, hi);
    assert [] + [t] == [t];
  }

  lemma StepKeepsKey(opts: LimitOptions, t: Table, times: seq<int>, key: string, before: int,
      c: Call)
    requires opts.windowMs > 0 && KeyOk(opts, t, times, key, before) && before <= c.now
    ensures var (t', ok) := Step(opts, t, c.key, c.now);
            KeyOk(opts, t', if c.key == key && ok then times + [c.now] else times, key, c.now)
  {
    if c.key == key { OwnStep(opts, t, times, key, before, c.now); }
  }

  lemma OwnStep(opts: LimitOptions, t: Table, times: seq<int>, key: string, before: int, now: int)
    requires opts.windowMs > 0 && KeyOk(opts, t, times, key, before) && before <= now
    ensures var (t', ok) := Step(opts, t, key, now);
            KeyOk(opts, t', if ok then times + [now] else times, key, now)
  {
    if key !in t {
      FirstWindow(opts, now);
      assert times + [now] == [now];
    } else if now >= t[key].resetAt {
      NewWindow(opts, times, t[key], before, now);
    } else if t[key].count < opts.max {
      SameWindow(opts, times, t[key], before, now);
    }
  }

  lemma {:induction false} RunKeepsKey(opts: LimitOptions, calls: seq<Call>, key: string)
    requires opts.windowMs > 0 && InOrder(calls) && calls != []
    ensures KeyOk(opts, After(opts, calls), Allowed(opts, calls, key), key, calls[|calls| - 1].now)
  {
    var front, c := calls[..|calls| - 1], calls[|calls| - 1];
    assert Allowed(opts, front, key) + [] == Allowed(opts, front, key);
    if front == [] {
      forall lo ensures FitsFrom(opts, [], lo) {}
      StepKeepsKey(opts, map[], [], key, c.now, c);
    } else {
      RunKeepsKey(opts, front, key);
      StepKeepsKey(opts, After(opts, front), Allowed(opts, front, key), key, front[|front| - 1].now, c);
    }
  }

  /**
   Over any calls in clock order, for each key: every half-open interval as long as the
   window lets through less than two quotas, and the counter window in force has let through
   exactly what it counted, at most the quota.
   */
  lemma LimiterBound(opts: LimitOptions, calls: seq<Call>, key: string, lo: int)
    requires InOrder(calls)
    ensures CountIn(Allowed(opts, calls, key), lo, lo + opts.windowMs) <= 2 * Quota(opts) - 1
    ensures var t := After(opts, calls);
            opts.windowMs > 0 && key in t ==>
            CountIn(Allowed(opts, calls, key), t[key].resetAt - opts.windowMs, t[key].resetAt) == t[key].count <= Quota(opts)
  {
    if opts.windowMs == 0 {
      NothingIn(Allowed(opts, calls, key), lo, lo);
    } else if calls != [] {
      RunKeepsKey(opts, calls, key);
      assert FitsFrom(opts, Allowed(opts, calls, key), lo);
    }
  }

  // ─── The bound is the best one ────────────────────────────────────────────

  function Burst(calls: seq<Call>, key: string, now: int, n: nat): seq<Call> {
    if n == 0 then calls else Burst(calls, key, now, n - 1) + [Call(key, now)]
  }

  lemma {:induction false} BurstShape(calls: seq<Call>, key: string, now: int, n: nat)
    ensures var r := Burst(calls, key, now, n);
            && |r| == |calls| + n && (forall k :: 0 <= k < |calls| ==> r[k] == calls[k])
            && forall k :: |calls| <= k < |r| ==> r[k] == Call(key, now)
  {
    if n > 0 { BurstShape(calls, key, now, n - 1); }
  }

  /** After the calls the key's counter is `h`, with `n` requests let through inside [lo, hi). */
  ghost predicate Stands(opts: LimitOptions, calls: seq<Call>, key: string, h: Hits, lo: int, hi: int, n: nat) {
    && key in After(opts, calls) && After(opts, calls)[key] == h
    && CountIn(Allowed(opts, calls, key), lo, hi) == n
  }

  /** One more request inside the interval, let through by the counter in force or by a new one. */
  lemma OneMore(opts: LimitOptions, calls: seq<Call>, key: string, h: Hits, now: int, lo: int,
      hi: int, n: nat)
    requires Stands(opts, calls, key, h, lo, hi, n) && lo <= now < hi
    requires now >= h.resetAt || h.count < opts.max
    ensures Stands(opts, calls + [Call(key, now)], key,
                   if now >= h.resetAt then Hits(1, now + opts.windowMs) else Hits(h.count + 1, h.resetAt), lo, hi, n + 1)
  {
    var all := calls + [Call(key, now)];
    assert all[..|all| - 1] == calls;
    CountAppend(Allowed(opts, calls, key), now, lo, hi);
  }

  /** A burst that fits the counter is let through whole. */
  lemma {:induction false} BurstFits(opts: LimitOptions, calls: seq<Call>, key: string, h: Hits, now: int, n: nat,
                                     lo: int, hi: int, before: nat)
    requires Stands(opts, calls, key, h, lo, hi, before) && lo <= now < hi
    requires now < h.resetAt && h.count + n <= opts.max
    ensures Stands(opts, Burst(calls, key, now, n), key, Hits(h.count + n, h.resetAt), lo, hi, before + n)
  {
    if n > 0 {
      BurstFits(opts, calls, key, h, now, n - 1, lo, hi, before);
      assert Burst(calls, key, now, n) == Burst(calls, key, now, n - 1) + [Call(key, now)];
      OneMore(opts, Burst(calls, key, now, n - 1), key, Hits(h.count + (n - 1), h.resetAt), now, lo, hi, before + (n - 1));
    }
  }

  function FirstBurst(opts: LimitOptions, key: string): seq<Call>
    requires opts.max > 0
  {
    Burst([Call(key, 0)], key, opts.windowMs - 1, opts.max - 1)
  }

  /** One request, a burst at the window's last moment, a burst at the next window's first. */
  function WorstCase(opts: LimitOptions, key: string): seq<Call>
    requires opts.max > 0
  {
    Burst(FirstBurst(opts, key) + [Call(key, opts.windowMs)], key, opts.windowMs, opts.max - 1)
  }

  lemma WorstCaseInOrder(opts: LimitOptions, key: string)
    requires opts.max > 0 && opts.windowMs > 1
    ensures InOrder(WorstCase(opts, key))
  {
    var first := FirstBurst(opts, key);
    BurstShape([Call(key, 0)], key, opts.windowMs - 1, opts.max - 1);
    var second := first + [Call(key, opts.windowMs)];
    BurstShape(second, key, opts.windowMs, opts.max - 1);
    var all := WorstCase(opts, key);
    assert forall k :: 0 <= k < |all| ==>
      all[k].now == if k == 0 then 0 else if k < |first| then opts.windowMs - 1 else opts.windowMs;
  }

  /** Some run in clock order lets through exactly one less than two quotas inside one window length. */
  lemma BoundIsReached(opts: LimitOptions, key: string)
    requires opts.max > 0 && opts.windowMs > 1
    ensures InOrder(WorstCase(opts, key))
    ensures CountIn(Allowed(opts, WorstCase(opts, key), key), 1, 1 + opts.windowMs) == 2 * Quota(opts) - 1
  {
    var w, max, first := opts.windowMs, opts.max, FirstBurst(opts, key);
    WorstCaseInOrder(opts, key);
    OneCall(opts, key, 1 + w);
    BurstFits(opts, [Call(key, 0)], key, Hits(1, w), w - 1, max - 1, 1, 1 + w, 0);
    OneMore(opts, first, key, Hits(max, w), w, 1, 1 + w, max - 1);
    BurstFits(opts, first + [Call(key, w)], key, Hits(1, w + w), w, max - 1, 1, 1 + w, max);
  }

  lemma OneCall(opts: LimitOptions, key: string, hi: int)
    ensures Stands(opts, [Call(key, 0)], key, Hits(1, opts.windowMs), 1, hi, 0)
  {
    assert [Call(key, 0)][..0] == [];
    assert Allowed(opts, [Call(key, 0)], key) == [0];
    CountOne(0, 1, hi);
  }

  class RateLimiter {
    const opts: LimitOptions
    var hits: Table

    constructor (opts: LimitOptions)
      ensures this.opts == opts && hits == map[]
    {
      this.opts, hits := opts, map[];
    }

    method Allow(key: string, now: int) returns (ok: bool)
      modifies this
      ensures (hits, ok) == Step(opts, old(hits), key, now)
    {
      if key !in hits || now >= hits[key].resetAt {
        hits := hits[key := Hits(1, now + opts.windowMs)];
        return true;
      }
      if hits[key].count >= opts.max { return false; }
      hits := hits[key := Hits(hits[key].count + 1, hits[key].resetAt)];
      ok := true;
    }
  }
}
