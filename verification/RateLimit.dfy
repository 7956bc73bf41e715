/**
 The fixed-window rate limiter. A window opens with the first request that finds none open, and counts
 what follows until it is a minute old.
 */
module RateLimiting {
  import opened Text

  const RATE_WINDOW: int := 60000

  datatype Bucket = Bucket(windowStart: int, count: nat)

  datatype Request = Request(tenant: string, route: string, now: int)

  datatype Reply = Admitted(remaining: int) | RateLimited

  function Key(r: Request): string { r.tenant + ":" + r.route }

  function Opened(b: Option<Bucket>, now: int): Bucket {
    if b.None? || now - b.value.windowStart >= RATE_WINDOW then Bucket(now, 0) else b.value
  }

  /** One request against the bucket of its key. */
  function Count(b: Option<Bucket>, now: int): Bucket {
    var o := Opened(b, now);
    o.(count := o.count + 1)
  }

  predicate Admits(b: Option<Bucket>, now: int, rateLimit: nat) { Count(b, now).count <= rateLimit }

  // ---- One key's requests, by the times they come at ----

  function After(b: Option<Bucket>, times: seq<int>): Option<Bucket> {
    if times == [] then b else Some(Count(After(b, times[..|times| - 1]), times[|times| - 1]))
  }

  predicate AdmittedAt(times: seq<int>, i: nat, rateLimit: nat)
    requires i < |times|
  {
    Admits(After(None, times[..i]), times[i], rateLimit)
  }

  ghost predicate Ordered(times: seq<int>) { forall i, j :: 0 <= i < j < |times| ==> times[i] <= times[j] }

  /** The requests admitted from time `from` up to, but not at, time `to`. */
  function AdmittedIn(times: seq<int>, rateLimit: nat, from: int, to: int): (r: set<int>) {
    set i | 0 <= i < |times| && from <= times[i] < to && AdmittedAt(times, i, rateLimit)
  }

  /** The request that opened the window the last request was counted in. */
  function First(times: seq<int>): (f: nat)
    requires times != []
    ensures f < |times|
  {
    var front := times[..|times| - 1];
    if front == [] || times[|times| - 1] - times[First(front)] >= RATE_WINDOW then |front| else First(front)
  }

  /** The bucket is what the window's opening and its length so far say. */
  lemma {:induction false} BucketIs(times: seq<int>)
    requires times != []
    ensures After(None, times) == Some(Bucket(times[First(times)], |times| - First(times)))
    ensures times[|times| - 1] - times[First(times)] < RATE_WINDOW
  {
    var front := times[..|times| - 1];
    if front != [] { BucketIs(front); }
  }

  function Opener(times: seq<int>, i: nat): (f: nat)
    requires i < |times|
    ensures f <= i
  {
    First(times[..i + 1])
  }

  /** A request is admitted exactly when it is among the first `rateLimit` of its window. */
  lemma AdmittedIff(times: seq<int>, i: nat, rateLimit: nat)
    requires i < |times|
    ensures AdmittedAt(times, i, rateLimit) <==> i < Opener(times, i) + rateLimit
    ensures times[i] - times[Opener(times, i)] < RATE_WINDOW
  {
    BucketIs(times[..i + 1]);
    assert times[..i + 1][..i] == times[..i];
  }

  lemma OpenerStep(times: seq<int>, i: nat)
    requires i + 1 < |times|
    ensures Opener(times, i + 1) == (if times[i + 1] - times[Opener(times, i)] >= RATE_WINDOW then i + 1 else Opener(times, i))
  {
    assert times[..i + 2][..i + 1] == times[..i + 1];
  }

  /** Windows follow one another, and open a whole window length apart. */
  lemma {:induction false} WindowsApart(times: seq<int>, i: nat, j: nat)
    requires Ordered(times) && i <= j < |times|
    ensures Opener(times, i) == Opener(times, j)
            || (i < Opener(times, j) && times[Opener(times, j)] - times[Opener(times, i)] >= RATE_WINDOW)
  {
    if i < j {
      WindowsApart(times, i, j - 1);
      OpenerStep(times, j - 1);
      hide Opener;
    }
  }

  /** In the window of request `i`, every request so far has the same opener. */
  lemma SameWindow(times: seq<int>, i: nat, k: nat)
    requires Ordered(times) && i < |times| && Opener(times, i) <= k <= i
    ensures Opener(times, k) == Opener(times, i)
  {
    WindowsApart(times, k, i);
  }

  function Range(from: nat, n: nat): (r: set<int>)
    ensures |r| == n
    ensures forall k :: k in r <==> from <= k < from + n
  {
    if n == 0 then {} else Range(from, n - 1) + {from + n - 1}
  }

  ghost predicate Least(a: set<int>, m: int) { m in a && forall k :: k in a ==> m <= k }

  lemma {:induction false} HasLeast(a: set<int>) returns (m: int)
    requires |a| > 0
    ensures Least(a, m)
  {
    assert (forall x :: x !in a) ==> a == {};
    var x :| x in a;
    var rest := a - {x};
    assert forall k :: k in a ==> k == x || k in rest;
    if |rest| == 0 {
      m := x;
    } else {
      var k := HasLeast(rest);
      m := if x < k then x else k;
    }
  }

  /** All admitted in an interval of one window length were counted in one of two windows. */
  lemma TwoWindows(times: seq<int>, rateLimit: nat, from: int, i: nat, j: nat, k: nat)
    requires Ordered(times) && i <= j < |times| && i <= k < |times|
    requires from <= times[i] && times[j] < from + RATE_WINDOW && times[k] < from + RATE_WINDOW
    requires Opener(times, j) != Opener(times, i) && Opener(times, k) != Opener(times, i)
    ensures Opener(times, j) == Opener(times, k) && times[Opener(times, i)] < from
  {
    WindowsApart(times, i, j);
    WindowsApart(times, i, k);
    if j <= k { WindowsApart(times, j, k); } else { WindowsApart(times, k, j); }
    hide Opener;
  }

  lemma Covered(a: set<int>, b: set<int>, c: set<int>)
    requires forall k :: k in a ==> k in b || k in c
    ensures |a| <= |b| + |c|
  {
    assert a == a * b + (a - b);
    assert forall k :: k in a - b ==> k in c;
    SizeOf(a * b, b);
    SizeOf(a - b, c);
  }

  lemma SizeOf(a: set<int>, b: set<int>)
    requires a <= b
    ensures |a| <= |b|
  {
    assert b == a + (b - a);
  }

  /**
   Under a clock that does not go back, fewer than twice the limit are admitted in any half-open interval of
   one window length.
   */
  lemma FewerThanTwice(times: seq<int>, rateLimit: nat, from: int)
    requires Ordered(times)
    ensures |AdmittedIn(times, rateLimit, from, from + RATE_WINDOW)| <= if rateLimit == 0 then 0 else 2 * rateLimit - 1
  {
    hide Opener, AdmittedAt;
    var a := AdmittedIn(times, rateLimit, from, from + RATE_WINDOW);
    forall k | k in a ensures k < Opener(times, k) + rateLimit { AdmittedIff(times, k, rateLimit); }
    if a != {} {
      var i := HasLeast(a);
      var f := Opener(times, i);
      if j :| j in a && Opener(times, j) != f {
        forall k | k in a ensures k in Range(f + 1, rateLimit - 1) || k in Range(Opener(times, j), rateLimit) {
          InOneOfTwo(times, rateLimit, from, i, j, k);
        }
        Covered(a, Range(f + 1, rateLimit - 1), Range(Opener(times, j), rateLimit));
      } else {
        forall k | k in a ensures k in Range(f, rateLimit) {
        }
        SizeOf(a, Range(f, rateLimit));
      }
    }
  }

  lemma InOneOfTwo(times: seq<int>, rateLimit: nat, from: int, i: nat, j: nat, k: nat)
    requires Ordered(times) && i <= j < |times| && i <= k < |times|
    requires from <= times[i] && times[j] < from + RATE_WINDOW && from <= times[k] < from + RATE_WINDOW
    requires Opener(times, j) != Opener(times, i) && k < Opener(times, k) + rateLimit
    ensures Opener(times, i) < k < Opener(times, i) + rateLimit || Opener(times, j) <= k < Opener(times, j) + rateLimit
  {
    if Opener(times, k) == Opener(times, i) {
      TwoWindows(times, rateLimit, from, i, j, j);
      assert times[Opener(times, i)] < from;
    } else {
      TwoWindows(times, rateLimit, from, i, j, k);
    }
    hide Opener;
  }

  /** A request is refused only after the limit was reached within the window length that ends with it. */
  lemma RefusedOnlyAtLimit(times: seq<int>, i: nat, rateLimit: nat)
    requires Ordered(times) && i < |times| && !AdmittedAt(times, i, rateLimit)
    ensures |AdmittedIn(times[..i], rateLimit, times[i] - RATE_WINDOW + 1, times[i] + 1)| >= rateLimit
  {
    AdmittedIff(times, i, rateLimit);
    var f, a := Opener(times, i), AdmittedIn(times[..i], rateLimit, times[i] - RATE_WINDOW + 1, times[i] + 1);
    forall k | k in Range(f, rateLimit) ensures k in a {
      SameWindow(times, i, k);
      AdmittedIff(times, k, rateLimit);
      assert times[..i][..k] == times[..k];
    }
    SizeOf(Range(f, rateLimit), a);
  }

  // ---- The bound is met ----

  /** One request, the rest of the limit just before its window ends, and the limit again as the next opens. */
  function Burst(rateLimit: nat): (t: seq<int>)
    requires rateLimit >= 1
    ensures |t| == 2 * rateLimit && Ordered(t)
  {
    seq(2 * rateLimit, i => if i == 0 then 0 else if i < rateLimit then RATE_WINDOW - 1 else RATE_WINDOW)
  }

  lemma {:induction false} BurstOpener(rateLimit: nat, i: nat)
    requires rateLimit >= 1 && i < 2 * rateLimit
    ensures Opener(Burst(rateLimit), i) == if i < rateLimit then 0 else rateLimit
  {
    if i > 0 {
      BurstOpener(rateLimit, i - 1);
      OpenerStep(Burst(rateLimit), i - 1);
    }
  }

  lemma BoundIsMet(rateLimit: nat)
    requires rateLimit >= 1
    ensures |AdmittedIn(Burst(rateLimit), rateLimit, RATE_WINDOW - 1, 2 * RATE_WINDOW - 1)| == 2 * rateLimit - 1
  {
    var a := AdmittedIn(Burst(rateLimit), rateLimit, RATE_WINDOW - 1, 2 * RATE_WINDOW - 1);
    forall k | 1 <= k < 2 * rateLimit ensures k in a {
      BurstOpener(rateLimit, k);
      AdmittedIff(Burst(rateLimit), k, rateLimit);
    }
    assert a == Range(1, 2 * rateLimit - 1);
  }

  // ---- Keys ----

  /** The times of the requests under one key, in order. */
  function TimesOf(history: seq<Request>, key: string): (t: seq<int>)
    ensures Monotone(history) ==> Ordered(t) && forall k :: 0 <= k < |t| ==> t[k] <= Latest(history)
  {
    if history == [] then []
    else TimesOf(history[..|history| - 1], key) +
         if Key(history[|history| - 1]) == key then [history[|history| - 1].now] else []
  }

  ghost predicate Monotone(history: seq<Request>) { forall i, j :: 0 <= i < j < |history| ==> history[i].now <= history[j].now }

  function Latest(history: seq<Request>): int { if history == [] then 0 else history[|history| - 1].now }

  /** No other tenant and route have the key of this request. */
  ghost predicate KeyIsItsOwn(a: Request) {
    forall b: Request :: Key(b) == Key(a) ==> b.tenant == a.tenant && b.route == a.route
  }

  /** With a colon in the tenant, the part after it can go to the route. */
  lemma TenantSharesKey(a: Request, i: nat)
    requires i < |a.tenant| && a.tenant[i] == ':'
    ensures !KeyIsItsOwn(a)
  {
    var b := Request(a.tenant[..i], a.tenant[i + 1..] + ":" + a.route, a.now);
    assert a.tenant == a.tenant[..i] + ":" + a.tenant[i + 1..];
    assert Key(b) == Key(a);
    assert |b.tenant| < |a.tenant|;
  }

  /** With a colon in the route, the part before it can go to the tenant. */
  lemma RouteSharesKey(a: Request, i: nat)
    requires i < |a.route| && a.route[i] == ':'
    ensures !KeyIsItsOwn(a)
  {
    var b := Request(a.tenant + ":" + a.route[..i], a.route[i + 1..], a.now);
    assert a.route == a.route[..i] + ":" + a.route[i + 1..];
    assert Key(b) == Key(a);
    assert |b.tenant| > |a.tenant|;
  }

  /** A request shares its bucket with no other tenant and route exactly when neither of its two names holds a colon. */
  lemma KeyIsItsOwnIff(a: Request)
    ensures KeyIsItsOwn(a) <==> ':' !in a.tenant && ':' !in a.route
  {
    hide Key;
    if ':' in a.tenant {
      var i :| 0 <= i < |a.tenant| && a.tenant[i] == ':';
      TenantSharesKey(a, i);
    } else if ':' in a.route {
      var i :| 0 <= i < |a.route| && a.route[i] == ':';
      RouteSharesKey(a, i);
    } else {
      forall b: Request | Key(b) == Key(a) ensures b.tenant == a.tenant && b.route == a.route {
        KeySplits(a, b);
      }
    }
  }

  /** The key's one colon is where both requests join their names. */
  lemma KeySplits(a: Request, b: Request)
    requires Key(a) == Key(b) && ':' !in a.tenant && ':' !in a.route
    ensures b.tenant == a.tenant && b.route == a.route
  {
    var key := Key(a);
    assert key == a.tenant + [':'] + a.route && key == b.tenant + [':'] + b.route;
    assert key[|b.tenant|] == ':';
    assert a.tenant == key[..|a.tenant|] && b.tenant == key[..|b.tenant|];
    assert a.route == key[|a.tenant| + 1..] && b.route == key[|b.tenant| + 1..];
  }

  /** Two different requests in one bucket. */
  lemma KeysCollide()
    ensures Key(Request("a:b", "c", 0)) == Key(Request("a", "b:c", 0))
  {
    assert Key(Request("a:b", "c", 0)) == "a:b:c" == Key(Request("a", "b:c", 0));
  }

  lemma TimesOfSnoc(history: seq<Request>, r: Request, key: string)
    ensures TimesOf(history + [r], key) == TimesOf(history, key) + if key == Key(r) then [r.now] else []
  {
    assert (history + [r])[..|history|] == history;
  }

  lemma AfterSnoc(times: seq<int>, now: int)
    ensures (times + [now])[..|times|] == times
    ensures After(None, times + [now]) == Some(Count(After(None, times), now))
  {
  }

  /** A key's bucket depends on that key's requests alone. */
  ghost predicate Tracks(buckets: map<string, Bucket>, history: seq<Request>) {
    forall key :: BucketOf(buckets, key) == After(None, TimesOf(history, key))
  }

  function BucketOf(buckets: map<string, Bucket>, key: string): Option<Bucket> {
    if key in buckets then Some(buckets[key]) else None
  }

  /** Counting a request in its key's bucket keeps every bucket in step. */
  lemma TracksNext(buckets: map<string, Bucket>, history: seq<Request>, r: Request, rateLimit: nat)
    requires Tracks(buckets, history)
    ensures var key, times := Key(r), TimesOf(history + [r], Key(r));
            var bucket := Count(BucketOf(buckets, key), r.now);
            && Tracks(buckets[key := bucket], history + [r])
            && times == TimesOf(history, key) + [r.now]
            && (bucket.count <= rateLimit <==> AdmittedAt(times, |times| - 1, rateLimit))
            && bucket.count == |times| - First(times)
  {
    hide TimesOf, After, First, Key;
    var before := TimesOf(history, Key(r));
    AfterSnoc(before, r.now);
    BucketIs(before + [r.now]);
    TimesOfSnoc(history, r, Key(r));
    var bucket := Count(BucketOf(buckets, Key(r)), r.now);
    forall k ensures BucketOf(buckets[Key(r) := bucket], k) == After(None, TimesOf(history + [r], k)) {
      TimesOfSnoc(history, r, k);
      assert TimesOf(history, k) + [] == TimesOf(history, k);
    }
  }

  class RateLimiter {
    const rateLimit: nat
    var buckets: map<string, Bucket>
    ghost var history: seq<Request>

    ghost predicate Valid()
      reads this
    {
      Tracks(buckets, history)
    }

    constructor (rateLimit: nat)
      ensures Valid() && history == [] && this.rateLimit == rateLimit
    {
      this.rateLimit, buckets, history := rateLimit, map[], [];
    }

    method CheckRateLimit(r: Request) returns (reply: Reply)
      requires Valid()
      modifies this
      ensures Valid() && history == old(history) + [r]
      ensures var times := TimesOf(history, Key(r));
              && times == TimesOf(old(history), Key(r)) + [r.now]
              && reply.Admitted? == AdmittedAt(times, |times| - 1, rateLimit)
              && (reply.Admitted? ==> reply.remaining == rateLimit - (|times| - First(times)))
    {
      hide TimesOf, Key, Tracks, AdmittedAt, First;
      var key := Key(r);
      TracksNext(buckets, history, r, rateLimit);
      var bucket;
      if key !in buckets || r.now - buckets[key].windowStart >= RATE_WINDOW {
        bucket := Bucket(r.now, 0);
      } else {
        bucket := buckets[key];
      }
      bucket := bucket.(count := bucket.count + 1);
      buckets := buckets[key := bucket];
      history := history + [r];
      if bucket.count > rateLimit {
        return RateLimited;
      }
      return Admitted(rateLimit - bucket.count);
    }
  }
}
