/** The upload rate limiter of internal/handler/ratelimit.go, with reals for float64. */
module RateLimit {
  /** One instant in the life of a limiter: its creation, or a call of `allow`, and whether that admitted. */
  datatype Instant = Instant(at: real, admitted: bool)

  /** How many instants of `h` from `i` on admitted an upload. */
  function Admissions(h: seq<Instant>, i: nat): (n: nat)
    requires i <= |h|
    decreases |h|
  {
    if i == |h| then 0
    else Admissions(h[..|h| - 1], i) + if h[|h| - 1].admitted then 1 else 0
  }

  /** The tokens that accrue between two times, before any cap. */
  function Earned(refill: real, from: real, to: real): real {
    refill * (to - from)
  }

  /**
   What the window from instant `i` to time `t` still permits: a full bucket then, refilled since,
   less the admissions.
   */
  function Slack(capacity: real, refill: real, h: seq<Instant>, i: nat, t: real): real
    requires i < |h|
  {
    capacity + Earned(refill, h[i].at, t) - Admissions(h, i) as real
  }

  /** `x` is the tightest of all windows that end at time `t`. */
  ghost predicate TightestSlack(x: real, capacity: real, refill: real, h: seq<Instant>, t: real) {
    && (forall i :: 0 <= i < |h| ==> x <= Slack(capacity, refill, h, i, t))
    && (exists i :: 0 <= i < |h| && x == Slack(capacity, refill, h, i, t))
  }

  /** Whether every window from an earlier instant, and the one opening at `t` itself, still permits one more upload. */
  ghost predicate Fits(capacity: real, refill: real, h: seq<Instant>, t: real) {
    && capacity >= 1.0
    && forall i :: 0 <= i < |h| ==> Slack(capacity, refill, h, i, t) >= 1.0
  }

  ghost predicate Chronological(h: seq<Instant>) {
    forall i, j :: 0 <= i < j < |h| ==> h[i].at <= h[j].at
  }

  /** Starts with the creation, runs forward in time, and admits exactly when that breaks no window's bound. */
  ghost predicate Greedy(capacity: real, refill: real, h: seq<Instant>) {
    && |h| >= 1 && !h[0].admitted
    && Chronological(h)
    && forall n :: 1 <= n < |h| ==> (h[n].admitted <==> Fits(capacity, refill, h[..n], h[n].at))
  }

  class UploadRateLimiter {
    var tokens: real
    const capacity: real
    const refill: real
    var last: real
    ghost var history: seq<Instant>

    /** The three fields agree with the history: the stored tokens are the tightest slack at the last instant. */
    ghost predicate Valid()
      reads this
    {
      && capacity >= 1.0 && refill >= 0.0
      && Greedy(capacity, refill, history)
      && last == history[|history| - 1].at
      && TightestSlack(tokens, capacity, refill, history, last)
    }

    constructor (requestsPerMinute: int, now: real)
      ensures Valid()
      ensures capacity == (if requestsPerMinute <= 0 then 60 else requestsPerMinute) as real
      ensures refill == capacity / 60.0
      ensures history == [Instant(now, false)]
    {
      var perMinute := if requestsPerMinute <= 0 then 60 else requestsPerMinute;
      tokens := perMinute as real;
      capacity := perMinute as real;
      refill := perMinute as real / 60.0;
      last := now;
      history := [Instant(now, false)];
      new;
      assert history[0] == Instant(now, false);
      assert Admissions(history, 0) == 0 by {
        assert history[..0] == [];
      }
      assert Slack(capacity, refill, history, 0, last) == capacity;
    }

    /** `allow`, with the clock reading as a parameter; readings under the lock never go back. */
    method Allow(now: real) returns (ok: bool)
      requires Valid() && now >= last
      modifies this
      ensures Valid()
      ensures history == old(history) + [Instant(now, ok)]
      ensures ok <==> Fits(capacity, refill, old(history), now)
      ensures TightestSlack(tokens, capacity, refill, history, now)
    {
      hide Slack;
      ghost var h := history;
      var elapsed := now - last;
      LaterSlack(capacity, refill, h, last, now, tokens);
      last := now;
      tokens := tokens + elapsed * refill;
      ghost var uncapped := tokens;
      if tokens > capacity {
        tokens := capacity;
      }
      Decide(capacity, refill, h, now, uncapped, tokens);
      if tokens < 1.0 {
        ok := false;
      } else {
        tokens := tokens - 1.0;
        ok := true;
      }
      history := h + [Instant(now, ok)];
      GreedyExtends(capacity, refill, h, Instant(now, ok));
    }
  }

  lemma GreedyExtends(capacity: real, refill: real, h: seq<Instant>, c: Instant)
    requires Greedy(capacity, refill, h) && h[|h| - 1].at <= c.at
    requires c.admitted <==> Fits(capacity, refill, h, c.at)
    ensures Greedy(capacity, refill, h + [c])
  {
    var g := h + [c];
    assert g[..|h|] == h;
    assert forall n :: 1 <= n < |h| ==> g[..n] == h[..n];
  }

  /** Moving the clock forward raises every window's slack by the same refill. */
  lemma LaterSlack(capacity: real, refill: real, h: seq<Instant>, t: real, u: real, x: real)
    requires TightestSlack(x, capacity, refill, h, t)
    ensures TightestSlack(x + (u - t) * refill, capacity, refill, h, u)
  {
    hide Earned;
    Distribute(refill, t, t, u);
    forall i | 0 <= i < |h|
      ensures Slack(capacity, refill, h, i, u) == Slack(capacity, refill, h, i, t) + (u - t) * refill
    {
      Distribute(refill, h[i].at, t, u);
    }
    var k :| 0 <= k < |h| && x == Slack(capacity, refill, h, k, t);
    assert x + (u - t) * refill == Slack(capacity, refill, h, k, u);
  }

  lemma Distribute(r: real, a: real, t: real, u: real)
    ensures Earned(r, a, u) == Earned(r, a, t) + Earned(r, t, u)
    ensures Earned(r, t, u) == (u - t) * r
  {
  }

  lemma AdmissionsOfExtension(h: seq<Instant>, c: Instant, i: nat)
    requires i <= |h|
    ensures Admissions(h + [c], i) == Admissions(h, i) + if c.admitted then 1 else 0
  {
    assert (h + [c])[..|h|] == h;
    assert (h + [c])[|h|] == c;
  }

  /**
   With `level` the bucket after capping: it is at least 1 exactly when one more upload fits,
   and, with that upload taken off or not, it is the tightest slack again.
   */
  lemma Decide(capacity: real, refill: real, h: seq<Instant>, now: real, x: real, level: real)
    requires TightestSlack(x, capacity, refill, h, now) && level == if x > capacity then capacity else x
    ensures level >= 1.0 <==> Fits(capacity, refill, h, now)
    ensures TightestSlack(level, capacity, refill, h + [Instant(now, false)], now)
    ensures TightestSlack(level - 1.0, capacity, refill, h + [Instant(now, true)], now)
  {
    var k :| 0 <= k < |h| && x == Slack(capacity, refill, h, k, now);
    var tight := if x > capacity then |h| else k;
    Extend(capacity, refill, h, now, level, false, tight);
    Extend(capacity, refill, h, now, level, true, tight);
  }

  lemma Extend(capacity: real, refill: real, h: seq<Instant>, now: real, level: real, ok: bool, k: nat)
    requires forall i :: 0 <= i < |h| ==> level <= Slack(capacity, refill, h, i, now)
    requires level <= capacity && k <= |h|
    requires level == if k == |h| then capacity else Slack(capacity, refill, h, k, now)
    ensures TightestSlack(if ok then level - 1.0 else level, capacity, refill, h + [Instant(now, ok)], now)
  {
    var g := h + [Instant(now, ok)];
    var used := if ok then 1.0 else 0.0;
    forall i | 0 <= i < |g|
      ensures Slack(capacity, refill, g, i, now) ==
        (if i == |h| then capacity else Slack(capacity, refill, h, i, now)) - used
    {
      AdmissionsOfExtension(h, Instant(now, ok), i);
      assert i == |h| ==> Earned(refill, now, now) == 0.0;
    }
    assert 0 <= k < |g| && level - used == Slack(capacity, refill, g, k, now);
  }

  /** Windows never overdraw: after every instant of a greedy history, all slacks are at least zero. */
  lemma {:induction false} NoOverdraft(capacity: real, refill: real, h: seq<Instant>, i: nat)
    requires Greedy(capacity, refill, h) && refill >= 0.0 && capacity >= 1.0
    requires i < |h|
    ensures Slack(capacity, refill, h, i, h[|h| - 1].at) >= 0.0
  {
    hide Slack;
    var j := |h| - 1;
    var g, c := h[..j], h[j];
    assert h == g + [c];
    if i == j {
      NewestSlack(capacity, refill, g, c);
    } else {
      GreedyPrefix(capacity, refill, h, j);
      NoOverdraft(capacity, refill, g, i);
      SlackAfter(capacity, refill, g, c, i);
    }
  }

  lemma NewestSlack(capacity: real, refill: real, g: seq<Instant>, c: Instant)
    ensures Slack(capacity, refill, g + [c], |g|, c.at) == capacity - if c.admitted then 1.0 else 0.0
  {
    AdmissionsOfExtension(g, c, |g|);
    assert Earned(refill, c.at, c.at) == 0.0;
  }

  lemma SlackAfter(capacity: real, refill: real, g: seq<Instant>, c: Instant, i: nat)
    requires i < |g| && refill >= 0.0 && c.at >= g[|g| - 1].at
    ensures Slack(capacity, refill, g + [c], i, c.at) ==
      Slack(capacity, refill, g, i, c.at) - if c.admitted then 1.0 else 0.0
    ensures Slack(capacity, refill, g, i, c.at) >= Slack(capacity, refill, g, i, g[|g| - 1].at)
  {
    AdmissionsOfExtension(g, c, i);
    Distribute(refill, g[i].at, g[|g| - 1].at, c.at);
    assert Earned(refill, g[|g| - 1].at, c.at) >= 0.0;
  }

  /**
   Over any greedy history, the uploads admitted from instant `i` up to and including `j`
   number at most the capacity plus the refill over that stretch of time.
   */
  lemma WindowBound(capacity: real, refill: real, h: seq<Instant>, i: nat, j: nat)
    requires Greedy(capacity, refill, h) && refill >= 0.0 && capacity >= 1.0
    requires i <= j < |h|
    ensures Admissions(h[..j + 1], i) as real <= capacity + Earned(refill, h[i].at, h[j].at)
  {
    hide Earned, Greedy;
    var g := h[..j + 1];
    WindowSlack(capacity, refill, h, i, j);
    assert g[i].at == h[i].at;
  }

  lemma WindowSlack(capacity: real, refill: real, h: seq<Instant>, i: nat, j: nat)
    requires Greedy(capacity, refill, h) && refill >= 0.0 && capacity >= 1.0
    requires i <= j < |h|
    ensures Slack(capacity, refill, h[..j + 1], i, h[j].at) >= 0.0
  {
    hide Slack, Greedy;
    GreedyPrefix(capacity, refill, h, j + 1);
    NoOverdraft(capacity, refill, h[..j + 1], i);
  }

  /** The window from instant `i` to instant `j` is not overdrawn. */
  ghost predicate KeepsBound(capacity: real, refill: real, g: seq<Instant>, i: nat, j: nat)
    requires i <= j < |g|
  {
    Slack(capacity, refill, g[..j + 1], i, g[j].at) >= 0.0
  }

  /** No window of `g` is. */
  ghost predicate KeepsBounds(capacity: real, refill: real, g: seq<Instant>) {
    forall i, j :: 0 <= i <= j < |g| ==> KeepsBound(capacity, refill, g, i, j)
  }

  /** The limiter's own histories do. */
  lemma GreedyKeepsBounds(capacity: real, refill: real, h: seq<Instant>)
    requires Greedy(capacity, refill, h) && refill >= 0.0 && capacity >= 1.0
    ensures KeepsBounds(capacity, refill, h)
  {
    hide Slack, Greedy;
    forall i, j | 0 <= i <= j < |h|
      ensures KeepsBound(capacity, refill, h, i, j)
    {
      WindowSlack(capacity, refill, h, i, j);
    }
  }

  /** Admissions add up over a split of the history. */
  lemma {:induction false} AdmissionsSplit(h: seq<Instant>, i: nat)
    requires i <= |h|
    ensures Admissions(h, 0) == Admissions(h[..i], 0) + Admissions(h, i)
  {
    if i < |h| {
      assert h[..|h| - 1][..i] == h[..i];
      AdmissionsSplit(h[..|h| - 1], i);
    } else {
      assert h[..i] == h;
    }
  }

  /** Calls at the same clock readings, of which the first instant is the creation. */
  ghost predicate SameClock(g: seq<Instant>, h: seq<Instant>) {
    |g| == |h| >= 1 && !g[0].admitted && forall k :: 0 <= k < |g| ==> g[k].at == h[k].at
  }

  /**
   No limiter does better. Whatever other policy decides the same calls, even with the whole
   sequence known beforehand: if it keeps every window's bound, it has let through at no moment
   more uploads than this one. (Moments are the prefixes of the histories.)
   */
  lemma {:induction false} GreedyIsOptimal(capacity: real, refill: real, h: seq<Instant>, g: seq<Instant>)
    requires Greedy(capacity, refill, h) && capacity >= 1.0
    requires SameClock(g, h) && KeepsBounds(capacity, refill, g)
    ensures Admissions(g, 0) <= Admissions(h, 0)
    decreases |h|
  {
    hide Slack, KeepsBounds, Greedy;
    var n := |h| - 1;
    assert g == g[..n + 1] && h == h[..n + 1];
    if n > 0 {
      Earlier(capacity, refill, h, g, n);
      GreedyIsOptimal(capacity, refill, h[..n], g[..n]);
      if g[n].admitted && !h[n].admitted {
        var i := TightWindow(capacity, refill, h);
        BehindInWindow(capacity, refill, h, g, i);
        if i > 0 {
          Earlier(capacity, refill, h, g, i);
          GreedyIsOptimal(capacity, refill, h[..i], g[..i]);
        }
        AdmissionsSplit(g[..n], i);
        AdmissionsSplit(h[..n], i);
        assert g[..n][..i] == g[..i] && h[..n][..i] == h[..i];
      }
    }
  }

  /** A refusal has its reason in some window. */
  lemma TightWindow(capacity: real, refill: real, h: seq<Instant>) returns (i: nat)
    requires Greedy(capacity, refill, h) && capacity >= 1.0 && |h| > 1 && !h[|h| - 1].admitted
    ensures i < |h| - 1 && Slack(capacity, refill, h[..|h| - 1], i, h[|h| - 1].at) < 1.0
  {
    hide Slack;
    var n := |h| - 1;
    assert !Fits(capacity, refill, h[..n], h[n].at);
    i :| 0 <= i < n && Slack(capacity, refill, h[..n], i, h[n].at) < 1.0;
  }

  lemma Earlier(capacity: real, refill: real, h: seq<Instant>, g: seq<Instant>, n: nat)
    requires Greedy(capacity, refill, h) && SameClock(g, h) && KeepsBounds(capacity, refill, g)
    requires 1 <= n <= |h|
    ensures Greedy(capacity, refill, h[..n]) && SameClock(g[..n], h[..n]) && KeepsBounds(capacity, refill, g[..n])
  {
    hide Slack;
    GreedyPrefix(capacity, refill, h, n);
    forall i, j | 0 <= i <= j < n
      ensures KeepsBound(capacity, refill, g[..n], i, j)
    {
      assert KeepsBound(capacity, refill, g, i, j);
      assert g[..n][..j + 1] == g[..j + 1];
    }
  }

  /** Where `h` had to refuse for the sake of window `i`, another policy that admits was behind in that window. */
  lemma BehindInWindow(capacity: real, refill: real, h: seq<Instant>, g: seq<Instant>, i: nat)
    requires SameClock(g, h) && KeepsBounds(capacity, refill, g)
    requires i < |h| - 1 && g[|g| - 1].admitted
    requires Slack(capacity, refill, h[..|h| - 1], i, h[|h| - 1].at) < 1.0
    ensures Admissions(g[..|g| - 1], i) < Admissions(h[..|h| - 1], i)
  {
    hide Earned;
    var n := |h| - 1;
    assert g[..n + 1] == g;
    assert KeepsBound(capacity, refill, g, i, n);
    assert h[..n][i].at == g[i].at;
  }

  lemma GreedyPrefix(capacity: real, refill: real, h: seq<Instant>, n: nat)
    requires Greedy(capacity, refill, h) && 1 <= n <= |h|
    ensures Greedy(capacity, refill, h[..n])
  {
    assert forall k :: 1 <= k < n ==> h[..n][..k] == h[..k];
  }
}
