/**
 The circuit breaker of internal/resilience/breaker.go. The lock is released around `fn`, so
 a call is two atomic steps, `Admit` and `Complete`, that interleave freely with other calls.
 Times count from Go's zero time, so the zero `openUntil` blocks nobody.
 */
module CircuitBreaker {
  import opened Arithmetic

  /** One finished run of `fn`: when its result was recorded, and whether it was an error. */
  datatype Completion = Completion(at: nat, failed: bool)

  /** The length of the unbroken run of failures at the end of `h`. */
  function Trailing(h: seq<Completion>): (n: nat)
    ensures n <= |h|
  {
    if h == [] || !h[|h| - 1].failed then 0 else Trailing(h[..|h| - 1]) + 1
  }

  /** The failures at the end of `h` since the last success, starting over at every whole multiple of the limit. */
  function Pending(h: seq<Completion>, maxFailures: nat): nat
    requires maxFailures > 0
  {
    Trailing(h) % maxFailures
  }

  /** Completion `k` trips the breaker: it makes the run of failures a whole multiple of the limit. */
  predicate Trips(h: seq<Completion>, k: nat, maxFailures: nat)
    requires k < |h| && maxFailures > 0
  {
    h[k].failed && Pending(h[..k + 1], maxFailures) == 0
  }

  /** Whether some trip in `h` still blocks a call at time `t`. */
  ghost predicate Blocked(h: seq<Completion>, maxFailures: nat, cooldown: nat, t: nat)
    requires maxFailures > 0
  {
    exists k :: 0 <= k < |h| && Trips(h, k, maxFailures) && t < h[k].at + cooldown
  }

  ghost predicate Chronological(h: seq<Completion>) {
    forall i, j :: 0 <= i < j < |h| ==> h[i].at <= h[j].at
  }

  /** `until` is when the last trip's cooldown ends, or zero before the first trip. */
  ghost predicate OpenUntil(h: seq<Completion>, maxFailures: nat, cooldown: nat, until: nat)
    requires maxFailures > 0
  {
    && (forall k :: 0 <= k < |h| && Trips(h, k, maxFailures) ==> h[k].at + cooldown <= until)
    && (until == 0 || exists k :: 0 <= k < |h| && Trips(h, k, maxFailures) && until == h[k].at + cooldown)
  }

  class Breaker {
    const maxFailures: nat
    const cooldown: nat
    var failures: nat
    var openUntil: nat
    ghost var completions: seq<Completion>
    ghost var inFlight: nat

    /** The two fields are functions of the completion history, whatever the interleaving was. */
    ghost predicate Valid()
      reads this
    {
      && maxFailures > 0 && cooldown > 0
      && Chronological(completions)
      && failures == Pending(completions, maxFailures)
      && OpenUntil(completions, maxFailures, cooldown, openUntil)
    }

    constructor (limit: int, wait: int)
      ensures Valid() && completions == [] && inFlight == 0
      ensures maxFailures == if limit <= 0 then 5 else limit
      ensures cooldown == if wait <= 0 then 30_000_000_000 else wait
    {
      maxFailures := if limit <= 0 then 5 else limit;
      cooldown := if wait <= 0 then 30_000_000_000 else wait;
      failures, openUntil := 0, 0;
      completions, inFlight := [], 0;
    }

    /** The first locked section: `false` is the `ErrOpen` return. */
    method Admit(now: nat) returns (ok: bool)
      requires Valid()
      modifies this`inFlight
      ensures Valid()
      ensures ok <==> now >= openUntil
      ensures ok <==> !Blocked(completions, maxFailures, cooldown, now)
      ensures inFlight == old(inFlight) + if ok then 1 else 0
    {
      if now < openUntil {
        return false;
      }
      inFlight := inFlight + 1;
      return true;
    }

    /** The second locked section, for some call that was admitted earlier. */
    method Complete(now: nat, failed: bool)
      requires Valid() && inFlight > 0
      requires completions != [] ==> completions[|completions| - 1].at <= now
      modifies this
      ensures Valid() && inFlight == old(inFlight) - 1
      ensures completions == old(completions) + [Completion(now, failed)]
      ensures openUntil >= old(openUntil)
      ensures openUntil == if Trips(completions, |completions| - 1, maxFailures) then now + cooldown else old(openUntil)
    {
      hide Pending, Trips;
      ghost var h := completions;
      completions := h + [Completion(now, failed)];
      PendingOfExtension(h, Completion(now, failed), maxFailures);
      inFlight := inFlight - 1;
      if failed {
        failures := failures + 1;
        if failures >= maxFailures {
          openUntil := now + cooldown;
          failures := 0;
        }
      } else {
        failures := 0;
      }
      TripsOfExtension(h, Completion(now, failed), maxFailures);
    }

    /** `Call` without interference between its two halves. */
    method Call(start: nat, failed: bool, end: nat) returns (err: bool)
      requires Valid() && start <= end
      requires completions != [] ==> completions[|completions| - 1].at <= start
      modifies this
      ensures Valid() && inFlight == old(inFlight)
      ensures err <==> Blocked(old(completions), maxFailures, cooldown, start) || failed
      ensures completions == old(completions) +
        if Blocked(old(completions), maxFailures, cooldown, start) then [] else [Completion(end, failed)]
    {
      var ok := Admit(start);
      if !ok {
        return true;
      }
      Complete(end, failed);
      return failed;
    }
  }

  lemma PendingOfExtension(h: seq<Completion>, c: Completion, max: nat)
    requires max > 0
    ensures Pending(h, max) < max && Pending(h, max) <= |h|
    ensures Pending(h + [c], max) == if !c.failed || Pending(h, max) + 1 >= max then 0 else Pending(h, max) + 1
  {
    assert (h + [c])[..|h|] == h;
    DivideNext(Trailing(h), max);
    DivMod(Trailing(h), max);
    NonNegative(Trailing(h) / max, max);
    QuotientIs(0, max, 0);
    DivMod(0, max);
  }

  lemma TripsOfExtension(h: seq<Completion>, c: Completion, max: nat)
    requires max > 0
    ensures forall k :: 0 <= k < |h| ==> Trips(h + [c], k, max) == Trips(h, k, max)
    ensures Trips(h + [c], |h|, max) <==> c.failed && Pending(h + [c], max) == 0
  {
    hide Pending;
    var g := h + [c];
    assert g[..|h| + 1] == g;
    forall k | 0 <= k < |h|
      ensures Trips(g, k, max) == Trips(h, k, max)
    {
      assert g[..k + 1] == h[..k + 1];
    }
  }

  /** The counter stays below the limit, and counts the failures since the last success or trip. */
  lemma {:induction false} CounterIsFailuresSinceReset(h: seq<Completion>, max: nat)
    requires max > 0
    ensures var n := Pending(h, max);
      && n < max && n <= |h|
      && (forall k :: |h| - n <= k < |h| ==> h[k].failed && !Trips(h, k, max))
      && (n < |h| ==> !h[|h| - n - 1].failed || Trips(h, |h| - n - 1, max))
  {
    if h == [] {
      DivMod(0, max);
      QuotientIs(0, max, 0);
    } else {
      hide Pending, Trips;
      var m := |h| - 1;
      var g := h[..m];
      assert h == g + [h[m]];
      CounterIsFailuresSinceReset(g, max);
      PendingOfExtension(g, h[m], max);
      TripsOfExtension(g, h[m], max);
    }
  }

  // ---- A dead backend: sequential calls that all fail ----

  function AllFailed(ends: seq<nat>): (h: seq<Completion>)
    ensures |h| == |ends|
  {
    seq(|ends|, i requires 0 <= i < |ends| => Completion(ends[i], true))
  }

  /**
   The executions of `fn` in a sequential run where each of them fails: execution `i` is
   admitted at `starts[i]`, not blocked by the completions before it, and recorded at `ends[i]`.
   */
  ghost predicate DeadRun(starts: seq<nat>, ends: seq<nat>, max: nat, cooldown: nat)
    requires max > 0
  {
    && |starts| == |ends|
    && (forall i :: 0 <= i < |starts| ==> starts[i] <= ends[i])
    && (forall i :: 0 <= i < |starts| - 1 ==> ends[i] <= starts[i + 1])
    && (forall i :: 0 <= i < |starts| ==> !Blocked(AllFailed(ends)[..i], max, cooldown, starts[i]))
  }

  lemma DeadRunExtends(starts: seq<nat>, ends: seq<nat>, start: nat, end: nat, max: nat, cooldown: nat)
    requires max > 0 && DeadRun(starts, ends, max, cooldown)
    requires start <= end && (ends != [] ==> ends[|ends| - 1] <= start)
    requires !Blocked(AllFailed(ends), max, cooldown, start)
    ensures AllFailed(ends + [end]) == AllFailed(ends) + [Completion(end, true)]
    ensures DeadRun(starts + [start], ends + [end], max, cooldown)
  {
    hide Blocked;
    var n := |ends|;
    assert forall i :: 0 <= i <= n ==> AllFailed(ends + [end])[..i] == AllFailed(ends)[..i];
    assert AllFailed(ends)[..n] == AllFailed(ends);
  }

  /** One call at a time, as a health probe makes them: when it starts, and when it is over. */
  ghost predicate OneAtATime(calls: seq<(nat, nat)>) {
    && (forall i :: 0 <= i < |calls| ==> calls[i].0 <= calls[i].1)
    && (forall i, j :: 0 <= i < j < |calls| ==> calls[i].1 <= calls[j].0)
  }

  /**
   Calls of a new breaker whose backend is dead. All of them report an error, and those that
   were executed, which no other than the breaker decides, are a run as the bounds below take it.
   */
  method CallDeadBackend(b: Breaker, calls: seq<(nat, nat)>) returns (ghost starts: seq<nat>, ghost ends: seq<nat>)
    requires b.Valid() && b.completions == [] && OneAtATime(calls)
    modifies b
    ensures b.Valid() && b.completions == AllFailed(ends)
    ensures DeadRun(starts, ends, b.maxFailures, b.cooldown)
    ensures forall k :: 0 <= k < |starts| ==> (starts[k], ends[k]) in calls
  {
    hide Blocked, DeadRun, AllFailed, Chronological, OpenUntil, Pending;
    starts, ends := [], [];
    NothingRun(b.maxFailures, b.cooldown);
    for i := 0 to |calls|
      invariant b.Valid() && b.completions == AllFailed(ends)
      invariant DeadRun(starts, ends, b.maxFailures, b.cooldown) && |starts| == |ends|
      invariant forall k :: 0 <= k < |starts| ==> (starts[k], ends[k]) in calls
      invariant ends != [] && i < |calls| ==> ends[|ends| - 1] <= calls[i].0
    {
      starts, ends := CallOnce(b, calls[i].0, calls[i].1, starts, ends);
    }
  }

  /** One of those calls: it is executed, or blocked. */
  method CallOnce(b: Breaker, start: nat, end: nat, ghost starts: seq<nat>, ghost ends: seq<nat>)
    returns (ghost ranAt: seq<nat>, ghost doneAt: seq<nat>)
    requires b.Valid() && b.completions == AllFailed(ends) && start <= end
    requires DeadRun(starts, ends, b.maxFailures, b.cooldown) && |starts| == |ends|
    requires ends != [] ==> ends[|ends| - 1] <= start
    modifies b
    ensures b.Valid() && b.completions == AllFailed(doneAt)
    ensures DeadRun(ranAt, doneAt, b.maxFailures, b.cooldown) && |ranAt| == |doneAt|
    ensures (ranAt, doneAt) ==
      if Blocked(AllFailed(ends), b.maxFailures, b.cooldown, start) then (starts, ends)
      else (starts + [start], ends + [end])
  {
    hide Blocked, DeadRun, Chronological, OpenUntil, Pending;
    ranAt, doneAt := starts, ends;
    ghost var blocked := Blocked(b.completions, b.maxFailures, b.cooldown, start);
    var err := b.Call(start, true, end);
    assert err;
    if !blocked {
      DeadRunExtends(starts, ends, start, end, b.maxFailures, b.cooldown);
      ranAt, doneAt := starts + [start], ends + [end];
    }
  }

  lemma NothingRun(max: nat, cooldown: nat)
    requires max > 0
    ensures DeadRun([], [], max, cooldown) && AllFailed([]) == []
  {
  }

  lemma {:induction false} AllFailedTrailing(ends: seq<nat>, i: nat)
    requires i <= |ends|
    ensures Trailing(AllFailed(ends)[..i]) == i
  {
    if i > 0 {
      AllFailedTrailing(ends, i - 1);
      assert AllFailed(ends)[..i][..i - 1] == AllFailed(ends)[..i - 1];
    }
  }

  /** When everything fails, the trips are the executions whose number is a multiple of the limit. */
  lemma DeadRunTrips(ends: seq<nat>, i: nat, k: nat, max: nat)
    requires max > 0 && k < i <= |ends|
    ensures Trips(AllFailed(ends)[..i], k, max) <==> (k + 1) % max == 0
  {
    AllFailedTrailing(ends, k + 1);
    assert AllFailed(ends)[..i][..k + 1] == AllFailed(ends)[..k + 1];
  }

  /** An execution right after a trip waits out the cooldown; otherwise it only follows its predecessor. */
  lemma NextStart(starts: seq<nat>, ends: seq<nat>, i: nat, max: nat, cooldown: nat)
    requires max > 0 && DeadRun(starts, ends, max, cooldown) && i + 1 < |starts|
    ensures starts[i + 1] >= starts[i] + if (i + 1) % max == 0 then cooldown else 0
    ensures (i + 1) % max == 0 ==> starts[i + 1] >= ends[i] + cooldown
  {
    DeadRunTrips(ends, i + 1, i, max);
    assert !Blocked(AllFailed(ends)[..i + 1], max, cooldown, starts[i + 1]);
    assert AllFailed(ends)[..i + 1][i] == Completion(ends[i], true);
  }

  /** Between executions `p` and `q` every trip costs a cooldown. */
  lemma {:induction false} TripsTakeTime(starts: seq<nat>, ends: seq<nat>, p: nat, q: nat, max: nat, cooldown: nat)
    requires max > 0 && DeadRun(starts, ends, max, cooldown) && p <= q < |starts|
    ensures starts[q] >= starts[p] + (q / max - p / max) * cooldown
    decreases q - p
  {
    hide DeadRun;
    if p < q {
      var r := q - 1;
      TripsTakeTime(starts, ends, p, r, max, cooldown);
      NextStart(starts, ends, r, max, cooldown);
      DivideNext(r, max);
      Charge(starts[p], starts[r], starts[r + 1], r / max - p / max, (r + 1) / max - p / max, cooldown);
    }
  }

  lemma Charge(a: int, b: int, c: int, n: int, m: int, cooldown: nat)
    requires b >= a + n * cooldown
    requires (m == n && c >= b) || (m == n + 1 && c >= b + cooldown)
    ensures c >= a + m * cooldown
  {
    Distribute(n, 1, cooldown);
  }

  /** Two consecutive trips, `max` executions apart, are at least a cooldown apart. */
  lemma TripsAreCooldownApart(starts: seq<nat>, ends: seq<nat>, k: nat, max: nat, cooldown: nat)
    requires max > 0 && DeadRun(starts, ends, max, cooldown)
    requires k + max < |starts| && (k + 1) % max == 0
    ensures Trips(AllFailed(ends), k, max) && Trips(AllFailed(ends), k + max, max)
    ensures ends[k + max] >= ends[k] + cooldown
  {
    assert AllFailed(ends)[..|ends|] == AllFailed(ends);
    DeadRunTrips(ends, |ends|, k, max);
    SameRemainder(k + 1, max);
    hide Trips, Pending;
    DeadRunTrips(ends, |ends|, k + max, max);
    NextStart(starts, ends, k, max, cooldown);
    StartsAscend(starts, ends, k + 1, k + max, max, cooldown);
  }

  lemma SameRemainder(n: nat, max: nat)
    requires max > 0
    ensures (n + max) % max == n % max
  {
    DivMod(n, max);
    DivMod(n + max, max);
    Distribute(n / max, 1, max);
    QuotientIs(n + max, max, n / max + 1);
  }

  lemma {:induction false} StartsAscend(starts: seq<nat>, ends: seq<nat>, p: nat, q: nat, max: nat, cooldown: nat)
    requires max > 0 && DeadRun(starts, ends, max, cooldown) && p <= q < |starts|
    ensures starts[p] <= starts[q] <= ends[q]
    decreases q
  {
    if p < q {
      StartsAscend(starts, ends, p, q - 1, max, cooldown);
    }
  }

  /**
   A dead backend is probed rarely: executions `p..q`, all started within `window` of each
   other, number at most the failure limit times one more than the cooldowns that fit.
   */
  lemma DeadBackendBound(starts: seq<nat>, ends: seq<nat>, p: nat, q: nat, window: nat, max: nat, cooldown: nat)
    requires max > 0 && cooldown > 0 && DeadRun(starts, ends, max, cooldown)
    requires p <= q < |starts| && starts[q] - starts[p] <= window
    ensures q - p + 1 <= max * (window / cooldown + 1)
  {
    TripsTakeTime(starts, ends, p, q, max, cooldown);
    var trips := q / max - p / max;
    AtMostQuotient(trips, cooldown, window);
    Span(p, q, max, window / cooldown);
  }

  lemma AtMostQuotient(n: int, d: nat, total: nat)
    requires d > 0 && n * d <= total
    ensures n <= total / d
  {
    QuotientIs(total, d, total / d);
    MultiplesApart(total / d, n, d);
  }

  /** Indices whose quotients differ by at most `f` span at most `f + 1` blocks. */
  lemma Span(p: nat, q: nat, max: nat, f: nat)
    requires max > 0 && q / max - p / max <= f
    ensures q - p + 1 <= max * (f + 1)
  {
    var a, b := p / max, q / max;
    QuotientIs(p, max, a);
    QuotientIs(q, max, b);
    MultiplesApart(b, a + f, max);
    Distribute(a, f, max);
    Distribute(f, 1, max);
    assert max * (f + 1) == (f + 1) * max;
  }
}
