/** The retry ladder: which counter a copy carries where, and how long the rungs take. */
module Ladder {
  import opened Avatars
  import opened Keys
  import opened Pipeline
  import opened Processor
  import opened Wrappers
  import T = Topology

  /** Counted failures of one lineage lie at least 30 s and then at least 120 s apart. */
  ghost predicate Spaced(f: seq<nat>) {
    && (|f| >= 2 ==> f[1] >= f[0] + 30_000)
    && (|f| >= 3 ==> f[2] >= f[1] + 120_000)
  }

  /** A copy that can be, or is being, handled: its header counts its failures, and its last wait is over. */
  ghost predicate ActiveOk(d: Delivery, now: nat) {
    d.readable ==>
      && T.RetryCount(d.header) == |d.failures| <= 2
      && Spaced(d.failures)
      && (|d.failures| == 1 ==> now >= d.failures[0] + 30_000)
      && (|d.failures| == 2 ==> now >= d.failures[1] + 120_000)
  }

  /** A copy on a rung of the ladder, where it was put by its last counted failure. */
  ghost predicate WaitingOk(d: Delivery, count: nat, now: nat) {
    && d.readable
    && T.RetryCount(d.header) == |d.failures| == count
    && Spaced(d.failures)
    && count >= 1 && d.at == d.failures[count - 1] <= now
  }

  /** A copy that used up the ladder: three counted failures, no header. */
  ghost predicate DeadOk(d: Delivery) {
    d.readable ==>
      && |d.failures| == 3 && d.header == None
      && Spaced(d.failures)
      && d.at == d.failures[2]
  }

  ghost predicate LadderOk(s: State) {
    && (forall d :: d in s.queues.processing ==> ActiveOk(d, s.now))
    && (forall w :: 0 <= w < |s.workers| && s.workers[w].Busy? ==> ActiveOk(s.workers[w].d, s.now))
    && (forall w :: 0 <= w < |s.workers| && s.workers[w].Busy? ==>
          s.workers[w].pc != Reject && s.workers[w].pc != Hung ==> s.workers[w].d.readable)
    && (forall w :: 0 <= w < |s.workers| && s.workers[w].Busy? && s.workers[w].pc == Reject ==>
          !s.workers[w].d.readable)
    && (forall d :: d in s.queues.retry30s ==> WaitingOk(d, 1, s.now))
    && (forall d :: d in s.queues.retry2m ==> WaitingOk(d, 2, s.now))
    && (forall d :: d in s.queues.dlq ==> DeadOk(d))
  }

  /** A counted failure moves a copy up exactly one rung. */
  lemma RetryCopyOk(d: Delivery, now: nat)
    requires ActiveOk(d, now) && d.readable
    ensures var c := RetryCopy(d, now);
      match RetryTarget(d)
      case Retry30s => WaitingOk(c, 1, now)
      case Retry2m => WaitingOk(c, 2, now)
      case DLQ => DeadOk(c)
      case Processing => false
  {
  }

  lemma LadderOkWork(codec: Codec, s: State, w: nat, ok: bool, pos: nat, text: string)
    requires LadderOk(s) && Enabled(s, Work(w, ok, pos, text))
    ensures LadderOk(ApplyWork(codec, s, w, ok, pos, text))
  {
    hide RowsAfter, ObjectsAfter, ProcessedAfter, HistoryAfter, WaitingOk, DeadOk, ActiveOk, RetryCopy, RetryTarget;
    var x := s.workers[w];
    if ok && x.pc == Retry {
      RetryCopyOk(x.d, s.now);
    } else if ok && x.pc == Reject {
      UnreadableOk(x.d, s.now);
    }
  }

  lemma UnreadableOk(d: Delivery, now: nat)
    requires !d.readable
    ensures ActiveOk(d, now) && DeadOk(d.(at := now))
  {
  }

  lemma LadderOkDeliver(s: State, w: nat, i: nat)
    requires LadderOk(s) && Enabled(s, Deliver(w, i))
    ensures LadderOk(ApplyDeliver(s, w, i))
  {
    hide ActiveOk, WaitingOk, DeadOk;
    assert s.queues.processing[i] in s.queues.processing;
  }

  lemma LadderOkCrash(s: State, w: nat, pos: nat)
    requires LadderOk(s) && Enabled(s, Crash(w, pos))
    ensures LadderOk(ApplyCrash(s, w, pos))
  {
    hide ActiveOk, WaitingOk, DeadOk;
  }

  lemma LadderOkExpire(s: State, q: T.QueueName)
    requires LadderOk(s) && Enabled(s, Expire(q))
    ensures LadderOk(ApplyExpire(s, q))
  {
    var d := s.queues.Of(q)[0];
    assert d in s.queues.Of(q);
    assert ActiveOk(d.(at := s.now), s.now);
    hide ActiveOk, WaitingOk, DeadOk;
  }

  lemma LaterIsOk(s: State, dt: nat)
    requires LadderOk(s)
    ensures LadderOk(s.(now := s.now + dt))
  {
  }

  lemma LadderOkArrival(s: State, d: Delivery)
    requires LadderOk(s) && ActiveOk(d, s.now)
    ensures LadderOk(s.(queues := Push(s.queues, T.Processing, d)))
  {
  }

  lemma LadderOkStep(codec: Codec, s: State, a: Action)
    requires LadderOk(s)
    ensures LadderOk(Apply(codec, s, a))
  {
    hide ActiveOk, WaitingOk, DeadOk, ApplyWork, ApplyCrash, ApplyDeliver, ApplyExpire;
    if Enabled(s, a) {
      match a {
        case Work(w, ok, pos, text) => LadderOkWork(codec, s, w, ok, pos, text);
        case Deliver(w, i) => LadderOkDeliver(s, w, i);
        case Crash(w, pos) => LadderOkCrash(s, w, pos);
        case Expire(q) => LadderOkExpire(s, q);
        case Tick(dt) => LaterIsOk(s, dt);
        case Inject(header) =>
          var d := Delivery(false, Msg("", "", NoKey), header, [], s.now);
          UnreadableOk(d, s.now);
          LadderOkArrival(s, d);
        case PublishMsg(r, ok) =>
          FirstCopyOk(s.requests[r].msg, s.now);
          LadderOkArrival(s, FirstCopy(s.requests[r].msg, s.now));
        case _ =>
          OthersKeepWorkers(codec, s, a);
          NonPublishKeepsQueues(codec, s, a);
          ApiKeepsClock(codec, s, a);
      }
    }
  }

  lemma FirstCopyOk(m: Msg, now: nat)
    ensures ActiveOk(FirstCopy(m, now), now)
  {
  }

  lemma ApiKeepsClock(codec: Codec, s: State, a: Action)
    requires ByApi(a)
    ensures Apply(codec, s, a).now == s.now
  {
  }

  /**
   In every reachable state a copy in retry.30s carries count 1 and one in retry.2m count 2; a
   copy that can be handled carries the number of counted failures behind it, at most two; the
   dead-letter copies of readable messages have used up exactly three and lost the header.
   */
  lemma {:induction false} LadderInvariant(codec: Codec, workers: nat, acts: seq<Action>)
    ensures LadderOk(Run(codec, Init(workers), acts))
  {
    if acts != [] {
      LadderInvariant(codec, workers, acts[..|acts| - 1]);
      LadderOkStep(codec, Run(codec, Init(workers), acts[..|acts| - 1]), acts[|acts| - 1]);
    }
  }

  /**
   Backoff in time: a message enters the dead-letter queue no earlier than 150 s after its
   first counted failure, its second counted failure at least 30 s after the first, and its
   third at least 120 s after the second.
   */
  lemma {:induction false} BackoffInTime(codec: Codec, workers: nat, acts: seq<Action>, d: Delivery)
    requires d in Run(codec, Init(workers), acts).queues.dlq && d.readable
    ensures |d.failures| == 3
    ensures d.failures[1] >= d.failures[0] + 30_000 && d.failures[2] >= d.failures[1] + 120_000
    ensures d.at >= d.failures[0] + 150_000
  {
    LadderInvariant(codec, workers, acts);
  }

  /** A waiting message is due after exactly 30 s and 2 min, at the head of its queue. */
  lemma DueInTime(s: State)
    ensures Enabled(s, Expire(T.Retry30s)) <==>
      s.queues.retry30s != [] && s.now >= s.queues.retry30s[0].at + 30_000
    ensures Enabled(s, Expire(T.Retry2m)) <==>
      s.queues.retry2m != [] && s.now >= s.queues.retry2m[0].at + 120_000
  {
  }

  // ---- lineages that start with any header ----

  /** How many counted failures a copy with retry count `count` has left. Any integer will do. */
  function Rungs(count: int): nat {
    if count == 0 then 3 else if count == 1 then 2 else 1
  }

  ghost predicate OnLadder(d: Delivery) {
    |d.failures| + Rungs(T.RetryCount(d.header)) <= 3
  }

  /** No lineage has more than three counted failures, and only the dead-letter queue holds one with three. */
  ghost predicate LineagesShort(s: State) {
    && (forall q, d :: d in s.queues.Of(q) ==> if q == T.DLQ then |d.failures| <= 3 else OnLadder(d))
    && (forall w :: 0 <= w < |s.workers| && s.workers[w].Busy? ==> OnLadder(s.workers[w].d))
  }

  lemma PushKeepsShort(s: State, qs: Queues, q: T.QueueName, d: Delivery)
    requires LineagesShort(s)
    requires forall p, e :: e in qs.Of(p) ==> e in s.queues.Of(p)
    requires if q == T.DLQ then |d.failures| <= 3 else OnLadder(d)
    ensures LineagesShort(s.(queues := Push(qs, q, d)))
  {
    hide OnLadder;
    forall p, e | e in Push(qs, q, d).Of(p)
      ensures if p == T.DLQ then |e.failures| <= 3 else OnLadder(e)
    {
      assert e in qs.Of(p) || (p == q && e == d);
    }
  }

  lemma ShortQueuesAfter(s: State, x: Worker, ok: bool, pos: nat)
    requires LineagesShort(s) && x.Busy? && OnLadder(x.d) && pos <= |s.queues.processing|
    ensures LineagesShort(s.(queues := QueuesAfter(s, x, ok, pos)))
  {
    if ok && x.pc == Retry {
      PushKeepsShort(s, s.queues, RetryTarget(x.d), RetryCopy(x.d, s.now));
    } else if ok && x.pc == Reject {
      PushKeepsShort(s, s.queues, T.DLQ, x.d.(at := s.now));
    } else if ok && x.pc == Requeue {
      ShortInsert(s, pos, x.d);
    }
  }

  lemma ShortInsert(s: State, pos: nat, d: Delivery)
    requires LineagesShort(s) && OnLadder(d) && pos <= |s.queues.processing|
    ensures LineagesShort(s.(queues := s.queues.(processing := InsertAt(s.queues.processing, pos, d))))
  {
    hide OnLadder;
    var qs := s.queues.(processing := InsertAt(s.queues.processing, pos, d));
    forall p, e | e in qs.Of(p)
      ensures if p == T.DLQ then |e.failures| <= 3 else OnLadder(e)
    {
      assert e in s.queues.Of(p) || (p == T.Processing && e == d);
    }
  }

  lemma ShortWork(codec: Codec, s: State, w: nat, ok: bool, pos: nat, text: string)
    requires LineagesShort(s) && Enabled(s, Work(w, ok, pos, text))
    ensures LineagesShort(ApplyWork(codec, s, w, ok, pos, text))
  {
    hide OnLadder, QueuesAfter, RowsAfter, ObjectsAfter, ProcessedAfter, HistoryAfter;
    ShortQueuesAfter(s, s.workers[w], ok, pos);
  }

  lemma ShortDeliver(s: State, w: nat, i: nat)
    requires LineagesShort(s) && Enabled(s, Deliver(w, i))
    ensures LineagesShort(ApplyDeliver(s, w, i))
  {
    hide OnLadder;
    assert s.queues.processing[i] in s.queues.Of(T.Processing);
    var qs := s.queues.(processing := RemoveAt(s.queues.processing, i));
    assert forall p, e :: e in qs.Of(p) ==> e in s.queues.Of(p);
  }

  lemma LineagesShortStep(codec: Codec, s: State, a: Action)
    requires LineagesShort(s)
    ensures LineagesShort(Apply(codec, s, a))
  {
    hide OnLadder, ApplyWork, ApplyDeliver, InsertAt, Push;
    if Enabled(s, a) {
      match a {
        case Work(w, ok, pos, text) => ShortWork(codec, s, w, ok, pos, text);
        case Deliver(w, i) => ShortDeliver(s, w, i);
        case Crash(w, pos) => ShortInsert(s, pos, s.workers[w].d);
        case Expire(q) =>
          var d, qs := s.queues.Of(q)[0], s.queues.With(q, s.queues.Of(q)[1..]);
          assert d in s.queues.Of(q);
          SameRungs(d, s.now);
          PushKeepsShort(s, qs, T.Processing, d.(at := s.now));
        case Inject(header) =>
          var d := Delivery(false, Msg("", "", NoKey), header, [], s.now);
          FreshOnLadder(d);
          PushKeepsShort(s, s.queues, T.Processing, d);
        case PublishMsg(r, ok) =>
          FreshOnLadder(FirstCopy(s.requests[r].msg, s.now));
          PushKeepsShort(s, s.queues, T.Processing, FirstCopy(s.requests[r].msg, s.now));
        case Tick(dt) =>
        case _ =>
          OthersKeepWorkers(codec, s, a);
          NonPublishKeepsQueues(codec, s, a);
      }
    }
  }

  lemma SameRungs(d: Delivery, now: nat)
    ensures OnLadder(d.(at := now)) <==> OnLadder(d)
  {
  }

  lemma FreshOnLadder(d: Delivery)
    requires d.failures == []
    ensures OnLadder(d)
  {
  }

  /**
   Over any backlog, whatever retry counts its headers carry, negative or large ones included:
   in every run each lineage has at most three counted failures, and at most two while it can
   still be handled.
   */
  lemma {:induction false} LineagesAreShort(codec: Codec, workers: nat, backlog: Queues, acts: seq<Action>)
    requires forall q, d :: d in backlog.Of(q) ==> d.failures == []
    ensures LineagesShort(Run(codec, InitWith(workers, backlog), acts))
  {
    if acts == [] {
      forall q, d | d in backlog.Of(q) ensures OnLadder(d) { FreshOnLadder(d); }
    } else {
      LineagesAreShort(codec, workers, backlog, acts[..|acts| - 1]);
      LineagesShortStep(codec, Run(codec, InitWith(workers, backlog), acts[..|acts| - 1]), acts[|acts| - 1]);
    }
  }
}
