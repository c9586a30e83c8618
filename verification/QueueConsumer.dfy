/**
 `handleDelivery` and the consumer loop of internal/queue/consumer.go, with
 `SendToRetry` of internal/queue/retry.go.
 */
module QueueConsumer {
  import opened Avatars
  import opened EndToEnd
  import opened HandlerAccount
  import opened Keys
  import opened Pipeline
  import opened Processor
  import opened Storage
  import opened Termination
  import opened WorkerService
  import opened World
  import C = Conservation
  import T = Topology

  lemma RequeueCall(codec: Codec, s: State, x: Worker, ok: bool, pos: nat)
    requires x.Busy? && x.pc == Requeue && pos <= |s.queues.processing|
    ensures QueuesAfter(s, x, ok, pos) ==
      if ok then s.queues.(processing := InsertAt(s.queues.processing, pos, x.d)) else s.queues
    ensures NextWorker(codec, s, x, ok) == if ok then Idle else x.(pc := Hung)
  {
  }

  lemma AfterDelivery(codec: Codec, s: State, f: nat)
    requires s.workers == [Idle] && s.queues.processing != []
    ensures var d, t := s.queues.processing[0], Apply(codec, s, Deliver(0, 0));
      && t.rows == s.rows && t.processed == s.processed && t.objects == s.objects && t.now == s.now
      && t.queues == s.queues.(processing := RemoveAt(s.queues.processing, 0))
      && t.workers == [Busy(d, if d.readable then Check else Reject, NO_PICTURE)]
      && Unacked(s.workers) == map[] && Unacked(t.workers) == map[0 := d]
    ensures Lower(f, Apply(codec, s, Deliver(0, 0)), f, s)
  {
    StepWeight(codec, s, Deliver(0, 0));
    hide Phi;
  }

  lemma AfterRestart(codec: Codec, s: State, pos: nat, f: nat)
    requires |s.workers| == 1 && s.workers[0].Busy? && pos <= |s.queues.processing|
    requires s.workers[0].pc == Hung || s.workers[0].pc == HungRetried
    ensures var t := Apply(codec, s, Crash(0, pos));
      && t.rows == s.rows && t.processed == s.processed && t.objects == s.objects && t.now == s.now
      && t.queues == s.queues.(processing := InsertAt(s.queues.processing, pos, s.workers[0].d))
      && t.workers == [Idle] && Unacked(t.workers) == Unacked(s.workers) - {0}
      && Unacked(s.workers) == map[0 := s.workers[0].d]
    ensures Lower(f, Apply(codec, s, Crash(0, pos)), f, s)
  {
    hide Phi, InsertAt;
  }

  lemma AfterExpiry(codec: Codec, s: State, time: nat, q: T.QueueName, f: nat)
    requires (q == T.Retry30s || q == T.Retry2m) && s.queues.Of(q) != [] && time == s.queues.Of(q)[0].at + T.Ttl(q)
    ensures var t := Apply(codec, s, Tick(time));
      && Enabled(t, Expire(q)) && Apply(codec, t, Expire(q)).workers == s.workers
      && Lower(f, Apply(codec, t, Expire(q)), f, s)
  {
    hide Apply, Phi;
    var t := Apply(codec, s, Tick(time));
    OnlyTime(codec, s, time);
    OnlyExpires(codec, t, q);
    StepWeight(codec, s, Tick(time));
    StepWeight(codec, t, Expire(q));
  }

  lemma HeldIsUnacked(workers: seq<Worker>, w: nat)
    requires w < |workers| && workers[w].Busy?
    ensures w in Unacked(workers) && Unacked(workers)[w] == workers[w].d
  {
  }

  /** A single worker is idle if nothing of it is unacknowledged. */
  lemma NothingUnacked(x: Worker)
    ensures Unacked([x]) == map[] <==> x.Idle?
    ensures 0 in Unacked([x]) <==> x.Busy?
  {
    assert x.Busy? ==> 0 in Unacked([x]);
  }

  /**
   What handling an unmarked message comes to when no call fails. If its source is a picture:
   the row, if there is one, is ready with it, both objects are in place, the source is gone and
   the id is marked. If not: the row says failed, with a text, and a copy with the next retry
   count is where the ladder puts it.
   */
  ghost predicate Handled(codec: Codec, s: State, t: State, w: nat, d: Delivery) {
    && w < |s.workers| && t.workers == s.workers[w := Idle] && t.requests == s.requests && t.now == s.now
    && if SourceProcesses(codec, s, d.msg) then
         var p := SourcePicture(codec, s, d.msg);
         && t.rows == MarkRowReady(Begun(s, d.msg), d.msg.user, p.info)
         && t.objects == BothPut(s, d.msg, p) - {d.msg.stagingKey}
         && t.processed == s.processed + {d.msg.id} && t.queues == s.queues
       else
         && RowFailed(s, t, d.msg) && t.objects == s.objects && t.processed == s.processed
         && t.queues == Push(s.queues, RetryTarget(d), RetryCopy(d, s.now))
  }

  /**
   What any delivery comes to when no call fails: an unparsable one is dead-lettered, one that
   is marked already is forgotten, and every other one is handled.
   */
  ghost predicate Delivered(codec: Codec, s: State, t: State, w: nat, d: Delivery) {
    if d.readable && d.msg.id !in s.processed then Handled(codec, s, t, w, d)
    else
      && w < |s.workers| && t.workers == s.workers[w := Idle] && t.requests == s.requests && t.now == s.now
      && t.rows == s.rows && t.objects == s.objects && t.processed == s.processed
      && t.queues == if d.readable then s.queues else Push(s.queues, T.DLQ, d.(at := s.now))
  }

  lemma DeliveredFrees(codec: Codec, s: State, t: State, w: nat, d: Delivery)
    requires Delivered(codec, s, t, w, d)
    ensures w < |s.workers| && t.workers == s.workers[w := Idle]
  {
    hide Process;
  }

  lemma HandledByCalls(codec: Codec, s: State, h: State, q: State, t: State, w: nat, d: Delivery, call: Action,
      ack: Action)
    requires Elsewhere(s, h, w) && s.workers[w].Busy? && s.workers[w].d == d
    requires h.workers[w].Busy? && h.workers[w].d == d
    requires h.workers[w].pc == Retry || h.workers[w].pc == Mark
    requires h.workers[w].pc == Retry ==> Erred(codec, s, h, d.msg, 0)
    requires h.workers[w].pc == Mark ==> Succeeded(codec, s, h, d.msg, 0)
    requires call.Work? && call.w == w && call.ok && Enabled(h, call) && q == Apply(codec, h, call)
    requires ack.Work? && ack.w == w && ack.ok && Enabled(q, ack) && t == Apply(codec, q, ack)
    ensures Handled(codec, s, t, w, d)
  {
    hide Apply, Process, Enabled, RowsAfter, ObjectsAfter, Push, RetryCopy, RetryTarget, Pipeline.UpdateStatus;
    EffectOfCall(codec, h, w, true, call.pos, call.text);
    EffectOfCall(codec, q, w, true, ack.pos, ack.text);
    assert t.workers == s.workers[w := Idle];
  }

  lemma HandledFromCheck(codec: Codec, s: State, h: State, t: State, w: nat, d: Delivery)
    requires w < |s.workers| && |h.workers| == |s.workers| && h.workers == s.workers[w := h.workers[w]]
    requires h.rows == s.rows && h.objects == s.objects && h.processed == s.processed && h.queues == s.queues
    requires h.requests == s.requests && h.now == s.now
    requires Handled(codec, h, t, w, d)
    ensures Handled(codec, s, t, w, d)
  {
    hide Process, Pipeline.UpdateStatus, MarkRowReady, Push, RetryCopy, RetryTarget;
    assert t.workers == s.workers[w := Idle];
    if !SourceProcesses(codec, h, d.msg) {
      var text :| text != "" && t.rows == Pipeline.UpdateStatus(h.rows, d.msg.user, Failed, text);
      assert RowFailed(s, t, d.msg);
    }
  }

  /** From trace `a` to trace `b`, only quiet actions. */
  ghost predicate QuietSince(a: seq<Action>, b: seq<Action>) {
    a <= b && forall i :: |a| <= i < |b| ==> Quiet(b[i])
  }

  lemma WorkIsQuiet(a: seq<Action>, b: seq<Action>, c: seq<Action>)
    requires b == a + [Deliver(0, 0)] && b <= c
    requires forall i :: |b| <= i < |c| ==> c[i].Work? && Progresses(c[i])
    ensures QuietSince(a, c)
  {
    assert c[|a|] == Deliver(0, 0);
  }

  /** In a run without faults the worker never hangs. */
  lemma CalmWorkerIsIdle(codec: Codec, acts: seq<Action>)
    requires AllBenign(codec, acts)
    requires var x := Run(codec, Init(1), acts).workers;
      |x| == 1 && (x[0].Busy? ==> x[0].pc == Hung || x[0].pc == HungRetried)
    ensures Run(codec, Init(1), acts).workers == [Idle]
  {
    hide Run, AllBenign, StagingNeeded, ShowsLast, RowsAwaited;
    BenignRunsAreCalm(codec, acts);
  }

  lemma QuietIsBenign(codec: Codec, acts: seq<Action>, more: seq<Action>)
    requires AllBenign(codec, acts) && forall i :: 0 <= i < |more| ==> Quiet(more[i])
    ensures AllBenign(codec, acts + more)
  {
  }

  class Consumer {
    const world: World
    const service: Service

    constructor (world: World)
      ensures this.world == world && service.world == world && fresh(service)
    {
      this.world := world;
      service := new Service(world);
    }

    ghost predicate Ready(w: nat, d: Delivery, pc: Pc)
      reads world, world.db, world.store, world.channel
    {
      service.world == world && world.Valid() && world.WorkerAt(w, d, pc)
    }

    /** After a delivery: the worker is free, or it hangs on an acknowledgement that failed. */
    ghost predicate Released(w: nat)
      reads world
    {
      w < |world.st.workers| &&
      (world.st.workers[w].Busy? ==> world.st.workers[w].pc == Hung || world.st.workers[w].pc == HungRetried)
    }

    /** One call of worker `w` was made since the old state, after whatever the others did. */
    twostate predicate Called(w: nat)
      reads world
    {
      && Advance(world.solo, world.bounded, w, old(world.Now()), world.Now())
      && (world.solo ==> CalledAlone(world.codec, w, old(world.Now()), world.Now()))
    }

    method IsProcessed(ghost w: nat, ghost d: Delivery, id: MsgId) returns (ok: bool, processed: bool)
      requires Ready(w, d, Check) && id == d.msg.id
      modifies world, world.db, world.store, world.channel
      ensures world.Valid() && Called(w)
      ensures world.WorkerAt(w, d, if !ok then Requeue else if processed then AckDone else Start)
    {
      hide Apply, RowsAfter, ObjectsAfter, QueuesAfter, C.IdsFresh, SqlRows, Lower, Process, Advance,
        CalledAlone, NotBy, Failures;
      var up := world.Turn(AWorker(w));
      ghost var s, before := world.st, world.trace;
      ok, processed := world.db.IsMessageProcessed(id, up);
      world.Record(Work(w, ok, 0, "-"));
      EffectOfCall(world.codec, s, w, ok, 0, "-");
      CallAdvances(world.codec, world.solo, world.bounded, w, old(world.Now()), before, s, world.Now(),
        Work(w, ok, 0, "-"));
    }

    method MarkProcessed(ghost w: nat, ghost d: Delivery, id: MsgId) returns (ok: bool)
      requires Ready(w, d, Mark) && id == d.msg.id
      modifies world, world.db, world.store, world.channel
      ensures world.Valid() && Called(w)
      ensures world.WorkerAt(w, d, if ok then AckDone else Requeue)
    {
      hide Apply, RowsAfter, ObjectsAfter, QueuesAfter, C.IdsFresh, SqlRows, Lower, Process, Advance,
        CalledAlone, NotBy, Failures;
      var up := world.Turn(AWorker(w));
      ghost var s, before, t := world.st, world.trace, world.db.Contents();
      ok := world.db.MarkMessageProcessed(id, world.now, up);
      world.Record(Work(w, ok, 0, "-"));
      SameRows(t, world.db.Contents());
      EffectOfCall(world.codec, s, w, ok, 0, "-");
      CallAdvances(world.codec, world.solo, world.bounded, w, old(world.Now()), before, s, world.Now(),
        Work(w, ok, 0, "-"));
    }

    lemma SameRows(t: Tables, v: Tables)
      requires t.avatars == v.avatars
      ensures SqlRows(t) == SqlRows(v)
    {
    }

    /** `SendToRetry`: the target comes from the ladder, and the broker's routing takes it to one queue. */
    method SendToRetry(ghost w: nat, d: Delivery, retryCount: int) returns (ok: bool)
      requires Ready(w, d, Retry) && retryCount == T.RetryCount(d.header) + 1
      modifies world, world.db, world.store, world.channel
      ensures world.Valid() && Called(w)
      ensures world.WorkerAt(w, d, if ok then AckRetried else Requeue)
    {
      hide Apply, RowsAfter, ObjectsAfter, C.IdsFresh, SqlRows, Lower, Process, PublishTo, T.SendToRetry,
        T.RetryHeader, T.Route, T.Declared, Advance, CalledAlone, NotBy, Failures;
      var up := world.Turn(AWorker(w));
      ghost var s, before := world.st, world.trace;
      var p := T.SendToRetry(retryCount);
      var copy := Delivery(d.readable, d.msg, p.header, d.failures + [world.now], world.now);
      ok := world.channel.Publish(p.exchange, p.key, copy, up);
      T.RetryReachesOneQueue(retryCount);
      RoutesOfThePipeline(s.queues, copy, retryCount);
      world.Record(Work(w, ok, 0, "-"));
      EffectOfCall(world.codec, s, w, ok, 0, "-");
      CallAdvances(world.codec, world.solo, world.bounded, w, old(world.Now()), before, s, world.Now(),
        Work(w, ok, 0, "-"));
    }

    method Ack(w: nat, ghost d: Delivery, ghost done: bool)
      requires Ready(w, d, if done then AckDone else AckRetried)
      modifies world, world.db, world.store, world.channel
      ensures world.Valid() && Called(w) && Released(w)
    {
      hide Apply, RowsAfter, ObjectsAfter, QueuesAfter, C.IdsFresh, SqlRows, Lower, Process, Unacked, Advance,
        CalledAlone, NotBy, Failures;
      var up := world.Turn(AWorker(w));
      ghost var s, before := world.st, world.trace;
      var ok := world.channel.Ack(w, up);
      world.Record(Work(w, ok, 0, "-"));
      EffectOfCall(world.codec, s, w, ok, 0, "-");
      CallAdvances(world.codec, world.solo, world.bounded, w, old(world.Now()), before, s, world.Now(),
        Work(w, ok, 0, "-"));
    }

    /** Nack with requeue; where in its queue the delivery lands is the broker's choice. */
    method NackRequeue(w: nat, ghost d: Delivery)
      requires Ready(w, d, Requeue)
      modifies world, world.db, world.store, world.channel
      ensures world.Valid() && Called(w) && Released(w)
    {
      hide Apply, RowsAfter, ObjectsAfter, C.IdsFresh, SqlRows, Lower, Process, PublishTo, QueuesAfter,
        NextWorker, InsertAt, Unacked, Advance, CalledAlone, NotBy, Failures;
      var up := world.Turn(AWorker(w));
      ghost var s, before := world.st, world.trace;
      HeldIsUnacked(s.workers, w);
      var pos: nat :| pos <= |world.channel.queues.processing|;
      var ok := world.channel.Nack(w, true, pos, world.now, up);
      RequeueCall(world.codec, s, s.workers[w], ok, pos);
      world.Record(Work(w, ok, pos, "-"));
      EffectOfCall(world.codec, s, w, ok, pos, "-");
      CallAdvances(world.codec, world.solo, world.bounded, w, old(world.Now()), before, s, world.Now(),
        Work(w, ok, pos, "-"));
    }

    /** Nack without requeue, for a body that does not parse: dead-lettered by the processing queue's arguments. */
    method NackReject(w: nat, ghost d: Delivery)
      requires Ready(w, d, Reject)
      modifies world, world.db, world.store, world.channel
      ensures world.Valid() && Called(w) && Released(w)
    {
      hide Apply, RowsAfter, ObjectsAfter, C.IdsFresh, SqlRows, Lower, Process, PublishTo, Unacked, Advance,
        CalledAlone, NotBy, Failures;
      var up := world.Turn(AWorker(w));
      ghost var s, before := world.st, world.trace;
      HeldIsUnacked(s.workers, w);
      RoutesOfThePipeline(s.queues, d.(at := world.now), 0);
      var ok := world.channel.Nack(w, false, 0, world.now, up);
      world.Record(Work(w, ok, 0, "-"));
      EffectOfCall(world.codec, s, w, ok, 0, "-");
      CallAdvances(world.codec, world.solo, world.bounded, w, old(world.Now()), before, s, world.Now(),
        Work(w, ok, 0, "-"));
    }

    /**
     `handleDelivery`: whatever the others do meanwhile, one delivery is taken through a run of
     the machine to its acknowledgement, by success, skip, republish, reject or requeue. Alone,
     and when no call fails, it comes to what `Delivered` says.
     */
    method HandleDelivery(w: nat, d: Delivery)
      requires Ready(w, d, if d.readable then Check else Reject)
      modifies world, world.db, world.store, world.channel
      ensures world.Valid() && Released(w)
      ensures Advance(world.solo, world.bounded, w, old(world.Now()), world.Now())
      ensures world.solo && world.faultsLeft == old(world.faultsLeft) ==>
        Delivered(world.codec, old(world.st), world.st, w, d)
    {
      hide World.Valid, NextWorker, Apply, Advance, CalledAlone, Handled, Delivered;
      ghost var a := world.Now();
      if !d.readable {
        NackReject(w, d);
        Rejected(w, d, a);
        return;
      }
      var ok, processed := IsProcessed(w, d, d.msg.id);
      ghost var b := world.Now();
      if !ok {
        NackRequeue(w, d);
      } else if processed {
        Ack(w, d, true);
      } else {
        HandleUnprocessed(w, d);
      }
      AdvanceFurther(world.solo, world.bounded, w, a, b, world.Now());
      Concludes(w, d, a, b, ok, processed);
    }

    lemma Rejected(w: nat, d: Delivery, a: Point)
      requires w < |a.st.workers| && a.st.workers[w].Busy? && a.st.workers[w].d == d && a.st.workers[w].pc == Reject
      requires !d.readable && (world.solo ==> CalledAlone(world.codec, w, a, world.Now()))
      ensures world.solo && world.faultsLeft == a.faultsLeft ==> Delivered(world.codec, a.st, world.st, w, d)
    {
      hide Apply;
      if world.solo && world.faultsLeft == a.faultsLeft {
        var act := world.trace[|a.trace|];
        EffectOfCall(world.codec, a.st, w, act.ok, act.pos, act.text);
      }
    }

    /** From the check at point `a`, by way of point `b`, to now. */
    lemma Concludes(w: nat, d: Delivery, a: Point, b: Point, ok: bool, processed: bool)
      requires w < |a.st.workers| && a.st.workers[w].Busy? && a.st.workers[w].d == d && a.st.workers[w].pc == Check
      requires d.readable && Advance(world.solo, world.bounded, w, a, b)
      requires Advance(world.solo, world.bounded, w, b, world.Now())
      requires w < |b.st.workers| && b.st.workers[w].Busy? && b.st.workers[w].d == d
      requires b.st.workers[w].pc == if !ok then Requeue else if processed then AckDone else Start
      requires world.solo ==> CalledAlone(world.codec, w, a, b)
      requires world.solo && (!ok || processed) ==> CalledAlone(world.codec, w, b, world.Now())
      requires world.solo && ok && !processed && world.faultsLeft == b.faultsLeft ==>
        Handled(world.codec, b.st, world.st, w, d)
      ensures world.solo && world.faultsLeft == a.faultsLeft ==> Delivered(world.codec, a.st, world.st, w, d)
    {
      hide Apply, Process;
      if world.solo && world.faultsLeft == a.faultsLeft {
        var check := b.trace[|a.trace|];
        EffectOfCall(world.codec, a.st, w, check.ok, check.pos, check.text);
        if processed {
          var ack := world.trace[|b.trace|];
          EffectOfCall(world.codec, b.st, w, ack.ok, ack.pos, ack.text);
        } else {
          HandledFromCheck(world.codec, a.st, b.st, world.st, w, d);
        }
      }
    }

    /** The handler, and what its outcome leads to. */
    method HandleUnprocessed(w: nat, d: Delivery)
      requires Ready(w, d, Start)
      modifies world, world.db, world.store, world.channel
      ensures world.Valid() && Released(w)
      ensures Advance(world.solo, world.bounded, w, old(world.Now()), world.Now())
      ensures world.solo && world.faultsLeft == old(world.faultsLeft) ==>
        Handled(world.codec, old(world.st), world.st, w, d)
    {
      hide World.Valid, NextWorker, Apply, Advance, CalledAlone, Erred, Succeeded, Elsewhere, Handled;
      ghost var a := world.Now();
      var err := service.Handle(w, d, d.msg);
      ghost var b := world.Now();
      var ok;
      if err {
        ok := SendToRetry(w, d, T.RetryCount(d.header) + 1);
      } else {
        ok := MarkProcessed(w, d, d.msg.id);
      }
      AdvanceFurther(world.solo, world.bounded, w, a, b, world.Now());
      ghost var c := world.Now();
      if !ok {
        NackRequeue(w, d);
      } else {
        Ack(w, d, !err);
      }
      AdvanceFurther(world.solo, world.bounded, w, a, c, world.Now());
      Settles(w, d, a, b, c, err);
    }

    /** From the handler's end at point `b`, by way of point `c`, to now. */
    lemma Settles(w: nat, d: Delivery, a: Point, b: Point, c: Point, err: bool)
      requires w < |a.st.workers| && a.st.workers[w].Busy? && a.st.workers[w].d == d
      requires Advance(world.solo, world.bounded, w, a, b) && Advance(world.solo, world.bounded, w, b, c)
      requires Advance(world.solo, world.bounded, w, c, world.Now())
      requires w < |b.st.workers| && b.st.workers[w].Busy? && b.st.workers[w].d == d
      requires b.st.workers[w].pc == if err then Retry else Mark
      requires w < |c.st.workers| && c.st.workers[w].Busy? && c.st.workers[w].d == d
      requires world.solo ==>
        && Elsewhere(a.st, b.st, w) && CalledAlone(world.codec, w, b, c) && CalledAlone(world.codec, w, c, world.Now())
        && (err ==> Erred(world.codec, a.st, b.st, d.msg, a.faultsLeft - b.faultsLeft))
        && (!err ==> Succeeded(world.codec, a.st, b.st, d.msg, a.faultsLeft - b.faultsLeft))
      ensures world.solo && world.faultsLeft == a.faultsLeft ==> Handled(world.codec, a.st, world.st, w, d)
    {
      hide Apply, Process, Erred, Succeeded, Handled;
      if world.solo && world.faultsLeft == a.faultsLeft {
        var call, ack := c.trace[|b.trace|], world.trace[|c.trace|];
        HandledByCalls(world.codec, a.st, b.st, c.st, world.st, w, d, call, ack);
      }
    }

    // ---- the loop, for one worker, with the API at work beside it ----

    /** The next delivery arrives. */
    method Receive() returns (d: Delivery)
      requires world.Valid() && |world.st.workers| == 1 && world.st.workers[0].Idle?
      requires world.channel.queues.processing != []
      modifies world, world.db, world.store, world.channel
      ensures world.Valid() && world.WorkerAt(0, d, if d.readable then Check else Reject)
      ensures world.trace == old(world.trace) + [Deliver(0, 0)] && world.faultsLeft == old(world.faultsLeft)
      ensures |world.st.workers| == 1
      ensures Lower(world.faultsLeft, world.st, old(world.faultsLeft), old(world.st))
    {
      hide Apply, C.IdsFresh, SqlRows, Lower, Unacked;
      ghost var s := world.st;
      AfterDelivery(world.codec, s, world.faultsLeft);
      d := world.channel.Get(0);
      world.Record(Deliver(0, 0));
    }

    /** The process ends after a failed acknowledgement; the broker requeues, and a new process starts. */
    method Restart()
      requires world.Valid() && |world.st.workers| == 1 && Released(0) && world.st.workers[0].Busy?
      modifies world, world.db, world.store, world.channel
      ensures world.Valid() && old(world.trace) <= world.trace && |world.st.workers| == 1 && Released(0)
      ensures Lower(world.faultsLeft, world.st, old(world.faultsLeft), old(world.st))
    {
      hide Apply, C.IdsFresh, SqlRows, Lower, PublishTo, InsertAt;
      ghost var s := world.st;
      var pos: nat :| pos <= |world.channel.queues.processing|;
      AfterRestart(world.codec, s, pos, world.faultsLeft);
      var ok := world.channel.Nack(0, true, pos, world.now, true);
      world.Record(Crash(0, pos));
    }

    /** Time passes. */
    method Wait(time: nat)
      requires world.Valid()
      modifies world
      ensures world.Valid() && world.trace == old(world.trace) + [Tick(time)]
      ensures world.st == Apply(world.codec, old(world.st), Tick(time)) && world.faultsLeft == old(world.faultsLeft)
    {
      hide Apply, C.IdsFresh, SqlRows, Unacked;
      OnlyTime(world.codec, world.st, time);
      world.now := world.now + time;
      world.Record(Tick(time));
    }

    /** The head of a retry queue is dead-lettered back to processing. */
    method ExpireRetry(q: T.QueueName)
      requires world.Valid() && Enabled(world.st, Expire(q))
      modifies world, world.channel
      ensures world.Valid() && world.trace == old(world.trace) + [Expire(q)]
      ensures world.st == Apply(world.codec, old(world.st), Expire(q)) && world.faultsLeft == old(world.faultsLeft)
    {
      hide Apply, C.IdsFresh, SqlRows, Unacked, PublishTo;
      ghost var s := world.st;
      OnlyExpires(world.codec, s, q);
      ghost var d := world.channel.queues.Of(q)[0];
      world.channel.ExpireHead(q, world.now);
      RoutesOfThePipeline(s.queues.With(q, s.queues.Of(q)[1..]), d.(at := world.now), 0);
      world.Record(Expire(q));
    }

    /** Nothing to handle: time passes until the head of a retry queue expires. */
    method AwaitRetry(q: T.QueueName)
      requires world.Valid() && |world.st.workers| == 1 && Released(0)
      requires (q == T.Retry30s || q == T.Retry2m) && world.channel.queues.Of(q) != []
      modifies world, world.db, world.store, world.channel
      ensures world.Valid() && old(world.trace) <= world.trace && |world.st.workers| == 1 && Released(0)
      ensures world.faultsLeft == old(world.faultsLeft) && QuietSince(old(world.trace), world.trace)
      ensures world.st.workers == old(world.st).workers
      ensures Lower(world.faultsLeft, world.st, old(world.faultsLeft), old(world.st))
    {
      hide Apply, C.IdsFresh, SqlRows, Lower, PublishTo, Unacked, Run, Enabled;
      ghost var s := world.st;
      var time := world.channel.queues.Of(q)[0].at + T.Ttl(q);
      AfterExpiry(world.codec, s, time, q, world.faultsLeft);
      Wait(time);
      ExpireRetry(q);
    }

    method ReceiveAndHandle()
      requires service.world == world && world.Valid() && world.bounded && |world.st.workers| == 1
      requires world.st.workers[0].Idle? && world.channel.queues.processing != []
      modifies world, world.db, world.store, world.channel
      ensures world.Valid() && |world.st.workers| == 1 && Released(0) && GoesOn(old(world.Now()), world.Now())
      ensures Lower(world.faultsLeft, world.st, old(world.faultsLeft), old(world.st))
    {
      hide World.Valid, Lower, NextWorker, Phi, Handled, Failures;
      ghost var a := world.Now();
      var d := Receive();
      ghost var b := world.Now();
      HandleDelivery(0, d);
      LowerTransitive(world.faultsLeft, world.st, b.faultsLeft, b.st, a.faultsLeft, a.st);
      if world.solo && world.faultsLeft == a.faultsLeft {
        WorkIsQuiet(a.trace, b.trace, world.trace);
        DeliveredFrees(world.codec, b.st, world.st, 0, d);
      }
    }

    /**
     From point `a` to point `b`; alone and with nothing failing, only quiet actions, and the worker
     is free after.
     */
    ghost predicate GoesOn(a: Point, b: Point) {
      && a.trace <= b.trace && b.faultsLeft <= a.faultsLeft
      && (world.solo && b.faultsLeft == a.faultsLeft && a.st.workers == [Idle] ==>
            QuietSince(a.trace, b.trace) && b.st.workers == [Idle])
    }

    /** Point `a` was reached without faults and without a DELETE, no request was left, and nothing disturbed since. */
    ghost predicate CalmSince(a: Point)
      reads world
    {
      && world.origin == Init(1) && AllBenign(world.codec, a.trace) && a.st.requests == map[]
      && world.solo && world.faultsLeft == a.faultsLeft
    }

    /**
     `Consume` until there is nothing left: with any backlog, any retry headers in it and any
     bounded number of disturbances (failing calls, and bursts of uploads, deletes and broker
     actions of any length between two calls), the loop ends with the queues drained. After any
     run without faults and without a DELETE, and without a disturbance, every user with an
     accepted upload then shows the picture of the last message published for that user.
     */
    method Drain()
      requires service.world == world && world.Valid() && world.bounded && |world.st.workers| == 1 && Released(0)
      modifies world, world.db, world.store, world.channel
      ensures world.Valid() && old(world.trace) <= world.trace
      ensures world.channel.unacked == map[]
      ensures world.channel.queues.processing == []
      ensures world.channel.queues.retry30s == [] && world.channel.queues.retry2m == []
      ensures Drained(world.st)
      ensures world.solo && world.faultsLeft == old(world.faultsLeft) && old(world.st).workers == [Idle] ==>
        QuietSince(old(world.trace), world.trace)
      ensures CalmSince(old(world.Now())) ==> AllShown(world.codec, world.st)
    {
      hide World.Valid, Phi, Run, AllShown, AllBenign;
      ghost var a := world.Now();
      RunSoFar();
      while world.channel.unacked != map[] || world.channel.queues.processing != [] ||
            world.channel.queues.retry30s != [] || world.channel.queues.retry2m != []
        invariant world.Valid() && |world.st.workers| == 1 && Released(0)
        invariant GoesOn(a, world.Now())
        decreases world.faultsLeft, HungFlag(world.st), Phi(world.st)
      {
        ghost var b := world.Now();
        DoNext();
        GoesOnFurther(a, b, world.Now());
      }
      NothingLeft();
      ShownAtTheEnd(a);
    }

    /** One turn of the loop, after whatever the others do before it. */
    method DoNext()
      requires service.world == world && world.Valid() && world.bounded && |world.st.workers| == 1 && Released(0)
      requires world.channel.unacked != map[] || world.channel.queues.processing != [] ||
        world.channel.queues.retry30s != [] || world.channel.queues.retry2m != []
      modifies world, world.db, world.store, world.channel
      ensures world.Valid() && |world.st.workers| == 1 && Released(0) && GoesOn(old(world.Now()), world.Now())
      ensures Lower(world.faultsLeft, world.st, old(world.faultsLeft), old(world.st))
    {
      hide C.IdsFresh, Phi, NextWorker, SqlRows, Run, Apply, HungFlag, Unacked;
      ghost var s := world.st;
      ghost var others := world.Interfere(AWorker(0));
      OthersKeepMyPlace(world.codec, s, others, AWorker(0));
      NoActions(world.codec, s);
      NothingUnacked(world.st.workers[0]);
      assert world.st.workers == [world.st.workers[0]];
      if 0 in world.channel.unacked {
        Restart();
      } else if world.channel.queues.processing != [] {
        ReceiveAndHandle();
      } else if world.channel.queues.retry30s != [] || world.channel.queues.retry2m != [] {
        AwaitRetry(if world.channel.queues.retry30s != [] then T.Retry30s else T.Retry2m);
      }
    }

    lemma GoesOnFurther(a: Point, b: Point, c: Point)
      requires GoesOn(a, b) && GoesOn(b, c)
      ensures GoesOn(a, c)
    {
      hide Quiet;
      assert forall i :: 0 <= i < |b.trace| ==> c.trace[i] == b.trace[i];
    }

    /** What the end-to-end theorem says of the point where the loop ends. */
    lemma ShownAtTheEnd(a: Point)
      requires world.Valid() && Drained(world.st) && GoesOn(a, world.Now())
      requires |a.st.workers| == 1 && a.st == Run(world.codec, world.origin, a.trace)
      requires a.st.workers[0].Busy? ==> a.st.workers[0].pc == Hung || a.st.workers[0].pc == HungRetried
      ensures CalmSince(a) ==> AllShown(world.codec, world.st)
    {
      hide AllShown, Run, AllBenign, Benign, Quiet, Drained, World.Valid;
      if CalmSince(a) {
        RunSoFar();
        CalmWorkerIsIdle(world.codec, a.trace);
        var more := world.trace[|a.trace|..];
        assert world.trace == a.trace + more;
        RunConcat(world.codec, world.origin, a.trace, more);
        QuietKeepsRequests(world.codec, a.st, more);
        assert forall i :: 0 <= i < |more| ==> more[i] == world.trace[|a.trace| + i];
        QuietIsBenign(world.codec, a.trace, more);
        QuiescentMeansShown(world.codec, world.trace);
      }
    }

    lemma RunSoFar()
      requires world.Valid()
      ensures world.st == Run(world.codec, world.origin, world.trace)
    {
    }

    lemma NothingLeft()
      requires world.Valid() && |world.st.workers| == 1 && world.channel.unacked == map[]
      requires world.channel.queues.processing == []
      requires world.channel.queues.retry30s == [] && world.channel.queues.retry2m == []
      ensures Drained(world.st)
    {
      hide C.IdsFresh, SqlRows, Run;
      NothingUnacked(world.st.workers[0]);
      assert world.st.workers == [world.st.workers[0]];
    }

    /** What the loop leaves behind: each message it started over, or that was accepted, is marked or dead-lettered. */
    lemma DrainDecides(backlog: Queues, q: T.QueueName, i: nat)
      requires world.Valid() && world.origin == InitWith(1, backlog) && Drained(world.st)
      requires i < |backlog.Of(q)| && backlog.Of(q)[i].readable
      ensures var id := backlog.Of(q)[i].msg.id;
        id in world.db.processed || exists d :: d in world.channel.queues.dlq && d.readable && d.msg.id == id
    {
      BacklogIsDecided(world.codec, 1, backlog, world.trace, q, i);
    }
  }
}
