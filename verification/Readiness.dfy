/**
 When a ready avatar stays ready. With one worker: as long as nobody uploads or deletes, a ready
 row can be lost exactly if some message of its user that is not marked as processed is still
 on its way.
 */
module Readiness {
  import opened Avatars
  import opened Idempotency
  import opened Keys
  import opened Ownership
  import opened Pipeline
  import opened Processor
  import T = Topology

  /** A copy whose handling nothing stops yet: the check will find its id unmarked. */
  predicate Open(processed: set<MsgId>, u: UserId, d: Delivery) {
    d.readable && d.msg.user == u && d.msg.id !in processed
  }

  ghost predicate SomeOpen(processed: set<MsgId>, u: UserId, q: seq<Delivery>) {
    exists i :: 0 <= i < |q| && Open(processed, u, q[i])
  }

  /** An open copy of `u` is on its way: in the processing queue, in a retry queue, or in hand. */
  ghost predicate Unsettled(s: State, u: UserId) {
    || SomeOpen(s.processed, u, s.queues.processing)
    || SomeOpen(s.processed, u, s.queues.retry30s)
    || SomeOpen(s.processed, u, s.queues.retry2m)
    || exists w :: 0 <= w < |s.workers| && s.workers[w].Busy? && Open(s.processed, u, s.workers[w].d)
  }

  ghost predicate IsReady(s: State, u: UserId) {
    u in s.rows && s.rows[u].status == Ready
  }

  predicate WithoutApi(acts: seq<Action>) {
    forall i :: 0 <= i < |acts| ==> ByWorker(acts[i]) || ByBroker(acts[i])
  }

  // ---- settled users keep their rows ----

  /** The worker holds nothing open of `u`, so its calls leave the row of `u` alone. */
  lemma SettledRow(s: State, x: Worker, ok: bool, text: string, u: UserId)
    requires x.Busy? && HeldOk(s.h, x) && !Open(s.processed, u, x.d)
    requires InHandler(x.pc) ==> x.d.msg.id !in s.processed
    ensures var rows := RowsAfter(s.rows, x, ok, text);
      (u in rows <==> u in s.rows) && (u in rows ==> rows[u] == s.rows[u])
  {
  }

  /** Its calls put nothing open of `u` into the queues either. */
  lemma SettledQueues(s: State, x: Worker, ok: bool, pos: nat, u: UserId)
    requires x.Busy? && pos <= |s.queues.processing| && !Unsettled(s, u) && !Open(s.processed, u, x.d)
    ensures !Unsettled(s.(queues := QueuesAfter(s, x, ok, pos)), u)
  {
    assert !Open(s.processed, u, RetryCopy(x.d, s.now));
    hide Open, RetryCopy, RetryTarget;
    var qs := QueuesAfter(s, x, ok, pos);
    assert !SomeOpen(s.processed, u, qs.processing);
    assert !SomeOpen(s.processed, u, qs.retry30s);
    assert !SomeOpen(s.processed, u, qs.retry2m);
  }

  lemma SettledWork(codec: Codec, s: State, w: nat, ok: bool, pos: nat, text: string, u: UserId)
    requires MarkedOnce(s) && MessagesOk(s) && !Unsettled(s, u) && Enabled(s, Work(w, ok, pos, text))
    ensures var t := ApplyWork(codec, s, w, ok, pos, text);
      && !Unsettled(t, u)
      && (u in t.rows <==> u in s.rows) && (u in t.rows ==> t.rows[u] == s.rows[u])
  {
    hide RowsAfter, QueuesAfter, ObjectsAfter, HistoryAfter, CopiesOk, NextWorker;
    var x := s.workers[w];
    assert HeldOk(s.h, x);
    assert !Open(s.processed, u, x.d);
    SettledRow(s, x, ok, text, u);
    SettledQueues(s, x, ok, pos, u);
    NextWorkerHoldsSame(codec, s, x, ok);
    ProcessedMore(s, ApplyWork(codec, s, w, ok, pos, text), u);
  }

  /** The same copies, with more ids marked. */
  lemma ProcessedMore(s: State, t: State, u: UserId)
    requires s.processed <= t.processed
    requires !Unsettled(s.(queues := t.queues), u)
    requires forall w :: 0 <= w < |t.workers| && t.workers[w].Busy? ==>
      w < |s.workers| && s.workers[w].Busy? && t.workers[w].d == s.workers[w].d
    ensures !Unsettled(t, u)
  {
    var v := s.(queues := t.queues);
    assert forall d :: Open(t.processed, u, d) ==> Open(s.processed, u, d);
    hide Open;
    assert forall w :: 0 <= w < |v.workers| && v.workers[w].Busy? ==> !Open(v.processed, u, v.workers[w].d);
  }

  /** Deliveries, crashes and the broker only move copies around. */
  lemma SettledMove(codec: Codec, s: State, a: Action, u: UserId)
    requires !Unsettled(s, u) && Enabled(s, a) && (a.Deliver? || a.Crash? || ByBroker(a))
    ensures !Unsettled(Apply(codec, s, a), u)
  {
    hide Open;
    var t := Apply(codec, s, a);
    match a {
      case Expire(q) =>
        SameOpen(s.processed, u, s.queues.Of(q)[0], s.now);
      case Inject(header) =>
        UnreadableIsNotOpen(s.processed, u, t.queues.processing[|t.queues.processing| - 1]);
      case _ =>
    }
    assert t.processed == s.processed;
    assert !SomeOpen(t.processed, u, t.queues.processing);
    assert !SomeOpen(t.processed, u, t.queues.retry30s);
    assert !SomeOpen(t.processed, u, t.queues.retry2m);
  }

  lemma SameOpen(processed: set<MsgId>, u: UserId, d: Delivery, now: nat)
    ensures Open(processed, u, d.(at := now)) <==> Open(processed, u, d)
  {
  }

  lemma UnreadableIsNotOpen(processed: set<MsgId>, u: UserId, d: Delivery)
    requires !d.readable
    ensures !Open(processed, u, d)
  {
  }

  lemma SettledStep(codec: Codec, s: State, a: Action, u: UserId)
    requires MarkedOnce(s) && Structured(s) && !Unsettled(s, u) && IsReady(s, u) && (ByWorker(a) || ByBroker(a))
    ensures !Unsettled(Apply(codec, s, a), u) && IsReady(Apply(codec, s, a), u)
  {
    hide Unsettled, MessagesOk, MarkedOnce, RowsOk, ObjectsOk, DeletesOk;
    if Enabled(s, a) {
      if a.Work? {
        SettledWork(codec, s, a.w, a.ok, a.pos, a.text, u);
        hide ApplyWork;
      } else {
        SettledMove(codec, s, a, u);
        MovesKeepStores(codec, s, a);
        hide Step;
      }
    }
  }

  lemma {:induction false} SettledRowsStay(codec: Codec, past: seq<Action>, acts: seq<Action>, u: UserId)
    requires WithoutApi(acts)
    requires !Unsettled(Run(codec, Init(1), past), u) && IsReady(Run(codec, Init(1), past), u)
    ensures var t := Run(codec, Run(codec, Init(1), past), acts);
      !Unsettled(t, u) && IsReady(t, u)
  {
    if acts != [] {
      var n := |acts| - 1;
      SettledRowsStay(codec, past, acts[..n], u);
      RunConcat(codec, Init(1), past, acts[..n]);
      EverythingStructured(codec, 1, past + acts[..n]);
      IdsAreMarkedOnce(codec, past + acts[..n]);
      hide Unsettled, MarkedOnce, Structured, IsReady, Apply;
      SettledStep(codec, Run(codec, Run(codec, Init(1), past), acts[..n]), acts[n], u);
    }
  }

  // ---- an open copy can always take it away ----

  /** The worker's process ends, and what it held is at the head of the queue. */
  lemma LetGo(codec: Codec, s: State, u: UserId) returns (acts: seq<Action>, t: State)
    requires |s.workers| == 1 && Unsettled(s, u)
    ensures Reaches(codec, s, acts, t) && WithoutApi(acts)
    ensures t.rows == s.rows && t.processed == s.processed && t.workers == [Idle] && Unsettled(t, u)
  {
    hide Open;
    if s.workers[0].Idle? {
      acts, t := [], s;
    } else {
      acts, t := Then(codec, s, [], s, Crash(0, 0));
      assert t.queues.processing == [s.workers[0].d] + s.queues.processing;
      assert t.workers == [Idle];
      if Open(s.processed, u, s.workers[0].d) {
        assert Open(s.processed, u, t.queues.processing[0]);
      } else if i :| 0 <= i < |s.queues.processing| && Open(s.processed, u, s.queues.processing[i]) {
        assert t.queues.processing[i + 1] == s.queues.processing[i];
      }
    }
  }

  /** Copy `i` of a retry queue comes back once those before it have. */
  lemma {:induction false} ComeBack(codec: Codec, s: State, q: T.QueueName, i: nat, u: UserId)
    returns (acts: seq<Action>, t: State)
    requires q == T.Retry30s || q == T.Retry2m
    requires i < |s.queues.Of(q)| && Open(s.processed, u, s.queues.Of(q)[i])
    ensures Reaches(codec, s, acts, t) && WithoutApi(acts)
    ensures t.rows == s.rows && t.processed == s.processed && t.workers == s.workers
    ensures SomeOpen(t.processed, u, t.queues.processing)
    decreases i
  {
    hide Open;
    acts, t := ExpireOne(codec, s, q);
    var d := s.queues.Of(q)[0];
    if i == 0 {
      SameOpen(s.processed, u, d, t.now);
      assert Open(t.processed, u, t.queues.processing[|t.queues.processing| - 1]);
    } else {
      assert t.queues.Of(q)[i - 1] == s.queues.Of(q)[i];
      var more: seq<Action>;
      var v := t;
      more, t := ComeBack(codec, v, q, i - 1, u);
      Join(codec, s, acts, v, more, t);
      acts := acts + more;
    }
  }

  lemma ExpireOne(codec: Codec, s: State, q: T.QueueName) returns (acts: seq<Action>, t: State)
    requires (q == T.Retry30s || q == T.Retry2m) && s.queues.Of(q) != []
    ensures Reaches(codec, s, acts, t) && WithoutApi(acts)
    ensures t.rows == s.rows && t.processed == s.processed && t.workers == s.workers
    ensures t.queues.Of(q) == s.queues.Of(q)[1..]
    ensures t.queues.processing == s.queues.processing + [s.queues.Of(q)[0].(at := t.now)]
  {
    acts, t := Then(codec, s, [], s, Tick(s.queues.Of(q)[0].at + T.Ttl(q)));
    acts, t := Then(codec, s, acts, t, Expire(q));
  }

  /** An idle worker takes an open copy, finds it unmarked, and says that it is processing. */
  lemma TakeUp(codec: Codec, s: State, i: nat, u: UserId) returns (acts: seq<Action>, t: State)
    requires s.workers == [Idle] && i < |s.queues.processing| && Open(s.processed, u, s.queues.processing[i])
    ensures Reaches(codec, s, acts, t) && WithoutApi(acts)
    ensures !IsReady(t, u)
  {
    hide Process;
    var d := s.queues.processing[i];
    acts, t := Then(codec, s, [], s, Deliver(0, i));
    assert t.workers == [Busy(d, Check, NO_PICTURE)] && t.processed == s.processed && t.rows == s.rows;
    acts, t := TakeUpHeld(codec, s, acts, t, d);
  }

  lemma TakeUpHeld(codec: Codec, origin: State, before: seq<Action>, s: State, d: Delivery)
    returns (acts: seq<Action>, t: State)
    requires Reaches(codec, origin, before, s) && s.workers == [Busy(d, Check, NO_PICTURE)]
    requires d.msg.id !in s.processed
    ensures acts == before + [Go(0), Go(0)] && Reaches(codec, origin, acts, t)
    ensures !IsReady(t, d.msg.user)
  {
    hide Process, Apply, Enabled, HistoryAfter;
    acts, t := Call(codec, origin, before, s, 0, true);
    assert t.workers == [Busy(d, Start, NO_PICTURE)];
    acts, t := Call(codec, origin, acts, t, 0, true);
  }

  lemma {:induction false} OpenCopyTakesItAway(codec: Codec, s: State, u: UserId) returns (acts: seq<Action>)
    requires |s.workers| == 1 && Unsettled(s, u)
    ensures WithoutApi(acts) && !IsReady(Run(codec, s, acts), u)
  {
    hide Open, IsReady, Run, Apply;
    var a, b, c: seq<Action>;
    var t, v, x: State;
    a, t := LetGo(codec, s, u);
    b, v := [], t;
    if !SomeOpen(t.processed, u, t.queues.processing) {
      var q := if SomeOpen(t.processed, u, t.queues.retry30s) then T.Retry30s else T.Retry2m;
      var i :| 0 <= i < |t.queues.Of(q)| && Open(t.processed, u, t.queues.Of(q)[i]);
      b, v := ComeBack(codec, t, q, i, u);
      Join(codec, s, a, t, b, v);
    } else {
      assert a + b == a;
    }
    var i :| 0 <= i < |v.queues.processing| && Open(v.processed, u, v.queues.processing[i]);
    c, x := TakeUp(codec, v, i, u);
    Join(codec, s, a + b, v, c, x);
    acts := a + b + c;
  }

  /**
   Exactly when a ready avatar can be lost. From any reachable state of one worker in which the
   row of `u` is ready, the worker, its crashes and failures, and the broker can make it not
   ready if and only if an unmarked copy of a message of `u` is queued, waiting for a retry, or
   in hand.
   */
  lemma {:induction false} ReadyIsLostExactlyIf(codec: Codec, past: seq<Action>, u: UserId)
    requires IsReady(Run(codec, Init(1), past), u)
    ensures var s := Run(codec, Init(1), past);
      Unsettled(s, u) <==> exists acts :: WithoutApi(acts) && !IsReady(Run(codec, s, acts), u)
  {
    hide Unsettled, IsReady, WithoutApi;
    var s := Run(codec, Init(1), past);
    if Unsettled(s, u) {
      IdsAreMarkedOnce(codec, past);
      var acts := OpenCopyTakesItAway(codec, s, u);
    } else {
      forall acts | WithoutApi(acts) ensures IsReady(Run(codec, s, acts), u) {
        SettledRowsStay(codec, past, acts, u);
      }
    }
  }
}
