/**
 No message is lost, whatever crashes, fails or is requeued, with any number of workers.
 The copies of a message that are still owed a decision, plus those settled, always equal its
 accepted publishes plus the crashes and lost acks that fell between a retry publish and its ack.
 */
module Conservation {
  import opened Avatars
  import opened Keys
  import opened Pipeline
  import opened Processor
  import opened Sums
  import T = Topology

  ghost function CopyOf(id: MsgId): Delivery -> nat {
    (d: Delivery) => if d.readable && d.msg.id == id then 1 else 0
  }

  /** A delivery that was republished is no longer counted where it is held: its successor is. */
  ghost function HeldCopy(id: MsgId): Worker -> nat {
    (x: Worker) =>
      if x.Busy? && x.pc != AckRetried && x.pc != HungRetried && x.d.readable && x.d.msg.id == id then 1 else 0
  }

  ghost function WithId(id: MsgId): Msg -> nat {
    (m: Msg) => if m.id == id then 1 else 0
  }

  ghost function Queued(qs: Queues, id: MsgId): nat {
    var copies := CopyOf(id);
    Sum(qs.processing, copies) + Sum(qs.retry30s, copies) + Sum(qs.retry2m, copies) + Sum(qs.dlq, copies)
  }

  /** The copies of message `id`: in the four queues, or unacked at a worker. */
  ghost function Live(s: State, id: MsgId): nat {
    Queued(s.queues, id) + Sum(s.workers, HeldCopy(id))
  }

  ghost function Accepted(s: State, id: MsgId): nat {
    Sum(s.h.published, WithId(id))
  }

  /** Only parsed deliveries get past the first decision, and what is settled was marked as processed. */
  ghost predicate WorkersOk(s: State) {
    && (forall w :: 0 <= w < |s.workers| && s.workers[w].Busy? && s.workers[w].pc != Hung ==>
          (s.workers[w].d.readable <==> s.workers[w].pc != Reject))
    && (forall w :: 0 <= w < |s.workers| && s.workers[w].Busy? && s.workers[w].pc == AckDone ==>
          s.workers[w].d.msg.id in s.processed)
    && (forall id :: id in s.h.settled ==> id in s.processed)
  }

  lemma WorkersOkStep(codec: Codec, s: State, a: Action)
    requires WorkersOk(s)
    ensures WorkersOk(Apply(codec, s, a))
  {
    hide ApplyWork, RemoveAt, InsertAt, Push;
    if Enabled(s, a) {
      match a {
        case Work(w, ok, pos, text) => WorkersOkWork(codec, s, w, ok, pos, text);
        case Deliver(w, i) =>
        case Crash(w, pos) =>
        case _ => OthersKeepWorkers(codec, s, a);
      }
    }
  }

  lemma WorkersOkWork(codec: Codec, s: State, w: nat, ok: bool, pos: nat, text: string)
    requires WorkersOk(s) && Enabled(s, Work(w, ok, pos, text))
    ensures WorkersOk(ApplyWork(codec, s, w, ok, pos, text))
  {
    hide RowsAfter, ObjectsAfter, QueuesAfter, NextWorker;
    NextWorkerOk(codec, s, s.workers[w], ok);
  }

  lemma NextWorkerOk(codec: Codec, s: State, x: Worker, ok: bool)
    requires x.Busy? && x.pc != Hung && x.pc != HungRetried
    ensures var y := NextWorker(codec, s, x, ok);
      y.Busy? ==>
        && y.d == x.d
        && (y.pc != Hung ==> x.pc != Reject && y.pc != Reject)
        && (y.pc == AckDone ==> (x.pc == Check && x.d.msg.id in s.processed) || (x.pc == Mark && ok))
  {
    hide Process;
  }

  /** The copies of `id` and its settled deliveries, less what its publishes and duplications account for. */
  ghost predicate Conserved(s: State, id: MsgId, backlog: int) {
    Live(s, id) + s.h.settled[id] == Accepted(s, id) + s.h.duplicated[id] + backlog
  }

  lemma QueuedPush(qs: Queues, q: T.QueueName, d: Delivery, id: MsgId)
    ensures Queued(Push(qs, q, d), id) == Queued(qs, id) + CopyOf(id)(d)
  {
    SumPush(qs.Of(q), d, CopyOf(id));
  }

  lemma HeldUpdate(s: State, w: nat, x: Worker, id: MsgId)
    requires w < |s.workers|
    ensures Sum(s.workers[w := x], HeldCopy(id)) + HeldCopy(id)(s.workers[w]) ==
      Sum(s.workers, HeldCopy(id)) + HeldCopy(id)(x)
  {
    SumUpdate(s.workers, w, x, HeldCopy(id));
  }

  lemma DeliverConserves(codec: Codec, s: State, w: nat, i: nat, id: MsgId, backlog: int)
    requires Conserved(s, id, backlog) && Enabled(s, Deliver(w, i))
    ensures Conserved(ApplyDeliver(s, w, i), id, backlog)
  {
    SumRemoveAt(s.queues.processing, i, CopyOf(id));
    HeldUpdate(s, w, ApplyDeliver(s, w, i).workers[w], id);
  }

  lemma WorkConserves(codec: Codec, s: State, w: nat, ok: bool, pos: nat, text: string, id: MsgId, backlog: int)
    requires WorkersOk(s) && Conserved(s, id, backlog) && Enabled(s, Work(w, ok, pos, text))
    ensures Conserved(ApplyWork(codec, s, w, ok, pos, text), id, backlog)
  {
    hide QueuesAfter, NextWorker, Sum;
    var x := s.workers[w];
    HeldUpdate(s, w, NextWorker(codec, s, x, ok), id);
    QueuesAfterWork(s, x, ok, pos, id);
    HeldAfterWork(codec, s, x, ok, id);
  }

  lemma HeldAfterWork(codec: Codec, s: State, x: Worker, ok: bool, id: MsgId)
    requires x.Busy? && x.pc != Hung && x.pc != HungRetried
    ensures HeldCopy(id)(x) == HeldCopy(id)(NextWorker(codec, s, x, ok))
      + if ok && (Releases(x.pc) || x.pc == AckDone) then CopyOf(id)(x.d) else 0
  {
  }

  /** The calls that hand the delivery over to a queue. */
  predicate Releases(pc: Pc) {
    pc == Reject || pc == Retry || pc == Requeue
  }

  lemma QueuesAfterWork(s: State, x: Worker, ok: bool, pos: nat, id: MsgId)
    requires x.Busy? && pos <= |s.queues.processing|
    ensures Queued(QueuesAfter(s, x, ok, pos), id) ==
      Queued(s.queues, id) + if ok && Releases(x.pc) then CopyOf(id)(x.d) else 0
  {
    if ok && x.pc == Retry {
      QueuedPush(s.queues, RetryTarget(x.d), RetryCopy(x.d, s.now), id);
    } else if ok && x.pc == Reject {
      QueuedPush(s.queues, T.DLQ, x.d.(at := s.now), id);
    } else if ok && x.pc == Requeue {
      SumInsertAt(s.queues.processing, pos, x.d, CopyOf(id));
    }
  }

  lemma CrashConserves(s: State, w: nat, pos: nat, id: MsgId, backlog: int)
    requires WorkersOk(s) && Conserved(s, id, backlog) && Enabled(s, Crash(w, pos))
    ensures Conserved(ApplyCrash(s, w, pos), id, backlog)
  {
    hide Sum;
    HeldUpdate(s, w, Idle, id);
    SumInsertAt(s.queues.processing, pos, s.workers[w].d, CopyOf(id));
  }

  lemma ExpireConserves(s: State, q: T.QueueName, id: MsgId, backlog: int)
    requires Conserved(s, id, backlog) && Enabled(s, Expire(q))
    ensures Conserved(ApplyExpire(s, q), id, backlog)
  {
    var d := s.queues.Of(q)[0];
    SumTail(s.queues.Of(q), CopyOf(id));
    QueuedPush(s.queues.With(q, s.queues.Of(q)[1..]), T.Processing, d.(at := s.now), id);
  }

  lemma PublishConserves(s: State, r: nat, ok: bool, id: MsgId, backlog: int)
    requires Conserved(s, id, backlog) && Enabled(s, PublishMsg(r, ok))
    ensures Conserved(ApplyPublish(s, r, ok), id, backlog)
  {
    var m := s.requests[r].msg;
    if ok {
      QueuedPush(s.queues, T.Processing, FirstCopy(m, s.now), id);
      SumPush(s.h.published, m, WithId(id));
    }
  }

  lemma ConservedStep(codec: Codec, s: State, a: Action, id: MsgId, backlog: int)
    requires WorkersOk(s) && Conserved(s, id, backlog)
    ensures Conserved(Apply(codec, s, a), id, backlog)
  {
    hide Sum, ApplyWork, ApplyCrash, ApplyDeliver, ApplyExpire, ApplyPublish;
    if Enabled(s, a) {
      match a {
        case Deliver(w, i) => DeliverConserves(codec, s, w, i, id, backlog);
        case Work(w, ok, pos, text) => WorkConserves(codec, s, w, ok, pos, text, id, backlog);
        case Crash(w, pos) => CrashConserves(s, w, pos, id, backlog);
        case Expire(q) => ExpireConserves(s, q, id, backlog);
        case PublishMsg(r, ok) => PublishConserves(s, r, ok, id, backlog);
        case Inject(header) =>
          QueuedPush(s.queues, T.Processing, Delivery(false, Msg("", "", NoKey), header, [], s.now), id);
        case Tick(dt) =>
        case _ =>
          OthersKeepWorkers(codec, s, a);
          NonPublishKeepsQueues(codec, s, a);
      }
    }
  }

  /** The law from any state on: what is there without having been published or duplicated stays accounted for. */
  lemma {:induction false} BacklogIsConserved(codec: Codec, s: State, acts: seq<Action>, id: MsgId)
    requires WorkersOk(s)
    ensures var t := Run(codec, s, acts);
      && WorkersOk(t)
      && Conserved(t, id, Live(s, id) + s.h.settled[id] - Accepted(s, id) - s.h.duplicated[id])
  {
    hide WorkersOk, Live, Accepted, Apply;
    if acts != [] {
      var t := Run(codec, s, acts[..|acts| - 1]);
      BacklogIsConserved(codec, s, acts[..|acts| - 1], id);
      WorkersOkStep(codec, t, acts[|acts| - 1]);
      ConservedStep(codec, t, acts[|acts| - 1], id,
        Live(s, id) + s.h.settled[id] - Accepted(s, id) - s.h.duplicated[id]);
    }
  }

  /** The conservation law, over every run of the service with any number of workers. */
  lemma {:induction false} MessagesAreConserved(codec: Codec, workers: nat, acts: seq<Action>, id: MsgId)
    ensures var s := Run(codec, Init(workers), acts);
      && WorkersOk(s)
      && Live(s, id) + s.h.settled[id] == Accepted(s, id) + s.h.duplicated[id]
  {
    SumZero(Init(workers).workers, HeldCopy(id));
    BacklogIsConserved(codec, Init(workers), acts, id);
  }

  /** A copy of `id` sits in one of the four queues or is held unacked by a worker. */
  ghost predicate SomewhereAlive(s: State, id: MsgId) {
    || (exists q, i :: 0 <= i < |s.queues.Of(q)| && s.queues.Of(q)[i].readable && s.queues.Of(q)[i].msg.id == id)
    || (exists w :: 0 <= w < |s.workers| && s.workers[w].Busy?
          && s.workers[w].d.readable && s.workers[w].d.msg.id == id)
  }

  lemma LiveIsSomewhere(s: State, id: MsgId)
    requires Live(s, id) > 0
    ensures SomewhereAlive(s, id)
  {
    if Sum(s.workers, HeldCopy(id)) > 0 {
      var w := SumPositive(s.workers, HeldCopy(id));
    } else if Sum(s.queues.processing, CopyOf(id)) > 0 {
      var i := SumPositive(s.queues.processing, CopyOf(id));
      assert s.queues.Of(T.Processing)[i].msg.id == id;
    } else if Sum(s.queues.retry30s, CopyOf(id)) > 0 {
      var i := SumPositive(s.queues.retry30s, CopyOf(id));
      assert s.queues.Of(T.Retry30s)[i].msg.id == id;
    } else if Sum(s.queues.retry2m, CopyOf(id)) > 0 {
      var i := SumPositive(s.queues.retry2m, CopyOf(id));
      assert s.queues.Of(T.Retry2m)[i].msg.id == id;
    } else {
      var i := SumPositive(s.queues.dlq, CopyOf(id));
      assert s.queues.Of(T.DLQ)[i].msg.id == id;
    }
  }

  /** No loss: in every reachable state an accepted message is marked as processed, or a copy of it is still there. */
  lemma NoMessageIsLost(codec: Codec, workers: nat, acts: seq<Action>, m: Msg)
    requires m in Run(codec, Init(workers), acts).h.published
    ensures var s := Run(codec, Init(workers), acts);
      m.id in s.processed || SomewhereAlive(s, m.id)
  {
    var s := Run(codec, Init(workers), acts);
    MessagesAreConserved(codec, workers, acts, m.id);
    var i :| 0 <= i < |s.h.published| && s.h.published[i] == m;
    SumHasMember(s.h.published, i, WithId(m.id));
    if s.h.settled[m.id] == 0 {
      LiveIsSomewhere(s, m.id);
    }
  }

  // ---- messages that do not parse ----

  ghost function UnreadableCopy(): Delivery -> nat {
    (d: Delivery) => if d.readable then 0 else 1
  }

  ghost function HeldUnreadable(): Worker -> nat {
    (x: Worker) => if x.Busy? && !x.d.readable then 1 else 0
  }

  ghost function QueuedUnreadables(qs: Queues): nat {
    Sum(qs.processing, UnreadableCopy()) + Sum(qs.retry30s, UnreadableCopy()) + Sum(qs.retry2m, UnreadableCopy())
    + Sum(qs.dlq, UnreadableCopy())
  }

  ghost function Unreadables(s: State): nat {
    QueuedUnreadables(s.queues) + Sum(s.workers, HeldUnreadable())
  }

  lemma UnreadablePush(qs: Queues, q: T.QueueName, d: Delivery)
    ensures QueuedUnreadables(Push(qs, q, d)) == QueuedUnreadables(qs) + if d.readable then 0 else 1
  {
    SumPush(qs.Of(q), d, UnreadableCopy());
  }

  lemma UnreadableQueuesAfter(s: State, x: Worker, ok: bool, pos: nat)
    requires x.Busy? && pos <= |s.queues.processing|
    ensures QueuedUnreadables(QueuesAfter(s, x, ok, pos)) ==
      QueuedUnreadables(s.queues) + if ok && Releases(x.pc) && !x.d.readable then 1 else 0
  {
    hide Sum;
    if ok && x.pc == Retry {
      UnreadablePush(s.queues, RetryTarget(x.d), RetryCopy(x.d, s.now));
    } else if ok && x.pc == Reject {
      UnreadablePush(s.queues, T.DLQ, x.d.(at := s.now));
    } else if ok && x.pc == Requeue {
      SumInsertAt(s.queues.processing, pos, x.d, UnreadableCopy());
    }
  }

  lemma UnreadableNext(codec: Codec, s: State, x: Worker, ok: bool)
    requires x.Busy? && x.pc != Hung && x.pc != HungRetried && (x.d.readable <==> x.pc != Reject)
    ensures HeldUnreadable()(x) == HeldUnreadable()(NextWorker(codec, s, x, ok))
      + if ok && Releases(x.pc) && !x.d.readable then 1 else 0
  {
    hide Process;
  }

  lemma UnreadableWork(codec: Codec, s: State, w: nat, ok: bool, pos: nat, text: string)
    requires WorkersOk(s) && Enabled(s, Work(w, ok, pos, text))
    ensures Unreadables(ApplyWork(codec, s, w, ok, pos, text)) == Unreadables(s)
  {
    hide QueuesAfter, NextWorker, Sum, RowsAfter, ObjectsAfter, ProcessedAfter, HistoryAfter, QueuedUnreadables;
    var x := s.workers[w];
    UnreadableQueuesAfter(s, x, ok, pos);
    UnreadableNext(codec, s, x, ok);
    SumUpdate(s.workers, w, NextWorker(codec, s, x, ok), HeldUnreadable());
  }

  lemma UnreadableStep(codec: Codec, s: State, a: Action)
    requires WorkersOk(s)
    ensures Unreadables(Apply(codec, s, a)) == Unreadables(s) + if a.Inject? then 1 else 0
  {
    hide Sum, ApplyWork, Push, RemoveAt, InsertAt;
    if Enabled(s, a) {
      match a {
        case Work(w, ok, pos, text) => UnreadableWork(codec, s, w, ok, pos, text);
        case Deliver(w, i) =>
          SumRemoveAt(s.queues.processing, i, UnreadableCopy());
          SumUpdate(s.workers, w, ApplyDeliver(s, w, i).workers[w], HeldUnreadable());
        case Crash(w, pos) =>
          SumInsertAt(s.queues.processing, pos, s.workers[w].d, UnreadableCopy());
          SumUpdate(s.workers, w, Idle, HeldUnreadable());
        case Expire(q) =>
          var d := s.queues.Of(q)[0];
          SumTail(s.queues.Of(q), UnreadableCopy());
          UnreadablePush(s.queues.With(q, s.queues.Of(q)[1..]), T.Processing, d.(at := s.now));
        case PublishMsg(r, ok) => UnreadablePush(s.queues, T.Processing, FirstCopy(s.requests[r].msg, s.now));
        case Inject(header) =>
          UnreadablePush(s.queues, T.Processing, Delivery(false, Msg("", "", NoKey), header, [], s.now));
        case Tick(dt) =>
        case _ =>
          OthersKeepWorkers(codec, s, a);
          NonPublishKeepsQueues(codec, s, a);
      }
    }
  }

  function Injections(acts: seq<Action>): nat {
    if acts == [] then 0 else Injections(acts[..|acts| - 1]) + if acts[|acts| - 1].Inject? then 1 else 0
  }

  /**
   Messages that do not parse are not lost either, nor copied: over any run their copies number
   those that were there and those that came in.
   */
  lemma {:induction false} UnreadablesAreKept(codec: Codec, s: State, acts: seq<Action>)
    requires WorkersOk(s)
    ensures Unreadables(Run(codec, s, acts)) == Unreadables(s) + Injections(acts)
    ensures WorkersOk(Run(codec, s, acts))
  {
    hide WorkersOk, Unreadables, Apply;
    if acts != [] {
      var n := |acts| - 1;
      UnreadablesAreKept(codec, s, acts[..n]);
      UnreadableStep(codec, Run(codec, s, acts[..n]), acts[n]);
      WorkersOkStep(codec, Run(codec, s, acts[..n]), acts[n]);
    }
  }

  // ---- freshness of ids ----

  ghost predicate DistinctIds(ms: seq<Msg>) {
    forall i, j :: 0 <= i < j < |ms| ==> ms[i].id != ms[j].id
  }

  /**
   Ids are issued once: no two uploads in flight share one, none of them was published yet, and
   only bytes of an issued id are staged.
   */
  ghost predicate IdsFresh(s: State) {
    && (forall k :: k in s.objects && k.Staging? ==> k.id in s.h.sources)
    && DistinctIds(s.h.published)
    && (forall m :: m in s.h.published ==> m.id in s.h.sources)
    && (forall r :: r in s.requests && s.requests[r].Uploading? ==> s.requests[r].msg.id in s.h.sources)
    && (forall r, m :: r in s.requests && s.requests[r].Uploading? && m in s.h.published ==>
          s.requests[r].msg.id != m.id)
    && (forall r, t :: r in s.requests && t in s.requests && r != t ==>
          s.requests[r].Uploading? && s.requests[t].Uploading? ==> s.requests[r].msg.id != s.requests[t].msg.id)
  }

  lemma IdsFreshStep(codec: Codec, s: State, a: Action)
    requires IdsFresh(s)
    ensures IdsFresh(Apply(codec, s, a))
  {
    if !a.StagePut? {
      NothingElseStages(codec, s, a);
    }
    hide ApplyWork, ApplyCrash, ApplyExpire, ApplyDeliver, ApplyPublish, ApplyUpsert, ApplyUnstage,
      ApplyFailUpload, ApplyReadForDelete, ApplyRemoveObject, ApplyRemoveRow;
    if !ByApi(a) {
      OthersKeepRequests(codec, s, a);
    } else if Enabled(s, a) {
      match a {
        case StagePut(r, u, id, bytes) =>
        case PublishMsg(r, ok) => IdsFreshPublish(s, r, ok);
        case _ =>
          UploadsInFlight(codec, s, a);
          NonPublishKeepsQueues(codec, s, a);
      }
    }
  }

  lemma NothingElseStages(codec: Codec, s: State, a: Action)
    requires !a.StagePut?
    ensures var t := Apply(codec, s, a);
      && (forall k :: k in t.objects && k.Staging? ==> k in s.objects)
      && (forall id :: id in s.h.sources ==> id in t.h.sources)
  {
    hide RowsAfter, QueuesAfter, NextWorker, ProcessedAfter, HistoryAfter, Push, NonEmpty, ApplyUpsert, ApplyFailUpload;
    if Enabled(s, a) && a.Work? {
      WorkKeepsRequests(codec, s, a.w, a.ok, a.pos, a.text);
    } else if a.Deliver? || a.Crash? || ByBroker(a) {
      MovesKeepStores(codec, s, a);
    } else if a.UpsertRow? || a.FailUploadRow? {
      RowCallsKeepObjects(codec, s, a);
    }
  }

  lemma RowCallsKeepObjects(codec: Codec, s: State, a: Action)
    requires a.UpsertRow? || a.FailUploadRow?
    ensures Apply(codec, s, a).objects == s.objects && Apply(codec, s, a).h == s.h
  {
    hide ApplyWork, ApplyCrash, ApplyDeliver, ApplyExpire;
  }

  lemma IdsFreshPublish(s: State, r: nat, ok: bool)
    requires IdsFresh(s) && Enabled(s, PublishMsg(r, ok))
    ensures IdsFresh(ApplyPublish(s, r, ok))
  {
    var m := s.requests[r].msg;
    var t := ApplyPublish(s, r, ok);
    assert t.h.published == if ok then s.h.published + [m] else s.h.published;
    assert forall q :: q in t.requests ==> q in s.requests && (q != r ==> t.requests[q] == s.requests[q]);
    assert forall k :: k in t.h.published ==> k in s.h.published || k == m;
  }

  lemma {:induction false} IdsAreFresh(codec: Codec, workers: nat, acts: seq<Action>)
    ensures IdsFresh(Run(codec, Init(workers), acts))
  {
    if acts != [] {
      IdsAreFresh(codec, workers, acts[..|acts| - 1]);
      IdsFreshStep(codec, Run(codec, Init(workers), acts[..|acts| - 1]), acts[|acts| - 1]);
    }
  }

  lemma {:induction false} DistinctCountOnce(ms: seq<Msg>, id: MsgId)
    requires DistinctIds(ms)
    ensures Sum(ms, WithId(id)) == if exists i :: 0 <= i < |ms| && ms[i].id == id then 1 else 0
  {
    if ms != [] {
      var n := |ms| - 1;
      DistinctCountOnce(ms[..n], id);
      assert forall i :: 0 <= i < n ==> ms[..n][i] == ms[i];
      if ms[n].id != id && exists i :: 0 <= i < |ms| && ms[i].id == id {
        var i :| 0 <= i < |ms| && ms[i].id == id;
        assert ms[..n][i].id == id;
      }
    }
  }

  /**
   An accepted message has at most one copy more than the crashes and lost acks between a
   retry publish and its ack; without any of those it is in exactly one place: one queue, one
   worker, or settled.
   */
  lemma {:induction false} CopiesAreBounded(codec: Codec, workers: nat, acts: seq<Action>, m: Msg)
    requires m in Run(codec, Init(workers), acts).h.published
    ensures var s := Run(codec, Init(workers), acts);
      && Live(s, m.id) + s.h.settled[m.id] == 1 + s.h.duplicated[m.id]
      && (s.h.duplicated[m.id] == 0 ==>
         (Live(s, m.id) == 1 && m.id !in s.h.settled) || (Live(s, m.id) == 0 && s.h.settled[m.id] == 1))
  {
    MessagesAreConserved(codec, workers, acts, m.id);
    IdsAreFresh(codec, workers, acts);
    DistinctCountOnce(Run(codec, Init(workers), acts).h.published, m.id);
  }
}
