/**
 The running deployment, as the imperative code sees it: the database, the object store and
 the broker channel, each an object whose calls may fail. A ghost copy of the machine's state
 and the trace of its actions run along; `Valid` says that the three objects hold exactly what
 that run of the machine says. Before each of its calls, an actor is interrupted by any
 actions of all the others.
 */
module World {
  import C = Conservation
  import opened Keys
  import opened Pipeline
  import opened Processor
  import opened Storage
  import opened Termination
  import opened Wrappers
  import T = Topology

  /** The bucket (internal/objectstore/client.go). `up` says whether the store answers this call. */
  class ObjectStore {
    var objects: map<Key, Bytes>

    constructor ()
      ensures objects == map[]
    {
      objects := map[];
    }

    method Upload(key: Key, data: Bytes, up: bool) returns (ok: bool)
      modifies this
      ensures ok == up && objects == if up then old(objects)[key := data] else old(objects)
    {
      if up {
        objects := objects[key := data];
      }
      return up;
    }

    method Download(key: Key, up: bool) returns (ok: bool, data: Bytes)
      ensures ok <==> up && key in objects
      ensures ok ==> data == objects[key]
    {
      if up && key in objects {
        return true, objects[key];
      }
      return false, [];
    }

    method DeleteObject(key: Key, up: bool) returns (ok: bool)
      modifies this
      ensures ok == up && objects == if up then old(objects) - {key} else old(objects)
    {
      if up {
        objects := objects - {key};
      }
      return up;
    }
  }

  /** What a publish does to the queues: the message is appended to each queue the topology routes it to. */
  function PublishTo(qs: Queues, exchange: string, key: string, d: Delivery): Queues {
    var targets := T.Route(T.Declared(), exchange, key);
    Queues(
      if T.Name(T.Processing) in targets then qs.processing + [d] else qs.processing,
      if T.Name(T.Retry30s) in targets then qs.retry30s + [d] else qs.retry30s,
      if T.Name(T.Retry2m) in targets then qs.retry2m + [d] else qs.retry2m,
      if T.Name(T.DLQ) in targets then qs.dlq + [d] else qs.dlq
    )
  }

  lemma PublishToOne(qs: Queues, exchange: string, key: string, d: Delivery, q: T.QueueName)
    requires T.Route(T.Declared(), exchange, key) == {T.Name(q)}
    ensures PublishTo(qs, exchange, key, d) == Push(qs, q, d)
  {
    forall p ensures T.Name(p) == T.Name(q) <==> p == q { T.NamesDiffer(p, q); }
    hide T.Route, T.Declared, T.Name;
  }

  /** The broker, with what each consumer holds unacknowledged (prefetch 1). */
  class AmqpChannel {
    var queues: Queues
    var unacked: map<nat, Delivery>

    constructor (queues: Queues)
      ensures this.queues == queues && unacked == map[]
    {
      this.queues, unacked := queues, map[];
    }

    method Publish(exchange: string, key: string, d: Delivery, up: bool) returns (ok: bool)
      modifies this`queues
      ensures ok == up && queues == if up then PublishTo(old(queues), exchange, key, d) else old(queues)
    {
      if up {
        queues := PublishTo(queues, exchange, key, d);
      }
      return up;
    }

    method Get(w: nat) returns (d: Delivery)
      requires queues.processing != [] && w !in unacked
      modifies this
      ensures d == old(queues).processing[0] && unacked == old(unacked)[w := d]
      ensures queues == old(queues).(processing := RemoveAt(old(queues).processing, 0))
    {
      d := queues.processing[0];
      queues := queues.(processing := RemoveAt(queues.processing, 0));
      unacked := unacked[w := d];
    }

    method Ack(w: nat, up: bool) returns (ok: bool)
      modifies this`unacked
      ensures ok == up && unacked == if up then old(unacked) - {w} else old(unacked)
    {
      if up {
        unacked := unacked - {w};
      }
      return up;
    }

    /** Nack: with `requeue` back into the processing queue at `pos`, without it to the dead-letter exchange. */
    method Nack(w: nat, requeue: bool, pos: nat, now: nat, up: bool) returns (ok: bool)
      requires w in unacked && pos <= |queues.processing|
      modifies this
      ensures ok == up && unacked == if up then old(unacked) - {w} else old(unacked)
      ensures queues ==
        if !up then old(queues)
        else if requeue then old(queues).(processing := InsertAt(old(queues).processing, pos, old(unacked)[w]))
        else PublishTo(old(queues), T.EXCHANGE_DLX, T.ROUTING_DLQ, old(unacked)[w].(at := now))
    {
      if up {
        var d := unacked[w];
        unacked := unacked - {w};
        if requeue {
          queues := queues.(processing := InsertAt(queues.processing, pos, d));
        } else {
          queues := PublishTo(queues, T.EXCHANGE_DLX, T.ROUTING_DLQ, d.(at := now));
        }
      }
      return up;
    }

    /** The time to live of the head of a retry queue ran out: dead-letter it. */
    method ExpireHead(q: T.QueueName, now: nat)
      requires (q == T.Retry30s || q == T.Retry2m) && queues.Of(q) != []
      modifies this`queues
      ensures queues == PublishTo(old(queues).With(q, old(queues).Of(q)[1..]), T.EXCHANGE_DLX, T.ROUTING_RETRY,
                                  old(queues).Of(q)[0].(at := now))
    {
      var d := queues.Of(q)[0];
      queues := queues.With(q, queues.Of(q)[1..]);
      queues := PublishTo(queues, T.EXCHANGE_DLX, T.ROUTING_RETRY, d.(at := now));
    }
  }

  /** The three routes that the pipeline publishes to, and what they come to. */
  lemma RoutesOfThePipeline(qs: Queues, d: Delivery, count: int)
    ensures PublishTo(qs, T.EXCHANGE_DIRECT, T.ROUTING_UPLOAD, d) == Push(qs, T.Processing, d)
    ensures PublishTo(qs, T.EXCHANGE_DLX, T.ROUTING_DLQ, d) == Push(qs, T.DLQ, d)
    ensures PublishTo(qs, T.EXCHANGE_DLX, T.ROUTING_RETRY, d) == Push(qs, T.Processing, d)
    ensures PublishTo(qs, T.SendToRetry(count).exchange, T.SendToRetry(count).key, d) ==
      Push(qs, T.RetryQueue(count), d)
  {
    T.RouteOfUploadsAndDeadLetters();
    T.RetryReachesOneQueue(count);
    hide T.Route, T.Declared, T.Name, PublishTo, Push, T.SendToRetry, T.RetryQueue;
    PublishToOne(qs, T.EXCHANGE_DIRECT, T.ROUTING_UPLOAD, d, T.Processing);
    PublishToOne(qs, T.EXCHANGE_DLX, T.ROUTING_DLQ, d, T.DLQ);
    PublishToOne(qs, T.EXCHANGE_DLX, T.ROUTING_RETRY, d, T.Processing);
    PublishToOne(qs, T.SendToRetry(count).exchange, T.SendToRetry(count).key, d, T.RetryQueue(count));
  }

  /** Who is running: a worker, or an API request with the message id it may issue. */
  datatype Actor = AWorker(w: nat) | ARequest(r: nat, id: MsgId)

  /** The action belongs to somebody else. Ids are unique, so nobody else stages under ours. */
  predicate NotBy(me: Actor, a: Action) {
    match me
    case AWorker(w) => ByWorker(a) ==> a.w != w
    case ARequest(r, id) => (ByApi(a) ==> a.r != r) && (a.StagePut? ==> a.id != id)
  }

  /** The message id is this request's alone: it has not been issued, or this request is its upload. */
  ghost predicate Mine(s: State, r: nat, id: MsgId) {
    id !in s.h.sources || (r in s.requests && s.requests[r].Uploading? && s.requests[r].msg.id == id)
  }

  ghost predicate Unpublished(s: State, id: MsgId) {
    forall m :: m in s.h.published ==> m.id != id
  }

  /** An actor of which the calls are counted. */
  datatype Caller = WorkerCalls(w: nat) | RequestCalls(r: nat)

  function CallerOf(me: Actor): Caller {
    match me
    case AWorker(w) => WorkerCalls(w)
    case ARequest(r, _) => RequestCalls(r)
  }

  /** The action records a call of this caller that failed. */
  predicate FailedCall(who: Caller, a: Action) {
    match who
    case WorkerCalls(w) => a.Work? && a.w == w && !a.ok
    case RequestCalls(r) =>
      && (a.UpsertRow? || a.PublishMsg? || a.Unstage? || a.FailUploadRow? || a.RemoveObject? || a.RemoveRow?)
      && a.r == r && !a.ok
  }

  /** How many failed calls of this caller a trace records. */
  function Failures(who: Caller, trace: seq<Action>): nat {
    if trace == [] then 0
    else Failures(who, trace[..|trace| - 1]) + if FailedCall(who, trace[|trace| - 1]) then 1 else 0
  }

  lemma FailuresOfExtension(who: Caller, trace: seq<Action>, a: Action)
    ensures Failures(who, trace + [a]) == Failures(who, trace) + if FailedCall(who, a) then 1 else 0
  {
    assert (trace + [a])[..|trace|] == trace;
  }

  /** What the others do are no failures of this actor. */
  lemma {:induction false} OthersFailForThemselves(me: Actor, trace: seq<Action>, others: seq<Action>)
    requires forall i :: 0 <= i < |others| ==> NotBy(me, others[i])
    ensures Failures(CallerOf(me), trace + others) == Failures(CallerOf(me), trace)
  {
    if others == [] {
      assert trace + others == trace;
    } else {
      var n := |others| - 1;
      OthersFailForThemselves(me, trace, others[..n]);
      assert trace + others == (trace + others[..n]) + [others[n]];
      FailuresOfExtension(CallerOf(me), trace + others[..n], others[n]);
    }
  }

  /** What the others do leaves this actor where it was. */
  lemma {:induction false} OthersKeepMyPlace(codec: Codec, s: State, acts: seq<Action>, me: Actor)
    requires C.IdsFresh(s) && forall i :: 0 <= i < |acts| ==> NotBy(me, acts[i])
    ensures var t := Run(codec, s, acts);
      && C.IdsFresh(t)
      && |t.workers| == |s.workers|
      && (me.AWorker? && me.w < |s.workers| ==> t.workers[me.w] == s.workers[me.w])
      && (me.ARequest? ==> (me.r in t.requests <==> me.r in s.requests))
      && (me.ARequest? && me.r in s.requests ==> t.requests[me.r] == s.requests[me.r])
      && (me.ARequest? && me.id !in s.h.sources ==> me.id !in t.h.sources)
      && (me.ARequest? && Mine(s, me.r, me.id) && Unpublished(s, me.id) ==> Unpublished(t, me.id))
  {
    hide C.IdsFresh;
    if acts != [] {
      OthersKeepMyPlace(codec, s, acts[..|acts| - 1], me);
      OtherKeepsMyPlace(codec, Run(codec, s, acts[..|acts| - 1]), acts[|acts| - 1], me);
    }
  }

  lemma OtherKeepsMyPlace(codec: Codec, s: State, a: Action, me: Actor)
    requires C.IdsFresh(s) && NotBy(me, a)
    ensures var t := Apply(codec, s, a);
      && C.IdsFresh(t)
      && |t.workers| == |s.workers|
      && (me.AWorker? && me.w < |s.workers| ==> t.workers[me.w] == s.workers[me.w])
      && (me.ARequest? ==> (me.r in t.requests <==> me.r in s.requests))
      && (me.ARequest? && me.r in s.requests ==> t.requests[me.r] == s.requests[me.r])
      && (me.ARequest? && me.id !in s.h.sources ==> me.id !in t.h.sources)
      && (me.ARequest? && Mine(s, me.r, me.id) && Unpublished(s, me.id) ==> Unpublished(t, me.id))
  {
    hide C.IdsFresh, Unpublished, ApplyWork, ApplyDeliver, ApplyCrash, ApplyExpire;
    C.IdsFreshStep(codec, s, a);
    if ByApi(a) {
      OthersKeepWorkers(codec, s, a);
      hide Mine;
    } else {
      OthersKeepRequests(codec, s, a);
      OnlyItsWorker(codec, s, a);
      hide Apply;
    }
    if me.ARequest? && Mine(s, me.r, me.id) && Unpublished(s, me.id) {
      StaysUnpublished(codec, s, a, me.r, me.id);
    }
  }

  lemma OnlyItsWorker(codec: Codec, s: State, a: Action)
    requires !ByApi(a)
    ensures var t := Apply(codec, s, a);
      && |t.workers| == |s.workers|
      && forall w :: 0 <= w < |s.workers| && (ByWorker(a) ==> a.w != w) ==> t.workers[w] == s.workers[w]
  {
    hide NextWorker, QueuesAfter, RowsAfter, ObjectsAfter, ProcessedAfter, HistoryAfter;
  }

  lemma StaysUnpublished(codec: Codec, s: State, a: Action, r: nat, id: MsgId)
    requires C.IdsFresh(s) && Mine(s, r, id) && Unpublished(s, id)
    requires ByApi(a) ==> a.r != r
    ensures Unpublished(Apply(codec, s, a), id)
  {
    if a.PublishMsg? {
      if Enabled(s, a) {
        assert s.requests[a.r].msg.id != id;
      }
    } else if ByApi(a) {
      NonPublishKeepsQueues(codec, s, a);
    } else {
      OthersKeepRequests(codec, s, a);
    }
  }

  ghost function Unacked(workers: seq<Worker>): map<nat, Delivery> {
    map w: nat | w < |workers| && workers[w].Busy? :: workers[w].d
  }

  function HungFlag(s: State): nat {
    if |s.workers| == 0 || s.workers[0].Idle? then 0
    else if s.workers[0].pc == Hung || s.workers[0].pc == HungRetried then 1 else 0
  }

  /**
   The termination order of the consumer loop: faults left, then a hung worker to restart, then what
   is left to do.
   */
  ghost predicate Lower(f: nat, s: State, f0: nat, s0: State) {
    f < f0 || (f == f0 && (HungFlag(s) < HungFlag(s0) || (HungFlag(s) == HungFlag(s0) && Phi(s) < Phi(s0))))
  }

  /** A point of a run: the actions so far, the disturbances left, and the state they led to. */
  datatype Point = Point(trace: seq<Action>, faultsLeft: nat, st: State)

  /**
   Worker `w` went from point `a` to point `b` of a run, by calls only. Each of its calls that
   is on record as failed did fail. If disturbances are bounded it is closer to the end; if it
   was alone, nothing else happened, and without a disturbance all of its calls went through.
   */
  ghost predicate Advance(solo: bool, bounded: bool, w: nat, a: Point, b: Point) {
    && a.trace <= b.trace && |b.st.workers| == |a.st.workers| && b.faultsLeft <= a.faultsLeft
    && Failures(WorkerCalls(w), b.trace) + b.faultsLeft <= Failures(WorkerCalls(w), a.trace) + a.faultsLeft
    && (forall i :: |a.trace| <= i < |b.trace| && ByWorker(b.trace[i]) && b.trace[i].w == w ==> b.trace[i].Work?)
    && (bounded ==> Lower(b.faultsLeft, b.st, a.faultsLeft, a.st))
    && (solo ==> forall i :: |a.trace| <= i < |b.trace| ==> b.trace[i].Work? && b.trace[i].w == w)
    && (solo && b.faultsLeft == a.faultsLeft ==> forall i :: |a.trace| <= i < |b.trace| ==> Progresses(b.trace[i]))
  }

  /** Worker `w`, alone, made one call between points `a` and `b`. */
  ghost predicate CalledAlone(codec: Codec, w: nat, a: Point, b: Point) {
    && |b.trace| == |a.trace| + 1 && a.trace <= b.trace
    && var act := b.trace[|a.trace|];
    && act.Work? && act.w == w && Enabled(a.st, act) && b.st == Apply(codec, a.st, act)
    && b.faultsLeft == a.faultsLeft - if act.ok then 0 else 1
  }

  /** Point `b` is point `a`, or worker `w` went there from `a`. */
  ghost predicate Reached(solo: bool, bounded: bool, w: nat, a: Point, b: Point) {
    a == b || Advance(solo, bounded, w, a, b)
  }

  lemma AdvanceFurther(solo: bool, bounded: bool, w: nat, a: Point, b: Point, c: Point)
    requires Reached(solo, bounded, w, a, b) && Advance(solo, bounded, w, b, c)
    ensures Advance(solo, bounded, w, a, c)
  {
    hide Lower, Failures;
    if bounded && a != b {
      LowerTransitive(c.faultsLeft, c.st, b.faultsLeft, b.st, a.faultsLeft, a.st);
    }
    assert forall i :: 0 <= i < |b.trace| ==> c.trace[i] == b.trace[i];
  }

  lemma LowerTransitive(f: nat, s: State, g: nat, t: State, h: nat, v: State)
    requires Lower(f, s, g, t) && Lower(g, t, h, v)
    ensures Lower(f, s, h, v)
  {
    hide Phi, HungFlag;
  }

  /**
   Request `r` went from point `a` to point `b`: each of its calls that is on record as failed
   did fail, and it was not given up.
   */
  ghost predicate RequestWent(r: nat, a: Point, b: Point) {
    && a.trace <= b.trace && b.faultsLeft <= a.faultsLeft
    && Failures(RequestCalls(r), b.trace) + b.faultsLeft <= Failures(RequestCalls(r), a.trace) + a.faultsLeft
    && forall i :: |a.trace| <= i < |b.trace| ==> b.trace[i] != Abandon(r)
  }

  lemma RequestWentOn(r: nat, a: Point, b: Point, c: Point)
    requires RequestWent(r, a, b) && RequestWent(r, b, c)
    ensures RequestWent(r, a, c)
  {
    hide Failures;
    assert forall i :: 0 <= i < |b.trace| ==> c.trace[i] == b.trace[i];
  }

  class World {
    const codec: Codec
    const db: PostgresStorage
    const store: ObjectStore
    const channel: AmqpChannel
    var now: nat
    var faultsLeft: nat          // how many more calls may fail, or others interfere; any number
    ghost const origin: State
    ghost const solo: bool       // nobody interferes
    ghost const bounded: bool    // others interfere no more often than that
    ghost var trace: seq<Action>
    ghost var st: State

    ghost predicate Valid()
      reads this, db, store, channel
    {
      && st == Run(codec, origin, trace)
      && SqlRows(db.Contents()) == st.rows
      && db.processed.Keys == st.processed
      && store.objects == st.objects
      && channel.queues == st.queues
      && channel.unacked == Unacked(st.workers)
      && now == st.now
      && C.IdsFresh(st)
    }

    /** Where the run stands. */
    ghost function Now(): Point
      reads this
    {
      Point(trace, faultsLeft, st)
    }

    ghost predicate WorkerAt(w: nat, d: Delivery, pc: Pc)
      reads this
    {
      w < |st.workers| && st.workers[w].Busy? && st.workers[w].d == d && st.workers[w].pc == pc
    }

    /** A deployment with empty stores, over whatever the queues still hold. */
    constructor (codec: Codec, ghost workers: nat, backlog: Queues, faults: nat, ghost solo: bool, ghost bounded: bool)
      ensures Valid() && fresh(db) && fresh(store) && fresh(channel)
      ensures origin == st == InitWith(workers, backlog) && trace == [] && faultsLeft == faults
      ensures this.solo == solo && this.bounded == bounded && this.codec == codec
    {
      this.codec := codec;
      db := new PostgresStorage();
      store := new ObjectStore();
      channel := new AmqpChannel(backlog);
      now, faultsLeft := 0, faults;
      origin, trace, st := InitWith(workers, backlog), [], InitWith(workers, backlog);
      this.solo, this.bounded := solo, bounded;
      new;
      assert Unacked(st.workers) == map[];
    }

    /**
     Any actions of the other actors happen here. The contract is all that callers go by: it
     admits every sequence of actions that are not the caller's own. The body is the one
     environment in which nobody else runs.
     */
    method Interfere(ghost me: Actor) returns (ghost others: seq<Action>)
      requires Valid()
      modifies this, db, store, channel
      ensures Valid()
      ensures forall i :: 0 <= i < |others| ==> NotBy(me, others[i])
      ensures trace == old(trace) + others && st == Run(codec, old(st), others)
      ensures faultsLeft <= old(faultsLeft)
      ensures solo ==> others == [] && faultsLeft == old(faultsLeft)
      ensures bounded ==> faultsLeft < old(faultsLeft) || (others == [] && faultsLeft == old(faultsLeft))
    {
      others := [];
      assert trace + others == trace;
    }

    /** Whether the next call goes through. */
    method Chance() returns (up: bool)
      modifies this`faultsLeft
      ensures !up ==> old(faultsLeft) > 0
      ensures faultsLeft == if up then old(faultsLeft) else old(faultsLeft) - 1
    {
      var unlucky: bool := *;
      if faultsLeft > 0 && unlucky {
        faultsLeft := faultsLeft - 1;
        return false;
      }
      return true;
    }

    /** Records one action of the caller in the ghost run. */
    ghost method Record(a: Action)
      requires st == Run(codec, origin, trace) && C.IdsFresh(st)
      modifies this`trace, this`st
      ensures st == Run(codec, origin, trace) && C.IdsFresh(st)
      ensures st == Apply(codec, old(st), a) && trace == old(trace) + [a]
    {
      RunExtend(codec, origin, trace, a);
      C.IdsFreshStep(codec, st, a);
      trace := trace + [a];
      st := Apply(codec, st, a);
    }

    /** Lets the others run; then decides whether this actor's next call goes through. */
    method Turn(ghost me: Actor) returns (up: bool)
      requires Valid()
      modifies this, db, store, channel
      ensures Valid() && old(trace) <= trace
      ensures forall i :: |old(trace)| <= i < |trace| ==> NotBy(me, trace[i])
      ensures Failures(CallerOf(me), trace) == Failures(CallerOf(me), old(trace))
      ensures solo ==> trace == old(trace)
      ensures !up ==> faultsLeft < old(faultsLeft)
      ensures |st.workers| == |old(st).workers|
      ensures me.AWorker? && me.w < |st.workers| ==> st.workers[me.w] == old(st).workers[me.w]
      ensures me.ARequest? ==> (me.r in st.requests <==> me.r in old(st).requests)
      ensures me.ARequest? && me.r in st.requests ==> st.requests[me.r] == old(st).requests[me.r]
      ensures me.ARequest? && me.id !in old(st).h.sources ==> me.id !in st.h.sources
      ensures me.ARequest? && Mine(old(st), me.r, me.id) && Unpublished(old(st), me.id) ==> Unpublished(st, me.id)
      ensures solo ==> st == old(st) && faultsLeft == if up then old(faultsLeft) else old(faultsLeft) - 1
      ensures solo && !up ==> old(faultsLeft) > 0
      ensures bounded ==> faultsLeft < old(faultsLeft) || (up && st == old(st) && faultsLeft == old(faultsLeft))
      ensures faultsLeft <= old(faultsLeft)
    {
      hide C.IdsFresh;
      ghost var before := st;
      ghost var others := Interfere(me);
      OthersKeepMyPlace(codec, before, others, me);
      OthersFailForThemselves(me, old(trace), others);
      up := Chance();
    }
  }
}
