/**
 The service when nothing fails: one worker, queues in order, uploads of processable pictures
 only, no DELETE. Uploads and the worker still interleave freely. Once everything is handled,
 every user's avatar is the picture of the last message published for that user.
 */
module EndToEnd {
  import opened Avatars
  import opened Conservation
  import opened Keys
  import opened Ownership
  import opened Pipeline
  import opened Processor
  import opened SourceKeeping
  import opened Termination
  import opened Torn
  import opened Wrappers

  /** The actions of a run in which nothing fails. */
  predicate Benign(codec: Codec, a: Action) {
    match a
    case StagePut(_, _, _, bytes) => Process(codec, bytes).Some?
    case UpsertRow(_, ok) => ok
    case PublishMsg(_, ok) => ok
    case Deliver(_, i) => i == 0
    case Work(_, ok, _, _) => ok
    case Expire(_) => true
    case Tick(_) => true
    case _ => false
  }

  function Msgs(q: seq<Delivery>): seq<Msg> {
    seq(|q|, i requires 0 <= i < |q| => q[i].msg)
  }

  function HeldMsg(x: Worker): seq<Msg> {
    if x.Busy? then [x.d.msg] else []
  }

  predicate BeforeReady(pc: Pc) {
    pc == Check || pc == Start || pc == Download || pc == PutOriginal || pc == PutThumb || pc == MarkReady
  }

  predicate AfterReady(pc: Pc) {
    pc == Cleanup || pc == Mark || pc == AckDone
  }

  /** The messages made ready so far, in order. */
  function ReadiedMsgs(s: State): seq<Msg>
    requires |s.workers| == 1
  {
    var x := s.workers[0];
    s.h.handled + if x.Busy? && AfterReady(x.pc) then [x.d.msg] else []
  }

  function MarkedMsgs(s: State): seq<Msg>
    requires |s.workers| == 1
  {
    var x := s.workers[0];
    s.h.handled + if x.Busy? && x.pc == AckDone then [x.d.msg] else []
  }

  ghost predicate HasId(ms: seq<Msg>, id: MsgId) {
    exists i :: 0 <= i < |ms| && ms[i].id == id
  }

  /** Messages flow through in publish order: handled, then held, then waiting. */
  ghost predicate InOrder(codec: Codec, s: State) {
    && |s.workers| == 1
    && (s.workers[0].Busy? ==> s.workers[0].d.readable && (BeforeReady(s.workers[0].pc) || AfterReady(s.workers[0].pc)))
    && (forall d :: d in s.queues.processing ==> d.readable)
    && s.queues.retry30s == [] && s.queues.retry2m == [] && s.queues.dlq == []
    && s.h.published == s.h.handled + HeldMsg(s.workers[0]) + Msgs(s.queues.processing)
    && (forall id :: id in s.processed ==> HasId(MarkedMsgs(s), id))
    && (forall id :: id in s.h.readied ==> HasId(ReadiedMsgs(s), id))
    && (forall r :: r in s.requests ==> BeforePublish(s.requests[r]))
    && s.h.removed == {}
    && (forall id :: id in s.h.sources ==> Process(codec, s.h.sources[id].bytes).Some?)
  }

  /** The held message, until it is made ready, is one that was never made ready or marked. */
  lemma HeldIsNew(codec: Codec, s: State)
    requires InOrder(codec, s) && DistinctIds(s.h.published) && s.workers[0].Busy?
    ensures BeforeReady(s.workers[0].pc) ==>
      s.workers[0].d.msg.id !in s.processed && s.workers[0].d.msg.id !in s.h.readied
  {
    hide Process;
    var n := |s.h.handled|;
    assert s.h.published[n] == s.workers[0].d.msg;
    assert forall i :: 0 <= i < n ==> s.h.published[i] == s.h.handled[i];
  }

  /** The worker's next call is the next one of the handler that goes through. */
  predicate Straight(x: Worker, y: Worker)
    requires x.Busy?
  {
    match x.pc
    case Check => y == x.(pc := Start)
    case Start => y == x.(pc := Download)
    case Download => y.Busy? && y.d == x.d && y.pc == PutOriginal
    case PutOriginal => y == x.(pc := PutThumb)
    case PutThumb => y == x.(pc := MarkReady)
    case MarkReady => y == x.(pc := Cleanup)
    case Cleanup => y == x.(pc := Mark)
    case Mark => y == x.(pc := AckDone)
    case AckDone => y == Idle
    case _ => false
  }

  /** Without faults, each call of the worker leads to the next one on the straight path. */
  lemma StraightPath(codec: Codec, s: State)
    requires InOrder(codec, s) && DistinctIds(s.h.published) && Structured(s) && SourcesKept(s) && s.workers[0].Busy?
    ensures Straight(s.workers[0], NextWorker(codec, s, s.workers[0], true))
  {
    hide Process, RowsOk, DeletesOk, CopiesOk;
    HeldIsNew(codec, s);
    var x := s.workers[0];
    var m := x.d.msg;
    assert HeldOk(s.h, x);
    if x.pc == Download {
      assert Kept(s.h, s.objects, m);
      assert ObjectOk(s.h, m.stagingKey, s.objects[m.stagingKey]);
    }
  }

  lemma MsgsTail(q: seq<Delivery>)
    requires q != []
    ensures Msgs(q) == [q[0].msg] + Msgs(RemoveAt(q, 0))
  {
    assert RemoveAt(q, 0) == q[1..];
  }

  lemma MsgsPush(q: seq<Delivery>, d: Delivery)
    ensures Msgs(q + [d]) == Msgs(q) + [d.msg]
  {
  }

  lemma InOrderWork(codec: Codec, s: State, pos: nat, text: string)
    requires InOrder(codec, s) && DistinctIds(s.h.published) && Structured(s) && SourcesKept(s)
    requires Enabled(s, Work(0, true, pos, text))
    ensures InOrder(codec, ApplyWork(codec, s, 0, true, pos, text))
  {
    hide Process, RowsAfter, ObjectsAfter, Structured, SourcesKept, Msgs, HasId, MarkedMsgs, ReadiedMsgs, DistinctIds;
    StraightPath(codec, s);
    hide NextWorker;
    var t := ApplyWork(codec, s, 0, true, pos, text);
    assert t.h.handled + HeldMsg(t.workers[0]) == s.h.handled + HeldMsg(s.workers[0]);
    MarkedGrow(codec, s, pos, text);
  }

  /** A call on the straight path extends the marked messages by what it marks, and the readied ones likewise. */
  lemma ListsGrow(s: State, t: State)
    requires |s.workers| == |t.workers| == 1 && s.workers[0].Busy? && Straight(s.workers[0], t.workers[0])
    requires t.h == HistoryAfter(s.h, s.workers[0], true)
    ensures var x := s.workers[0];
      && MarkedMsgs(t) == MarkedMsgs(s) + (if x.pc == Mark then [x.d.msg] else [])
      && ReadiedMsgs(t) == ReadiedMsgs(s) + (if x.pc == MarkReady then [x.d.msg] else [])
      && t.h.readied == s.h.readied + if x.pc == MarkReady then {x.d.msg.id} else {}
  {
  }

  lemma MarkedGrow(codec: Codec, s: State, pos: nat, text: string)
    requires InOrder(codec, s) && DistinctIds(s.h.published) && Structured(s) && SourcesKept(s)
    requires Enabled(s, Work(0, true, pos, text))
    ensures var t := ApplyWork(codec, s, 0, true, pos, text);
      && (forall id :: id in t.processed ==> HasId(MarkedMsgs(t), id))
      && (forall id :: id in t.h.readied ==> HasId(ReadiedMsgs(t), id))
  {
    hide Process, RowsAfter, ObjectsAfter, QueuesAfter, HistoryAfter, Structured, SourcesKept, Msgs, NextWorker,
      Straight, MarkedMsgs, ReadiedMsgs;
    StraightPath(codec, s);
    assert forall id :: id in s.processed ==> HasId(MarkedMsgs(s), id);
    assert forall id :: id in s.h.readied ==> HasId(ReadiedMsgs(s), id);
    hide InOrder, DistinctIds;
    var t := ApplyWork(codec, s, 0, true, pos, text);
    assert t.processed == ProcessedAfter(s.processed, s.workers[0], true);
    ListsGrow(s, t);
    hide ApplyWork;
    HasIdGrows(MarkedMsgs(s), s.workers[0].d.msg);
    HasIdGrows(ReadiedMsgs(s), s.workers[0].d.msg);
    hide HasId;
  }

  lemma HasIdGrows(ms: seq<Msg>, m: Msg)
    ensures HasId(ms + [m], m.id)
    ensures forall id :: HasId(ms, id) ==> HasId(ms + [m], id)
    ensures ms + [] == ms
  {
    assert (ms + [m])[|ms|] == m;
    forall id | HasId(ms, id)
      ensures HasId(ms + [m], id)
    {
      var i :| 0 <= i < |ms| && ms[i].id == id;
      assert (ms + [m])[i].id == id;
    }
  }

  lemma InOrderStep(codec: Codec, s: State, a: Action)
    requires InOrder(codec, s) && DistinctIds(s.h.published) && Structured(s) && SourcesKept(s)
    requires Benign(codec, a)
    ensures InOrder(codec, Apply(codec, s, a))
  {
    hide ApplyWork, ApplyDeliver, ApplyPublish, ApplyStagePut, ApplyUpsert, Process, Structured, SourcesKept, Msgs,
      HasId;
    if Enabled(s, a) {
      match a {
        case Work(w, ok, pos, text) => InOrderWork(codec, s, pos, text);
        case Deliver(w, i) => InOrderDeliver(codec, s);
        case PublishMsg(r, ok) => InOrderPublish(codec, s, r);
        case StagePut(_, _, _, _) => InOrderOther(codec, s, a);
        case UpsertRow(_, _) => InOrderOther(codec, s, a);
        case Expire(_) =>
        case Tick(_) =>
      }
    }
  }

  lemma InOrderOther(codec: Codec, s: State, a: Action)
    requires InOrder(codec, s) && Enabled(s, a) && Benign(codec, a) && (a.StagePut? || a.UpsertRow?)
    ensures InOrder(codec, Apply(codec, s, a))
  {
    hide Process, Msgs, HasId, ApplyWork, ApplyDeliver, ApplyPublish;
  }

  lemma InOrderDeliver(codec: Codec, s: State)
    requires InOrder(codec, s) && Enabled(s, Deliver(0, 0))
    ensures InOrder(codec, ApplyDeliver(s, 0, 0))
  {
    hide Process;
    MsgsTail(s.queues.processing);
    hide Msgs;
    assert s.queues.processing[0] in s.queues.processing;
    var t := ApplyDeliver(s, 0, 0);
    assert MarkedMsgs(t) == MarkedMsgs(s) && ReadiedMsgs(t) == ReadiedMsgs(s);
    assert s.h.handled + [] == s.h.handled;
  }

  lemma InOrderPublish(codec: Codec, s: State, r: nat)
    requires InOrder(codec, s) && Enabled(s, PublishMsg(r, true))
    ensures InOrder(codec, ApplyPublish(s, r, true))
  {
    hide Process;
    MsgsPush(s.queues.processing, FirstCopy(s.requests[r].msg, s.now));
    hide Msgs;
  }

  // ---- staging objects ----

  /** Some upload or message still needs the source with this id. */
  ghost predicate Needed(s: State, id: MsgId)
    requires |s.workers| == 1
  {
    || (exists r :: r in s.requests && BeforePublish(s.requests[r]) && s.requests[r].msg.id == id)
    || (exists i :: 0 <= i < |s.queues.processing| && s.queues.processing[i].msg.id == id)
    || (s.workers[0].Busy? && (BeforeReady(s.workers[0].pc) || s.workers[0].pc == Cleanup) &&
       s.workers[0].d.msg.id == id)
  }

  ghost predicate StagingNeeded(s: State) {
    && |s.workers| == 1
    && forall k :: k in s.objects && k.Staging? ==> Needed(s, k.id)
  }

  lemma StagingNeededStep(codec: Codec, s: State, a: Action)
    requires InOrder(codec, s) && DistinctIds(s.h.published) && Structured(s) && SourcesKept(s)
    requires StagingNeeded(s) && Benign(codec, a)
    ensures StagingNeeded(Apply(codec, s, a))
  {
    hide Process, Msgs, Structured, SourcesKept, ApplyWork, ApplyDeliver, ApplyPublish, ApplyUpsert, ApplyStagePut,
      Needed;
    if Enabled(s, a) {
      match a {
        case Work(w, ok, pos, text) => WorkKeepsStagingNeeded(codec, s, pos, text);
        case Deliver(w, i) =>
          assert s.queues.processing[0] in s.queues.processing;
          SameObjects(s, 0, false);
          forall id | Needed(s, id) ensures Needed(ApplyDeliver(s, 0, 0), id) { DeliverKeepsNeeded(s, id); }
        case PublishMsg(r, ok) =>
          SameObjects(s, r, true);
          forall id | Needed(s, id) ensures Needed(ApplyPublish(s, r, true), id) { PublishKeepsNeeded(s, r, id); }
        case UpsertRow(r, ok) => UpsertKeepsStagingNeeded(s, r);
        case StagePut(r, u, id, bytes) => StagePutKeepsStagingNeeded(s, r, u, id, bytes);
        case Expire(q) => assert false;
        case Tick(dt) => TickKeepsStagingNeeded(s, dt);
      }
    }
  }

  lemma SameObjects(s: State, r: nat, publish: bool)
    requires if publish then UploadAt(s, r, Publish) else |s.workers| > 0 && |s.queues.processing| > 0
    ensures if publish
      then ApplyPublish(s, r, true).objects == s.objects && ApplyPublish(s, r, true).workers == s.workers
      else ApplyDeliver(s, 0, 0).objects == s.objects && |ApplyDeliver(s, 0, 0).workers| == |s.workers|
  {
  }

  lemma UpsertKeepsStagingNeeded(s: State, r: nat)
    requires StagingNeeded(s) && Enabled(s, UpsertRow(r, true))
    ensures StagingNeeded(ApplyUpsert(s, r, true))
  {
    hide Needed;
    forall id | Needed(s, id) ensures Needed(ApplyUpsert(s, r, true), id) { UpsertKeepsNeeded(s, r, id); }
  }

  lemma StagePutKeepsStagingNeeded(s: State, r: nat, u: UserId, id: MsgId, bytes: Bytes)
    requires StagingNeeded(s) && Enabled(s, StagePut(r, u, id, bytes))
    ensures StagingNeeded(ApplyStagePut(s, r, u, id, bytes))
  {
    var t := ApplyStagePut(s, r, u, id, bytes);
    assert t.requests[r].msg.id == id;
    assert Needed(t, id);
    forall i | Needed(s, i) ensures Needed(t, i) { StagePutKeepsNeeded(s, r, u, id, bytes, i); }
    hide Needed;
  }

  lemma TickKeepsStagingNeeded(s: State, dt: nat)
    requires StagingNeeded(s)
    ensures StagingNeeded(s.(now := s.now + dt))
  {
    forall id | Needed(s, id) ensures Needed(s.(now := s.now + dt), id) { }
  }

  lemma WorkKeepsStagingNeeded(codec: Codec, s: State, pos: nat, text: string)
    requires InOrder(codec, s) && DistinctIds(s.h.published) && Structured(s) && SourcesKept(s)
    requires StagingNeeded(s) && Enabled(s, Work(0, true, pos, text))
    ensures StagingNeeded(ApplyWork(codec, s, 0, true, pos, text))
  {
    hide Process, Msgs, RowsAfter, HistoryAfter, ProcessedAfter, RowsOk, CopiesOk, DeletesOk, ObjectsOk, SourcesKept;
    var x := s.workers[0];
    var t := ApplyWork(codec, s, 0, true, pos, text);
    assert HeldOk(s.h, x);
    StraightPath(codec, s);
    hide NextWorker;
    assert t.queues == s.queues && t.requests == s.requests;
    forall k | k in t.objects && k.Staging?
      ensures Needed(t, k.id)
    {
      assert k in s.objects && Needed(s, k.id);
      if x.pc == Cleanup && k.id == x.d.msg.id {
        StagingKeyOf(codec, s, k);
      }
    }
  }

  /** The staging object that a worker in the handler is about to remove is the only one with that id. */
  lemma StagingKeyOf(codec: Codec, s: State, k: Key)
    requires Structured(s) && |s.workers| == 1 && s.workers[0].Busy?
    requires HeldOk(s.h, s.workers[0]) && s.workers[0].d.readable
    requires k in s.objects && k.Staging? && k.id == s.workers[0].d.msg.id
    ensures k == s.workers[0].d.msg.stagingKey
  {
    assert ObjectOk(s.h, k, s.objects[k]);
    assert MsgOk(s.h.sources, s.workers[0].d.msg);
  }

  lemma DeliverKeepsNeeded(s: State, id: MsgId)
    requires |s.workers| == 1 && Enabled(s, Deliver(0, 0)) && s.queues.processing[0].readable && Needed(s, id)
    ensures Needed(ApplyDeliver(s, 0, 0), id)
  {
    var t := ApplyDeliver(s, 0, 0);
    assert t.queues.processing == s.queues.processing[1..];
    if i :| 1 <= i < |s.queues.processing| && s.queues.processing[i].msg.id == id {
      assert t.queues.processing[i - 1].msg.id == id;
    } else if i :| 0 <= i < |s.queues.processing| && s.queues.processing[i].msg.id == id {
      assert i == 0;
    } else {
      assert t.requests == s.requests;
    }
  }

  lemma PublishKeepsNeeded(s: State, r: nat, id: MsgId)
    requires |s.workers| == 1 && Enabled(s, PublishMsg(r, true)) && Needed(s, id)
    ensures Needed(ApplyPublish(s, r, true), id)
  {
    var t := ApplyPublish(s, r, true);
    var q := s.queues.processing;
    assert t.queues.processing[|q|].msg == s.requests[r].msg;
    if p :| p in s.requests && BeforePublish(s.requests[p]) && s.requests[p].msg.id == id {
      assert p != r ==> t.requests[p] == s.requests[p];
    } else if i :| 0 <= i < |q| && q[i].msg.id == id {
      assert t.queues.processing[i] == q[i];
    }
  }

  lemma UpsertKeepsNeeded(s: State, r: nat, id: MsgId)
    requires |s.workers| == 1 && Enabled(s, UpsertRow(r, true)) && Needed(s, id)
    ensures Needed(ApplyUpsert(s, r, true), id)
  {
    var t := ApplyUpsert(s, r, true);
    if p :| p in s.requests && BeforePublish(s.requests[p]) && s.requests[p].msg.id == id {
      assert p in t.requests && BeforePublish(t.requests[p]) && t.requests[p].msg == s.requests[p].msg;
    }
  }

  lemma StagePutKeepsNeeded(s: State, r: nat, u: UserId, id: MsgId, bytes: Bytes, old_id: MsgId)
    requires |s.workers| == 1 && Enabled(s, StagePut(r, u, id, bytes)) && Needed(s, old_id)
    ensures Needed(ApplyStagePut(s, r, u, id, bytes), old_id)
  {
    var t := ApplyStagePut(s, r, u, id, bytes);
    if p :| p in s.requests && BeforePublish(s.requests[p]) && s.requests[p].msg.id == old_id {
      assert p != r && t.requests[p] == s.requests[p];
    }
  }

  // ---- which upload a user's avatar shows ----

  /** The id of the last of these messages that is for user `u`. */
  function LastOf(ms: seq<Msg>, u: UserId): Option<MsgId> {
    if ms == [] then None
    else if ms[|ms| - 1].user == u then Some(ms[|ms| - 1].id)
    else LastOf(ms[..|ms| - 1], u)
  }

  lemma LastOfPush(ms: seq<Msg>, m: Msg, u: UserId)
    ensures LastOf(ms + [m], u) == if m.user == u then Some(m.id) else LastOf(ms, u)
  {
    assert (ms + [m])[..|ms|] == ms;
  }

  lemma {:induction false} LastOfMember(ms: seq<Msg>, m: Msg)
    requires m in ms
    ensures LastOf(ms, m.user).Some?
  {
    if ms[|ms| - 1].user != m.user {
      assert m in ms[..|ms| - 1];
      LastOfMember(ms[..|ms| - 1], m);
    }
  }

  ghost predicate ShowsLast(s: State) {
    && |s.workers| == 1
    && forall u :: LastOf(ReadiedMsgs(s), u) == if u in s.h.shown then Some(s.h.shown[u]) else None
  }

  lemma ShowsLastStep(codec: Codec, s: State, a: Action)
    requires InOrder(codec, s) && DistinctIds(s.h.published) && Structured(s) && SourcesKept(s)
    requires ShowsLast(s) && Benign(codec, a)
    ensures ShowsLast(Apply(codec, s, a))
  {
    hide Process, Msgs, Structured, SourcesKept, LastOf;
    if Enabled(s, a) {
      var t := Apply(codec, s, a);
      if a.Work? {
        ShowsLastWork(codec, s, a.pos, a.text);
      } else {
        hide ApplyWork;
        assert ReadiedMsgs(t) == ReadiedMsgs(s);
      }
    }
  }

  lemma ShowsLastWork(codec: Codec, s: State, pos: nat, text: string)
    requires InOrder(codec, s) && DistinctIds(s.h.published) && Structured(s) && SourcesKept(s)
    requires ShowsLast(s) && Enabled(s, Work(0, true, pos, text))
    ensures ShowsLast(ApplyWork(codec, s, 0, true, pos, text))
  {
    hide Process, Msgs, Structured, SourcesKept, LastOf, RowsAfter, ObjectsAfter, QueuesAfter, ProcessedAfter;
    StraightPath(codec, s);
    hide NextWorker;
    var t := ApplyWork(codec, s, 0, true, pos, text);
    var m := s.workers[0].d.msg;
    assert ReadiedMsgs(t) == ReadiedMsgs(s) + if s.workers[0].pc == MarkReady then [m] else [];
    assert ReadiedMsgs(s) + [] == ReadiedMsgs(s);
    forall u
      ensures LastOf(ReadiedMsgs(t), u) == if u in t.h.shown then Some(t.h.shown[u]) else None
    {
      LastOfPush(ReadiedMsgs(s), m, u);
    }
  }

  // ---- rows ----

  /** A message of user `u` is still on its way to being made ready. */
  ghost predicate Awaited(s: State, u: UserId)
    requires |s.workers| == 1
  {
    || (exists r :: UploadAt(s, r, Publish) && s.requests[r].msg.user == u)
    || (exists i :: 0 <= i < |s.queues.processing| && s.queues.processing[i].msg.user == u)
    || (s.workers[0].Busy? && BeforeReady(s.workers[0].pc) && s.workers[0].d.msg.user == u)
  }

  /** Every accepted upload has a row, and a row that is not ready awaits a message. */
  ghost predicate RowsAwaited(s: State) {
    && |s.workers| == 1
    && (forall m :: m in s.h.published ==> m.user in s.rows)
    && (forall r :: UploadAt(s, r, Publish) ==> s.requests[r].msg.user in s.rows)
    && (forall u :: u in s.rows ==> s.rows[u].status == Ready || Awaited(s, u))
  }

  lemma RowsAwaitedStep(codec: Codec, s: State, a: Action)
    requires InOrder(codec, s) && DistinctIds(s.h.published) && Structured(s) && SourcesKept(s)
    requires RowsAwaited(s) && Benign(codec, a)
    ensures RowsAwaited(Apply(codec, s, a))
  {
    hide Process, Msgs, Structured, SourcesKept;
    if Enabled(s, a) {
      match a {
        case Work(w, ok, pos, text) => RowsAwaitedWork(codec, s, pos, text);
        case Deliver(w, i) => RowsAwaitedDeliver(codec, s);
        case PublishMsg(r, ok) => RowsAwaitedPublish(s, r);
        case UpsertRow(r, ok) => RowsAwaitedUpsert(s, r);
        case StagePut(r, u, id, bytes) => RowsAwaitedStagePut(s, r, u, id, bytes);
        case _ => hide ApplyWork;
      }
    }
  }

  /** What a call on the straight path means for who is awaited. */
  lemma AlongThePath(codec: Codec, s: State, pos: nat, text: string)
    requires InOrder(codec, s) && DistinctIds(s.h.published) && Structured(s) && SourcesKept(s)
    requires Enabled(s, Work(0, true, pos, text))
    ensures var x, t := s.workers[0], ApplyWork(codec, s, 0, true, pos, text);
      && |s.workers| == |t.workers| == 1 && t.queues == s.queues && t.requests == s.requests
      && t.h.published == s.h.published && t.rows == RowsAfter(s.rows, x, true, text)
      && (BeforeReady(x.pc) && x.pc != MarkReady ==>
            t.workers[0].Busy? && BeforeReady(t.workers[0].pc) && t.workers[0].d == x.d)
      && (!BeforeReady(x.pc) ==> AfterReady(x.pc))
  {
    hide Process, Msgs, Structured, SourcesKept, RowsAfter, ObjectsAfter, ProcessedAfter, DistinctIds, NextWorker;
    StraightPath(codec, s);
  }

  lemma SameUploadsInFlight(s: State, t: State)
    requires t.requests == s.requests
    ensures forall r :: UploadAt(t, r, Publish) <==> UploadAt(s, r, Publish)
  {
  }

  lemma RowsAwaitedWork(codec: Codec, s: State, pos: nat, text: string)
    requires InOrder(codec, s) && DistinctIds(s.h.published) && Structured(s) && SourcesKept(s)
    requires RowsAwaited(s) && Enabled(s, Work(0, true, pos, text))
    ensures RowsAwaited(ApplyWork(codec, s, 0, true, pos, text))
  {
    hide InOrder, DistinctIds, Structured, SourcesKept, Awaited, RowsAfter, ApplyWork, BeforeReady, AfterReady,
      UploadAt;
    AlongThePath(codec, s, pos, text);
    SameUploadsInFlight(s, ApplyWork(codec, s, 0, true, pos, text));
    var t := ApplyWork(codec, s, 0, true, pos, text);
    UserStays(s.rows, s.workers[0], true, text);
    forall u | u in t.rows && t.rows[u].status != Ready
      ensures Awaited(t, u)
    {
      StillAwaited(s, t, u, text);
    }
  }

  /** A call of the worker makes a user's row ready, or leaves its message awaited. */
  lemma StillAwaited(s: State, t: State, u: UserId, text: string)
    requires |s.workers| == |t.workers| == 1 && s.workers[0].Busy? && RowsAwaited(s)
    requires t.queues == s.queues && t.requests == s.requests && t.rows == RowsAfter(s.rows, s.workers[0], true, text)
    requires BeforeReady(s.workers[0].pc) && s.workers[0].pc != MarkReady ==>
      t.workers[0].Busy? && BeforeReady(t.workers[0].pc) && t.workers[0].d == s.workers[0].d
    requires !BeforeReady(s.workers[0].pc) ==> AfterReady(s.workers[0].pc)
    requires u in s.rows && u in t.rows && t.rows[u].status != Ready
    ensures Awaited(t, u)
  {
    assert s.rows[u].status == Ready || Awaited(s, u);
  }

  lemma RowsAwaitedDeliver(codec: Codec, s: State)
    requires InOrder(codec, s) && RowsAwaited(s) && Enabled(s, Deliver(0, 0))
    ensures RowsAwaited(ApplyDeliver(s, 0, 0))
  {
    hide Process, Msgs;
    var t := ApplyDeliver(s, 0, 0);
    assert t.queues.processing == s.queues.processing[1..];
    assert s.queues.processing[0] in s.queues.processing;
    forall u | u in t.rows && t.rows[u].status != Ready
      ensures Awaited(t, u)
    {
      assert Awaited(s, u);
      if i :| 1 <= i < |s.queues.processing| && s.queues.processing[i].msg.user == u {
        assert t.queues.processing[i - 1].msg.user == u;
      } else if r :| UploadAt(s, r, Publish) && s.requests[r].msg.user == u {
        assert UploadAt(t, r, Publish);
      }
    }
  }

  lemma RowsAwaitedPublish(s: State, r: nat)
    requires RowsAwaited(s) && Enabled(s, PublishMsg(r, true))
    ensures RowsAwaited(ApplyPublish(s, r, true))
  {
    var t := ApplyPublish(s, r, true);
    var q := s.queues.processing;
    assert t.queues.processing[|q|].msg == s.requests[r].msg;
    forall p | UploadAt(t, p, Publish)
      ensures t.requests[p].msg.user in t.rows
    {
      assert UploadAt(s, p, Publish);
    }
    forall u | u in t.rows && t.rows[u].status != Ready
      ensures Awaited(t, u)
    {
      assert Awaited(s, u);
      if p :| UploadAt(s, p, Publish) && s.requests[p].msg.user == u {
        assert p != r ==> UploadAt(t, p, Publish);
      } else if i :| 0 <= i < |q| && q[i].msg.user == u {
        assert t.queues.processing[i] == q[i];
      }
    }
  }

  lemma RowsAwaitedUpsert(s: State, r: nat)
    requires RowsAwaited(s) && Enabled(s, UpsertRow(r, true))
    ensures RowsAwaited(ApplyUpsert(s, r, true))
  {
    var t := ApplyUpsert(s, r, true);
    var v := s.requests[r].msg.user;
    assert UploadAt(t, r, Publish) && t.requests[r].msg.user == v;
    forall p | UploadAt(t, p, Publish)
      ensures t.requests[p].msg.user in t.rows
    {
      assert p == r || UploadAt(s, p, Publish);
    }
    forall u | u in t.rows && t.rows[u].status != Ready
      ensures Awaited(t, u)
    {
      if u != v {
        assert Awaited(s, u);
        if p :| UploadAt(s, p, Publish) && s.requests[p].msg.user == u {
          assert UploadAt(t, p, Publish);
        }
      }
    }
  }

  lemma RowsAwaitedStagePut(s: State, r: nat, u: UserId, id: MsgId, bytes: Bytes)
    requires RowsAwaited(s) && Enabled(s, StagePut(r, u, id, bytes))
    ensures RowsAwaited(ApplyStagePut(s, r, u, id, bytes))
  {
    var t := ApplyStagePut(s, r, u, id, bytes);
    assert forall p :: UploadAt(t, p, Publish) <==> UploadAt(s, p, Publish);
    forall v | v in t.rows && t.rows[v].status != Ready
      ensures Awaited(t, v)
    {
      assert Awaited(s, v);
      if p :| UploadAt(s, p, Publish) && s.requests[p].msg.user == v {
        assert UploadAt(t, p, Publish) && t.requests[p] == s.requests[p];
      }
    }
  }

  // ---- the main result ----

  ghost predicate Calm(codec: Codec, s: State) {
    InOrder(codec, s) && StagingNeeded(s) && ShowsLast(s) && RowsAwaited(s)
  }

  ghost predicate AllBenign(codec: Codec, acts: seq<Action>) {
    forall i :: 0 <= i < |acts| ==> Benign(codec, acts[i])
  }

  lemma {:induction false} BenignRunsAreCalm(codec: Codec, acts: seq<Action>)
    requires AllBenign(codec, acts)
    ensures Calm(codec, Run(codec, Init(1), acts))
  {
    if acts != [] {
      var n := |acts| - 1;
      var s := Run(codec, Init(1), acts[..n]);
      BenignRunsAreCalm(codec, acts[..n]);
      EverythingStructured(codec, 1, acts[..n]);
      SourcesAreKept(codec, 1, acts[..n]);
      IdsAreFresh(codec, 1, acts[..n]);
      assert DistinctIds(s.h.published);
      hide Structured, SourcesKept, IdsFresh, InOrder, StagingNeeded, ShowsLast, RowsAwaited, DistinctIds, Apply,
        Benign;
      InOrderStep(codec, s, acts[n]);
      StagingNeededStep(codec, s, acts[n]);
      ShowsLastStep(codec, s, acts[n]);
      RowsAwaitedStep(codec, s, acts[n]);
    }
  }

  /** No request in flight, nothing queued, the worker idle. */
  predicate Quiescent(s: State) {
    s.requests == map[] && Drained(s)
  }

  /**
   Every user with an accepted upload shows exactly the picture of the last one published, and
   nothing is left in staging.
   */
  ghost predicate AllShown(codec: Codec, s: State) {
    && (forall m :: m in s.h.published ==>
          var u := m.user;
          && LastOf(s.h.published, u).Some?
          && var id := LastOf(s.h.published, u).value;
          && id in s.h.sources && s.h.sources[id].user == u
          && Process(codec, s.h.sources[id].bytes).Some?
          && var p := Process(codec, s.h.sources[id].bytes).value;
          && u in s.rows && s.rows[u].status == Ready && s.rows[u].info == p.info
          && HasOriginal(s.objects, u, p) && HasThumb(s.objects, u, p))
    && (forall k :: k in s.objects ==> !k.Staging?)
  }

  /** At rest, the message made ready last is the one published last. */
  lemma ShownIsLast(codec: Codec, s: State, m: Msg)
    requires Calm(codec, s) && Quiescent(s) && m in s.h.published
    ensures m.user in s.h.shown && LastOf(s.h.published, m.user) == Some(s.h.shown[m.user])
    ensures m.user in s.rows && s.rows[m.user].status == Ready
  {
    hide Process;
    assert ReadiedMsgs(s) == s.h.handled == s.h.published;
    LastOfMember(s.h.published, m);
    assert !Awaited(s, m.user);
  }

  lemma CalmAndQuiescent(codec: Codec, s: State)
    requires Calm(codec, s) && Quiescent(s) && NotTorn(codec, s)
    ensures AllShown(codec, s)
  {
    hide Process;
    assert ReadiedMsgs(s) == s.h.handled == s.h.published;
    forall m | m in s.h.published
      ensures LastOf(s.h.published, m.user) == Some(s.h.shown[m.user]) && m.user in s.h.shown
      ensures m.user in s.rows && s.rows[m.user].status == Ready
    {
      ShownIsLast(codec, s, m);
    }
    forall m | m in s.h.published
      ensures ReadyOk(codec, s.rows[m.user], s.objects, s.h, m.user)
    {
    }
    assert forall id :: !Needed(s, id);
  }

  /**
   End to end. Take any run in which nothing fails, uploads and the worker interleaving at
   will, that leaves no request in flight. Then the worker, going on without faults, finishes:
   some continuation drains the queues, and whenever they are drained every user with an
   accepted upload is ready with the picture of the last message published for that user,
   original and thumbnail, and the staging area is empty.
   */
  lemma {:induction false} EveryUploadIsShown(codec: Codec, acts: seq<Action>) returns (more: seq<Action>)
    requires AllBenign(codec, acts) && Run(codec, Init(1), acts).requests == map[]
    ensures AllBenign(codec, more)
    ensures Quiescent(Run(codec, Init(1), acts + more))
    ensures AllShown(codec, Run(codec, Init(1), acts + more))
    ensures Run(codec, Init(1), acts + more).h.published == Run(codec, Init(1), acts).h.published
  {
    hide Process;
    var s := Run(codec, Init(1), acts);
    BenignRunsAreCalm(codec, acts);
    more := CanDrain(codec, s);
    assert AllBenign(codec, more) by {
      assert forall i :: 0 <= i < |more| ==> Quiet(more[i]);
    }
    RunConcat(codec, Init(1), acts, more);
    QuietKeepsRequests(codec, s, more);
    BenignRunsAreCalm(codec, acts + more);
    NeverTorn(codec, acts + more);
    CalmAndQuiescent(codec, Run(codec, Init(1), acts + more));
  }

  lemma {:induction false} QuietKeepsRequests(codec: Codec, s: State, acts: seq<Action>)
    requires forall i :: 0 <= i < |acts| ==> Quiet(acts[i])
    ensures var t := Run(codec, s, acts);
      t.requests == s.requests && t.h.published == s.h.published && t.h.sources == s.h.sources
  {
    if acts != [] {
      QuietKeepsRequests(codec, s, acts[..|acts| - 1]);
      OthersKeepRequests(codec, Run(codec, s, acts[..|acts| - 1]), acts[|acts| - 1]);
    }
  }

  /** The same at every quiescent moment of a run in which nothing fails, however it was reached. */
  lemma QuiescentMeansShown(codec: Codec, acts: seq<Action>)
    requires AllBenign(codec, acts) && Quiescent(Run(codec, Init(1), acts))
    ensures AllShown(codec, Run(codec, Init(1), acts))
  {
    BenignRunsAreCalm(codec, acts);
    NeverTorn(codec, acts);
    CalmAndQuiescent(codec, Run(codec, Init(1), acts));
  }
}
