/**
 Who may touch what: every message, row, object and pending delete carries the keys of its own
 user, so users are isolated from each other; and the shapes a row can have.
 */
module Ownership {
  import opened Avatars
  import opened Keys
  import opened Pipeline
  import opened Processor
  import opened Wrappers
  import T = Topology

  /** A message as the API builds it, whose source bytes are on record. */
  ghost predicate MsgOk(sources: map<MsgId, Source>, m: Msg) {
    && m == MessageFor(m.user, m.id)
    && SlashFree(m.id)
    && m.id in sources && sources[m.id].user == m.user
  }

  ghost predicate CopyOk(sources: map<MsgId, Source>, published: seq<Msg>, d: Delivery) {
    d.readable ==> MsgOk(sources, d.msg) && d.msg in published
  }

  ghost predicate CopiesOk(h: History, q: seq<Delivery>) {
    forall d :: d in q ==> CopyOk(h.sources, h.published, d)
  }

  ghost predicate HeldOk(h: History, x: Worker) {
    x.Busy? ==> CopyOk(h.sources, h.published, x.d) && (x.d.readable || x.pc == Reject || x.pc == Hung)
  }

  /** Everything in flight is a message the API built; what a queue or worker has was published. */
  ghost predicate MessagesOk(s: State) {
    && CopiesOk(s.h, s.queues.processing) && CopiesOk(s.h, s.queues.retry30s)
    && CopiesOk(s.h, s.queues.retry2m) && CopiesOk(s.h, s.queues.dlq)
    && (forall w :: 0 <= w < |s.workers| ==> HeldOk(s.h, s.workers[w]))
    && (forall r :: r in s.requests && s.requests[r].Uploading? ==> MsgOk(s.h.sources, s.requests[r].msg))
  }

  ghost predicate Staged(u: UserId, row: Row) {
    row.stagingKey == Staging(u, row.messageId) && row.originalKey == NoKey && row.thumbKey == NoKey
  }

  ghost predicate IsFinished(u: UserId, row: Row) {
    row.stagingKey == NoKey && row.originalKey == Original(u) && row.thumbKey == Thumb(u)
  }

  ghost predicate RowOk(u: UserId, row: Row) {
    && (Staged(u, row) || IsFinished(u, row))
    && (row.status == Ready ==> IsFinished(u, row))
    && (row.status == Pending ==> Staged(u, row))
    && (row.error != "" <==> row.status == Failed)
    && SlashFree(row.messageId)
  }

  ghost predicate RowsOk(rows: map<UserId, Row>) {
    forall u :: u in rows ==> RowOk(u, rows[u])
  }

  /** Staging objects hold what their upload staged. */
  ghost predicate ObjectOk(h: History, k: Key, bytes: Bytes) {
    && k != NoKey && WellFormed(k)
    && (k.Staging? ==> k.id in h.sources && h.sources[k.id] == Source(k.user, bytes))
  }

  ghost predicate ObjectsOk(s: State) {
    forall k :: k in s.objects ==> ObjectOk(s.h, k, s.objects[k])
  }

  ghost predicate DeletesOk(s: State) {
    forall r :: r in s.requests && s.requests[r].Deleting? ==>
      forall k :: k in s.requests[r].keys ==> OwnedBy(k, s.requests[r].user)
  }

  ghost predicate Structured(s: State) {
    MessagesOk(s) && RowsOk(s.rows) && ObjectsOk(s) && DeletesOk(s)
  }

  // ---- messages ----

  /** History only grows, so what was in order stays in order. */
  lemma MessagesOkLater(s: State, h: History)
    requires MessagesOk(s)
    requires forall id :: id in s.h.sources ==> id in h.sources && h.sources[id] == s.h.sources[id]
    requires forall m :: m in s.h.published ==> m in h.published
    ensures MessagesOk(s.(h := h))
  {
  }

  /** A worker keeps its delivery until it is idle, and unreadable ones only ever get rejected. */
  lemma NextWorkerHoldsSame(codec: Codec, s: State, x: Worker, ok: bool)
    requires x.Busy?
    ensures var y := NextWorker(codec, s, x, ok);
      y.Busy? ==> y.d == x.d && (x.pc == Reject || x.pc == Hung ==> y.pc == Hung)
  {
  }

  /** Worker calls put nothing into the queues but the delivery at hand, or a copy of its message. */
  lemma QueuesAfterOk(s: State, x: Worker, ok: bool, pos: nat)
    requires MessagesOk(s) && x.Busy? && HeldOk(s.h, x) && pos <= |s.queues.processing|
    ensures var qs := QueuesAfter(s, x, ok, pos);
      CopiesOk(s.h, qs.processing) && CopiesOk(s.h, qs.retry30s) && CopiesOk(s.h, qs.retry2m) && CopiesOk(s.h, qs.dlq)
  {
    assert CopyOk(s.h.sources, s.h.published, RetryCopy(x.d, s.now));
    assert CopyOk(s.h.sources, s.h.published, x.d.(at := s.now));
    hide MsgOk, CopyOk, RetryCopy, RetryTarget;
  }

  lemma MessagesOkWork(codec: Codec, s: State, w: nat, ok: bool, pos: nat, text: string)
    requires MessagesOk(s) && Enabled(s, Work(w, ok, pos, text))
    ensures MessagesOk(ApplyWork(codec, s, w, ok, pos, text))
  {
    hide RowsAfter, ObjectsAfter, ProcessedAfter, QueuesAfter, NextWorker, MsgOk, CopyOk;
    var x := s.workers[w];
    assert HeldOk(s.h, x);
    NextWorkerHoldsSame(codec, s, x, ok);
    QueuesAfterOk(s, x, ok, pos);
  }

  lemma MessagesOkDeliver(s: State, w: nat, i: nat)
    requires MessagesOk(s) && Enabled(s, Deliver(w, i))
    ensures MessagesOk(ApplyDeliver(s, w, i))
  {
    hide MsgOk, CopyOk;
    assert s.queues.processing[i] in s.queues.processing;
  }

  lemma MessagesOkCrash(s: State, w: nat, pos: nat)
    requires MessagesOk(s) && Enabled(s, Crash(w, pos))
    ensures MessagesOk(ApplyCrash(s, w, pos))
  {
    hide CopyOk, MsgOk, InsertAt;
    assert HeldOk(s.h, s.workers[w]);
    InsertedOk(s.h, s.queues.processing, pos, s.workers[w].d);
  }

  lemma InsertedOk(h: History, q: seq<Delivery>, pos: nat, d: Delivery)
    requires CopiesOk(h, q) && CopyOk(h.sources, h.published, d) && pos <= |q|
    ensures CopiesOk(h, InsertAt(q, pos, d))
  {
    hide CopyOk;
  }

  lemma MessagesOkExpire(s: State, q: T.QueueName)
    requires MessagesOk(s) && Enabled(s, Expire(q))
    ensures MessagesOk(ApplyExpire(s, q))
  {
    var d := s.queues.Of(q)[0];
    assert d in s.queues.Of(q);
    assert CopyOk(s.h.sources, s.h.published, d.(at := s.now));
    hide MsgOk, CopyOk;
  }

  lemma MessagesOkStagePut(s: State, r: nat, u: UserId, id: MsgId, bytes: Bytes)
    requires MessagesOk(s) && Enabled(s, StagePut(r, u, id, bytes))
    ensures MessagesOk(ApplyStagePut(s, r, u, id, bytes))
  {
    var t := ApplyStagePut(s, r, u, id, bytes);
    MessagesOkLater(s, t.h);
    assert MsgOk(t.h.sources, MessageFor(u, id));
    hide MsgOk;
  }

  lemma MessagesOkPublish(s: State, r: nat, ok: bool)
    requires MessagesOk(s) && Enabled(s, PublishMsg(r, ok))
    ensures MessagesOk(ApplyPublish(s, r, ok))
  {
    var t := ApplyPublish(s, r, ok);
    MessagesOkLater(s, t.h);
    assert ok ==> s.requests[r].msg in t.h.published;
    hide MsgOk;
  }

  lemma MessagesOkStep(codec: Codec, s: State, a: Action)
    requires MessagesOk(s)
    ensures MessagesOk(Apply(codec, s, a))
  {
    hide MsgOk, ApplyWork, ApplyCrash, ApplyDeliver, ApplyExpire, ApplyStagePut, ApplyPublish;
    if Enabled(s, a) {
      match a {
        case Work(w, ok, pos, text) => MessagesOkWork(codec, s, w, ok, pos, text);
        case Deliver(w, i) => MessagesOkDeliver(s, w, i);
        case Crash(w, pos) => MessagesOkCrash(s, w, pos);
        case Expire(q) => MessagesOkExpire(s, q);
        case StagePut(r, u, id, bytes) => MessagesOkStagePut(s, r, u, id, bytes);
        case PublishMsg(r, ok) => MessagesOkPublish(s, r, ok);
        case Inject(header) =>
        case Tick(dt) =>
        case _ => MessagesOkApi(codec, s, a);
      }
    }
  }

  lemma MessagesOkApi(codec: Codec, s: State, a: Action)
    requires MessagesOk(s) && Enabled(s, a) && ByApi(a) && !a.StagePut? && !a.PublishMsg?
    ensures MessagesOk(Apply(codec, s, a))
  {
    var t := Apply(codec, s, a);
    OthersKeepWorkers(codec, s, a);
    NonPublishKeepsQueues(codec, s, a);
    UploadsInFlight(codec, s, a);
    MessagesOkLater(s, t.h);
    hide MsgOk, Apply;
  }

  // ---- rows ----

  lemma RowsOkStep(codec: Codec, s: State, a: Action)
    requires RowsOk(s.rows) && MessagesOk(s)
    ensures RowsOk(Apply(codec, s, a).rows)
  {
    hide NextWorker, ObjectsAfter, QueuesAfter, ProcessedAfter, HistoryAfter;
    if Enabled(s, a) {
      match a {
        case Work(w, ok, pos, text) =>
          RowsOkWork(s.rows, s.workers[w], ok, text);
          hide RowsAfter, RowOk;
        case UpsertRow(r, ok) =>
          assert MsgOk(s.h.sources, s.requests[r].msg);
        case _ =>
      }
    }
  }

  lemma RowsOkWork(rows: map<UserId, Row>, x: Worker, ok: bool, text: string)
    requires RowsOk(rows) && x.Busy? && text != ""
    ensures RowsOk(RowsAfter(rows, x, ok, text))
  {
  }

  /**
   Row shape over all runs: a row is either staged under its own message id with no result
   keys, or finished with both result keys and no staging key; ready rows are finished,
   pending rows staged, and the error text is non-empty exactly in status failed.
   */
  lemma {:induction false} RowsHaveShape(codec: Codec, workers: nat, acts: seq<Action>, u: UserId)
    requires u in Run(codec, Init(workers), acts).rows
    ensures var row := Run(codec, Init(workers), acts).rows[u];
      && (Staged(u, row) || IsFinished(u, row))
      && (row.status == Ready ==> IsFinished(u, row))
      && (row.status == Pending ==> Staged(u, row))
      && (row.error != "" <==> row.status == Failed)
  {
    EverythingStructured(codec, workers, acts);
  }

  // ---- objects and deletes ----

  lemma ObjectsOkStep(codec: Codec, s: State, a: Action)
    requires ObjectsOk(s) && MessagesOk(s)
    ensures ObjectsOk(Apply(codec, s, a))
  {
    hide MsgOk, ApplyWork;
    if Enabled(s, a) {
      match a {
        case Work(w, ok, pos, text) => ObjectsOkWork(codec, s, w, ok, pos, text);
        case _ =>
      }
    }
  }

  lemma ObjectsOkWork(codec: Codec, s: State, w: nat, ok: bool, pos: nat, text: string)
    requires ObjectsOk(s) && Enabled(s, Work(w, ok, pos, text))
    ensures ObjectsOk(ApplyWork(codec, s, w, ok, pos, text))
  {
    hide NextWorker, RowsAfter, QueuesAfter, ProcessedAfter;
  }

  lemma {:induction false} NonEmptyKeysOwned(keys: seq<Key>, u: UserId)
    requires forall k :: k in keys ==> k == NoKey || OwnedBy(k, u)
    ensures forall k :: k in NonEmpty(keys) ==> OwnedBy(k, u)
  {
    if keys != [] {
      NonEmptyKeysOwned(keys[1..], u);
    }
  }

  lemma DeletesOkStep(codec: Codec, s: State, a: Action)
    requires DeletesOk(s) && RowsOk(s.rows)
    ensures DeletesOk(Apply(codec, s, a))
  {
    hide ApplyWork, ApplyCrash, ApplyDeliver, ApplyExpire, OwnedBy, RowOk;
    if !ByApi(a) {
      OthersKeepRequests(codec, s, a);
    } else if Enabled(s, a) {
      match a {
        case ReadForDelete(r, u) =>
          var row := s.rows[u];
          RowKeysOwned(u, row);
          NonEmptyKeysOwned([row.stagingKey, row.originalKey, row.thumbKey], u);
        case _ =>
      }
    }
  }

  lemma RowKeysOwned(u: UserId, row: Row)
    requires RowOk(u, row)
    ensures forall k :: k in [row.stagingKey, row.originalKey, row.thumbKey] ==> k == NoKey || OwnedBy(k, u)
  {
  }

  lemma {:induction false} EverythingStructured(codec: Codec, workers: nat, acts: seq<Action>)
    ensures Structured(Run(codec, Init(workers), acts))
  {
    if acts != [] {
      var s := Run(codec, Init(workers), acts[..|acts| - 1]);
      EverythingStructured(codec, workers, acts[..|acts| - 1]);
      hide MessagesOk, RowsOk, ObjectsOk, DeletesOk, Apply;
      MessagesOkStep(codec, s, acts[|acts| - 1]);
      RowsOkStep(codec, s, acts[|acts| - 1]);
      ObjectsOkStep(codec, s, acts[|acts| - 1]);
      DeletesOkStep(codec, s, acts[|acts| - 1]);
    }
  }

  /** In a reachable bucket, different keys have different object names: the strings tell the objects apart. */
  lemma {:induction false} NamesTellObjectsApart(codec: Codec, workers: nat, acts: seq<Action>, k: Key, l: Key)
    requires k in Run(codec, Init(workers), acts).objects && l in Run(codec, Init(workers), acts).objects
    ensures Text(k) == Text(l) <==> k == l
  {
    EverythingStructured(codec, workers, acts);
    TextInjective(k, l);
  }

  // ---- isolation ----

  /** The user on whose behalf an action works, if any. */
  function Subject(s: State, a: Action): Option<UserId>
    requires Enabled(s, a)
  {
    match a
    case StagePut(_, u, _, _) => Some(u)
    case UpsertRow(r, _) => Some(s.requests[r].msg.user)
    case PublishMsg(r, _) => Some(s.requests[r].msg.user)
    case Unstage(r, _) => Some(s.requests[r].msg.user)
    case FailUploadRow(r, _, _) => Some(s.requests[r].msg.user)
    case ReadForDelete(_, u) => Some(u)
    case RemoveObject(r, _) => Some(s.requests[r].user)
    case RemoveRow(r, _) => Some(s.requests[r].user)
    case Work(w, _, _, _) => if s.workers[w].d.readable then Some(s.workers[w].d.msg.user) else None
    case _ => None
  }

  /** User `u`'s row and objects are the same in both states. */
  ghost predicate SameFor(s: State, t: State, u: UserId) {
    && (u in s.rows <==> u in t.rows)
    && (u in s.rows ==> s.rows[u] == t.rows[u])
    && (forall k :: OwnedBy(k, u) ==> (k in s.objects <==> k in t.objects))
    && (forall k :: OwnedBy(k, u) && k in s.objects ==> s.objects[k] == t.objects[k])
  }

  lemma StepIsIsolated(codec: Codec, s: State, a: Action, u: UserId)
    requires Structured(s) && Enabled(s, a) && Subject(s, a) != Some(u)
    ensures SameFor(s, Step(codec, s, a), u)
  {
    hide RowOk, ApplyWork, ApplyCrash, ApplyDeliver, ApplyExpire, ApplyUnstage, ApplyRemoveObject, MessagesOk,
      ObjectsOk, Push, NonEmpty;
    match a {
      case Work(w, ok, pos, text) => WorkIsIsolated(codec, s, w, ok, pos, text, u);
      case Unstage(r, ok) => UnstageIsIsolated(s, r, ok, u);
      case RemoveObject(r, ok) => RemoveObjectIsIsolated(s, r, ok, u);
      case Deliver(_, _) => MovesKeepStores(codec, s, a);
      case Crash(_, _) => MovesKeepStores(codec, s, a);
      case Expire(_) => MovesKeepStores(codec, s, a);
      case _ =>
    }
  }

  lemma UnstageIsIsolated(s: State, r: nat, ok: bool, u: UserId)
    requires MessagesOk(s) && Enabled(s, Unstage(r, ok)) && s.requests[r].msg.user != u
    ensures SameFor(s, ApplyUnstage(s, r, ok), u)
  {
    hide CopiesOk, HeldOk;
    assert MsgOk(s.h.sources, s.requests[r].msg);
  }

  lemma RemoveObjectIsIsolated(s: State, r: nat, ok: bool, u: UserId)
    requires DeletesOk(s) && Enabled(s, RemoveObject(r, ok)) && s.requests[r].user != u
    ensures SameFor(s, ApplyRemoveObject(s, r, ok), u)
  {
    assert s.requests[r].keys[0] in s.requests[r].keys;
  }

  lemma WorkIsIsolated(codec: Codec, s: State, w: nat, ok: bool, pos: nat, text: string, u: UserId)
    requires MessagesOk(s) && Enabled(s, Work(w, ok, pos, text))
    requires Subject(s, Work(w, ok, pos, text)) != Some(u)
    ensures SameFor(s, ApplyWork(codec, s, w, ok, pos, text), u)
  {
    hide NextWorker, QueuesAfter, ProcessedAfter, HistoryAfter;
    assert HeldOk(s.h, s.workers[w]);
  }

  /** No action that takes effect in this run works for user `u`. */
  ghost predicate NeverFor(codec: Codec, s: State, acts: seq<Action>, u: UserId) {
    forall i :: 0 <= i < |acts| ==>
      Enabled(Run(codec, s, acts[..i]), acts[i]) ==> Subject(Run(codec, s, acts[..i]), acts[i]) != Some(u)
  }

  /**
   User isolation: continue any run with any further actions none of which works for user `u`.
   Uploads, deletes and worker steps of all other users leave `u`'s row and objects as they were.
   */
  lemma {:induction false} UsersAreIsolated(codec: Codec, workers: nat, past: seq<Action>, acts: seq<Action>, u: UserId)
    requires NeverFor(codec, Run(codec, Init(workers), past), acts, u)
    ensures var s := Run(codec, Init(workers), past);
      SameFor(s, Run(codec, s, acts), u)
  {
    if acts != [] {
      var n := |acts| - 1;
      var s := Run(codec, Init(workers), past);
      var t := Run(codec, s, acts[..n]);
      assert NeverFor(codec, s, acts[..n], u) by {
        assert forall i :: 0 <= i < n ==> acts[..n][..i] == acts[..i];
      }
      UsersAreIsolated(codec, workers, past, acts[..n], u);
      RunConcat(codec, Init(workers), past, acts[..n]);
      EverythingStructured(codec, workers, past + acts[..n]);
      hide Structured, Step, Subject;
      if Enabled(t, acts[n]) {
        StepIsIsolated(codec, t, acts[n], u);
      }
    }
  }
}
