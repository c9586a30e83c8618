/**
 The avatar pipeline as one step machine: in-flight API requests (internal/handler/handler.go),
 workers (internal/queue/consumer.go around internal/worker/service.go) and the broker.

 Each call of the database, the object store or the broker is one atomic action, so the
 actions of all actors interleave freely. An action carries its outcome: `ok == false` is a
 call that fails and has no effect. A worker may crash between any two of its calls.
 `Apply` is total, an action that is not enabled changes nothing, so a run is just any
 sequence of actions. The fields of `History` record what happened; no step reads them except
 to keep ids fresh.
 */
module Pipeline {
  import opened Avatars
  import opened Keys
  import opened Processor
  import opened Wrappers
  import T = Topology

  /**
   One copy of a message. `readable` is false for a body that does not parse; `msg` then means
   nothing. `header` is the x-retry-count entry, `at` the time the copy entered its queue,
   `failures` (a history field) the times of the counted failures in its lineage.
   */
  datatype Delivery = Delivery(
    readable: bool,
    msg: Msg,
    header: Option<T.HeaderValue>,
    failures: seq<nat>,
    at: nat
  )

  datatype Queues = Queues(
    processing: seq<Delivery>,
    retry30s: seq<Delivery>,
    retry2m: seq<Delivery>,
    dlq: seq<Delivery>
  ) {
    function Of(q: T.QueueName): seq<Delivery> {
      match q
      case Processing => processing
      case Retry30s => retry30s
      case Retry2m => retry2m
      case DLQ => dlq
    }

    function With(q: T.QueueName, ds: seq<Delivery>): Queues {
      match q
      case Processing => this.(processing := ds)
      case Retry30s => this.(retry30s := ds)
      case Retry2m => this.(retry2m := ds)
      case DLQ => this.(dlq := ds)
    }
  }

  function RemoveAt<X>(q: seq<X>, i: nat): seq<X>
    requires i < |q|
  {
    q[..i] + q[i + 1..]
  }

  function InsertAt<X>(q: seq<X>, i: nat, x: X): seq<X>
    requires i <= |q|
  {
    q[..i] + [x] + q[i..]
  }

  /** Which call a worker makes next for the delivery it holds. */
  datatype Pc =
    | Check         // IsProcessed
    | Reject        // Nack without requeue, for an unreadable body
    | Start         // UpdateAvatarStatus(processing)
    | Download
    | PutOriginal
    | PutThumb
    | MarkReady
    | Cleanup       // delete the staging object, outcome ignored
    | FailRow       // UpdateAvatarStatus(failed), outcome ignored
    | Retry         // SendToRetry
    | Mark          // MarkProcessed
    | AckDone       // Ack of a delivery that is done with
    | AckRetried    // Ack of a delivery that was republished
    | Requeue       // Nack with requeue
    | Hung          // an ack or nack failed; the broker still holds the delivery as unacked
    | HungRetried   // the same, after a republish

  datatype Worker =
    | Idle
    | Busy(d: Delivery, pc: Pc, picture: Picture)

  const NO_PICTURE := Picture([], [], NO_INFO)

  datatype UploadPc = Upsert | Publish | UnstageOnly | UnstageThenFail | FailUpload

  datatype Request =
    | Uploading(msg: Msg, pc: UploadPc)
    | Deleting(user: UserId, keys: seq<Key>)

  datatype Source = Source(user: UserId, bytes: Bytes)

  datatype History = History(
    sources: map<MsgId, Source>,      // what each accepted or attempted upload staged
    published: seq<Msg>,              // accepted publishes, in order
    handled: seq<Msg>,                // deliveries acked as done, in order
    readied: set<MsgId>,              // ids whose mark-ready succeeded
    shown: map<UserId, MsgId>,        // the id of each user's last mark-ready
    removed: set<Key>,                // objects that a DELETE removed since they were last put
    settled: multiset<MsgId>,         // acks of deliveries that were done with
    duplicated: multiset<MsgId>,      // crashes and lost acks between a retry publish and its ack
    successes: multiset<MsgId>,       // successful handler runs
    lostMarks: multiset<MsgId>,       // failed marks, and crashes between handler success and mark
    marks: multiset<MsgId>            // successful marks
  )

  datatype State = State(
    rows: map<UserId, Row>,
    processed: set<MsgId>,
    objects: map<Key, Bytes>,
    queues: Queues,
    workers: seq<Worker>,
    requests: map<nat, Request>,
    now: nat,
    h: History
  )

  datatype Action =
    // API requests; `r` names the request
    | StagePut(r: nat, user: UserId, id: MsgId, bytes: Bytes)
    | UpsertRow(r: nat, ok: bool)
    | PublishMsg(r: nat, ok: bool)
    | Unstage(r: nat, ok: bool)
    | FailUploadRow(r: nat, ok: bool, text: string)
    | ReadForDelete(r: nat, user: UserId)
    | RemoveObject(r: nat, ok: bool)
    | RemoveRow(r: nat, ok: bool)
    | Abandon(r: nat)
    // workers
    | Deliver(w: nat, i: nat)
    | Work(w: nat, ok: bool, pos: nat, text: string)
    | Crash(w: nat, pos: nat)
    // broker and environment
    | Expire(q: T.QueueName)
    | Inject(header: Option<T.HeaderValue>)
    | Tick(dt: nat)

  function Init(workers: nat): State {
    State(map[], {}, map[], Queues([], [], [], []), seq(workers, _ => Idle), map[], 0,
          History(map[], [], [], {}, map[], {}, multiset{}, multiset{}, multiset{}, multiset{}, multiset{}))
  }

  /** The service started over whatever the queues were left holding. */
  function InitWith(workers: nat, backlog: Queues): State {
    Init(workers).(queues := backlog)
  }

  // ---- helpers ----

  function MessageFor(user: UserId, id: MsgId): Msg {
    Msg(id, user, Staging(user, id))
  }

  /** `UPDATE avatars SET status ...`: no row, no change, and no error either. */
  function UpdateStatus(rows: map<UserId, Row>, u: UserId, status: Status, error: string): map<UserId, Row> {
    if u in rows then rows[u := WithStatus(rows[u], status, error)] else rows
  }

  function MarkRowReady(rows: map<UserId, Row>, u: UserId, info: Info): map<UserId, Row> {
    if u in rows then rows[u := Finished(rows[u], Original(u), Thumb(u), info)] else rows
  }

  /** The keys that the object store's `Delete` does not skip. */
  function NonEmpty(keys: seq<Key>): seq<Key> {
    if keys == [] then []
    else (if keys[0] == NoKey then [] else [keys[0]]) + NonEmpty(keys[1..])
  }

  function FirstCopy(m: Msg, now: nat): Delivery {
    Delivery(true, m, None, [], now)
  }

  /** The copy that `SendToRetry` publishes after a failed handler run. */
  function RetryCopy(d: Delivery, now: nat): Delivery {
    Delivery(d.readable, d.msg, T.RetryHeader(T.RetryCount(d.header) + 1), d.failures + [now], now)
  }

  function RetryTarget(d: Delivery): T.QueueName {
    T.RetryQueue(T.RetryCount(d.header) + 1)
  }

  function Push(qs: Queues, q: T.QueueName, d: Delivery): Queues {
    qs.With(q, qs.Of(q) + [d])
  }

  // ---- API steps ----

  function ApplyStagePut(s: State, r: nat, u: UserId, id: MsgId, bytes: Bytes): State {
    s.(objects := s.objects[Staging(u, id) := bytes],
       requests := s.requests[r := Uploading(MessageFor(u, id), Upsert)],
       h := s.h.(sources := s.h.sources[id := Source(u, bytes)], removed := s.h.removed - {Staging(u, id)}))
  }

  function SetRequest(s: State, r: nat, q: Request): State {
    s.(requests := s.requests[r := q])
  }

  function EndRequest(s: State, r: nat): State {
    s.(requests := s.requests - {r})
  }

  predicate UploadAt(s: State, r: nat, pc: UploadPc) {
    r in s.requests && s.requests[r].Uploading? && s.requests[r].pc == pc
  }

  function ApplyUpsert(s: State, r: nat, ok: bool): State
    requires UploadAt(s, r, Upsert)
  {
    var m := s.requests[r].msg;
    if ok then SetRequest(s, r, Uploading(m, Publish)).(rows := s.rows[m.user := Uploaded(m)])
    else SetRequest(s, r, Uploading(m, UnstageOnly))
  }

  function ApplyPublish(s: State, r: nat, ok: bool): State
    requires UploadAt(s, r, Publish)
  {
    var m := s.requests[r].msg;
    if ok then
      EndRequest(s, r).(queues := Push(s.queues, T.Processing, FirstCopy(m, s.now)),
                        h := s.h.(published := s.h.published + [m]))
    else SetRequest(s, r, Uploading(m, UnstageThenFail))
  }

  function ApplyUnstage(s: State, r: nat, ok: bool): State
    requires UploadAt(s, r, UnstageOnly) || UploadAt(s, r, UnstageThenFail)
  {
    var m := s.requests[r].msg;
    var after :=
      if s.requests[r].pc == UnstageOnly then EndRequest(s, r) else SetRequest(s, r, Uploading(m, FailUpload));
    if ok then after.(objects := s.objects - {m.stagingKey}) else after
  }

  function ApplyFailUpload(s: State, r: nat, ok: bool, text: string): State
    requires UploadAt(s, r, FailUpload)
  {
    var after := EndRequest(s, r);
    if ok then after.(rows := UpdateStatus(s.rows, s.requests[r].msg.user, Failed, text)) else after
  }

  function ApplyReadForDelete(s: State, r: nat, u: UserId): State
    requires u in s.rows
  {
    var row := s.rows[u];
    SetRequest(s, r, Deleting(u, NonEmpty([row.stagingKey, row.originalKey, row.thumbKey])))
  }

  function ApplyRemoveObject(s: State, r: nat, ok: bool): State
    requires r in s.requests && s.requests[r].Deleting? && s.requests[r].keys != []
  {
    var Deleting(u, keys) := s.requests[r];
    if !ok then EndRequest(s, r)
    else
      SetRequest(s, r, Deleting(u, keys[1..]))
        .(objects := s.objects - {keys[0]},
          h := s.h.(removed := s.h.removed + {keys[0]}))
  }

  function ApplyRemoveRow(s: State, r: nat, ok: bool): State
    requires r in s.requests && s.requests[r].Deleting? && s.requests[r].keys == []
  {
    var after := EndRequest(s, r);
    if ok then after.(rows := s.rows - {s.requests[r].user}) else after
  }

  // ---- worker steps ----

  function SetWorker(s: State, w: nat, x: Worker): State
    requires w < |s.workers|
  {
    s.(workers := s.workers[w := x])
  }

  function ApplyDeliver(s: State, w: nat, i: nat): State
    requires w < |s.workers| && i < |s.queues.processing|
  {
    var d := s.queues.processing[i];
    SetWorker(s, w, Busy(d, if d.readable then Check else Reject, NO_PICTURE))
      .(queues := s.queues.(processing := RemoveAt(s.queues.processing, i)))
  }

  /** How the handler and the consumer around it proceed from the call `x.pc`. */
  function NextWorker(codec: Codec, s: State, x: Worker, ok: bool): Worker
    requires x.Busy?
  {
    match x.pc
    case Check => x.(pc := if !ok then Requeue else if x.d.msg.id in s.processed then AckDone else Start)
    case Reject => if ok then Idle else x.(pc := Hung)
    case Start => x.(pc := if ok then Download else Retry)
    case Download =>
      var key := x.d.msg.stagingKey;
      var found := if ok && key in s.objects then Process(codec, s.objects[key]) else None;
      if found.Some? then Busy(x.d, PutOriginal, found.value) else x.(pc := FailRow)
    case PutOriginal => x.(pc := if ok then PutThumb else FailRow)
    case PutThumb => x.(pc := if ok then MarkReady else FailRow)
    case MarkReady => x.(pc := if ok then Cleanup else Retry)
    case Cleanup => x.(pc := Mark)
    case FailRow => x.(pc := Retry)
    case Retry => x.(pc := if ok then AckRetried else Requeue)
    case Mark => x.(pc := if ok then AckDone else Requeue)
    case AckDone => if ok then Idle else x.(pc := Hung)
    case AckRetried => if ok then Idle else x.(pc := HungRetried)
    case Requeue => if ok then Idle else x.(pc := Hung)
    case Hung => x
    case HungRetried => x
  }

  function RowsAfter(rows: map<UserId, Row>, x: Worker, ok: bool, text: string): map<UserId, Row>
    requires x.Busy?
  {
    var u := x.d.msg.user;
    if !ok then rows
    else if x.pc == Start then UpdateStatus(rows, u, Processing, "")
    else if x.pc == FailRow then UpdateStatus(rows, u, Failed, text)
    else if x.pc == MarkReady then MarkRowReady(rows, u, x.picture.info)
    else rows
  }

  function ProcessedAfter(processed: set<MsgId>, x: Worker, ok: bool): set<MsgId>
    requires x.Busy?
  {
    if ok && x.pc == Mark then processed + {x.d.msg.id} else processed
  }

  function ObjectsAfter(objects: map<Key, Bytes>, x: Worker, ok: bool): map<Key, Bytes>
    requires x.Busy?
  {
    var u := x.d.msg.user;
    if !ok then objects
    else if x.pc == PutOriginal then objects[Original(u) := x.picture.original]
    else if x.pc == PutThumb then objects[Thumb(u) := x.picture.thumb]
    else if x.pc == Cleanup then objects - {x.d.msg.stagingKey}
    else objects
  }

  function QueuesAfter(s: State, x: Worker, ok: bool, pos: nat): Queues
    requires x.Busy? && pos <= |s.queues.processing|
  {
    if !ok then s.queues
    else if x.pc == Reject then Push(s.queues, T.DLQ, x.d.(at := s.now))
    else if x.pc == Retry then Push(s.queues, RetryTarget(x.d), RetryCopy(x.d, s.now))
    else if x.pc == Requeue then s.queues.(processing := InsertAt(s.queues.processing, pos, x.d))
    else s.queues
  }

  function HistoryAfter(h: History, x: Worker, ok: bool): History
    requires x.Busy?
  {
    var u, id, pc := x.d.msg.user, x.d.msg.id, x.pc;
    h.(
      readied := if ok && pc == MarkReady then h.readied + {id} else h.readied,
      shown := if ok && pc == MarkReady then h.shown[u := id] else h.shown,
      removed := if ok && pc == PutOriginal then h.removed - {Original(u)}
        else if ok && pc == PutThumb then h.removed - {Thumb(u)} else h.removed,
      successes := if pc == Cleanup then h.successes + multiset{id} else h.successes,
      marks := if ok && pc == Mark then h.marks + multiset{id} else h.marks,
      lostMarks := if !ok && pc == Mark then h.lostMarks + multiset{id} else h.lostMarks,
      settled := if ok && pc == AckDone then h.settled + multiset{id} else h.settled,
      handled := if ok && pc == AckDone then h.handled + [x.d.msg] else h.handled
    )
  }

  /** One call of worker `w`: what it does to each part of the state. */
  function ApplyWork(codec: Codec, s: State, w: nat, ok: bool, pos: nat, text: string): State
    requires w < |s.workers| && s.workers[w].Busy? && pos <= |s.queues.processing|
  {
    var x := s.workers[w];
    State(
      RowsAfter(s.rows, x, ok, text),
      ProcessedAfter(s.processed, x, ok),
      ObjectsAfter(s.objects, x, ok),
      QueuesAfter(s, x, ok, pos),
      s.workers[w := NextWorker(codec, s, x, ok)],
      s.requests,
      s.now,
      HistoryAfter(s.h, x, ok)
    )
  }

  /** The unacked delivery goes back to the processing queue, body and headers unchanged. */
  function ReturnToQueue(s: State, w: nat, pos: nat): State
    requires w < |s.workers| && s.workers[w].Busy? && pos <= |s.queues.processing|
  {
    SetWorker(s, w, Idle)
      .(queues := s.queues.(processing := InsertAt(s.queues.processing, pos, s.workers[w].d)))
  }

  function ApplyCrash(s: State, w: nat, pos: nat): State
    requires w < |s.workers| && s.workers[w].Busy? && pos <= |s.queues.processing|
  {
    var Busy(d, pc, _) := s.workers[w];
    var id := d.msg.id;
    ReturnToQueue(s, w, pos).(h :=
      if pc == AckRetried || pc == HungRetried then s.h.(duplicated := s.h.duplicated + multiset{id})
      else if pc == Mark then s.h.(lostMarks := s.h.lostMarks + multiset{id})
      else s.h)
  }

  // ---- broker steps ----

  /** Time to live is over for the head of a retry queue: it is dead-lettered back to processing. */
  function ApplyExpire(s: State, q: T.QueueName): State
    requires (q == T.Retry30s || q == T.Retry2m) && s.queues.Of(q) != []
  {
    var d := s.queues.Of(q)[0];
    s.(queues := Push(s.queues.With(q, s.queues.Of(q)[1..]), T.Processing, d.(at := s.now)))
  }

  // ---- the machine ----

  predicate Enabled(s: State, a: Action) {
    match a
    case StagePut(r, u, id, bytes) =>
      r !in s.requests && id !in s.h.sources && u != "" && id != "" && SlashFree(id) && bytes != []
    case UpsertRow(r, _) => UploadAt(s, r, Upsert)
    case PublishMsg(r, _) => UploadAt(s, r, Publish)
    case Unstage(r, _) => UploadAt(s, r, UnstageOnly) || UploadAt(s, r, UnstageThenFail)
    case FailUploadRow(r, _, text) => UploadAt(s, r, FailUpload) && text != ""
    case ReadForDelete(r, u) => r !in s.requests && u in s.rows
    case RemoveObject(r, _) => r in s.requests && s.requests[r].Deleting? && s.requests[r].keys != []
    case RemoveRow(r, _) => r in s.requests && s.requests[r].Deleting? && s.requests[r].keys == []
    case Abandon(r) => r in s.requests
    case Deliver(w, i) => w < |s.workers| && s.workers[w].Idle? && i < |s.queues.processing|
    case Work(w, ok, pos, text) =>
      && w < |s.workers| && s.workers[w].Busy? && s.workers[w].pc != Hung && s.workers[w].pc != HungRetried
      && pos <= |s.queues.processing| && text != ""
    case Crash(w, pos) => w < |s.workers| && s.workers[w].Busy? && pos <= |s.queues.processing|
    case Expire(q) =>
      && (q == T.Retry30s || q == T.Retry2m) && s.queues.Of(q) != []
      && s.now >= s.queues.Of(q)[0].at + T.Ttl(q)
    case Inject(_) => true
    case Tick(_) => true
  }

  function Step(codec: Codec, s: State, a: Action): State
    requires Enabled(s, a)
  {
    match a
    case StagePut(r, u, id, bytes) => ApplyStagePut(s, r, u, id, bytes)
    case UpsertRow(r, ok) => ApplyUpsert(s, r, ok)
    case PublishMsg(r, ok) => ApplyPublish(s, r, ok)
    case Unstage(r, ok) => ApplyUnstage(s, r, ok)
    case FailUploadRow(r, ok, text) => ApplyFailUpload(s, r, ok, text)
    case ReadForDelete(r, u) => ApplyReadForDelete(s, r, u)
    case RemoveObject(r, ok) => ApplyRemoveObject(s, r, ok)
    case RemoveRow(r, ok) => ApplyRemoveRow(s, r, ok)
    case Abandon(r) => EndRequest(s, r)
    case Deliver(w, i) => ApplyDeliver(s, w, i)
    case Work(w, ok, pos, text) => ApplyWork(codec, s, w, ok, pos, text)
    case Crash(w, pos) => ApplyCrash(s, w, pos)
    case Expire(q) => ApplyExpire(s, q)
    case Inject(header) =>
      s.(queues := Push(s.queues, T.Processing, Delivery(false, Msg("", "", NoKey), header, [], s.now)))
    case Tick(dt) => s.(now := s.now + dt)
  }

  function Apply(codec: Codec, s: State, a: Action): State {
    if Enabled(s, a) then Step(codec, s, a) else s
  }

  function Run(codec: Codec, s: State, acts: seq<Action>): State {
    if acts == [] then s else Apply(codec, Run(codec, s, acts[..|acts| - 1]), acts[|acts| - 1])
  }

  lemma RunExtend(codec: Codec, s: State, acts: seq<Action>, a: Action)
    ensures Run(codec, s, acts + [a]) == Apply(codec, Run(codec, s, acts), a)
  {
    assert (acts + [a])[..|acts|] == acts;
  }

  lemma {:induction false} RunConcat(codec: Codec, s: State, xs: seq<Action>, ys: seq<Action>)
    ensures Run(codec, s, xs + ys) == Run(codec, Run(codec, s, xs), ys)
  {
    if ys == [] {
      assert xs + ys == xs;
    } else {
      var n := |ys| - 1;
      RunConcat(codec, s, xs, ys[..n]);
      assert (xs + ys)[..|xs + ys| - 1] == xs + ys[..n];
    }
  }

  // ---- runs that are built step by step ----

  /** A run from `s`, written down as it is built. */
  ghost predicate Reaches(codec: Codec, s: State, acts: seq<Action>, t: State) {
    Run(codec, s, acts) == t
  }

  lemma Then(codec: Codec, s: State, acts: seq<Action>, t: State, a: Action) returns (more: seq<Action>, u: State)
    requires Reaches(codec, s, acts, t)
    ensures more == acts + [a] && u == Apply(codec, t, a) && Reaches(codec, s, more, u)
  {
    RunExtend(codec, s, acts, a);
    more, u := acts + [a], Apply(codec, t, a);
  }

  lemma Join(codec: Codec, s: State, xs: seq<Action>, t: State, ys: seq<Action>, u: State)
    requires Reaches(codec, s, xs, t) && Reaches(codec, t, ys, u)
    ensures Reaches(codec, s, xs + ys, u)
  {
    RunConcat(codec, s, xs, ys);
  }

  /** A worker's call that goes through. */
  function Go(w: nat): Action {
    Work(w, true, 0, "-")
  }

  /** The next call of worker `w`. */
  lemma Call(codec: Codec, s: State, acts: seq<Action>, t: State, w: nat, ok: bool)
    returns (more: seq<Action>, u: State)
    requires Reaches(codec, s, acts, t)
    requires w < |t.workers| && t.workers[w].Busy? && t.workers[w].pc != Hung && t.workers[w].pc != HungRetried
    ensures more == acts + [Work(w, ok, 0, "-")] && Reaches(codec, s, more, u)
    ensures u == ApplyWork(codec, t, w, ok, 0, "-")
  {
    hide ApplyWork, Reaches;
    more, u := Then(codec, s, acts, t, Work(w, ok, 0, "-"));
  }

  lemma OnlyTime(codec: Codec, s: State, time: nat)
    ensures Apply(codec, s, Tick(time)) == s.(now := s.now + time)
  {
  }

  lemma OnlyExpires(codec: Codec, s: State, q: T.QueueName)
    requires Enabled(s, Expire(q))
    ensures Apply(codec, s, Expire(q)) == ApplyExpire(s, q)
  {
    hide ApplyExpire;
  }

  lemma NoActions(codec: Codec, s: State)
    ensures Run(codec, s, []) == s
  {
  }

  /** What each call adds to the history. */
  lemma HistoryOf(h: History, x: Worker, ok: bool)
    requires x.Busy?
    ensures var u, id, t := x.d.msg.user, x.d.msg.id, HistoryAfter(h, x, ok);
      match x.pc
      case PutOriginal => t == if ok then h.(removed := h.removed - {Original(u)}) else h
      case PutThumb => t == if ok then h.(removed := h.removed - {Thumb(u)}) else h
      case MarkReady => t == if ok then h.(readied := h.readied + {id}, shown := h.shown[u := id]) else h
      case Cleanup => t == h.(successes := h.successes + multiset{id})
      case Mark =>
        t == if ok then h.(marks := h.marks + multiset{id}) else h.(lostMarks := h.lostMarks + multiset{id})
      case AckDone =>
        t == if ok then h.(settled := h.settled + multiset{id}, handled := h.handled + [x.d.msg]) else h
      case _ => t == h
  {
  }

  // ---- what the steps of one actor leave alone ----

  predicate ByWorker(a: Action) {
    a.Deliver? || a.Work? || a.Crash?
  }

  predicate ByApi(a: Action) {
    a.StagePut? || a.UpsertRow? || a.PublishMsg? || a.Unstage? || a.FailUploadRow? ||
    a.ReadForDelete? || a.RemoveObject? || a.RemoveRow? || a.Abandon?
  }

  predicate ByBroker(a: Action) {
    a.Expire? || a.Inject? || a.Tick?
  }

  lemma OthersKeepWorkers(codec: Codec, s: State, a: Action)
    requires !ByWorker(a)
    ensures var t := Apply(codec, s, a);
      && t.workers == s.workers && t.processed == s.processed
      && t.h == s.h.(sources := t.h.sources, published := t.h.published, removed := t.h.removed)
  {
    hide ApplyWork, ApplyCrash, ApplyDeliver;
  }

  lemma OthersKeepRequests(codec: Codec, s: State, a: Action)
    requires !ByApi(a)
    ensures var t := Apply(codec, s, a);
      && t.requests == s.requests
      && t.h.sources == s.h.sources && t.h.published == s.h.published
  {
    hide ApplyWork;
    if a.Work? {
      if Enabled(s, a) {
        WorkKeepsRequests(codec, s, a.w, a.ok, a.pos, a.text);
      }
    } else {
      MovesKeepStores(codec, s, a);
      hide Apply;
    }
  }

  lemma WorkKeepsRequests(codec: Codec, s: State, w: nat, ok: bool, pos: nat, text: string)
    requires Enabled(s, Work(w, ok, pos, text))
    ensures var t := ApplyWork(codec, s, w, ok, pos, text);
      && t.requests == s.requests
      && t.h.sources == s.h.sources && t.h.published == s.h.published
  {
    hide QueuesAfter, NextWorker, RowsAfter, ObjectsAfter, ProcessedAfter;
  }

  lemma BrokerKeepsStores(codec: Codec, s: State, a: Action)
    requires ByBroker(a)
    ensures var t := Apply(codec, s, a);
      && t.rows == s.rows && t.objects == s.objects && t.requests == s.requests
      && t.workers == s.workers && t.processed == s.processed && t.h == s.h
  {
  }

  lemma MovesKeepStores(codec: Codec, s: State, a: Action)
    requires a.Deliver? || a.Crash? || ByBroker(a)
    ensures var t := Apply(codec, s, a);
      && t.rows == s.rows && t.objects == s.objects && t.requests == s.requests && t.processed == s.processed
      && t.h == s.h.(duplicated := t.h.duplicated, lostMarks := t.h.lostMarks)
  {
    hide ApplyWork, RemoveAt, InsertAt, Push;
  }

  lemma NonPublishKeepsQueues(codec: Codec, s: State, a: Action)
    requires ByApi(a) && !a.PublishMsg?
    ensures var t := Apply(codec, s, a);
      t.queues == s.queues && t.h.published == s.h.published
  {
  }

  /** Every upload in flight was in flight before, for the same message. */
  ghost predicate SameUploads(s: State, t: State) {
    && t.h.sources == s.h.sources
    && forall r :: r in t.requests && t.requests[r].Uploading? ==>
         r in s.requests && s.requests[r].Uploading? && t.requests[r].msg == s.requests[r].msg
  }

  /** That is so except after a new upload. */
  lemma UploadsInFlight(codec: Codec, s: State, a: Action)
    requires !a.StagePut?
    ensures SameUploads(s, Apply(codec, s, a))
  {
    hide ApplyWork, ApplyCrash, ApplyDeliver, ApplyExpire, ApplyUpsert, ApplyPublish, ApplyUnstage;
    if !ByApi(a) {
      OthersKeepRequests(codec, s, a);
    } else if Enabled(s, a) {
      match a {
        case UpsertRow(r, ok) => UploadGoesOn(s, a);
        case PublishMsg(r, ok) => UploadGoesOn(s, a);
        case Unstage(r, ok) => UploadGoesOn(s, a);
        case _ =>
      }
    }
  }

  lemma UploadGoesOn(s: State, a: Action)
    requires Enabled(s, a) && (a.UpsertRow? || a.PublishMsg? || a.Unstage?)
    ensures var t := if a.UpsertRow? then ApplyUpsert(s, a.r, a.ok)
        else if a.PublishMsg? then ApplyPublish(s, a.r, a.ok) else ApplyUnstage(s, a.r, a.ok);
      SameUploads(s, t)
  {
    hide Push;
  }
}
