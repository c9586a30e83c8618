/**
 `Service.Handle` of internal/worker/service.go, call by call. Each step method makes one call
 and shows that what it did to the database, the bucket or the broker is what the machine's
 next action of that worker does; `Handle` is then only the sequence with its exits.
 */
module WorkerService {
  import opened Avatars
  import opened Keys
  import opened Pipeline
  import opened Processor
  import opened Storage
  import opened Termination
  import opened Wrappers
  import opened World
  import opened HandlerAccount
  import opened Idempotency
  import C = Conservation

  // ---- the tables as the machine sees them ----

  lemma ViewOfUpsert(t: Tables, m: Msg, now: nat)
    ensures SqlRows(SqlStep(t, Storage.Upsert(Avatar(m.user, Uploaded(m), 0, 0), now)).0) ==
      SqlRows(t)[m.user := Uploaded(m)]
    ensures SqlStep(t, Storage.Upsert(Avatar(m.user, Uploaded(m), 0, 0), now)).0.processed == t.processed
  {
  }

  lemma ViewOfStatus(t: Tables, u: UserId, status: Status, text: string, now: nat)
    ensures SqlRows(SqlStep(t, Storage.UpdateStatus(u, status, text, now)).0) ==
      Pipeline.UpdateStatus(SqlRows(t), u, status, text)
    ensures SqlStep(t, Storage.UpdateStatus(u, status, text, now)).0.processed == t.processed
  {
  }

  lemma ViewOfReady(t: Tables, u: UserId, info: Info, now: nat)
    ensures SqlRows(SqlStep(t, Storage.MarkReady(u, Original(u), Thumb(u), info, now)).0) ==
      MarkRowReady(SqlRows(t), u, info)
    ensures SqlStep(t, Storage.MarkReady(u, Original(u), Thumb(u), info, now)).0.processed == t.processed
  {
  }

  lemma ViewOfDelete(t: Tables, u: UserId)
    ensures SqlRows(SqlStep(t, Storage.Delete(u)).0) == SqlRows(t) - {u}
    ensures SqlStep(t, Storage.Delete(u)).0.processed == t.processed
  {
  }

  // ---- what a worker call does to the machine's bookkeeping ----

  lemma UnackedAfter(workers: seq<Worker>, w: nat, x: Worker)
    requires w < |workers| && workers[w].Busy? && (x.Busy? ==> x.d == workers[w].d)
    ensures Unacked(workers[w := x]) == if x.Busy? then Unacked(workers) else Unacked(workers) - {w}
  {
  }

  /** A call that goes through undisturbed, or any disturbance, lowers the termination order. */
  lemma LowerAfterWork(codec: Codec, s: State, w: nat, ok: bool, pos: nat, text: string, f: nat, f0: nat, s0: State)
    requires Enabled(s, Work(w, ok, pos, text))
    ensures f < f0 || (ok && s == s0 && f == f0) ==> Lower(f, Apply(codec, s, Work(w, ok, pos, text)), f0, s0)
  {
    StepWeight(codec, s, Work(w, ok, pos, text));
    if ok {
      NeverHangs(codec, s, w, pos, text);
    }
    hide Phi, Apply, HungFlag;
  }

  /** A call that goes through does not leave its worker hung. */
  lemma NeverHangs(codec: Codec, s: State, w: nat, pos: nat, text: string)
    requires Enabled(s, Work(w, true, pos, text))
    ensures HungFlag(Apply(codec, s, Work(w, true, pos, text))) <= HungFlag(s)
  {
    hide Process, QueuesAfter, RowsAfter, ObjectsAfter, ProcessedAfter, HistoryAfter;
  }

  /** What one call of a worker does to each part of the state; most calls change only one of them. */
  lemma EffectOfCall(codec: Codec, s: State, w: nat, ok: bool, pos: nat, text: string)
    requires Enabled(s, Work(w, ok, pos, text))
    ensures var x, t := s.workers[w], Apply(codec, s, Work(w, ok, pos, text));
      var y := NextWorker(codec, s, x, ok);
      && t.workers == s.workers[w := y] && t.now == s.now && t.requests == s.requests
      && Unacked(t.workers) == (if y.Busy? then Unacked(s.workers) else Unacked(s.workers) - {w})
      && t.rows == RowsAfter(s.rows, x, ok, text)
      && (x.pc != Start && x.pc != FailRow && x.pc != Pipeline.MarkReady ==> t.rows == s.rows)
      && t.objects == ObjectsAfter(s.objects, x, ok)
      && (x.pc != PutOriginal && x.pc != PutThumb && x.pc != Cleanup ==> t.objects == s.objects)
      && t.processed == (if ok && x.pc == Mark then s.processed + {x.d.msg.id} else s.processed)
      && t.queues == QueuesAfter(s, x, ok, pos)
      && (x.pc != Reject && x.pc != Retry && x.pc != Requeue ==> t.queues == s.queues)
  {
    var x := s.workers[w];
    CallsAreLocal(s, x, ok, pos, text);
    HoldsSame(codec, s, x, ok);
    UnackedAfter(s.workers, w, NextWorker(codec, s, x, ok));
    hide RowsAfter, ObjectsAfter, QueuesAfter, NextWorker, HistoryAfter, Unacked;
  }

  /**
   From point `a`, the others went on to trace `before` and state `s`, where worker `w` made a
   call and recorded its outcome; that brought it to point `b`.
   */
  lemma CallAdvances(codec: Codec, solo: bool, bounded: bool, w: nat, a: Point, before: seq<Action>, s: State, b: Point,
                     act: Action)
    requires act.Work? && act.w == w && Enabled(s, act)
    requires a.trace <= before && b.trace == before + [act] && b.st == Apply(codec, s, act)
    requires |s.workers| == |a.st.workers|
    requires forall i :: |a.trace| <= i < |before| ==> NotBy(AWorker(w), before[i])
    requires Failures(WorkerCalls(w), before) == Failures(WorkerCalls(w), a.trace)
    requires b.faultsLeft <= a.faultsLeft && (!act.ok ==> b.faultsLeft < a.faultsLeft)
    requires bounded ==> b.faultsLeft < a.faultsLeft || (s == a.st && act.ok)
    requires solo ==> before == a.trace && s == a.st && b.faultsLeft == a.faultsLeft - if act.ok then 0 else 1
    ensures Advance(solo, bounded, w, a, b)
    ensures solo ==> CalledAlone(codec, w, a, b)
  {
    hide Lower, Apply, Failures;
    FailuresOfExtension(WorkerCalls(w), before, act);
    LowerAfterWork(codec, s, w, act.ok, act.pos, act.text, b.faultsLeft, a.faultsLeft, a.st);
    WorkersStay(codec, s, act);
  }

  lemma HoldsSame(codec: Codec, s: State, x: Worker, ok: bool)
    requires x.Busy?
    ensures NextWorker(codec, s, x, ok).Busy? ==> NextWorker(codec, s, x, ok).d == x.d
  {
    hide Process;
  }

  lemma CallsAreLocal(s: State, x: Worker, ok: bool, pos: nat, text: string)
    requires x.Busy? && pos <= |s.queues.processing|
    ensures x.pc != Start && x.pc != FailRow && x.pc != Pipeline.MarkReady ==> RowsAfter(s.rows, x, ok, text) == s.rows
    ensures x.pc != PutOriginal && x.pc != PutThumb && x.pc != Cleanup ==> ObjectsAfter(s.objects, x, ok) == s.objects
    ensures x.pc != Reject && x.pc != Retry && x.pc != Requeue ==> QueuesAfter(s, x, ok, pos) == s.queues
  {
  }

  /** One call of the handler, alone, keeps its account. */
  lemma HandlerGoesOn(codec: Codec, w: nat, from: Point, a: Point, b: Point)
    requires CalledAlone(codec, w, a, b) && HandlerAt(codec, from.st, w, from.faultsLeft - a.faultsLeft, a.st)
    requires w < |a.st.workers| && a.st.workers[w].Busy? && OfHandler(a.st.workers[w].pc)
    ensures HandlerAt(codec, from.st, w, from.faultsLeft - b.faultsLeft, b.st)
  {
    hide Process, HandlerAt, ApplyWork, OfHandler;
    var act := b.trace[|a.trace|];
    HandlerStep(codec, from.st, w, from.faultsLeft - a.faultsLeft, a.st, act.ok, act.pos, act.text);
  }

  class Service {
    const world: World

    constructor (world: World)
      ensures this.world == world
    {
      this.world := world;
    }

    /** The worker is about to make call `pc` for delivery `d`, and the world is in order. */
    ghost predicate Ready(w: nat, d: Delivery, pc: Pc)
      reads world, world.db, world.store, world.channel
    {
      world.Valid() && world.WorkerAt(w, d, pc)
    }

    /** One call of worker `w` was made since the old state, after whatever the others did. */
    twostate predicate Called(w: nat)
      reads world
    {
      && Advance(world.solo, world.bounded, w, old(world.Now()), world.Now())
      && (world.solo ==> CalledAlone(world.codec, w, old(world.Now()), world.Now()))
    }

    /**
     From point `from` on, worker `w` has made calls of the handler only; alone, rows and objects
     are where these, and the failures among them, have brought them.
     */
    ghost predicate Account(w: nat, from: Point)
      reads world
    {
      && Reached(world.solo, world.bounded, w, from, world.Now())
      && (world.solo ==> HandlerAt(world.codec, from.st, w, from.faultsLeft - world.faultsLeft, world.st))
    }

    method SetStatus(ghost w: nat, ghost d: Delivery, user: UserId, status: Status, text: string) returns (ok: bool)
      requires status == Processing || (status == Failed && text != "")
      requires text == "" || status == Failed
      requires Ready(w, d, if status == Processing then Start else FailRow) && user == d.msg.user
      modifies world, world.db, world.store, world.channel
      ensures world.Valid() && Called(w)
      ensures world.WorkerAt(w, d, if status == Processing && ok then Download else Retry)
    {
      hide Apply, ObjectsAfter, QueuesAfter, C.IdsFresh, SqlRows, SqlStep, Lower, Process, Unacked, Advance,
        CalledAlone, NotBy, Failures;
      var up := world.Turn(AWorker(w));
      ghost var s, before, t := world.st, world.trace, world.db.Contents();
      ok := world.db.UpdateAvatarStatus(user, status, text, world.now, up);
      ghost var a := Work(w, ok, 0, if text == "" then "-" else text);
      world.Record(a);
      ViewOfStatus(t, user, status, text, world.now);
      EffectOfCall(world.codec, s, w, ok, 0, a.text);
      CallAdvances(world.codec, world.solo, world.bounded, w, old(world.Now()), before, s, world.Now(),
        Work(w, ok, 0, a.text));
    }

    /** Download, after which the handler goes on only if the bytes process to a picture. */
    method Fetch(ghost w: nat, ghost d: Delivery, key: Key) returns (ok: bool, data: Bytes)
      requires Ready(w, d, Download) && key == d.msg.stagingKey
      modifies world, world.db, world.store, world.channel
      ensures world.Valid() && Called(w)
      ensures var found := if ok then Process(world.codec, data) else None;
        if found.Some? then w < |world.st.workers| && world.st.workers[w] == Busy(d, PutOriginal, found.value)
        else world.WorkerAt(w, d, FailRow)
    {
      hide Apply, RowsAfter, QueuesAfter, C.IdsFresh, Lower, Process, SqlRows, Unacked, Advance, CalledAlone,
        NotBy, Failures;
      var up := world.Turn(AWorker(w));
      ghost var s, before := world.st, world.trace;
      ok, data := world.store.Download(key, up);
      world.Record(Work(w, up, 0, "-"));
      EffectOfCall(world.codec, s, w, up, 0, "-");
      CallAdvances(world.codec, world.solo, world.bounded, w, old(world.Now()), before, s, world.Now(),
        Work(w, up, 0, "-"));
    }

    /** Upload of one of the two results. */
    method Put(ghost w: nat, ghost d: Delivery, ghost p: Picture, original: bool, key: Key, data: Bytes)
      returns (ok: bool)
      requires Ready(w, d, if original then PutOriginal else PutThumb) && world.st.workers[w].picture == p
      requires key == if original then Original(d.msg.user) else Thumb(d.msg.user)
      requires data == if original then p.original else p.thumb
      modifies world, world.db, world.store, world.channel
      ensures world.Valid() && Called(w)
      ensures if !ok then world.WorkerAt(w, d, FailRow)
        else world.WorkerAt(w, d, if original then PutThumb else Pipeline.MarkReady) && world.st.workers[w].picture == p
    {
      hide Apply, RowsAfter, QueuesAfter, C.IdsFresh, Lower, Process, SqlRows, Unacked, Advance, CalledAlone,
        NotBy, Failures;
      var up := world.Turn(AWorker(w));
      ghost var s, before := world.st, world.trace;
      ok := world.store.Upload(key, data, up);
      world.Record(Work(w, ok, 0, "-"));
      EffectOfCall(world.codec, s, w, ok, 0, "-");
      CallAdvances(world.codec, world.solo, world.bounded, w, old(world.Now()), before, s, world.Now(),
        Work(w, ok, 0, "-"));
    }

    method MarkAvatarReady(ghost w: nat, ghost d: Delivery, user: UserId, original: Key, thumb: Key, info: Info)
      returns (ok: bool)
      requires Ready(w, d, Pipeline.MarkReady) && user == d.msg.user && world.st.workers[w].picture.info == info
      requires original == Original(user) && thumb == Thumb(user)
      modifies world, world.db, world.store, world.channel
      ensures world.Valid() && Called(w)
      ensures world.WorkerAt(w, d, if ok then Cleanup else Retry)
    {
      hide Apply, ObjectsAfter, QueuesAfter, C.IdsFresh, SqlRows, SqlStep, Lower, Process, Unacked, Advance,
        CalledAlone, NotBy, Failures;
      var up := world.Turn(AWorker(w));
      ghost var s, before, t := world.st, world.trace, world.db.Contents();
      ok := world.db.MarkAvatarReady(user, original, thumb, info, world.now, up);
      world.Record(Work(w, ok, 0, "-"));
      ViewOfReady(t, user, info, world.now);
      EffectOfCall(world.codec, s, w, ok, 0, "-");
      CallAdvances(world.codec, world.solo, world.bounded, w, old(world.Now()), before, s, world.Now(),
        Work(w, ok, 0, "-"));
    }

    method RemoveStaging(ghost w: nat, ghost d: Delivery, key: Key)
      requires Ready(w, d, Cleanup) && key == d.msg.stagingKey
      modifies world, world.db, world.store, world.channel
      ensures world.Valid() && Called(w)
      ensures world.WorkerAt(w, d, Mark)
    {
      hide Apply, RowsAfter, QueuesAfter, C.IdsFresh, Lower, Process, SqlRows, Unacked, Advance, CalledAlone,
        NotBy, Failures;
      var up := world.Turn(AWorker(w));
      ghost var s, before := world.st, world.trace;
      var ok := world.store.DeleteObject(key, up);
      world.Record(Work(w, ok, 0, "-"));
      EffectOfCall(world.codec, s, w, ok, 0, "-");
      CallAdvances(world.codec, world.solo, world.bounded, w, old(world.Now()), before, s, world.Now(),
        Work(w, ok, 0, "-"));
    }

    /**
     `Handle`: with everyone else interfering between its calls, it follows the machine from
     the first status update to the point where the consumer either marks the message (no
     error) or sends it to the retry ladder (error). Alone, it errs only if a call failed or the
     source is not a picture, and leaves rows and objects as `Erred` and `Succeeded` say.
     */
    method Handle(ghost w: nat, ghost d: Delivery, msg: Msg) returns (err: bool)
      requires Ready(w, d, Start) && msg == d.msg
      modifies world, world.db, world.store, world.channel
      ensures world.Valid() && Advance(world.solo, world.bounded, w, old(world.Now()), world.Now())
      ensures world.WorkerAt(w, d, if err then Retry else Mark)
      ensures world.solo ==> Elsewhere(old(world.st), world.st, w)
      ensures world.solo && err ==>
        Erred(world.codec, old(world.st), world.st, msg, old(world.faultsLeft) - world.faultsLeft)
      ensures world.solo && !err ==>
        Succeeded(world.codec, old(world.st), world.st, msg, old(world.faultsLeft) - world.faultsLeft)
      ensures world.solo && err ==>
        world.faultsLeft < old(world.faultsLeft) || !SourceProcesses(world.codec, old(world.st), msg)
    {
      hide Process, World.Valid, Apply, Advance, CalledAlone, Erred, Succeeded;
      ghost var from := world.Now();
      Begins(w, from);
      var ok := SetStatus(w, d, msg.user, Processing, "");
      Chain(w, from, from);
      if ok {
        ghost var p := world.Now();
        var data;
        ok, data := Fetch(w, d, msg.stagingKey);
        Chain(w, from, p);
        var processed := if ok then Process(world.codec, data) else None;
        if processed.None? {
          Fail(w, d, msg.user, from);
          err := true;
        } else {
          err := Publish(w, d, msg, processed.value, from);
        }
      } else {
        err := true;
      }
      Ends(w, from, msg, err);
    }

    /** The two uploads, in order, and what follows them. */
    method Publish(ghost w: nat, ghost d: Delivery, msg: Msg, p: Picture, ghost from: Point) returns (err: bool)
      requires Ready(w, d, PutOriginal) && msg == d.msg && world.st.workers[w].picture == p && Account(w, from)
      modifies world, world.db, world.store, world.channel
      ensures world.Valid() && Account(w, from)
      ensures Advance(world.solo, world.bounded, w, from, world.Now())
      ensures world.WorkerAt(w, d, if err then Retry else Mark)
    {
      hide Process, World.Valid, Apply, Advance, CalledAlone, HandlerAt;
      var originalKey, thumbKey := Original(msg.user), Thumb(msg.user);
      ghost var p1 := world.Now();
      var ok := Put(w, d, p, true, originalKey, p.original);
      Chain(w, from, p1);
      if !ok {
        Fail(w, d, msg.user, from);
        return true;
      }
      ghost var p2 := world.Now();
      ok := Put(w, d, p, false, thumbKey, p.thumb);
      Chain(w, from, p2);
      if !ok {
        Fail(w, d, msg.user, from);
        return true;
      }
      err := Finish(w, d, msg, originalKey, thumbKey, p.info, from);
    }

    /** The failure exit shared by download, processing and the two uploads. */
    method Fail(ghost w: nat, ghost d: Delivery, user: UserId, ghost from: Point)
      requires Ready(w, d, FailRow) && user == d.msg.user && Account(w, from)
      modifies world, world.db, world.store, world.channel
      ensures world.Valid() && Account(w, from)
      ensures Advance(world.solo, world.bounded, w, from, world.Now())
      ensures world.WorkerAt(w, d, Retry)
    {
      hide Process, World.Valid, Apply, Advance, CalledAlone, HandlerAt;
      ghost var p := world.Now();
      var ok := SetStatus(w, d, user, Failed, "processing failed");
      Chain(w, from, p);
    }

    /** Mark-ready, whose failure leaves the row as it is, and then the clean-up. */
    method Finish(ghost w: nat, ghost d: Delivery, msg: Msg, original: Key, thumb: Key, info: Info, ghost from: Point)
      returns (err: bool)
      requires Ready(w, d, Pipeline.MarkReady) && msg == d.msg && world.st.workers[w].picture.info == info
      requires original == Original(msg.user) && thumb == Thumb(msg.user) && Account(w, from)
      modifies world, world.db, world.store, world.channel
      ensures world.Valid() && Account(w, from)
      ensures Advance(world.solo, world.bounded, w, from, world.Now())
      ensures world.WorkerAt(w, d, if err then Retry else Mark)
    {
      hide Process, World.Valid, Apply, Advance, CalledAlone, HandlerAt;
      ghost var p1 := world.Now();
      var ok := MarkAvatarReady(w, d, msg.user, original, thumb, info);
      Chain(w, from, p1);
      if !ok {
        return true;
      }
      ghost var p2 := world.Now();
      RemoveStaging(w, d, msg.stagingKey);
      Chain(w, from, p2);
      return false;
    }

    // ---- keeping the account ----

    lemma Begins(w: nat, from: Point)
      requires from == world.Now() && w < |world.st.workers| && world.st.workers[w].Busy?
      requires world.st.workers[w].pc == Start
      ensures Account(w, from)
    {
    }

    /** One more call of the handler, from point `p`. */
    lemma Chain(w: nat, from: Point, p: Point)
      requires Reached(world.solo, world.bounded, w, from, p)
      requires Advance(world.solo, world.bounded, w, p, world.Now())
      requires world.solo ==>
        && CalledAlone(world.codec, w, p, world.Now())
        && HandlerAt(world.codec, from.st, w, from.faultsLeft - p.faultsLeft, p.st)
      requires w < |p.st.workers| && p.st.workers[w].Busy? && OfHandler(p.st.workers[w].pc)
      ensures Account(w, from) && Advance(world.solo, world.bounded, w, from, world.Now())
    {
      hide Process, HandlerAt, Advance, CalledAlone;
      AdvanceFurther(world.solo, world.bounded, w, from, p, world.Now());
      if world.solo {
        HandlerGoesOn(world.codec, w, from, p, world.Now());
      }
    }

    /** At the end of the handler, the account says what it came to. */
    lemma Ends(w: nat, from: Point, msg: Msg, err: bool)
      requires Account(w, from) && w < |world.st.workers| && world.st.workers[w].Busy?
      requires msg == world.st.workers[w].d.msg && world.st.workers[w].pc == if err then Retry else Mark
      ensures world.solo ==> Elsewhere(from.st, world.st, w)
      ensures world.solo && err ==>
        Erred(world.codec, from.st, world.st, msg, from.faultsLeft - world.faultsLeft)
        && (world.faultsLeft < from.faultsLeft || !SourceProcesses(world.codec, from.st, msg))
      ensures world.solo && !err ==>
        Succeeded(world.codec, from.st, world.st, msg, from.faultsLeft - world.faultsLeft)
    {
      hide Process;
    }
  }
}
