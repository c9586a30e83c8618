/** `UploadAvatar` and `DeleteAvatar` of internal/handler/handler.go, from the validated request on. */
module Api {
  import opened Avatars
  import opened Keys
  import opened Pipeline
  import opened Processor
  import opened Storage
  import opened Termination
  import opened WorkerService
  import opened Wrappers
  import opened World
  import C = Conservation
  import T = Topology

  const ACCEPTED := 202
  const NO_CONTENT := 204
  const BAD_REQUEST := 400
  const NOT_FOUND := 404
  const TOO_LARGE := 413
  const INTERNAL_ERROR := 500

  /** From point `a`, the others went on, and request `r` recorded nothing. */
  lemma OthersWent(r: nat, id: MsgId, a: Point, b: Point)
    requires a.trace <= b.trace && b.faultsLeft <= a.faultsLeft
    requires forall i :: |a.trace| <= i < |b.trace| ==> NotBy(ARequest(r, id), b.trace[i])
    requires Failures(RequestCalls(r), b.trace) == Failures(RequestCalls(r), a.trace)
    ensures RequestWent(r, a, b) && NoRowCall(r, a.trace, b.trace)
  {
    hide Failures;
  }

  /**
   From point `a`, the others went on to trace `before` and state `s`, where request `r` made a
   call and recorded its outcome; that brought it to point `b`.
   */
  lemma RequestCalled(codec: Codec, solo: bool, r: nat, id: MsgId, a: Point, before: seq<Action>, s: State, b: Point,
                      act: Action)
    requires a.trace <= before && b.trace == before + [act] && act != Abandon(r)
    requires Enabled(s, act) && b.st == Apply(codec, s, act)
    requires forall i :: |a.trace| <= i < |before| ==> NotBy(ARequest(r, id), before[i])
    requires Failures(RequestCalls(r), before) == Failures(RequestCalls(r), a.trace)
    requires b.faultsLeft <= a.faultsLeft && (FailedCall(RequestCalls(r), act) ==> b.faultsLeft < a.faultsLeft)
    requires solo ==>
      before == a.trace && s == a.st && b.faultsLeft == a.faultsLeft - if FailedCall(RequestCalls(r), act) then 1 else 0
    ensures RequestWent(r, a, b) && NoRowCall(r, a.trace, before)
    ensures !act.RemoveRow? ==> NoRowCall(r, a.trace, b.trace)
    ensures solo ==> AskedAlone(codec, r, a, b)
  {
    hide Failures, Apply, Enabled;
    FailuresOfExtension(RequestCalls(r), before, act);
  }

  /** Since trace `a`, request `r` made no call to delete a row. */
  ghost predicate NoRowCall(r: nat, a: seq<Action>, b: seq<Action>) {
    a <= b && forall i :: |a| <= i < |b| ==> !(b[i].RemoveRow? && b[i].r == r)
  }

  lemma NoRowCallSince(r: nat, a: seq<Action>, b: seq<Action>, c: seq<Action>)
    requires NoRowCall(r, a, b) && NoRowCall(r, b, c)
    ensures NoRowCall(r, a, c)
  {
    assert forall i :: 0 <= i < |b| ==> c[i] == b[i];
  }

  /** Request `r`, alone, made one call between points `a` and `b`. */
  ghost predicate AskedAlone(codec: Codec, r: nat, a: Point, b: Point) {
    && |b.trace| == |a.trace| + 1 && a.trace <= b.trace
    && var act := b.trace[|a.trace|];
    && Enabled(a.st, act) && b.st == Apply(codec, a.st, act)
    && b.faultsLeft == a.faultsLeft - if FailedCall(RequestCalls(r), act) then 1 else 0
  }

  class Handler {
    const world: World
    const maxUpload: nat

    constructor (world: World, maxUpload: int)
      ensures this.world == world
      ensures this.maxUpload == if maxUpload <= 0 then 5 * 1024 * 1024 else maxUpload
    {
      this.world := world;
      this.maxUpload := if maxUpload <= 0 then 5 * 1024 * 1024 else maxUpload;
    }

    ghost predicate At(r: nat, q: Request)
      reads world, world.db, world.store, world.channel
    {
      world.Valid() && r in world.st.requests && world.st.requests[r] == q
    }

    ghost predicate Ended(r: nat)
      reads world, world.db, world.store, world.channel
    {
      world.Valid() && r !in world.st.requests
    }

    // ---- the calls of an upload ----

    /** An id that was never issued was never published. */
    lemma IssuedIds(s: State, id: MsgId)
      requires C.IdsFresh(s) && id !in s.h.sources
      ensures Unpublished(s, id)
    {
    }

    lemma NotIssuedHere(r: nat, id: MsgId)
      requires Ended(r) && id !in world.st.h.sources
      ensures Unpublished(world.st, id) && C.IdsFresh(world.st)
    {
      hide C.IdsFresh;
      IssuedIds(world.st, id);
    }

    /** Stage the bytes; a failed upload leaves nothing behind. */
    method Stage(ghost r: nat, user: UserId, id: MsgId, data: Bytes) returns (ok: bool)
      requires Ended(r) && id !in world.st.h.sources && user != "" && id != "" && SlashFree(id) && data != []
      requires Unpublished(world.st, id)
      modifies world, world.db, world.store, world.channel
      ensures RequestWent(r, old(world.Now()), world.Now()) && Unpublished(world.st, id)
      ensures if ok then At(r, Uploading(MessageFor(user, id), Pipeline.Upsert)) else Ended(r)
      ensures !ok ==> world.faultsLeft < old(world.faultsLeft)
      ensures world.solo ==> world.faultsLeft == old(world.faultsLeft) - if ok then 0 else 1
      ensures world.solo && ok ==> AskedAlone(world.codec, r, old(world.Now()), world.Now())
      ensures world.solo && ok ==> world.trace == old(world.trace) + [StagePut(r, user, id, data)]
      ensures world.solo && !ok ==> world.trace == old(world.trace) && world.st == old(world.st)
    {
      hide Apply, C.IdsFresh, SqlRows, Unacked, Failures, NotBy, RequestWent, NoRowCall, AskedAlone;
      var up := world.Turn(ARequest(r, id));
      ghost var s, before := world.st, world.trace;
      ok := world.store.Upload(Staging(user, id), data, up);
      if ok {
        OnlyStages(world.codec, s, r, user, id, data);
        world.Record(StagePut(r, user, id, data));
        RequestCalled(world.codec, world.solo, r, id, old(world.Now()), before, s, world.Now(),
        StagePut(r, user, id, data));
      } else {
        OthersWent(r, id, old(world.Now()), world.Now());
      }
    }

    lemma OnlyStages(codec: Codec, s: State, r: nat, user: UserId, id: MsgId, data: Bytes)
      requires Enabled(s, StagePut(r, user, id, data))
      ensures Apply(codec, s, StagePut(r, user, id, data)) == ApplyStagePut(s, r, user, id, data)
    {
      hide ApplyStagePut;
    }

    method UpsertRow(ghost r: nat, m: Msg) returns (ok: bool)
      requires At(r, Uploading(m, Pipeline.Upsert)) && Unpublished(world.st, m.id)
      modifies world, world.db, world.store, world.channel
      ensures RequestWent(r, old(world.Now()), world.Now()) && Unpublished(world.st, m.id)
      ensures At(r, Uploading(m, if ok then Pipeline.Publish else UnstageOnly))
      ensures !ok ==> world.faultsLeft < old(world.faultsLeft)
      ensures world.solo ==> AskedAlone(world.codec, r, old(world.Now()), world.Now())
      ensures world.solo ==> world.trace == old(world.trace) + [Pipeline.UpsertRow(r, ok)]
    {
      hide C.IdsFresh, SqlRows, SqlStep, Process, Phi, Lower, Failures, Unacked, NotBy, RequestWent, NoRowCall,
        AskedAlone;
      var up := world.Turn(ARequest(r, m.id));
      ghost var s := world.st;
      ghost var before, t := world.trace, world.db.Contents();
      ok := world.db.UpsertAvatar(Avatar(m.user, Uploaded(m), 0, 0), world.now, up);
      ViewOfUpsert(t, m, world.now);
      world.Record(Pipeline.UpsertRow(r, ok));
      RequestCalled(world.codec, world.solo, r, m.id, old(world.Now()), before, s, world.Now(),
        Pipeline.UpsertRow(r, ok));
    }

    /** `PublishAvatarProcess`: to the direct exchange, which routes it to the processing queue. */
    method PublishMsg(ghost r: nat, m: Msg) returns (ok: bool)
      requires At(r, Uploading(m, Pipeline.Publish)) && Unpublished(world.st, m.id)
      modifies world, world.db, world.store, world.channel
      ensures RequestWent(r, old(world.Now()), world.Now()) && (!ok ==> Unpublished(world.st, m.id))
      ensures if ok then Ended(r) && m in world.st.h.published else At(r, Uploading(m, UnstageThenFail))
      ensures !ok ==> world.faultsLeft < old(world.faultsLeft)
      ensures world.solo ==> AskedAlone(world.codec, r, old(world.Now()), world.Now())
      ensures world.solo ==> world.trace == old(world.trace) + [Pipeline.PublishMsg(r, ok)]
    {
      hide Apply, C.IdsFresh, SqlRows, PublishTo, Unacked, Failures, NotBy, RequestWent, NoRowCall, AskedAlone;
      var up := world.Turn(ARequest(r, m.id));
      ghost var s, before := world.st, world.trace;
      OnlyPublishes(world.codec, s, r, up);
      var d := Delivery(true, m, None, [], world.now);
      RoutesOfThePipeline(world.channel.queues, d, 0);
      ok := world.channel.Publish(T.EXCHANGE_DIRECT, T.ROUTING_UPLOAD, d, up);
      world.Record(Pipeline.PublishMsg(r, ok));
      RequestCalled(world.codec, world.solo, r, m.id, old(world.Now()), before, s, world.Now(),
        Pipeline.PublishMsg(r, ok));
      assert ok ==> world.st.h.published[|world.st.h.published| - 1] == m;
    }

    lemma OnlyPublishes(codec: Codec, s: State, r: nat, ok: bool)
      requires UploadAt(s, r, Pipeline.Publish)
      ensures Apply(codec, s, Pipeline.PublishMsg(r, ok)) == ApplyPublish(s, r, ok)
    {
      hide ApplyPublish;
    }

    /** Undo the staging of an upload that will not be accepted; the outcome is ignored. */
    method Unstage(ghost r: nat, ghost m: Msg, key: Key, ghost only: bool)
      requires At(r, Uploading(m, if only then UnstageOnly else UnstageThenFail)) && key == m.stagingKey
      requires Unpublished(world.st, m.id)
      modifies world, world.db, world.store, world.channel
      ensures RequestWent(r, old(world.Now()), world.Now()) && Unpublished(world.st, m.id)
      ensures if only then Ended(r) else At(r, Uploading(m, FailUpload))
      ensures world.solo ==> AskedAlone(world.codec, r, old(world.Now()), world.Now())
      ensures world.solo ==> exists ok :: world.trace == old(world.trace) + [Pipeline.Unstage(r, ok)]
    {
      hide C.IdsFresh, SqlRows, Process, Phi, Lower, Failures, Unacked, NotBy, RequestWent, NoRowCall,
        AskedAlone;
      var up := world.Turn(ARequest(r, m.id));
      ghost var s := world.st;
      ghost var before := world.trace;
      var ok := world.store.DeleteObject(key, up);
      world.Record(Pipeline.Unstage(r, ok));
      RequestCalled(world.codec, world.solo, r, m.id, old(world.Now()), before, s, world.Now(),
        Pipeline.Unstage(r, ok));
    }

    method FailRow(ghost r: nat, ghost m: Msg, user: UserId)
      requires At(r, Uploading(m, FailUpload)) && user == m.user && Unpublished(world.st, m.id)
      modifies world, world.db, world.store, world.channel
      ensures RequestWent(r, old(world.Now()), world.Now()) && Ended(r) && Unpublished(world.st, m.id)
      ensures world.solo ==> AskedAlone(world.codec, r, old(world.Now()), world.Now())
      ensures world.solo ==> exists ok, text :: world.trace == old(world.trace) + [FailUploadRow(r, ok, text)]
    {
      hide C.IdsFresh, SqlRows, SqlStep, Process, Phi, Lower, Failures, Unacked, NotBy, RequestWent, NoRowCall,
        AskedAlone;
      var up := world.Turn(ARequest(r, m.id));
      ghost var s := world.st;
      ghost var before, t := world.trace, world.db.Contents();
      var ok := world.db.UpdateAvatarStatus(user, Failed, "failed to enqueue processing", world.now, up);
      ViewOfStatus(t, user, Failed, "failed to enqueue processing", world.now);
      world.Record(FailUploadRow(r, ok, "failed to enqueue processing"));
      RequestCalled(world.codec, world.solo, r, m.id, old(world.Now()), before, s, world.Now(),
        FailUploadRow(r, ok, "failed to enqueue processing"));
    }

    /**
     `UploadAvatar`. `id` is the fresh UUID. Whatever the others do meanwhile, the request runs
     to its end; 202 means exactly that its message was published, after the staged bytes and
     the row, and any other code that it was not. 500 is answered only because a call failed.
     Alone, 202 leaves exactly the staged bytes, the pending row and the message, and 500 leaves
     the upload undone, as `Undone` says.
     */
    method UploadAvatar(ghost r: nat, user: UserId, data: Bytes, allowedExtension: bool, id: MsgId) returns (code: int)
      requires Ended(r) && id !in world.st.h.sources && id != "" && SlashFree(id)
      modifies world, world.db, world.store, world.channel
      ensures RequestWent(r, old(world.Now()), world.Now()) && Ended(r)
      ensures code == ACCEPTED <==> MessageFor(user, id) in world.st.h.published
      ensures code != ACCEPTED ==> Unpublished(world.st, id)
      ensures code == BAD_REQUEST <==> user == "" || |data| == 0 || (|data| <= maxUpload && !allowedExtension)
      ensures code == TOO_LARGE <==> user != "" && |data| > maxUpload
      ensures code == BAD_REQUEST || code == TOO_LARGE ==> world.trace == old(world.trace)
      ensures code in {ACCEPTED, BAD_REQUEST, TOO_LARGE, INTERNAL_ERROR}
      ensures code == INTERNAL_ERROR ==> world.faultsLeft < old(world.faultsLeft)
      ensures world.solo && code == ACCEPTED ==> AcceptedFrom(old(world.st), world.st, MessageFor(user, id), data)
      ensures world.solo && code == INTERNAL_ERROR ==>
        Undone(old(world.st), world.st, MessageFor(user, id), data,
          Pipeline.UpsertRow(r, true) in world.trace[|old(world.trace)|..], old(world.faultsLeft) - world.faultsLeft)
    {
      hide World.Valid, Apply, AcceptedFrom, Undone, PublishUndone, Failures;
      ghost var a := world.Now();
      NotIssuedHere(r, id);
      if user == "" || |data| == 0 {
        return BAD_REQUEST;
      }
      if |data| > maxUpload {
        return TOO_LARGE;
      }
      if !allowedExtension {
        return BAD_REQUEST;
      }
      var ok := Stage(r, user, id, data);
      ghost var b := world.Now();
      if !ok {
        NothingToUndo(a, b, r, MessageFor(user, id), data);
        return INTERNAL_ERROR;
      }
      var m := Msg(id, user, Staging(user, id));
      ok := UpsertRow(r, m);
      ghost var c := world.Now();
      RequestWentOn(r, a, b, c);
      if !ok {
        Unstage(r, m, m.stagingKey, true);
        RequestWentOn(r, a, c, world.Now());
        if world.solo {
          StagingUndone(world.codec, r, m, data, a, b, c, world.Now());
        }
        return INTERNAL_ERROR;
      }
      code := PublishOrUndo(r, m);
      RequestWentOn(r, a, c, world.Now());
      if world.solo {
        if code == ACCEPTED {
          UploadTakesEffect(world.codec, a.st, r, m, data);
        } else {
          UploadUndone(world.codec, r, m, data, a, b, c, world.Now());
        }
      }
    }

    /**
     What is left of an upload that was answered with an error, if nobody else did anything.
     The staged bytes are gone, unless a second call failed. If the row had been written, it
     says failed, with a text, unless a further call failed; if not, the rows are untouched.
     */
    ghost predicate Undone(s: State, t: State, m: Msg, data: Bytes, upserted: bool, failures: int) {
      && failures >= 1 && t.queues == s.queues
      && (m.stagingKey in t.objects ==> failures >= 2)
      && t.objects == (if m.stagingKey in t.objects then s.objects[m.stagingKey := data] else s.objects)
      && (!upserted ==> t.rows == s.rows)
      && (upserted ==>
            || RowSaysFailed(s, t, m)
            || (t.rows == s.rows[m.user := Uploaded(m)] && failures >= if m.stagingKey in t.objects then 3 else 2))
    }

    ghost predicate RowSaysFailed(s: State, t: State, m: Msg) {
      && t.rows.Keys == s.rows.Keys + {m.user}
      && (forall u :: u in s.rows && u != m.user ==> t.rows[u] == s.rows[u])
      && t.rows[m.user].status == Failed && t.rows[m.user].error != ""
      && t.rows[m.user].messageId == m.id && t.rows[m.user].stagingKey == m.stagingKey
    }

    lemma NothingToUndo(a: Point, b: Point, r: nat, m: Msg, data: Bytes)
      requires C.IdsFresh(a.st) && m.id !in a.st.h.sources && m.stagingKey.Staging? && m.stagingKey.id == m.id
      requires b.faultsLeft < a.faultsLeft
      ensures b.st == a.st && b.trace == a.trace ==>
        Undone(a.st, b.st, m, data, Pipeline.UpsertRow(r, true) in b.trace[|a.trace|..], a.faultsLeft - b.faultsLeft)
    {
    }

    /** The upsert failed at point `c`; the staged bytes were taken back, if that call worked. */
    lemma StagingUndone(codec: Codec, r: nat, m: Msg, data: Bytes, a: Point, b: Point, c: Point, d: Point)
      requires C.IdsFresh(a.st) && m.id !in a.st.h.sources && m == MessageFor(m.user, m.id)
      requires AskedAlone(codec, r, a, b) && b.trace == a.trace + [StagePut(r, m.user, m.id, data)]
      requires AskedAlone(codec, r, b, c) && c.trace == b.trace + [Pipeline.UpsertRow(r, false)]
      requires AskedAlone(codec, r, c, d) && exists ok :: d.trace == c.trace + [Pipeline.Unstage(r, ok)]
      ensures Undone(a.st, d.st, m, data, Pipeline.UpsertRow(r, true) in d.trace[|a.trace|..],
        a.faultsLeft - d.faultsLeft)
    {
      var ok :| d.trace == c.trace + [Pipeline.Unstage(r, ok)];
      assert d.trace[|a.trace|..] ==
        [StagePut(r, m.user, m.id, data), Pipeline.UpsertRow(r, false), Pipeline.Unstage(r, ok)];
      StageThenUpsert(codec, a.st, r, m, data, false);
      OnlyUnstages(codec, c.st, r, ok);
      hide Apply, Process, C.IdsFresh;
      NotStaged(a.st, m);
    }

    lemma NotStaged(s: State, m: Msg)
      requires C.IdsFresh(s) && m.id !in s.h.sources && m == MessageFor(m.user, m.id)
      ensures m.stagingKey !in s.objects
    {
    }

    lemma StageThenUpsert(codec: Codec, s: State, r: nat, m: Msg, data: Bytes, ok: bool)
      requires m == MessageFor(m.user, m.id) && Enabled(s, StagePut(r, m.user, m.id, data))
      ensures var t := Apply(codec, Apply(codec, s, StagePut(r, m.user, m.id, data)), Pipeline.UpsertRow(r, ok));
        && t.rows == (if ok then s.rows[m.user := Uploaded(m)] else s.rows)
        && t.objects == s.objects[m.stagingKey := data] && t.queues == s.queues
        && UploadAt(t, r, if ok then Pipeline.Publish else UnstageOnly) && t.requests[r].msg == m
    {
    }

    lemma OnlyUnstages(codec: Codec, s: State, r: nat, ok: bool)
      requires Enabled(s, Pipeline.Unstage(r, ok))
      ensures Apply(codec, s, Pipeline.Unstage(r, ok)) == ApplyUnstage(s, r, ok)
    {
      hide ApplyUnstage;
    }

    /** The publish failed after point `c`, and was undone. */
    lemma UploadUndone(codec: Codec, r: nat, m: Msg, data: Bytes, a: Point, b: Point, c: Point, d: Point)
      requires C.IdsFresh(a.st) && m.id !in a.st.h.sources && m == MessageFor(m.user, m.id)
      requires AskedAlone(codec, r, a, b) && b.trace == a.trace + [StagePut(r, m.user, m.id, data)]
      requires AskedAlone(codec, r, b, c) && c.trace == b.trace + [Pipeline.UpsertRow(r, true)]
      requires c.trace <= d.trace && PublishUndone(c.st, d.st, m, c.faultsLeft - d.faultsLeft)
      ensures Undone(a.st, d.st, m, data, Pipeline.UpsertRow(r, true) in d.trace[|a.trace|..],
        a.faultsLeft - d.faultsLeft)
    {
      hide Apply, Process, C.IdsFresh;
      assert d.trace[|a.trace|..][1] == Pipeline.UpsertRow(r, true);
      StageThenUpsert(codec, a.st, r, m, data, true);
      NotStaged(a.st, m);
    }

    /** What an accepted upload leaves behind, if nobody else does anything meanwhile. */
    ghost predicate AcceptedFrom(s: State, t: State, m: Msg, data: Bytes) {
      && t.rows == s.rows[m.user := Row(Pending, m.stagingKey, NoKey, NoKey, NO_INFO, "", m.id)]
      && t.objects == s.objects[m.stagingKey := data]
      && t.queues == Push(s.queues, T.Processing, FirstCopy(m, s.now))
    }

    lemma UploadTakesEffect(codec: Codec, s: State, r: nat, m: Msg, data: Bytes)
      requires m == MessageFor(m.user, m.id) && Enabled(s, StagePut(r, m.user, m.id, data))
      ensures var t := Apply(codec, s, StagePut(r, m.user, m.id, data));
        var u := Apply(codec, t, Pipeline.UpsertRow(r, true));
        AcceptedFrom(s, Apply(codec, u, Pipeline.PublishMsg(r, true)), m, data)
    {
      hide Push;
    }

    /** The publish, and what undoes the upload if it fails. */
    method PublishOrUndo(ghost r: nat, m: Msg) returns (code: int)
      requires At(r, Uploading(m, Pipeline.Publish)) && Unpublished(world.st, m.id)
      modifies world, world.db, world.store, world.channel
      ensures RequestWent(r, old(world.Now()), world.Now()) && Ended(r)
      ensures code == ACCEPTED ==> m in world.st.h.published
      ensures code != ACCEPTED ==> code == INTERNAL_ERROR && Unpublished(world.st, m.id)
      ensures code != ACCEPTED ==> world.faultsLeft < old(world.faultsLeft)
      ensures world.solo && code == ACCEPTED ==>
        world.st == Apply(world.codec, old(world.st), Pipeline.PublishMsg(r, true))
      ensures world.solo && code != ACCEPTED ==>
        PublishUndone(old(world.st), world.st, m, old(world.faultsLeft) - world.faultsLeft)
    {
      hide World.Valid, Apply, PublishUndone, Failures;
      ghost var a := world.Now();
      var ok := PublishMsg(r, m);
      if !ok {
        ghost var b := world.Now();
        Unstage(r, m, m.stagingKey, false);
        ghost var c := world.Now();
        RequestWentOn(r, a, b, c);
        FailRow(r, m, m.user);
        RequestWentOn(r, a, c, world.Now());
        if world.solo {
          PublishUndoneByCalls(world.codec, r, m, a, b, c, world.Now());
        }
        return INTERNAL_ERROR;
      }
      return ACCEPTED;
    }

    /** After a failed publish: the staged bytes are gone and the row says failed, each unless a further call failed. */
    ghost predicate PublishUndone(s: State, t: State, m: Msg, failures: int) {
      && failures >= 1 && t.queues == s.queues
      && (t.objects == s.objects - {m.stagingKey} || (t.objects == s.objects && failures >= 2))
      && (RowSaysFailedNow(s, t, m)
          || (t.rows == s.rows && failures >= if t.objects == s.objects - {m.stagingKey} then 2 else 3))
    }

    ghost predicate RowSaysFailedNow(s: State, t: State, m: Msg) {
      exists text :: text != "" && t.rows == Pipeline.UpdateStatus(s.rows, m.user, Failed, text)
    }

    lemma PublishUndoneByCalls(codec: Codec, r: nat, m: Msg, a: Point, b: Point, c: Point, d: Point)
      requires UploadAt(a.st, r, Pipeline.Publish) && a.st.requests[r].msg == m
      requires AskedAlone(codec, r, a, b) && b.trace == a.trace + [Pipeline.PublishMsg(r, false)]
      requires AskedAlone(codec, r, b, c) && exists ok :: c.trace == b.trace + [Pipeline.Unstage(r, ok)]
      requires AskedAlone(codec, r, c, d) && exists ok, text :: d.trace == c.trace + [FailUploadRow(r, ok, text)]
      ensures PublishUndone(a.st, d.st, m, a.faultsLeft - d.faultsLeft)
    {
      var unstaged :| c.trace == b.trace + [Pipeline.Unstage(r, unstaged)];
      var noted, text :| d.trace == c.trace + [FailUploadRow(r, noted, text)];
      OnlyPublishes(codec, a.st, r, false);
      OnlyUnstages(codec, b.st, r, unstaged);
      OnlyNotes(codec, c.st, r, noted, text);
      hide Apply, Process, Pipeline.UpdateStatus;
      if noted {
        assert d.st.rows == Pipeline.UpdateStatus(a.st.rows, m.user, Failed, text);
      }
    }

    lemma OnlyNotes(codec: Codec, s: State, r: nat, ok: bool, text: string)
      requires Enabled(s, FailUploadRow(r, ok, text))
      ensures Apply(codec, s, FailUploadRow(r, ok, text)) == ApplyFailUpload(s, r, ok, text)
    {
      hide ApplyFailUpload;
    }

    // ---- the calls of a delete ----

    /** A lookup finds the row as callers see it, if there is one. */
    lemma RowIsFound(t: Tables, user: UserId)
      ensures SqlStep(t, Storage.Get(user)).0 == t && SqlStep(t, Storage.Get(user)).1.Found?
      ensures var found := SqlStep(t, Storage.Get(user)).1.avatar;
        && (found.Some? <==> user in SqlRows(t))
        && (found.Some? ==> found.value.row == SqlRows(t)[user])
    {
    }

    ghost predicate SameStores(s: State, t: State) {
      t.rows == s.rows && t.objects == s.objects
    }

    /** The keys of a row, in the order in which a DELETE removes them. */
    function KeysOf(row: Row): seq<Key> {
      [row.stagingKey, row.originalKey, row.thumbKey]
    }

    /** Action `j` of a trace is this request reading the row of `user`, with these keys in it. */
    ghost predicate KeysRead(trace: seq<Action>, j: nat, r: nat, user: UserId, keys: seq<Key>) {
      && j < |trace| && trace[j] == ReadForDelete(r, user)
      && var s := Run(world.codec, world.origin, trace[..j]);
      user in s.rows && keys == KeysOf(s.rows[user])
    }

    /** Since action `from` of a trace, this request removed object `k`. */
    ghost predicate Removed(trace: seq<Action>, from: nat, r: nat, k: Key) {
      exists i :: from <= i < |trace| && RemovedAt(trace, i, r, k)
    }

    ghost predicate RemovedAt(trace: seq<Action>, i: nat, r: nat, k: Key)
      requires i < |trace|
    {
      && trace[i] == RemoveObject(r, true)
      && var s := Run(world.codec, world.origin, trace[..i]);
      r in s.requests && s.requests[r].Deleting? && s.requests[r].keys != [] && s.requests[r].keys[0] == k
    }

    /** From action `j` on, this request read the row and then removed each object that it names. */
    ghost predicate ReadThenRemoved(trace: seq<Action>, from: nat, j: nat, r: nat, user: UserId, keys: seq<Key>) {
      && from <= j && KeysRead(trace, j, r, user, keys)
      && forall k :: k in keys && k != NoKey ==> Removed(trace, j, r, k)
    }

    lemma RemovedLater(trace: seq<Action>, later: seq<Action>, since: nat, from: nat, r: nat, k: Key)
      requires trace <= later && since <= from && Removed(trace, from, r, k)
      ensures Removed(later, since, r, k)
    {
      hide Run;
      var i :| from <= i < |trace| && RemovedAt(trace, i, r, k);
      assert later[..i] == trace[..i];
      assert RemovedAt(later, i, r, k);
    }

    /** Read the row, and fix the keys to delete by what it says. */
    method ReadRow(ghost r: nat, user: UserId) returns (ok: bool, keys: Option<seq<Key>>)
      requires Ended(r)
      modifies world, world.db, world.store, world.channel
      ensures RequestWent(r, old(world.Now()), world.Now())
      ensures if ok && keys.Some? then At(r, Deleting(user, NonEmpty(keys.value))) else Ended(r)
      ensures NoRowCall(r, old(world.trace), world.trace)
      ensures !ok ==> world.faultsLeft < old(world.faultsLeft)
      ensures ok && keys.None? ==> user !in world.st.rows
      ensures ok && keys.Some? ==>
        |old(world.trace)| < |world.trace| && KeysRead(world.trace, |world.trace| - 1, r, user, keys.value)
      ensures world.solo ==> SameStores(old(world.st), world.st)
      ensures world.solo && ok ==> keys == if user in world.st.rows then Some(KeysOf(world.st.rows[user])) else None
    {
      hide C.IdsFresh, SqlRows, SqlStep, Process, Phi, Lower, NonEmpty, Run, Failures, Unacked, NotBy,
        RequestWent, NoRowCall, AskedAlone;
      var up := world.Turn(ARequest(r, ""));
      ghost var s := world.st;
      RowIsFound(world.db.Contents(), user);
      var found;
      ok, found := world.db.GetAvatar(user, up);
      if !ok || found.None? {
        OthersWent(r, "", old(world.Now()), world.Now());
        return ok, None;
      }
      var a := found.value.row;
      keys := Some(KeysOf(a));
      ghost var trace := world.trace;
      world.Record(ReadForDelete(r, user));
      RequestCalled(world.codec, world.solo, r, "", old(world.Now()), trace, s, world.Now(),
        ReadForDelete(r, user));
      assert world.trace[..|trace|] == trace;
    }

    /** One object of a delete. */
    method RemoveOne(ghost r: nat, ghost user: UserId, key: Key, ghost rest: seq<Key>) returns (ok: bool)
      requires At(r, Deleting(user, [key] + rest))
      modifies world, world.db, world.store, world.channel
      ensures RequestWent(r, old(world.Now()), world.Now())
      ensures if ok then At(r, Deleting(user, rest)) else Ended(r)
      ensures ok ==> Removed(world.trace, |old(world.trace)|, r, key)
      ensures NoRowCall(r, old(world.trace), world.trace)
      ensures !ok ==> world.faultsLeft < old(world.faultsLeft)
      ensures world.solo ==> world.st.rows == old(world.st).rows
      ensures world.solo && ok ==> world.st.objects == old(world.st).objects - {key}
    {
      hide C.IdsFresh, SqlRows, Process, Phi, Lower, Run, Failures, Unacked, NotBy, RequestWent, NoRowCall,
        AskedAlone;
      var up := world.Turn(ARequest(r, ""));
      ghost var s := world.st;
      ok := world.store.DeleteObject(key, up);
      ghost var trace := world.trace;
      world.Record(RemoveObject(r, ok));
      RequestCalled(world.codec, world.solo, r, "", old(world.Now()), trace, s, world.Now(),
        RemoveObject(r, ok));
      assert world.trace[..|trace|] == trace;
      assert ok ==> RemovedAt(world.trace, |trace|, r, key);
      assert ([key] + rest)[1..] == rest;
    }

    /** `objects.Delete(keys...)`: skips empty keys and stops at the first error. */
    method DeleteObjects(ghost r: nat, ghost user: UserId, keys: seq<Key>) returns (ok: bool)
      requires At(r, Deleting(user, NonEmpty(keys)))
      modifies world, world.db, world.store, world.channel
      ensures RequestWent(r, old(world.Now()), world.Now())
      ensures if ok then At(r, Deleting(user, [])) else Ended(r)
      ensures ok ==> forall k :: k in keys && k != NoKey ==> Removed(world.trace, |old(world.trace)|, r, k)
      ensures NoRowCall(r, old(world.trace), world.trace)
      ensures !ok ==> world.faultsLeft < old(world.faultsLeft)
      ensures world.solo ==> world.st.rows == old(world.st).rows
      ensures world.solo && ok ==> world.st.objects == old(world.st).objects - (set k | k in keys && k != NoKey)
    {
      hide World.Valid, Removed, NonEmpty, Failures, NoRowCall;
      ghost var a := world.Now();
      NothingWent(r, a);
      var i := 0;
      assert keys[0..] == keys;
      while i < |keys|
        invariant 0 <= i <= |keys|
        invariant RequestWent(r, a, world.Now()) && NoRowCall(r, a.trace, world.trace)
        invariant At(r, Deleting(user, NonEmpty(keys[i..])))
        invariant forall k :: k in keys[..i] && k != NoKey ==> Removed(world.trace, |old(world.trace)|, r, k)
        invariant world.solo ==> world.st.rows == old(world.st).rows
        invariant world.solo ==> world.st.objects == old(world.st).objects - (set k | k in keys[..i] && k != NoKey)
      {
        NextKey(keys, i);
        ghost var b, trace := world.Now(), world.trace;
        if keys[i] != NoKey {
          ok := RemoveOne(r, user, keys[i], NonEmpty(keys[i + 1..]));
          RequestWentOn(r, a, b, world.Now());
          NoRowCallSince(r, a.trace, b.trace, world.trace);
          if !ok {
            return;
          }
          RemovedLater(world.trace, world.trace, |old(world.trace)|, |trace|, r, keys[i]);
        }
        forall k | k in keys[..i] && k != NoKey ensures Removed(world.trace, |old(world.trace)|, r, k) {
          RemovedLater(trace, world.trace, |old(world.trace)|, |old(world.trace)|, r, k);
        }
        i := i + 1;
      }
      ok := true;
      assert keys[..i] == keys && keys[i..] == [];
      NothingNonEmpty();
    }

    lemma NothingWent(r: nat, a: Point)
      ensures RequestWent(r, a, a) && NoRowCall(r, a.trace, a.trace)
    {
      hide Failures;
    }

    lemma NextKey(keys: seq<Key>, i: nat)
      requires i < |keys|
      ensures NonEmpty(keys[i..]) == (if keys[i] == NoKey then [] else [keys[i]]) + NonEmpty(keys[i + 1..])
      ensures keys[i] == NoKey ==> NonEmpty(keys[i..]) == NonEmpty(keys[i + 1..])
      ensures keys[..i + 1] == keys[..i] + [keys[i]]
    {
      assert keys[i..][0] == keys[i] && keys[i..][1..] == keys[i + 1..];
    }

    lemma NothingNonEmpty()
      ensures NonEmpty([]) == []
    {
    }

    /** Action `i` of a trace is this request deleting the row of `user`, and there was one. */
    ghost predicate RowTaken(trace: seq<Action>, i: nat, r: nat, user: UserId) {
      i < |trace| && trace[i] == RemoveRow(r, true) && user in Run(world.codec, world.origin, trace[..i]).rows
    }

    /** At action `i` of a trace the user has no row, and that action is this request's call to delete it. */
    ghost predicate RowMissed(trace: seq<Action>, i: nat, r: nat, user: UserId) {
      i < |trace| && trace[i] == RemoveRow(r, true) && user !in Run(world.codec, world.origin, trace[..i]).rows
    }

    method DeleteRow(ghost r: nat, user: UserId) returns (ok: bool, reply: Reply)
      requires At(r, Deleting(user, []))
      modifies world, world.db, world.store, world.channel
      ensures RequestWent(r, old(world.Now()), world.Now()) && Ended(r)
      ensures |old(world.trace)| < |world.trace|
      ensures NoRowCall(r, old(world.trace), world.trace[..|world.trace| - 1])
      ensures ok ==> user !in world.st.rows && (reply == Done || reply == NotFound)
      ensures !ok ==> world.faultsLeft < old(world.faultsLeft)
      ensures world.trace[|world.trace| - 1] == RemoveRow(r, ok)
      ensures ok && reply == Done ==> RowTaken(world.trace, |world.trace| - 1, r, user)
      ensures ok && reply == NotFound ==> RowMissed(world.trace, |world.trace| - 1, r, user)
      ensures world.solo ==> world.st.objects == old(world.st).objects
      ensures world.solo && ok ==>
        world.st.rows == old(world.st).rows - {user} && (reply == Done <==> user in old(world.st).rows)
    {
      hide C.IdsFresh, SqlRows, SqlStep, Process, Phi, Lower, Run, Failures, Unacked, NotBy, RequestWent,
        NoRowCall, AskedAlone;
      var up := world.Turn(ARequest(r, ""));
      ghost var s := world.st;
      ghost var trace, t := world.trace, world.db.Contents();
      ok, reply := world.db.DeleteAvatar(user, up);
      ViewOfDelete(t, user);
      world.Record(RemoveRow(r, ok));
      RequestCalled(world.codec, world.solo, r, "", old(world.Now()), trace, s, world.Now(),
        RemoveRow(r, ok));
      assert world.trace[..|trace|] == trace;
      DeleteMissing(t, user);
    }

    lemma DeleteMissing(t: Tables, user: UserId)
      ensures user !in SqlRows(t) ==> SqlRows(t) - {user} == SqlRows(t)
      ensures SqlStep(t, Storage.Delete(user)).0.processed == t.processed
      ensures SqlStep(t, Storage.Delete(user)).1 == if user in SqlRows(t) then Done else NotFound
      ensures SqlRows(SqlStep(t, Storage.Delete(user)).0) == SqlRows(t) - {user}
    {
      ViewOfDelete(t, user);
    }

    /** What was read and removed stays so as the trace goes on. */
    lemma ReadAndRemoved(from: nat, read: seq<Action>, emptied: seq<Action>, trace: seq<Action>, r: nat, user: UserId,
                         keys: seq<Key>)
      requires from < |read| && read <= emptied <= trace && KeysRead(read, |read| - 1, r, user, keys)
      requires forall k :: k in keys && k != NoKey ==> Removed(emptied, |read|, r, k)
      ensures ReadThenRemoved(trace, from, |read| - 1, r, user, keys)
    {
      hide Run;
      assert trace[..|read| - 1] == read[..|read| - 1];
      forall k | k in keys && k != NoKey ensures Removed(trace, |read| - 1, r, k) {
        RemovedLater(emptied, trace, |read| - 1, |read|, r, k);
      }
    }

    /**
     `DeleteAvatar`: 204 means exactly that this request took the row, after it had read it and
     removed each object that it named then. 404 means that the user had no row when the request
     read it, or none any more when it came to delete it; 500, that a call failed. Alone, it
     finds the row if there is one, and removes exactly that row and the objects it names.
     */
    method DeleteAvatar(ghost r: nat, user: UserId) returns (code: int)
      requires Ended(r)
      modifies world, world.db, world.store, world.channel
      ensures RequestWent(r, old(world.Now()), world.Now()) && Ended(r)
      ensures code == NO_CONTENT ==> user !in world.st.rows
      ensures code == NO_CONTENT <==> exists i :: |old(world.trace)| <= i && RowTaken(world.trace, i, r, user)
      ensures code == NOT_FOUND ==>
        || (user !in world.st.rows && NoRowCall(r, old(world.trace), world.trace))
        || exists i :: |old(world.trace)| <= i && RowMissed(world.trace, i, r, user)
      ensures code == NO_CONTENT ==>
        exists j, keys :: ReadThenRemoved(world.trace, |old(world.trace)|, j, r, user, keys)
      ensures code == BAD_REQUEST <==> user == ""
      ensures code in {NO_CONTENT, BAD_REQUEST, NOT_FOUND, INTERNAL_ERROR}
      ensures code == INTERNAL_ERROR ==> world.faultsLeft < old(world.faultsLeft)
      ensures world.solo && code == NOT_FOUND ==> user !in old(world.st).rows && SameStores(old(world.st), world.st)
      ensures world.solo && code == NO_CONTENT ==>
        && user in old(world.st).rows
        && world.st.rows == old(world.st).rows - {user}
        && world.st.objects == old(world.st).objects - (set k | k in KeysOf(old(world.st).rows[user]) && k != NoKey)
    {
      hide World.Valid, KeysRead, Removed, RowTaken, RowMissed, NoRowCall, Failures;
      ghost var a := world.Now();
      NothingWent(r, a);
      NotTaken(a.trace, a.trace, r, user);
      if user == "" {
        return BAD_REQUEST;
      }
      var ok, keys := ReadRow(r, user);
      ghost var b := world.Now();
      NotTaken(a.trace, b.trace, r, user);
      if !ok {
        return INTERNAL_ERROR;
      }
      if keys.None? {
        return NOT_FOUND;
      }
      ok := DeleteObjects(r, user, keys.value);
      ghost var c := world.Now();
      RequestWentOn(r, a, b, c);
      NoRowCallSince(r, a.trace, b.trace, c.trace);
      NotTaken(a.trace, c.trace, r, user);
      if !ok {
        return INTERNAL_ERROR;
      }
      var reply;
      ok, reply := DeleteRow(r, user);
      RequestWentOn(r, a, c, world.Now());
      ReadAndRemoved(|a.trace|, b.trace, c.trace, world.trace, r, user, keys.value);
      NoRowCallSince(r, a.trace, c.trace, world.trace[..|world.trace| - 1]);
      OnlyTheLast(a.trace, world.trace, r, user);
      if !ok {
        return INTERNAL_ERROR;
      }
      return if reply == NotFound then NOT_FOUND else NO_CONTENT;
    }

    lemma NotTaken(a: seq<Action>, trace: seq<Action>, r: nat, user: UserId)
      requires NoRowCall(r, a, trace)
      ensures forall i :: |a| <= i ==> !RowTaken(trace, i, r, user)
    {
      hide Run;
    }

    /** Only the last action of a trace is a call to delete a row. */
    lemma OnlyTheLast(a: seq<Action>, trace: seq<Action>, r: nat, user: UserId)
      requires |a| < |trace| && NoRowCall(r, a, trace[..|trace| - 1])
      ensures forall i :: |a| <= i && RowTaken(trace, i, r, user) ==> i == |trace| - 1
      ensures trace[|trace| - 1] == RemoveRow(r, false) ==> forall i :: |a| <= i ==> !RowTaken(trace, i, r, user)
      ensures RowMissed(trace, |trace| - 1, r, user) ==> forall i :: |a| <= i ==> !RowTaken(trace, i, r, user)
    {
      hide Run;
      assert forall i :: |a| <= i < |trace| - 1 ==> trace[i] == trace[..|trace| - 1][i];
    }
  }
}
