/**
 No torn avatar. With one worker (deploy/helm/avatars/values.yaml:45), whatever uploads,
 deletes, failures and crashes interleave, a ready row of a user stands for one picture: both
 objects at its keys come from the same bytes, which that user uploaded. An object at such a
 key is missing exactly when a DELETE removed it after it was last put; it is never a wrong one.
 */
module Torn {
  import opened Avatars
  import opened Keys
  import opened Ownership
  import opened Pipeline
  import opened Processor
  import opened Wrappers

  /** The picture that the upload with this id yields, if its bytes process at all. */
  function PictureOf(codec: Codec, h: History, id: MsgId): Option<Picture> {
    if id in h.sources then Process(codec, h.sources[id].bytes) else None
  }

  predicate HasOriginal(objects: map<Key, Bytes>, u: UserId, p: Picture) {
    Original(u) in objects && objects[Original(u)] == p.original
  }

  predicate HasThumb(objects: map<Key, Bytes>, u: UserId, p: Picture) {
    Thumb(u) in objects && objects[Thumb(u)] == p.thumb
  }

  /** Result object `k` holds `bytes`, unless a DELETE removed it after it was last put. */
  ghost predicate Holds(objects: map<Key, Bytes>, removed: set<Key>, k: Key, bytes: Bytes) {
    if k in removed then k !in objects else k in objects && objects[k] == bytes
  }

  /** What a ready row of `u` promises. */
  ghost predicate ReadyOk(codec: Codec, row: Row, objects: map<Key, Bytes>, h: History, u: UserId) {
    row.status == Ready ==>
      && u in h.shown
      && h.shown[u] in h.sources && h.sources[h.shown[u]].user == u
      && PictureOf(codec, h, h.shown[u]).Some?
      && var p := PictureOf(codec, h, h.shown[u]).value;
      && row.info == p.info
      && Holds(objects, h.removed, Original(u), p.original)
      && Holds(objects, h.removed, Thumb(u), p.thumb)
  }

  /** Between its first status update and mark-ready, the worker knows how far it got, and the row is not ready. */
  ghost predicate HandlingOk(codec: Codec, rows: map<UserId, Row>, objects: map<Key, Bytes>, h: History, x: Worker) {
    x.Busy? && x.d.readable ==>
      var u, id, pc := x.d.msg.user, x.d.msg.id, x.pc;
      && (pc == PutOriginal || pc == PutThumb || pc == MarkReady ==> PictureOf(codec, h, id) == Some(x.picture))
      && (pc == Download || pc == PutOriginal || pc == PutThumb || pc == MarkReady ==>
            u in rows ==> rows[u].status != Ready)
      && (pc == PutThumb || pc == MarkReady ==> Holds(objects, h.removed, Original(u), x.picture.original))
      && (pc == MarkReady ==> Holds(objects, h.removed, Thumb(u), x.picture.thumb))
  }

  ghost predicate NotTorn(codec: Codec, s: State) {
    && |s.workers| == 1
    && HandlingOk(codec, s.rows, s.objects, s.h, s.workers[0])
    && forall u :: u in s.rows ==> ReadyOk(codec, s.rows[u], s.objects, s.h, u)
  }

  // ---- worker steps ----

  lemma NotTornWork(codec: Codec, s: State, ok: bool, pos: nat, text: string)
    requires NotTorn(codec, s) && Structured(s) && Enabled(s, Work(0, ok, pos, text))
    ensures NotTorn(codec, ApplyWork(codec, s, 0, ok, pos, text))
  {
    hide QueuesAfter, ProcessedAfter;
    var x := s.workers[0];
    assert HeldOk(s.h, x);
    var t := ApplyWork(codec, s, 0, ok, pos, text);
    HandlingOkWork(codec, s, ok, pos, text);
    forall u | u in t.rows
      ensures ReadyOk(codec, t.rows[u], t.objects, t.h, u)
    {
      ReadyOkWork(codec, s, ok, pos, text, u);
    }
  }

  lemma HandlingOkWork(codec: Codec, s: State, ok: bool, pos: nat, text: string)
    requires NotTorn(codec, s) && Structured(s) && Enabled(s, Work(0, ok, pos, text))
    ensures var t := ApplyWork(codec, s, 0, ok, pos, text);
      HandlingOk(codec, t.rows, t.objects, t.h, t.workers[0])
  {
    hide QueuesAfter, ProcessedAfter, Process, ReadyOk, RowsOk, DeletesOk, CopiesOk, ObjectsOk;
    var x := s.workers[0];
    assert HeldOk(s.h, x);
    NextHandling(codec, s, x, ok);
    hide NextWorker, PictureOf;
    SamePictures(codec, s.h, HistoryAfter(s.h, x, ok));
  }

  /** The handler reaches each of its guarded calls only from the one before, and downloads what was staged. */
  lemma NextHandling(codec: Codec, s: State, x: Worker, ok: bool)
    requires x.Busy? && HeldOk(s.h, x) && ObjectsOk(s)
    ensures var y := NextWorker(codec, s, x, ok);
      y.Busy? ==>
        && y.d == x.d
        && (y.pc == Download ==> ok && x.pc == Start)
        && (y.pc == PutOriginal ==> ok && x.pc == Download && PictureOf(codec, s.h, x.d.msg.id) == Some(y.picture))
        && (y.pc == PutThumb ==> ok && x.pc == PutOriginal && y.picture == x.picture)
        && (y.pc == MarkReady ==> ok && x.pc == PutThumb && y.picture == x.picture)
  {
    hide Process;
    var k := x.d.msg.stagingKey;
    if x.pc == Download && k in s.objects {
      assert ObjectOk(s.h, k, s.objects[k]);
    }
  }

  /** A worker call for one user leaves what another user's row and results say alone. */
  lemma WorkForOther(s: State, x: Worker, ok: bool, text: string, u: UserId)
    requires x.Busy? && x.d.msg.user != u
    requires x.pc == Cleanup ==> OwnedBy(x.d.msg.stagingKey, x.d.msg.user)
    ensures var rows, objects, h := RowsAfter(s.rows, x, ok, text), ObjectsAfter(s.objects, x, ok),
      HistoryAfter(s.h, x, ok);
      && (u in rows <==> u in s.rows) && (u in rows ==> rows[u] == s.rows[u])
      && (forall b :: Holds(objects, h.removed, Original(u), b) == Holds(s.objects, s.h.removed, Original(u), b))
      && (forall b :: Holds(objects, h.removed, Thumb(u), b) == Holds(s.objects, s.h.removed, Thumb(u), b))
      && h.sources == s.h.sources
      && (u in h.shown <==> u in s.h.shown) && (u in h.shown ==> h.shown[u] == s.h.shown[u])
  {
  }

  /** A worker call for the user itself: its row turns ready only by mark-ready, over two objects already in place. */
  lemma WorkForSelf(codec: Codec, s: State, x: Worker, ok: bool, text: string)
    requires x.Busy? && x.d.readable && MsgOk(s.h.sources, x.d.msg)
    requires HandlingOk(codec, s.rows, s.objects, s.h, x)
    requires x.d.msg.user in s.rows && ReadyOk(codec, s.rows[x.d.msg.user], s.objects, s.h, x.d.msg.user)
    ensures var u := x.d.msg.user;
      var rows := RowsAfter(s.rows, x, ok, text);
      && u in rows
      && ReadyOk(codec, rows[u], ObjectsAfter(s.objects, x, ok), HistoryAfter(s.h, x, ok), u)
  {
    hide Process;
  }

  lemma ReadyOkWork(codec: Codec, s: State, ok: bool, pos: nat, text: string, u: UserId)
    requires NotTorn(codec, s) && Structured(s) && Enabled(s, Work(0, ok, pos, text))
    requires u in ApplyWork(codec, s, 0, ok, pos, text).rows
    ensures var t := ApplyWork(codec, s, 0, ok, pos, text);
      ReadyOk(codec, t.rows[u], t.objects, t.h, u)
  {
    hide QueuesAfter, ProcessedAfter, NextWorker, Process, RowsOk, DeletesOk, ObjectsOk, CopiesOk;
    var x := s.workers[0];
    assert HeldOk(s.h, x);
    if x.d.msg.user != u {
      WorkForOther(s, x, ok, text, u);
      hide RowsAfter, ObjectsAfter, HistoryAfter, Holds;
      assert ReadyOk(codec, s.rows[u], s.objects, s.h, u);
    } else if x.d.readable {
      hide RowsAfter, ObjectsAfter, HistoryAfter, ReadyOk, HandlingOk;
      UserStays(s.rows, x, ok, text);
      WorkForSelf(codec, s, x, ok, text);
    } else {
      assert ReadyOk(codec, s.rows[u], s.objects, s.h, u);
    }
  }

  lemma UserStays(rows: map<UserId, Row>, x: Worker, ok: bool, text: string)
    requires x.Busy?
    ensures RowsAfter(rows, x, ok, text).Keys == rows.Keys
  {
  }

  // ---- API steps ----

  /** What API steps may do to a user's rows, objects and history while keeping the promises. */
  ghost predicate Harmless(s: State, t: State) {
    && t.workers == s.workers
    && (forall id :: id in s.h.sources ==> id in t.h.sources && t.h.sources[id] == s.h.sources[id])
    && t.h.shown == s.h.shown
    && (forall u :: u in t.rows && t.rows[u].status == Ready ==> u in s.rows && t.rows[u] == s.rows[u])
    && (forall k: Key :: k.Original? || k.Thumb? ==>
          || (k in t.h.removed && k !in t.objects)
          || ((k in s.h.removed <==> k in t.h.removed) && (k in s.objects <==> k in t.objects)
              && (k in s.objects ==> s.objects[k] == t.objects[k])))
  }

  lemma HarmlessKeeps(codec: Codec, s: State, t: State)
    requires NotTorn(codec, s) && MessagesOk(s) && Harmless(s, t)
    ensures NotTorn(codec, t)
  {
    hide Process;
    assert HeldOk(s.h, s.workers[0]);
    forall u | u in t.rows && t.rows[u].status == Ready
      ensures ReadyOk(codec, t.rows[u], t.objects, t.h, u)
    {
      assert ReadyOk(codec, s.rows[u], s.objects, s.h, u);
      assert Original(u).user == u && Thumb(u).user == u;
    }
    var x := s.workers[0];
    if x.Busy? {
      assert Original(x.d.msg.user).Original? && Thumb(x.d.msg.user).Thumb?;
    }
  }

  lemma ApiIsHarmless(codec: Codec, s: State, a: Action)
    requires Structured(s) && Enabled(s, a) && ByApi(a)
    ensures Harmless(s, Step(codec, s, a))
  {
    hide ApplyWork, ApplyCrash, ApplyDeliver, ApplyExpire, RowsOk, ObjectsOk, CopiesOk, HeldOk, ApplyStagePut,
      ApplyUnstage, ApplyUpsert, ApplyFailUpload, ApplyRemoveRow, ApplyRemoveObject, Push, NonEmpty;
    match a {
      case StagePut(r, u, id, bytes) => StagePutIsHarmless(s, r, u, id, bytes);
      case Unstage(r, ok) => UnstageIsHarmless(s, r, ok);
      case RemoveObject(r, ok) => RemoveObjectIsHarmless(s, r, ok);
      case UpsertRow(r, ok) => RowChangeIsHarmless(s, a);
      case FailUploadRow(r, ok, text) => RowChangeIsHarmless(s, a);
      case RemoveRow(r, ok) => RowChangeIsHarmless(s, a);
      case _ => hide MessagesOk, DeletesOk;
    }
  }

  lemma StagePutIsHarmless(s: State, r: nat, u: UserId, id: MsgId, bytes: Bytes)
    requires Enabled(s, StagePut(r, u, id, bytes))
    ensures Harmless(s, ApplyStagePut(s, r, u, id, bytes))
  {
  }

  lemma RowChangeIsHarmless(s: State, a: Action)
    requires Enabled(s, a) && (a.UpsertRow? || a.FailUploadRow? || a.RemoveRow?)
    ensures var t := if a.UpsertRow? then ApplyUpsert(s, a.r, a.ok)
        else if a.FailUploadRow? then ApplyFailUpload(s, a.r, a.ok, a.text) else ApplyRemoveRow(s, a.r, a.ok);
      Harmless(s, t)
  {
  }

  lemma UnstageIsHarmless(s: State, r: nat, ok: bool)
    requires MessagesOk(s) && Enabled(s, Unstage(r, ok))
    ensures Harmless(s, ApplyUnstage(s, r, ok))
  {
    hide CopiesOk, HeldOk;
    assert MsgOk(s.h.sources, s.requests[r].msg);
  }

  lemma RemoveObjectIsHarmless(s: State, r: nat, ok: bool)
    requires DeletesOk(s) && Enabled(s, RemoveObject(r, ok))
    ensures Harmless(s, ApplyRemoveObject(s, r, ok))
  {
    assert s.requests[r].keys[0] in s.requests[r].keys;
  }

  lemma NotTornStep(codec: Codec, s: State, a: Action)
    requires NotTorn(codec, s) && Structured(s)
    ensures NotTorn(codec, Apply(codec, s, a))
  {
    hide ApplyWork, Structured, ReadyOk;
    if Enabled(s, a) {
      if a.Work? {
        NotTornWork(codec, s, a.ok, a.pos, a.text);
      } else if ByApi(a) {
        ApiIsHarmless(codec, s, a);
        assert MessagesOk(s) by { StructuredMessages(s); }
        HarmlessKeeps(codec, s, Step(codec, s, a));
      } else if ByBroker(a) {
        BrokerKeepsStores(codec, s, a);
      } else {
        DeliverCrashKeepStores(codec, s, a);
      }
    }
  }

  lemma StructuredMessages(s: State)
    requires Structured(s)
    ensures MessagesOk(s)
  {
  }

  lemma DeliverCrashKeepStores(codec: Codec, s: State, a: Action)
    requires NotTorn(codec, s) && Enabled(s, a) && (a.Deliver? || a.Crash?)
    ensures NotTorn(codec, Apply(codec, s, a))
  {
    var t := Apply(codec, s, a);
    MovesKeepStores(codec, s, a);
    SamePictures(codec, s.h, t.h);
    hide PictureOf, Holds;
    assert !t.workers[0].Busy? || t.workers[0].pc == Check || t.workers[0].pc == Reject;
    hide Apply;
    forall u | u in s.rows
      ensures ReadyOk(codec, s.rows[u], s.objects, t.h, u)
    {
      assert ReadyOk(codec, s.rows[u], s.objects, s.h, u);
    }
  }

  lemma SamePictures(codec: Codec, g: History, h: History)
    requires g.sources == h.sources
    ensures forall id :: PictureOf(codec, g, id) == PictureOf(codec, h, id)
  {
  }

  lemma {:induction false} NeverTorn(codec: Codec, acts: seq<Action>)
    ensures NotTorn(codec, Run(codec, Init(1), acts))
  {
    if acts != [] {
      var before := acts[..|acts| - 1];
      NeverTorn(codec, before);
      EverythingStructured(codec, 1, before);
      NotTornStep(codec, Run(codec, Init(1), before), acts[|acts| - 1]);
    }
  }

  /** The row of `u` stands for upload `id` of that same user, whole. */
  ghost predicate Shows(codec: Codec, s: State, u: UserId, id: MsgId) {
    && u in s.rows
    && id in s.h.sources && s.h.sources[id].user == u
    && Process(codec, s.h.sources[id].bytes).Some?
    && var p := Process(codec, s.h.sources[id].bytes).value;
    && s.rows[u].info == p.info && p.info.bytes == |p.original|
    && Holds(s.objects, s.h.removed, s.rows[u].originalKey, p.original)
    && Holds(s.objects, s.h.removed, s.rows[u].thumbKey, p.thumb)
  }

  /** Every ready row stands for one upload of its user. */
  ghost predicate Untorn(codec: Codec, s: State) {
    forall u :: u in s.rows && s.rows[u].status == Ready ==> exists id :: Shows(codec, s, u, id)
  }

  /**
   The main result: in every run of one worker, for every user whose row is ready, there is one
   upload of that same user, the one made ready last, whose processed picture the row's size and
   dimensions describe, and whose original and thumbnail are what the row's two keys hold.
   */
  lemma {:induction false} ReadyAvatarsAreWhole(codec: Codec, acts: seq<Action>, u: UserId)
    requires var s := Run(codec, Init(1), acts);
      u in s.rows && s.rows[u].status == Ready
    ensures var s := Run(codec, Init(1), acts);
      u in s.h.shown && Shows(codec, s, u, s.h.shown[u])
  {
    var s := Run(codec, Init(1), acts);
    NeverTorn(codec, acts);
    EverythingStructured(codec, 1, acts);
    assert RowOk(u, s.rows[u]);
    ProcessDescribesItsResult(codec, s.h.sources[s.h.shown[u]].bytes);
  }
}
