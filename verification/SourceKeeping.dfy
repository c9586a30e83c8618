/**
 Publish comes last. `UploadAvatar` stages the bytes and writes the row before it publishes, so
 the source of an accepted message is in the store until the message has been made ready once,
 unless a DELETE removed that very source.
 */
module SourceKeeping {
  import opened Avatars
  import opened Conservation
  import opened Keys
  import opened Ownership
  import opened Pipeline
  import opened Processor
  import opened Wrappers

  ghost predicate Kept(h: History, objects: map<Key, Bytes>, m: Msg) {
    m.id in h.readied || (m.stagingKey in objects <==> m.stagingKey !in h.removed)
  }

  predicate BeforePublish(q: Request) {
    q.Uploading? && (q.pc == Upsert || q.pc == Publish)
  }

  ghost predicate SourcesKept(s: State) {
    && (forall m :: m in s.h.published ==> MsgOk(s.h.sources, m) && Kept(s.h, s.objects, m))
    && (forall r :: r in s.requests && BeforePublish(s.requests[r]) ==> Kept(s.h, s.objects, s.requests[r].msg))
    && (forall w :: 0 <= w < |s.workers| && s.workers[w].Busy? && s.workers[w].pc == Cleanup ==>
          s.workers[w].d.msg.id in s.h.readied)
  }

  lemma SourcesKeptWork(codec: Codec, s: State, w: nat, ok: bool, pos: nat, text: string)
    requires SourcesKept(s) && MessagesOk(s) && Enabled(s, Work(w, ok, pos, text))
    ensures SourcesKept(ApplyWork(codec, s, w, ok, pos, text))
  {
    hide RowsAfter, QueuesAfter, ProcessedAfter, Process, CopiesOk, NextWorker, ObjectsAfter;
    var x := s.workers[w];
    assert HeldOk(s.h, x);
    CleanupFollowsReady(codec, s, x, ok);
    forall m | MsgOk(s.h.sources, m) && Kept(s.h, s.objects, m)
      ensures Kept(HistoryAfter(s.h, x, ok), ObjectsAfter(s.objects, x, ok), m)
    {
      KeptByWork(s, x, ok, m);
    }
    assert forall r :: r in s.requests && BeforePublish(s.requests[r]) ==> MsgOk(s.h.sources, s.requests[r].msg);
    hide Kept, MsgOk;
  }

  /** A worker removes no source but that of a message it made ready. */
  lemma KeptByWork(s: State, x: Worker, ok: bool, m: Msg)
    requires x.Busy? && HeldOk(s.h, x) && (x.pc == Cleanup ==> x.d.msg.id in s.h.readied)
    requires MsgOk(s.h.sources, m) && Kept(s.h, s.objects, m)
    ensures Kept(HistoryAfter(s.h, x, ok), ObjectsAfter(s.objects, x, ok), m)
  {
  }

  lemma CleanupFollowsReady(codec: Codec, s: State, x: Worker, ok: bool)
    requires x.Busy?
    ensures var y := NextWorker(codec, s, x, ok);
      y.Busy? && y.pc == Cleanup ==> ok && x.pc == MarkReady && y.d == x.d
  {
    hide Process;
  }

  /** Undoing a failed upload removes a source that no accepted message and no other upload uses. */
  lemma SourcesKeptUnstage(s: State, r: nat, ok: bool)
    requires SourcesKept(s) && MessagesOk(s) && IdsFresh(s) && Enabled(s, Unstage(r, ok))
    ensures SourcesKept(ApplyUnstage(s, r, ok))
  {
    hide CopiesOk, HeldOk;
    var m := s.requests[r].msg;
    assert MsgOk(s.h.sources, m);
    forall q | q in s.requests && BeforePublish(s.requests[q])
      ensures s.requests[q].msg.stagingKey != m.stagingKey
    {
      assert q != r && MsgOk(s.h.sources, s.requests[q].msg);
    }
  }

  lemma SourcesKeptRemove(s: State, r: nat, ok: bool)
    requires SourcesKept(s) && MessagesOk(s) && DeletesOk(s) && Enabled(s, RemoveObject(r, ok))
    ensures SourcesKept(ApplyRemoveObject(s, r, ok))
  {
    hide CopiesOk, HeldOk;
    assert s.requests[r].keys[0] in s.requests[r].keys;
    assert forall q :: q in s.requests && s.requests[q].Uploading? ==> MsgOk(s.h.sources, s.requests[q].msg);
  }

  lemma SourcesKeptStagePut(s: State, r: nat, u: UserId, id: MsgId, bytes: Bytes)
    requires SourcesKept(s) && MessagesOk(s) && Enabled(s, StagePut(r, u, id, bytes))
    ensures SourcesKept(ApplyStagePut(s, r, u, id, bytes))
  {
    hide CopiesOk, HeldOk;
  }

  lemma SourcesKeptPublish(s: State, r: nat, ok: bool)
    requires SourcesKept(s) && MessagesOk(s) && Enabled(s, PublishMsg(r, ok))
    ensures SourcesKept(ApplyPublish(s, r, ok))
  {
    hide CopiesOk, HeldOk;
    assert MsgOk(s.h.sources, s.requests[r].msg);
    hide MsgOk;
  }

  lemma SourcesKeptStep(codec: Codec, s: State, a: Action)
    requires SourcesKept(s) && Structured(s) && IdsFresh(s)
    ensures SourcesKept(Apply(codec, s, a))
  {
    hide ApplyWork, ApplyUnstage, ApplyRemoveObject, ApplyStagePut, ApplyPublish, Push, NonEmpty, ApplyDeliver,
      ApplyCrash, ApplyExpire, IdsFresh, RowsOk, ObjectsOk, CopiesOk, HeldOk, DeletesOk;
    if Enabled(s, a) {
      match a {
        case Work(w, ok, pos, text) => SourcesKeptWork(codec, s, w, ok, pos, text);
        case Unstage(r, ok) => SourcesKeptUnstage(s, r, ok);
        case RemoveObject(r, ok) => SourcesKeptRemove(s, r, ok);
        case StagePut(r, u, id, bytes) => SourcesKeptStagePut(s, r, u, id, bytes);
        case PublishMsg(r, ok) => SourcesKeptPublish(s, r, ok);
        case Deliver(w, i) => SourcesKeptMove(codec, s, a);
        case Crash(w, pos) => SourcesKeptMove(codec, s, a);
        case Expire(q) => SourcesKeptMove(codec, s, a);
        case _ =>
      }
    }
  }

  lemma SourcesKeptMove(codec: Codec, s: State, a: Action)
    requires SourcesKept(s) && Enabled(s, a) && (a.Deliver? || a.Crash? || a.Expire?)
    ensures SourcesKept(Apply(codec, s, a))
  {
    MovesKeepStores(codec, s, a);
    var t := Apply(codec, s, a);
    assert forall w :: 0 <= w < |t.workers| && t.workers[w].Busy? && t.workers[w].pc == Cleanup ==>
      t.workers[w] == s.workers[w];
    hide Apply, MsgOk;
  }

  lemma {:induction false} SourcesAreKept(codec: Codec, workers: nat, acts: seq<Action>)
    ensures SourcesKept(Run(codec, Init(workers), acts))
  {
    if acts != [] {
      var before := acts[..|acts| - 1];
      SourcesAreKept(codec, workers, before);
      EverythingStructured(codec, workers, before);
      IdsAreFresh(codec, workers, before);
      SourcesKeptStep(codec, Run(codec, Init(workers), before), acts[|acts| - 1]);
    }
  }

  /**
   With any number of workers and any faults: the source of an accepted message that was never
   made ready is in the store if and only if no DELETE removed that very object, and then it
   holds the uploaded bytes.
   */
  lemma {:induction false} AcceptedSourceIsThere(codec: Codec, workers: nat, acts: seq<Action>, m: Msg)
    requires var s := Run(codec, Init(workers), acts);
      m in s.h.published && m.id !in s.h.readied
    ensures var s := Run(codec, Init(workers), acts);
      && m.stagingKey == Staging(m.user, m.id) && m.id in s.h.sources
      && (m.stagingKey in s.objects <==> m.stagingKey !in s.h.removed)
      && (m.stagingKey in s.objects ==> s.h.sources[m.id] == Source(m.user, s.objects[m.stagingKey]))
  {
    SourcesAreKept(codec, workers, acts);
    EverythingStructured(codec, workers, acts);
    var s := Run(codec, Init(workers), acts);
    assert MsgOk(s.h.sources, m);
    assert m.stagingKey in s.objects ==> ObjectOk(s.h, m.stagingKey, s.objects[m.stagingKey]);
  }

  /**
   Hence a first success is never blocked by a missing source: if a worker's download call
   itself works, the handler goes on exactly when the uploaded bytes are a picture.
   */
  lemma {:induction false} FirstDownloadFindsTheSource(codec: Codec, workers: nat, acts: seq<Action>, w: nat)
    requires var s := Run(codec, Init(workers), acts);
      w < |s.workers| && s.workers[w].Busy? && s.workers[w].pc == Download
      && s.workers[w].d.msg.id !in s.h.readied && s.workers[w].d.msg.stagingKey !in s.h.removed
    ensures var s := Run(codec, Init(workers), acts);
      && s.workers[w].d.msg.id in s.h.sources
      && var picture := Process(codec, s.h.sources[s.workers[w].d.msg.id].bytes);
      NextWorker(codec, s, s.workers[w], true) ==
        if picture.Some? then Busy(s.workers[w].d, PutOriginal, picture.value) else s.workers[w].(pc := FailRow)
  {
    var s := Run(codec, Init(workers), acts);
    EverythingStructured(codec, workers, acts);
    assert HeldOk(s.h, s.workers[w]);
    AcceptedSourceIsThere(codec, workers, acts, s.workers[w].d.msg);
  }
}
