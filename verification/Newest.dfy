/**
 Whose picture a ready avatar is. `Handle` never compares the id of its message with the row, so
 the newest upload does not always win; this module says exactly when the row shows its own.
 */
module Newest {
  import opened Avatars
  import opened EndToEnd
  import opened Keys
  import opened Ownership
  import opened Pipeline
  import opened Processor
  import opened Torn
  import opened Wrappers

  /** Action `a` is a mark-ready that takes effect on the row of `u`. */
  predicate MarksReady(s: State, a: Action, u: UserId) {
    && a.Work? && Enabled(s, a) && a.ok
    && s.workers[a.w].pc == MarkReady && s.workers[a.w].d.msg.user == u && u in s.rows
  }

  /** The message that is about to be marked ready is the one that the row names: the comparison `Handle` lacks. */
  predicate OwnMessage(s: State, a: Action, u: UserId)
    requires MarksReady(s, a, u)
  {
    s.workers[a.w].d.msg.id == s.rows[u].messageId
  }

  /** The last action of the run that made the row of `u` ready is number `i`. */
  ghost predicate LastMark(codec: Codec, s: State, acts: seq<Action>, u: UserId, i: nat) {
    && i < |acts|
    && MarksReady(Run(codec, s, acts[..i]), acts[i], u)
    && forall j :: i < j < |acts| ==> !MarksReady(Run(codec, s, acts[..j]), acts[j], u)
  }

  lemma LastMarkExtends(codec: Codec, s: State, acts: seq<Action>, u: UserId, i: nat)
    requires acts != [] && LastMark(codec, s, acts[..|acts| - 1], u, i)
    requires !MarksReady(Run(codec, s, acts[..|acts| - 1]), acts[|acts| - 1], u)
    ensures LastMark(codec, s, acts, u, i)
  {
    hide MarksReady, Run;
    var n := |acts| - 1;
    assert acts[..n][..i] == acts[..i];
    forall j | i < j < |acts| ensures !MarksReady(Run(codec, s, acts[..j]), acts[j], u) {
      assert j < n ==> acts[..n][..j] == acts[..j];
    }
  }

  lemma WorkAndReady(codec: Codec, s: State, w: nat, ok: bool, pos: nat, text: string, u: UserId)
    requires Enabled(s, Work(w, ok, pos, text))
    ensures var t := ApplyWork(codec, s, w, ok, pos, text);
      u in t.rows && t.rows[u].status == Ready ==>
        && u in s.rows && t.rows[u].messageId == s.rows[u].messageId
        && (MarksReady(s, Work(w, ok, pos, text), u) ==> u in t.h.shown && t.h.shown[u] == s.workers[w].d.msg.id)
        && (!MarksReady(s, Work(w, ok, pos, text), u) ==>
              s.rows[u].status == Ready && (u in t.h.shown <==> u in s.h.shown)
              && (u in s.h.shown ==> t.h.shown[u] == s.h.shown[u]))
  {
    hide QueuesAfter, ObjectsAfter, NextWorker, ProcessedAfter;
  }

  /** A row is ready after a step because it was before, or by a mark-ready; and it names the same message as before. */
  lemma StepAndReady(codec: Codec, s: State, a: Action, u: UserId)
    ensures var t := Apply(codec, s, a);
      u in t.rows && t.rows[u].status == Ready ==>
        && u in s.rows && t.rows[u].messageId == s.rows[u].messageId
        && (MarksReady(s, a, u) ==> u in t.h.shown && t.h.shown[u] == s.workers[a.w].d.msg.id)
        && (!MarksReady(s, a, u) ==>
              s.rows[u].status == Ready && (u in t.h.shown <==> u in s.h.shown)
              && (u in s.h.shown ==> t.h.shown[u] == s.h.shown[u]))
  {
    hide ApplyWork, NonEmpty, Push, RemoveAt, InsertAt;
    if a.Work? && Enabled(s, a) {
      WorkAndReady(codec, s, a.w, a.ok, a.pos, a.text, u);
    } else if a.Deliver? || a.Crash? || ByBroker(a) {
      MovesKeepStores(codec, s, a);
      hide Apply;
    }
  }

  /**
   Exactly when the newest upload wins, in every run of any number of workers: a ready row shows
   the upload that it names if and only if the last mark-ready that took effect on it was for
   that message, by a comparison of ids that could be made just before the call.
   */
  lemma {:induction false} ShowsItsOwnUpload(codec: Codec, workers: nat, acts: seq<Action>, u: UserId) returns (i: nat)
    requires var s := Run(codec, Init(workers), acts);
      u in s.rows && s.rows[u].status == Ready
    ensures LastMark(codec, Init(workers), acts, u, i)
    ensures var s, before := Run(codec, Init(workers), acts), Run(codec, Init(workers), acts[..i]);
      && u in s.h.shown && s.h.shown[u] == before.workers[acts[i].w].d.msg.id
      && s.rows[u].messageId == before.rows[u].messageId
      && (s.h.shown[u] == s.rows[u].messageId <==> OwnMessage(before, acts[i], u))
  {
    var n := |acts| - 1;
    if acts == [] {
      assert false;
    } else {
      hide Apply;
      var s := Run(codec, Init(workers), acts[..n]);
      StepAndReady(codec, s, acts[n], u);
      if MarksReady(s, acts[n], u) {
        i := n;
      } else {
        i := ShowsItsOwnUpload(codec, workers, acts[..n], u);
        LastMarkExtends(codec, Init(workers), acts, u, i);
        assert acts[..n][..i] == acts[..i];
      }
    }
  }

  // ---- and the picture ----

  /** Every row names an upload of its user. */
  ghost predicate RowsNameUploads(s: State) {
    forall u :: u in s.rows ==>
      s.rows[u].messageId in s.h.sources && s.h.sources[s.rows[u].messageId].user == u
  }

  lemma RowsNameUploadsStep(codec: Codec, s: State, a: Action)
    requires RowsNameUploads(s) && MessagesOk(s)
    ensures RowsNameUploads(Apply(codec, s, a))
  {
    hide ApplyWork, CopiesOk, HeldOk, Push, NonEmpty, MsgOk, ApplyUpsert;
    if a.Deliver? || a.Crash? || ByBroker(a) {
      MovesKeepStores(codec, s, a);
      hide Apply;
    } else if Enabled(s, a) {
      match a {
        case Work(w, ok, pos, text) =>
          WorkKeepsRequests(codec, s, w, ok, pos, text);
          WorkKeepsNames(codec, s, w, ok, pos, text);
        case UpsertRow(r, ok) => UpsertNamesUpload(s, r, ok);
        case _ =>
      }
    }
  }

  lemma WorkKeepsNames(codec: Codec, s: State, w: nat, ok: bool, pos: nat, text: string)
    requires Enabled(s, Work(w, ok, pos, text))
    ensures var t := ApplyWork(codec, s, w, ok, pos, text);
      t.rows.Keys == s.rows.Keys && forall u :: u in s.rows ==> t.rows[u].messageId == s.rows[u].messageId
  {
    hide NextWorker, QueuesAfter, ObjectsAfter, ProcessedAfter, HistoryAfter;
  }

  lemma UpsertNamesUpload(s: State, r: nat, ok: bool)
    requires RowsNameUploads(s) && MessagesOk(s) && UploadAt(s, r, Upsert)
    ensures RowsNameUploads(ApplyUpsert(s, r, ok))
  {
    hide CopiesOk, HeldOk;
    assert MsgOk(s.h.sources, s.requests[r].msg);
  }

  lemma {:induction false} RowsNameTheirUploads(codec: Codec, workers: nat, acts: seq<Action>)
    ensures RowsNameUploads(Run(codec, Init(workers), acts))
  {
    if acts != [] {
      var n := |acts| - 1;
      RowsNameTheirUploads(codec, workers, acts[..n]);
      EverythingStructured(codec, workers, acts[..n]);
      hide RowsNameUploads, MessagesOk, RowsOk, ObjectsOk, DeletesOk, Apply;
      RowsNameUploadsStep(codec, Run(codec, Init(workers), acts[..n]), acts[n]);
    }
  }

  /**
   The same for the picture. With one worker a ready row whose two objects are there shows the
   picture of the upload that it names if and only if its last mark-ready was for that message,
   or for one with the very same picture.
   */
  lemma {:induction false} ShowsItsOwnPicture(codec: Codec, acts: seq<Action>, u: UserId) returns (i: nat)
    requires var s := Run(codec, Init(1), acts);
      && u in s.rows && s.rows[u].status == Ready
      && s.rows[u].originalKey in s.objects && s.rows[u].thumbKey in s.objects
    ensures LastMark(codec, Init(1), acts, u, i)
    ensures var s, before := Run(codec, Init(1), acts), Run(codec, Init(1), acts[..i]);
      var own, marked := s.rows[u].messageId, before.workers[acts[i].w].d.msg.id;
      && Shows(codec, s, u, marked)
      && (Shows(codec, s, u, own) <==>
            OwnMessage(before, acts[i], u) || PictureOf(codec, s.h, own) == PictureOf(codec, s.h, marked))
  {
    hide Process, Run, LastMark;
    i := ShowsItsOwnUpload(codec, 1, acts, u);
    ReadyAvatarsAreWhole(codec, acts, u);
    RowsNameTheirUploads(codec, 1, acts);
  }

  // ---- runs without faults ----

  /**
   Without faults the comparison comes down to the two orders in which overlapping uploads reach
   the database and the broker: at rest, a row shows its own upload if and only if that was the
   user's last to be published.
   */
  lemma {:induction false} AtRestShowsItsOwn(codec: Codec, acts: seq<Action>, m: Msg)
    requires var s := Run(codec, Init(1), acts);
      AllBenign(codec, acts) && Quiescent(s) && m in s.h.published
    ensures var s := Run(codec, Init(1), acts);
      && m.user in s.rows && s.rows[m.user].status == Ready && m.user in s.h.shown
      && (s.h.shown[m.user] == s.rows[m.user].messageId <==>
         LastOf(s.h.published, m.user) == Some(s.rows[m.user].messageId))
  {
    hide Process;
    var s := Run(codec, Init(1), acts);
    BenignRunsAreCalm(codec, acts);
    QuiescentMeansShown(codec, acts);
    ShownIsLast(codec, s, m);
  }
}
