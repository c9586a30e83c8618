/**
 Where the guarantees end. Concrete runs that break stronger claims, so the conditions of the
 main results are there for a reason; and `HandlerOutcome`, which says for every state what a
 repeated delivery does to an avatar.
 */
module Limits {
  import opened Avatars
  import opened Keys
  import opened Pipeline
  import opened Processor
  import opened EndToEnd
  import opened HandlerAccount
  import opened Newest
  import opened Termination
  import opened Torn
  import opened Wrappers
  import T = Topology

  /** One accepted upload, without interference. */
  lemma Upload(codec: Codec, s: State, u: UserId, id: MsgId, bytes: Bytes) returns (acts: seq<Action>, t: State)
    requires s.requests == map[] && id !in s.h.sources && u != "" && id != "" && SlashFree(id) && bytes != []
    ensures Reaches(codec, s, acts, t)
    ensures var m := MessageFor(u, id);
      && t.rows == s.rows[u := Uploaded(m)] && t.objects == s.objects[m.stagingKey := bytes]
      && t.queues == Push(s.queues, T.Processing, FirstCopy(m, s.now))
      && t.workers == s.workers && t.requests == map[] && t.processed == s.processed && t.now == s.now
      && t.h.sources == s.h.sources[id := Source(u, bytes)]
      && t.h.published == s.h.published + [m]
      && t.h.removed == s.h.removed - {m.stagingKey}
  {
    acts, t := [], s;
    acts, t := Then(codec, s, acts, t, StagePut(0, u, id, bytes));
    acts, t := Then(codec, s, acts, t, UpsertRow(0, true));
    acts, t := Then(codec, s, acts, t, PublishMsg(0, true));
  }

  /** Worker `w` takes the head of the queue and finds it unmarked. */
  lemma Receive(codec: Codec, s: State, w: nat) returns (acts: seq<Action>, t: State)
    requires w < |s.workers| && s.workers[w].Idle? && s.queues.processing != []
    requires s.queues.processing[0].readable && s.queues.processing[0].msg.id !in s.processed
    ensures Reaches(codec, s, acts, t)
    ensures forall i :: 0 <= i < |acts| ==> ByWorker(acts[i]) && !acts[i].Crash?
    ensures t == s.(queues := s.queues.(processing := s.queues.processing[1..]),
                    workers := s.workers[w := Busy(s.queues.processing[0], Start, NO_PICTURE)])
  {
    hide Run, Apply;
    acts, t := Taken(codec, s, w);
    acts, t := Checked(codec, s, acts, t, w, s.queues.processing[0]);
    assert t.workers == s.workers[w := Busy(s.queues.processing[0], Start, NO_PICTURE)];
  }

  lemma Taken(codec: Codec, s: State, w: nat) returns (acts: seq<Action>, t: State)
    requires w < |s.workers| && s.workers[w].Idle? && s.queues.processing != [] && s.queues.processing[0].readable
    ensures acts == [Deliver(w, 0)] && Reaches(codec, s, acts, t)
    ensures t == s.(queues := s.queues.(processing := s.queues.processing[1..]),
                    workers := s.workers[w := Busy(s.queues.processing[0], Check, NO_PICTURE)])
  {
    hide Process, ApplyWork, ApplyCrash, ApplyExpire;
    acts, t := Then(codec, s, [], s, Deliver(w, 0));
    assert RemoveAt(s.queues.processing, 0) == s.queues.processing[1..];
  }

  lemma Checked(codec: Codec, origin: State, before: seq<Action>, s: State, w: nat, d: Delivery)
    returns (acts: seq<Action>, t: State)
    requires Reaches(codec, origin, before, s)
    requires w < |s.workers| && s.workers[w] == Busy(d, Check, NO_PICTURE) && d.msg.id !in s.processed
    ensures acts == before + [Go(w)] && Reaches(codec, origin, acts, t)
    ensures t == s.(workers := s.workers[w := Busy(d, Start, NO_PICTURE)])
  {
    hide Process, Apply, Enabled, HistoryAfter;
    HistoryOf(s.h, s.workers[w], true);
    acts, t := Call(codec, origin, before, s, w, true);
  }

  /** It goes on as far as the download. */
  lemma HandleToDownload(codec: Codec, s: State, w: nat) returns (acts: seq<Action>, t: State)
    requires w < |s.workers| && s.workers[w].Idle? && s.queues.processing != []
    requires var d := s.queues.processing[0]; d.readable && d.msg.id !in s.processed && d.msg.user in s.rows
    ensures Reaches(codec, s, acts, t)
    ensures forall i :: 0 <= i < |acts| ==> ByWorker(acts[i]) && !acts[i].Crash?
    ensures var d := s.queues.processing[0];
      t == s.(rows := s.rows[d.msg.user := WithStatus(s.rows[d.msg.user], Processing, "")],
              queues := s.queues.(processing := s.queues.processing[1..]),
              workers := s.workers[w := Busy(d, Download, NO_PICTURE)])
  {
    hide Process, Apply, Enabled, HistoryAfter;
    acts, t := Receive(codec, s, w);
    HistoryOf(t.h, t.workers[w], true);
    acts, t := Call(codec, s, acts, t, w, true);
    assert t.workers == s.workers[w := Busy(s.queues.processing[0], Download, NO_PICTURE)];
  }

  /** It finds its source, and puts the original. */
  lemma FetchAndPut(codec: Codec, s: State, w: nat, d: Delivery, p: Picture) returns (acts: seq<Action>, t: State)
    requires w < |s.workers| && s.workers[w].Busy? && s.workers[w].d == d && s.workers[w].pc == Download
    requires d.msg.stagingKey in s.objects && Process(codec, s.objects[d.msg.stagingKey]) == Some(p)
    ensures Reaches(codec, s, acts, t) && forall i :: 0 <= i < |acts| ==> acts[i] == Go(w)
    ensures t == s.(objects := s.objects[Original(d.msg.user) := p.original],
                    workers := s.workers[w := Busy(d, PutThumb, p)],
                    h := s.h.(removed := s.h.removed - {Original(d.msg.user)}))
  {
    hide Process, Apply, ApplyWork;
    acts, t := FindsSource(codec, s, w, d, p);
    acts, t := PutsOriginal(codec, s, acts, t, w, d, p);
    assert t.workers == s.workers[w := Busy(d, PutThumb, p)];
  }

  lemma FindsSource(codec: Codec, s: State, w: nat, d: Delivery, p: Picture) returns (acts: seq<Action>, t: State)
    requires w < |s.workers| && s.workers[w].Busy? && s.workers[w].d == d && s.workers[w].pc == Download
    requires d.msg.stagingKey in s.objects && Process(codec, s.objects[d.msg.stagingKey]) == Some(p)
    ensures acts == [Go(w)] && Reaches(codec, s, acts, t)
    ensures t == s.(workers := s.workers[w := Busy(d, PutOriginal, p)])
  {
    hide Process, Apply, Enabled, HistoryAfter, NextWorker;
    HistoryOf(s.h, s.workers[w], true);
    GoesOnWith(codec, s, s.workers[w], p);
    acts, t := Call(codec, s, [], s, w, true);
  }

  lemma GoesOnWith(codec: Codec, s: State, x: Worker, p: Picture)
    requires x.Busy? && x.pc == Download
    requires x.d.msg.stagingKey in s.objects && Process(codec, s.objects[x.d.msg.stagingKey]) == Some(p)
    ensures NextWorker(codec, s, x, true) == Busy(x.d, PutOriginal, p)
  {
    hide Process;
  }

  lemma PutsOriginal(codec: Codec, origin: State, before: seq<Action>, s: State, w: nat, d: Delivery, p: Picture)
    returns (acts: seq<Action>, t: State)
    requires Reaches(codec, origin, before, s)
    requires w < |s.workers| && s.workers[w] == Busy(d, PutOriginal, p)
    ensures acts == before + [Go(w)] && Reaches(codec, origin, acts, t)
    ensures t == s.(objects := s.objects[Original(d.msg.user) := p.original],
                    workers := s.workers[w := Busy(d, PutThumb, p)],
                    h := s.h.(removed := s.h.removed - {Original(d.msg.user)}))
  {
    hide Process, Apply, Enabled, HistoryAfter;
    HistoryOf(s.h, s.workers[w], true);
    acts, t := Call(codec, origin, before, s, w, true);
  }

  /** Worker `w` takes the head of the queue as far as the original. */
  lemma HandleToOriginal(codec: Codec, s: State, w: nat, p: Picture) returns (acts: seq<Action>, t: State)
    requires w < |s.workers| && s.workers[w].Idle? && s.queues.processing != []
    requires var d := s.queues.processing[0];
      && d.readable && d.msg.id !in s.processed && d.msg.user in s.rows
      && d.msg.stagingKey in s.objects && Process(codec, s.objects[d.msg.stagingKey]) == Some(p)
    ensures Reaches(codec, s, acts, t)
    ensures var d := s.queues.processing[0];
      t == s.(rows := s.rows[d.msg.user := WithStatus(s.rows[d.msg.user], Processing, "")],
              objects := s.objects[Original(d.msg.user) := p.original],
              queues := s.queues.(processing := s.queues.processing[1..]),
              workers := s.workers[w := Busy(d, PutThumb, p)],
              h := s.h.(removed := s.h.removed - {Original(d.msg.user)}))
  {
    hide Process, Step, Apply;
    var d := s.queues.processing[0];
    var a1, t1 := HandleToDownload(codec, s, w);
    var a2: seq<Action>;
    a2, t := FetchAndPut(codec, t1, w, d, p);
    Join(codec, s, a1, t1, a2, t);
    acts := a1 + a2;
    assert t.workers == s.workers[w := Busy(d, PutThumb, p)];
  }

  /** The same worker goes on to mark-ready. */
  lemma HandleToReady(codec: Codec, s: State, w: nat, d: Delivery, p: Picture) returns (acts: seq<Action>, t: State)
    requires w < |s.workers| && s.workers[w] == Busy(d, PutThumb, p) && d.msg.user in s.rows
    ensures Reaches(codec, s, acts, t) && forall i :: 0 <= i < |acts| ==> acts[i] == Go(w)
    ensures var u := d.msg.user;
      t == s.(rows := s.rows[u := Finished(s.rows[u], Original(u), Thumb(u), p.info)],
              objects := s.objects[Thumb(u) := p.thumb],
              workers := s.workers[w := Busy(d, Cleanup, p)],
              h := s.h.(readied := s.h.readied + {d.msg.id}, shown := s.h.shown[u := d.msg.id],
                          removed := s.h.removed - {Thumb(u)}))
  {
    hide Apply, ApplyWork;
    acts, t := PutsThumb(codec, s, w, d, p);
    acts, t := MarksRowReady(codec, s, acts, t, w, d, p);
    assert t.workers == s.workers[w := Busy(d, Cleanup, p)];
  }

  lemma PutsThumb(codec: Codec, s: State, w: nat, d: Delivery, p: Picture) returns (acts: seq<Action>, t: State)
    requires w < |s.workers| && s.workers[w] == Busy(d, PutThumb, p)
    ensures acts == [Go(w)] && Reaches(codec, s, acts, t)
    ensures t == s.(objects := s.objects[Thumb(d.msg.user) := p.thumb],
                    workers := s.workers[w := Busy(d, MarkReady, p)],
                    h := s.h.(removed := s.h.removed - {Thumb(d.msg.user)}))
  {
    hide Process, Apply, Enabled, HistoryAfter;
    HistoryOf(s.h, s.workers[w], true);
    acts, t := Call(codec, s, [], s, w, true);
  }

  lemma MarksRowReady(codec: Codec, origin: State, before: seq<Action>, s: State, w: nat, d: Delivery, p: Picture)
    returns (acts: seq<Action>, t: State)
    requires Reaches(codec, origin, before, s)
    requires w < |s.workers| && s.workers[w] == Busy(d, MarkReady, p) && d.msg.user in s.rows
    ensures acts == before + [Go(w)] && Reaches(codec, origin, acts, t)
    ensures var u := d.msg.user;
      t == s.(rows := s.rows[u := Finished(s.rows[u], Original(u), Thumb(u), p.info)],
              workers := s.workers[w := Busy(d, Cleanup, p)],
              h := s.h.(readied := s.h.readied + {d.msg.id}, shown := s.h.shown[u := d.msg.id]))
  {
    hide Process, Apply, Enabled, HistoryAfter;
    HistoryOf(s.h, s.workers[w], true);
    acts, t := Call(codec, origin, before, s, w, true);
  }

  // ---- a codec to run with ----

  /** Every byte string is a one-pixel picture that encodes to itself. */
  ghost function Toy(): Codec {
    Codec(_ => Some(Decoded("image/png", Size(1, 1))), (data, _) => Some(data))
  }

  lemma ToyPicture(b: Bytes)
    requires b != []
    ensures Process(Toy(), b) == Some(Picture(b, b, Info("image/png", |b|, Size(1, 1))))
  {
  }

  const ANN := "ann"

  /** With one worker: the run of one upload to the point where its row is ready. */
  lemma ReadyRun() returns (acts: seq<Action>, t: State)
    ensures Reaches(Toy(), Init(1), acts, t)
    ensures var m := MessageFor(ANN, "m1");
      && ANN in t.rows && t.rows[ANN].status == Ready && IsWhole(t)
      && t.workers == [Busy(FirstCopy(m, 0), Cleanup, Picture([1], [1], Info("image/png", 1, Size(1, 1))))]
      && t.queues == Queues([], [], [], []) && t.requests == map[] && t.processed == {} && t.now == 0
      && t.rows[ANN].stagingKey == NoKey && t.rows[ANN].originalKey == Original(ANN)
      && t.rows[ANN].thumbKey == Thumb(ANN)
      && t.h.removed == {}
  {
    hide Process, Apply, Run;
    ToyPicture([1]);
    var a1, s1 := Upload(Toy(), Init(1), ANN, "m1", [1]);
    var a2, s2 := HandleToOriginal(Toy(), s1, 0, Picture([1], [1], Info("image/png", 1, Size(1, 1))));
    var a3: seq<Action>;
    a3, t := HandleToReady(Toy(), s2, 0, FirstCopy(MessageFor(ANN, "m1"), 0), ToyPictureOf([1]));
    Join(Toy(), Init(1), a1, s1, a2, s2);
    Join(Toy(), Init(1), a1 + a2, s2, a3, t);
    acts := a1 + a2 + a3;
  }

  /** Both result objects of ann are there. */
  predicate IsWhole(s: State) {
    Original(ANN) in s.objects && Thumb(ANN) in s.objects && s.objects[Original(ANN)] == s.objects[Thumb(ANN)] == [1]
  }

  /**
   A ready avatar can turn failed without any upload or delete: a failed mark brings the
   message back after its source was cleaned up. The two objects stay as they were.
   */
  lemma {:induction false} ReadyCanTurnFailed() returns (acts: seq<Action>, more: seq<Action>)
    ensures var s, t := Run(Toy(), Init(1), acts), Run(Toy(), Init(1), acts + more);
      && ANN in s.rows && s.rows[ANN].status == Ready && IsWhole(s)
      && ANN in t.rows && t.rows[ANN].status == Failed && IsWhole(t)
    ensures forall i :: 0 <= i < |more| ==> ByWorker(more[i]) && !more[i].Crash?
  {
    hide Process;
    var s: State;
    acts, s := ReadyRun();
    var lost, u := LoseTheMark(s);
    var again, v := HandleAgain(u);
    Join(Toy(), s, lost, u, again, v);
    more := lost + again;
    Join(Toy(), Init(1), acts, s, more, v);
  }

  lemma LoseTheMark(s: State) returns (acts: seq<Action>, t: State)
    requires |s.workers| == 1 && s.workers[0].Busy? && s.workers[0].pc == Cleanup && s.queues.processing == []
    ensures Reaches(Toy(), s, acts, t)
    ensures forall i :: 0 <= i < |acts| ==> ByWorker(acts[i]) && !acts[i].Crash?
    ensures t.rows == s.rows && t.objects == s.objects - {s.workers[0].d.msg.stagingKey}
    ensures t.queues == s.queues.(processing := [s.workers[0].d]) && t.workers == [Idle]
    ensures t.processed == s.processed
  {
    hide Run, Apply;
    var Busy(d, pc, p) := s.workers[0];
    var h: History;
    assert s.workers == [Busy(d, Cleanup, p)];
    acts, t, h := CleanUp(Toy(), s, d, p);
    acts, t := MarkFails(s, acts, t, d, p);
    acts, t := Requeued(s, acts, t, d, p);
  }

  lemma MarkFails(origin: State, before: seq<Action>, s: State, d: Delivery, p: Picture)
    returns (acts: seq<Action>, t: State)
    requires Reaches(Toy(), origin, before, s) && s.workers == [Busy(d, Mark, p)]
    ensures acts == before + [Work(0, false, 0, "-")] && Reaches(Toy(), origin, acts, t)
    ensures t == s.(workers := [Busy(d, Requeue, p)], h := t.h)
  {
    hide Process, Apply, Enabled, HistoryAfter;
    acts, t := Call(Toy(), origin, before, s, 0, false);
    assert t.workers == [Busy(d, Requeue, p)];
  }

  lemma Requeued(origin: State, before: seq<Action>, s: State, d: Delivery, p: Picture)
    returns (acts: seq<Action>, t: State)
    requires Reaches(Toy(), origin, before, s) && s.workers == [Busy(d, Requeue, p)] && s.queues.processing == []
    ensures acts == before + [Go(0)] && Reaches(Toy(), origin, acts, t)
    ensures t.rows == s.rows && t.objects == s.objects && t.processed == s.processed
    ensures t.queues == s.queues.(processing := [d]) && t.workers == [Idle]
  {
    hide Process, Apply, Enabled, HistoryAfter;
    acts, t := Call(Toy(), origin, before, s, 0, true);
    assert t.queues.processing == [d] && t.workers == [Idle];
  }

  lemma HandleAgain(s: State) returns (acts: seq<Action>, t: State)
    requires s.workers == [Idle] && |s.queues.processing| == 1
    requires var d := s.queues.processing[0];
      d.readable && d.msg.id !in s.processed && d.msg.user in s.rows && d.msg.stagingKey !in s.objects
    ensures Reaches(Toy(), s, acts, t)
    ensures forall i :: 0 <= i < |acts| ==> ByWorker(acts[i]) && !acts[i].Crash?
    ensures var u := s.queues.processing[0].msg.user;
      t.objects == s.objects && u in t.rows && t.rows[u].status == Failed
  {
    hide Process, Apply, Enabled, HistoryAfter;
    var d := s.queues.processing[0];
    acts, t := HandleToDownload(Toy(), s, 0);
    acts, t := Call(Toy(), s, acts, t, 0, true);
    assert t.workers == [Busy(d, FailRow, NO_PICTURE)] && t.objects == s.objects && d.msg.user in t.rows;
    acts, t := Call(Toy(), s, acts, t, 0, true);
  }

  /** The state of a row after a handler run that was not interrupted. */
  function StatusAfter(worked: bool, put: bool, noted: bool): Status {
    if worked then Ready else if put || !noted then Processing else Failed
  }

  /**
   What one uninterrupted handler run, of a first or repeated delivery, does to its row, for
   every outcome of its calls. Of the five calls (status, download, original, thumbnail,
   mark-ready) number `failing` is the first to fail, or none if it is five or more; `noted`
   says whether the failure could be written to the row. Provided the first call works, the row
   ends ready exactly if all the others do and the source is still there and a picture.
   */
  lemma {:induction false} HandlerOutcome(codec: Codec, s: State, w: nat, failing: nat, noted: bool)
    returns (acts: seq<Action>)
    requires w < |s.workers| && s.workers[w].Busy? && s.workers[w].pc == Start && s.workers[w].d.msg.user in s.rows
    ensures forall i :: 0 <= i < |acts| ==> acts[i].Work? && acts[i].w == w
    ensures var m, t := s.workers[w].d.msg, Run(codec, s, acts);
      var source := SourceProcesses(codec, s, m);
      && |t.workers| == |s.workers| && t.workers[w].Busy? && m.user in t.rows
      && t.workers[w].pc == (if failing >= 5 && source then Cleanup else Retry)
      && t.rows[m.user].status ==
        if failing == 0 then s.rows[m.user].status
        else StatusAfter(failing >= 5 && source, failing >= 4 && source, noted)
  {
    hide Process, Apply, Enabled, ApplyWork;
    var t: State;
    acts, t := TryStatus(codec, s, w, failing > 0);
    if failing > 0 {
      acts, t := AfterFirstCall(codec, s, acts, t, w, failing, noted);
    }
  }

  lemma FirstCall(codec: Codec, s: State, x: Worker, ok: bool)
    requires x.Busy? && x.pc == Start && x.d.msg.user in s.rows
    ensures NextWorker(codec, s, x, ok) == x.(pc := if ok then Download else Retry)
    ensures var u := x.d.msg.user;
      RowsAfter(s.rows, x, ok, "-") == if ok then s.rows[u := WithStatus(s.rows[u], Processing, "")] else s.rows
  {
    hide Process;
  }

  lemma TryStatus(codec: Codec, s: State, w: nat, ok: bool) returns (acts: seq<Action>, t: State)
    requires w < |s.workers| && s.workers[w].Busy? && s.workers[w].pc == Start && s.workers[w].d.msg.user in s.rows
    ensures acts == [Work(w, ok, 0, "-")] && Reaches(codec, s, acts, t)
    ensures var x, u := s.workers[w], s.workers[w].d.msg.user;
      && t.objects == s.objects
      && t.rows == (if ok then s.rows[u := WithStatus(s.rows[u], Processing, "")] else s.rows)
      && t.workers == s.workers[w := x.(pc := if ok then Download else Retry)]
  {
    hide Process, Apply, Enabled, HistoryAfter, QueuesAfter, ProcessedAfter, NextWorker, RowsAfter;
    FirstCall(codec, s, s.workers[w], ok);
    acts, t := Call(codec, s, [], s, w, ok);
  }

  lemma AfterFirstCall(codec: Codec, origin: State, before: seq<Action>, s: State, w: nat, failing: nat, noted: bool)
    returns (acts: seq<Action>, t: State)
    requires Reaches(codec, origin, before, s) && failing > 0
    requires w < |s.workers| && s.workers[w].Busy? && s.workers[w].pc == Download && s.workers[w].d.msg.user in s.rows
    requires s.rows[s.workers[w].d.msg.user].status == Processing
    requires forall i :: 0 <= i < |before| ==> before[i].Work? && before[i].w == w
    ensures Reaches(codec, origin, acts, t)
    ensures forall i :: 0 <= i < |acts| ==> acts[i].Work? && acts[i].w == w
    ensures var m := s.workers[w].d.msg;
      var source := SourceProcesses(codec, s, m);
      && |t.workers| == |s.workers| && t.workers[w].Busy? && m.user in t.rows
      && t.workers[w].pc == (if failing >= 5 && source then Cleanup else Retry)
      && t.rows[m.user].status == StatusAfter(failing >= 5 && source, failing >= 4 && source, noted)
  {
    hide Process;
    var x, m := s.workers[w], s.workers[w].d.msg;
    hide Apply, Step;
    if failing <= 2 || !SourceProcesses(codec, s, m) {
      acts, t := FailsEarly(codec, origin, before, s, w, failing);
      acts, t := NoteFailure(codec, origin, acts, t, w, noted);
    } else {
      var p := Process(codec, s.objects[m.stagingKey]).value;
      var a, u := FetchAndPut(codec, s, w, x.d, p);
      Join(codec, origin, before, s, a, u);
      acts, t := AfterOriginal(codec, origin, before + a, u, w, p, failing, noted);
    }
  }

  /** The download fails or yields no picture, or the first upload fails. */
  lemma FailsEarly(codec: Codec, origin: State, before: seq<Action>, s: State, w: nat, failing: nat)
    returns (acts: seq<Action>, t: State)
    requires Reaches(codec, origin, before, s) && failing > 0
    requires w < |s.workers| && s.workers[w].Busy? && s.workers[w].pc == Download
    requires failing <= 2 || !SourceProcesses(codec, s, s.workers[w].d.msg)
    requires forall i :: 0 <= i < |before| ==> before[i].Work? && before[i].w == w
    ensures Reaches(codec, origin, acts, t)
    ensures forall i :: 0 <= i < |acts| ==> acts[i].Work? && acts[i].w == w
    ensures t.rows == s.rows && |t.workers| == |s.workers|
    ensures t.workers[w].Busy? && t.workers[w].d == s.workers[w].d && t.workers[w].pc == FailRow
  {
    hide Process, Apply, ApplyWork, SourceProcesses;
    acts, t := TryDownload(codec, origin, before, s, w, failing > 1);
    if t.workers[w].pc == PutOriginal {
      acts, t := OriginalFails(codec, origin, acts, t, w);
    }
  }

  /** The download leads on if and only if it works and yields a picture. */
  lemma TryDownload(codec: Codec, origin: State, before: seq<Action>, s: State, w: nat, ok: bool)
    returns (acts: seq<Action>, t: State)
    requires Reaches(codec, origin, before, s)
    requires w < |s.workers| && s.workers[w].Busy? && s.workers[w].pc == Download
    ensures acts == before + [Work(w, ok, 0, "-")] && Reaches(codec, origin, acts, t)
    ensures t.rows == s.rows && |t.workers| == |s.workers| && t.workers[w].Busy? && t.workers[w].d == s.workers[w].d
    ensures t.workers[w].pc == if ok && SourceProcesses(codec, s, s.workers[w].d.msg) then PutOriginal else FailRow
  {
    hide Process, Apply, Enabled, QueuesAfter, ObjectsAfter, HistoryAfter;
    acts, t := Call(codec, origin, before, s, w, ok);
  }

  lemma OriginalFails(codec: Codec, origin: State, before: seq<Action>, s: State, w: nat)
    returns (acts: seq<Action>, t: State)
    requires Reaches(codec, origin, before, s)
    requires w < |s.workers| && s.workers[w].Busy? && s.workers[w].pc == PutOriginal
    ensures acts == before + [Work(w, false, 0, "-")] && Reaches(codec, origin, acts, t)
    ensures t.rows == s.rows && t.workers == s.workers[w := s.workers[w].(pc := FailRow)]
  {
    hide Process, Apply, Enabled, QueuesAfter, ObjectsAfter, HistoryAfter;
    acts, t := Call(codec, origin, before, s, w, false);
  }

  lemma AfterOriginal(codec: Codec, origin: State, before: seq<Action>, s: State, w: nat, p: Picture, failing: nat,
                      noted: bool)
    returns (acts: seq<Action>, t: State)
    requires Reaches(codec, origin, before, s) && failing > 2
    requires w < |s.workers| && s.workers[w].Busy? && s.workers[w] == Busy(s.workers[w].d, PutThumb, p)
    requires s.workers[w].d.msg.user in s.rows && s.rows[s.workers[w].d.msg.user].status == Processing
    requires forall i :: 0 <= i < |before| ==> before[i].Work? && before[i].w == w
    ensures Reaches(codec, origin, acts, t)
    ensures forall i :: 0 <= i < |acts| ==> acts[i].Work? && acts[i].w == w
    ensures var m := s.workers[w].d.msg;
      && |t.workers| == |s.workers| && t.workers[w].Busy? && m.user in t.rows
      && t.workers[w].pc == (if failing >= 5 then Cleanup else Retry)
      && t.rows[m.user].status == StatusAfter(failing >= 5, failing >= 4, noted)
  {
    hide Process, Apply, Enabled, ApplyWork;
    if failing == 3 {
      acts, t := ThumbFails(codec, origin, before, s, w);
      acts, t := NoteFailure(codec, origin, acts, t, w, noted);
    } else if failing == 4 {
      acts, t := ThumbThenNotReady(codec, origin, before, s, w);
    } else {
      acts, t := HandleToReady(codec, s, w, s.workers[w].d, p);
      Join(codec, origin, before, s, acts, t);
      acts := before + acts;
    }
  }

  lemma ThumbFails(codec: Codec, origin: State, before: seq<Action>, s: State, w: nat)
    returns (acts: seq<Action>, t: State)
    requires Reaches(codec, origin, before, s)
    requires w < |s.workers| && s.workers[w].Busy? && s.workers[w].pc == PutThumb
    ensures acts == before + [Work(w, false, 0, "-")] && Reaches(codec, origin, acts, t)
    ensures t.rows == s.rows && t.workers == s.workers[w := s.workers[w].(pc := FailRow)]
  {
    hide Process, Apply, Enabled, QueuesAfter, ObjectsAfter, HistoryAfter;
    acts, t := Call(codec, origin, before, s, w, false);
  }

  /** The thumbnail is put, and mark-ready fails. */
  lemma ThumbThenNotReady(codec: Codec, origin: State, before: seq<Action>, s: State, w: nat)
    returns (acts: seq<Action>, t: State)
    requires Reaches(codec, origin, before, s)
    requires w < |s.workers| && s.workers[w].Busy? && s.workers[w].pc == PutThumb
    ensures acts == before + [Go(w), Work(w, false, 0, "-")] && Reaches(codec, origin, acts, t)
    ensures t.rows == s.rows && t.workers == s.workers[w := s.workers[w].(pc := Retry)]
  {
    hide Process, Apply, Enabled, QueuesAfter, ObjectsAfter, HistoryAfter;
    acts, t := Call(codec, origin, before, s, w, true);
    assert t.rows == s.rows && t.workers == s.workers[w := s.workers[w].(pc := MarkReady)];
    acts, t := Call(codec, origin, acts, t, w, false);
  }

  /** The failure exit: the row is marked failed, if that call works. */
  lemma NoteFailure(codec: Codec, origin: State, before: seq<Action>, s: State, w: nat, noted: bool)
    returns (acts: seq<Action>, t: State)
    requires Reaches(codec, origin, before, s)
    requires w < |s.workers| && s.workers[w].Busy? && s.workers[w].pc == FailRow && s.workers[w].d.msg.user in s.rows
    ensures acts == before + [Work(w, noted, 0, "-")] && Reaches(codec, origin, acts, t)
    ensures t.workers == s.workers[w := s.workers[w].(pc := Retry)]
    ensures var u := s.workers[w].d.msg.user;
      t.rows == if noted then s.rows[u := WithStatus(s.rows[u], Failed, "-")] else s.rows
  {
    hide Process, Apply, Enabled, HistoryAfter;
    acts, t := Call(codec, origin, before, s, w, noted);
  }

  function ToyPictureOf(b: Bytes): Picture {
    Picture(b, b, Info("image/png", |b|, Size(1, 1)))
  }

  /**
   With two workers or more the avatar can tear: two uploads of one user, handled side by side,
   leave a ready row whose original is of the one and whose thumbnail is of the other. No
   failure, no crash and no DELETE is involved.
   */
  lemma {:induction false} TwoWorkersCanTear(workers: nat) returns (acts: seq<Action>)
    requires workers >= 2
    ensures var s := Run(Toy(), Init(workers), acts);
      && ANN in s.rows && s.rows[ANN].status == Ready && s.h.removed == {}
      && s.rows[ANN].originalKey in s.objects && s.rows[ANN].thumbKey in s.objects
      && forall id :: !Shows(Toy(), s, ANN, id)
  {
    var p1, p2 := ToyPictureOf([1]), ToyPictureOf([2]);
    ToyPicture([1]);
    ToyPicture([2]);
    IdsDiffer();
    hide Process, Apply, Run, Toy;
    var a, s := BothUnderWay(workers);
    var b, t := HandleToReady(Toy(), s, 1, s.workers[1].d, p2);
    Join(Toy(), Init(workers), a, s, b, t);
    var c, u := HandleToReady(Toy(), t, 0, t.workers[0].d, p1);
    Join(Toy(), Init(workers), a + b, t, c, u);
    acts := a + b + c;
    assert u.h.sources == map["m1" := Source(ANN, [1]), "m2" := Source(ANN, [2])];
    assert u.objects[Original(ANN)] == [2] && u.objects[Thumb(ANN)] == [1];
  }

  /** The first two workers have put their originals, the second one last. */
  lemma BothUnderWay(workers: nat) returns (acts: seq<Action>, t: State)
    requires workers >= 2
    ensures Reaches(Toy(), Init(workers), acts, t)
    ensures var one, two := FirstCopy(MessageFor(ANN, "m1"), 0), FirstCopy(MessageFor(ANN, "m2"), 0);
      && |t.workers| == workers
      && t.workers[0] == Busy(one, PutThumb, ToyPictureOf([1]))
      && t.workers[1] == Busy(two, PutThumb, ToyPictureOf([2]))
    ensures ANN in t.rows && Original(ANN) in t.objects && t.objects[Original(ANN)] == [2]
    ensures t.h.sources == map["m1" := Source(ANN, [1]), "m2" := Source(ANN, [2])] && t.h.removed == {}
  {
    var one, two := FirstCopy(MessageFor(ANN, "m1"), 0), FirstCopy(MessageFor(ANN, "m2"), 0);
    ToyPicture([1]);
    ToyPicture([2]);
    IdsDiffer();
    hide Process, Apply, Run, Toy;
    var a, s := Upload(Toy(), Init(workers), ANN, "m1", [1]);
    var b, u := Upload(Toy(), s, ANN, "m2", [2]);
    Join(Toy(), Init(workers), a, s, b, u);
    assert u.queues.processing == [one, two];
    var c, v := HandleToOriginal(Toy(), u, 0, ToyPictureOf([1]));
    Join(Toy(), Init(workers), a + b, u, c, v);
    assert v.queues.processing == [two];
    var d: seq<Action>;
    d, t := HandleToOriginal(Toy(), v, 1, ToyPictureOf([2]));
    Join(Toy(), Init(workers), a + b + c, v, d, t);
    acts := a + b + c + d;
  }

  /** Without workers no row gets ready. */
  lemma {:induction false} NoWorkerNothingReady(codec: Codec, acts: seq<Action>)
    ensures var s := Run(codec, Init(0), acts);
      s.workers == [] && forall u :: u in s.rows ==> s.rows[u].status != Ready
  {
    if acts != [] {
      hide Apply;
      NoWorkerNothingReady(codec, acts[..|acts| - 1]);
      NoWorkerNoneReady(codec, Run(codec, Init(0), acts[..|acts| - 1]), acts[|acts| - 1]);
    }
  }

  lemma NoWorkerNoneReady(codec: Codec, s: State, a: Action)
    requires s.workers == [] && forall u :: u in s.rows ==> s.rows[u].status != Ready
    ensures var t := Apply(codec, s, a);
      t.workers == [] && forall u :: u in t.rows ==> t.rows[u].status != Ready
  {
    hide ApplyWork, ApplyCrash, ApplyDeliver, Push, NonEmpty;
    if ByBroker(a) {
      BrokerKeepsStores(codec, s, a);
      hide Step;
    }
  }

  /**
   Exactly: whatever the pictures, no run of the service tears an avatar, if and only if it has
   at most one worker.
   */
  lemma {:induction false} UntornIffOneWorker(workers: nat)
    ensures (forall codec, acts :: Untorn(codec, Run(codec, Init(workers), acts))) <==> workers <= 1
  {
    if workers >= 2 {
      var acts := TwoWorkersCanTear(workers);
      assert !Untorn(Toy(), Run(Toy(), Init(workers), acts));
    } else {
      hide Run, Shows;
      forall codec, acts ensures Untorn(codec, Run(codec, Init(workers), acts)) {
        if workers == 0 {
          NoWorkerNothingReady(codec, acts);
        } else {
          OneWorkerNeverTears(codec, acts);
        }
      }
    }
  }

  lemma {:induction false} OneWorkerNeverTears(codec: Codec, acts: seq<Action>)
    ensures Untorn(codec, Run(codec, Init(1), acts))
  {
    hide Run, Shows;
    var s := Run(codec, Init(1), acts);
    forall u | u in s.rows && s.rows[u].status == Ready ensures exists id :: Shows(codec, s, u, id) {
      ReadyAvatarsAreWhole(codec, acts, u);
    }
  }

  lemma IdsDiffer()
    ensures "m1" != "m2" && SlashFree("m1") && SlashFree("m2") && ANN != ""
  {
    assert "m1"[1] != "m2"[1];
  }

  /**
   A DELETE that stops half-way leaves a ready row without its original: that is the missing
   object that `ReadyAvatarsAreWhole` allows for.
   */
  lemma {:induction false} HalfDeleteLeavesHalfAnAvatar() returns (acts: seq<Action>)
    ensures var s := Run(Toy(), Init(1), acts);
      && ANN in s.rows && s.rows[ANN].status == Ready && s.h.removed == {Original(ANN)}
      && s.rows[ANN].originalKey !in s.objects && s.rows[ANN].thumbKey in s.objects && s.requests == map[]
  {
    hide Process;
    var s: State;
    acts, s := ReadyRun();
    var row := s.rows[ANN];
    var more, t := Then(Toy(), s, [], s, ReadForDelete(1, ANN));
    NonEmptyOfFinished();
    assert t.requests[1] == Deleting(ANN, [Original(ANN), Thumb(ANN)]);
    more, t := Then(Toy(), s, more, t, RemoveObject(1, true));
    more, t := Then(Toy(), s, more, t, RemoveObject(1, false));
    Join(Toy(), Init(1), acts, s, more, t);
    acts := acts + more;
  }

  lemma NonEmptyOfFinished()
    ensures NonEmpty([NoKey, Original(ANN), Thumb(ANN)]) == [Original(ANN), Thumb(ANN)]
  {
    var none: seq<Key> := [];
    assert [Thumb(ANN)][1..] == none;
    assert NonEmpty([Thumb(ANN)]) == [Thumb(ANN)] + NonEmpty(none);
    assert [Original(ANN), Thumb(ANN)][1..] == [Thumb(ANN)];
    assert NonEmpty([Original(ANN), Thumb(ANN)]) == [Original(ANN)] + NonEmpty([Thumb(ANN)]);
    assert [NoKey, Original(ANN), Thumb(ANN)][1..] == [Original(ANN), Thumb(ANN)];
  }

  /** The download fails once, and the message goes to the first rung of the ladder. */
  lemma FailOnce(codec: Codec, s: State, d: Delivery) returns (acts: seq<Action>, t: State)
    requires s.workers == [Busy(d, Download, NO_PICTURE)] && d.header == None && d.msg.user in s.rows
    ensures Reaches(codec, s, acts, t)
    ensures t == s.(rows := s.rows[d.msg.user := WithStatus(s.rows[d.msg.user], Failed, "-")],
                    queues := s.queues.(retry30s := s.queues.retry30s + [RetryCopy(d, s.now)]),
                    workers := [Idle])
  {
    hide Apply, ApplyWork, RetryCopy;
    acts, t := DownloadFails(codec, s, d);
    acts, t := FailsRow(codec, s, acts, t, d);
    acts, t := Republish(codec, s, acts, t, d);
  }

  lemma DownloadFails(codec: Codec, s: State, d: Delivery) returns (acts: seq<Action>, t: State)
    requires s.workers == [Busy(d, Download, NO_PICTURE)]
    ensures acts == [Work(0, false, 0, "-")] && Reaches(codec, s, acts, t)
    ensures t == s.(workers := [Busy(d, FailRow, NO_PICTURE)])
  {
    hide Process, Apply, Enabled, HistoryAfter;
    HistoryOf(s.h, s.workers[0], false);
    acts, t := Call(codec, s, [], s, 0, false);
    assert t.workers == [Busy(d, FailRow, NO_PICTURE)];
  }

  lemma FailsRow(codec: Codec, origin: State, before: seq<Action>, s: State, d: Delivery)
    returns (acts: seq<Action>, t: State)
    requires Reaches(codec, origin, before, s)
    requires s.workers == [Busy(d, FailRow, NO_PICTURE)] && d.msg.user in s.rows
    ensures acts == before + [Go(0)] && Reaches(codec, origin, acts, t)
    ensures t == s.(rows := s.rows[d.msg.user := WithStatus(s.rows[d.msg.user], Failed, "-")],
                    workers := [Busy(d, Retry, NO_PICTURE)])
  {
    hide Process, Apply, Enabled, HistoryAfter;
    HistoryOf(s.h, s.workers[0], true);
    acts, t := Call(codec, origin, before, s, 0, true);
    assert t.workers == [Busy(d, Retry, NO_PICTURE)];
  }

  lemma Republish(codec: Codec, origin: State, before: seq<Action>, s: State, d: Delivery)
    returns (acts: seq<Action>, t: State)
    requires Reaches(codec, origin, before, s) && s.workers == [Busy(d, Retry, NO_PICTURE)] && d.header == None
    ensures Reaches(codec, origin, acts, t)
    ensures t == s.(queues := s.queues.(retry30s := s.queues.retry30s + [RetryCopy(d, s.now)]), workers := [Idle])
  {
    hide Process, Apply, Enabled, HistoryAfter, RetryCopy;
    acts, t := Sent(codec, origin, before, s, d);
    HistoryOf(t.h, t.workers[0], true);
    acts, t := Call(codec, origin, acts, t, 0, true);
    assert t.workers == [Idle];
  }

  lemma Sent(codec: Codec, origin: State, before: seq<Action>, s: State, d: Delivery)
    returns (acts: seq<Action>, t: State)
    requires Reaches(codec, origin, before, s) && s.workers == [Busy(d, Retry, NO_PICTURE)] && d.header == None
    ensures acts == before + [Go(0)] && Reaches(codec, origin, acts, t)
    ensures t ==
      s.(queues := s.queues.(retry30s := s.queues.retry30s + [RetryCopy(d, s.now)]),
        workers := [Busy(d, AckRetried, NO_PICTURE)])
  {
    hide Process, Apply, Enabled, HistoryAfter, RetryCopy;
    HistoryOf(s.h, s.workers[0], true);
    acts, t := Call(codec, origin, before, s, 0, true);
    assert t.workers == [Busy(d, AckRetried, NO_PICTURE)];
  }

  /** After mark-ready: clean up, mark, ack. */
  lemma FinishDelivery(codec: Codec, s: State, d: Delivery, p: Picture) returns (acts: seq<Action>, t: State)
    requires s.workers == [Busy(d, Cleanup, p)]
    ensures Reaches(codec, s, acts, t)
    ensures t.rows == s.rows && t.objects == s.objects - {d.msg.stagingKey} && t.queues == s.queues
    ensures t.workers == [Idle]
    ensures t.processed == s.processed + {d.msg.id} && t.now == s.now && t.requests == s.requests
    ensures t.h.sources == s.h.sources && t.h.published == s.h.published && t.h.shown == s.h.shown
  {
    hide Run, Apply;
    var h: History;
    acts, t, h := CleanUp(codec, s, d, p);
    acts, t := MarkAndAck(codec, s, acts, t, d, p);
  }

  lemma CleanUp(codec: Codec, s: State, d: Delivery, p: Picture) returns (acts: seq<Action>, t: State, h: History)
    requires s.workers == [Busy(d, Cleanup, p)]
    ensures acts == [Go(0)] && Reaches(codec, s, acts, t)
    ensures h == s.h.(successes := s.h.successes + multiset{d.msg.id})
    ensures t == s.(objects := s.objects - {d.msg.stagingKey}, workers := [Busy(d, Mark, p)], h := h)
  {
    hide Process, Apply, Enabled, HistoryAfter;
    HistoryOf(s.h, s.workers[0], true);
    acts, t := Call(codec, s, [], s, 0, true);
    assert t.workers == [Busy(d, Mark, p)];
    h := t.h;
  }

  lemma MarkAndAck(codec: Codec, origin: State, before: seq<Action>, s: State, d: Delivery, p: Picture)
    returns (acts: seq<Action>, t: State)
    requires Reaches(codec, origin, before, s) && s.workers == [Busy(d, Mark, p)]
    ensures Reaches(codec, origin, acts, t)
    ensures t == s.(processed := s.processed + {d.msg.id}, workers := [Idle], h := t.h)
    ensures t.h.sources == s.h.sources && t.h.published == s.h.published && t.h.shown == s.h.shown
  {
    hide Process, Apply, ApplyWork;
    acts, t := Marks(codec, origin, before, s, d, p);
    acts, t := Acks(codec, origin, acts, t, d, p);
  }

  lemma Marks(codec: Codec, origin: State, before: seq<Action>, s: State, d: Delivery, p: Picture)
    returns (acts: seq<Action>, t: State)
    requires Reaches(codec, origin, before, s) && s.workers == [Busy(d, Mark, p)]
    ensures acts == before + [Go(0)] && Reaches(codec, origin, acts, t)
    ensures t == s.(processed := s.processed + {d.msg.id}, workers := [Busy(d, AckDone, p)], h := t.h)
    ensures t.h.sources == s.h.sources && t.h.published == s.h.published && t.h.shown == s.h.shown
  {
    hide Process, Apply, Enabled, HistoryAfter;
    HistoryOf(s.h, s.workers[0], true);
    acts, t := Call(codec, origin, before, s, 0, true);
    assert t.workers == [Busy(d, AckDone, p)];
  }

  lemma Acks(codec: Codec, origin: State, before: seq<Action>, s: State, d: Delivery, p: Picture)
    returns (acts: seq<Action>, t: State)
    requires Reaches(codec, origin, before, s) && s.workers == [Busy(d, AckDone, p)]
    ensures acts == before + [Go(0)] && Reaches(codec, origin, acts, t)
    ensures t == s.(workers := [Idle], h := t.h)
    ensures t.h.sources == s.h.sources && t.h.published == s.h.published && t.h.shown == s.h.shown
  {
    hide Process, Apply, Enabled, HistoryAfter;
    HistoryOf(s.h, s.workers[0], true);
    acts, t := Call(codec, origin, before, s, 0, true);
    assert t.workers == [Idle];
  }

  /** The 30 s pass, and the retried copy comes back. */
  lemma ComeBack(codec: Codec, s: State, c: Delivery) returns (acts: seq<Action>, t: State)
    requires s.queues.retry30s == [c] && c.at == s.now && s.queues.processing == []
    ensures Reaches(codec, s, acts, t)
    ensures t ==
      s.(now := s.now + 30_000, queues := s.queues.(retry30s := [], processing := [c.(at := s.now + 30_000)]))
  {
    hide Apply;
    NoActions(codec, s);
    acts, t := Then(codec, s, [], s, Tick(30_000));
    OnlyTime(codec, s, 30_000);
    OnlyExpires(codec, t, T.Retry30s);
    acts, t := Then(codec, s, acts, t, Expire(T.Retry30s));
    assert [c][1..] == [];
    assert t.queues.processing == [c.(at := s.now + 30_000)];
  }

  /**
   The newest upload does not always win: if the first download of the older message fails, its
   retry comes after the newer message, and the ready avatar is the older picture.
   */
  lemma {:induction false} RetryCanShowTheOlderPicture() returns (acts: seq<Action>)
    ensures var s := Run(Toy(), Init(1), acts);
      && ANN in s.rows && s.rows[ANN].status == Ready
      && s.h.published == [MessageFor(ANN, "m1"), MessageFor(ANN, "m2")]
      && s.rows[ANN].messageId == "m2" && ANN in s.h.shown && s.h.shown[ANN] == "m1"
      && s.rows[ANN].originalKey in s.objects && s.rows[ANN].thumbKey in s.objects
      && s.objects[s.rows[ANN].originalKey] == s.objects[s.rows[ANN].thumbKey] == [1]
  {
    var one, two := FirstCopy(MessageFor(ANN, "m1"), 0), FirstCopy(MessageFor(ANN, "m2"), 0);
    var again := RetryCopy(one, 0);
    var p1, p2 := ToyPictureOf([1]), ToyPictureOf([2]);
    ToyPicture([1]);
    ToyPicture([2]);
    assert Process(Toy(), [1]) == Some(p1) && Process(Toy(), [2]) == Some(p2);
    IdsDiffer();
    hide Process, Apply, Run, Toy, RetryCopy;
    var a, s := UploadAndFail(one);
    assert s.queues.retry30s == [again];
    var b, t := UploadAndShow(s, two, p2);
    Join(Toy(), Init(1), a, s, b, t);
    assert t.queues.retry30s == [again] && t.queues.processing == [];
    assert again.at == 0 && again.msg == one.msg && again.readable by { RetryCopyKeeps(one, 0); }
    var c, u := ComeBack(Toy(), t, again);
    Join(Toy(), Init(1), a + b, t, c, u);
    var d, v := HandleToOriginal(Toy(), u, 0, p1);
    Join(Toy(), Init(1), a + b + c, u, d, v);
    var e, x := HandleToReady(Toy(), v, 0, again.(at := 30_000), p1);
    Join(Toy(), Init(1), a + b + c + d, v, e, x);
    acts := a + b + c + d + e;
  }

  lemma StageBoth() returns (acts: seq<Action>, t: State)
    ensures Reaches(Toy(), Init(1), acts, t) && AllBenign(Toy(), acts)
    ensures t.requests ==
      map[0 := Uploading(MessageFor(ANN, "m1"), Upsert), 1 := Uploading(MessageFor(ANN, "m2"), Upsert)]
    ensures t.workers == [Idle] && t.h.published == []
    ensures t.h.sources == map["m1" := Source(ANN, [1]), "m2" := Source(ANN, [2])]
  {
    hide Process, Toy, ApplyWork, ApplyCrash, ApplyDeliver, ApplyExpire;
    IdsDiffer();
    ToyPicture([1]);
    ToyPicture([2]);
    acts, t := Then(Toy(), Init(1), [], Init(1), StagePut(0, ANN, "m1", [1]));
    acts, t := Then(Toy(), Init(1), acts, t, StagePut(1, ANN, "m2", [2]));
  }

  /**
   Uploads of ann with ids m1 and m2 that overlap: the rows are written in one order, the messages
   published in the other.
   */
  lemma Overlap() returns (acts: seq<Action>, t: State)
    ensures Reaches(Toy(), Init(1), acts, t) && AllBenign(Toy(), acts)
    ensures t.requests == map[] && t.workers == [Idle]
    ensures ANN in t.rows && t.rows[ANN].messageId == "m2"
    ensures t.h.sources == map["m1" := Source(ANN, [1]), "m2" := Source(ANN, [2])]
    ensures t.h.published == [MessageFor(ANN, "m2"), MessageFor(ANN, "m1")]
  {
    hide Process, Toy, ApplyWork, ApplyCrash, ApplyDeliver, ApplyExpire, ApplyReadForDelete, ApplyRemoveObject,
      ApplyRemoveRow, ApplyUnstage, ApplyFailUpload, ApplyStagePut;
    var s := Init(1);
    acts, t := StageBoth();
    acts, t := Then(Toy(), s, acts, t, UpsertRow(0, true));
    acts, t := Then(Toy(), s, acts, t, UpsertRow(1, true));
    assert t.requests ==
      map[0 := Uploading(MessageFor(ANN, "m1"), Publish), 1 := Uploading(MessageFor(ANN, "m2"), Publish)];
    acts, t := Then(Toy(), s, acts, t, PublishMsg(1, true));
    acts, t := Then(Toy(), s, acts, t, PublishMsg(0, true));
  }

  /** Worker and broker steps without faults leave the ids that rows name alone. */
  lemma {:induction false} QuietKeepsNames(codec: Codec, s: State, acts: seq<Action>)
    requires forall i :: 0 <= i < |acts| ==> Quiet(acts[i])
    ensures var t := Run(codec, s, acts);
      t.rows.Keys == s.rows.Keys && forall u :: u in s.rows ==> t.rows[u].messageId == s.rows[u].messageId
  {
    if acts != [] {
      var n := |acts| - 1;
      var t := Run(codec, s, acts[..n]);
      QuietKeepsNames(codec, s, acts[..n]);
      if acts[n].Work? && Enabled(t, acts[n]) {
        WorkKeepsNames(codec, t, acts[n].w, acts[n].ok, acts[n].pos, acts[n].text);
        hide ApplyWork;
      } else if !acts[n].Work? {
        MovesKeepStores(codec, t, acts[n]);
        hide Apply;
      }
    }
  }

  /**
   Nor does it take a retry, or any fault at all: two uploads that overlap, the second row
   written last, the first message published last. Once everything is handled, the ready row
   names the second upload and shows the first.
   */
  lemma {:induction false} OverlapCanShowTheOlderPicture() returns (acts: seq<Action>)
    ensures var s := Run(Toy(), Init(1), acts);
      && AllBenign(Toy(), acts) && Quiescent(s)
      && ANN in s.rows && s.rows[ANN].status == Ready && s.rows[ANN].messageId == "m2"
      && Original(ANN) in s.objects && s.objects[Original(ANN)] == [1]
      && Thumb(ANN) in s.objects && s.objects[Thumb(ANN)] == [1]
  {
    hide Process, Run, Toy, LastOf, Apply;
    ToyPicture([1]);
    IdsDiffer();
    var a, s := Overlap();
    var b := CanDrain(Toy(), s);
    RunConcat(Toy(), Init(1), a, b);
    QuietKeepsNames(Toy(), s, b);
    QuietKeepsRequests(Toy(), s, b);
    acts := a + b;
    assert AllBenign(Toy(), b) by {
      assert forall i :: 0 <= i < |b| ==> Quiet(b[i]);
    }
    QuiescentMeansShown(Toy(), acts);
    var t := Run(Toy(), Init(1), acts);
    LastOfPush([MessageFor(ANN, "m2")], MessageFor(ANN, "m1"), ANN);
    assert t.h.published == [MessageFor(ANN, "m2")] + [MessageFor(ANN, "m1")];
    assert LastOf(t.h.published, ANN) == Some("m1");
    assert MessageFor(ANN, "m1") in t.h.published;
  }

  lemma RetryCopyKeeps(d: Delivery, now: nat)
    ensures RetryCopy(d, now).at == now && RetryCopy(d, now).msg == d.msg && RetryCopy(d, now).readable == d.readable
  {
  }

  lemma UploadAndFail(one: Delivery) returns (acts: seq<Action>, t: State)
    requires one == FirstCopy(MessageFor(ANN, "m1"), 0)
    ensures Reaches(Toy(), Init(1), acts, t)
    ensures ANN in t.rows && t.objects == map[one.msg.stagingKey := [1]]
    ensures t.queues == Queues([], [RetryCopy(one, 0)], [], []) && t.workers == [Idle] && t.requests == map[]
    ensures t.processed == {} && t.now == 0
    ensures t.h.sources == map["m1" := Source(ANN, [1])] && t.h.published == [one.msg]
  {
    IdsDiffer();
    hide Process, Apply, Run, Toy;
    var a1, s1 := Upload(Toy(), Init(1), ANN, "m1", [1]);
    var a2, s2 := HandleToDownload(Toy(), s1, 0);
    Join(Toy(), Init(1), a1, s1, a2, s2);
    assert s2.workers == [Busy(one, Download, NO_PICTURE)];
    var a3: seq<Action>;
    a3, t := FailOnce(Toy(), s2, one);
    Join(Toy(), Init(1), a1 + a2, s2, a3, t);
    acts := a1 + a2 + a3;
  }

  lemma UploadAndShow(s: State, two: Delivery, p: Picture) returns (acts: seq<Action>, t: State)
    requires two == FirstCopy(MessageFor(ANN, "m2"), s.now) && Process(Toy(), [2]) == Some(p)
    requires s.queues.processing == [] && s.workers == [Idle] && s.requests == map[] && s.processed == {}
    requires "m2" !in s.h.sources
    ensures Reaches(Toy(), s, acts, t)
    ensures ANN in t.rows && t.rows[ANN].messageId == "m2"
    ensures t.queues == s.queues && t.workers == [Idle] && t.requests == map[] && t.now == s.now
    ensures t.processed == {"m2"}
    ensures forall k :: k in s.objects && k.Staging? && k.id != "m2" ==> k in t.objects && t.objects[k] == s.objects[k]
    ensures t.h.sources == s.h.sources["m2" := Source(ANN, [2])] && t.h.published == s.h.published + [two.msg]
  {
    IdsDiffer();
    hide Process, Apply, Run, Toy;
    var a1, s1 := Upload(Toy(), s, ANN, "m2", [2]);
    assert s1.queues.processing == [two];
    var a2, s2 := HandleToOriginal(Toy(), s1, 0, p);
    Join(Toy(), s, a1, s1, a2, s2);
    assert s2.workers == [Busy(two, PutThumb, p)];
    var a3, s3 := HandleToReady(Toy(), s2, 0, two, p);
    Join(Toy(), s, a1 + a2, s2, a3, s3);
    assert s3.workers == [Busy(two, Cleanup, p)];
    var a4: seq<Action>;
    a4, t := FinishDelivery(Toy(), s3, two, p);
    Join(Toy(), s, a1 + a2 + a3, s3, a4, t);
    acts := a1 + a2 + a3 + a4;
    assert t.queues.processing == [];
  }
}
