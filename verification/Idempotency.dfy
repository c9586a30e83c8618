/** How often the handler can succeed for one message. */
module Idempotency {
  import opened Keys
  import opened Pipeline
  import opened Processor
  import opened Sums

  ghost function AtMark(id: MsgId): Worker -> nat {
    (x: Worker) => if x.Busy? && x.pc == Mark && x.d.msg.id == id then 1 else 0
  }

  /** Every successful handler run was marked, lost its mark, or is about to be marked. */
  ghost predicate SuccessesCounted(s: State, id: MsgId) {
    s.h.successes[id] == s.h.marks[id] + s.h.lostMarks[id] + Sum(s.workers, AtMark(id))
  }

  lemma SuccessesWork(codec: Codec, s: State, w: nat, ok: bool, pos: nat, text: string, id: MsgId)
    requires SuccessesCounted(s, id) && Enabled(s, Work(w, ok, pos, text))
    ensures SuccessesCounted(ApplyWork(codec, s, w, ok, pos, text), id)
  {
    hide Sum, QueuesAfter, RowsAfter, ObjectsAfter, ProcessedAfter;
    SumUpdate(s.workers, w, NextWorker(codec, s, s.workers[w], ok), AtMark(id));
  }

  lemma SuccessesStep(codec: Codec, s: State, a: Action, id: MsgId)
    requires SuccessesCounted(s, id)
    ensures SuccessesCounted(Apply(codec, s, a), id)
  {
    hide Sum, ApplyWork, InsertAt, RemoveAt;
    if Enabled(s, a) {
      match a {
        case Work(w, ok, pos, text) => SuccessesWork(codec, s, w, ok, pos, text, id);
        case Deliver(w, i) => SumUpdate(s.workers, w, ApplyDeliver(s, w, i).workers[w], AtMark(id));
        case Crash(w, pos) => SumUpdate(s.workers, w, Idle, AtMark(id));
        case _ => OthersKeepWorkers(codec, s, a);
      }
    }
  }

  /** Exactly, with any number of workers: successes are marks plus lost marks plus those still to be marked. */
  lemma {:induction false} SuccessesAreAccountedFor(codec: Codec, workers: nat, acts: seq<Action>, id: MsgId)
    ensures SuccessesCounted(Run(codec, Init(workers), acts), id)
  {
    if acts == [] {
      SumZero(Init(workers).workers, AtMark(id));
    } else {
      SuccessesAreAccountedFor(codec, workers, acts[..|acts| - 1], id);
      SuccessesStep(codec, Run(codec, Init(workers), acts[..|acts| - 1]), acts[|acts| - 1], id);
    }
  }

  /** The calls of the handler, and the mark after its success. */
  predicate InHandler(pc: Pc) {
    || pc == Start || pc == Download || pc == PutOriginal || pc == PutThumb
    || pc == MarkReady || pc == Cleanup || pc == FailRow || pc == Mark
  }

  /** With one worker: nobody handles a marked id, and an id is marked at most once. */
  ghost predicate MarkedOnce(s: State) {
    && |s.workers| == 1
    && (s.workers[0].Busy? && InHandler(s.workers[0].pc) ==> s.workers[0].d.msg.id !in s.processed)
    && (forall id :: s.h.marks[id] == if id in s.processed then 1 else 0)
  }

  lemma MarkedOnceStep(codec: Codec, s: State, a: Action)
    requires MarkedOnce(s)
    ensures MarkedOnce(Apply(codec, s, a))
  {
    hide ApplyWork;
    if Enabled(s, a) {
      match a {
        case Work(w, ok, pos, text) => MarkedOnceWork(codec, s, ok, pos, text);
        case Deliver(w, i) =>
        case Crash(w, pos) =>
        case _ => OthersKeepWorkers(codec, s, a);
      }
    }
  }

  lemma MarkedOnceWork(codec: Codec, s: State, ok: bool, pos: nat, text: string)
    requires MarkedOnce(s) && Enabled(s, Work(0, ok, pos, text))
    ensures MarkedOnce(ApplyWork(codec, s, 0, ok, pos, text))
  {
    hide QueuesAfter, RowsAfter, ObjectsAfter, NextWorker;
    HandlerEntry(codec, s, s.workers[0], ok);
  }

  /** The handler is entered only for an id that the check found unmarked, and left by the mark. */
  lemma HandlerEntry(codec: Codec, s: State, x: Worker, ok: bool)
    requires x.Busy?
    ensures var y := NextWorker(codec, s, x, ok);
      y.Busy? && InHandler(y.pc) ==>
        y.d == x.d && x.pc != Mark && ((x.pc == Check && x.d.msg.id !in s.processed) || InHandler(x.pc))
  {
    hide Process;
  }

  lemma {:induction false} IdsAreMarkedOnce(codec: Codec, acts: seq<Action>)
    ensures MarkedOnce(Run(codec, Init(1), acts))
  {
    if acts != [] {
      IdsAreMarkedOnce(codec, acts[..|acts| - 1]);
      MarkedOnceStep(codec, Run(codec, Init(1), acts[..|acts| - 1]), acts[|acts| - 1]);
    }
  }

  // ---- with any number of workers ----

  ghost function Handling(id: MsgId): Worker -> nat {
    (x: Worker) => if x.Busy? && InHandler(x.pc) && x.d.msg.id == id then 1 else 0
  }

  /** An id is marked no more often than there are workers; those still in the handler count with its marks. */
  ghost predicate MarksBounded(s: State, id: MsgId) {
    if id in s.processed then s.h.marks[id] + Sum(s.workers, Handling(id)) <= |s.workers| else s.h.marks[id] == 0
  }

  lemma MarksBoundedWork(codec: Codec, s: State, w: nat, ok: bool, pos: nat, text: string, id: MsgId)
    requires MarksBounded(s, id) && Enabled(s, Work(w, ok, pos, text))
    ensures MarksBounded(ApplyWork(codec, s, w, ok, pos, text), id)
  {
    hide Sum, QueuesAfter, RowsAfter, ObjectsAfter, NextWorker;
    var x := s.workers[w];
    HandlerEntry(codec, s, x, ok);
    SumUpdate(s.workers, w, NextWorker(codec, s, x, ok), Handling(id));
    SumAtMost(s.workers[w := NextWorker(codec, s, x, ok)], Handling(id));
    SumAtMost(s.workers, Handling(id));
    hide InHandler;
  }

  lemma MarksBoundedStep(codec: Codec, s: State, a: Action, id: MsgId)
    requires MarksBounded(s, id)
    ensures MarksBounded(Apply(codec, s, a), id)
  {
    hide Sum, ApplyWork;
    if Enabled(s, a) {
      match a {
        case Work(w, ok, pos, text) => MarksBoundedWork(codec, s, w, ok, pos, text, id);
        case Deliver(w, i) => SumUpdate(s.workers, w, ApplyDeliver(s, w, i).workers[w], Handling(id));
        case Crash(w, pos) => SumUpdate(s.workers, w, Idle, Handling(id));
        case _ => OthersKeepWorkers(codec, s, a);
      }
    }
  }

  lemma {:induction false} MarksAreBounded(codec: Codec, workers: nat, acts: seq<Action>, id: MsgId)
    ensures MarksBounded(Run(codec, Init(workers), acts), id) && |Run(codec, Init(workers), acts).workers| == workers
  {
    if acts != [] {
      var n := |acts| - 1;
      var s := Run(codec, Init(workers), acts[..n]);
      MarksAreBounded(codec, workers, acts[..n], id);
      hide MarksBounded;
      MarksBoundedStep(codec, s, acts[n], id);
      WorkersStay(codec, s, acts[n]);
    }
  }

  lemma WorkersStay(codec: Codec, s: State, a: Action)
    ensures |Apply(codec, s, a).workers| == |s.workers|
  {
    hide RowsAfter, ProcessedAfter, ObjectsAfter, QueuesAfter, NextWorker, HistoryAfter;
    if !ByWorker(a) {
      OthersKeepWorkers(codec, s, a);
    }
  }

  /** A worker at the mark is in the handler. */
  lemma {:induction false} MarkersHandle(workers: seq<Worker>, id: MsgId)
    ensures Sum(workers, AtMark(id)) <= Sum(workers, Handling(id))
  {
    if workers != [] {
      MarkersHandle(workers[..|workers| - 1], id);
    }
  }

  /**
   The handler succeeds for an id at most once per worker more than its marks were lost, that
   is, failed or crashed away between the success and the mark. One worker: once more.
   */
  lemma {:induction false} SuccessesAreBounded(codec: Codec, workers: nat, acts: seq<Action>, id: MsgId)
    ensures var s := Run(codec, Init(workers), acts);
      s.h.successes[id] <= workers + s.h.lostMarks[id]
  {
    var s := Run(codec, Init(workers), acts);
    SuccessesAreAccountedFor(codec, workers, acts, id);
    MarksAreBounded(codec, workers, acts, id);
    MarkersHandle(s.workers, id);
    SumAtMost(s.workers, Handling(id));
  }

  lemma ProcessedKept(codec: Codec, s: State, a: Action)
    ensures s.processed <= Apply(codec, s, a).processed
  {
    hide QueuesAfter, RowsAfter, ObjectsAfter, NextWorker, HistoryAfter, ApplyDeliver, ApplyCrash;
    if !ByWorker(a) {
      OthersKeepWorkers(codec, s, a);
    } else if !a.Work? {
      MovesKeepStores(codec, s, a);
    }
  }

  /** The processed set only grows. */
  lemma {:induction false} ProcessedGrows(codec: Codec, s: State, acts: seq<Action>)
    ensures s.processed <= Run(codec, s, acts).processed
  {
    if acts != [] {
      ProcessedGrows(codec, s, acts[..|acts| - 1]);
      ProcessedKept(codec, Run(codec, s, acts[..|acts| - 1]), acts[|acts| - 1]);
    }
  }

  /** With one worker, a marked id is not being handled, and its successes exceed its lost marks by one. */
  lemma {:induction false} MarkedIdsAreSettled(codec: Codec, acts: seq<Action>, id: MsgId)
    requires id in Run(codec, Init(1), acts).processed
    ensures var s := Run(codec, Init(1), acts);
      && |s.workers| == 1
      && (s.workers[0].Busy? && s.workers[0].d.msg.id == id ==> !InHandler(s.workers[0].pc))
      && s.h.successes[id] == 1 + s.h.lostMarks[id]
  {
    var s := Run(codec, Init(1), acts);
    IdsAreMarkedOnce(codec, acts);
    SuccessesAreAccountedFor(codec, 1, acts, id);
    assert s.workers == [s.workers[0]];
    SumOne(s.workers[0], AtMark(id));
  }

  /**
   Once an id is marked, one worker never handles it again, however the run goes on: whatever
   deliveries of it still come, the handler is not in progress for it and gains no success.
   */
  lemma {:induction false} MarkedIdsStayHandled(codec: Codec, past: seq<Action>, acts: seq<Action>, id: MsgId)
    requires id in Run(codec, Init(1), past).processed
    ensures var s, t := Run(codec, Init(1), past), Run(codec, Init(1), past + acts);
      && |t.workers| == 1
      && id in t.processed
      && (t.workers[0].Busy? && t.workers[0].d.msg.id == id ==> !InHandler(t.workers[0].pc))
      && t.h.successes[id] == s.h.successes[id]
  {
    RunConcat(codec, Init(1), past, acts);
    ProcessedGrows(codec, Run(codec, Init(1), past), acts);
    MarkedIdsAreSettled(codec, past + acts, id);
    if acts == [] {
      assert past + acts == past;
    } else {
      var before := past + acts[..|acts| - 1];
      MarkedIdsStayHandled(codec, past, acts[..|acts| - 1], id);
      assert past + acts == before + [acts[|acts| - 1]];
      RunExtend(codec, Init(1), before, acts[|acts| - 1]);
      NoSuccessForMarked(codec, Run(codec, Init(1), before), acts[|acts| - 1], id);
    }
  }

  lemma NoSuccessForMarked(codec: Codec, s: State, a: Action, id: MsgId)
    requires |s.workers| == 1 && (s.workers[0].Busy? && s.workers[0].d.msg.id == id ==> !InHandler(s.workers[0].pc))
    ensures Apply(codec, s, a).h.successes[id] == s.h.successes[id]
  {
    hide QueuesAfter, RowsAfter, ObjectsAfter, NextWorker, ProcessedAfter, ApplyDeliver, ApplyCrash;
    if !ByWorker(a) {
      OthersKeepWorkers(codec, s, a);
    } else if !a.Work? {
      MovesKeepStores(codec, s, a);
    }
  }
}
