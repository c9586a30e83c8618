/**
 Why the retry ladder ends. `Phi` weighs what is left to do; a call that goes through takes
 at least one unit off it, and only faults and arrivals put anything on.
 */
module Termination {
  import opened Avatars
  import opened Conservation
  import opened Keys
  import opened Pipeline
  import opened Processor
  import opened Sums
  import T = Topology

  /**
   Steps that a copy with retry count `count` can cause at most, from the processing queue on. Any
   integer will do.
   */
  function Remaining(count: int): nat {
    if count == 0 then 41 else if count == 1 then 27 else 13
  }

  /** The same for the copy that a counted failure makes of it. */
  function RemainingAfterRetry(count: int): nat {
    if T.RetryQueue(count + 1) == T.DLQ then 0 else 1 + Remaining(count + 1)
  }

  ghost function ActiveWeight(): Delivery -> nat {
    (d: Delivery) => Remaining(T.RetryCount(d.header))
  }

  ghost function WaitingWeight(): Delivery -> nat {
    (d: Delivery) => 1 + Remaining(T.RetryCount(d.header))
  }

  function Weigh(x: Worker): nat {
    if x.Idle? then 0
    else
      var count := T.RetryCount(x.d.header);
      var later := RemainingAfterRetry(count);
      match x.pc
      case Check => 12 + later
      case Start => 11 + later
      case Download => 10 + later
      case PutOriginal => 9 + later
      case PutThumb => 8 + later
      case MarkReady => 7 + later
      case FailRow => 6 + later
      case Retry => 2 + later
      case Cleanup => 3
      case Mark => 2
      case Reject => 1
      case AckDone => 1
      case AckRetried => 1
      case Requeue => 1 + Remaining(count)
      case Hung => 0
      case HungRetried => 0
  }

  ghost function WorkerWeight(): Worker -> nat {
    (x: Worker) => Weigh(x)
  }

  ghost function QueueWeight(qs: Queues): nat {
    Sum(qs.processing, ActiveWeight()) + Sum(qs.retry30s, WaitingWeight()) + Sum(qs.retry2m, WaitingWeight())
  }

  ghost function Phi(s: State): nat {
    QueueWeight(s.queues) + Sum(s.workers, WorkerWeight())
  }

  /** Calls of workers and expiries that go through. */
  predicate Progresses(a: Action) {
    a.Deliver? || a.Expire? || (a.Work? && a.ok)
  }

  /** Crashes, and worker calls that fail. */
  predicate IsFault(a: Action) {
    a.Crash? || (a.Work? && !a.ok)
  }

  /** A message, readable or not, enters the processing queue from outside. */
  predicate IsArrival(a: Action) {
    a.Inject? || (a.PublishMsg? && a.ok)
  }

  lemma PushWeight(qs: Queues, q: T.QueueName, d: Delivery)
    ensures QueueWeight(Push(qs, q, d)) == QueueWeight(qs) +
      match q
      case Processing => Remaining(T.RetryCount(d.header))
      case Retry30s => 1 + Remaining(T.RetryCount(d.header))
      case Retry2m => 1 + Remaining(T.RetryCount(d.header))
      case DLQ => 0
  {
    SumPush(qs.Of(q), d, ActiveWeight());
    SumPush(qs.Of(q), d, WaitingWeight());
  }

  lemma QueuesAfterWeight(s: State, x: Worker, ok: bool, pos: nat)
    requires x.Busy? && pos <= |s.queues.processing|
    ensures QueueWeight(QueuesAfter(s, x, ok, pos)) == QueueWeight(s.queues) +
      if ok && x.pc == Retry then RemainingAfterRetry(T.RetryCount(x.d.header))
      else if ok && x.pc == Requeue then Remaining(T.RetryCount(x.d.header))
      else 0
  {
    hide Sum;
    if ok && x.pc == Retry {
      PushWeight(s.queues, RetryTarget(x.d), RetryCopy(x.d, s.now));
    } else if ok && x.pc == Reject {
      PushWeight(s.queues, T.DLQ, x.d.(at := s.now));
    } else if ok && x.pc == Requeue {
      SumInsertAt(s.queues.processing, pos, x.d, ActiveWeight());
    }
  }

  lemma NextWorkerWeight(codec: Codec, s: State, x: Worker, ok: bool)
    requires x.Busy? && x.pc != Hung && x.pc != HungRetried
    ensures var released :=
        if ok && x.pc == Retry then RemainingAfterRetry(T.RetryCount(x.d.header))
        else if ok && x.pc == Requeue then Remaining(T.RetryCount(x.d.header))
        else 0;
      var after := Weigh(NextWorker(codec, s, x, ok)) + released;
      if ok then after + 1 <= Weigh(x) else after <= Weigh(x) + 41
  {
  }

  lemma WorkWeight(codec: Codec, s: State, w: nat, ok: bool, pos: nat, text: string)
    requires Enabled(s, Work(w, ok, pos, text))
    ensures var t := ApplyWork(codec, s, w, ok, pos, text);
      if ok then Phi(t) + 1 <= Phi(s) else Phi(t) <= Phi(s) + 41
  {
    hide QueuesAfter, NextWorker, Weigh, Sum, QueueWeight, RowsAfter, ObjectsAfter, HistoryAfter, ProcessedAfter;
    var x := s.workers[w];
    QueuesAfterWeight(s, x, ok, pos);
    NextWorkerWeight(codec, s, x, ok);
    SumUpdate(s.workers, w, NextWorker(codec, s, x, ok), WorkerWeight());
  }

  lemma DeliverWeight(s: State, w: nat, i: nat)
    requires Enabled(s, Deliver(w, i))
    ensures Phi(ApplyDeliver(s, w, i)) + 1 <= Phi(s)
  {
    hide Sum;
    SumRemoveAt(s.queues.processing, i, ActiveWeight());
    SumUpdate(s.workers, w, ApplyDeliver(s, w, i).workers[w], WorkerWeight());
  }

  lemma CrashWeight(s: State, w: nat, pos: nat)
    requires Enabled(s, Crash(w, pos))
    ensures Phi(ApplyCrash(s, w, pos)) <= Phi(s) + 41
  {
    hide Sum;
    SumInsertAt(s.queues.processing, pos, s.workers[w].d, ActiveWeight());
    SumUpdate(s.workers, w, Idle, WorkerWeight());
  }

  lemma StepWeight(codec: Codec, s: State, a: Action)
    requires Enabled(s, a)
    ensures var t := Apply(codec, s, a);
      if Progresses(a) then Phi(t) + 1 <= Phi(s)
      else if IsFault(a) || IsArrival(a) then Phi(t) <= Phi(s) + 41
      else Phi(t) == Phi(s)
  {
    hide Sum, ApplyWork, ApplyDeliver, ApplyCrash, Push;
    match a {
      case Work(w, ok, pos, text) => WorkWeight(codec, s, w, ok, pos, text);
      case Deliver(w, i) => DeliverWeight(s, w, i);
      case Crash(w, pos) => CrashWeight(s, w, pos);
      case Expire(q) =>
        var d := s.queues.Of(q)[0];
        SumTail(s.queues.Of(q), WaitingWeight());
        PushWeight(s.queues.With(q, s.queues.Of(q)[1..]), T.Processing, d.(at := s.now));
      case PublishMsg(r, ok) =>
        PushWeight(s.queues, T.Processing, FirstCopy(s.requests[r].msg, s.now));
      case Inject(header) =>
        PushWeight(s.queues, T.Processing, Delivery(false, Msg("", "", NoKey), header, [], s.now));
      case Tick(dt) =>
      case _ =>
        OthersKeepWorkers(codec, s, a);
        NonPublishKeepsQueues(codec, s, a);
    }
  }

  /** How many of the actions of a run take effect and are of a kind. */
  ghost function CountSteps(codec: Codec, s: State, acts: seq<Action>, kind: Action -> bool): nat {
    if acts == [] then 0
    else
      var n := |acts| - 1;
      CountSteps(codec, s, acts[..n], kind) +
        if kind(acts[n]) && Enabled(Run(codec, s, acts[..n]), acts[n]) then 1 else 0
  }

  /**
   From any state whatsoever, with any headers and any number of workers: in every run the
   calls that go through number at most the initial weight plus 41 for each fault and each
   arrival. With finitely many of those, the ladder terminates.
   */
  lemma {:induction false} ProgressIsBounded(codec: Codec, s: State, acts: seq<Action>)
    ensures CountSteps(codec, s, acts, Progresses) + Phi(Run(codec, s, acts)) <=
      Phi(s) + 41 * (CountSteps(codec, s, acts, IsFault) + CountSteps(codec, s, acts, IsArrival))
  {
    if acts != [] {
      var n := |acts| - 1;
      ProgressIsBounded(codec, s, acts[..n]);
      if Enabled(Run(codec, s, acts[..n]), acts[n]) {
        StepWeight(codec, Run(codec, s, acts[..n]), acts[n]);
      }
    }
  }

  /** Nothing left for workers or retry queues to do. */
  predicate Drained(s: State) {
    && s.queues.processing == [] && s.queues.retry30s == [] && s.queues.retry2m == []
    && forall w :: 0 <= w < |s.workers| ==> s.workers[w].Idle?
  }

  predicate NoneHung(s: State) {
    forall w :: 0 <= w < |s.workers| && s.workers[w].Busy? ==> s.workers[w].pc != Hung && s.workers[w].pc != HungRetried
  }

  /** Worker and broker steps without a fault, deliveries in queue order. */
  predicate Quiet(a: Action) {
    (Progresses(a) || a.Tick?) && (a.Deliver? ==> a.i == 0)
  }

  lemma QuietKeepsNoneHung(codec: Codec, s: State, a: Action)
    requires NoneHung(s) && Quiet(a)
    ensures NoneHung(Apply(codec, s, a)) && |Apply(codec, s, a).workers| == |s.workers|
  {
    hide QueuesAfter, RowsAfter, ObjectsAfter, HistoryAfter, ProcessedAfter;
  }

  /** As long as something is left to do, some worker or the broker can do it, after a wait at most. */
  lemma {:induction false} SomethingToDo(codec: Codec, s: State) returns (acts: seq<Action>)
    requires |s.workers| >= 1 && NoneHung(s) && !Drained(s)
    ensures forall i :: 0 <= i < |acts| ==> Quiet(acts[i])
    ensures Phi(Run(codec, s, acts)) < Phi(s)
    ensures NoneHung(Run(codec, s, acts)) && |Run(codec, s, acts).workers| == |s.workers|
  {
    hide ApplyWork, ApplyDeliver, ApplyExpire, Phi;
    var a: Action;
    var wait := 0;
    if w :| 0 <= w < |s.workers| && s.workers[w].Busy? {
      a := Work(w, true, 0, "error");
    } else if s.queues.processing != [] {
      a := Deliver(0, 0);
    } else {
      var q := if s.queues.retry30s != [] then T.Retry30s else T.Retry2m;
      wait := s.queues.Of(q)[0].at + T.Ttl(q);
      a := Expire(q);
    }
    var t := Apply(codec, s, Tick(wait));
    acts := [Tick(wait), a];
    assert Enabled(t, a);
    RunTwo(codec, s, Tick(wait), a);
    StepWeight(codec, s, Tick(wait));
    StepWeight(codec, t, a);
    QuietKeepsNoneHung(codec, s, Tick(wait));
    QuietKeepsNoneHung(codec, t, a);
  }

  lemma RunTwo(codec: Codec, s: State, a: Action, b: Action)
    ensures Run(codec, s, [a, b]) == Apply(codec, Apply(codec, s, a), b)
  {
    assert [a, b][..1] == [a] && [a][..0] == [];
    assert Run(codec, s, [a]) == Apply(codec, s, a);
  }

  /** From every state, worker and broker steps without faults reach a drained state. */
  lemma {:induction false} CanDrain(codec: Codec, s: State) returns (acts: seq<Action>)
    requires |s.workers| >= 1 && NoneHung(s)
    ensures forall i :: 0 <= i < |acts| ==> Quiet(acts[i])
    ensures Drained(Run(codec, s, acts))
    decreases Phi(s)
  {
    if Drained(s) {
      acts := [];
    } else {
      var first := SomethingToDo(codec, s);
      var rest := CanDrain(codec, Run(codec, s, first));
      RunConcat(codec, s, first, rest);
      acts := first + rest;
    }
  }

  lemma DeadLettered(s: State, id: MsgId)
    requires Drained(s) && SomewhereAlive(s, id)
    ensures exists d :: d in s.queues.dlq && d.readable && d.msg.id == id
  {
    var q, i :| 0 <= i < |s.queues.Of(q)| && s.queues.Of(q)[i].readable && s.queues.Of(q)[i].msg.id == id;
    assert q == T.DLQ;
    assert s.queues.dlq[i] in s.queues.dlq;
  }

  /**
   Whatever backlog the service starts over, with any retry headers in it, and however the run
   goes: once it has drained, every readable message of the backlog is marked as processed or
   lies in the dead-letter queue.
   */
  lemma BacklogIsDecided(codec: Codec, workers: nat, backlog: Queues, acts: seq<Action>, q: T.QueueName, i: nat)
    requires i < |backlog.Of(q)| && backlog.Of(q)[i].readable && Drained(Run(codec, InitWith(workers, backlog), acts))
    ensures var s, id := Run(codec, InitWith(workers, backlog), acts), backlog.Of(q)[i].msg.id;
      id in s.processed || exists d :: d in s.queues.dlq && d.readable && d.msg.id == id
  {
    var o, id := InitWith(workers, backlog), backlog.Of(q)[i].msg.id;
    var s := Run(codec, o, acts);
    hide Drained, Run;
    BacklogIsConserved(codec, o, acts, id);
    SumHasMember(backlog.Of(q), i, CopyOf(id));
    if s.h.settled[id] == 0 {
      LiveIsSomewhere(s, id);
      DeadLettered(s, id);
    }
  }

  /**
   And every message that does not parse lies in the dead-letter queue: those of the backlog, and
   those that came in.
   */
  lemma {:induction false} DrainedUnreadablesAreDead(codec: Codec, workers: nat, backlog: Queues, acts: seq<Action>)
    requires Drained(Run(codec, InitWith(workers, backlog), acts))
    ensures Sum(Run(codec, InitWith(workers, backlog), acts).queues.dlq, UnreadableCopy()) ==
      QueuedUnreadables(backlog) + Injections(acts)
  {
    var o := InitWith(workers, backlog);
    var s := Run(codec, o, acts);
    hide Run;
    UnreadablesAreKept(codec, o, acts);
    SumZero(o.workers, HeldUnreadable());
    SumZero(s.workers, HeldUnreadable());
  }

  /** Once a run has drained, every accepted message is marked as processed or lies in the dead-letter queue. */
  lemma {:induction false} DrainedMessagesAreDecided(codec: Codec, workers: nat, acts: seq<Action>, m: Msg)
    requires m in Run(codec, Init(workers), acts).h.published && Drained(Run(codec, Init(workers), acts))
    ensures var s := Run(codec, Init(workers), acts);
      m.id in s.processed || exists d :: d in s.queues.dlq && d.readable && d.msg.id == m.id
  {
    var s := Run(codec, Init(workers), acts);
    NoMessageIsLost(codec, workers, acts, m);
    if m.id !in s.processed {
      DeadLettered(s, m.id);
    }
  }
}
