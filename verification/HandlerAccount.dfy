/**
 What one undisturbed run of the handler comes to, for every outcome of its calls:
 `Service.Handle` of internal/worker/service.go said as a relation between the state it starts
 from and the state it leaves, with the number of calls that failed.
 */
module HandlerAccount {
  import opened Avatars
  import opened Keys
  import opened Pipeline
  import opened Processor
  import opened Wrappers
  import T = Topology

  /** Whether the handler would find a picture at the source of this message. */
  predicate SourceProcesses(codec: Codec, s: State, m: Msg) {
    m.stagingKey in s.objects && Process(codec, s.objects[m.stagingKey]).Some?
  }

  function SourcePicture(codec: Codec, s: State, m: Msg): Picture
    requires SourceProcesses(codec, s, m)
  {
    Process(codec, s.objects[m.stagingKey]).value
  }

  /** The row, if there is one, says that the picture is being worked on. */
  function Begun(s: State, m: Msg): map<UserId, Row> {
    UpdateStatus(s.rows, m.user, Processing, "")
  }

  function OriginalPut(s: State, m: Msg, p: Picture): map<Key, Bytes> {
    s.objects[Original(m.user) := p.original]
  }

  function BothPut(s: State, m: Msg, p: Picture): map<Key, Bytes> {
    s.objects[Original(m.user) := p.original][Thumb(m.user) := p.thumb]
  }

  /**
   The handler returned no error. The row, if there is one, is ready with the picture's size and
   dimensions, and names the two result keys; those hold the picture's two byte strings; and the
   source is gone, unless the one call that removes it failed. No other call did.
   */
  ghost predicate Succeeded(codec: Codec, s: State, t: State, m: Msg, failures: int) {
    && SourceProcesses(codec, s, m)
    && var p := SourcePicture(codec, s, m);
    && t.rows == MarkRowReady(Begun(s, m), m.user, p.info)
    && (failures == 0 || failures == 1)
    && t.objects == if failures == 0 then BothPut(s, m, p) - {m.stagingKey} else BothPut(s, m, p)
  }

  /** One call failed, or none had to: the source is not a picture. */
  predicate Blamed(codec: Codec, s: State, m: Msg, failures: int) {
    failures == 1 || (failures == 0 && !SourceProcesses(codec, s, m))
  }

  /** At most the original was put. */
  ghost predicate HalfPut(codec: Codec, s: State, t: State, m: Msg) {
    || t.objects == s.objects
    || (SourceProcesses(codec, s, m) && t.objects == OriginalPut(s, m, SourcePicture(codec, s, m)))
  }

  ghost predicate NotBegun(s: State, t: State, failures: int) {
    failures == 1 && t.rows == s.rows && t.objects == s.objects
  }

  ghost predicate RowFailed(s: State, t: State, m: Msg) {
    exists text :: text != "" && t.rows == UpdateStatus(s.rows, m.user, Failed, text)
  }

  ghost predicate NotMarkedReady(codec: Codec, s: State, t: State, m: Msg, failures: int) {
    && failures == 1 && t.rows == Begun(s, m)
    && SourceProcesses(codec, s, m) && t.objects == BothPut(s, m, SourcePicture(codec, s, m))
  }

  /**
   The handler returned an error, in one of four ways: the status call failed, and nothing was
   touched; mark-ready failed, with both objects in place and the row as it was during the
   work; or a download, the processing or a put failed, and then the row is failed, with a text,
   unless the call that says so failed too.
   */
  ghost predicate Erred(codec: Codec, s: State, t: State, m: Msg, failures: int) {
    || NotBegun(s, t, failures)
    || NotMarkedReady(codec, s, t, m, failures)
    || (Blamed(codec, s, m, failures) && HalfPut(codec, s, t, m) && RowFailed(s, t, m))
    || (Blamed(codec, s, m, failures - 1) && failures >= 1 && HalfPut(codec, s, t, m) && t.rows == Begun(s, m))
  }

  /** Nothing changed but rows, objects, this worker and what is recorded of it. */
  ghost predicate Elsewhere(s: State, t: State, w: nat) {
    && w < |s.workers|
    && t.requests == s.requests && t.now == s.now && t.queues == s.queues && t.processed == s.processed
    && |t.workers| == |s.workers| && t.workers == s.workers[w := t.workers[w]]
  }

  /** Where rows and objects stand before each call of the handler, when `failures` of its calls failed. */
  ghost predicate HandlerAt(codec: Codec, s: State, w: nat, failures: int, t: State) {
    && Elsewhere(s, t, w) && s.workers[w].Busy?
    && var m := s.workers[w].d.msg;
    && t.workers[w].Busy? && t.workers[w].d == s.workers[w].d
    && HandlerProgress(codec, s, m, failures, t, t.workers[w].pc, t.workers[w].picture)
  }

  ghost predicate HandlerProgress(codec: Codec, s: State, m: Msg, failures: int, t: State, pc: Pc, p: Picture) {
    match pc
    case Start => failures == 0 && t.rows == s.rows && t.objects == s.objects
    case Download => failures == 0 && t.rows == Begun(s, m) && t.objects == s.objects
    case PutOriginal => failures == 0 && t.rows == Begun(s, m) && t.objects == s.objects && IsSource(codec, s, m, p)
    case PutThumb =>
      failures == 0 && t.rows == Begun(s, m) && t.objects == OriginalPut(s, m, p) && IsSource(codec, s, m, p)
    case MarkReady =>
      failures == 0 && t.rows == Begun(s, m) && t.objects == BothPut(s, m, p) && IsSource(codec, s, m, p)
    case Cleanup =>
      && failures == 0 && t.rows == MarkRowReady(Begun(s, m), m.user, p.info)
      && t.objects == BothPut(s, m, p) && IsSource(codec, s, m, p)
    case FailRow => t.rows == Begun(s, m) && HalfPut(codec, s, t, m) && Blamed(codec, s, m, failures)
    case Mark => Succeeded(codec, s, t, m, failures)
    case Retry => Erred(codec, s, t, m, failures)
    case _ => false
  }

  predicate IsSource(codec: Codec, s: State, m: Msg, p: Picture) {
    SourceProcesses(codec, s, m) && SourcePicture(codec, s, m) == p
  }

  /** The calls of the handler proper. */
  predicate OfHandler(pc: Pc) {
    pc == Start || pc == Download || pc == PutOriginal || pc == PutThumb || pc == MarkReady || pc == Cleanup ||
      pc == FailRow
  }

  /** Each call of the handler, whether it goes through or fails, keeps the account. */
  lemma HandlerStep(codec: Codec, s: State, w: nat, failures: int, t: State, ok: bool, pos: nat, text: string)
    requires HandlerAt(codec, s, w, failures, t)
    requires OfHandler(t.workers[w].pc) && text != "" && pos <= |t.queues.processing|
    ensures HandlerAt(codec, s, w, if ok then failures else failures + 1, ApplyWork(codec, t, w, ok, pos, text))
  {
    hide Process, HandlerProgress, RowsAfter, ObjectsAfter, NextWorker, HistoryAfter, UpdateStatus;
    var x, m, u := t.workers[w], s.workers[w].d.msg, ApplyWork(codec, t, w, ok, pos, text);
    OnlyThisWorker(codec, s, t, w, ok, pos, text);
    ProgressStep(codec, s, m, failures, t, x, ok, text, u);
  }

  lemma OnlyThisWorker(codec: Codec, s: State, t: State, w: nat, ok: bool, pos: nat, text: string)
    requires Elsewhere(s, t, w) && t.workers[w].Busy? && OfHandler(t.workers[w].pc) && pos <= |t.queues.processing|
    ensures var u := ApplyWork(codec, t, w, ok, pos, text);
      Elsewhere(s, u, w) && u.workers[w].Busy? && u.workers[w].d == t.workers[w].d
  {
    hide Process, RowsAfter, ObjectsAfter, HistoryAfter;
  }

  lemma ProgressStep(codec: Codec, s: State, m: Msg, failures: int, t: State, x: Worker, ok: bool, text: string,
      u: State)
    requires x.Busy? && x.d.msg == m && OfHandler(x.pc) && text != ""
    requires HandlerProgress(codec, s, m, failures, t, x.pc, x.picture)
    requires u.rows == RowsAfter(t.rows, x, ok, text) && u.objects == ObjectsAfter(t.objects, x, ok)
    ensures var y := NextWorker(codec, t, x, ok);
      y.Busy? && HandlerProgress(codec, s, m, if ok then failures else failures + 1, u, y.pc, y.picture)
  {
    hide Process;
    match x.pc {
      case FailRow => FailRowStep(codec, s, m, failures, t, x, ok, text, u);
      case Start =>
      case Download =>
      case PutOriginal =>
      case PutThumb =>
      case MarkReady =>
      case Cleanup =>
    }
  }

  lemma FailRowStep(codec: Codec, s: State, m: Msg, failures: int, t: State, x: Worker, ok: bool, text: string,
      u: State)
    requires x.Busy? && x.d.msg == m && x.pc == FailRow && text != ""
    requires t.rows == Begun(s, m) && HalfPut(codec, s, t, m) && Blamed(codec, s, m, failures)
    requires u.rows == RowsAfter(t.rows, x, ok, text) && u.objects == ObjectsAfter(t.objects, x, ok)
    ensures Erred(codec, s, u, m, if ok then failures else failures + 1)
  {
    hide Process;
    if ok {
      assert u.rows == UpdateStatus(s.rows, m.user, Failed, text);
      assert RowFailed(s, u, m);
    }
  }
}
