/**
 The two implementations of the storage interface: the maps of internal/storage/mem.go and
 the tables of internal/storage/postgres.go. Each is a class proved against a step function
 over its whole state; `Simulation` then runs both on the same calls.
 */
module Storage {
  import opened Avatars
  import opened Keys
  import opened Processor
  import opened Wrappers

  /** The record callers exchange with a storage; time 0 is Go's zero time. */
  datatype Avatar = Avatar(user: UserId, row: Row, createdAt: nat, updatedAt: nat)

  /** A call of the storage interface, with the clock reading it takes. */
  datatype Call =
    | Upsert(avatar: Avatar, now: nat)
    | Get(user: UserId)
    | Delete(user: UserId)
    | UpdateStatus(user: UserId, status: Status, error: string, now: nat)
    | MarkReady(user: UserId, original: Key, thumb: Key, info: Info, now: nat)
    | IsProcessed(id: MsgId)
    | MarkProcessed(id: MsgId, now: nat)
    | TotalBytes

  datatype Reply =
    | Done
    | NotFound
    | Found(avatar: Option<Avatar>)
    | Known(processed: bool)
    | Total(bytes: int)

  // ---- Sum over the ready rows ----

  function Contribution(r: Row): int {
    if r.status == Ready then r.info.bytes else 0
  }

  /** The bytes of the ready rows among `users`, added in whatever order. */
  ghost function ReadyBytes(rows: map<UserId, Row>, users: set<UserId>): int
    requires users <= rows.Keys
  {
    if users == {} then 0
    else
      var u :| u in users;
      Contribution(rows[u]) + ReadyBytes(rows, users - {u})
  }

  /** Any user may be added first. */
  lemma {:induction false} ReadyBytesPick(rows: map<UserId, Row>, users: set<UserId>, u: UserId)
    requires users <= rows.Keys && u in users
    ensures ReadyBytes(rows, users) == Contribution(rows[u]) + ReadyBytes(rows, users - {u})
    decreases |users|
  {
    var v :| v in users && ReadyBytes(rows, users) == Contribution(rows[v]) + ReadyBytes(rows, users - {v});
    if v != u {
      ReadyBytesPick(rows, users - {v}, u);
      ReadyBytesPick(rows, users - {u}, v);
      assert users - {v} - {u} == users - {u} - {v};
    }
  }

  function SumInOrder(rows: map<UserId, Row>, order: seq<UserId>): int
    requires forall u :: u in order ==> u in rows
  {
    if order == [] then 0 else Contribution(rows[order[0]]) + SumInOrder(rows, order[1..])
  }

  /** The total does not depend on the order in which a map or a table hands out its rows. */
  lemma {:induction false} TotalIgnoresOrder(rows: map<UserId, Row>, order: seq<UserId>)
    requires forall i, j :: 0 <= i < j < |order| ==> order[i] != order[j]
    requires forall u :: u in order ==> u in rows
    ensures SumInOrder(rows, order) == ReadyBytes(rows, set u | u in order)
  {
    var users := set u | u in order;
    if order != [] {
      TotalIgnoresOrder(rows, order[1..]);
      ReadyBytesPick(rows, users, order[0]);
      assert users - {order[0]} == set u | u in order[1..];
    }
  }

  /** Replacing one row moves the total by the difference of that row's contributions. */
  lemma {:induction false} ReadyBytesOfUpdate(rows: map<UserId, Row>, users: set<UserId>, u: UserId, r: Row)
    requires users <= rows.Keys && u in rows
    ensures ReadyBytes(rows[u := r], users) ==
      ReadyBytes(rows, users) + if u in users then Contribution(r) - Contribution(rows[u]) else 0
    decreases |users|
  {
    if users != {} {
      var v :| v in users;
      ReadyBytesPick(rows, users, v);
      ReadyBytesPick(rows[u := r], users, v);
      ReadyBytesOfUpdate(rows, users - {v}, u, r);
    }
  }

  /** What a row adds to the total: its bytes if it is ready, nothing if not. */
  lemma TotalByRow(rows: map<UserId, Row>, users: set<UserId>, u: UserId)
    requires users <= rows.Keys && u in users
    ensures ReadyBytes(rows, {}) == 0
    ensures ReadyBytes(rows, users) ==
      ReadyBytes(rows, users - {u}) + if rows[u].status == Ready then rows[u].info.bytes else 0
  {
    ReadyBytesPick(rows, users, u);
  }

  // ---- mem.go ----

  datatype Maps = Maps(avatars: map<UserId, Avatar>, processed: map<MsgId, nat>)

  function MemRows(m: Maps): map<UserId, Row> {
    map u | u in m.avatars :: m.avatars[u].row
  }

  ghost function MemStep(m: Maps, c: Call): (Maps, Reply) {
    match c
    case Upsert(a, now) =>
      var created := if a.createdAt == 0 then now else a.createdAt;
      (m.(avatars := m.avatars[a.user := a.(createdAt := created, updatedAt := now)]), Done)
    case Get(u) => (m, Found(if u in m.avatars then Some(m.avatars[u]) else None))
    case Delete(u) =>
      if u !in m.avatars then (m, NotFound) else (m.(avatars := m.avatars - {u}), Done)
    case UpdateStatus(u, status, error, now) =>
      if u !in m.avatars then (m, NotFound)
      else
        var a := m.avatars[u];
        (m.(avatars := m.avatars[u := a.(row := WithStatus(a.row, status, error), updatedAt := now)]), Done)
    case MarkReady(u, original, thumb, info, now) =>
      if u !in m.avatars then (m, NotFound)
      else
        var a := m.avatars[u];
        (m.(avatars := m.avatars[u := a.(row := Finished(a.row, original, thumb, info), updatedAt := now)]), Done)
    case IsProcessed(id) => (m, Known(id in m.processed))
    case MarkProcessed(id, now) => (m.(processed := m.processed[id := now]), Done)
    case TotalBytes => (m, Total(ReadyBytes(MemRows(m), MemRows(m).Keys)))
  }

  class MemStorage {
    var avatars: map<UserId, Avatar>
    var processed: map<MsgId, nat>

    function Contents(): Maps
      reads this
    {
      Maps(avatars, processed)
    }

    constructor ()
      ensures avatars == map[] && processed == map[]
    {
      avatars, processed := map[], map[];
    }

    method UpsertAvatar(avatar: Avatar, now: nat)
      modifies this
      ensures Contents() == MemStep(old(Contents()), Upsert(avatar, now)).0
    {
      var cp := avatar;
      if cp.createdAt == 0 {
        cp := cp.(createdAt := now);
      }
      cp := cp.(updatedAt := now);
      avatars := avatars[avatar.user := cp];
    }

    method GetAvatar(user: UserId) returns (found: Option<Avatar>)
      ensures (Contents(), Found(found)) == MemStep(Contents(), Get(user))
    {
      if user !in avatars {
        return None;
      }
      return Some(avatars[user]);
    }

    method DeleteAvatar(user: UserId) returns (reply: Reply)
      modifies this
      ensures (Contents(), reply) == MemStep(old(Contents()), Delete(user))
    {
      if user !in avatars {
        return NotFound;
      }
      avatars := avatars - {user};
      return Done;
    }

    method UpdateAvatarStatus(user: UserId, status: Status, error: string, now: nat) returns (reply: Reply)
      modifies this
      ensures (Contents(), reply) == MemStep(old(Contents()), UpdateStatus(user, status, error, now))
    {
      if user !in avatars {
        return NotFound;
      }
      var a := avatars[user];
      a := a.(row := a.row.(status := status));
      a := a.(row := a.row.(error := error));
      a := a.(updatedAt := now);
      avatars := avatars[user := a];
      return Done;
    }

    method MarkAvatarReady(user: UserId, original: Key, thumb: Key, info: Info, now: nat) returns (reply: Reply)
      modifies this
      ensures (Contents(), reply) == MemStep(old(Contents()), MarkReady(user, original, thumb, info, now))
    {
      if user !in avatars {
        return NotFound;
      }
      var a := avatars[user];
      a := a.(row := a.row.(status := Ready, originalKey := original, thumbKey := thumb, info := info));
      a := a.(row := a.row.(stagingKey := NoKey, error := ""));
      a := a.(updatedAt := now);
      avatars := avatars[user := a];
      return Done;
    }

    /** The loop ranges over the map in an order the language leaves open. */
    method TotalStorageBytes() returns (total: int)
      ensures (Contents(), Total(total)) == MemStep(Contents(), TotalBytes)
    {
      total := 0;
      ghost var rows := MemRows(Contents());
      var todo := avatars.Keys;
      assert rows.Keys == todo;
      while todo != {}
        invariant todo <= rows.Keys
        invariant total + ReadyBytes(rows, todo) == ReadyBytes(rows, rows.Keys)
        decreases |todo|
      {
        var u :| u in todo;
        ReadyBytesPick(rows, todo, u);
        if avatars[u].row.status == Ready {
          total := total + avatars[u].row.info.bytes;
        }
        todo := todo - {u};
      }
    }

    method IsMessageProcessed(id: MsgId) returns (known: bool)
      ensures (Contents(), Known(known)) == MemStep(Contents(), IsProcessed(id))
    {
      return id in processed;
    }

    method MarkMessageProcessed(id: MsgId, now: nat)
      modifies this
      ensures Contents() == MemStep(old(Contents()), MarkProcessed(id, now)).0
    {
      processed := processed[id := now];
    }
  }

  // ---- postgres.go ----

  /** A row as the table holds it: the error text may be NULL. */
  datatype SqlRow = SqlRow(row: Row, errorMessage: Option<string>, createdAt: nat, updatedAt: nat)

  datatype Tables = Tables(avatars: map<UserId, SqlRow>, processed: map<MsgId, nat>)

  /** `nullString`: the empty text is stored as NULL. */
  function NullString(s: string): Option<string> {
    if s == "" then None else Some(s)
  }

  /** The row a SELECT returns, with NULL coalesced to the empty text. */
  function Coalesced(r: SqlRow): Row {
    r.row.(error := match r.errorMessage case None => "" case Some(s) => s)
  }

  function SqlRows(t: Tables): map<UserId, Row> {
    map u | u in t.avatars :: Coalesced(t.avatars[u])
  }

  /** The statements of postgres.go on the two tables. */
  ghost function SqlStep(t: Tables, c: Call): (Tables, Reply) {
    match c
    case Upsert(a, now) =>
      var inserted := SqlRow(a.row, NullString(a.row.error), if a.createdAt == 0 then now else a.createdAt, now);
      var kept := if a.user in t.avatars then inserted.(createdAt := t.avatars[a.user].createdAt) else inserted;
      (t.(avatars := t.avatars[a.user := kept]), Done)
    case Get(u) =>
      (t, Found(if u !in t.avatars then None
                else Some(Avatar(u, Coalesced(t.avatars[u]), t.avatars[u].createdAt, t.avatars[u].updatedAt))))
    case Delete(u) =>
      if u in t.avatars then (t.(avatars := t.avatars - {u}), Done) else (t, NotFound)
    case UpdateStatus(u, status, error, now) =>
      if u !in t.avatars then (t, Done)
      else
        var r := t.avatars[u];
        var updated := r.(row := r.row.(status := status), errorMessage := NullString(error), updatedAt := now);
        (t.(avatars := t.avatars[u := updated]), Done)
    case MarkReady(u, original, thumb, info, now) =>
      if u !in t.avatars then (t, Done)
      else
        var r := t.avatars[u];
        var row :=
          r.row.(status := Ready, originalKey := original, thumbKey := thumb, info := info, stagingKey := NoKey);
        (t.(avatars := t.avatars[u := r.(row := row, errorMessage := None, updatedAt := now)]), Done)
    case IsProcessed(id) => (t, Known(id in t.processed))
    case MarkProcessed(id, now) =>
      (t.(processed := if id in t.processed then t.processed else t.processed[id := now]), Done)
    case TotalBytes => (t, Total(ReadyBytes(SqlRows(t), SqlRows(t).Keys)))
  }

  lemma TotalInOrder(t: Tables, order: seq<UserId>)
    requires forall i, j :: 0 <= i < j < |order| ==> order[i] != order[j]
    requires forall u :: u in order <==> u in t.avatars
    ensures SqlStep(t, TotalBytes) == (t, Total(SumInOrder(SqlRows(t), order)))
  {
    hide ReadyBytes;
    TotalIgnoresOrder(SqlRows(t), order);
    assert SqlRows(t).Keys == set u | u in order;
  }

  // ---- times ----

  /** The call changes the row of `u`. */
  predicate Changes(c: Call, u: UserId) {
    match c
    case Upsert(a, _) => a.user == u
    case UpdateStatus(v, _, _, _) => v == u
    case MarkReady(v, _, _, _, _) => v == u
    case _ => false
  }

  function ClockOf(c: Call): nat {
    match c
    case Upsert(_, now) => now
    case UpdateStatus(_, _, _, now) => now
    case MarkReady(_, _, _, _, now) => now
    case MarkProcessed(_, now) => now
    case _ => 0
  }

  /** The creation time that an upsert brings: the caller's, or the clock if that is zero. */
  function Stamp(a: Avatar, now: nat): nat {
    if a.createdAt == 0 then now else a.createdAt
  }

  predicate UpsertOf(c: Call, u: UserId) {
    c.Upsert? && c.avatar.user == u
  }

  /** What a SELECT tells of a row's times is what the table holds. */
  lemma GetTellsTimes(t: Tables, u: UserId)
    requires u in t.avatars
    ensures var found := SqlStep(t, Get(u)).1;
      && found.Found? && found.avatar.Some? && found.avatar.value.user == u
      && found.avatar.value.createdAt == t.avatars[u].createdAt &&
         found.avatar.value.updatedAt == t.avatars[u].updatedAt
  {
  }

  /**
   The tables keep the creation time of a row as long as there is one, upserts included; a new
   row has the time its upsert brings. The update time is that of the last call that changed the
   row, and the time of a processed id is that of its first mark.
   */
  lemma SqlTimes(t: Tables, c: Call)
    ensures var v := SqlStep(t, c).0;
      && (forall u :: u in t.avatars && u in v.avatars ==> v.avatars[u].createdAt == t.avatars[u].createdAt)
      && (forall u :: u in v.avatars && u !in t.avatars ==>
            UpsertOf(c, u) && v.avatars[u].createdAt == Stamp(c.avatar, c.now))
      && (forall u :: u in v.avatars && Changes(c, u) ==> v.avatars[u].updatedAt == ClockOf(c))
      && (forall u :: u in v.avatars && !Changes(c, u) ==> u in t.avatars && v.avatars[u] == t.avatars[u])
      && (forall id :: id in v.processed ==>
            v.processed[id] == if id in t.processed then t.processed[id] else ClockOf(c))
  {
    hide ReadyBytes, SqlRows;
  }

  /** The maps do not: every upsert sets the creation time anew, and every mark the time of its id. */
  lemma MemTimes(m: Maps, c: Call)
    ensures var n := MemStep(m, c).0;
      && (forall u :: u in n.avatars && UpsertOf(c, u) ==> n.avatars[u].createdAt == Stamp(c.avatar, c.now))
      && (forall u :: u in n.avatars && !UpsertOf(c, u) ==>
            u in m.avatars && n.avatars[u].createdAt == m.avatars[u].createdAt)
      && (forall u :: u in n.avatars && Changes(c, u) ==> n.avatars[u].updatedAt == ClockOf(c))
      && (forall u :: u in n.avatars && !Changes(c, u) ==> u in m.avatars && n.avatars[u] == m.avatars[u])
      && (c.MarkProcessed? ==> c.id in n.processed && n.processed[c.id] == c.now)
  {
    hide ReadyBytes, MemRows;
  }

  /** Call `i` is an upsert that creates the row of `u`, at time `created`, and the row is there from then on. */
  ghost predicate CreatedAt(t: Tables, calls: seq<Call>, u: UserId, i: nat, created: nat) {
    && i < |calls| && UpsertOf(calls[i], u) && u !in RunSql(t, calls[..i]).avatars
    && created == Stamp(calls[i].avatar, calls[i].now)
    && forall j :: i < j <= |calls| ==> u in RunSql(t, calls[..j]).avatars
  }

  /** The user had a row all along. */
  ghost predicate AlwaysThere(t: Tables, calls: seq<Call>, u: UserId) {
    forall j :: 0 <= j <= |calls| ==> u in RunSql(t, calls[..j]).avatars
  }

  lemma StillCreatedThen(t: Tables, calls: seq<Call>, u: UserId, i: nat, created: nat)
    requires calls != [] && u in RunSql(t, calls).avatars && CreatedAt(t, calls[..|calls| - 1], u, i, created)
    ensures CreatedAt(t, calls, u, i, created)
  {
    hide RunSql, Stamp;
    var n := |calls| - 1;
    assert calls[..n][..i] == calls[..i];
    forall j | i < j <= |calls| ensures u in RunSql(t, calls[..j]).avatars {
      assert if j <= n then calls[..n][..j] == calls[..j] else calls[..j] == calls;
    }
  }

  lemma StillThere(t: Tables, calls: seq<Call>, u: UserId)
    requires calls != [] && u in RunSql(t, calls).avatars && AlwaysThere(t, calls[..|calls| - 1], u)
    ensures AlwaysThere(t, calls, u)
  {
    hide RunSql;
    var n := |calls| - 1;
    forall j | 0 <= j <= |calls| ensures u in RunSql(t, calls[..j]).avatars {
      assert if j <= n then calls[..n][..j] == calls[..j] else calls[..j] == calls;
    }
  }

  lemma CreatedJustNow(t: Tables, calls: seq<Call>, u: UserId)
    requires calls != [] && u in RunSql(t, calls).avatars && u !in RunSql(t, calls[..|calls| - 1]).avatars
    requires UpsertOf(calls[|calls| - 1], u)
    ensures CreatedAt(t, calls, u, |calls| - 1, Stamp(calls[|calls| - 1].avatar, calls[|calls| - 1].now))
  {
    hide RunSql, Stamp;
    assert calls[..|calls|] == calls;
  }

  /** Over any calls, a row's creation time in the tables is that of the upsert since which the user has had a row. */
  lemma {:induction false} CreatedByFirstUpsert(t: Tables, calls: seq<Call>, u: UserId)
    requires u in RunSql(t, calls).avatars
    ensures var created := RunSql(t, calls).avatars[u].createdAt;
      || (u in t.avatars && created == t.avatars[u].createdAt && AlwaysThere(t, calls, u))
      || exists i: nat :: CreatedAt(t, calls, u, i, created)
  {
    hide SqlStep, Stamp, CreatedAt, AlwaysThere;
    if calls == [] {
      AllAlongSoFar(t, u);
    } else {
      var n := |calls| - 1;
      var before := RunSql(t, calls[..n]);
      SqlTimes(before, calls[n]);
      if u !in before.avatars {
        CreatedJustNow(t, calls, u);
      } else {
        CreatedByFirstUpsert(t, calls[..n], u);
        var created := before.avatars[u].createdAt;
        if i: nat :| CreatedAt(t, calls[..n], u, i, created) {
          StillCreatedThen(t, calls, u, i, created);
        } else {
          StillThere(t, calls, u);
        }
      }
    }
  }

  lemma AllAlongSoFar(t: Tables, u: UserId)
    requires u in t.avatars
    ensures AlwaysThere(t, [], u)
  {
  }

  /** And in memory that of the user's last upsert. */
  lemma {:induction false} CreatedByLastUpsert(m: Maps, calls: seq<Call>, u: UserId)
    requires u in RunMem(m, calls).avatars
    ensures var created := RunMem(m, calls).avatars[u].createdAt;
      || (u in m.avatars && created == m.avatars[u].createdAt && forall j :: 0 <= j < |calls| ==>
         !UpsertOf(calls[j], u))
      || exists i :: 0 <= i < |calls| && UpsertOf(calls[i], u) && created == Stamp(calls[i].avatar, calls[i].now)
           && forall j :: i < j < |calls| ==> !UpsertOf(calls[j], u)
  {
    hide MemStep;
    if calls != [] {
      var n := |calls| - 1;
      var before := RunMem(m, calls[..n]);
      MemTimes(before, calls[n]);
      if UpsertOf(calls[n], u) {
        assert RunMem(m, calls).avatars[u].createdAt == Stamp(calls[n].avatar, calls[n].now);
      } else {
        CreatedByLastUpsert(m, calls[..n], u);
        assert forall j :: 0 <= j < n ==> calls[..n][j] == calls[j];
      }
    }
  }

  // ---- Simulation ----

  /** Same users with the same visible rows and update times, and the same processed ids. */
  ghost predicate Related(m: Maps, t: Tables) {
    && m.avatars.Keys == t.avatars.Keys
    && (forall u :: u in m.avatars ==>
          m.avatars[u].row == Coalesced(t.avatars[u]) && m.avatars[u].updatedAt == t.avatars[u].updatedAt)
    && (forall u :: u in m.avatars ==> m.avatars[u].user == u)
    && m.processed.Keys == t.processed.Keys
  }

  /** The calls whose replies the two storages do not agree on: status changes of a missing row. */
  predicate UpdatesMissing(m: Maps, c: Call) {
    (c.UpdateStatus? || c.MarkReady?) && c.user !in m.avatars
  }

  /** Replies agree up to the creation time, which an upsert keeps in SQL and resets in memory. */
  predicate SameReply(a: Reply, b: Reply) {
    match (a, b)
    case (Found(Some(x)), Found(Some(y))) => x.user == y.user && x.row == y.row && x.updatedAt == y.updatedAt
    case _ => a == b
  }

  lemma SimulatesStep(m: Maps, t: Tables, c: Call)
    requires Related(m, t)
    ensures Related(MemStep(m, c).0, SqlStep(t, c).0)
    ensures SameReply(MemStep(m, c).1, SqlStep(t, c).1) <==> !UpdatesMissing(m, c)
    ensures UpdatesMissing(m, c) ==> MemStep(m, c) == (m, NotFound) && SqlStep(t, c) == (t, Done)
  {
    hide ReadyBytes, MemRows, SqlRows, Related;
    RelatedUsers(m, t);
    match c {
      case TotalBytes => SameVisibleRows(m, t);
      case Upsert(a, now) => UpsertSimulates(m, t, a, now);
      case MarkReady(u, original, thumb, info, now) => MarkReadySimulates(m, t, u, original, thumb, info, now);
      case UpdateStatus(u, status, error, now) => UpdateStatusSimulates(m, t, u, status, error, now);
      case Delete(u) => DeleteSimulates(m, t, u);
      case MarkProcessed(id, now) => MarkProcessedSimulates(m, t, id, now);
      case _ =>
    }
  }

  lemma RelatedUsers(m: Maps, t: Tables)
    requires Related(m, t)
    ensures m.avatars.Keys == t.avatars.Keys && m.processed.Keys == t.processed.Keys
    ensures forall u :: u in m.avatars ==>
      && m.avatars[u].user == u && m.avatars[u].row == Coalesced(t.avatars[u])
      && m.avatars[u].updatedAt == t.avatars[u].updatedAt
  {
    hide Coalesced;
  }

  lemma SameVisibleRows(m: Maps, t: Tables)
    requires Related(m, t)
    ensures MemRows(m) == SqlRows(t)
  {
    hide Coalesced;
  }

  lemma UpdateStatusSimulates(m: Maps, t: Tables, u: UserId, status: Status, error: string, now: nat)
    requires Related(m, t)
    ensures Related(MemStep(m, UpdateStatus(u, status, error, now)).0,
      SqlStep(t, UpdateStatus(u, status, error, now)).0)
  {
    hide ReadyBytes, MemRows, SqlRows;
  }

  lemma DeleteSimulates(m: Maps, t: Tables, u: UserId)
    requires Related(m, t)
    ensures Related(MemStep(m, Delete(u)).0, SqlStep(t, Delete(u)).0)
  {
    hide ReadyBytes, MemRows, SqlRows, Coalesced;
  }

  lemma MarkProcessedSimulates(m: Maps, t: Tables, id: MsgId, now: nat)
    requires Related(m, t)
    ensures Related(MemStep(m, MarkProcessed(id, now)).0, SqlStep(t, MarkProcessed(id, now)).0)
  {
    hide ReadyBytes, MemRows, SqlRows, Coalesced;
  }

  lemma MarkReadySimulates(m: Maps, t: Tables, u: UserId, original: Key, thumb: Key, info: Info, now: nat)
    requires Related(m, t)
    ensures Related(MemStep(m, MarkReady(u, original, thumb, info, now)).0,
      SqlStep(t, MarkReady(u, original, thumb, info, now)).0)
  {
    hide ReadyBytes, MemRows, SqlRows;
  }

  lemma UpsertSimulates(m: Maps, t: Tables, a: Avatar, now: nat)
    requires Related(m, t)
    ensures Related(MemStep(m, Upsert(a, now)).0, SqlStep(t, Upsert(a, now)).0)
  {
    hide ReadyBytes, MemRows, SqlRows;
  }

  ghost function RunMem(m: Maps, calls: seq<Call>): Maps {
    if calls == [] then m else MemStep(RunMem(m, calls[..|calls| - 1]), calls[|calls| - 1]).0
  }

  ghost function RunSql(t: Tables, calls: seq<Call>): Tables {
    if calls == [] then t else SqlStep(RunSql(t, calls[..|calls| - 1]), calls[|calls| - 1]).0
  }

  /**
   Over every sequence of calls the two storages stay related: their visible rows, processed
   ids and update times are equal throughout.
   */
  lemma {:induction false} Simulation(m: Maps, t: Tables, calls: seq<Call>)
    requires Related(m, t)
    ensures Related(RunMem(m, calls), RunSql(t, calls))
  {
    hide MemStep, SqlStep, Related;
    if calls != [] {
      var n := |calls| - 1;
      Simulation(m, t, calls[..n]);
      SimulatesStep(RunMem(m, calls[..n]), RunSql(t, calls[..n]), calls[n]);
    }
  }

  /**
   After any calls, the two storages answer the next call alike, byte totals included, unless
   it changes the status of a row that is missing; then memory reports it and SQL does not.
   */
  lemma {:induction false} SimulationReplies(m: Maps, t: Tables, calls: seq<Call>, next: Call)
    requires Related(m, t)
    ensures var a, b := RunMem(m, calls), RunSql(t, calls);
      && (SameReply(MemStep(a, next).1, SqlStep(b, next).1) <==> !UpdatesMissing(a, next))
      && (UpdatesMissing(a, next) ==> MemStep(a, next).1 == NotFound && SqlStep(b, next).1 == Done)
  {
    hide MemStep, SqlStep, Related;
    Simulation(m, t, calls);
    SimulatesStep(RunMem(m, calls), RunSql(t, calls), next);
  }

  /**
   The SQL storage. `up` says whether the database answers this call; if not, the statement
   has no effect and an error comes back.
   */
  class PostgresStorage {
    var avatars: map<UserId, SqlRow>
    var processed: map<MsgId, nat>

    function Contents(): Tables
      reads this
    {
      Tables(avatars, processed)
    }

    constructor ()
      ensures avatars == map[] && processed == map[]
    {
      avatars, processed := map[], map[];
    }

    /** INSERT ... ON CONFLICT (user_id) DO UPDATE, which leaves created_at of an old row alone. */
    method UpsertAvatar(avatar: Avatar, now: nat, up: bool) returns (ok: bool)
      modifies this
      ensures ok == up
      ensures Contents() == if up then SqlStep(old(Contents()), Upsert(avatar, now)).0 else old(Contents())
    {
      if !up {
        return false;
      }
      var created := if avatar.createdAt == 0 then now else avatar.createdAt;
      if avatar.user in avatars {
        created := avatars[avatar.user].createdAt;
      }
      avatars := avatars[avatar.user := SqlRow(avatar.row, NullString(avatar.row.error), created, now)];
      return true;
    }

    method GetAvatar(user: UserId, up: bool) returns (ok: bool, found: Option<Avatar>)
      ensures ok == up
      ensures up ==> (Contents(), Found(found)) == SqlStep(Contents(), Get(user))
    {
      if !up || user !in avatars {
        return up, None;
      }
      var r := avatars[user];
      return true, Some(Avatar(user, Coalesced(r), r.createdAt, r.updatedAt));
    }

    method DeleteAvatar(user: UserId, up: bool) returns (ok: bool, reply: Reply)
      modifies this
      ensures ok == up
      ensures if up then (Contents(), reply) == SqlStep(old(Contents()), Delete(user))
        else Contents() == old(Contents())
    {
      if !up {
        return false, NotFound;
      }
      var affected := if user in avatars then 1 else 0;
      avatars := avatars - {user};
      assert affected == 0 ==> avatars == old(avatars);
      return true, if affected == 0 then NotFound else Done;
    }

    method UpdateAvatarStatus(user: UserId, status: Status, error: string, now: nat, up: bool) returns (ok: bool)
      modifies this
      ensures ok == up
      ensures Contents() ==
        if up then SqlStep(old(Contents()), UpdateStatus(user, status, error, now)).0 else old(Contents())
    {
      if up && user in avatars {
        var r := avatars[user];
        avatars := avatars[user := SqlRow(r.row.(status := status), NullString(error), r.createdAt, now)];
      }
      return up;
    }

    method MarkAvatarReady(user: UserId, original: Key, thumb: Key, info: Info, now: nat, up: bool) returns (ok: bool)
      modifies this
      ensures ok == up
      ensures Contents() ==
        if up then SqlStep(old(Contents()), MarkReady(user, original, thumb, info, now)).0 else old(Contents())
    {
      if up && user in avatars {
        var r := avatars[user];
        var row :=
          r.row.(status := Ready, originalKey := original, thumbKey := thumb, info := info, stagingKey := NoKey);
        avatars := avatars[user := SqlRow(row, None, r.createdAt, now)];
      }
      return up;
    }

    method IsMessageProcessed(id: MsgId, up: bool) returns (ok: bool, known: bool)
      ensures ok == up
      ensures up ==> (Contents(), Known(known)) == SqlStep(Contents(), IsProcessed(id))
    {
      return up, id in processed;
    }

    /** INSERT ... ON CONFLICT (message_id) DO NOTHING. */
    method MarkMessageProcessed(id: MsgId, now: nat, up: bool) returns (ok: bool)
      modifies this
      ensures ok == up
      ensures Contents() == if up then SqlStep(old(Contents()), MarkProcessed(id, now)).0 else old(Contents())
    {
      if up && id !in processed {
        processed := processed[id := now];
      }
      return up;
    }

    /** SELECT COALESCE(SUM(size_bytes), 0) ... WHERE status = 'ready', whatever order the rows come in. */
    method TotalStorageBytes(order: seq<UserId>, up: bool) returns (ok: bool, total: int)
      requires forall i, j :: 0 <= i < j < |order| ==> order[i] != order[j]
      requires forall u :: u in order <==> u in avatars
      ensures ok == up
      ensures up ==> (Contents(), Total(total)) == SqlStep(Contents(), TotalBytes)
    {
      hide SqlStep, ReadyBytes;
      if !up {
        return false, 0;
      }
      ok, total := true, 0;
      ghost var rows := SqlRows(Contents());
      var i := |order|;
      while i > 0
        invariant 0 <= i <= |order|
        invariant total == SumInOrder(rows, order[i..])
      {
        i := i - 1;
        assert order[i..][0] == order[i] && order[i..][1..] == order[i + 1..];
        if avatars[order[i]].row.status == Ready {
          total := total + avatars[order[i]].row.info.bytes;
        }
      }
      assert order[0..] == order;
      TotalInOrder(Contents(), order);
    }
  }
}
