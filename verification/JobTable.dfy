/** The jobs table: one row per job, updated in place by id, in insertion order. */
module JobTable {
  import opened Common

  // Job ids are 12 random bytes; only equality of ids matters, and fresh ids are distinct.
  type JobId = nat

  datatype Kind = Download | Convert | Compress | Image | Edit

  datatype Status = Queued | Running | Done | Failed | Canceled | Expired {
    predicate Terminal() {
      Done? || Failed? || Canceled? || Expired?
    }

    /** queued < running < terminal */
    function Rank(): nat {
      if Queued? then 0 else if Running? then 1 else 2
    }
  }

  const QUEUE_FULL := "job queue is full"
  const INTERRUPTED := "interrupted by restart"

  /** One row; times are Unix milliseconds, NULL is None. */
  datatype Row = Row(
    id: JobId,
    kind: Kind,
    title: string,
    source: string,
    params: string,
    inputPath: string,
    outputPath: string,
    outputSize: int,
    status: Status,
    progress: real,
    stage: string,
    error: string,
    createdAt: int,
    updatedAt: int,
    startedAt: Option<int>,
    finishedAt: Option<int>,
    expiresAt: Option<int>)

  /** The three UPDATE statements that address one row by id. None looks at the old status. */
  datatype Patch =
    | ToStatus(status: Status, error: string, now: int)
    | ToProgress(percent: real, stage: string, now: int)
    | ToOutput(path: string, size: int, title: string, now: int)

  function Apply(r: Row, p: Patch): Row {
    match p
    case ToStatus(st, err, now) =>
      r.(status := st, error := err, updatedAt := now,
         startedAt := if st.Running? then Some(now) else r.startedAt,
         finishedAt := if st.Terminal() then Some(now) else r.finishedAt)
    case ToProgress(pct, stage, now) =>
      r.(progress := pct, stage := stage, updatedAt := now)
    case ToOutput(path, size, title, now) =>
      r.(outputPath := path, outputSize := size,
         title := if title == "" then r.title else title, updatedAt := now)
  }

  /** order lists the ids by rowid, that is, by insertion. */
  datatype Table = Table(rows: map<JobId, Row>, order: seq<JobId>) {
    ghost predicate Valid() {
      && Distinct(order)
      && (forall id :: id in order <==> id in rows)
      && (forall id :: id in rows ==> rows[id].id == id)
    }
  }

  const EMPTY_TABLE := Table(map[], [])

  type Jobs = t: Table | t.Valid() witness EMPTY_TABLE

  function Insert(t: Table, r: Row): Table {
    Table(t.rows[r.id := r], t.order + [r.id])
  }

  function Update(t: Table, id: JobId, p: Patch): Table {
    if id in t.rows then t.(rows := t.rows[id := Apply(t.rows[id], p)]) else t
  }

  function Remove(t: Table, id: JobId): Table {
    Table(t.rows - {id}, Without(t.order, id))
  }

  /** The startup UPDATE. It sets no finished_at. */
  function FailRow(r: Row, now: int): Row {
    if r.status.Running? then r.(status := Failed, error := INTERRUPTED, updatedAt := now) else r
  }

  function FailInterrupted(t: Table, now: int): Table {
    t.(rows := map id | id in t.rows :: FailRow(t.rows[id], now))
  }

  function CountRunning(rows: map<JobId, Row>, order: seq<JobId>): nat
    requires forall x :: x in order ==> x in rows
  {
    if order == [] then 0
    else
      CountRunning(rows, order[..|order| - 1])
      + if rows[order[|order| - 1]].status.Running? then 1 else 0
  }

  function RunningIds(rows: map<JobId, Row>): set<JobId> {
    set id | id in rows && rows[id].status.Running?
  }

  function RunningAmong(rows: map<JobId, Row>, order: seq<JobId>): set<JobId> {
    set id | id in order && id in rows && rows[id].status.Running?
  }

  lemma {:induction false} CountRunningCounts(rows: map<JobId, Row>, order: seq<JobId>)
    requires Distinct(order) && forall x :: x in order ==> x in rows
    ensures CountRunning(rows, order) == |RunningAmong(rows, order)|
  {
    if order == [] {
      assert RunningAmong(rows, order) == {};
    } else {
      var front, last := order[..|order| - 1], order[|order| - 1];
      assert order == front + [last] && last !in front;
      CountRunningCounts(rows, front);
      assert RunningAmong(rows, order) ==
        RunningAmong(rows, front) + if rows[last].status.Running? then {last} else {};
    }
  }

  lemma CountIsSize(t: Table)
    requires t.Valid()
    ensures CountRunning(t.rows, t.order) == |RunningIds(t.rows)|
  {
    CountRunningCounts(t.rows, t.order);
    assert RunningAmong(t.rows, t.order) == RunningIds(t.rows);
  }

  lemma InsertValid(t: Table, r: Row)
    requires t.Valid() && r.id !in t.rows
    ensures Insert(t, r).Valid()
  {}

  lemma RemoveValid(t: Table, id: JobId)
    requires t.Valid()
    ensures Remove(t, id).Valid()
  {}

  lemma FailInterruptedValid(t: Table, now: int)
    requires t.Valid()
    ensures FailInterrupted(t, now).Valid()
  {}

  // ---- SELECT id ... WHERE status = 'queued' ORDER BY created_at, rowid -------------------

  /** id goes after every id of ids whose row is at least as old. */
  function InsertByAge(rows: map<JobId, Row>, ids: seq<JobId>, id: JobId): (r: seq<JobId>)
    requires id in rows && forall x :: x in ids ==> x in rows
    ensures forall x :: x in r <==> x in ids || x == id
  {
    if ids == [] then [id]
    else if rows[ids[|ids| - 1]].createdAt <= rows[id].createdAt then ids + [id]
    else InsertByAge(rows, ids[..|ids| - 1], id) + [ids[|ids| - 1]]
  }

  function QueuedAmong(rows: map<JobId, Row>, order: seq<JobId>): (r: seq<JobId>)
    requires forall x :: x in order ==> x in rows
    ensures forall x :: x in r <==> x in order && rows[x].status.Queued?
  {
    if order == [] then []
    else
      var ids := QueuedAmong(rows, order[..|order| - 1]);
      var id := order[|order| - 1];
      if rows[id].status.Queued? then InsertByAge(rows, ids, id) else ids
  }

  function QueuedIds(t: Table): seq<JobId>
    requires t.Valid()
  {
    QueuedAmong(t.rows, t.order)
  }

  /** a sorts strictly before b by (created_at, rowid). */
  ghost predicate Older(rows: map<JobId, Row>, order: seq<JobId>, a: JobId, b: JobId)
    requires a in rows && b in rows
  {
    exists i, j :: 0 <= i < |order| && 0 <= j < |order| && order[i] == a && order[j] == b
      && (rows[a].createdAt < rows[b].createdAt
          || (rows[a].createdAt == rows[b].createdAt && i < j))
  }

  ghost predicate AgeSorted(rows: map<JobId, Row>, order: seq<JobId>, ids: seq<JobId>)
    requires forall x :: x in ids ==> x in rows
  {
    forall i, j :: 0 <= i < j < |ids| ==> Older(rows, order, ids[i], ids[j])
  }

  lemma {:induction false} InsertByAgeSorted(rows: map<JobId, Row>, order: seq<JobId>, ids: seq<JobId>, id: JobId)
    requires order != [] && order[|order| - 1] == id && id in rows
    requires forall x :: x in ids ==> x in rows && x in order[..|order| - 1]
    requires AgeSorted(rows, order, ids)
    ensures AgeSorted(rows, order, InsertByAge(rows, ids, id))
  {
    var r := InsertByAge(rows, ids, id);
    var n := |order| - 1;
    forall x | x in ids
      ensures if rows[x].createdAt <= rows[id].createdAt then Older(rows, order, x, id) else Older(rows, order, id, x)
    {
      var i :| 0 <= i < n && order[i] == x;
      assert order[i] == x && order[n] == id;
    }
    if ids == [] {
    } else if rows[ids[|ids| - 1]].createdAt <= rows[id].createdAt {
      forall i, j | 0 <= i < j < |r|
        ensures Older(rows, order, r[i], r[j])
      {
        if j == |ids| {
          assert i < |ids| - 1 ==> Older(rows, order, ids[i], ids[|ids| - 1]);
          assert rows[ids[i]].createdAt <= rows[id].createdAt;
          assert ids[i] in ids;
        }
      }
    } else {
      var front, last := ids[..|ids| - 1], ids[|ids| - 1];
      assert AgeSorted(rows, order, front);
      InsertByAgeSorted(rows, order, front, id);
      var r' := InsertByAge(rows, front, id);
      forall i, j | 0 <= i < j < |r|
        ensures Older(rows, order, r[i], r[j])
      {
        if j == |r'| {
          assert r[i] in r';
          if r[i] != id {
            var k :| 0 <= k < |front| && front[k] == r[i];
            assert Older(rows, order, ids[k], ids[|ids| - 1]);
          } else {
            assert last in ids;
          }
        } else {
          assert r[i] == r'[i] && r[j] == r'[j];
        }
      }
    }
  }

  lemma {:induction false} QueuedAmongSorted(rows: map<JobId, Row>, order: seq<JobId>)
    requires Distinct(order) && forall x :: x in order ==> x in rows
    ensures AgeSorted(rows, order, QueuedAmong(rows, order))
  {
    if order != [] {
      var front, id := order[..|order| - 1], order[|order| - 1];
      QueuedAmongSorted(rows, front);
      var ids := QueuedAmong(rows, front);
      forall i, j | 0 <= i < j < |ids|
        ensures Older(rows, order, ids[i], ids[j])
      {
        assert Older(rows, front, ids[i], ids[j]);
        var a, b :| 0 <= a < |front| && 0 <= b < |front| && front[a] == ids[i] && front[b] == ids[j]
          && (rows[ids[i]].createdAt < rows[ids[j]].createdAt
              || (rows[ids[i]].createdAt == rows[ids[j]].createdAt && a < b));
        assert order[a] == ids[i] && order[b] == ids[j];
      }
      if rows[id].status.Queued? {
        InsertByAgeSorted(rows, order, ids, id);
      }
    }
  }

  /** The query returns every queued id once, strictly ordered by (created_at, rowid). */
  lemma QueuedIdsMeaning(t: Table)
    requires t.Valid()
    ensures forall id :: id in QueuedIds(t) <==> id in t.rows && t.rows[id].status.Queued?
    ensures AgeSorted(t.rows, t.order, QueuedIds(t))
    ensures Distinct(QueuedIds(t))
  {
    QueuedAmongSorted(t.rows, t.order);
    var ids := QueuedIds(t);
    forall i, j | 0 <= i < j < |ids|
      ensures ids[i] != ids[j]
    {
      assert Older(t.rows, t.order, ids[i], ids[j]);
    }
  }

  // ---- The retention queries --------------------------------------------------------------

  predicate IsExpired(r: Row, now: int) {
    r.expiresAt.Some? && r.expiresAt.value <= now && r.status != Expired
  }

  function ExpiredAmong(rows: map<JobId, Row>, order: seq<JobId>, now: int): (r: seq<Row>)
    requires forall x :: x in order ==> x in rows
  {
    if order == [] then []
    else
      var front := ExpiredAmong(rows, order[..|order| - 1], now);
      var row := rows[order[|order| - 1]];
      if IsExpired(row, now) then front + [row] else front
  }

  /** input_path of every row that has one. */
  function InputPaths(t: Table): set<string> {
    set id | id in t.rows && t.rows[id].inputPath != "" :: t.rows[id].inputPath
  }

  predicate InputPathShared(t: Table, path: string, except: JobId) {
    path != "" && exists id :: id in t.rows && id != except && t.rows[id].inputPath == path
  }

  /** SetStatus has no guard: on its own it would turn a finished job into a running one. */
  lemma SetStatusIsUnguarded(t: Table, id: JobId, now: int)
    requires id in t.rows && t.rows[id].status.Terminal()
    ensures var t' := Update(t, id, ToStatus(Running, "", now));
            t'.rows[id].status.Rank() < t.rows[id].status.Rank()
  {}
}
