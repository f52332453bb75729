/** The row store: the jobs table behind one connection, every statement atomic. */
module JobStore {
  import opened Common
  import opened JobTable

  /** time.Now: any later instant. */
  class Clock {
    var now: int

    method Now() returns (t: int)
      modifies this
      ensures t == now >= old(now)
    {
      var passed: nat :| true;
      now := now + passed;
      t := now;
    }
  }

  /** rows with the ids in seen already dealt with. */
  ghost function FailSome(rows: map<JobId, Row>, seen: set<JobId>, now: int): map<JobId, Row> {
    map id | id in rows :: if id in seen then FailRow(rows[id], now) else rows[id]
  }

  lemma FailOne(rows: map<JobId, Row>, seen: set<JobId>, id: JobId, now: int)
    requires id in rows && id !in seen
    ensures FailSome(rows, seen + {id}, now) == FailSome(rows, seen, now)[id := FailRow(rows[id], now)]
  {}

  lemma AllSeen(t: Table, seen: set<JobId>, now: int)
    requires t.Valid() && forall k :: 0 <= k < |t.order| ==> t.order[k] in seen
    ensures Table(FailSome(t.rows, seen, now), t.order) == FailInterrupted(t, now) && FailInterrupted(t, now).Valid()
  {}

  lemma CountNext(t: Table, i: nat)
    requires t.Valid() && i < |t.order|
    ensures CountRunning(t.rows, t.order[..i + 1])
         == CountRunning(t.rows, t.order[..i]) + if t.rows[t.order[i]].status.Running? then 1 else 0
  {
    assert t.order[..i + 1][..i] == t.order[..i];
  }

  class Store {
    var rows: map<JobId, Row>
    var order: seq<JobId>

    ghost function Contents(): Table
      reads this
    {
      Table(rows, order)
    }

    ghost predicate Valid()
      reads this
    {
      Contents().Valid()
    }

    constructor ()
      ensures Valid() && Contents() == EMPTY_TABLE
    {
      rows, order := map[], [];
    }

    /** The primary key refuses a second row with the same id. */
    method Create(j: Row, now: int) returns (stored: Option<Row>)
      requires Valid()
      modifies this
      ensures Valid()
      ensures stored == if j.id in old(rows) then None
                        else Some(j.(params := if j.params == "" then "{}" else j.params,
                                     createdAt := now, updatedAt := now))
      ensures Contents() == if stored.None? then old(Contents()) else Insert(old(Contents()), stored.value)
    {
      if j.id in rows {
        return None;
      }
      var row := j.(createdAt := now, updatedAt := now);
      if row.params == "" {
        row := row.(params := "{}");
      }
      InsertValid(Contents(), row);
      rows, order := rows[row.id := row], order + [row.id];
      return Some(row);
    }

    method Get(id: JobId) returns (r: Option<Row>)
      requires Valid()
      ensures r.Some? <==> id in Contents().rows
      ensures r.Some? ==> r.value == Contents().rows[id] && r.value.id == id
    {
      r := if id in rows then Some(rows[id]) else None;
    }

    method SetStatus(id: JobId, st: Status, error: string, now: int)
      requires Valid()
      modifies this
      ensures Valid() && Contents() == Update(old(Contents()), id, ToStatus(st, error, now))
    {
      if id in rows {
        var r := rows[id];
        r := r.(status := st, error := error, updatedAt := now);
        if st.Running? {
          r := r.(startedAt := Some(now));
        } else if st.Terminal() {
          r := r.(finishedAt := Some(now));
        }
        rows := rows[id := r];
      }
    }

    method SetProgress(id: JobId, percent: real, stage: string, now: int)
      requires Valid()
      modifies this
      ensures Valid() && Contents() == Update(old(Contents()), id, ToProgress(percent, stage, now))
    {
      if id in rows {
        rows := rows[id := rows[id].(progress := percent, stage := stage, updatedAt := now)];
      }
    }

    method SetOutput(id: JobId, path: string, title: string, size: int, now: int)
      requires Valid()
      modifies this
      ensures Valid() && Contents() == Update(old(Contents()), id, ToOutput(path, size, title, now))
    {
      if id in rows {
        var r := rows[id].(outputPath := path, outputSize := size, updatedAt := now);
        if title != "" {
          r := r.(title := title);
        }
        rows := rows[id := r];
      }
    }

    method Delete(id: JobId) returns (found: bool)
      requires Valid()
      modifies this
      ensures Valid() && found == (id in old(rows))
      ensures Contents() == if found then Remove(old(Contents()), id) else old(Contents())
    {
      found := id in rows;
      if found {
        RemoveValid(Contents(), id);
        rows, order := rows - {id}, Without(order, id);
      }
    }

    method FailInterrupted(now: int) returns (n: nat)
      requires Valid()
      modifies this
      ensures Valid() && Contents() == JobTable.FailInterrupted(old(Contents()), now)
      ensures n == CountRunning(old(rows), old(order)) == |RunningIds(old(rows))|
    {
      ghost var t := Contents();
      ghost var seen: set<JobId> := {};
      n := 0;
      var i := 0;
      while i < |order|
        invariant 0 <= i <= |order| && order == t.order
        invariant n == CountRunning(t.rows, t.order[..i])
        invariant forall k :: 0 <= k < |order| ==> (order[k] in seen <==> k < i)
        invariant rows == FailSome(t.rows, seen, now)
      {
        var id := order[i];
        CountNext(t, i);
        FailOne(t.rows, seen, id, now);
        if rows[id].status.Running? {
          n := n + 1;
        }
        rows := rows[id := FailRow(rows[id], now)];
        seen := seen + {id};
        i := i + 1;
      }
      assert t.order[..i] == t.order;
      AllSeen(t, seen, now);
      CountIsSize(t);
    }

    method QueuedIDs() returns (ids: seq<JobId>)
      requires Valid()
      ensures ids == QueuedIds(Contents())
    {
      ids := [];
      var i := 0;
      while i < |order|
        invariant 0 <= i <= |order| && ids == QueuedAmong(rows, order[..i])
      {
        assert order[..i + 1][..i] == order[..i];
        if rows[order[i]].status.Queued? {
          ids := InsertByAge(rows, ids, order[i]);
        }
        i := i + 1;
      }
      assert order[..i] == order;
    }

    method Expired(now: int) returns (found: seq<Row>)
      requires Valid()
      ensures found == ExpiredAmong(Contents().rows, Contents().order, now)
      ensures forall r :: r in found <==>
                r.id in rows && rows[r.id] == r && r.expiresAt.Some? && r.expiresAt.value <= now
                    && r.status != Status.Expired
    {
      found := [];
      var i := 0;
      while i < |order|
        invariant 0 <= i <= |order| && found == ExpiredAmong(rows, order[..i], now)
        invariant forall r :: r in found ==> r.id in rows && rows[r.id] == r && IsExpired(r, now)
        invariant forall k :: 0 <= k < i && IsExpired(rows[order[k]], now) ==> rows[order[k]] in found
      {
        assert order[..i + 1][..i] == order[..i];
        if IsExpired(rows[order[i]], now) {
          found := found + [rows[order[i]]];
        }
        i := i + 1;
      }
      assert order[..i] == order;
    }

    method InputPaths() returns (paths: set<string>)
      requires Valid()
      ensures paths == JobTable.InputPaths(Contents())
      ensures forall p :: p in paths <==> p != "" && exists id :: id in rows && rows[id].inputPath == p
    {
      paths := {};
      var i := 0;
      while i < |order|
        invariant 0 <= i <= |order|
        invariant paths == set k | 0 <= k < i && rows[order[k]].inputPath != "" :: rows[order[k]].inputPath
      {
        var p := rows[order[i]].inputPath;
        if p != "" {
          paths := paths + {p};
        }
        i := i + 1;
      }
    }

    method InputPathShared(path: string, except: JobId) returns (shared: bool)
      requires Valid()
      ensures shared == JobTable.InputPathShared(Contents(), path, except)
    {
      if path == "" {
        return false;
      }
      var i := 0;
      while i < |order|
        invariant 0 <= i <= |order|
        invariant forall k :: 0 <= k < i ==> order[k] == except || rows[order[k]].inputPath != path
      {
        if order[i] != except && rows[order[i]].inputPath == path {
          return true;
        }
        i := i + 1;
      }
      return false;
    }
  }
}
