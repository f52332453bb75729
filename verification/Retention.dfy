/** The expiry sweep: rows past their retention go, with the files nobody else needs. */
module Retention {
  import opened Common
  import opened JobTable
  import opened JobStore

  datatype File = File(mtime: int, regular: bool, size: int)

  class Disk {
    var files: map<string, File>

    /** os.Remove; a missing file is not an error to any caller here. */
    method Unlink(path: string)
      modifies this
      ensures files == old(files) - {path}
    {
      files := files - {path};
    }
  }

  /** list holds exactly the rows of t that are past their expiry, once each, in any order. */
  ghost predicate ListsExpired(t: Table, now: int, list: seq<Row>) {
    && (forall r :: r in list <==> r.id in t.rows && t.rows[r.id] == r && IsExpired(r, now))
    && DistinctIds(list)
  }

  ghost predicate DistinctIds(list: seq<Row>) {
    forall i, j :: 0 <= i < j < |list| ==> list[i].id != list[j].id
  }

  lemma {:induction false} ExpiredAmongLists(rows: map<JobId, Row>, order: seq<JobId>, now: int)
    requires Distinct(order) && forall x :: x in order ==> x in rows && rows[x].id == x
    ensures forall r :: r in ExpiredAmong(rows, order, now) <==> r.id in order && rows[r.id] == r && IsExpired(r, now)
    ensures DistinctIds(ExpiredAmong(rows, order, now))
  {
    if order != [] {
      var front, last := order[..|order| - 1], order[|order| - 1];
      ExpiredAmongLists(rows, front, now);
      assert order == front + [last];
      assert last !in front;
    }
  }

  lemma ExpiredQueryLists(t: Table, now: int)
    requires t.Valid()
    ensures ListsExpired(t, now, ExpiredAmong(t.rows, t.order, now))
    ensures forall r :: r in ExpiredAmong(t.rows, t.order, now) <==>
              r.id in t.rows && t.rows[r.id] == r && r.expiresAt.Some? && r.expiresAt.value <= now
                  && r.status != Expired
  {
    ExpiredAmongLists(t.rows, t.order, now);
  }

  // ---- What a sweep removes ----------------------------------------------------------------

  function GoneIds(list: seq<Row>): set<JobId> {
    set r | r in list :: r.id
  }

  function Outputs(list: seq<Row>): set<string> {
    set r | r in list :: r.outputPath
  }

  /** Inputs named by a row of list and by no row that stays. */
  ghost function OrphanedInputs(t: Table, list: seq<Row>): set<string> {
    set r | r in list && r.inputPath != ""
        && (forall id :: id in t.rows && id !in GoneIds(list) ==> t.rows[id].inputPath != r.inputPath) :: r.inputPath
  }

  ghost predicate Swept(t: Table, files: map<string, File>, list: seq<Row>, t': Table, files': map<string, File>) {
    && t'.rows == t.rows - GoneIds(list)
    && t'.Valid()
    && files' == files - (Outputs(list) - {""}) - OrphanedInputs(t, list)
  }

  lemma MinusMore(m: map<string, File>, a: set<string>, b: set<string>, c: set<string>, d: set<string>)
    ensures m - a - b - c - d == m - (a + c) - (b + d)
  {}

  function OneOutput(j: Row): set<string> {
    if j.outputPath == "" then {} else {j.outputPath}
  }

  function OneInput(t: Table, j: Row): set<string> {
    if j.inputPath == "" || InputPathShared(t, j.inputPath, j.id) then {} else {j.inputPath}
  }

  /** Handling one more row: its output goes, and its input if no remaining row names it. */
  lemma SweepOneMore(t: Table, files: map<string, File>, done: seq<Row>, j: Row, t1: Table, files1: map<string, File>)
    requires t.Valid() && Swept(t, files, done, t1, files1)
    requires j.id in t.rows && t.rows[j.id] == j && j.id !in GoneIds(done)
    ensures j.id in t1.rows && Swept(t, files, done + [j], Remove(t1, j.id), files1 - OneOutput(j) - OneInput(t1, j))
  {
    RemoveValid(t1, j.id);
    assert GoneIds(done + [j]) == GoneIds(done) + {j.id};
    OrphansGrow(t, done, j, t1, OneInput(t1, j));
    OutputsGrow(done, j);
    MinusMore(files, Outputs(done) - {""}, OrphanedInputs(t, done), OneOutput(j), OneInput(t1, j));
  }

  lemma OutputsGrow(done: seq<Row>, j: Row)
    ensures Outputs(done + [j]) - {""} == (Outputs(done) - {""}) + OneOutput(j)
  {
    assert Outputs(done + [j]) == Outputs(done) + {j.outputPath};
  }

  lemma OrphansGrow(t: Table, done: seq<Row>, j: Row, t1: Table, more: set<string>)
    requires t1.rows == t.rows - GoneIds(done) && t.Valid()
    requires j.id in t.rows && t.rows[j.id] == j && j.id !in GoneIds(done)
    requires more == if j.inputPath == "" || InputPathShared(t1, j.inputPath, j.id) then {} else {j.inputPath}
    ensures OrphanedInputs(t, done + [j]) == OrphanedInputs(t, done) + more
  {
    assert GoneIds(done + [j]) == GoneIds(done) + {j.id};
    forall p | p in OrphanedInputs(t, done)
      ensures p in OrphanedInputs(t, done + [j])
    {
      var r :| r in done && r.inputPath == p && p != "";
      assert r in done + [j];
    }
    forall p | p in OrphanedInputs(t, done + [j]) && p !in OrphanedInputs(t, done)
      ensures p in more
    {
      assert p == j.inputPath by {
        var r :| r in done + [j] && r.inputPath == p;
        if r in done {
          var id :| id in t.rows && id !in GoneIds(done) && t.rows[id].inputPath == p;
          assert id == j.id;
        }
      }
    }
    if more != {} {
      assert j in done + [j];
      forall id | id in t.rows && id !in GoneIds(done + [j])
        ensures t.rows[id].inputPath != j.inputPath
      {
        assert id in t1.rows && t1.rows[id] == t.rows[id];
      }
      assert j.inputPath in OrphanedInputs(t, done + [j]);
    }
  }

  lemma NotYetGone(list: seq<Row>, i: nat)
    requires DistinctIds(list) && i < |list|
    ensures list[i].id !in GoneIds(list[..i])
  {}

  class Sweeper {
    const store: Store
    const disk: Disk
    var published: seq<JobId>

    constructor (store: Store, disk: Disk)
      ensures this.store == store && this.disk == disk && published == []
    {
      this.store, this.disk := store, disk;
      published := [];
    }

    method RemoveInput(j: Row)
      requires store.Valid()
      modifies disk
      ensures disk.files == old(disk.files) - OneInput(store.Contents(), j)
    {
      if j.inputPath == "" {
        return;
      }
      var shared := store.InputPathShared(j.inputPath, j.id);
      if shared {
        return;
      }
      disk.Unlink(j.inputPath);
    }

    /** One row of a sweep: unlink its output, then its input unless shared, then delete it. */
    method SweepRow(j: Row) returns (found: bool)
      requires store.Valid()
      modifies this, store, disk
      ensures store.Valid() && found == (j.id in old(store.rows))
      ensures disk.files == old(disk.files) - OneOutput(j) - OneInput(old(store.Contents()), j)
      ensures found ==> store.Contents() == Remove(old(store.Contents()), j.id)
      ensures published == if found then old(published) + [j.id] else old(published)
    {
      if j.outputPath != "" {
        disk.Unlink(j.outputPath);
      }
      RemoveInput(j);
      found := store.Delete(j.id);
      if found {
        published := published + [j.id];
      }
    }

    /** The job pass of a sweep, for whatever order the query answered in. */
    method SweepJobs(expired: seq<Row>, ghost now: int) returns (deleted: nat)
      requires store.Valid() && ListsExpired(store.Contents(), now, expired)
      modifies this, store, disk
      ensures store.Valid() && deleted == |expired|
      ensures Swept(old(store.Contents()), old(disk.files), expired, store.Contents(), disk.files)
      ensures published == old(published) + seq(|expired|, i requires 0 <= i < |expired| => expired[i].id)
    {
      ghost var t, files, before := store.Contents(), disk.files, published;
      deleted := 0;
      var i := 0;
      while i < |expired|
        invariant 0 <= i <= |expired| && deleted == i && store.Valid()
        invariant Swept(t, files, expired[..i], store.Contents(), disk.files)
        invariant published == before + seq(i, k requires 0 <= k < i => expired[k].id)
      {
        var j := expired[i];
        assert j in expired;
        NotYetGone(expired, i);
        SweepOneMore(t, files, expired[..i], j, store.Contents(), disk.files);
        SliceSnoc(expired, 0, i);
        var found := SweepRow(j);
        if found {
          deleted := deleted + 1;
        }
        i := i + 1;
      }
      assert expired[..i] == expired;
    }

    /** The query and the pass over its answer. */
    method SweepExpired(now: int) returns (deleted: nat)
      requires store.Valid()
      modifies this, store, disk
      ensures store.Valid()
      ensures var list := ExpiredAmong(old(store.rows), old(store.order), now);
              deleted == |list| && Swept(old(store.Contents()), old(disk.files), list, store.Contents(), disk.files)
    {
      var expired := store.Expired(now);
      ExpiredQueryLists(store.Contents(), now);
      deleted := SweepJobs(expired, now);
    }
  }

  /** What a sweep amounts to, whatever the order of its list: exactly the expired rows go; with
      outputs that are nobody's input, every surviving row keeps its input; and an input all of
      whose rows expired is gone. */
  lemma SweepMeaning(t: Table, files: map<string, File>, now: int, list: seq<Row>, t': Table, files': map<string, File>)
    requires t.Valid() && ListsExpired(t, now, list) && Swept(t, files, list, t', files')
    ensures forall id :: id in t'.rows ==> id in t.rows && t'.rows[id] == t.rows[id]
    ensures forall id :: id in t.rows ==>
              var r := t.rows[id];
              id !in t'.rows <==> r.expiresAt.Some? && r.expiresAt.value <= now && r.status != Expired
    ensures forall id :: id in t'.rows && t'.rows[id].inputPath in files - (Outputs(list) + {""}) ==>
              t'.rows[id].inputPath in files' && files'[t'.rows[id].inputPath] == files[t'.rows[id].inputPath]
    ensures forall id :: id in t.rows && t.rows[id].inputPath != "" && AllUsersExpired(t, t.rows[id].inputPath, now) ==>
              t.rows[id].inputPath !in files'
    ensures forall r :: r in list && r.outputPath != "" ==> r.outputPath !in files'
    ensures forall p :: p in files && p !in files' ==>
              exists r :: r in list && (r.outputPath == p || r.inputPath == p)
  {
    forall id | id in t.rows
      ensures id in GoneIds(list) <==> IsExpired(t.rows[id], now)
    {
      if id in GoneIds(list) {
        var r :| r in list && r.id == id;
      }
    }
    forall id | id in t.rows && t.rows[id].inputPath != "" && AllUsersExpired(t, t.rows[id].inputPath, now)
      ensures t.rows[id].inputPath in OrphanedInputs(t, list)
    {
      assert t.rows[id] in list;
    }
  }

  ghost predicate AllUsersExpired(t: Table, path: string, now: int) {
    forall x :: x in t.rows && t.rows[x].inputPath == path ==> IsExpired(t.rows[x], now)
  }
}
