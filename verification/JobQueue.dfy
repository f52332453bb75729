/** The in-process side of the queue that runs single-threaded: recovery at startup, the
    registry of running jobs, and the throttle on progress reports. The concurrent side is
    in JobProtocol. */
module JobQueue {
  import opened Common
  import opened JobTable
  import opened JobStore

  const DEFAULT_DEPTH: nat := 256

  class Queue {
    const store: Store
    const depth: nat
    var ch: seq<JobId>                // the buffered channel
    var running: map<JobId, nat>      // cancel function of each registered execution
    var canceled: set<nat>
    var published: seq<Row>           // status events, each with the job's row

    ghost predicate Valid()
      reads this
    {
      0 < depth && |ch| <= depth
    }

    constructor (store: Store, depth: int)
      ensures Valid() && this.store == store && ch == [] && running == map[] && canceled == {}
      ensures published == [] && this.depth == if depth <= 0 then DEFAULT_DEPTH else depth
    {
      this.store := store;
      this.depth := if depth <= 0 then DEFAULT_DEPTH else depth;
      ch, running, canceled, published := [], map[], {}, [];
    }

    /** The non-blocking send both Submit and Resume use. */
    method TrySend(id: JobId) returns (sent: bool)
      requires Valid()
      modifies this`ch
      ensures Valid() && sent == (|old(ch)| < depth)
      ensures ch == if sent then old(ch) + [id] else old(ch)
    {
      sent := |ch| < depth;
      if sent {
        ch := ch + [id];
      }
    }

    method Cancel(id: JobId) returns (ok: bool)
      modifies this`canceled
      ensures ok == (id in running)
      ensures canceled == if ok then old(canceled) + {running[id]} else old(canceled)
    {
      ok := id in running;
      if ok {
        canceled := canceled + {running[id]};
      }
    }

    /** The oldest queued rows fill the channel; every other one is failed, and a status event
        with the failed row published for it, in order of age. */
    method Resume(clock: Clock) returns (n: nat)
      requires Valid() && store.Valid() && ch == []
      modifies this`ch, this`published, store, clock
      ensures Valid() && store.Valid() && old(clock.now) <= clock.now
      ensures var ids := QueuedIds(old(store.Contents()));
              n == Min(depth, |ids|) && ch == ids[..n]
              && ResumedTable(old(store.Contents()), store.Contents(), ids[n..], old(clock.now), clock.now)
              && Told(old(published), store.Contents(), ids[n..], published)
    {
      var ids := store.QueuedIDs();
      ghost var dropped;
      n, dropped := ResumeAll(ids, clock);
      AllDivided(ids, n, ch, dropped);
    }

    /** The loop of Resume. */
    method ResumeAll(ids: seq<JobId>, clock: Clock) returns (n: nat, ghost dropped: seq<JobId>)
      requires Valid() && store.Valid() && ch == [] && ids == QueuedIds(store.Contents())
      modifies this`ch, this`published, store, clock
      ensures Valid() && store.Valid() && old(clock.now) <= clock.now
      ensures n == Min(depth, |ids|) && Divided(ids, n, |ids|, ch, dropped)
      ensures ResumedTable(old(store.Contents()), store.Contents(), dropped, old(clock.now), clock.now)
      ensures Told(old(published), store.Contents(), dropped, published)
    {
      ghost var t, start, before := store.Contents(), clock.now, published;
      n, dropped := 0, [];
      var i: nat := 0;
      while i < |ids|
        invariant i <= |ids|
        invariant Valid() && store.Valid() && start <= clock.now
        invariant n == Min(depth, i) && Divided(ids, n, i, ch, dropped)
        invariant ResumedTable(t, store.Contents(), dropped, start, clock.now)
        invariant Told(before, store.Contents(), dropped, published)
      {
        DivideNext(t, ids, n, i, ch, dropped);
        var sent;
        sent, dropped := ResumeOne(ids[i], clock, t, dropped, before, start);
        n := if sent then n + 1 else n;
        i := i + 1;
      }
    }

    method ResumeOne(id: JobId, clock: Clock, ghost t: Table, ghost dropped: seq<JobId>, ghost before: seq<Row>,
                     ghost start: int)
      returns (sent: bool, ghost dropped': seq<JobId>)
      requires Valid() && store.Valid() && id in t.rows && id !in dropped && start <= clock.now
      requires ResumedTable(t, store.Contents(), dropped, start, clock.now)
      requires Told(before, store.Contents(), dropped, published)
      modifies this`ch, this`published, store, clock
      ensures Valid() && store.Valid() && start <= clock.now
      ensures sent == (|old(ch)| < depth) && ch == if sent then old(ch) + [id] else old(ch)
      ensures dropped' == if sent then dropped else dropped + [id]
      ensures ResumedTable(t, store.Contents(), dropped', start, clock.now)
      ensures Told(before, store.Contents(), dropped', published)
    {
      sent := TrySend(id);
      dropped' := dropped;
      if !sent {
        FailForRoom(id, clock, t, dropped, before, start);
        dropped' := dropped + [id];
      }
    }

    /** One more queued row that finds no room. */
    method FailForRoom(id: JobId, clock: Clock, ghost t: Table, ghost dropped: seq<JobId>, ghost before: seq<Row>,
                       ghost start: int)
      requires store.Valid() && id in t.rows && id !in dropped && start <= clock.now
      requires ResumedTable(t, store.Contents(), dropped, start, clock.now)
      requires Told(before, store.Contents(), dropped, published)
      modifies store, clock, this`published
      ensures store.Valid() && old(clock.now) <= clock.now
      ensures ResumedTable(t, store.Contents(), dropped + [id], start, clock.now)
      ensures Told(before, store.Contents(), dropped + [id], published)
    {
      DropOne(t, store.Contents(), dropped, id, start, clock.now);
      TellOne(before, store.Contents(), dropped, published, id);
      var now := clock.Now();
      store.SetStatus(id, Failed, QUEUE_FULL, now);
      PublishStatus(id);
    }

    method PublishStatus(id: JobId)
      requires store.Valid()
      modifies this`published
      ensures published == old(published) + if id in store.rows then [store.rows[id]] else []
    {
      var row := store.Get(id);
      if row.Some? {
        published := published + [row.value];
      }
    }
  }

  /** The first i of ids: n in the channel, the others dropped. */
  ghost predicate Divided(ids: seq<JobId>, n: nat, i: nat, ch: seq<JobId>, dropped: seq<JobId>) {
    && n <= i <= |ids| && |ch| == n && |dropped| == i - n
    && (forall k :: 0 <= k < n ==> ch[k] == ids[k])
    && (forall k :: n <= k < i ==> dropped[k - n] == ids[k])
  }

  lemma AllDivided(ids: seq<JobId>, n: nat, ch: seq<JobId>, dropped: seq<JobId>)
    requires Divided(ids, n, |ids|, ch, dropped)
    ensures ch == ids[..n] && dropped == ids[n..]
  {
    forall k | 0 <= k < |dropped|
      ensures dropped[k] == ids[n..][k]
    {
      assert dropped[(n + k) - n] == ids[n + k];
    }
  }

  lemma DivideNext(t: Table, ids: seq<JobId>, n: nat, i: nat, ch: seq<JobId>, dropped: seq<JobId>)
    requires t.Valid() && ids == QueuedIds(t) && Divided(ids, n, i, ch, dropped) && i < |ids|
    ensures ids[i] in t.rows && ids[i] !in dropped && Divided(ids, n, i + 1, ch, dropped + [ids[i]])
    ensures n == i ==> Divided(ids, n + 1, i + 1, ch + [ids[i]], dropped)
  {
    QueuedIdsMeaning(t);
    assert ids[i] in ids;
    forall k | 0 <= k < |dropped|
      ensures dropped[k] != ids[i]
    {
      assert dropped[(n + k) - n] == ids[n + k];
    }
  }

  /** Since before, exactly the rows of ids have been told, in their order. */
  ghost predicate Told(before: seq<Row>, t: Table, ids: seq<JobId>, after: seq<Row>) {
    && |after| == |before| + |ids| && after[..|before|] == before
    && forall i :: 0 <= i < |ids| ==> ids[i] in t.rows && after[|before| + i] == t.rows[ids[i]]
  }

  lemma TellOne(before: seq<Row>, t: Table, ids: seq<JobId>, after: seq<Row>, id: JobId)
    requires Told(before, t, ids, after) && id !in ids && id in t.rows
    ensures forall p {:trigger Update(t, id, p)} ::
              Told(before, Update(t, id, p), ids + [id], after + [Update(t, id, p).rows[id]])
  {}

  /** t' is t with exactly the dropped rows failed for want of room, at some time in [from, to]. */
  ghost predicate ResumedTable(t: Table, t': Table, dropped: seq<JobId>, from: int, to: int) {
    && t'.order == t.order && t'.rows.Keys == t.rows.Keys
    && forall id :: id in t.rows ==>
      if id in dropped then
        from <= t'.rows[id].updatedAt <= to
        && t'.rows[id] == Apply(t.rows[id], ToStatus(Failed, QUEUE_FULL, t'.rows[id].updatedAt))
      else t'.rows[id] == t.rows[id]
  }

  lemma DropOne(t: Table, t': Table, dropped: seq<JobId>, id: JobId, from: int, to: int)
    requires ResumedTable(t, t', dropped, from, to) && from <= to && id !in dropped
    ensures forall now {:trigger ToStatus(Failed, QUEUE_FULL, now)} :: to <= now ==>
      ResumedTable(t, Update(t', id, ToStatus(Failed, QUEUE_FULL, now)), dropped + [id], from, now)
  {
    assert forall x :: x in dropped + [id] <==> x in dropped || x == id;
  }

  // ---- Recovery from any store a crash can leave ------------------------------------------

  lemma {:induction false} FailInterruptedKeepsQueue(rows: map<JobId, Row>, order: seq<JobId>, now: int)
    requires forall x :: x in order ==> x in rows
    ensures QueuedAmong(map id | id in rows :: FailRow(rows[id], now), order) == QueuedAmong(rows, order)
  {
    if order != [] {
      FailInterruptedKeepsQueue(rows, order[..|order| - 1], now);
      InsertByAgeSameAges(rows, map id | id in rows :: FailRow(rows[id], now),
                          QueuedAmong(rows, order[..|order| - 1]), order[|order| - 1]);
    }
  }

  lemma {:induction false} InsertByAgeSameAges(rows: map<JobId, Row>, rows': map<JobId, Row>, ids: seq<JobId>,
                                               id: JobId)
    requires rows.Keys == rows'.Keys && forall x :: x in rows ==> rows[x].createdAt == rows'[x].createdAt
    requires id in rows && forall x :: x in ids ==> x in rows
    ensures InsertByAge(rows, ids, id) == InsertByAge(rows', ids, id)
  {
    if ids != [] {
      assert ids[|ids| - 1] in ids;
      InsertByAgeSameAges(rows, rows', ids[..|ids| - 1], id);
    }
  }

  /** What one restart makes of a store: t before, t' and the channel ch after. */
  ghost predicate Recovery(t: Table, depth: nat, t': Table, ch: seq<JobId>, from: int, to: int)
    requires t.Valid()
  {
    var ids := QueuedIds(t);
    var n := Min(depth, |ids|);
    && ch == ids[..n]
    && t'.order == t.order && t'.rows.Keys == t.rows.Keys
    && forall id :: id in t.rows ==>
      var r, r' := t.rows[id], t'.rows[id];
      if r.status.Running? then
        from <= r'.updatedAt <= to && r' == FailRow(r, r'.updatedAt)
      else if id in ids[n..] then
        from <= r'.updatedAt <= to && r' == Apply(r, ToStatus(Failed, QUEUE_FULL, r'.updatedAt))
      else r' == r
  }

  /** Startup: FailInterrupted, then Resume into an empty channel. No assumption on the store
      beyond its primary key: any crash may have come before. */
  method Restart(store: Store, depth: int, clock: Clock) returns (q: Queue)
    requires store.Valid()
    modifies store, clock
    ensures fresh(q) && q.Valid() && q.store == store && store.Valid() && q.running == map[]
    ensures Recovery(old(store.Contents()), q.depth, store.Contents(), q.ch, old(clock.now), clock.now)
  {
    ghost var t := store.Contents();
    var now := clock.Now();
    var _ := store.FailInterrupted(now);
    q := new Queue(store, depth);
    ghost var at := clock.now;
    FailInterruptedValid(t, now);
    var _ := q.Resume(clock);
    RecoveryFromResume(t, now, q.depth, store.Contents(), q.ch, old(clock.now), at, clock.now);
  }

  lemma RecoveryFromResume(t: Table, now: int, depth: nat, t': Table, ch: seq<JobId>, from: int, at: int, to: int)
    requires t.Valid() && FailInterrupted(t, now).Valid() && from <= now == at <= to
    requires var ids := QueuedIds(FailInterrupted(t, now));
             var n := Min(depth, |ids|);
             ch == ids[..n] && ResumedTable(FailInterrupted(t, now), t', ids[n..], at, to)
    ensures Recovery(t, depth, t', ch, from, to)
  {
    FailInterruptedKeepsQueue(t.rows, t.order, now);
    QueuedIdsMeaning(t);
    var ids := QueuedIds(t);
    assert forall id :: id in ids[Min(depth, |ids|)..] ==> id in ids;
  }

  /** Nothing is left running; what is still queued is exactly what is in the channel; a row
      that was terminal is untouched; and the only rows that end without a finish time are
      those cut off by the restart or already without one. */
  lemma RecoveryMeaning(t: Table, depth: nat, t': Table, ch: seq<JobId>, from: int, to: int)
    requires t.Valid() && Recovery(t, depth, t', ch, from, to)
    ensures forall id :: id in t'.rows ==> !t'.rows[id].status.Running?
    ensures forall id :: (id in t'.rows && t'.rows[id].status.Queued?) <==> id in ch
    ensures Distinct(ch) && AgeSorted(t.rows, t.order, ch)
    ensures forall a, b :: a in ch && b in t.rows && t.rows[b].status.Queued? && b !in ch ==>
        Older(t.rows, t.order, a, b)
    ensures forall id :: id in t.rows && t.rows[id].status.Terminal() ==> t'.rows[id] == t.rows[id]
    ensures forall id :: id in t.rows && t.rows[id].status.Running? ==>
              var r' := t'.rows[id];
              r' == t.rows[id].(status := Failed, error := "interrupted by restart", updatedAt := r'.updatedAt)
    ensures forall id :: id in t.rows && t.rows[id].status.Queued? && id !in ch ==>
              var r' := t'.rows[id];
              r' == t.rows[id].(status := Failed, error := "job queue is full", updatedAt := r'.updatedAt,
                                finishedAt := Some(r'.updatedAt))
    ensures forall id :: id in ch ==> t'.rows[id] == t.rows[id]
    ensures forall id :: id in t'.rows && t'.rows[id].status.Terminal() && t'.rows[id].finishedAt.None? ==>
              t'.rows[id].error == INTERRUPTED || t'.rows[id] == t.rows[id]
    ensures |ch| < depth ==> forall id :: id in t.rows && t.rows[id].status.Queued? ==> id in ch
  {
    QueuedIdsMeaning(t);
    var ids := QueuedIds(t);
    var n := Min(depth, |ids|);
    assert ids == ids[..n] + ids[n..];
    forall id | id in ch
      ensures id !in ids[n..]
    {
    }
    forall a, b | a in ch && b in t.rows && t.rows[b].status.Queued? && b !in ch
      ensures Older(t.rows, t.order, a, b)
    {
      var i :| 0 <= i < n && ids[i] == a;
      var j :| 0 <= j < |ids| && ids[j] == b;
      assert n <= j;
    }
  }

  // ---- The throttle on progress reports ----------------------------------------------------

  const DB_INTERVAL: int := 2_000_000_000   // nanoseconds
  const BUS_INTERVAL: int := 400_000_000

  class Emitter {
    var lastDB: Option<int>
    var lastBus: Option<int>
    ghost var dbTimes: seq<int>
    ghost var busTimes: seq<int>          // reports below 100 percent that were published
    ghost var latest: Option<int>

    ghost predicate Valid()
      reads this
    {
      && (lastDB.None? <==> dbTimes == []) && (lastDB.Some? ==> dbTimes[|dbTimes| - 1] == lastDB.value)
      && (lastBus.None? ==> busTimes == [])
      && (lastBus.Some? && busTimes != [] ==> busTimes[|busTimes| - 1] <= lastBus.value)
      && (forall i :: 0 < i < |dbTimes| ==> dbTimes[i] - dbTimes[i - 1] >= DB_INTERVAL)
      && (forall i :: 0 < i < |busTimes| ==> busTimes[i] - busTimes[i - 1] >= BUS_INTERVAL)
      && (lastDB.Some? ==> latest.Some? && lastDB.value <= latest.value)
      && (lastBus.Some? ==> latest.Some? && lastBus.value <= latest.value)
    }

    constructor ()
      ensures Valid() && dbTimes == [] && busTimes == [] && latest == None
    {
      lastDB, lastBus, dbTimes, busTimes, latest := None, None, [], [], None;
    }

    /** A report is stored unless one was stored less than two seconds ago, and published
        unless it is below 100 percent and one was published less than 400 ms ago. */
    method Emit(now: int, percent: real) returns (toDB: bool, toBus: bool)
      requires Valid() && (latest.Some? ==> latest.value <= now)
      modifies this
      ensures Valid() && latest == Some(now)
      ensures toDB == (old(lastDB).None? || now - old(lastDB).value >= DB_INTERVAL)
      ensures toBus == (old(lastBus).None? || now - old(lastBus).value >= BUS_INTERVAL || percent >= 100.0)
      ensures dbTimes == if toDB then old(dbTimes) + [now] else old(dbTimes)
      ensures busTimes == if toBus && percent < 100.0 then old(busTimes) + [now] else old(busTimes)
    {
      toDB := lastDB.None? || now - lastDB.value >= DB_INTERVAL;
      if toDB {
        lastDB := Some(now);
        dbTimes := dbTimes + [now];
      }
      toBus := lastBus.None? || now - lastBus.value >= BUS_INTERVAL || percent >= 100.0;
      if toBus {
        lastBus := Some(now);
        if percent < 100.0 {
          busTimes := busTimes + [now];
        }
      }
      latest := Some(now);
    }
  }
}
