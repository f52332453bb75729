/** The orphan collector: uploads no job refers to are unlinked once they are old enough. */
module OrphanCollector {
  import opened Common
  import opened JobTable
  import opened JobStore
  import opened Retention

  /** filepath.Base of a stored path: what follows the last separator. */
  function Base(p: string): string {
    if p == "" then ""
    else if p[|p| - 1] == '/' then ""
    else Base(p[..|p| - 1]) + [p[|p| - 1]]
  }

  predicate Referenced(refs: set<string>, path: string) {
    path in refs || exists p :: p in refs && Base(p) == Base(path)
  }

  /** Nobody refers to the file and it was last written at or before the cutoff. */
  predicate Collectable(f: File, path: string, refs: set<string>, cutoff: int) {
    f.regular && f.mtime <= cutoff && !Referenced(refs, path)
  }

  /** Last written within the grace period. */
  predicate Young(f: File, now: int, grace: int) {
    f.mtime > now - grace
  }

  // ---- One undisturbed sweep ---------------------------------------------------------------

  /** files without the collectable ones among entries. */
  ghost function Kept(files: map<string, File>, entries: seq<string>, refs: set<string>, cutoff: int)
    : map<string, File>
  {
    map p | p in files && !(p in entries && Collectable(files[p], p, refs, cutoff)) :: files[p]
  }

  /** sweepUploads with nothing else going on. entries are the paths ReadDir lists. */
  method SweepUploads(disk: Disk, store: Store, clock: Clock, entries: seq<string>, grace: int) returns (removed: nat)
    requires store.Valid() && Distinct(entries) && (forall p :: p in entries ==> p in disk.files)
    modifies disk, clock
    ensures old(clock.now) <= clock.now
    ensures disk.files == if grace <= 0 then old(disk.files)
                          else Kept(old(disk.files), entries, InputPaths(store.Contents()), clock.now - grace)
    ensures |old(disk.files)| == |disk.files| + removed
    ensures forall p :: p in old(disk.files) && Young(old(disk.files)[p], clock.now, grace) ==>
              p in disk.files && disk.files[p] == old(disk.files)[p]
  {
    removed := 0;
    if grace <= 0 {
      return;
    }
    var refs := store.InputPaths();
    var now := clock.Now();
    var cutoff := now - grace;
    ghost var before := disk.files;
    var i := 0;
    assert Kept(before, entries[..0], refs, cutoff) == before;
    while i < |entries|
      invariant 0 <= i <= |entries| && clock.now == now
      invariant disk.files == Kept(before, entries[..i], refs, cutoff)
      invariant |before| == |disk.files| + removed
    {
      var path := entries[i];
      KeptNext(before, entries, i, refs, cutoff);
      if Collectable(disk.files[path], path, refs, cutoff) {
        RemoveOne(disk.files, path);
        disk.Unlink(path);
        removed := removed + 1;
      }
      i := i + 1;
    }
    assert entries[..i] == entries;
  }

  lemma KeptNext(files: map<string, File>, entries: seq<string>, i: nat, refs: set<string>, cutoff: int)
    requires Distinct(entries) && i < |entries| && entries[i] in files
    ensures var done := Kept(files, entries[..i], refs, cutoff);
            && entries[i] in done && done[entries[i]] == files[entries[i]]
            && Kept(files, entries[..i + 1], refs, cutoff)
            == if Collectable(files[entries[i]], entries[i], refs, cutoff) then done - {entries[i]} else done
  {
    assert entries[i] !in entries[..i];
    assert entries[..i + 1] == entries[..i] + [entries[i]];
  }

  lemma RemoveOne<V>(m: map<string, V>, k: string)
    requires k in m
    ensures |m - {k}| == |m| - 1
  {
    assert (m - {k}).Keys == m.Keys - {k};
  }

  /** The base name: what is left of a path after its last separator. */
  lemma {:induction false} BaseMeaning(p: string)
    ensures |Base(p)| <= |p| && Base(p) == p[|p| - |Base(p)|..] && '/' !in Base(p)
    ensures |Base(p)| < |p| ==> p[|p| - |Base(p)| - 1] == '/'
  {
    if p == "" || p[|p| - 1] == '/' {
      assert p[|p|..] == "";
    } else {
      var front, last := p[..|p| - 1], p[|p| - 1];
      BaseMeaning(front);
      var n := |front| - |Base(front)|;
      assert Base(p) == front[n..] + [last] == p[n..];
    }
  }

  // ---- Both passes -------------------------------------------------------------------------

  predicate InDir(dir: string, path: string) {
    |path| > |dir| && path[..|dir|] == dir && path[|dir|] == '/' && '/' !in path[|dir| + 1..]
  }

  /** The directory listing, in any order. */
  method ListDir(disk: Disk, dir: string) returns (entries: seq<string>)
    ensures Distinct(entries) && forall p :: p in entries <==> p in disk.files && InDir(dir, p)
  {
    var rest := set p | p in disk.files && InDir(dir, p);
    ghost var all := rest;
    entries := [];
    while rest != {}
      invariant Distinct(entries) && rest <= all && forall p :: p in entries <==> p in all - rest
    {
      var p :| p in rest;
      assert p !in entries;
      entries, rest := entries + [p], rest - {p};
    }
  }

  /** What the collector leaves of the files. */
  ghost function Collected(files: map<string, File>, dir: string, refs: set<string>, cutoff: int): map<string, File> {
    map p | p in files && !(InDir(dir, p) && Collectable(files[p], p, refs, cutoff)) :: files[p]
  }

  method SweepDir(disk: Disk, store: Store, clock: Clock, dir: string, grace: int)
    requires store.Valid()
    modifies disk, clock
    ensures old(clock.now) <= clock.now
    ensures disk.files == if grace <= 0 then old(disk.files)
                          else Collected(old(disk.files), dir, InputPaths(store.Contents()), clock.now - grace)
    ensures forall p :: p in old(disk.files) && Young(old(disk.files)[p], clock.now, grace) ==>
              p in disk.files && disk.files[p] == old(disk.files)[p]
  {
    var entries := ListDir(disk, dir);
    ghost var before := disk.files;
    var _ := SweepUploads(disk, store, clock, entries, grace);
    ghost var refs, cutoff := InputPaths(store.Contents()), clock.now - grace;
    assert Kept(before, entries, refs, cutoff) == Collected(before, dir, refs, cutoff);
  }

  /** SweepOnce, undisturbed: the job pass, then the upload pass over what that left. */
  method SweepOnce(sweeper: Sweeper, clock: Clock, dir: string, grace: int)
    returns (deleted: nat, ghost now: int, ghost swept: map<string, File>)
    requires sweeper.store.Valid()
    modifies sweeper, sweeper.store, sweeper.disk, clock
    ensures sweeper.store.Valid() && old(clock.now) <= now <= clock.now
    ensures var list := ExpiredAmong(old(sweeper.store.rows), old(sweeper.store.order), now);
            deleted == |list| && Swept(old(sweeper.store.Contents()), old(sweeper.disk.files), list,
                                       sweeper.store.Contents(), swept)
    ensures sweeper.disk.files == if grace <= 0 then swept
                                  else Collected(swept, dir, InputPaths(sweeper.store.Contents()), clock.now - grace)
    ensures forall p :: p in swept && Young(swept[p], clock.now, grace) ==>
              p in sweeper.disk.files && sweeper.disk.files[p] == swept[p]
  {
    var at := clock.Now();
    now := at;
    deleted := sweeper.SweepExpired(at);
    swept := sweeper.disk.files;
    SweepDir(sweeper.disk, sweeper.store, clock, dir, grace);
  }

  /** The row's input is path, or a file of the same name elsewhere. */
  predicate NamesBase(r: Row, path: string) {
    r.inputPath != "" && (r.inputPath == path || Base(r.inputPath) == Base(path))
  }

  /** Both passes together: a row that stays keeps its input, as long as no expired job wrote its
      output there; of the uploads the job pass has left, those written after the cutoff all stay, and
      of the older ones exactly those that such a row refers to; inputs the job pass has freed go in
      the same sweep. */
  lemma SweepOnceMeaning(t: Table, files: map<string, File>, now: int, list: seq<Row>, t': Table,
                         swept: map<string, File>, dir: string, cutoff: int)
    requires t.Valid() && ListsExpired(t, now, list) && Swept(t, files, list, t', swept)
    ensures var files' := Collected(swept, dir, InputPaths(t'), cutoff);
            && (forall id :: id in t'.rows && t'.rows[id].inputPath in files - (Outputs(list) + {""}) ==>
                  t'.rows[id].inputPath in files')
            && (forall p :: p in files' ==> p in files && files'[p] == files[p])
            && (forall p :: p in swept && (swept[p].mtime > cutoff || !swept[p].regular || !InDir(dir, p)) ==>
                p in files')
            && (forall p :: p in files' && InDir(dir, p) && files[p].regular && files[p].mtime <= cutoff ==>
                  exists id :: id in t'.rows && NamesBase(t'.rows[id], p))
            && (forall p, id :: p in swept && id in t'.rows && NamesBase(t'.rows[id], p) ==> p in files')
  {
    forall id | id in t'.rows && t'.rows[id].inputPath != ""
      ensures t'.rows[id].inputPath in InputPaths(t')
      ensures t'.rows[id].inputPath !in OrphanedInputs(t, list)
    {
      assert id in t.rows && id !in GoneIds(list);
    }
  }

  // ---- The sweep among uploads, submissions and deletions ----------------------------------

  /** grace is the collector's; delta bounds the time between its snapshot and its clock reading;
      a job must be created before its upload's mtime + grace - delta + slack. */
  datatype Params = Params(grace: int, delta: int, slack: int)

  datatype Ref = Ref(path: string, created: int)

  datatype Phase =
    | Idle
    | Listed(entries: set<string>)
    | Snapped(entries: set<string>, refs: set<string>, at: int)
    | Unlinking(entries: set<string>, refs: set<string>, at: int, cutoff: int)
    | Checked(entries: set<string>, refs: set<string>, at: int, cutoff: int, path: string)

  datatype State = State(
    now: int,
    uploaded: map<string, int>,       // every upload ever stored, with its mtime
    files: set<string>,
    rows: map<JobId, Ref>,
    used: set<JobId>,
    phase: Phase,
    collected: set<string>)           // unlinked by the collector

  datatype Step =
    | Tick(passed: nat)
    | Upload(path: string)
    | CreateJob(id: JobId, path: string)
    | DeleteJob(id: JobId)
    | OtherUnlink(path: string)
    | ReadDir
    | Snapshot
    | ReadClock
    | Stat(path: string)
    | Unlink
    | Finish

  const START := State(0, map[], {}, map[], {}, Idle, {})

  function Next(c: Params, s: State, st: Step): Option<State> {
    match st
    case Tick(d) => Some(s.(now := s.now + d))
    case Upload(path) =>
      // stored under a fresh random name, created exclusively
      if path in s.uploaded then None
      else Some(s.(uploaded := s.uploaded[path := s.now], files := s.files + {path}))
    case CreateJob(id, path) =>
      if id in s.used || path !in s.uploaded || s.now >= s.uploaded[path] + c.grace - c.delta + c.slack then None
      else Some(s.(rows := s.rows[id := Ref(path, s.now)], used := s.used + {id}))
    case DeleteJob(id) => Some(s.(rows := s.rows - {id}))
    case OtherUnlink(path) => Some(s.(files := s.files - {path}))
    case ReadDir => if s.phase != Idle then None else Some(s.(phase := Listed(s.files)))
    case Snapshot =>
      if !s.phase.Listed? then None
      else Some(s.(phase := Snapped(s.phase.entries, set id | id in s.rows :: s.rows[id].path, s.now)))
    case ReadClock =>
      if !s.phase.Snapped? || s.now - s.phase.at > c.delta then None
      else Some(s.(phase := Unlinking(s.phase.entries, s.phase.refs, s.phase.at, s.now - c.grace)))
    case Stat(path) =>
      if !s.phase.Unlinking? || path !in s.phase.entries || path !in s.files || path !in s.uploaded
         || !Collectable(File(s.uploaded[path], true, 0), path, s.phase.refs, s.phase.cutoff) then None
      else Some(s.(phase := Checked(s.phase.entries - {path}, s.phase.refs, s.phase.at, s.phase.cutoff, path)))
    case Unlink =>
      if !s.phase.Checked? then None
      else Some(s.(files := s.files - {s.phase.path}, collected := s.collected + {s.phase.path},
                   phase := Unlinking(s.phase.entries, s.phase.refs, s.phase.at, s.phase.cutoff)))
    case Finish => if s.phase.Unlinking? then Some(s.(phase := Idle)) else None
  }

  ghost predicate IsRun(c: Params, states: seq<State>, steps: seq<Step>) {
    && |states| == |steps| + 1 && states[0] == START
    && forall i {:trigger steps[i]} :: 0 <= i < |steps| ==> Next(c, states[i], steps[i]) == Some(states[i + 1])
  }

  /** No upload the collector unlinked is the input of a job. */
  ghost predicate Safe(s: State) {
    forall id :: id in s.rows ==> s.rows[id].path !in s.collected
  }

  /** Rows the snapshot missed were created after it. */
  ghost predicate SnapshotCovers(s: State, refs: set<string>, at: int) {
    at <= s.now && forall id :: id in s.rows ==> s.rows[id].path in refs || at <= s.rows[id].created
  }

  ghost predicate Inv(c: Params, s: State) {
    && Safe(s)
    && (forall id :: id in s.rows ==>
          id in s.used && s.rows[id].path in s.uploaded
              && s.rows[id].created < s.uploaded[s.rows[id].path] + c.grace - c.delta)
    && (forall p :: p in s.collected ==> p in s.uploaded && s.uploaded[p] + c.grace - c.delta <= s.now)
    && match s.phase
       case Snapped(_, refs, at) => SnapshotCovers(s, refs, at)
       case Unlinking(_, refs, at, cutoff) =>
         SnapshotCovers(s, refs, at) && cutoff + c.grace - at <= c.delta && cutoff + c.grace <= s.now
       case Checked(_, refs, at, cutoff, path) =>
         && SnapshotCovers(s, refs, at) && cutoff + c.grace - at <= c.delta && cutoff + c.grace <= s.now
         && path in s.uploaded && s.uploaded[path] <= cutoff && path !in refs
       case _ => true
  }

  lemma StepKeeps(c: Params, s: State, st: Step)
    requires c.slack <= 0 && 0 <= c.delta && Inv(c, s) && Next(c, s, st).Some?
    ensures Inv(c, Next(c, s, st).value)
  {}

  lemma {:induction false} RunKeepsInv(c: Params, states: seq<State>, steps: seq<Step>, i: nat)
    requires c.slack <= 0 && 0 <= c.delta && IsRun(c, states, steps) && i < |states|
    ensures Inv(c, states[i])
  {
    if i > 0 {
      RunKeepsInv(c, states, steps, i - 1);
      assert Next(c, states[i - 1], steps[i - 1]) == Some(states[i]);
      StepKeeps(c, states[i - 1], steps[i - 1]);
    }
  }

  lemma Extend(c: Params, states: seq<State>, steps: seq<Step>, st: Step)
      returns (states': seq<State>, steps': seq<Step>)
    requires IsRun(c, states, steps) && Next(c, states[|states| - 1], st).Some?
    ensures IsRun(c, states', steps') && Some(states'[|states'| - 1]) == Next(c, states[|states| - 1], st)
  {
    states', steps' := states + [Next(c, states[|states| - 1], st).value], steps + [st];
  }

  /** A job created one tick too late can lose its upload: uploaded at 0, missed by a snapshot
      at grace - delta, collected when the clock is read delta later. */
  lemma TooLateIsUnsafe(c: Params) returns (states: seq<State>, steps: seq<Step>)
    requires 0 < c.slack && 0 <= c.delta <= c.grace
    ensures IsRun(c, states, steps) && !Safe(states[|states| - 1])
  {
    states, steps := LateJob(c);
    states, steps := Extend(c, states, steps, Tick(c.delta));
    states, steps := Extend(c, states, steps, ReadClock);
    states, steps := Extend(c, states, steps, Stat("u"));
    states, steps := Extend(c, states, steps, Unlink);
    assert 0 in states[|states| - 1].rows;
  }

  lemma LateJob(c: Params) returns (states: seq<State>, steps: seq<Step>)
    requires 0 < c.slack && 0 <= c.delta <= c.grace
    ensures IsRun(c, states, steps)
    ensures states[|states| - 1]
        == State(c.grace - c.delta, map["u" := 0], {"u"}, map[0 := Ref("u", c.grace - c.delta)], {0},
                                          Snapped({"u"}, {}, c.grace - c.delta), {})
  {
    states, steps := [START], [];
    states, steps := Extend(c, states, steps, Upload("u"));
    states, steps := Extend(c, states, steps, Tick(c.grace - c.delta));
    states, steps := Extend(c, states, steps, ReadDir);
    states, steps := Extend(c, states, steps, Snapshot);
    assert states[|states| - 1].phase.refs == {};
    states, steps := Extend(c, states, steps, CreateJob(0, "u"));
  }

  /** Exactly when the collector is safe: every job created strictly before its upload's
      mtime + grace - delta, and no later. */
  lemma SafeExactlyWhen(c: Params)
    requires 0 <= c.delta <= c.grace
    ensures (forall states, steps :: IsRun(c, states, steps) ==> Safe(states[|states| - 1])) <==> c.slack <= 0
  {
    if c.slack <= 0 {
      forall states, steps | IsRun(c, states, steps)
        ensures Safe(states[|states| - 1])
      {
        RunKeepsInv(c, states, steps, |states| - 1);
      }
    } else {
      var states, steps := TooLateIsUnsafe(c);
    }
  }
}
