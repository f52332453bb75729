/** The expiry sweep beside everything else: its query, each unlink, each sharing check and each row
    deletion is a step of its own, between uploads, submissions, workers, deletes, the shutdown that
    cancels the sweep's context, and crashes. */
module ExpirySweep {
  import opened Common
  import opened JobTable
  import Retention

  /** What the sweep does next for the row at hand. */
  datatype Point = AtOutput | AtCheck | AtUnlink | AtDelete

  datatype Phase = Idle | Sweeping(list: seq<Row>, i: nat, at: Point)

  datatype State = State(
    now: int,
    live: bool,                        // the server's context is not canceled
    rows: map<JobId, Row>,
    used: set<JobId>,
    uploads: set<string>,              // every upload ever stored, under a fresh name
    made: set<string>,                 // every output path ever recorded
    files: set<string>,
    pending: multiset<string>,         // uploads found by submissions whose row is still to come
    phase: Phase,
    taken: set<string>)                // what sweeps have unlinked

  /** ok: whether the statement succeeded; on a live context it does. */
  datatype Step =
    | Tick(passed: nat)
    | Upload(path: string)
    | Resolve(path: string)
    | Abandon(path: string)
    | CreateJob(row: Row)
    | UpdateRow(id: JobId, patch: Patch)
    | DeleteJob(id: JobId)
    | OtherUnlink(path: string)
    | Shutdown
    | Crash
    | Query(at: int, list: seq<Row>)
    | UnlinkOutput
    | CheckShared(ok: bool)
    | UnlinkInput
    | DeleteRow(ok: bool)
    | Finish

  const START := State(0, true, map[], {}, {}, {}, {}, multiset{}, Idle, {})

  /** Another row names the path. */
  predicate Shared(rows: map<JobId, Row>, path: string, except: JobId) {
    exists id :: id in rows && id != except && rows[id].inputPath == path
  }

  /** The rows past their expiry at that time, once each, in any order. */
  ghost predicate Lists(rows: map<JobId, Row>, at: int, list: seq<Row>) {
    && (forall r :: r in list <==> r.id in rows && rows[r.id] == r && IsExpired(r, at))
    && Retention.DistinctIds(list)
  }

  ghost function Next(s: State, st: Step): Option<State> {
    match st
    case Tick(d) => Some(s.(now := s.now + d))
    case Upload(path) =>
      if path == "" || path in s.uploads || path in s.made then None
      else Some(s.(uploads := s.uploads + {path}, files := s.files + {path}))
    case Resolve(path) =>
      if path !in s.uploads || path !in s.files then None else Some(s.(pending := s.pending + multiset{path}))
    case Abandon(path) => Some(s.(pending := s.pending - multiset{path}))
    case CreateJob(row) =>
      if row.id in s.used || row.status != Queued || row.outputPath != "" then None
      else if row.inputPath != "" && row.inputPath !in s.pending then None
      else Some(s.(rows := s.rows[row.id := row], used := s.used + {row.id},
                   pending := s.pending - multiset{row.inputPath}))
    case UpdateRow(id, patch) =>
      if id !in s.rows || (patch.ToStatus? && patch.status.Expired?) then None
      else if patch.ToOutput? && (patch.path == "" || patch.path in s.uploads) then None
      else Some(s.(rows := s.rows[id := Apply(s.rows[id], patch)],
                   made := if patch.ToOutput? then s.made + {patch.path} else s.made,
                   files := if patch.ToOutput? then s.files + {patch.path} else s.files))
    case DeleteJob(id) => Some(s.(rows := s.rows - {id}))
    case OtherUnlink(path) => Some(s.(files := s.files - {path}))
    case Shutdown => Some(s.(live := false))
    case Crash => Some(s.(live := true, phase := Idle, pending := multiset{}))
    case _ => SweepStep(s, st)
  }

  ghost function SweepStep(s: State, st: Step): Option<State> {
    if st.Query? then
      if s.live && s.phase.Idle? && st.at <= s.now && Lists(s.rows, st.at, st.list)
          then Some(s.(phase := Sweeping(st.list, 0, AtOutput)))
      else None
    else if s.phase.Idle? then None
    else if s.phase.i >= |s.phase.list| then
      if st.Finish? && s.phase.at.AtOutput? then Some(s.(phase := Idle)) else None
    else
      var r := s.phase.list[s.phase.i];
      match (s.phase.at, st)
      case (AtOutput, UnlinkOutput) =>
        var gone := if r.outputPath == "" then {} else {r.outputPath};
        Some(s.(files := s.files - gone, taken := s.taken + gone, phase := s.phase.(at := AtCheck)))
      case (AtCheck, CheckShared(ok)) =>
        if !ok && s.live then None
        else if !ok || r.inputPath == "" || Shared(s.rows, r.inputPath, r.id)
            then Some(s.(phase := s.phase.(at := AtDelete)))
        else Some(s.(phase := s.phase.(at := AtUnlink)))
      case (AtUnlink, UnlinkInput) =>
        Some(s.(files := s.files - {r.inputPath}, taken := s.taken + {r.inputPath}, phase := s.phase.(at := AtDelete)))
      case (AtDelete, DeleteRow(ok)) =>
        if !ok && s.live then None
        else Some(s.(rows := if ok then s.rows - {r.id} else s.rows,
                     phase := Sweeping(s.phase.list, s.phase.i + 1, AtOutput)))
      case _ => None
  }

  ghost predicate IsRun(states: seq<State>, steps: seq<Step>) {
    && |states| == |steps| + 1 && states[0] == START
    && forall i {:trigger steps[i]} :: 0 <= i < |steps| ==> Next(states[i], steps[i]) == Some(states[i + 1])
  }

  lemma RunStep(states: seq<State>, steps: seq<Step>, i: nat)
    requires IsRun(states, steps) && i < |steps|
    ensures Next(states[i], steps[i]) == Some(states[i + 1])
  {}

  // ---- What every state keeps --------------------------------------------------------------

  predicate RowFits(r: Row, uploads: set<string>, made: set<string>) {
    (r.inputPath == "" || r.inputPath in uploads) && (r.outputPath == "" || r.outputPath in made) && r.status != Expired
  }

  /** The row as the query saw it: still the same input and expiry, if it is still there. */
  predicate StillListed(s: State, r: Row) {
    r.id in s.rows ==> s.rows[r.id].inputPath == r.inputPath && s.rows[r.id].expiresAt == r.expiresAt
  }

  ghost predicate PhaseInv(s: State) {
    s.phase.Sweeping? ==>
      && s.phase.i <= |s.phase.list| && (!s.phase.at.AtOutput? ==> s.phase.i < |s.phase.list|)
      && Retention.DistinctIds(s.phase.list)
      && (s.phase.at.AtUnlink? ==> s.phase.list[s.phase.i].inputPath != "")
      && forall r :: r in s.phase.list ==>
           r.id in s.used && IsExpired(r, s.now) && RowFits(r, s.uploads, s.made) && StillListed(s, r)
  }

  ghost predicate Inv(s: State) {
    && (forall id :: id in s.rows ==> s.rows[id].id == id && id in s.used && RowFits(s.rows[id], s.uploads, s.made))
    && s.made !! s.uploads && "" !in s.uploads
    && (forall p :: p in s.pending ==> p in s.uploads)
    && (forall p :: p in s.taken && p in s.uploads ==> p !in s.files)
    && s.taken <= s.made + s.uploads
    && PhaseInv(s)
  }

  lemma OtherStepKeeps(s: State, st: Step)
    requires Inv(s) && Next(s, st).Some?
    requires st.Tick? || st.Upload? || st.Resolve? || st.Abandon? || st.DeleteJob? || st.OtherUnlink? || st.Shutdown?
             || st.Crash?
    ensures Inv(Next(s, st).value)
  {}

  lemma CreateKeeps(s: State, row: Row)
    requires Inv(s) && Next(s, CreateJob(row)).Some?
    ensures Inv(Next(s, CreateJob(row)).value)
  {}

  lemma UpdateKeeps(s: State, id: JobId, patch: Patch)
    requires Inv(s) && Next(s, UpdateRow(id, patch)).Some?
    ensures Inv(Next(s, UpdateRow(id, patch)).value)
  {}

  lemma QueryKeeps(s: State, st: Step)
    requires Inv(s) && SweepStep(s, st).Some? && (st.Query? || st.Finish?)
    ensures Inv(SweepStep(s, st).value)
  {}

  lemma UnlinkKeeps(s: State, st: Step)
    requires Inv(s) && SweepStep(s, st).Some? && (st.UnlinkOutput? || st.UnlinkInput?)
    ensures Inv(SweepStep(s, st).value)
  {}

  lemma StatementKeeps(s: State, st: Step)
    requires Inv(s) && SweepStep(s, st).Some? && (st.CheckShared? || st.DeleteRow?)
    ensures Inv(SweepStep(s, st).value)
  {}

  lemma StepKeeps(s: State, st: Step)
    requires Inv(s) && Next(s, st).Some?
    ensures Inv(Next(s, st).value)
  {
    match st {
      case CreateJob(row) => CreateKeeps(s, row);
      case UpdateRow(id, patch) => UpdateKeeps(s, id, patch);
      case Query(_, _) => QueryKeeps(s, st);
      case Finish => QueryKeeps(s, st);
      case UnlinkOutput => UnlinkKeeps(s, st);
      case UnlinkInput => UnlinkKeeps(s, st);
      case CheckShared(_) => StatementKeeps(s, st);
      case DeleteRow(_) => StatementKeeps(s, st);
      case _ => OtherStepKeeps(s, st);
    }
  }

  lemma {:induction false} RunKeepsInv(states: seq<State>, steps: seq<Step>, i: nat)
    requires IsRun(states, steps) && i < |states|
    ensures Inv(states[i])
  {
    if i > 0 {
      RunKeepsInv(states, steps, i - 1);
      RunStep(states, steps, i - 1);
      StepKeeps(states[i - 1], steps[i - 1]);
    }
  }

  // ---- When a surviving row loses its input ------------------------------------------------

  /** The sweep is past its sharing check for this path and about to unlink it. */
  predicate Doomed(f: Phase, path: string) {
    f.Sweeping? && f.at.AtUnlink? && f.i < |f.list| && f.list[f.i].inputPath == path
  }

  predicate Unlinks(s: State, st: Step, path: string) {
    st.UnlinkInput? && Doomed(s.phase, path)
  }

  predicate Creates(st: Step, id: JobId) {
    st.CreateJob? && st.row.id == id
  }

  /** Nothing of the sweep happened from state k to state n. */
  ghost predicate PhaseStands(states: seq<State>, k: nat, n: nat)
    requires n < |states|
  {
    forall m :: k <= m <= n ==> states[m].phase == states[n].phase
  }

  lemma StandsOn(states: seq<State>, k: nat, n: nat)
    requires k < n < |states| && PhaseStands(states, k, n - 1) && states[n - 1].phase == states[n].phase
    ensures PhaseStands(states, k, n)
  {}

  /** Step k created row id too late: a sweep unlinked its input at step u, before that or relying
      on a sharing check made before that. */
  ghost predicate TooLate(states: seq<State>, steps: seq<Step>, i: nat, id: JobId, path: string, k: nat, u: nat)
    requires i <= |steps| < |states|
  {
    && k < i && u < i && Creates(steps[k], id) && Unlinks(states[u], steps[u], path)
    && (u < k || PhaseStands(states, k, u))
  }

  ghost predicate CreatedTooLate(states: seq<State>, steps: seq<Step>, i: nat, id: JobId, path: string)
    requires i <= |steps| < |states|
  {
    exists k, u :: TooLate(states, steps, i, id, path, k, u)
  }

  /** A row that outlives the sweep and has an input. */
  predicate Survivor(s: State, id: JobId, path: string) {
    id in s.rows && s.rows[id].inputPath == path != "" && !IsExpired(s.rows[id], s.now)
  }

  /** One step: a survivor was one before, unless it has just been created. */
  lemma SurvivedStep(s: State, st: Step, id: JobId, path: string)
    requires Inv(s) && Next(s, st).Some? && Survivor(Next(s, st).value, id, path)
    ensures if Creates(st, id) then st.row.inputPath == path else Survivor(s, id, path)
  {
    if st.UpdateRow? && st.id == id {
      assert Next(s, st).value.rows[id] == Apply(s.rows[id], st.patch);
    }
  }

  /** How a step can take an upload, or doom one. */
  lemma StepTakes(s: State, st: Step, path: string)
    requires Inv(s) && Next(s, st).Some? && path in Next(s, st).value.uploads
    ensures path in Next(s, st).value.taken ==> path in s.taken || Unlinks(s, st, path)
    ensures path in s.taken || Unlinks(s, st, path) ==> path in Next(s, st).value.taken
    ensures Doomed(Next(s, st).value.phase, path) ==> Next(s, st).value.phase == s.phase || st.CheckShared?
  {}

  /** The sharing check sees every survivor. */
  lemma CheckSeesSurvivors(s: State, ok: bool, id: JobId, path: string)
    requires Inv(s) && Next(s, CheckShared(ok)).Some? && Survivor(s, id, path)
    ensures !Doomed(Next(s, CheckShared(ok)).value.phase, path)
  {
    var r := s.phase.list[s.phase.i];
    assert r in s.phase.list;
    if r.inputPath == path {
      assert r.id != id;
      assert Shared(s.rows, path, r.id);
    }
  }

  lemma {:induction false} TakenByUnlink(states: seq<State>, steps: seq<Step>, i: nat, path: string) returns (u: nat)
    requires IsRun(states, steps) && i < |states| && path in states[i].taken && path in states[i].uploads
    ensures u < i && Unlinks(states[u], steps[u], path)
  {
    assert i > 0;
    RunKeepsInv(states, steps, i - 1);
    RunStep(states, steps, i - 1);
    StepTakes(states[i - 1], steps[i - 1], path);
    if Unlinks(states[i - 1], steps[i - 1], path) {
      u := i - 1;
    } else {
      TakenIsOld(states[i - 1], steps[i - 1], path);
      u := TakenByUnlink(states, steps, i - 1, path);
    }
  }

  lemma TakenIsOld(s: State, st: Step, path: string)
    requires Inv(s) && Next(s, st).Some? && path in s.taken && path in Next(s, st).value.uploads
    ensures path in s.uploads
  {}

  lemma DoomedAt(states: seq<State>, steps: seq<Step>, n: nat, id: JobId, path: string)
    requires IsRun(states, steps) && n < |steps| && Survivor(states[n + 1], id, path)
    requires Doomed(states[n + 1].phase, path)
    ensures states[n].phase == states[n + 1].phase
    ensures Creates(steps[n], id) || Survivor(states[n], id, path)
  {
    RunKeepsInv(states, steps, n);
    RunKeepsInv(states, steps, n + 1);
    RunStep(states, steps, n);
    StepTakes(states[n], steps[n], path);
    SurvivedStep(states[n], steps[n], id, path);
    if steps[n].CheckShared? {
      CheckSeesSurvivors(states[n], steps[n].ok, id, path);
    }
  }

  lemma DoomStarts(states: seq<State>, steps: seq<Step>, i: nat, path: string)
    requires IsRun(states, steps) && i < |states| && Doomed(states[i].phase, path)
    ensures i > 0
  {}

  /** A survivor whose input is doomed right now was created after the check. */
  lemma {:induction false} DoomedSurvivor(states: seq<State>, steps: seq<Step>, i: nat, id: JobId, path: string)
      returns (k: nat)
    requires IsRun(states, steps) && i < |states| && Survivor(states[i], id, path) && Doomed(states[i].phase, path)
    ensures k < i && Creates(steps[k], id) && PhaseStands(states, k, i)
  {
    DoomStarts(states, steps, i, path);
    DoomedAt(states, steps, i - 1, id, path);
    if Creates(steps[i - 1], id) {
      k := i - 1;
    } else {
      k := DoomedSurvivor(states, steps, i - 1, id, path);
      StandsOn(states, k, i);
    }
  }

  lemma LoserStep(states: seq<State>, steps: seq<Step>, i: nat, id: JobId, path: string)
    requires IsRun(states, steps) && i < |steps| && Survivor(states[i + 1], id, path) && path in states[i + 1].taken
    ensures if Creates(steps[i], id) then path in states[i].taken && path in states[i].uploads
            else Survivor(states[i], id, path) && (path in states[i].taken || Unlinks(states[i], steps[i], path))
  {
    RunKeepsInv(states, steps, i);
    RunKeepsInv(states, steps, i + 1);
    RunStep(states, steps, i);
    StepTakes(states[i], steps[i], path);
    SurvivedStep(states[i], steps[i], id, path);
    if Creates(steps[i], id) {
      TakenIsOld(states[i], steps[i], path);
    }
  }

  lemma NothingTakenAtFirst(states: seq<State>, steps: seq<Step>, path: string)
    requires IsRun(states, steps)
    ensures path !in states[0].taken
  {}

  lemma LateLater(states: seq<State>, steps: seq<Step>, i: nat, id: JobId, path: string, k: nat, u: nat)
    requires 0 < i <= |steps| < |states| && TooLate(states, steps, i - 1, id, path, k, u)
    ensures TooLate(states, steps, i, id, path, k, u)
  {}

  lemma {:induction false} LosersWereLate(states: seq<State>, steps: seq<Step>, i: nat, id: JobId, path: string)
      returns (k: nat, u: nat)
    requires IsRun(states, steps) && i < |states| && Survivor(states[i], id, path) && path in states[i].taken
    ensures TooLate(states, steps, i, id, path, k, u)
  {
    NothingTakenAtFirst(states, steps, path);
    LoserStep(states, steps, i - 1, id, path);
    if Creates(steps[i - 1], id) {
      k := i - 1;
      u := TakenByUnlink(states, steps, i - 1, path);
    } else if Unlinks(states[i - 1], steps[i - 1], path) {
      u := i - 1;
      k := DoomedSurvivor(states, steps, i - 1, id, path);
    } else {
      k, u := LosersWereLate(states, steps, i - 1, id, path);
      LateLater(states, steps, i, id, path, k, u);
    }
  }

  lemma TakenAt(states: seq<State>, steps: seq<Step>, n: nat, path: string)
    requires IsRun(states, steps) && n < |steps|
    requires path in states[n].taken || Unlinks(states[n], steps[n], path)
    ensures path in states[n + 1].taken
  {
    RunStep(states, steps, n);
    TakenGrows(states[n], steps[n]);
    UnlinkTakes(states[n], steps[n], path);
  }

  lemma UnlinkTakes(s: State, st: Step, path: string)
    requires Next(s, st).Some?
    ensures Unlinks(s, st, path) ==> path in Next(s, st).value.taken && path !in Next(s, st).value.files
  {}

  lemma {:induction false} TakenStays(states: seq<State>, steps: seq<Step>, u: nat, i: nat, path: string)
    requires IsRun(states, steps) && u < i < |states| && Unlinks(states[u], steps[u], path)
    ensures path in states[i].taken
    decreases i
  {
    if u < i - 1 {
      TakenStays(states, steps, u, i - 1, path);
    }
    TakenAt(states, steps, i - 1, path);
  }

  lemma TakenGrows(s: State, st: Step)
    requires Next(s, st).Some?
    ensures s.taken <= Next(s, st).value.taken
  {}

  /** A surviving row has lost its input to a sweep exactly when it was created too late: after the
      unlink, or in the window between the sharing check and the unlink. */
  lemma LosesExactlyWhen(states: seq<State>, steps: seq<Step>, i: nat, id: JobId, path: string)
    requires IsRun(states, steps) && i < |states| && Survivor(states[i], id, path)
    ensures path in states[i].taken <==> CreatedTooLate(states, steps, i, id, path)
  {
    if path in states[i].taken {
      var k, u := LosersWereLate(states, steps, i, id, path);
    }
    forall k, u | TooLate(states, steps, i, id, path, k, u)
      ensures path in states[i].taken
    {
      TakenStays(states, steps, u, i, path);
    }
  }

  // ---- Safe beside submissions for other uploads -------------------------------------------

  /** No submission under way names an upload of the list being swept. */
  ghost predicate Undisputed(s: State) {
    s.phase.Sweeping? ==> forall r :: r in s.phase.list ==> r.inputPath !in s.pending
  }

  predicate GoneForGood(s: State, path: string) {
    path in s.uploads && path !in s.files && path !in s.pending
  }

  lemma NotResolved(s: State, st: Step, path: string)
    requires Next(s, st).Some? && GoneForGood(s, path)
    ensures path !in Next(s, st).value.pending
  {}

  lemma NotRestored(s: State, st: Step, path: string)
    requires Next(s, st).Some? && GoneForGood(s, path)
    ensures path in Next(s, st).value.uploads && path !in Next(s, st).value.files
  {}

  lemma GoneAt(states: seq<State>, steps: seq<Step>, n: nat, path: string)
    requires IsRun(states, steps) && n < |steps| && GoneForGood(states[n], path)
    ensures GoneForGood(states[n + 1], path)
  {
    RunStep(states, steps, n);
    NotResolved(states[n], steps[n], path);
    NotRestored(states[n], steps[n], path);
  }

  lemma UnlinkedUndisputed(s: State, st: Step, path: string)
    requires Inv(s) && Undisputed(s) && Unlinks(s, st, path) && Next(s, st).Some?
    ensures GoneForGood(Next(s, st).value, path)
  {
    assert s.phase.list[s.phase.i] in s.phase.list;
  }

  lemma {:induction false} NeverFoundAgain(states: seq<State>, steps: seq<Step>, u: nat, n: nat, path: string)
    requires IsRun(states, steps) && u < n < |states| && Unlinks(states[u], steps[u], path) && Undisputed(states[u])
    ensures GoneForGood(states[n], path)
    decreases n
  {
    if u == n - 1 {
      RunKeepsInv(states, steps, u);
      RunStep(states, steps, u);
      UnlinkedUndisputed(states[u], steps[u], path);
    } else {
      NeverFoundAgain(states, steps, u, n - 1, path);
      GoneAt(states, steps, n - 1, path);
    }
  }

  lemma CreationWasPending(states: seq<State>, steps: seq<Step>, k: nat, path: string)
    requires IsRun(states, steps) && k < |steps| && steps[k].CreateJob? && steps[k].row.inputPath == path != ""
    ensures path in states[k].pending
  {
    RunStep(states, steps, k);
  }

  lemma SurvivedAt(states: seq<State>, steps: seq<Step>, n: nat, id: JobId, path: string)
    requires IsRun(states, steps) && n < |steps| && Survivor(states[n + 1], id, path)
    ensures if Creates(steps[n], id) then steps[n].row.inputPath == path else Survivor(states[n], id, path)
  {
    RunKeepsInv(states, steps, n);
    RunStep(states, steps, n);
    SurvivedStep(states[n], steps[n], id, path);
  }

  lemma SurvivedLater(states: seq<State>, steps: seq<Step>, k: nat, n: nat, id: JobId, path: string)
    requires IsRun(states, steps) && k < n < |steps| && Creates(steps[k], id) && Survivor(states[n + 1], id, path)
    ensures Survivor(states[n], id, path)
  {
    CreatedOnce(states, steps, k, n, id);
    SurvivedAt(states, steps, n, id, path);
  }

  lemma {:induction false} InputStands(states: seq<State>, steps: seq<Step>, k: nat, n: nat, id: JobId, path: string)
    requires IsRun(states, steps) && k <= n < |steps| && Creates(steps[k], id) && Survivor(states[n + 1], id, path)
    ensures steps[k].row.inputPath == path
    decreases n
  {
    if k == n {
      SurvivedAt(states, steps, n, id, path);
    } else {
      SurvivedLater(states, steps, k, n, id, path);
      InputStands(states, steps, k, n - 1, id, path);
    }
  }

  lemma {:induction false} CreatedOnce(states: seq<State>, steps: seq<Step>, k: nat, n: nat, id: JobId)
    requires IsRun(states, steps) && k < n < |steps| && Creates(steps[k], id)
    ensures id in states[n].used && !Creates(steps[n], id)
    decreases n
  {
    RunStep(states, steps, n);
    RunStep(states, steps, n - 1);
    if k < n - 1 {
      CreatedOnce(states, steps, k, n - 1, id);
    }
  }

  lemma WindowIsDisputed(states: seq<State>, k: nat, u: nat, path: string)
    requires k <= u < |states| && PhaseStands(states, k, u) && Doomed(states[u].phase, path)
    requires path in states[k].pending
    ensures !Undisputed(states[k])
  {
    var f := states[k].phase;
    assert f == states[u].phase;
    assert f.list[f.i] in f.list;
  }

  /** With no submission under way for an upload of the list while a sweep is at work, no sweep
      ever takes the input of a row that outlives it, whatever else happens. */
  lemma SweepTakesNoSurvivorsInput(states: seq<State>, steps: seq<Step>, i: nat, id: JobId, path: string)
    requires IsRun(states, steps) && i < |states| && Survivor(states[i], id, path)
    requires forall n :: 0 <= n < i ==> Undisputed(states[n])
    ensures path !in states[i].taken
  {
    if path in states[i].taken {
      var k, u := LosersWereLate(states, steps, i, id, path);
      InputStands(states, steps, k, i - 1, id, path);
      CreationWasPending(states, steps, k, path);
      if u < k {
        NeverFoundAgain(states, steps, u, k, path);
      } else {
        WindowIsDisputed(states, k, u, path);
      }
    }
  }

  // ---- Only a sharing check that succeeded takes an input ----------------------------------

  /** Step c asked whether the input of the row at hand is shared, and was told that it is not. */
  ghost predicate FoundUnshared(states: seq<State>, steps: seq<Step>, c: nat, path: string)
    requires c < |steps| < |states|
  {
    && steps[c] == CheckShared(true) && Doomed(states[c + 1].phase, path)
    && !Shared(states[c].rows, path, states[c + 1].phase.list[states[c + 1].phase.i].id)
  }

  lemma DoomStep(states: seq<State>, steps: seq<Step>, n: nat, path: string)
    requires IsRun(states, steps) && n < |steps| && Doomed(states[n + 1].phase, path)
    ensures states[n].phase == states[n + 1].phase || FoundUnshared(states, steps, n, path)
  {
    RunStep(states, steps, n);
    DoomOf(states[n], steps[n], path);
  }

  lemma DoomOf(s: State, st: Step, path: string)
    requires Next(s, st).Some? && Doomed(Next(s, st).value.phase, path)
    ensures var f := Next(s, st).value.phase;
            s.phase == f || (st == CheckShared(true) && !Shared(s.rows, path, f.list[f.i].id))
  {}

  /** Every input a sweep unlinks was found unshared by its last step before the unlink: a check that
      failed takes nothing. */
  lemma {:induction false} UnlinkNeedsCheck(states: seq<State>, steps: seq<Step>, u: nat, path: string) returns (c: nat)
    requires IsRun(states, steps) && u < |states| && Doomed(states[u].phase, path)
    ensures c < u && FoundUnshared(states, steps, c, path) && PhaseStands(states, c + 1, u)
  {
    DoomStarts(states, steps, u, path);
    DoomStep(states, steps, u - 1, path);
    if FoundUnshared(states, steps, u - 1, path) {
      c := u - 1;
    } else {
      c := UnlinkNeedsCheck(states, steps, u - 1, path);
      StandsOn(states, c + 1, u);
    }
  }

  // ---- What a finished sweep has done ------------------------------------------------------

  /** Steps q to n of a run belong to one sweep: its query, then no crash and no other query. */
  ghost predicate OneSweep(steps: seq<Step>, q: nat, n: nat) {
    && q < n <= |steps| && steps[q].Query?
    && forall k :: q < k < n ==> GoesOn(steps[k])
  }

  predicate GoesOn(st: Step) {
    !st.Crash? && !st.Finish? && !st.Query?
  }

  predicate Fails(st: Step) {
    st == CheckShared(false) || st == DeleteRow(false)
  }

  /** None of the sweep's statements between steps q and n failed. */
  ghost predicate NoneFails(steps: seq<Step>, q: nat, n: nat)
    requires n <= |steps|
  {
    forall k :: q < k < n ==> !Fails(steps[k])
  }

  /** Row m of the list has had its input dealt with. */
  predicate Handled(f: Phase, m: nat) {
    f.Sweeping? && (m < f.i || (m == f.i && f.at.AtDelete?))
  }

  /** In the middle of a sweep over list. */
  predicate Midway(list: seq<Row>, s: State) {
    s.phase.Sweeping? && s.phase.list == list
  }

  /** The rows before the one at hand are gone. */
  ghost predicate Cleared(s: State) {
    s.phase.Sweeping? && forall m :: 0 <= m < s.phase.i && m < |s.phase.list| ==> s.phase.list[m].id !in s.rows
  }

  lemma QueryStarts(s: State, at: int, list: seq<Row>)
    requires Next(s, Query(at, list)).Some?
    ensures var s' := Next(s, Query(at, list)).value;
            Midway(list, s') && Cleared(s') && s'.rows == s.rows && Lists(s.rows, at, list)
  {}

  lemma {:induction false} SweepGoesOn(states: seq<State>, steps: seq<Step>, q: nat, n: nat)
    requires IsRun(states, steps) && OneSweep(steps, q, n)
    ensures Midway(steps[q].list, states[n]) && Lists(states[q].rows, steps[q].at, steps[q].list)
    decreases n
  {
    RunStep(states, steps, n - 1);
    if n == q + 1 {
      QueryStarts(states[q], steps[q].at, steps[q].list);
    } else {
      SweepGoesOn(states, steps, q, n - 1);
      ListStands(states[n - 1], steps[n - 1]);
    }
  }

  lemma ClearedStays(s: State, st: Step)
    requires Inv(s) && Cleared(s) && Next(s, st).Some? && GoesOn(st) && !Fails(st)
    ensures Cleared(Next(s, st).value)
  {
    if st.CreateJob? {
      assert forall m :: 0 <= m < |s.phase.list| ==> s.phase.list[m] in s.phase.list;
    }
  }

  lemma ClearedAt(states: seq<State>, steps: seq<Step>, n: nat)
    requires IsRun(states, steps) && n < |steps| && Cleared(states[n]) && GoesOn(steps[n]) && !Fails(steps[n])
    ensures Cleared(states[n + 1])
  {
    RunKeepsInv(states, steps, n);
    RunStep(states, steps, n);
    ClearedStays(states[n], steps[n]);
  }

  lemma {:induction false} SweepClears(states: seq<State>, steps: seq<Step>, q: nat, n: nat)
    requires IsRun(states, steps) && OneSweep(steps, q, n) && NoneFails(steps, q, n)
    ensures Cleared(states[n])
    decreases n
  {
    if n == q + 1 {
      RunStep(states, steps, q);
      QueryStarts(states[q], steps[q].at, steps[q].list);
    } else {
      SweepClears(states, steps, q, n - 1);
      ClearedAt(states, steps, n - 1);
    }
  }

  /** Every row naming path was there when the sweep began, and once all of them are handled the
      file is gone. */
  ghost predicate Accounted(base: State, s: State, path: string) {
    && s.phase.Sweeping? && path in s.uploads
    && (forall id :: id in s.rows && s.rows[id].inputPath == path ==>
        id in base.rows && base.rows[id].inputPath == path)
    && ((forall m :: 0 <= m < |s.phase.list| && s.phase.list[m].inputPath == path ==> Handled(s.phase, m)) ==>
        path !in s.files)
  }

  /** All rows naming path were past their expiry when the sweep began, and there was one. */
  ghost predicate AllExpired(base: State, at: int, path: string) {
    && path != "" && (exists id :: id in base.rows && base.rows[id].inputPath == path)
    && (forall id :: id in base.rows && base.rows[id].inputPath == path ==> IsExpired(base.rows[id], at))
  }

  lemma QueryAccounts(s: State, at: int, list: seq<Row>, path: string)
    requires Inv(s) && Next(s, Query(at, list)).Some? && AllExpired(s, at, path)
    ensures Accounted(s, Next(s, Query(at, list)).value, path)
  {
    var id :| id in s.rows && s.rows[id].inputPath == path;
    assert s.rows[id] in list;
    var m :| 0 <= m < |list| && list[m] == s.rows[id];
    assert !Handled(Sweeping(list, 0, AtOutput), m);
  }

  /** A sharing check that finds another user leaves a row of the list still to be handled. */
  lemma SharedLeavesWork(base: State, at: int, s: State, path: string)
    requires Inv(base) && Inv(s) && Accounted(base, s, path) && AllExpired(base, at, path)
    requires Lists(base.rows, at, s.phase.list) && Cleared(s) && Next(s, CheckShared(true)).Some?
    requires s.phase.list[s.phase.i].inputPath == path && Shared(s.rows, path, s.phase.list[s.phase.i].id)
    ensures exists m :: s.phase.i < m < |s.phase.list| && s.phase.list[m].inputPath == path
  {
    var r := s.phase.list[s.phase.i];
    var id :| id in s.rows && id != r.id && s.rows[id].inputPath == path;
    assert base.rows[id].inputPath == path;
    assert IsExpired(base.rows[id], at);
    ListedById(base, at, s.phase.list, id);
    var m :| 0 <= m < |s.phase.list| && s.phase.list[m].id == id && s.phase.list[m].inputPath == path;
    assert m != s.phase.i;
  }

  lemma ListedById(base: State, at: int, list: seq<Row>, id: JobId)
    requires Lists(base.rows, at, list) && id in base.rows && base.rows[id].id == id && IsExpired(base.rows[id], at)
    ensures exists m :: 0 <= m < |list| && list[m].id == id && list[m].inputPath == base.rows[id].inputPath
  {
    assert base.rows[id] in list;
    var m :| 0 <= m < |list| && list[m] == base.rows[id];
  }

  /** A row becomes handled by a sharing check that fails or spares its input, or by the unlink. */
  lemma HandledBy(s: State, st: Step, m: nat)
    requires Next(s, st).Some? && s.phase.Sweeping? && GoesOn(st)
    requires m < |s.phase.list| && Handled(Next(s, st).value.phase, m) && !Handled(s.phase, m)
    ensures m == s.phase.i && (st.CheckShared? || st.UnlinkInput?)
    ensures var r := s.phase.list[m]; st == CheckShared(true) ==> r.inputPath == "" || Shared(s.rows, r.inputPath, r.id)
  {}

  lemma ListStands(s: State, st: Step)
    requires Next(s, st).Some? && s.phase.Sweeping? && GoesOn(st)
    ensures Next(s, st).value.phase.Sweeping? && Next(s, st).value.phase.list == s.phase.list
  {}

  lemma FileStaysGone(s: State, st: Step, path: string)
    requires Next(s, st).Some? && path in s.uploads && path !in s.files
    ensures path !in Next(s, st).value.files
  {}

  /** No step changes the input of a row. */
  lemma InputKept(s: State, st: Step, id: JobId)
    requires Next(s, st).Some? && id in Next(s, st).value.rows
    ensures if Creates(st, id) then Next(s, st).value.rows[id] == st.row
            else id in s.rows && Next(s, st).value.rows[id].inputPath == s.rows[id].inputPath
  {
    if st.UpdateRow? {
      assert s.rows[st.id].inputPath == Apply(s.rows[st.id], st.patch).inputPath;
    }
  }

  lemma NoNewUsers(base: State, s: State, st: Step, path: string)
    requires Accounted(base, s, path) && Next(s, st).Some? && (st.CreateJob? ==> st.row.inputPath != path)
    ensures forall id :: id in Next(s, st).value.rows && Next(s, st).value.rows[id].inputPath == path ==>
              id in base.rows && base.rows[id].inputPath == path
  {
    forall id | id in Next(s, st).value.rows && Next(s, st).value.rows[id].inputPath == path
      ensures id in s.rows && s.rows[id].inputPath == path
    {
      InputKept(s, st, id);
    }
  }

  lemma UploadsStay(s: State, st: Step)
    requires Next(s, st).Some?
    ensures s.uploads <= Next(s, st).value.uploads
  {}

  lemma AccountedStays(base: State, at: int, s: State, st: Step, path: string)
    requires Inv(base) && Inv(s) && Accounted(base, s, path) && AllExpired(base, at, path)
    requires Lists(base.rows, at, s.phase.list) && Cleared(s)
    requires Next(s, st).Some? && GoesOn(st) && !Fails(st)
    requires st.CreateJob? ==> st.row.inputPath != path
    ensures Accounted(base, Next(s, st).value, path)
  {
    var s' := Next(s, st).value;
    ListStands(s, st);
    NoNewUsers(base, s, st, path);
    UploadsStay(s, st);
    if path !in s.files {
      FileStaysGone(s, st, path);
    }
    if forall m :: 0 <= m < |s.phase.list| && s.phase.list[m].inputPath == path ==> Handled(s'.phase, m) {
      if m :| 0 <= m < |s.phase.list| && s.phase.list[m].inputPath == path && !Handled(s.phase, m) {
        LastIsUnlinked(base, at, s, st, path, m);
      }
    }
  }

  /** The last row naming path to be handled is handled by unlinking it. */
  lemma LastIsUnlinked(base: State, at: int, s: State, st: Step, path: string, m: nat)
    requires Inv(base) && Inv(s) && Accounted(base, s, path) && AllExpired(base, at, path)
    requires Lists(base.rows, at, s.phase.list) && Cleared(s)
    requires Next(s, st).Some? && GoesOn(st) && !Fails(st)
    requires m < |s.phase.list| && s.phase.list[m].inputPath == path && !Handled(s.phase, m)
    requires forall m :: 0 <= m < |s.phase.list| && s.phase.list[m].inputPath == path ==>
        Handled(Next(s, st).value.phase, m)
    ensures path !in Next(s, st).value.files
  {
    HandledBy(s, st, m);
    if st.CheckShared? {
      SharedLeavesWork(base, at, s, path);
    }
  }

  lemma AccountedAt(states: seq<State>, steps: seq<Step>, q: nat, n: nat, path: string)
    requires IsRun(states, steps) && q < n < |steps| && OneSweep(steps, q, n)
    requires AllExpired(states[q], steps[q].at, path)
    requires GoesOn(steps[n]) && !Fails(steps[n]) && NoneFails(steps, q, n)
    requires (steps[n].CreateJob? ==> steps[n].row.inputPath != path) && Accounted(states[q], states[n], path)
    ensures Accounted(states[q], states[n + 1], path)
  {
    RunKeepsInv(states, steps, q);
    RunKeepsInv(states, steps, n);
    RunStep(states, steps, n);
    SweepGoesOn(states, steps, q, n);
    SweepClears(states, steps, q, n);
    AccountedStays(states[q], steps[q].at, states[n], steps[n], path);
  }

  lemma AccountedAtFirst(states: seq<State>, steps: seq<Step>, q: nat, path: string)
    requires IsRun(states, steps) && q < |steps| && steps[q].Query? && AllExpired(states[q], steps[q].at, path)
    ensures Accounted(states[q], states[q + 1], path)
  {
    RunKeepsInv(states, steps, q);
    RunStep(states, steps, q);
    QueryAccounts(states[q], steps[q].at, steps[q].list, path);
  }

  lemma {:induction false} SweepAccounts(states: seq<State>, steps: seq<Step>, q: nat, n: nat, path: string)
    requires IsRun(states, steps) && OneSweep(steps, q, n) && NoneFails(steps, q, n)
    requires AllExpired(states[q], steps[q].at, path)
    requires forall k :: q < k < n && steps[k].CreateJob? ==> steps[k].row.inputPath != path
    ensures Accounted(states[q], states[n], path)
    decreases n
  {
    if n == q + 1 {
      AccountedAtFirst(states, steps, q, path);
    } else {
      SweepAccounts(states, steps, q, n - 1, path);
      AccountedAt(states, steps, q, n - 1, path);
    }
  }

  lemma FinishMeans(s: State)
    requires Next(s, Finish).Some?
    ensures s.phase.Sweeping? && s.phase.i >= |s.phase.list| && Next(s, Finish).value == s.(phase := Idle)
  {}

  /** No row created in between names path. */
  ghost predicate NotNamed(steps: seq<Step>, q: nat, n: nat, path: string)
    requires n <= |steps|
  {
    forall k :: q < k < n && steps[k].CreateJob? ==> steps[k].row.inputPath != path
  }

  predicate Due(expiresAt: Option<int>, at: int) {
    expiresAt.Some? && expiresAt.value <= at
  }

  lemma DueIsListed(states: seq<State>, steps: seq<Step>, q: nat, id: JobId)
    requires IsRun(states, steps) && q < |steps| && steps[q].Query?
    requires id in states[q].rows && Due(states[q].rows[id].expiresAt, steps[q].at)
    ensures exists r :: r in steps[q].list && r.id == id
  {
    RunKeepsInv(states, steps, q);
    RunStep(states, steps, q);
    QueryStarts(states[q], steps[q].at, steps[q].list);
    assert states[q].rows[id] in steps[q].list;
  }

  /** When a sweep none of whose statements failed finishes, every row that was due at its query is
      gone, and so is every input all of whose rows were, unless a submission named it meanwhile. */
  lemma FinishedSweep(states: seq<State>, steps: seq<Step>, q: nat, f: nat)
    requires IsRun(states, steps) && OneSweep(steps, q, f) && f < |steps| && steps[f].Finish?
    requires NoneFails(steps, q, f)
    ensures forall r :: r in steps[q].list ==> r.id !in states[f + 1].rows
    ensures forall id :: id in states[q].rows && Due(states[q].rows[id].expiresAt, steps[q].at) ==>
        id !in states[f + 1].rows
    ensures forall path :: AllExpired(states[q], steps[q].at, path) && NotNamed(steps, q, f, path) ==>
        path !in states[f + 1].files
  {
    RunStep(states, steps, f);
    FinishMeans(states[f]);
    SweepGoesOn(states, steps, q, f);
    SweepClears(states, steps, q, f);
    forall id | id in states[q].rows && Due(states[q].rows[id].expiresAt, steps[q].at)
      ensures id !in states[f + 1].rows
    {
      DueIsListed(states, steps, q, id);
    }
    forall path | AllExpired(states[q], steps[q].at, path) && NotNamed(steps, q, f, path)
      ensures path !in states[f + 1].files
    {
      SweepAccounts(states, steps, q, f, path);
    }
  }

  lemma FailureNeedsShutdown(s: State, st: Step)
    requires Next(s, st).Some? && GoesOn(st)
    ensures Fails(st) ==> !s.live
    ensures !s.live ==> !Next(s, st).value.live
  {}

  /** None has failed if the context is still live at the end. */
  lemma {:induction false} LiveNoneFails(states: seq<State>, steps: seq<Step>, q: nat, n: nat)
    requires IsRun(states, steps) && OneSweep(steps, q, n) && states[n].live
    ensures NoneFails(steps, q, n)
    decreases n
  {
    if q + 1 < n {
      RunStep(states, steps, n - 1);
      FailureNeedsShutdown(states[n - 1], steps[n - 1]);
      LiveNoneFails(states, steps, q, n - 1);
    }
  }

  // ---- What a sweep leaves behind after a shutdown -----------------------------------------

  /** The deletion of row m of the list, between steps q and n, failed. */
  ghost predicate DeleteFailed(states: seq<State>, steps: seq<Step>, q: nat, n: nat, m: nat)
    requires n <= |steps| < |states|
  {
    exists k :: q < k < n && steps[k] == DeleteRow(false) && states[k].phase.Sweeping? && states[k].phase.i == m
  }

  ghost predicate NobodyDeletes(steps: seq<Step>, q: nat, n: nat, id: JobId)
    requires n <= |steps|
  {
    forall k :: q < k < n ==> steps[k] != DeleteJob(id)
  }

  /** One step's part in the fate of row m of the list. */
  lemma RowStep(s: State, st: Step, m: nat)
    requires Inv(s) && s.phase.Sweeping? && m < |s.phase.list| && Next(s, st).Some? && GoesOn(st)
    ensures var id := s.phase.list[m].id;
            id in Next(s, st).value.rows <==>
              id in s.rows && st != DeleteJob(id) && !(st == DeleteRow(true) && s.phase.i == m)
  {
    assert s.phase.list[m] in s.phase.list;
  }

  lemma PhaseMoves(s: State, st: Step)
    requires s.phase.Sweeping? && Next(s, st).Some? && GoesOn(st)
    ensures var f := Next(s, st).value.phase;
            f.Sweeping? && f.i == if st.DeleteRow? then s.phase.i + 1 else s.phase.i
  {}

  ghost predicate Fate(states: seq<State>, steps: seq<Step>, q: nat, n: nat, m: nat)
    requires q < n <= |steps| < |states| && steps[q].Query? && m < |steps[q].list|
  {
    var r, s := steps[q].list[m], states[n];
    && s.phase.Sweeping?
    && (DeleteFailed(states, steps, q, n, m) ==> m < s.phase.i)
    && (r.id in s.rows <==>
          NobodyDeletes(steps, q, n, r.id) && (m >= s.phase.i || DeleteFailed(states, steps, q, n, m)))
  }

  lemma FateStarts(states: seq<State>, steps: seq<Step>, q: nat, m: nat)
    requires IsRun(states, steps) && q < |steps| && steps[q].Query? && m < |steps[q].list|
    ensures Fate(states, steps, q, q + 1, m)
  {
    RunStep(states, steps, q);
    QueryStarts(states[q], steps[q].at, steps[q].list);
    assert steps[q].list[m] in steps[q].list;
  }

  lemma FailedNext(states: seq<State>, steps: seq<Step>, q: nat, n: nat, m: nat)
    requires q < n < |steps| < |states|
    ensures DeleteFailed(states, steps, q, n + 1, m) <==>
              || DeleteFailed(states, steps, q, n, m)
              || (steps[n] == DeleteRow(false) && states[n].phase.Sweeping? && states[n].phase.i == m)
  {}

  lemma NobodyNext(steps: seq<Step>, q: nat, n: nat, id: JobId)
    requires q < n < |steps|
    ensures NobodyDeletes(steps, q, n + 1, id) <==> NobodyDeletes(steps, q, n, id) && steps[n] != DeleteJob(id)
  {}

  lemma RowAt(states: seq<State>, steps: seq<Step>, q: nat, n: nat, m: nat)
    requires IsRun(states, steps) && q < n < |steps| && OneSweep(steps, q, n) && GoesOn(steps[n])
    requires m < |steps[q].list|
    ensures var s, s', st, id := states[n], states[n + 1], steps[n], steps[q].list[m].id;
            && s.phase.Sweeping? && s'.phase.Sweeping?
            && (id in s'.rows <==> id in s.rows && st != DeleteJob(id) && !(st == DeleteRow(true) && s.phase.i == m))
            && s'.phase.i == if st.DeleteRow? then s.phase.i + 1 else s.phase.i
  {
    RunKeepsInv(states, steps, n);
    RunStep(states, steps, n);
    SweepGoesOn(states, steps, q, n);
    RowStep(states[n], steps[n], m);
    PhaseMoves(states[n], steps[n]);
  }

  lemma FateGoesOn(states: seq<State>, steps: seq<Step>, q: nat, n: nat, m: nat)
    requires IsRun(states, steps) && q < n < |steps| && OneSweep(steps, q, n) && GoesOn(steps[n])
    requires m < |steps[q].list| && Fate(states, steps, q, n, m)
    ensures Fate(states, steps, q, n + 1, m)
  {
    RowAt(states, steps, q, n, m);
    FailedNext(states, steps, q, n, m);
    NobodyNext(steps, q, n, steps[q].list[m].id);
  }

  lemma {:induction false} FateOf(states: seq<State>, steps: seq<Step>, q: nat, n: nat, m: nat)
    requires IsRun(states, steps) && OneSweep(steps, q, n) && m < |steps[q].list|
    ensures Fate(states, steps, q, n, m)
    decreases n
  {
    if n == q + 1 {
      FateStarts(states, steps, q, m);
    } else {
      FateOf(states, steps, q, n - 1, m);
      FateGoesOn(states, steps, q, n - 1, m);
    }
  }

  /** A listed row outlives the sweep exactly when its deletion failed and nobody else deleted it. */
  lemma RowLeftExactlyWhen(states: seq<State>, steps: seq<Step>, q: nat, f: nat, m: nat)
    requires IsRun(states, steps) && OneSweep(steps, q, f) && f < |steps| && steps[f].Finish?
    requires m < |steps[q].list|
    ensures steps[q].list[m].id in states[f + 1].rows <==>
              DeleteFailed(states, steps, q, f, m) && NobodyDeletes(steps, q, f, steps[q].list[m].id)
  {
    RunStep(states, steps, f);
    FinishMeans(states[f]);
    SweepGoesOn(states, steps, q, f);
    FateOf(states, steps, q, f, m);
  }

  /** Its output goes all the same. */
  ghost predicate OutputTaken(s: State, m: nat) {
    s.phase.Sweeping? && m < |s.phase.list| && s.phase.list[m].outputPath != "" &&
    (m < s.phase.i || (m == s.phase.i && !s.phase.at.AtOutput?)) ==>
      s.phase.list[m].outputPath in s.taken
  }

  lemma OutputTakenStays(s: State, st: Step, m: nat)
    requires Inv(s) && OutputTaken(s, m) && Next(s, st).Some?
    ensures OutputTaken(Next(s, st).value, m)
  {}

  lemma {:induction false} OutputsGo(states: seq<State>, steps: seq<Step>, n: nat, m: nat)
    requires IsRun(states, steps) && n < |states|
    ensures OutputTaken(states[n], m)
  {
    if n > 0 {
      OutputsGo(states, steps, n - 1, m);
      RunKeepsInv(states, steps, n - 1);
      RunStep(states, steps, n - 1);
      OutputTakenStays(states[n - 1], steps[n - 1], m);
    }
  }

  /** Whatever failed, a sweep that finishes has unlinked every output of its list. */
  lemma FinishedTakesOutputs(states: seq<State>, steps: seq<Step>, q: nat, f: nat, m: nat)
    requires IsRun(states, steps) && OneSweep(steps, q, f) && f < |steps| && steps[f].Finish?
    requires m < |steps[q].list| && steps[q].list[m].outputPath != ""
    ensures steps[q].list[m].outputPath in states[f + 1].taken
  {
    RunStep(states, steps, f);
    FinishMeans(states[f]);
    SweepGoesOn(states, steps, q, f);
    OutputsGo(states, steps, f, m);
  }

  // ---- What no sweep touches ---------------------------------------------------------------

  lemma RowLeaves(s: State, st: Step, id: JobId)
    requires Inv(s) && Next(s, st).Some? && id in s.rows && id !in Next(s, st).value.rows
    ensures st == DeleteJob(id)
        || (st == DeleteRow(true) && s.rows[id].expiresAt.Some? && s.rows[id].expiresAt.value <= s.now)
  {
    if st.DeleteRow? {
      assert s.phase.list[s.phase.i] in s.phase.list;
    }
  }

  /** A row leaves the table when somebody deletes the job, or by a sweep after its time: one without
      an expiry is never swept. */
  lemma LeavesOnlyWhen(states: seq<State>, steps: seq<Step>, n: nat, id: JobId)
    requires IsRun(states, steps) && n < |steps| && id in states[n].rows && id !in states[n + 1].rows
    ensures || steps[n] == DeleteJob(id)
            || (steps[n] == DeleteRow(true) && states[n].rows[id].expiresAt.Some?
                && states[n].rows[id].expiresAt.value <= states[n].now)
  {
    RunKeepsInv(states, steps, n);
    RunStep(states, steps, n);
    RowLeaves(states[n], steps[n], id);
  }

  /** A listed row whose time has come, with path as its output or its input. */
  predicate GivesUp(r: Row, now: int, st: Step, path: string) {
    && r.expiresAt.Some? && r.expiresAt.value <= now
    && ((st == UnlinkOutput && r.outputPath == path) || (st == UnlinkInput && r.inputPath == path))
  }

  lemma FileLeaves(s: State, st: Step, path: string)
    requires Inv(s) && Next(s, st).Some? && path in s.files && path !in Next(s, st).value.files
    ensures || st == OtherUnlink(path)
            || (s.phase.Sweeping? && s.phase.i < |s.phase.list| && GivesUp(s.phase.list[s.phase.i], s.now, st, path))
  {
    if st.UnlinkOutput? || st.UnlinkInput? {
      assert s.phase.list[s.phase.i] in s.phase.list;
    }
  }

  /** And a sweep unlinks only the outputs and inputs of listed rows after their time. */
  lemma UnlinksOnlyWhen(states: seq<State>, steps: seq<Step>, n: nat, path: string)
    requires IsRun(states, steps) && n < |steps| && path in states[n].files && path !in states[n + 1].files
    ensures var f := states[n].phase;
            || steps[n] == OtherUnlink(path)
            || (f.Sweeping? && f.i < |f.list| && GivesUp(f.list[f.i], states[n].now, steps[n], path))
  {
    RunKeepsInv(states, steps, n);
    RunStep(states, steps, n);
    FileLeaves(states[n], steps[n], path);
  }

  /** And a sweep deletes nothing else: a row that was there and not past its expiry stays, unless
      somebody deletes the job. */
  lemma {:induction false} OthersSurvive(states: seq<State>, steps: seq<Step>, q: nat, n: nat, id: JobId)
    requires IsRun(states, steps) && OneSweep(steps, q, n) && id in states[q].rows
    requires states[q].rows[id].expiresAt.None? || states[q].rows[id].expiresAt.value > steps[q].at
    requires forall k :: q < k < n ==> steps[k] != DeleteJob(id)
    ensures id in states[n].rows
    decreases n
  {
    if q < n - 1 {
      OthersSurvive(states, steps, q, n - 1, id);
    }
    SurvivesAt(states, steps, q, n - 1, id);
  }

  lemma SurvivesAt(states: seq<State>, steps: seq<Step>, q: nat, n: nat, id: JobId)
    requires IsRun(states, steps) && q <= n < |steps| && steps[q].Query? && (q < n ==> OneSweep(steps, q, n))
    requires id in states[q].rows && !IsExpired(states[q].rows[id], steps[q].at)
    requires id in states[n].rows && (q < n ==> steps[n] != DeleteJob(id))
    ensures id in states[n + 1].rows
  {
    RunStep(states, steps, q);
    RunStep(states, steps, n);
    RunKeepsInv(states, steps, q);
    if q < n {
      SweepGoesOn(states, steps, q, n);
      NotListed(states[q], steps[q].at, steps[q].list, id);
      OnlyListedGo(states[n], steps[n], id);
    }
  }

  lemma NotListed(s: State, at: int, list: seq<Row>, id: JobId)
    requires Inv(s) && Next(s, Query(at, list)).Some? && id in s.rows && !IsExpired(s.rows[id], at)
    ensures forall r :: r in list ==> r.id != id
  {}

  lemma OnlyListedGo(s: State, st: Step, id: JobId)
    requires Next(s, st).Some? && id in s.rows && st != DeleteJob(id)
    requires s.phase.Sweeping? ==> forall r :: r in s.phase.list ==> r.id != id
    ensures id in Next(s, st).value.rows
  {}

  // ---- Runs that come to this --------------------------------------------------------------

  lemma Extend(states: seq<State>, steps: seq<Step>, st: Step) returns (states': seq<State>, steps': seq<Step>)
    requires IsRun(states, steps) && Next(states[|steps|], st).Some?
    ensures IsRun(states', steps') && steps' == steps + [st] && |states'| == |states| + 1
    ensures Some(states'[|steps'|]) == Next(states[|steps|], st)
  {
    states', steps' := states + [Next(states[|steps|], st).value], steps + [st];
  }

  function JobRow(id: JobId, input: string, expiresAt: Option<int>): Row {
    Row(id, Convert, "", "", "", input, "", 0, Queued, 0.0, "", "", 0, 0, None, None, expiresAt)
  }

  /** Two submissions have found upload u; the first has created its job, whose time is up. */
  lemma TwoSubmissions() returns (states: seq<State>, steps: seq<Step>)
    ensures IsRun(states, steps)
    ensures states[|steps|] == State(0, true, map[0 := JobRow(0, "u", Some(0))], {0}, {"u"}, {}, {"u"}, multiset{"u"},
                                     Idle, {})
  {
    states, steps := [START], [];
    states, steps := Extend(states, steps, Upload("u"));
    states, steps := Extend(states, steps, Resolve("u"));
    states, steps := Extend(states, steps, Resolve("u"));
    states, steps := Extend(states, steps, CreateJob(JobRow(0, "u", Some(0))));
  }

  /** A sweep has just found the input unshared. */
  lemma PastTheCheck() returns (states: seq<State>, steps: seq<Step>, s: State)
    ensures IsRun(states, steps) && states[|steps|] == s
    ensures Doomed(s.phase, "u") && "u" in s.pending && "u" in s.uploads && s.used == {0} && s.now == 0
  {
    states, steps := TwoSubmissions();
    states, steps := Extend(states, steps, Query(0, [JobRow(0, "u", Some(0))]));
    states, steps := Extend(states, steps, UnlinkOutput);
    states, steps := Extend(states, steps, CheckShared(true));
    s := states[|steps|];
  }

  /** The second creates its job between sharing check and unlink, and loses its input. */
  lemma SurvivorLosesInput() returns (states: seq<State>, steps: seq<Step>)
    ensures IsRun(states, steps)
    ensures Survivor(states[|steps|], 1, "u") && "u" in states[|steps|].taken && "u" !in states[|steps|].files
  {
    var s;
    states, steps, s := PastTheCheck();
    states, steps := Extend(states, steps, CreateJob(JobRow(1, "u", None)));
    states, steps := Extend(states, steps, UnlinkInput);
  }

  /** A job without input, done and past its time, with output o. */
  lemma ExpiredOutput() returns (states: seq<State>, steps: seq<Step>, r: Row)
    ensures IsRun(states, steps) && r.id == 0 && r.inputPath == "" && r.outputPath == "o" && IsExpired(r, 0)
    ensures states[|steps|] == State(0, true, map[0 := r], {0}, {}, {"o"}, {"o"}, multiset{}, Idle, {})
  {
    states, steps := [START], [];
    states, steps := Extend(states, steps, CreateJob(JobRow(0, "", Some(0))));
    states, steps := Extend(states, steps, UpdateRow(0, ToOutput("o", 1, "", 0)));
    r := states[|steps|].rows[0];
  }

  /** The shutdown comes during the sweep: the row stays, and its output is gone. */
  lemma RowOutlivesOutput() returns (states: seq<State>, steps: seq<Step>)
    ensures IsRun(states, steps) && steps != [] && steps[|steps| - 1].Finish?
    ensures var s := states[|steps|]; 0 in s.rows && s.rows[0].outputPath == "o" && "o" in s.taken && "o" !in s.files
  {
    var r;
    states, steps, r := ExpiredOutput();
    states, steps := Extend(states, steps, Query(0, [r]));
    states, steps := Extend(states, steps, Shutdown);
    states, steps := Extend(states, steps, UnlinkOutput);
    states, steps := Extend(states, steps, CheckShared(false));
    states, steps := Extend(states, steps, DeleteRow(false));
    states, steps := Extend(states, steps, Finish);
  }
}
