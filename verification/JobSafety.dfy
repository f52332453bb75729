/** What every reachable state of the job protocol keeps. */
module JobSafety {
  import opened Common
  import opened JobTable
  import opened JobProtocol

  // ---- Who holds what ----------------------------------------------------------------------

  predicate IsBusy(p: Proc, w: nat, id: JobId) {
    w in p.workers && p.workers[w].Busy? && p.workers[w].id == id
  }

  /** The points before the runner starts. */
  predicate Fresh(at: Point) {
    at.AtLoad? || at.AtRefuse? || at.AtRegister? || at.AtMark? || ((at.AtRead? || at.AtSend?) && at.after.ThenRun?)
  }

  /** The points at which the worker still owes the row its terminal status. */
  predicate Owes(at: Point) {
    Fresh(at) || at.AtRun? || at.AtRecord? || at.AtComplete? || at.AtClose?
  }

  /** The points between the running mark and the terminal write. */
  predicate Started(at: Point) {
    ((at.AtRead? || at.AtSend?) && at.after.ThenRun?) || at.AtRun? || at.AtRecord? || at.AtComplete? || at.AtClose?
  }

  predicate Undecided(at: SubmitPoint) {
    at.AtAnnounce? || at.AtOffer? || at.AtReject?
  }

  predicate SubmitHolds(p: Proc, id: JobId) {
    id in p.submits && Undecided(p.submits[id])
  }

  ghost predicate WorkerHolds(p: Proc, id: JobId) {
    exists w :: IsBusy(p, w, id) && Owes(p.workers[w].at)
  }

  /** The ids Resume has still to deal with. */
  function Pending(m: Mode): seq<JobId> {
    match m
    case Resuming(rest) => rest
    case Dropping(id, rest) => [id] + rest
    case Rereading(id, rest) => [id] + rest
    case Resending(id, rest, row) => [id] + rest
    case _ => []
  }

  // ---- Exclusive ownership -----------------------------------------------------------------

  ghost predicate Exclusive(p: Proc, used: set<JobId>) {
    && Distinct(p.ch) && |p.ch| <= p.cfg.depth && 0 < p.cfg.depth
    && (forall id :: id in p.ch ==> id in used && id !in p.submits && id !in p.lost)
    && (forall id :: id in p.submits ==> id in used && (Undecided(p.submits[id]) ==> id !in p.lost))
    && (forall w :: w in p.workers && p.workers[w].Busy? ==> HeldApart(p, used, p.workers[w]))
    && (forall v, w :: v in p.workers && w in p.workers && v != w && p.workers[v].Busy? && p.workers[w].Busy? ==>
          p.workers[v].id != p.workers[w].id && p.workers[v].exec != p.workers[w].exec)
    && p.lost <= used && p.mine <= used && p.deleted <= used
  }

  predicate HeldApart(p: Proc, used: set<JobId>, b: Worker)
    requires b.Busy?
  {
    b.id in used && b.id !in p.ch && b.id !in p.submits && b.exec < p.nextExec && (Owes(b.at) ==> b.id !in p.lost)
  }

  /** Before the workers start there is nobody else. */
  ghost predicate Quiet(p: Proc, used: set<JobId>) {
    && (!p.mode.Up? ==>
          && p.workers == map[] && p.submits == map[] && p.running == map[] && p.lost == {} && p.mine == {}
          && p.deleted == {} && p.runs == multiset{})
    && Distinct(Pending(p.mode))
    && (forall id :: id in Pending(p.mode) ==> id in used && id !in p.ch)
    && ((p.mode.Booting? || p.mode.Listing?) ==> p.ch == [])
    && (p.closed ==> !p.live && p.mode.Up?)
  }

  /** The running map is exactly the registered executions, each under its own cancel function. */
  ghost predicate RegistryExact(p: Proc) {
    && (forall w :: w in p.workers && p.workers[w].Busy? && Registered(p.workers[w].at) ==>
          p.workers[w].id in p.running && p.running[p.workers[w].id] == p.workers[w].exec)
    && (forall id :: id in p.running ==> exists w :: IsBusy(p, w, id) && Registered(p.workers[w].at))
  }

  // ---- What the row of a held id says ------------------------------------------------------

  predicate RowIs(t: Jobs, id: JobId, queued: bool, running: bool, ended: bool) {
    id in t.rows ==>
      var st := t.rows[id].status;
      if st.Queued? then queued else if st.Running? then running else ended
  }

  predicate WorkerStatus(t: Jobs, id: JobId, at: Point, live: bool) {
    if at.AtLoad? || at.AtRefuse? || at.AtRegister? || at.AtMark? then RowIs(t, id, true, false, false)
    else if at.AtRead? then AfterStatus(t, id, at.after, live)
    else if at.AtSend? then AfterStatus(t, id, at.after, live) && SnapshotFits(at.row.status, at.after)
    else if at.AtUnregister? then RowIs(t, id, false, false, true)
    else (at.AtClose? ==> at.status.Terminal()) && RowIs(t, id, true, true, false)
  }

  predicate AfterStatus(t: Jobs, id: JobId, after: After, live: bool) {
    match after
    case ThenRun => RowIs(t, id, true, true, false)
    case ThenUnregister => RowIs(t, id, false, false, true)
    case ThenIdle => RowIs(t, id, !live, false, true)
  }

  predicate SnapshotFits(st: Status, after: After) {
    match after
    case ThenRun => !st.Terminal()
    case ThenUnregister => st.Terminal()
    case ThenIdle => !st.Running?
  }

  predicate SubmitStatus(t: Jobs, id: JobId, at: SubmitPoint) {
    if Undecided(at) then RowIs(t, id, true, false, false)
    else RowIs(t, id, true, false, true) && (at.AtResend? ==> !at.row.status.Running?)
  }

  predicate ModeStatus(t: Jobs, m: Mode, live: bool) {
    match m
    case Rereading(d, rest) => RowIs(t, d, !live, false, true) && AllQueued(t, rest)
    case Resending(d, rest, row) => !row.status.Running? && RowIs(t, d, !live, false, true) && AllQueued(t, rest)
    case _ => AllQueued(t, Pending(m))
  }

  predicate AllQueued(t: Jobs, ids: seq<JobId>) {
    forall id :: id in ids ==> RowIs(t, id, true, false, false)
  }

  ghost predicate StatusKnown(t: Jobs, p: Proc) {
    && AllQueued(t, p.ch)
    && (forall id :: id in p.submits ==> SubmitStatus(t, id, p.submits[id]))
    && (forall w :: w in p.workers && p.workers[w].Busy? ==> WorkerStatus(t, p.workers[w].id, p.workers[w].at, p.live))
    && ModeStatus(t, p.mode, p.live)
  }

  // ---- Conservation ------------------------------------------------------------------------

  ghost predicate QueuedIsHeld(p: Proc, id: JobId) {
    id in p.ch || id in Pending(p.mode) || SubmitHolds(p, id) || WorkerHolds(p, id) || id in p.lost
  }

  ghost predicate RunningIsHeld(p: Proc, id: JobId) {
    exists w :: IsBusy(p, w, id) && Started(p.workers[w].at)
  }

  /** While the server context is live every queued row is held, and every running row has a
      worker; a lost row is one whose submitter went away. */
  ghost predicate Conserved(t: Jobs, p: Proc) {
    p.live ==>
      && p.lost <= p.gone
      && (p.mode.Listing? ==> forall id :: id in t.rows ==> !t.rows[id].status.Running?)
      && (!p.mode.Booting? && !p.mode.Listing? ==>
            forall id :: id in t.rows ==>
              (t.rows[id].status.Queued? ==> QueuedIsHeld(p, id))
                  && (t.rows[id].status.Running? ==> RunningIsHeld(p, id)))
  }

  // ---- At most one runner invocation per process -------------------------------------------

  ghost predicate RunOnce(p: Proc, used: set<JobId>) {
    && (forall id :: p.runs[id] <= 1)
    && (forall id :: id in p.runs ==> id in used && id !in p.ch && id !in p.submits && id !in Pending(p.mode))
    && (forall w :: w in p.workers && p.workers[w].Busy? && Fresh(p.workers[w].at) ==> p.workers[w].id !in p.runs)
  }

  // ---- The table ---------------------------------------------------------------------------

  predicate FinishTime(r: Row) {
    r.status.Terminal() && r.finishedAt.None? ==> r.error == INTERRUPTED
  }

  ghost predicate RowsKnown(t: Jobs, used: set<JobId>) {
    forall id :: id in t.rows ==> id in used && FinishTime(t.rows[id])
  }

  ghost predicate ProcInv(t: Jobs, used: set<JobId>, p: Proc) {
    && Exclusive(p, used)
    && Quiet(p, used)
    && RegistryExact(p)
    && StatusKnown(t, p)
    && Conserved(t, p)
    && RunOnce(p, used)
  }

  ghost predicate Inv(s: State) {
    && RowsKnown(s.table, s.used)
    && (s.proc.Some? ==> ProcInv(s.table, s.used, s.proc.value))
  }

  // ---- One worker takes a step -------------------------------------------------------------

  /** A write to a row that is not yet terminal and does not lower its status. */
  predicate Advances(r: Row, patch: Patch) {
    && !r.status.Terminal()
    && r.status.Rank() <= Apply(r, patch).status.Rank()
    && FinishTime(Apply(r, patch))
  }

  /** What the effect must respect, given only the worker and its own row. */
  predicate Allowed(t: Jobs, live: bool, b: Worker, e: Effect)
    requires b.Busy?
  {
    && (e.lose ==> !live)
    && (b.id in t.rows && e.write.Some? ==> Advances(t.rows[b.id], e.write.value))
    && match e.next
       case Some(at) =>
         && WorkerStatus(Written(t, b.id, e.write), b.id, at, live)
         && (Owes(at) ==> Owes(b.at) && !e.lose)
         && (if Registered(b.at) == Registered(at) then e.registry.KeepEntry?
             else Registered(at) && e.registry.AddEntry?)
         && (if e.start then Fresh(b.at) && !Fresh(at) else Fresh(at) ==> Fresh(b.at))
       case None =>
         && e.write.None? && !e.start
         && (live ==> RowIs(t, b.id, false, false, true))
         && e.registry == if Registered(b.at) then DropEntry else KeepEntry
  }

  lemma EffectIsAllowed(s: State, p: Proc, b: Worker, a: WorkerAct)
    requires b.Busy? && WorkerStatus(s.table, b.id, b.at, p.live)
    requires EffectOf(s, p, b.id, b.exec, b.at, a).Some?
    ensures Allowed(s.table, p.live, b, EffectOf(s, p, b.id, b.exec, b.at, a).value)
  {
    if a.TimeOut? {
    } else if b.at.AtRun? {
      RunEffectIsAllowed(s, p, b, a);
    } else if b.at.AtRead? || b.at.AtSend? {
      PublishEffectIsAllowed(s, p, b, a);
    } else if b.at.AtRecord? || b.at.AtComplete? || b.at.AtClose? || b.at.AtUnregister? {
      FinishEffectIsAllowed(s, p, b, a);
    } else {
      ClaimEffectIsAllowed(s, p, b, a);
    }
  }

  lemma ClaimEffectIsAllowed(s: State, p: Proc, b: Worker, a: WorkerAct)
    requires b.Busy? && WorkerStatus(s.table, b.id, b.at, p.live) && !a.TimeOut?
    requires !(b.at.AtRun? || b.at.AtRead? || b.at.AtSend?)
    requires !(b.at.AtRecord? || b.at.AtComplete? || b.at.AtClose? || b.at.AtUnregister?)
    requires EffectOf(s, p, b.id, b.exec, b.at, a).Some?
    ensures Allowed(s.table, p.live, b, EffectOf(s, p, b.id, b.exec, b.at, a).value)
  {}

  lemma RunEffectIsAllowed(s: State, p: Proc, b: Worker, a: WorkerAct)
    requires b.Busy? && WorkerStatus(s.table, b.id, b.at, p.live) && b.at.AtRun? && !a.TimeOut?
    requires EffectOf(s, p, b.id, b.exec, b.at, a).Some?
    ensures Allowed(s.table, p.live, b, EffectOf(s, p, b.id, b.exec, b.at, a).value)
  {}

  lemma PublishEffectIsAllowed(s: State, p: Proc, b: Worker, a: WorkerAct)
    requires b.Busy? && WorkerStatus(s.table, b.id, b.at, p.live) && (b.at.AtRead? || b.at.AtSend?) && !a.TimeOut?
    requires EffectOf(s, p, b.id, b.exec, b.at, a).Some?
    ensures Allowed(s.table, p.live, b, EffectOf(s, p, b.id, b.exec, b.at, a).value)
  {}

  lemma FinishEffectIsAllowed(s: State, p: Proc, b: Worker, a: WorkerAct)
    requires b.Busy? && WorkerStatus(s.table, b.id, b.at, p.live) && !a.TimeOut?
    requires b.at.AtRecord? || b.at.AtComplete? || b.at.AtClose? || b.at.AtUnregister?
    requires EffectOf(s, p, b.id, b.exec, b.at, a).Some?
    ensures Allowed(s.table, p.live, b, EffectOf(s, p, b.id, b.exec, b.at, a).value)
  {}

  /** One lemma per part of the invariant, for any allowed effect. */
  lemma ExclusiveAfter(s: State, p: Proc, w: nat, e: Effect)
    requires w in p.workers && p.workers[w].Busy? && Allowed(s.table, p.live, p.workers[w], e)
    requires Exclusive(p, s.used)
    ensures Exclusive(Perform(s, p, w, e).proc.value, s.used)
  {}

  lemma RegistryAfter(s: State, p: Proc, w: nat, e: Effect)
    requires w in p.workers && p.workers[w].Busy? && Allowed(s.table, p.live, p.workers[w], e)
    requires Exclusive(p, s.used) && RegistryExact(p)
    ensures RegistryExact(Perform(s, p, w, e).proc.value)
  {
    var p' := Perform(s, p, w, e).proc.value;
    forall id | id in p'.running
      ensures exists v :: IsBusy(p', v, id) && Registered(p'.workers[v].at)
    {
      if id == p.workers[w].id {
        assert IsBusy(p', w, id) by {
          assert IsBusy(p, w, id);
        }
      } else {
        var v :| IsBusy(p, v, id) && Registered(p.workers[v].at);
        assert IsBusy(p', v, id);
      }
    }
  }

  lemma StatusAfter(s: State, p: Proc, w: nat, e: Effect)
    requires w in p.workers && p.workers[w].Busy? && Allowed(s.table, p.live, p.workers[w], e)
    requires Exclusive(p, s.used) && StatusKnown(s.table, p) && p.mode.Up?
    ensures StatusKnown(Perform(s, p, w, e).table, Perform(s, p, w, e).proc.value)
  {
    var s' := Perform(s, p, w, e);
    var p' := s'.proc.value;
    forall v | v in p'.workers && p'.workers[v].Busy?
      ensures WorkerStatus(s'.table, p'.workers[v].id, p'.workers[v].at, p'.live)
    {
      if v != w {
        assert WorkerStatus(s.table, p.workers[v].id, p.workers[v].at, p.live);
      }
    }
  }

  lemma ConservedAfter(s: State, p: Proc, w: nat, e: Effect)
    requires w in p.workers && p.workers[w].Busy? && Allowed(s.table, p.live, p.workers[w], e)
    requires Conserved(s.table, p) && p.mode.Up?
    ensures Conserved(Perform(s, p, w, e).table, Perform(s, p, w, e).proc.value)
  {
    var s' := Perform(s, p, w, e);
    var p' := s'.proc.value;
    var t' := s'.table;
    if p'.live {
      forall id | id in t'.rows
        ensures (t'.rows[id].status.Queued? ==> QueuedIsHeld(p', id))
        ensures (t'.rows[id].status.Running? ==> RunningIsHeld(p', id))
      {
        if id == p.workers[w].id {
          assert e.next.Some? ==> IsBusy(p', w, id);
        } else {
          assert forall v :: IsBusy(p, v, id) ==> IsBusy(p', v, id) && p'.workers[v] == p.workers[v];
        }
      }
    }
  }

  lemma RunOnceAfter(s: State, p: Proc, w: nat, e: Effect)
    requires w in p.workers && p.workers[w].Busy? && Allowed(s.table, p.live, p.workers[w], e)
    requires Exclusive(p, s.used) && RunOnce(p, s.used) && p.mode.Up?
    ensures RunOnce(Perform(s, p, w, e).proc.value, s.used)
  {}

  lemma RowsAfter(s: State, p: Proc, w: nat, e: Effect)
    requires w in p.workers && p.workers[w].Busy? && Allowed(s.table, p.live, p.workers[w], e)
    requires RowsKnown(s.table, s.used)
    ensures RowsKnown(Perform(s, p, w, e).table, s.used)
  {}

  lemma QuietAfter(s: State, p: Proc, w: nat, e: Effect)
    requires w in p.workers && p.workers[w].Busy? && p.mode.Up? && Quiet(p, s.used)
    ensures Quiet(Perform(s, p, w, e).proc.value, s.used)
  {}

  lemma PerformKeeps(s: State, p: Proc, w: nat, e: Effect)
    requires Inv(s) && s.proc == Some(p) && p.mode.Up?
    requires w in p.workers && p.workers[w].Busy? && Allowed(s.table, p.live, p.workers[w], e)
    ensures Inv(Perform(s, p, w, e))
  {
    RowsAfter(s, p, w, e);
    ExclusiveAfter(s, p, w, e);
    QuietAfter(s, p, w, e);
    RegistryAfter(s, p, w, e);
    StatusAfter(s, p, w, e);
    ConservedAfter(s, p, w, e);
    RunOnceAfter(s, p, w, e);
  }

  /** Taking the oldest id from the channel moves its ownership to the worker. */
  lemma TakeKeeps(s: State, p: Proc, w: nat)
    requires Inv(s) && s.proc == Some(p) && WorkStep(s, p, w, Take).Some?
    ensures Inv(WorkStep(s, p, w, Take).value)
  {
    var s' := WorkStep(s, p, w, Take).value;
    var p' := s'.proc.value;
    var id := p.ch[0];
    assert forall x :: x in p'.ch <==> x in p.ch && x != id;
    TakeRegistry(p, p', w);
    TakeConserved(s.table, p, p', w);
    TakeExclusive(p, p', w, s.used);
    assert WorkerStatus(s.table, id, AtLoad, p.live);
  }

  lemma TakeExclusive(p: Proc, p': Proc, w: nat, used: set<JobId>)
    requires w in p.workers && p.workers[w].Idle? && p.ch != [] && Exclusive(p, used)
    requires p' == p.(ch := p.ch[1..], nextExec := p.nextExec + 1,
                      workers := p.workers[w := Busy(p.ch[0], p.nextExec, AtLoad)])
    ensures Exclusive(p', used)
  {
    assert forall x :: x in p'.ch ==> x in p.ch && x != p.ch[0];
  }

  lemma TakeRegistry(p: Proc, p': Proc, w: nat)
    requires w in p.workers && p.workers[w].Idle? && RegistryExact(p) && p'.running == p.running
    requires exists b :: p'.workers == p.workers[w := b] && b.Busy? && b.at == AtLoad
    ensures RegistryExact(p')
  {
    forall id | id in p'.running
      ensures exists v :: IsBusy(p', v, id) && Registered(p'.workers[v].at)
    {
      var v :| IsBusy(p, v, id) && Registered(p.workers[v].at);
      assert IsBusy(p', v, id);
    }
  }

  lemma TakeConserved(t: Jobs, p: Proc, p': Proc, w: nat)
    requires w in p.workers && p.workers[w].Idle? && p.ch != [] && Conserved(t, p) && p.mode.Up?
    requires p' == p.(ch := p.ch[1..], nextExec := p.nextExec + 1,
                      workers := p.workers[w := Busy(p.ch[0], p.nextExec, AtLoad)])
    ensures Conserved(t, p')
  {
    if p'.live {
      forall id | id in t.rows
        ensures (t.rows[id].status.Queued? ==> QueuedIsHeld(p', id))
        ensures (t.rows[id].status.Running? ==> RunningIsHeld(p', id))
      {
        assert IsBusy(p', w, p.ch[0]);
        assert id in p.ch ==> id == p.ch[0] || id in p'.ch;
        assert forall v :: IsBusy(p, v, id) ==> IsBusy(p', v, id) && p'.workers[v] == p.workers[v];
      }
    }
  }

  lemma LeaveKeeps(s: State, p: Proc, w: nat)
    requires Inv(s) && s.proc == Some(p) && WorkStep(s, p, w, Leave).Some?
    ensures Inv(WorkStep(s, p, w, Leave).value)
  {
    var p' := WorkStep(s, p, w, Leave).value.proc.value;
    LeaveRegistry(p, p');
    SameHolders(s.table, p, p');
  }

  lemma LeaveRegistry(p: Proc, p': Proc)
    requires RegistryExact(p) && p'.running == p.running
    requires forall v :: v in p'.workers && p'.workers[v].Busy? ==> v in p.workers && p'.workers[v] == p.workers[v]
    requires forall v :: v in p.workers && p.workers[v].Busy? ==> v in p'.workers && p'.workers[v] == p.workers[v]
    ensures RegistryExact(p')
  {
    forall id | id in p'.running
      ensures exists v :: IsBusy(p', v, id) && Registered(p'.workers[v].at)
    {
      var v :| IsBusy(p, v, id) && Registered(p.workers[v].at);
      assert IsBusy(p', v, id);
    }
  }

  /** Conservation only looks at who is busy where. */
  lemma SameHolders(t: Jobs, p: Proc, p': Proc)
    requires Conserved(t, p) && p'.live == p.live && p'.mode == p.mode && p.lost == p'.lost && p.gone <= p'.gone
    requires p'.ch == p.ch && p'.submits == p.submits
    requires forall v :: v in p.workers && p.workers[v].Busy? ==> v in p'.workers && p'.workers[v] == p.workers[v]
    ensures Conserved(t, p')
  {
    assert forall v, id :: IsBusy(p, v, id) ==> IsBusy(p', v, id) && p'.workers[v] == p.workers[v];
    assert forall id :: QueuedIsHeld(p, id) ==> QueuedIsHeld(p', id);
    assert forall id :: RunningIsHeld(p, id) ==> RunningIsHeld(p', id);
  }

  lemma WorkKeeps(s: State, p: Proc, w: nat, a: WorkerAct)
    requires Inv(s) && s.proc == Some(p) && WorkStep(s, p, w, a).Some?
    ensures Inv(WorkStep(s, p, w, a).value)
  {
    if a.Take? {
      TakeKeeps(s, p, w);
    } else if a.Leave? {
      LeaveKeeps(s, p, w);
    } else {
      var b := p.workers[w];
      assert WorkerStatus(s.table, b.id, b.at, p.live);
      EffectIsAllowed(s, p, b, a);
      PerformKeeps(s, p, w, EffectOf(s, p, b.id, b.exec, b.at, a).value);
    }
  }

  // ---- One submission takes a step ---------------------------------------------------------

  predicate SubmitAllowed(t: Jobs, p: Proc, id: JobId, at: SubmitPoint, e: SubmitEffect) {
    && (e.lose ==> id in p.gone || !p.live)
    && (id in t.rows && e.write.Some? ==> Advances(t.rows[id], e.write.value))
    && (e.enqueue ==> e.next.None? && !e.lose && Undecided(at) && |p.ch| < p.cfg.depth)
    && (e.enqueue || e.lose || (e.next.Some? && Undecided(e.next.value)) || !Undecided(at) || e.write.Some?)
    && (e.next.None? ==> e.write.None?)
    && (e.write.Some? ==> RowIs(Written(t, id, e.write), id, false, false, true))
    && (e.next.Some? ==>
          && SubmitStatus(Written(t, id, e.write), id, e.next.value)
          && (Undecided(e.next.value) ==> Undecided(at) && !e.lose))
  }

  lemma SubmitEffectIsAllowed(s: State, p: Proc, id: JobId, at: SubmitPoint, a: SubmitAct)
    requires SubmitStatus(s.table, id, at) && SubmitEffectOf(s, p, id, at, a).Some?
    requires p.closed ==> !p.live
    ensures SubmitAllowed(s.table, p, id, at, SubmitEffectOf(s, p, id, at, a).value)
  {}

  lemma SubmitExclusiveAfter(s: State, p: Proc, id: JobId, e: SubmitEffect)
    requires id in p.submits && SubmitAllowed(s.table, p, id, p.submits[id], e)
    requires Exclusive(p, s.used)
    ensures Exclusive(PerformSubmit(s, p, id, e).proc.value, s.used)
  {
    var p' := PerformSubmit(s, p, id, e).proc.value;
    forall w | w in p'.workers && p'.workers[w].Busy?
      ensures HeldApart(p', s.used, p'.workers[w])
    {
      assert HeldApart(p, s.used, p.workers[w]);
    }
  }

  lemma SubmitWorkerStatusAfter(s: State, p: Proc, id: JobId, e: SubmitEffect, w: nat)
    requires id in p.submits && SubmitAllowed(s.table, p, id, p.submits[id], e)
    requires Exclusive(p, s.used) && StatusKnown(s.table, p) && w in p.workers && p.workers[w].Busy?
    ensures WorkerStatus(PerformSubmit(s, p, id, e).table, p.workers[w].id, p.workers[w].at, p.live)
  {
    assert HeldApart(p, s.used, p.workers[w]);
    assert WorkerStatus(s.table, p.workers[w].id, p.workers[w].at, p.live);
  }

  lemma SubmitStatusAfter(s: State, p: Proc, id: JobId, e: SubmitEffect)
    requires id in p.submits && SubmitAllowed(s.table, p, id, p.submits[id], e)
    requires Exclusive(p, s.used) && StatusKnown(s.table, p) && p.mode.Up?
    ensures StatusKnown(PerformSubmit(s, p, id, e).table, PerformSubmit(s, p, id, e).proc.value)
  {
    var s' := PerformSubmit(s, p, id, e);
    var p' := s'.proc.value;
    assert SubmitStatus(s.table, id, p.submits[id]);
    forall w | w in p'.workers && p'.workers[w].Busy?
      ensures WorkerStatus(s'.table, p'.workers[w].id, p'.workers[w].at, p'.live)
    {
      SubmitWorkerStatusAfter(s, p, id, e, w);
    }
    forall x | x in p'.submits
      ensures SubmitStatus(s'.table, x, p'.submits[x])
    {
      assert SubmitStatus(s.table, x, p.submits[x]);
    }
  }

  lemma SubmitConservedAfter(s: State, p: Proc, id: JobId, e: SubmitEffect)
    requires id in p.submits && SubmitAllowed(s.table, p, id, p.submits[id], e)
    requires Exclusive(p, s.used) && Conserved(s.table, p) && StatusKnown(s.table, p) && p.mode.Up?
    ensures Conserved(PerformSubmit(s, p, id, e).table, PerformSubmit(s, p, id, e).proc.value)
  {
    var s' := PerformSubmit(s, p, id, e);
    var p' := s'.proc.value;
    var t' := s'.table;
    if p'.live {
      assert SubmitStatus(s.table, id, p.submits[id]);
      forall x | x in t'.rows
        ensures (t'.rows[x].status.Queued? ==> QueuedIsHeld(p', x))
        ensures (t'.rows[x].status.Running? ==> RunningIsHeld(p', x))
      {
        assert forall v :: IsBusy(p, v, x) ==> IsBusy(p', v, x) && p'.workers[v] == p.workers[v];
      }
    }
  }

  lemma SubmitPerformKeeps(s: State, p: Proc, id: JobId, e: SubmitEffect)
    requires Inv(s) && s.proc == Some(p) && p.mode.Up?
    requires id in p.submits && SubmitAllowed(s.table, p, id, p.submits[id], e)
    ensures Inv(PerformSubmit(s, p, id, e))
  {
    var p' := PerformSubmit(s, p, id, e).proc.value;
    SubmitExclusiveAfter(s, p, id, e);
    SubmitStatusAfter(s, p, id, e);
    SubmitConservedAfter(s, p, id, e);
    SameRegistry(p, p');
  }

  lemma SameRegistry(p: Proc, p': Proc)
    requires RegistryExact(p) && p'.running == p.running && p'.workers == p.workers
    ensures RegistryExact(p')
  {
    forall id | id in p'.running
      ensures exists v :: IsBusy(p', v, id) && Registered(p'.workers[v].at)
    {
      var v :| IsBusy(p, v, id) && Registered(p.workers[v].at);
      assert IsBusy(p', v, id);
    }
  }

  lemma CreateKeeps(s: State, p: Proc, id: JobId, row: Row)
    requires Inv(s) && s.proc == Some(p) && SubmitStep(s, p, id, Create(row)).Some?
    ensures Inv(SubmitStep(s, p, id, Create(row)).value)
  {
    var s' := SubmitStep(s, p, id, Create(row)).value;
    var p' := s'.proc.value;
    SameRegistry(p, p');
    forall w | w in p'.workers && p'.workers[w].Busy?
      ensures HeldApart(p', s'.used, p'.workers[w])
      ensures WorkerStatus(s'.table, p'.workers[w].id, p'.workers[w].at, p'.live)
    {
      assert HeldApart(p, s.used, p.workers[w]);
      assert WorkerStatus(s.table, p.workers[w].id, p.workers[w].at, p.live);
    }
    CreateConserved(s, p, id, row);
    forall x | x in p'.submits
      ensures SubmitStatus(s'.table, x, p'.submits[x])
    {
      assert x != id ==> SubmitStatus(s.table, x, p.submits[x]);
    }
  }

  lemma CreateConserved(s: State, p: Proc, id: JobId, row: Row)
    requires Conserved(s.table, p) && id !in p.submits && SubmitStep(s, p, id, Create(row)).Some?
    ensures Conserved(SubmitStep(s, p, id, Create(row)).value.table, SubmitStep(s, p, id, Create(row)).value.proc.value)
  {
    var s' := SubmitStep(s, p, id, Create(row)).value;
    var p' := s'.proc.value;
    if p'.live {
      forall x | x in s'.table.rows
        ensures (s'.table.rows[x].status.Queued? ==> QueuedIsHeld(p', x))
        ensures (s'.table.rows[x].status.Running? ==> RunningIsHeld(p', x))
      {
        assert x != id ==> x in s.table.rows;
        assert forall v :: IsBusy(p, v, x) ==> IsBusy(p', v, x) && p'.workers[v] == p.workers[v];
      }
    }
  }

  lemma SubmitKeeps(s: State, p: Proc, id: JobId, a: SubmitAct)
    requires Inv(s) && s.proc == Some(p) && SubmitStep(s, p, id, a).Some?
    ensures Inv(SubmitStep(s, p, id, a).value)
  {
    if a.Create? {
      CreateKeeps(s, p, id, a.row);
    } else if a.ClientGone? {
      var p' := SubmitStep(s, p, id, a).value.proc.value;
      SameRegistry(p, p');
      SameHolders(s.table, p, p');
    } else {
      assert SubmitStatus(s.table, id, p.submits[id]);
      SubmitEffectIsAllowed(s, p, id, p.submits[id], a);
      SubmitPerformKeeps(s, p, id, SubmitEffectOf(s, p, id, p.submits[id], a).value);
    }
  }

  // ---- Startup, requests, crashes ----------------------------------------------------------

  lemma StartupKeeps(s: State, p: Proc, a: StartupAct)
    requires Inv(s) && s.proc == Some(p) && StartupStep(s, p, a).Some?
    ensures Inv(StartupStep(s, p, a).value)
  {
    match a {
      case Interrupt(ok) => InterruptKeeps(s, p, ok);
      case List(ok) => ListKeeps(s, p, ok);
      case ResumeOne => ResumeOneKeeps(s, p);
      case DropMark(ok) => DropMarkKeeps(s, p, ok);
      case DropRead(ok) => DropReadKeeps(s, p, ok);
      case DropSend => DropSendKeeps(s, p);
      case StartWorkers => StartWorkersKeeps(s, p);
    }
  }

  /** What Resume has to keep in view: nobody else is there yet. */
  ghost predicate StartupInv(t: Jobs, used: set<JobId>, p: Proc) {
    && p.workers == map[] && p.submits == map[] && p.running == map[] && p.lost == {} && p.mine == {} && p.deleted == {}
    && p.runs == multiset{}
    && !p.closed
    && 0 < p.cfg.depth && |p.ch| <= p.cfg.depth && Distinct(p.ch) && Distinct(Pending(p.mode))
    && (forall id :: id in p.ch ==> id in used && id !in Pending(p.mode))
    && (forall id :: id in Pending(p.mode) ==> id in used)
    && ((p.mode.Booting? || p.mode.Listing?) ==> p.ch == [])
    && AllQueued(t, p.ch) && ModeStatus(t, p.mode, p.live) && Conserved(t, p)
  }

  lemma StartupSuffices(s: State, p: Proc)
    requires RowsKnown(s.table, s.used) && s.proc == Some(p) && StartupInv(s.table, s.used, p)
    ensures Inv(s)
  {}

  lemma InterruptKeeps(s: State, p: Proc, ok: bool)
    requires Inv(s) && s.proc == Some(p) && StartupStep(s, p, Interrupt(ok)).Some?
    ensures Inv(StartupStep(s, p, Interrupt(ok)).value)
  {}

  lemma ListKeeps(s: State, p: Proc, ok: bool)
    requires Inv(s) && s.proc == Some(p) && StartupStep(s, p, List(ok)).Some?
    ensures Inv(StartupStep(s, p, List(ok)).value)
  {
    QueuedIdsMeaning(s.table);
    var s' := StartupStep(s, p, List(ok)).value;
    StartupSuffices(s', s'.proc.value);
  }

  lemma StartWorkersKeeps(s: State, p: Proc)
    requires Inv(s) && s.proc == Some(p) && StartupStep(s, p, StartWorkers).Some?
    ensures Inv(StartupStep(s, p, StartWorkers).value)
  {
    var p' := StartupStep(s, p, StartWorkers).value.proc.value;
    SameHolders(s.table, p.(mode := Up), p');
  }

  lemma ResumeOneKeeps(s: State, p: Proc)
    requires Inv(s) && s.proc == Some(p) && StartupStep(s, p, ResumeOne).Some?
    ensures Inv(StartupStep(s, p, ResumeOne).value)
  {
    var s' := StartupStep(s, p, ResumeOne).value;
    var p' := s'.proc.value;
    var rest := p.mode.rest;
    assert Pending(p.mode) == rest == [rest[0]] + rest[1..];
    HeadApart(rest[0], rest[1..]);
    ResumeOneInv(s.table, s.used, p, p');
    StartupSuffices(s', p');
  }

  lemma ResumeOneInv(t: Jobs, used: set<JobId>, p: Proc, p': Proc)
    requires p.mode.Resuming? && p.mode.rest != [] && StartupInv(t, used, p)
    requires p.mode.rest[0] !in p.mode.rest[1..] && Distinct(p.mode.rest[1..])
    requires p' == if |p.ch| < p.cfg.depth then p.(mode := Resuming(p.mode.rest[1..]), ch := p.ch + [p.mode.rest[0]])
                   else p.(mode := Dropping(p.mode.rest[0], p.mode.rest[1..]))
    ensures StartupInv(t, used, p')
  {
    var rest := p.mode.rest;
    assert rest == [rest[0]] + rest[1..];
    assert rest[0] in Pending(p.mode);
    StartupConserved(t, t, p, p');
  }

  lemma DropMarkKeeps(s: State, p: Proc, ok: bool)
    requires Inv(s) && s.proc == Some(p) && StartupStep(s, p, DropMark(ok)).Some?
    ensures Inv(StartupStep(s, p, DropMark(ok)).value)
  {
    var s' := StartupStep(s, p, DropMark(ok)).value;
    var p' := s'.proc.value;
    HeadApart(p.mode.id, p.mode.rest);
    assert AllQueued(s'.table, p.mode.rest) by {
      assert AllQueued(s.table, Pending(p.mode));
      assert forall x :: x in p.mode.rest ==> x in Pending(p.mode);
    }
    assert Pending(p.mode)[0] == p.mode.id;
    assert RowIs(s.table, p.mode.id, true, false, false);
    assert RowIs(s'.table, p.mode.id, !p.live, false, true);
    StartupConserved(s.table, s'.table, p, p');
    StartupSuffices(s', p');
  }

  lemma HeadApart(id: JobId, rest: seq<JobId>)
    requires Distinct([id] + rest)
    ensures id !in rest && Distinct(rest)
  {
    forall i | 0 <= i < |rest|
      ensures rest[i] != id
    {
      assert ([id] + rest)[0] != ([id] + rest)[i + 1];
    }
    forall i, j | 0 <= i < j < |rest|
      ensures rest[i] != rest[j]
    {
      assert ([id] + rest)[i + 1] != ([id] + rest)[j + 1];
    }
  }

  lemma DropReadKeeps(s: State, p: Proc, ok: bool)
    requires Inv(s) && s.proc == Some(p) && StartupStep(s, p, DropRead(ok)).Some?
    ensures Inv(StartupStep(s, p, DropRead(ok)).value)
  {
    var s' := StartupStep(s, p, DropRead(ok)).value;
    HeadApart(p.mode.id, p.mode.rest);
    StartupConserved(s.table, s.table, p, s'.proc.value);
    StartupSuffices(s', s'.proc.value);
  }

  lemma DropSendKeeps(s: State, p: Proc)
    requires Inv(s) && s.proc == Some(p) && StartupStep(s, p, DropSend).Some?
    ensures Inv(StartupStep(s, p, DropSend).value)
  {
    var s' := StartupStep(s, p, DropSend).value;
    HeadApart(p.mode.id, p.mode.rest);
    StartupConserved(s.table, s.table, p, s'.proc.value);
    StartupSuffices(s', s'.proc.value);
  }

  /** While Resume works through its list, an id leaves it only for the channel or once failed. */
  lemma StartupConserved(t: Jobs, t': Jobs, p: Proc, p': Proc)
    requires Conserved(t, p) && !p.mode.Booting? && !p.mode.Listing? && !p'.mode.Listing?
    requires p'.live == p.live && p'.lost == p.lost && p'.gone == p.gone && p'.submits == p.submits
    requires p'.workers == p.workers
    requires t'.rows.Keys == t.rows.Keys
    requires forall id :: id in t.rows ==>
      t'.rows[id] == t.rows[id] || (t'.rows[id].status.Terminal() && id in Pending(p.mode))
    requires p.live ==> forall id :: id in p.ch || id in Pending(p.mode) ==>
      id in p'.ch || id in Pending(p'.mode) || RowIs(t', id, false, false, true)
    ensures Conserved(t', p')
  {
    assert forall v, id :: IsBusy(p, v, id) ==> IsBusy(p', v, id);
    forall id | p.live && id in t'.rows
      ensures (t'.rows[id].status.Queued? ==> QueuedIsHeld(p', id))
      ensures (t'.rows[id].status.Running? ==> RunningIsHeld(p', id))
    {
      assert t.rows[id].status.Queued? ==> QueuedIsHeld(p, id);
      assert t.rows[id].status.Running? ==> RunningIsHeld(p, id);
    }
  }

  predicate RequestOnly(p: Proc, p': Proc) {
    && p' == p.(aimed := p'.aimed, causes := p'.causes, deleted := p'.deleted, log := p'.log, live := p'.live,
                closed := p'.closed)
    && (p'.live ==> p.live)
  }

  predicate FewerRows(t: Jobs, t': Jobs) {
    forall id :: id in t'.rows ==> id in t.rows && t'.rows[id] == t.rows[id]
  }

  lemma RequestExclusive(p: Proc, p': Proc, used: set<JobId>)
    requires Exclusive(p, used) && RequestOnly(p, p') && p'.deleted <= used
    ensures Exclusive(p', used)
  {
    assert forall w :: w in p.workers && p.workers[w].Busy? ==> HeldApart(p, used, p.workers[w]) ==>
        HeldApart(p', used, p'.workers[w]);
  }

  lemma RequestStatus(t: Jobs, t': Jobs, p: Proc, p': Proc)
    requires StatusKnown(t, p) && RequestOnly(p, p') && FewerRows(t, t')
    ensures StatusKnown(t', p')
  {
    forall w | w in p'.workers && p'.workers[w].Busy?
      ensures WorkerStatus(t', p'.workers[w].id, p'.workers[w].at, p'.live)
    {
      assert WorkerStatus(t, p.workers[w].id, p.workers[w].at, p.live);
    }
    forall x | x in p'.submits
      ensures SubmitStatus(t', x, p'.submits[x])
    {
      assert SubmitStatus(t, x, p.submits[x]);
    }
  }

  lemma RequestConserved(t: Jobs, t': Jobs, p: Proc, p': Proc)
    requires Conserved(t, p) && RequestOnly(p, p') && FewerRows(t, t')
    ensures Conserved(t', p')
  {
    assert forall v, id :: IsBusy(p, v, id) ==> IsBusy(p', v, id);
    forall id | p'.live && id in t'.rows && !p.mode.Booting? && !p.mode.Listing?
      ensures (t'.rows[id].status.Queued? ==> QueuedIsHeld(p', id))
      ensures (t'.rows[id].status.Running? ==> RunningIsHeld(p', id))
    {
      assert t.rows[id].status.Queued? ==> QueuedIsHeld(p, id);
      assert t.rows[id].status.Running? ==> RunningIsHeld(p, id);
    }
  }

  lemma RequestShape(s: State, p: Proc, a: RequestAct)
    requires s.proc == Some(p) && RequestStep(s, p, a).Some?
    ensures var s' := RequestStep(s, p, a).value;
            && s'.proc.Some? && RequestOnly(p, s'.proc.value) && FewerRows(s.table, s'.table) && s'.used == s.used
            && (s'.proc.value.closed ==> p.closed || (!s'.proc.value.live && p.mode.Up?))
            && (forall id :: id in s'.proc.value.deleted ==> id in p.deleted || (p.mode.Up? && id in s.table.rows))
  {}

  lemma RequestQuiet(p: Proc, p': Proc, used: set<JobId>)
    requires Quiet(p, used) && RequestOnly(p, p') && (p'.closed ==> p.closed || (!p'.live && p.mode.Up?))
    requires forall id :: id in p'.deleted ==> id in p.deleted || p.mode.Up?
    ensures Quiet(p', used)
  {
    assert !p.mode.Up? ==> p'.deleted == {};
  }

  lemma RequestRunOnce(p: Proc, p': Proc, used: set<JobId>)
    requires RunOnce(p, used) && RequestOnly(p, p')
    ensures RunOnce(p', used)
  {}

  lemma RequestKeeps(s: State, p: Proc, a: RequestAct)
    requires Inv(s) && s.proc == Some(p) && RequestStep(s, p, a).Some?
    ensures Inv(RequestStep(s, p, a).value)
  {
    var s' := RequestStep(s, p, a).value;
    RequestShape(s, p, a);
    RequestProcKeeps(s.table, s'.table, s.used, p, s'.proc.value);
  }

  lemma RequestProcKeeps(t: Jobs, t': Jobs, used: set<JobId>, p: Proc, p': Proc)
    requires ProcInv(t, used, p) && RowsKnown(t, used) && RequestOnly(p, p') && FewerRows(t, t')
    requires p'.closed ==> p.closed || (!p'.live && p.mode.Up?)
    requires forall id :: id in p'.deleted ==> id in p.deleted || (p.mode.Up? && id in t.rows)
    ensures ProcInv(t', used, p') && RowsKnown(t', used)
  {
    SameRegistry(p, p');
    RequestExclusive(p, p', used);
    RequestQuiet(p, p', used);
    RequestStatus(t, t', p, p');
    RequestConserved(t, t', p, p');
    RequestRunOnce(p, p', used);
  }

  /** Every step of every kind, crash and boot included, keeps the invariant. */
  lemma StepKeeps(s: State, st: Step)
    requires Inv(s) && Next(s, st).Some?
    ensures Inv(Next(s, st).value)
  {
    match st {
      case Tick(_) =>
      case Boot(_) =>
      case Crash =>
      case Startup(a) => StartupKeeps(s, s.proc.value, a);
      case Submit(id, a) => SubmitKeeps(s, s.proc.value, id, a);
      case Work(w, a) => WorkKeeps(s, s.proc.value, w, a);
      case Request(a) => RequestKeeps(s, s.proc.value, a);
    }
  }
}
