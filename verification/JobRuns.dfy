/** Theorems about whole runs of the job protocol, over any number of processes and crashes. */
module JobRuns {
  import opened Common
  import opened JobTable
  import opened JobProtocol
  import opened JobSafety

  lemma {:induction false} RunKeepsInv(states: seq<State>, steps: seq<Step>, i: nat)
    requires IsRun(states, steps) && i < |states|
    ensures Inv(states[i])
  {
    if i > 0 {
      RunKeepsInv(states, steps, i - 1);
      StepKeeps(states[i - 1], steps[i - 1]);
    }
  }

  lemma RunStep(states: seq<State>, steps: seq<Step>, i: nat)
    requires IsRun(states, steps) && i < |steps|
    ensures Next(states[i], steps[i]) == Some(states[i + 1])
  {}

  // ---- What startup leaves alone -----------------------------------------------------------

  /** Startup moves the list on, fills the channel, publishes, and in the end adds idle workers. */
  predicate StartupOnly(p: Proc, p': Proc) {
    && p' == p.(mode := p'.mode, ch := p'.ch, workers := p'.workers, log := p'.log)
    && (p.workers == map[] ==> forall w :: w in p'.workers ==> !p'.workers[w].Busy?)
  }

  lemma StartupShape(s: State, p: Proc, a: StartupAct)
    requires StartupStep(s, p, a).Some?
    ensures StartupStep(s, p, a).value.proc.Some? && StartupOnly(p, StartupStep(s, p, a).value.proc.value)
  {
    match a {
      case Interrupt(ok) => InterruptShape(s, p, ok);
      case List(ok) => ListShape(s, p, ok);
      case ResumeOne => ResumeOneShape(s, p);
      case DropMark(ok) => DropMarkShape(s, p, ok);
      case DropRead(ok) => DropReadShape(s, p, ok);
      case DropSend => DropSendShape(s, p);
      case StartWorkers => StartWorkersShape(s, p);
    }
  }

  lemma InterruptShape(s: State, p: Proc, ok: bool)
    requires StartupStep(s, p, Interrupt(ok)).Some?
    ensures p.mode.Booting? && StartupStep(s, p, Interrupt(ok)).value.proc == Some(p.(mode := Listing))
  {}

  lemma DropMarkShape(s: State, p: Proc, ok: bool)
    requires StartupStep(s, p, DropMark(ok)).Some?
    ensures p.mode.Dropping?
    ensures StartupStep(s, p, DropMark(ok)).value.proc == Some(p.(mode := Rereading(p.mode.id, p.mode.rest)))
  {}

  lemma DropReadShape(s: State, p: Proc, ok: bool)
    requires StartupStep(s, p, DropRead(ok)).Some?
    ensures p.mode.Rereading?
    ensures StartupStep(s, p, DropRead(ok)).value.proc ==
            Some(p.(mode := if ok && p.mode.id in s.table.rows
                    then Resending(p.mode.id, p.mode.rest, s.table.rows[p.mode.id])
                            else Resuming(p.mode.rest)))
  {}

  lemma DropSendShape(s: State, p: Proc)
    requires StartupStep(s, p, DropSend).Some?
    ensures p.mode.Resending?
    ensures StartupStep(s, p, DropSend).value.proc ==
            Some(p.(mode := Resuming(p.mode.rest), log := p.log + [StatusEvent(p.mode.id, p.mode.row.status)]))
  {}

  lemma ResumeOneShape(s: State, p: Proc)
    requires StartupStep(s, p, ResumeOne).Some?
    ensures p.mode.Resuming? && p.mode.rest != []
    ensures StartupStep(s, p, ResumeOne).value.proc ==
            Some(if |p.ch| < p.cfg.depth then p.(mode := Resuming(p.mode.rest[1..]), ch := p.ch + [p.mode.rest[0]])
                 else p.(mode := Dropping(p.mode.rest[0], p.mode.rest[1..])))
  {}

  lemma StartWorkersShape(s: State, p: Proc)
    requires StartupStep(s, p, StartWorkers).Some?
    ensures p.mode == Resuming([])
    ensures StartupStep(s, p, StartWorkers).value.proc == Some(p.(mode := Up, workers := IdleWorkers(p.cfg.workers)))
  {}

  lemma ListShape(s: State, p: Proc, ok: bool)
    requires StartupStep(s, p, List(ok)).Some?
    ensures p.mode.Listing?
    ensures StartupStep(s, p, List(ok)).value.proc == Some(p.(mode := Resuming(if ok then QueuedIds(s.table) else [])))
  {}

  predicate GivingUp(m: Mode) {
    m.Dropping? || m.Rereading? || m.Resending?
  }

  /** Giving an id up moves the list on and changes nothing else that anybody holds. */
  predicate Shrinks(p: Proc, p': Proc)
    requires GivingUp(p.mode)
  {
    && p'.ch == p.ch && p'.submits == p.submits && p'.workers == p.workers && p'.runs == p.runs
    && !p'.mode.Booting? && !p'.mode.Listing?
    && (Pending(p'.mode) == Pending(p.mode) || Pending(p.mode) == [p.mode.id] + Pending(p'.mode))
  }

  lemma DropShrinks(s: State, p: Proc, a: StartupAct)
    requires GivingUp(p.mode) && StartupStep(s, p, a).Some?
    ensures StartupStep(s, p, a).value.proc.Some? && Shrinks(p, StartupStep(s, p, a).value.proc.value)
  {
    match a {
      case DropMark(ok) => DropMarkShape(s, p, ok);
      case DropRead(ok) => DropReadShape(s, p, ok);
      case DropSend => DropSendShape(s, p);
    }
  }

  // ---- Terminal is final, although SetStatus has no guard ----------------------------------

  /** What one step may do to the row of id, wherever it is. */
  ghost predicate RowFlows(t: Jobs, t': Jobs, used: set<JobId>, id: JobId) {
    && (id in t.rows && id in t'.rows ==>
          && t.rows[id].status.Rank() <= t'.rows[id].status.Rank()
          && (t.rows[id].status.Terminal() ==> t'.rows[id] == t.rows[id]))
    && (id in used && id !in t.rows ==> id !in t'.rows)
  }

  lemma StepFlows(s: State, st: Step, id: JobId)
    requires Inv(s) && Next(s, st).Some?
    ensures RowFlows(s.table, Next(s, st).value.table, s.used, id)
    ensures s.used <= Next(s, st).value.used
  {
    match st {
      case Tick(_) =>
      case Boot(_) =>
      case Crash =>
      case Startup(a) => StartupFlows(s, s.proc.value, a, id);
      case Submit(sid, a) => SubmitFlows(s, s.proc.value, sid, a, id);
      case Work(w, a) => WorkFlows(s, s.proc.value, w, a, id);
      case Request(a) => RequestFlows(s, s.proc.value, a, id);
    }
  }

  lemma RequestFlows(s: State, p: Proc, a: RequestAct, id: JobId)
    requires RequestStep(s, p, a).Some?
    ensures RowFlows(s.table, RequestStep(s, p, a).value.table, s.used, id)
    ensures RequestStep(s, p, a).value.used == s.used
  {}

  lemma PerformFlows(s: State, p: Proc, w: nat, e: Effect, id: JobId)
    requires w in p.workers && p.workers[w].Busy? && Allowed(s.table, p.live, p.workers[w], e)
    ensures RowFlows(s.table, Perform(s, p, w, e).table, s.used, id)
    ensures Perform(s, p, w, e).used == s.used
  {}

  lemma WorkFlows(s: State, p: Proc, w: nat, a: WorkerAct, id: JobId)
    requires Inv(s) && s.proc == Some(p) && WorkStep(s, p, w, a).Some?
    ensures RowFlows(s.table, WorkStep(s, p, w, a).value.table, s.used, id)
    ensures WorkStep(s, p, w, a).value.used == s.used
  {
    if !a.Take? && !a.Leave? {
      var b := p.workers[w];
      assert WorkerStatus(s.table, b.id, b.at, p.live);
      EffectIsAllowed(s, p, b, a);
      PerformFlows(s, p, w, EffectOf(s, p, b.id, b.exec, b.at, a).value, id);
    }
  }

  lemma SubmitFlows(s: State, p: Proc, sid: JobId, a: SubmitAct, id: JobId)
    requires Inv(s) && s.proc == Some(p) && SubmitStep(s, p, sid, a).Some?
    ensures RowFlows(s.table, SubmitStep(s, p, sid, a).value.table, s.used, id)
    ensures s.used <= SubmitStep(s, p, sid, a).value.used
  {
    if !a.Create? && !a.ClientGone? {
      assert SubmitStatus(s.table, sid, p.submits[sid]);
      SubmitEffectIsAllowed(s, p, sid, p.submits[sid], a);
    }
  }

  lemma StartupFlows(s: State, p: Proc, a: StartupAct, id: JobId)
    requires Inv(s) && s.proc == Some(p) && StartupStep(s, p, a).Some?
    ensures RowFlows(s.table, StartupStep(s, p, a).value.table, s.used, id)
    ensures StartupStep(s, p, a).value.used == s.used
  {
    if p.mode.Dropping? {
      assert Pending(p.mode)[0] == p.mode.id;
      assert ModeStatus(s.table, p.mode, p.live);
      DropFlows(s, p, a, id);
    } else {
      OtherStartupFlows(s, p, a, id);
    }
  }

  lemma OtherStartupFlows(s: State, p: Proc, a: StartupAct, id: JobId)
    requires !p.mode.Dropping? && StartupStep(s, p, a).Some?
    ensures RowFlows(s.table, StartupStep(s, p, a).value.table, s.used, id)
    ensures StartupStep(s, p, a).value.used == s.used
  {}

  lemma DropFlows(s: State, p: Proc, a: StartupAct, id: JobId)
    requires p.mode.Dropping? && RowIs(s.table, p.mode.id, true, false, false) && StartupStep(s, p, a).Some?
    ensures RowFlows(s.table, StartupStep(s, p, a).value.table, s.used, id)
    ensures StartupStep(s, p, a).value.used == s.used
  {}

  lemma FlowsCompose(t: Jobs, t1: Jobs, t2: Jobs, used: set<JobId>, used1: set<JobId>, id: JobId)
    requires RowFlows(t, t1, used, id) && RowFlows(t1, t2, used1, id) && used <= used1 && (id in t.rows ==> id in used)
    ensures RowFlows(t, t2, used, id)
  {}

  /** Over any stretch of any run: a row's rank never falls, a terminal row never changes in any
      column again, and a deleted row never comes back. */
  lemma {:induction false} TerminalIsFinal(states: seq<State>, steps: seq<Step>, i: nat, j: nat, id: JobId)
    requires IsRun(states, steps) && i <= j < |states|
    ensures RowFlows(states[i].table, states[j].table, states[i].used, id)
    ensures states[i].used <= states[j].used
    decreases j
  {
    if i < j {
      TerminalIsFinal(states, steps, i, j - 1, id);
      RunKeepsInv(states, steps, j - 1);
      RunKeepsInv(states, steps, i);
      RunStep(states, steps, j - 1);
      StepFlows(states[j - 1], steps[j - 1], id);
      FlowsCompose(states[i].table, states[j - 1].table, states[j].table, states[i].used, states[j - 1].used, id);
    }
  }

  /** The only terminal rows that ever lack a finish time are those cut off by a restart. */
  lemma MissingFinishTime(states: seq<State>, steps: seq<Step>, i: nat, id: JobId)
    requires IsRun(states, steps) && i < |states| && id in states[i].table.rows
    requires var r := states[i].table.rows[id]; r.status.Terminal() && r.finishedAt.None?
    ensures states[i].table.rows[id].error == INTERRUPTED
  {
    RunKeepsInv(states, steps, i);
  }

  // ---- Exclusive ownership and conservation ------------------------------------------------

  ghost function HolderCount(p: Proc, id: JobId): nat {
    (if id in p.ch then 1 else 0) + (if SubmitHolds(p, id) then 1 else 0)
    + (if WorkerHolds(p, id) then 1 else 0) + (if id in p.lost then 1 else 0)
  }

  /** In a serving process with a live server context, every queued row is in exactly one place:
      once in the channel, with its Submit, with exactly one worker that has not finished it, or
      given up by a Submit whose client went away. Every running row has exactly one worker. */
  lemma ExactlyOneHolder(states: seq<State>, steps: seq<Step>, i: nat, id: JobId)
    requires IsRun(states, steps) && i < |states| && states[i].proc.Some?
    requires states[i].proc.value.live && states[i].proc.value.mode.Up? && id in states[i].table.rows
    ensures var p := states[i].proc.value;
            && Distinct(p.ch) && p.lost <= p.gone
            && (states[i].table.rows[id].status.Queued? ==> HolderCount(p, id) == 1)
            && (states[i].table.rows[id].status.Running? ==>
                  exists w :: IsBusy(p, w, id) && Started(p.workers[w].at) && forall v :: IsBusy(p, v, id) ==> v == w)
            && (forall v, w :: IsBusy(p, v, id) && IsBusy(p, w, id) ==> v == w)
  {
    RunKeepsInv(states, steps, i);
    var p := states[i].proc.value;
    forall w | IsBusy(p, w, id)
      ensures HeldApart(p, states[i].used, p.workers[w])
    {}
  }

  /** Without the live-context assumption: nothing is ever held twice. */
  lemma NeverTwoHolders(states: seq<State>, steps: seq<Step>, i: nat, id: JobId)
    requires IsRun(states, steps) && i < |states| && states[i].proc.Some?
    ensures HolderCount(states[i].proc.value, id) <= 1
  {
    RunKeepsInv(states, steps, i);
    var p := states[i].proc.value;
    forall w | IsBusy(p, w, id)
      ensures HeldApart(p, states[i].used, p.workers[w])
    {}
  }

  /** Within a process, no job is handed to a runner twice. */
  lemma RunsAtMostOnce(states: seq<State>, steps: seq<Step>, i: nat, id: JobId)
    requires IsRun(states, steps) && i < |states| && states[i].proc.Some?
    ensures states[i].proc.value.runs[id] <= 1
  {
    RunKeepsInv(states, steps, i);
  }

  /** The running map at any moment names exactly the registered executions, so an exiting worker
      removes its own entry and no other, and Cancel finds the job's one execution. */
  lemma UnregisterRemovesOwnEntry(states: seq<State>, steps: seq<Step>, i: nat, w: nat)
    requires IsRun(states, steps) && i < |steps| && steps[i] == Work(w, Unregister)
    ensures states[i].proc.Some? && states[i + 1].proc.Some? && w in states[i].proc.value.workers
    ensures var p, p' := states[i].proc.value, states[i + 1].proc.value;
            var b := p.workers[w];
            && b.Busy? && b.id in p.running && p.running[b.id] == b.exec
            && p'.running == p.running - {b.id}
            && EntriesStand(p')
  {
    RunKeepsInv(states, steps, i);
    RunKeepsInv(states, steps, i + 1);
    RunStep(states, steps, i);
    UnregisterStep(states[i], w);
  }

  /** Every registered execution still has its own entry. */
  ghost predicate EntriesStand(p: Proc) {
    forall v :: v in p.workers && p.workers[v].Busy? && Registered(p.workers[v].at) ==>
      p.workers[v].id in p.running && p.running[p.workers[v].id] == p.workers[v].exec
  }

  lemma UnregisterStep(s: State, w: nat)
    requires s.proc.Some? && RegistryExact(s.proc.value) && Next(s, Work(w, Unregister)).Some?
    ensures var p := s.proc.value;
            && w in p.workers && p.workers[w].Busy? && Next(s, Work(w, Unregister)).value.proc.Some?
            && p.workers[w].id in p.running && p.running[p.workers[w].id] == p.workers[w].exec
            && Next(s, Work(w, Unregister)).value.proc.value.running == p.running - {p.workers[w].id}
  {}

  /** Execution exec, if anybody still runs it, runs job id. */
  ghost predicate Belongs(s: State, exec: nat, id: JobId) {
    && s.proc.Some? && exec < s.proc.value.nextExec
    && var workers := s.proc.value.workers;
       forall w :: w in workers && workers[w].Busy? && workers[w].exec == exec ==> workers[w].id == id
  }

  lemma BelongsStays(s: State, st: Step, exec: nat, id: JobId)
    requires Inv(s) && Belongs(s, exec, id) && Next(s, st).Some? && !st.Crash?
    ensures Belongs(Next(s, st).value, exec, id)
  {
    match st {
      case Tick(_) =>
      case Boot(_) =>
      case Startup(a) => StartupShape(s, s.proc.value, a);
      case Submit(sid, a) => BelongsSubmit(s, s.proc.value, sid, a);
      case Work(w, a) => BelongsWork(s, s.proc.value, w, a, exec, id);
      case Request(a) => BelongsRequest(s, s.proc.value, a);
    }
  }

  lemma BelongsSubmit(s: State, p: Proc, sid: JobId, a: SubmitAct)
    requires SubmitStep(s, p, sid, a).Some?
    ensures var s' := SubmitStep(s, p, sid, a).value;
            s'.proc.Some? && s'.proc.value.workers == p.workers && s'.proc.value.nextExec == p.nextExec
  {}

  lemma BelongsRequest(s: State, p: Proc, a: RequestAct)
    requires RequestStep(s, p, a).Some?
    ensures var s' := RequestStep(s, p, a).value;
            s'.proc.Some? && s'.proc.value.workers == p.workers && s'.proc.value.nextExec == p.nextExec
  {}

  lemma BelongsWork(s: State, p: Proc, w: nat, a: WorkerAct, exec: nat, id: JobId)
    requires s.proc == Some(p) && Belongs(s, exec, id) && WorkStep(s, p, w, a).Some?
    ensures Belongs(WorkStep(s, p, w, a).value, exec, id)
  {}

  /** A cancel function looked up for a job, called however much later, can only reach that job. */
  lemma {:induction false} CancelHitsOnlyItsJob(states: seq<State>, steps: seq<Step>, i: nat, j: nat, id: JobId)
    requires IsRun(states, steps) && i <= j < |states|
    requires states[i].proc.Some? && id in states[i].proc.value.running
    requires forall k :: i <= k < j ==> !steps[k].Crash?
    ensures Belongs(states[j], states[i].proc.value.running[id], id)
    decreases j
  {
    RunKeepsInv(states, steps, i);
    if i == j {
      var p := states[i].proc.value;
      var w :| IsBusy(p, w, id) && Registered(p.workers[w].at);
      assert HeldApart(p, states[i].used, p.workers[w]);
    } else {
      CancelHitsOnlyItsJob(states, steps, i, j - 1, id);
      RunKeepsInv(states, steps, j - 1);
      RunStep(states, steps, j - 1);
      BelongsStays(states[j - 1], steps[j - 1], states[i].proc.value.running[id], id);
    }
  }

  // ---- Stranded rows: exactly when ---------------------------------------------------------

  /** While the process lives, the one step that gives a row up is a Submit's failing write that
      did not happen. */
  lemma StepLoses(s: State, st: Step)
    requires Inv(s) && Next(s, st).Some? && s.proc.Some? && Next(s, st).value.proc.Some?
    requires Next(s, st).value.proc.value.live
    ensures s.proc.value.live
    ensures var p, p' := s.proc.value, Next(s, st).value.proc.value;
            forall id :: id in p'.lost <==> id in p.lost || st == Submit(id, Reject(false))
  {
    StaysLive(s, st);
    match st {
      case Tick(_) =>
      case Startup(a) => StartupShape(s, s.proc.value, a);
      case Submit(id, a) => SubmitLoses(s, s.proc.value, id, a);
      case Work(w, a) => WorkLoses(s, s.proc.value, w, a);
      case Request(a) => RequestLoses(s, s.proc.value, a);
    }
  }

  /** A shutdown is for good. */
  lemma StaysLive(s: State, st: Step)
    requires Next(s, st).Some? && s.proc.Some? && Next(s, st).value.proc.Some? && Next(s, st).value.proc.value.live
    ensures s.proc.value.live && !st.Boot? && !st.Crash?
  {
    match st {
      case Startup(a) => StartupShape(s, s.proc.value, a);
      case Submit(id, a) => SubmitKeepsLive(s, s.proc.value, id, a);
      case Work(w, a) => WorkKeepsLive(s, s.proc.value, w, a);
      case Request(a) => RequestMayEnd(s, s.proc.value, a);
      case _ =>
    }
  }

  lemma RequestMayEnd(s: State, p: Proc, a: RequestAct)
    requires RequestStep(s, p, a).Some? && RequestStep(s, p, a).value.proc.Some?
    ensures RequestStep(s, p, a).value.proc.value.live ==> p.live
  {}

  lemma SubmitKeepsLive(s: State, p: Proc, id: JobId, a: SubmitAct)
    requires SubmitStep(s, p, id, a).Some? && SubmitStep(s, p, id, a).value.proc.Some?
    ensures SubmitStep(s, p, id, a).value.proc.value.live == p.live
  {}

  lemma WorkKeepsLive(s: State, p: Proc, w: nat, a: WorkerAct)
    requires WorkStep(s, p, w, a).Some? && WorkStep(s, p, w, a).value.proc.Some?
    ensures WorkStep(s, p, w, a).value.proc.value.live == p.live
  {}

  lemma RequestLoses(s: State, p: Proc, a: RequestAct)
    requires s.proc == Some(p) && RequestStep(s, p, a).Some?
    ensures RequestStep(s, p, a).value.proc.Some? && RequestStep(s, p, a).value.proc.value.lost == p.lost
  {}

  lemma SubmitLoses(s: State, p: Proc, id: JobId, a: SubmitAct)
    requires s.proc == Some(p) && SubmitStep(s, p, id, a).Some? && !p.closed
    ensures SubmitStep(s, p, id, a).value.proc.value.lost == if a == Reject(false) then p.lost + {id} else p.lost
  {}

  lemma WorkLoses(s: State, p: Proc, w: nat, a: WorkerAct)
    requires s.proc == Some(p) && WorkStep(s, p, w, a).Some? && p.live
    ensures WorkStep(s, p, w, a).value.proc.value.lost == p.lost
  {}

  /** Nobody is going to do anything about this row. */
  ghost predicate Unheld(p: Proc, id: JobId) {
    id !in p.ch && !SubmitHolds(p, id) && !WorkerHolds(p, id)
  }

  /** A live process's earlier states are its own from the moment it booted. */
  lemma SameProcess(states: seq<State>, steps: seq<Step>, i: nat)
    requires IsRun(states, steps) && 0 < i < |states| && states[i].proc.Some? && !steps[i - 1].Boot?
    ensures states[i - 1].proc.Some? && !steps[i - 1].Crash?
  {
    RunStep(states, steps, i - 1);
  }

  /** Step r is the failing write of a refused Submit on its canceled request context; the process
      has not crashed since. */
  ghost predicate GaveUp(steps: seq<Step>, r: nat, i: nat, id: JobId) {
    r < i <= |steps| && steps[r] == Submit(id, Reject(false)) && forall k :: r < k < i ==> !steps[k].Crash?
  }

  /** A row given up by now was given up before, or just now. */
  lemma LostBefore(states: seq<State>, steps: seq<Step>, i: nat, id: JobId)
    requires IsRun(states, steps) && i < |steps| && states[i].proc.Some?
    requires states[i + 1].proc.Some? && states[i + 1].proc.value.live && id in states[i + 1].proc.value.lost
    ensures id in states[i].proc.value.lost || steps[i] == Submit(id, Reject(false))
  {
    RunKeepsInv(states, steps, i);
    RunStep(states, steps, i);
    StepLoses(states[i], steps[i]);
  }

  /** A process that has given up a row, or has a submission, did not boot with the last step. */
  lemma NotJustBooted(states: seq<State>, steps: seq<Step>, i: nat)
    requires IsRun(states, steps) && i < |states| && states[i].proc.Some?
    requires states[i].proc.value.lost != {} || states[i].proc.value.submits != map[]
    ensures i > 0 && !steps[i - 1].Boot?
  {
    if i > 0 {
      RunStep(states, steps, i - 1);
    }
  }

  /** And stays given up. */
  lemma LostAfter(states: seq<State>, steps: seq<Step>, i: nat, id: JobId)
    requires IsRun(states, steps) && i < |steps| && states[i].proc.Some?
    requires states[i + 1].proc.Some? && states[i + 1].proc.value.live
    requires steps[i] == Submit(id, Reject(false)) || id in states[i].proc.value.lost
    ensures id in states[i + 1].proc.value.lost
  {
    RunKeepsInv(states, steps, i);
    RunStep(states, steps, i);
    StepLoses(states[i], steps[i]);
  }

  lemma LiveBefore(states: seq<State>, steps: seq<Step>, i: nat)
    requires IsRun(states, steps) && i < |steps| && states[i].proc.Some?
    requires states[i + 1].proc.Some? && states[i + 1].proc.value.live
    ensures states[i].proc.value.live
  {
    RunStep(states, steps, i);
    StaysLive(states[i], steps[i]);
  }

  lemma {:induction false} LostHistory(states: seq<State>, steps: seq<Step>, i: nat, id: JobId) returns (r: nat)
    requires IsRun(states, steps) && i < |states| && states[i].proc.Some? && states[i].proc.value.live
    requires id in states[i].proc.value.lost
    ensures GaveUp(steps, r, i, id)
  {
    NotJustBooted(states, steps, i);
    SameProcess(states, steps, i);
    LostBefore(states, steps, i - 1, id);
    LiveBefore(states, steps, i - 1);
    if id in states[i - 1].proc.value.lost {
      r := LostHistory(states, steps, i - 1, id);
    } else {
      r := i - 1;
    }
  }

  lemma NoCrashInto(states: seq<State>, steps: seq<Step>, i: nat)
    requires IsRun(states, steps) && 0 < i < |states| && states[i].proc.Some?
    ensures !steps[i - 1].Crash?
  {
    RunStep(states, steps, i - 1);
  }

  lemma LostAtOnce(states: seq<State>, steps: seq<Step>, r: nat, id: JobId)
    requires IsRun(states, steps) && r < |steps| && steps[r] == Submit(id, Reject(false))
    requires states[r + 1].proc.Some? && states[r + 1].proc.value.live
    ensures id in states[r + 1].proc.value.lost
  {
    RefusalNeedsProcess(states, steps, r, id);
    LostAfter(states, steps, r, id);
  }

  lemma LiveSince(states: seq<State>, steps: seq<Step>, r: nat, i: nat, id: JobId)
    requires IsRun(states, steps) && i < |steps| && r < i && steps[r] == Submit(id, Reject(false))
    requires forall k :: r < k <= i ==> !steps[k].Crash?
    requires states[i + 1].proc.Some? && states[i + 1].proc.value.live
    ensures states[i].proc.Some? && states[i].proc.value.live
  {
    RefusalNeedsProcess(states, steps, r, id);
    StillRunning(states, steps, r, i);
    LiveBefore(states, steps, i);
  }

  lemma {:induction false} StaysLost(states: seq<State>, steps: seq<Step>, r: nat, i: nat, id: JobId)
    requires IsRun(states, steps) && i < |steps| && states[i + 1].proc.Some? && states[i + 1].proc.value.live
    requires r <= i && steps[r] == Submit(id, Reject(false)) && forall k :: r < k <= i ==> !steps[k].Crash?
    ensures id in states[i + 1].proc.value.lost
    decreases i
  {
    if r == i {
      LostAtOnce(states, steps, r, id);
    } else {
      LiveSince(states, steps, r, i, id);
      StaysLost(states, steps, r, i - 1, id);
      LostAfter(states, steps, i, id);
    }
  }

  lemma RefusalNeedsProcess(states: seq<State>, steps: seq<Step>, r: nat, id: JobId)
    requires IsRun(states, steps) && r < |steps| && steps[r] == Submit(id, Reject(false))
    ensures states[r].proc.Some?
  {
    RunStep(states, steps, r);
  }

  lemma {:induction false} StillRunning(states: seq<State>, steps: seq<Step>, r: nat, i: nat)
    requires IsRun(states, steps) && r <= i < |states| && r < |steps| && states[r].proc.Some?
    requires forall k :: r <= k < i ==> !steps[k].Crash?
    ensures states[i].proc.Some?
    decreases i
  {
    if r < i {
      StillRunning(states, steps, r, i - 1);
      RunStep(states, steps, i - 1);
      OnlyCrashesEnd(states[i - 1], steps[i - 1]);
    }
  }

  lemma OnlyCrashesEnd(s: State, st: Step)
    requires s.proc.Some? && Next(s, st).Some? && !st.Crash?
    ensures Next(s, st).value.proc.Some?
  {
    match st {
      case Submit(id, a) => BelongsSubmit(s, s.proc.value, id, a);
      case Request(a) => BelongsRequest(s, s.proc.value, a);
      case _ =>
    }
  }

  /** At the step that gave the row up the client was gone, and an earlier Offer had found the
      channel full. */
  lemma {:induction false} RefusedForRoom(states: seq<State>, steps: seq<Step>, i: nat, id: JobId) returns (o: nat)
    requires IsRun(states, steps) && i < |states| && states[i].proc.Some?
    requires id in states[i].proc.value.submits && states[i].proc.value.submits[id] == AtReject
    ensures o < i && steps[o] == Submit(id, Offer) && states[o].proc.Some?
    ensures |states[o].proc.value.ch| >= states[o].proc.value.cfg.depth
    ensures forall k :: o < k < i ==> !steps[k].Crash?
  {
    RejectedBefore(states, steps, i, id);
    NoCrashInto(states, steps, i);
    if steps[i - 1] == Submit(id, Offer) {
      o := i - 1;
    } else {
      o := RefusedForRoom(states, steps, i - 1, id);
    }
  }

  lemma RejectedBefore(states: seq<State>, steps: seq<Step>, i: nat, id: JobId)
    requires IsRun(states, steps) && i < |states| && states[i].proc.Some?
    requires id in states[i].proc.value.submits && states[i].proc.value.submits[id] == AtReject
    ensures i > 0 && states[i - 1].proc.Some?
    ensures var p := states[i - 1].proc.value;
            if steps[i - 1] == Submit(id, Offer) then |p.ch| >= p.cfg.depth
                else id in p.submits && p.submits[id] == AtReject
  {
    NotJustBooted(states, steps, i);
    SameProcess(states, steps, i);
    RunStep(states, steps, i - 1);
    RejectComesFrom(states[i - 1], steps[i - 1], id);
  }

  lemma RejectComesFrom(s: State, st: Step, id: JobId)
    requires s.proc.Some? && Next(s, st).Some? && Next(s, st).value.proc.Some?
    requires var p' := Next(s, st).value.proc.value; id in p'.submits && p'.submits[id] == AtReject
    ensures if st == Submit(id, Offer) then |s.proc.value.ch| >= s.proc.value.cfg.depth
            else id in s.proc.value.submits && s.proc.value.submits[id] == AtReject
  {
    match st {
      case Startup(a) => StartupShape(s, s.proc.value, a);
      case Submit(sid, a) => SubmitRejects(s, s.proc.value, sid, a, id);
      case Work(w, a) => WorkKeepsSubmits(s, s.proc.value, w, a);
      case Request(a) => RequestKeepsSubmits(s, s.proc.value, a);
      case _ =>
    }
  }

  lemma SubmitRejects(s: State, p: Proc, sid: JobId, a: SubmitAct, id: JobId)
    requires SubmitStep(s, p, sid, a).Some? && SubmitStep(s, p, sid, a).value.proc.Some?
    requires var p' := SubmitStep(s, p, sid, a).value.proc.value; id in p'.submits && p'.submits[id] == AtReject
    ensures if sid == id && a.Offer? then |p.ch| >= p.cfg.depth else id in p.submits && p.submits[id] == AtReject
  {}

  lemma WorkKeepsSubmits(s: State, p: Proc, w: nat, a: WorkerAct)
    requires WorkStep(s, p, w, a).Some?
    ensures var s' := WorkStep(s, p, w, a).value;
            s'.proc.Some? && s'.proc.value.submits == p.submits && s'.proc.value.mode == p.mode
  {}

  lemma RequestKeepsSubmits(s: State, p: Proc, a: RequestAct)
    requires RequestStep(s, p, a).Some?
    ensures var s' := RequestStep(s, p, a).value;
            s'.proc.Some? && s'.proc.value.submits == p.submits && s'.proc.value.mode == p.mode
  {}

  /** In a live serving process a queued row has nobody left to run it exactly when, earlier in
      this process, its Submit was refused and the write that should have failed the row ran on a
      canceled request context. */
  lemma StrandedExactlyWhen(states: seq<State>, steps: seq<Step>, i: nat, id: JobId)
    requires IsRun(states, steps) && i < |states| && states[i].proc.Some?
    requires states[i].proc.value.live && states[i].proc.value.mode.Up?
    requires id in states[i].table.rows && states[i].table.rows[id].status.Queued?
    ensures Unheld(states[i].proc.value, id) <==> exists r :: GaveUp(steps, r, i, id)
  {
    ExactlyOneHolder(states, steps, i, id);
    if id in states[i].proc.value.lost {
      var r := LostHistory(states, steps, i, id);
    }
    forall r | GaveUp(steps, r, i, id)
      ensures id in states[i].proc.value.lost
    {
      StaysLost(states, steps, r, i - 1, id);
    }
  }

  /** And what had led there: the client was gone, after an Offer that found the channel full. */
  lemma StrandedBecause(states: seq<State>, steps: seq<Step>, r: nat, i: nat, id: JobId) returns (o: nat)
    requires IsRun(states, steps) && GaveUp(steps, r, i, id)
    ensures states[r].proc.Some? && id in states[r].proc.value.gone
    ensures o < r && steps[o] == Submit(id, Offer) && states[o].proc.Some?
    ensures |states[o].proc.value.ch| >= states[o].proc.value.cfg.depth
    ensures forall k :: o < k < r ==> !steps[k].Crash?
  {
    RunStep(states, steps, r);
    RefusalNeedsAbsence(states[r], id);
    o := RefusedForRoom(states, steps, r, id);
  }

  lemma RefusalNeedsAbsence(s: State, id: JobId)
    requires Next(s, Submit(id, Reject(false))).Some?
    ensures s.proc.Some? && id in s.proc.value.gone && id in s.proc.value.submits
    ensures s.proc.value.submits[id] == AtReject
  {}

  lemma Extend(states: seq<State>, steps: seq<Step>, st: Step) returns (states': seq<State>, steps': seq<Step>)
    requires IsRun(states, steps) && Next(states[|states| - 1], st).Some?
    ensures IsRun(states', steps') && Some(states'[|states'| - 1]) == Next(states[|states| - 1], st)
  {
    states', steps' := states + [Next(states[|states| - 1], st).value], steps + [st];
  }

  const SMALL := Config(1, 1, {Convert})

  lemma Serve() returns (states: seq<State>, steps: seq<Step>)
    ensures IsRun(states, steps)
    ensures states[|states| - 1]
        == State(EMPTY_TABLE, {}, 0, Some(NewProc(SMALL).(mode := Up, workers := IdleWorkers(1))))
  {
    states, steps := [Initial()], [];
    states, steps := Extend(states, steps, Boot(SMALL));
    states, steps := Extend(states, steps, Startup(Interrupt(true)));
    assert states[|states| - 1].table.rows == map[];
    states, steps := Extend(states, steps, Startup(List(true)));
    assert QueuedIds(EMPTY_TABLE) == [];
    states, steps := Extend(states, steps, Startup(StartWorkers));
  }

  /** From a serving process with room for one, one job fills the channel. */
  lemma Fill(row: Row) returns (states: seq<State>, steps: seq<Step>)
    requires row.kind.Convert?
    ensures IsRun(states, steps)
    ensures var s := states[|states| - 1];
            s.used == {0} && s.table.rows.Keys == {0} && s.proc.Some? && s.now == 0
            && s.proc.value == NewProc(SMALL).(mode := Up, workers := IdleWorkers(1), ch := [0], mine := {0},
                                               log := [CreatedEvent(0)])
  {
    states, steps := Serve();
    states, steps := Extend(states, steps, Submit(0, Create(row)));
    states, steps := Extend(states, steps, Submit(0, Announce));
    states, steps := Extend(states, steps, Submit(0, Offer));
    assert states[|states| - 1].proc.value.submits == map[];
  }

  lemma FillAndCreate(row: Row) returns (states: seq<State>, steps: seq<Step>)
    requires row.kind.Convert?
    ensures IsRun(states, steps)
    ensures var s := states[|states| - 1];
            s.used == {0, 1} && s.table.rows.Keys == {0, 1} && s.table.rows[1].status.Queued? && s.proc.Some?
            && s.proc.value == NewProc(SMALL).(mode := Up, workers := IdleWorkers(1), ch := [0],
                                               submits := map[1 := AtAnnounce],
                                               mine := {0, 1}, log := [CreatedEvent(0)])
  {
    states, steps := Fill(row);
    states, steps := Extend(states, steps, Submit(1, Create(row)));
    assert states[|states| - 1].proc.value.submits == map[1 := AtAnnounce];
  }

  /** A second submission finds the channel full. */
  lemma Overfill(row: Row) returns (states: seq<State>, steps: seq<Step>)
    requires row.kind.Convert?
    ensures IsRun(states, steps)
    ensures var s := states[|states| - 1];
            s.used == {0, 1} && s.table.rows.Keys == {0, 1} && s.table.rows[1].status.Queued? && s.proc.Some?
            && s.proc.value == NewProc(SMALL).(mode := Up, workers := IdleWorkers(1), ch := [0],
                                               submits := map[1 := AtReject],
                                               mine := {0, 1}, log := [CreatedEvent(0), CreatedEvent(1)])
  {
    states, steps := FillAndCreate(row);
    states, steps := Extend(states, steps, Submit(1, Announce));
    states, steps := Extend(states, steps, Submit(1, Offer));
    assert states[|states| - 1].proc.value.submits == map[1 := AtReject];
  }

  /** It does happen: depth 1, two submissions, the second client gone before its refusal is stored. */
  lemma LostHappens(row: Row) returns (states: seq<State>, steps: seq<Step>)
    requires row.kind.Convert?
    ensures IsRun(states, steps)
    ensures var s := states[|states| - 1];
            && s.proc.Some? && s.proc.value.live && 1 in s.table.rows && s.table.rows[1].status.Queued?
            && 1 in s.proc.value.lost && !WorkerHolds(s.proc.value, 1) && 1 !in s.proc.value.ch
            && 1 !in s.proc.value.submits
  {
    states, steps := Overfill(row);
    states, steps := Extend(states, steps, Submit(1, ClientGone));
    states, steps := Extend(states, steps, Submit(1, Reject(false)));
    states, steps := Extend(states, steps, Submit(1, RejectRead(false)));
  }

  // ---- Across processes --------------------------------------------------------------------

  /** id is beyond running again: its row is marked (or gone) and nobody is about to run it. */
  ghost predicate Spent(s: State, id: JobId) {
    && id in s.used
    && (id in s.table.rows ==> !s.table.rows[id].status.Queued?)
    && (s.proc.Some? ==> SpentIn(s.proc.value, id))
  }

  lemma SpentStays(s: State, st: Step, id: JobId)
    requires Inv(s) && Next(s, st).Some? && Spent(s, id)
    ensures Spent(Next(s, st).value, id)
  {
    StepFlows(s, st, id);
    match st {
      case Tick(_) =>
      case Boot(_) =>
      case Crash =>
      case Startup(a) => SpentStartup(s, s.proc.value, a, id);
      case Submit(sid, a) => SpentSubmit(s, s.proc.value, sid, a, id);
      case Work(w, a) => SpentWork(s, s.proc.value, w, a, id);
      case Request(a) => SpentRequest(s, s.proc.value, a, id);
    }
  }

  /** The part of Spent that speaks of one process. */
  ghost predicate SpentIn(p: Proc, id: JobId) {
    && id !in p.ch && id !in Pending(p.mode) && id !in p.submits && p.runs[id] == 0
    && forall w :: IsBusy(p, w, id) ==> !Fresh(p.workers[w].at)
  }

  lemma StartupIsOver(s: State, p: Proc, a: StartupAct)
    requires p.mode.Up?
    ensures StartupStep(s, p, a).None?
  {}

  lemma SpentStartup(s: State, p: Proc, a: StartupAct, id: JobId)
    requires SpentIn(p, id) && StartupStep(s, p, a).Some? && (id in s.table.rows ==> !s.table.rows[id].status.Queued?)
    requires !p.mode.Up? ==> p.workers == map[]
    ensures SpentIn(StartupStep(s, p, a).value.proc.value, id)
  {
    if p.mode.Up? {
      StartupIsOver(s, p, a);
    } else if p.mode.Booting? || p.mode.Listing? {
      SpentList(s, p, a, id);
    } else if p.mode.Resuming? {
      SpentResume(s, p, a, id);
    } else {
      SpentDrop(s, p, a, id);
    }
  }

  lemma SpentList(s: State, p: Proc, a: StartupAct, id: JobId)
    requires SpentIn(p, id) && StartupStep(s, p, a).Some? && (id in s.table.rows ==> !s.table.rows[id].status.Queued?)
    requires (p.mode.Booting? || p.mode.Listing?) && p.workers == map[]
    ensures SpentIn(StartupStep(s, p, a).value.proc.value, id)
  {
    match a {
      case Interrupt(ok) => InterruptShape(s, p, ok);
      case List(ok) =>
        ListShape(s, p, ok);
        QueuedIdsMeaning(s.table);
    }
  }

  lemma SpentDrop(s: State, p: Proc, a: StartupAct, id: JobId)
    requires SpentIn(p, id) && StartupStep(s, p, a).Some? && GivingUp(p.mode)
    ensures SpentIn(StartupStep(s, p, a).value.proc.value, id)
  {
    DropShrinks(s, p, a);
    SpentShrinks(p, StartupStep(s, p, a).value.proc.value, id);
  }

  lemma SpentShrinks(p: Proc, p': Proc, id: JobId)
    requires SpentIn(p, id) && GivingUp(p.mode) && Shrinks(p, p')
    ensures SpentIn(p', id)
  {
    assert forall w :: IsBusy(p', w, id) ==> IsBusy(p, w, id);
  }

  lemma SpentResume(s: State, p: Proc, a: StartupAct, id: JobId)
    requires SpentIn(p, id) && StartupStep(s, p, a).Some? && p.mode.Resuming? && p.workers == map[]
    ensures SpentIn(StartupStep(s, p, a).value.proc.value, id)
  {
    match a {
      case ResumeOne =>
        ResumeOneShape(s, p);
        assert p.mode.rest == [p.mode.rest[0]] + p.mode.rest[1..];
        assert p.mode.rest[0] in Pending(p.mode);
      case StartWorkers => StartWorkersShape(s, p);
    }
  }

  lemma SpentSubmit(s: State, p: Proc, sid: JobId, a: SubmitAct, id: JobId)
    requires SpentIn(p, id) && id in s.used && SubmitStep(s, p, sid, a).Some?
    ensures SpentIn(SubmitStep(s, p, sid, a).value.proc.value, id)
  {
    var p' := SubmitStep(s, p, sid, a).value.proc.value;
    assert forall w :: IsBusy(p', w, id) ==> IsBusy(p, w, id);
  }

  lemma SpentWork(s: State, p: Proc, w: nat, a: WorkerAct, id: JobId)
    requires Inv(s) && s.proc == Some(p) && SpentIn(p, id) && WorkStep(s, p, w, a).Some?
    ensures SpentIn(WorkStep(s, p, w, a).value.proc.value, id)
  {
    var p' := WorkStep(s, p, w, a).value.proc.value;
    assert forall v :: v != w && IsBusy(p', v, id) ==> IsBusy(p, v, id);
    if !a.Take? && !a.Leave? {
      var b := p.workers[w];
      assert WorkerStatus(s.table, b.id, b.at, p.live);
      EffectIsAllowed(s, p, b, a);
      assert b.id == id ==> IsBusy(p, w, id);
    }
  }

  lemma SpentRequest(s: State, p: Proc, a: RequestAct, id: JobId)
    requires SpentIn(p, id) && RequestStep(s, p, a).Some?
    ensures SpentIn(RequestStep(s, p, a).value.proc.value, id)
  {
    var p' := RequestStep(s, p, a).value.proc.value;
    assert forall w :: IsBusy(p', w, id) ==> IsBusy(p, w, id);
  }

  /** A job marked running in one process is never handed to a runner by a later one. */
  lemma {:induction false} NeverRunAgain(states: seq<State>, steps: seq<Step>, i: nat, m: nat, j: nat, id: JobId)
    requires IsRun(states, steps) && i <= m <= j < |states|
    requires id in states[i].table.rows && states[i].table.rows[id].status.Rank() > 0
    requires states[m].proc.None?
    ensures Spent(states[j], id)
    decreases j
  {
    if j == m {
      RunKeepsInv(states, steps, i);
      TerminalIsFinal(states, steps, i, m, id);
    } else {
      NeverRunAgain(states, steps, i, m, j - 1, id);
      RunKeepsInv(states, steps, j - 1);
      RunStep(states, steps, j - 1);
      SpentStays(states[j - 1], steps[j - 1], id);
    }
  }
}
