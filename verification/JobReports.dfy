/** What is published about a job's end is what its row says, and what its runner's return called for. */
module JobReports {
  import opened Common
  import opened JobTable
  import opened JobProtocol
  import opened JobSafety
  import opened JobRuns
  import opened JobEvents
  import opened JobOutcomes

  // ---- A published end is true -------------------------------------------------------------

  predicate HasRead(p: Proc, w: nat, id: JobId, st: Status) {
    IsBusy(p, w, id) && p.workers[w].at.AtSend? && p.workers[w].at.row.status == st
  }

  /** Status st of job id has been published, or read in order to be published. */
  ghost predicate Holds(p: Proc, id: JobId, st: Status) {
    || StatusEvent(id, st) in p.log
    || (exists w :: HasRead(p, w, id, st))
    || (id in p.submits && p.submits[id].AtResend? && p.submits[id].row.status == st)
    || (p.mode.Resending? && p.mode.id == id && p.mode.row.status == st)
  }

  predicate Says(t: Table, id: JobId, st: Status) {
    id in t.rows && t.rows[id].status == st
  }

  ghost predicate Truthful(s: State) {
    s.proc.Some? ==> forall id, st: Status :: st.Terminal() && Holds(s.proc.value, id, st) && id in s.table.rows ==>
      Says(s.table, id, st)
  }

  /** Nobody publishes, or is about to, what was not so before or is not read from the row now. */
  lemma NewlyHeld(s: State, step: Step, id: JobId, st: Status)
    requires s.proc.Some? && Next(s, step).Some? && Next(s, step).value.proc.Some?
    requires Holds(Next(s, step).value.proc.value, id, st)
    ensures Holds(s.proc.value, id, st) || Says(s.table, id, st)
  {
    var p := s.proc.value;
    match step {
      case Tick(_) =>
      case Startup(a) => StartupHolds(s, p, a, id, st);
      case Submit(sid, a) => SubmitHolds(s, p, sid, a, id, st);
      case Work(w, a) => WorkHolds(s, p, w, a, id, st);
      case Request(a) => RequestHolds(s, p, a, id, st);
    }
  }

  lemma ModeHolds(p: Proc, p': Proc, id: JobId, st: Status)
    requires p'.log == p.log && p'.submits == p.submits && p'.workers == p.workers && !p'.mode.Resending?
    requires Holds(p', id, st)
    ensures Holds(p, id, st)
  {
    assert forall w :: HasRead(p', w, id, st) ==> HasRead(p, w, id, st);
  }

  lemma DropReadHolds(s: State, p: Proc, ok: bool, id: JobId, st: Status)
    requires StartupStep(s, p, DropRead(ok)).Some?
    requires Holds(StartupStep(s, p, DropRead(ok)).value.proc.value, id, st)
    ensures Holds(p, id, st) || Says(s.table, id, st)
  {
    DropReadShape(s, p, ok);
    var p' := StartupStep(s, p, DropRead(ok)).value.proc.value;
    assert forall w :: HasRead(p', w, id, st) ==> HasRead(p, w, id, st);
  }

  lemma DropSendHolds(s: State, p: Proc, id: JobId, st: Status)
    requires StartupStep(s, p, DropSend).Some? && Holds(StartupStep(s, p, DropSend).value.proc.value, id, st)
    ensures Holds(p, id, st)
  {
    DropSendShape(s, p);
    var p' := StartupStep(s, p, DropSend).value.proc.value;
    assert forall w :: HasRead(p', w, id, st) ==> HasRead(p, w, id, st);
  }

  lemma StartWorkersHolds(s: State, p: Proc, id: JobId, st: Status)
    requires StartupStep(s, p, StartWorkers).Some?
    requires Holds(StartupStep(s, p, StartWorkers).value.proc.value, id, st)
    ensures Holds(p, id, st)
  {
    StartWorkersShape(s, p);
    assert forall w :: !HasRead(StartupStep(s, p, StartWorkers).value.proc.value, w, id, st);
  }

  lemma StartupHolds(s: State, p: Proc, a: StartupAct, id: JobId, st: Status)
    requires s.proc == Some(p) && StartupStep(s, p, a).Some?
    requires StartupStep(s, p, a).value.proc.Some? && Holds(StartupStep(s, p, a).value.proc.value, id, st)
    ensures Holds(p, id, st) || Says(s.table, id, st)
  {
    match a {
      case DropRead(ok) => DropReadHolds(s, p, ok, id, st);
      case DropSend => DropSendHolds(s, p, id, st);
      case StartWorkers => StartWorkersHolds(s, p, id, st);
      case _ =>
        OtherStartupMode(s, p, a);
        ModeHolds(p, StartupStep(s, p, a).value.proc.value, id, st);
    }
  }

  lemma OtherStartupMode(s: State, p: Proc, a: StartupAct)
    requires StartupStep(s, p, a).Some? && !a.DropRead? && !a.DropSend? && !a.StartWorkers?
    ensures StartupStep(s, p, a).value.proc.Some?
    ensures var p' := StartupStep(s, p, a).value.proc.value;
            p'.log == p.log && p'.submits == p.submits && p'.workers == p.workers && !p'.mode.Resending?
  {
    match a {
      case Interrupt(ok) => InterruptShape(s, p, ok);
      case List(ok) => ListShape(s, p, ok);
      case ResumeOne => ResumeOneShape(s, p);
      case DropMark(ok) => DropMarkShape(s, p, ok);
    }
  }

  lemma SubmitHolds(s: State, p: Proc, sid: JobId, a: SubmitAct, id: JobId, st: Status)
    requires s.proc == Some(p) && SubmitStep(s, p, sid, a).Some?
    requires SubmitStep(s, p, sid, a).value.proc.Some? && Holds(SubmitStep(s, p, sid, a).value.proc.value, id, st)
    ensures Holds(p, id, st) || Says(s.table, id, st)
  {
    var p' := SubmitStep(s, p, sid, a).value.proc.value;
    if w :| HasRead(p', w, id, st) {
      assert HasRead(p, w, id, st);
    }
  }

  /** A worker tells what it has read, and reads what the row says. */
  lemma EffectHolds(s: State, p: Proc, b: Worker, a: WorkerAct)
    requires b.Busy? && EffectOf(s, p, b.id, b.exec, b.at, a).Some?
    ensures var e := EffectOf(s, p, b.id, b.exec, b.at, a).value;
            && (e.event.Some? && e.event.value.StatusEvent? ==>
                  b.at.AtSend? && e.event == Some(StatusEvent(b.id, b.at.row.status)))
            && (e.next.Some? && e.next.value.AtSend? ==>
                  b.at == e.next.value || Says(s.table, b.id, e.next.value.row.status))
  {}

  lemma WorkHolds(s: State, p: Proc, w: nat, a: WorkerAct, id: JobId, st: Status)
    requires s.proc == Some(p) && WorkStep(s, p, w, a).Some?
    requires WorkStep(s, p, w, a).value.proc.Some? && Holds(WorkStep(s, p, w, a).value.proc.value, id, st)
    ensures Holds(p, id, st) || Says(s.table, id, st)
  {
    var p' := WorkStep(s, p, w, a).value.proc.value;
    if !a.Take? && !a.Leave? {
      EffectHolds(s, p, p.workers[w], a);
      if StatusEvent(id, st) in p'.log && StatusEvent(id, st) !in p.log {
        assert HasRead(p, w, id, st);
      }
    }
    if v :| HasRead(p', v, id, st) {
      assert v != w || p'.workers[w].at == p.workers[w].at ==> HasRead(p, v, id, st);
    }
  }

  lemma RequestHolds(s: State, p: Proc, a: RequestAct, id: JobId, st: Status)
    requires s.proc == Some(p) && RequestStep(s, p, a).Some?
    requires RequestStep(s, p, a).value.proc.Some? && Holds(RequestStep(s, p, a).value.proc.value, id, st)
    ensures Holds(p, id, st) || Says(s.table, id, st)
  {
    var p' := RequestStep(s, p, a).value.proc.value;
    if w :| HasRead(p', w, id, st) {
      assert HasRead(p, w, id, st);
    }
  }

  /** Only of jobs that exist or existed. */
  lemma HeldIsUsed(s: State, id: JobId, st: Status)
    requires Inv(s) && EventInv(s) && s.proc.Some? && Holds(s.proc.value, id, st)
    ensures id in s.used
  {
    var p := s.proc.value;
    if w :| HasRead(p, w, id, st) {
      assert HeldApart(p, s.used, p.workers[w]);
    }
    if StatusEvent(id, st) in p.log {
      var k :| 0 <= k < |p.log| && p.log[k] == StatusEvent(id, st);
    }
    if p.mode.Resending? && p.mode.id == id {
      assert Pending(p.mode)[0] == id;
    }
  }

  lemma StepTruthful(s: State, step: Step)
    requires Inv(s) && EventInv(s) && Truthful(s) && Next(s, step).Some?
    ensures Truthful(Next(s, step).value)
  {
    var s' := Next(s, step).value;
    if s.proc.Some? && s'.proc.Some? {
      forall id, st: Status | st.Terminal() && Holds(s'.proc.value, id, st) && id in s'.table.rows
        ensures Says(s'.table, id, st)
      {
        NewlyHeld(s, step, id, st);
        StepFlows(s, step, id);
        if Holds(s.proc.value, id, st) {
          HeldIsUsed(s, id, st);
        }
      }
    }
  }

  lemma {:induction false} RunTruthful(states: seq<State>, steps: seq<Step>, i: nat)
    requires IsRun(states, steps) && i < |states|
    ensures Truthful(states[i])
  {
    if i > 0 {
      RunTruthful(states, steps, i - 1);
      RunKeepsInv(states, steps, i - 1);
      RunKeepsEvents(states, steps, i - 1);
      RunStep(states, steps, i - 1);
      StepTruthful(states[i - 1], steps[i - 1]);
    }
  }

  /** In every process of every run: a terminal status published for a job is the status its row has
      then and ever after, as long as the row is there. */
  lemma PublishedEndIsTrue(states: seq<State>, steps: seq<Step>, i: nat, id: JobId, st: Status)
    requires IsRun(states, steps) && i < |states| && states[i].proc.Some?
    requires st.Terminal() && StatusEvent(id, st) in states[i].proc.value.log && id in states[i].table.rows
    ensures states[i].table.rows[id].status == st
  {
    RunTruthful(states, steps, i);
  }

  lemma BootHoldsNothing(s: State, step: Step, id: JobId, st: Status)
    requires s.proc.None? && Next(s, step).Some? && Next(s, step).value.proc.Some?
    ensures !Holds(Next(s, step).value.proc.value, id, st)
  {}

  lemma HeldLater(states: seq<State>, steps: seq<Step>, i: nat)
    requires IsRun(states, steps) && i < |states| && states[i].proc.Some?
    ensures i > 0
  {}

  lemma HeldAt(states: seq<State>, steps: seq<Step>, n: nat, id: JobId, st: Status)
    requires IsRun(states, steps) && n < |steps|
    requires states[n + 1].proc.Some? && Holds(states[n + 1].proc.value, id, st)
    ensures states[n].proc.Some? && !steps[n].Crash?
    ensures Holds(states[n].proc.value, id, st) || Says(states[n].table, id, st)
  {
    RunStep(states, steps, n);
    if states[n].proc.None? {
      BootHoldsNothing(states[n], steps[n], id, st);
    } else {
      NewlyHeld(states[n], steps[n], id, st);
    }
  }

  /** Job id's row had status st at state k, and no crash has come since. */
  ghost predicate SaidAt(states: seq<State>, steps: seq<Step>, k: nat, i: nat, id: JobId, st: Status)
    requires i < |states| == |steps| + 1
  {
    k < i && Says(states[k].table, id, st) && forall m :: k <= m < i ==> !steps[m].Crash?
  }

  ghost predicate Said(states: seq<State>, steps: seq<Step>, i: nat, id: JobId, st: Status)
    requires i < |states| == |steps| + 1
  {
    exists k :: SaidAt(states, steps, k, i, id, st)
  }

  lemma SaidLater(states: seq<State>, steps: seq<Step>, n: nat, id: JobId, st: Status)
    requires n < |steps| == |states| - 1 && !steps[n].Crash?
    requires Says(states[n].table, id, st) || Said(states, steps, n, id, st)
    ensures Said(states, steps, n + 1, id, st)
  {
    if Says(states[n].table, id, st) {
      assert SaidAt(states, steps, n, n + 1, id, st);
    } else {
      var k :| SaidAt(states, steps, k, n, id, st);
      assert SaidAt(states, steps, k, n + 1, id, st);
    }
  }

  lemma {:induction false} HeldWasSaid(states: seq<State>, steps: seq<Step>, i: nat, id: JobId, st: Status)
    requires IsRun(states, steps) && i < |states| && states[i].proc.Some? && Holds(states[i].proc.value, id, st)
    ensures Said(states, steps, i, id, st)
  {
    HeldLater(states, steps, i);
    HeldAt(states, steps, i - 1, id, st);
    if !Says(states[i - 1].table, id, st) {
      HeldWasSaid(states, steps, i - 1, id, st);
    }
    SaidLater(states, steps, i - 1, id, st);
  }

  /** Any status published for a job, final or not, is one that its row had before in this process. */
  lemma PublishedWasTrue(states: seq<State>, steps: seq<Step>, i: nat, id: JobId, st: Status) returns (k: nat)
    requires IsRun(states, steps) && i < |states| && states[i].proc.Some?
    requires StatusEvent(id, st) in states[i].proc.value.log
    ensures k < i && id in states[k].table.rows && states[k].table.rows[id].status == st
    ensures forall m :: k <= m < i ==> !steps[m].Crash?
  {
    HeldWasSaid(states, steps, i, id, st);
    k :| SaidAt(states, steps, k, i, id, st);
  }

  // ---- A published deletion is true --------------------------------------------------------

  predicate Deleting(p: Proc, id: JobId) {
    id in p.deleted || DeletedEvent(id) in p.log
  }

  lemma StartupDeletes(s: State, p: Proc, a: StartupAct, id: JobId)
    requires s.proc == Some(p) && StartupStep(s, p, a).Some? && StartupStep(s, p, a).value.proc.Some?
    ensures Deleting(StartupStep(s, p, a).value.proc.value, id) ==> Deleting(p, id)
  {
    match a {
      case Interrupt(ok) => InterruptShape(s, p, ok);
      case List(ok) => ListShape(s, p, ok);
      case ResumeOne => ResumeOneShape(s, p);
      case DropMark(ok) => DropMarkShape(s, p, ok);
      case DropRead(ok) => DropReadShape(s, p, ok);
      case DropSend => DropSendShape(s, p);
      case StartWorkers => StartWorkersShape(s, p);
    }
  }

  lemma SubmitDeletes(s: State, p: Proc, sid: JobId, a: SubmitAct, id: JobId)
    requires s.proc == Some(p) && SubmitStep(s, p, sid, a).Some? && SubmitStep(s, p, sid, a).value.proc.Some?
    ensures Deleting(SubmitStep(s, p, sid, a).value.proc.value, id) ==> Deleting(p, id)
  {}

  lemma EffectDeletesNothing(s: State, p: Proc, b: Worker, a: WorkerAct)
    requires b.Busy? && EffectOf(s, p, b.id, b.exec, b.at, a).Some?
    ensures var e := EffectOf(s, p, b.id, b.exec, b.at, a).value.event; e.Some? ==> !e.value.DeletedEvent?
  {}

  lemma WorkDeletes(s: State, p: Proc, w: nat, a: WorkerAct, id: JobId)
    requires s.proc == Some(p) && WorkStep(s, p, w, a).Some? && WorkStep(s, p, w, a).value.proc.Some?
    ensures Deleting(WorkStep(s, p, w, a).value.proc.value, id) ==> Deleting(p, id)
  {
    if !a.Take? && !a.Leave? {
      EffectDeletesNothing(s, p, p.workers[w], a);
    }
  }

  lemma RequestDeletes(s: State, p: Proc, a: RequestAct, id: JobId)
    requires s.proc == Some(p) && RequestStep(s, p, a).Some? && RequestStep(s, p, a).value.proc.Some?
    ensures Deleting(RequestStep(s, p, a).value.proc.value, id) ==>
              Deleting(p, id) || (a == DeleteRow(id) && id in s.table.rows)
    ensures a == DeleteRow(id) ==> id !in RequestStep(s, p, a).value.table.rows
  {}

  /** Only the deletion of a row leads to one that is announced. */
  lemma StepDeletes(s: State, step: Step, id: JobId)
    requires s.proc.Some? && Next(s, step).Some? && Next(s, step).value.proc.Some?
    requires Deleting(Next(s, step).value.proc.value, id)
    ensures || Deleting(s.proc.value, id)
            || (step == Request(DeleteRow(id)) && id in s.table.rows && id !in Next(s, step).value.table.rows)
  {
    var p := s.proc.value;
    match step {
      case Tick(_) =>
      case Startup(a) => StartupDeletes(s, p, a, id);
      case Submit(sid, a) => SubmitDeletes(s, p, sid, a, id);
      case Work(w, a) => WorkDeletes(s, p, w, a, id);
      case Request(a) => RequestDeletes(s, p, a, id);
    }
  }

  predicate Gone(s: State, id: JobId) {
    s.proc.Some? && Deleting(s.proc.value, id) ==> id in s.used && id !in s.table.rows
  }

  lemma BootDeletesNothing(s: State, step: Step, id: JobId)
    requires s.proc.None? && Next(s, step).Some? && Next(s, step).value.proc.Some?
    ensures !Deleting(Next(s, step).value.proc.value, id)
  {}

  lemma StaysGone(s: State, step: Step, id: JobId)
    requires Inv(s) && Gone(s, id) && Next(s, step).Some?
    ensures Gone(Next(s, step).value, id)
  {
    var s' := Next(s, step).value;
    if s'.proc.Some? && Deleting(s'.proc.value, id) {
      if s.proc.None? {
        BootDeletesNothing(s, step, id);
      } else {
        StepDeletes(s, step, id);
        StepFlows(s, step, id);
      }
    }
  }

  lemma {:induction false} RunGone(states: seq<State>, steps: seq<Step>, i: nat, id: JobId)
    requires IsRun(states, steps) && i < |states|
    ensures Gone(states[i], id)
  {
    if i > 0 {
      RunGone(states, steps, i - 1, id);
      RunKeepsInv(states, steps, i - 1);
      RunStep(states, steps, i - 1);
      StaysGone(states[i - 1], steps[i - 1], id);
    }
  }

  /** A deletion that has been published has taken place, for good. */
  lemma PublishedDeletionIsTrue(states: seq<State>, steps: seq<Step>, i: nat, id: JobId)
    requires IsRun(states, steps) && i < |states| && states[i].proc.Some?
    requires DeletedEvent(id) in states[i].proc.value.log
    ensures id in states[i].used && id !in states[i].table.rows
  {
    RunGone(states, steps, i, id);
  }

  // ---- A runner's return is told -----------------------------------------------------------

  /** Worker w has closed job id's row with status st and goes on to say so. */
  predicate Telling(s: State, w: nat, id: JobId, st: Status) {
    && s.proc.Some? && s.proc.value.mode.Up? && IsBusy(s.proc.value, w, id)
    && match s.proc.value.workers[w].at
       case AtRead(ThenUnregister) => id in s.table.rows ==> s.table.rows[id].status == st
       case AtSend(row, ThenUnregister) => row.status == st
       case AtUnregister => id in s.table.rows ==> StatusEvent(id, st) in s.proc.value.log
       case _ => false
  }

  lemma CloseTells(s: State, w: nat, id: JobId, o: Outcome, v: (Status, string))
    requires Closing(s, w, id, o, v) && v.0.Terminal() && Next(s, Work(w, Close)).Some?
    ensures Telling(Next(s, Work(w, Close)).value, w, id, v.0)
  {}

  lemma TellingStays(s: State, step: Step, w: nat, id: JobId, st: Status)
    requires Inv(s) && Telling(s, w, id, st) && Next(s, step).Some? && !step.Crash? && step != Work(w, Unregister)
    ensures Telling(Next(s, step).value, w, id, st)
  {
    if step.Work? && step.w == w {
      OwnTellingStays(s, s.proc.value, w, step.work, id, st);
    } else {
      OthersLeaveAlone(s, step, w, id);
      LogGrows(s, step);
    }
  }

  lemma OwnTellingStays(s: State, p: Proc, w: nat, a: WorkerAct, id: JobId, st: Status)
    requires s.proc == Some(p) && Telling(s, w, id, st) && WorkStep(s, p, w, a).Some? && a != Unregister
    ensures Telling(WorkStep(s, p, w, a).value, w, id, st)
  {}

  /** From the return to the end of execute. */
  predicate Carrying(s: State, w: nat, id: JobId, o: Outcome, v: (Status, string)) {
    Closing(s, w, id, o, v) || Telling(s, w, id, v.0)
  }

  lemma CarryingStays(s: State, step: Step, w: nat, id: JobId, o: Outcome, v: (Status, string))
    requires Inv(s) && Carrying(s, w, id, o, v) && v.0.Terminal()
    requires Next(s, step).Some? && !step.Crash? && step != Work(w, Unregister)
    ensures Carrying(Next(s, step).value, w, id, o, v)
  {
    if Telling(s, w, id, v.0) {
      TellingStays(s, step, w, id, v.0);
    } else if step == Work(w, Close) {
      CloseTells(s, w, id, o, v);
    } else {
      ClosingStays(s, step, w, id, o, v);
    }
  }

  /** Worker w's job and what its runner's return calls for. */
  function Called(s: State, w: nat, o: Outcome): (JobId, (Status, string))
    requires s.proc.Some? && w in s.proc.value.workers && s.proc.value.workers[w].Busy?
  {
    (s.proc.value.workers[w].id, Verdict(s.proc.value, s.proc.value.workers[w].exec, o))
  }

  ghost predicate Returns(states: seq<State>, steps: seq<Step>, i: nat, w: nat, o: Outcome) {
    && i < |steps| < |states| && steps[i] == Work(w, Return(o))
    && states[i].proc.Some? && w in states[i].proc.value.workers && states[i].proc.value.workers[w].Busy?
  }

  lemma VerdictEnds(p: Proc, exec: nat, o: Outcome)
    ensures Verdict(p, exec, o).0.Terminal()
  {}

  lemma CarryingAt(states: seq<State>, steps: seq<Step>, n: nat, w: nat, id: JobId, o: Outcome, v: (Status, string))
    requires IsRun(states, steps) && n < |steps| && Carrying(states[n], w, id, o, v) && v.0.Terminal()
    requires !steps[n].Crash? && steps[n] != Work(w, Unregister)
    ensures Carrying(states[n + 1], w, id, o, v)
  {
    RunKeepsInv(states, steps, n);
    RunStep(states, steps, n);
    CarryingStays(states[n], steps[n], w, id, o, v);
  }

  lemma {:induction false} StillCarrying(states: seq<State>, steps: seq<Step>, i: nat, j: nat, w: nat, o: Outcome)
    requires IsRun(states, steps) && i < j < |states| && Returns(states, steps, i, w, o)
    requires forall k :: i < k < j ==> !steps[k].Crash? && steps[k] != Work(w, Unregister)
    ensures var c := Called(states[i], w, o); Carrying(states[j], w, c.0, o, c.1)
    decreases j
  {
    var c := Called(states[i], w, o);
    VerdictEnds(states[i].proc.value, states[i].proc.value.workers[w].exec, o);
    if j == i + 1 {
      RunStep(states, steps, i);
      ReturnBegins(states[i], w, o);
    } else {
      StillCarrying(states, steps, i, j - 1, w, o);
      CarryingAt(states, steps, j - 1, w, c.0, o, c.1);
    }
  }

  lemma UnregisterTells(s: State, w: nat, id: JobId, o: Outcome, v: (Status, string))
    requires Carrying(s, w, id, o, v) && Next(s, Work(w, Unregister)).Some?
    ensures s.proc.Some? && (id in s.table.rows ==> StatusEvent(id, v.0) in s.proc.value.log)
  {}

  lemma ToldAt(states: seq<State>, steps: seq<Step>, j: nat, w: nat, id: JobId, o: Outcome, v: (Status, string))
    requires IsRun(states, steps) && j < |steps| && steps[j] == Work(w, Unregister)
    requires Carrying(states[j], w, id, o, v)
    ensures states[j].proc.Some? && (id in states[j].table.rows ==> StatusEvent(id, v.0) in states[j].proc.value.log)
  {
    RunStep(states, steps, j);
    UnregisterTells(states[j], w, id, o, v);
  }

  lemma OneEnd(states: seq<State>, steps: seq<Step>, i: nat, id: JobId, v: Status, st: Status)
    requires IsRun(states, steps) && i < |states| && states[i].proc.Some? && id in states[i].table.rows
    requires v.Terminal() && StatusEvent(id, v) in states[i].proc.value.log
    requires st.Terminal() && StatusEvent(id, st) in states[i].proc.value.log
    ensures st == v == states[i].table.rows[id].status
  {
    PublishedEndIsTrue(states, steps, i, id, v);
    PublishedEndIsTrue(states, steps, i, id, st);
  }

  /** When a worker has done with a job whose runner returned, the status that the return called for
      has been published, unless the job was deleted; and no other end of it has. */
  lemma OutcomeIsTold(states: seq<State>, steps: seq<Step>, i: nat, j: nat, w: nat, o: Outcome)
    requires IsRun(states, steps) && i < j < |steps| && Returns(states, steps, i, w, o)
    requires steps[j] == Work(w, Unregister)
    requires forall k :: i < k < j ==> !steps[k].Crash? && steps[k] != Work(w, Unregister)
    ensures states[j].proc.Some?
    ensures var c := Called(states[i], w, o);
            c.0 in states[j].table.rows ==>
              && StatusEvent(c.0, c.1.0) in states[j].proc.value.log
              && states[j].table.rows[c.0].status == c.1.0
              && forall st: Status :: st.Terminal() && StatusEvent(c.0, st) in states[j].proc.value.log ==> st == c.1.0
  {
    StillCarrying(states, steps, i, j, w, o);
    var c := Called(states[i], w, o);
    ToldAt(states, steps, j, w, c.0, o, c.1);
    VerdictEnds(states[i].proc.value, states[i].proc.value.workers[w].exec, o);
    forall st: Status | c.0 in states[j].table.rows && st.Terminal() && StatusEvent(c.0, st) in states[j].proc.value.log
      ensures st == c.1.0 == states[j].table.rows[c.0].status
    {
      OneEnd(states, steps, j, c.0, c.1.0, st);
    }
  }
}
