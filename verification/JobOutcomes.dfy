/** What a runner returns decides its job's row, whatever else happens in between. */
module JobOutcomes {
  import opened Common
  import opened JobTable
  import opened JobProtocol
  import opened JobSafety
  import opened JobRuns

  /** The terminal status a runner's return calls for: a runner error counts as a timeout or a
      cancellation if that is what the context had seen first. */
  function Verdict(p: Proc, exec: nat, outcome: Outcome): (Status, string) {
    match outcome
    case Produced(_, _, _) => (Done, "")
    case OutputMissing(text) => (Failed, text)
    case Erred(text) =>
      if exec in p.causes && p.causes[exec] == TimedOut then (Failed, TIMEOUT_TEXT)
      else if exec in p.causes || !p.live then (Canceled, "canceled")
      else (Failed, text)
  }

  /** The output is in the row, under the runner's title if it has one. */
  predicate Recorded(t: Jobs, id: JobId, o: Outcome)
    requires o.Produced?
  {
    id in t.rows ==>
      var r := t.rows[id];
      r.outputPath == o.path && r.outputSize == o.size && (o.title != "" ==> r.title == o.title)
  }

  predicate Complete(t: Jobs, id: JobId) {
    id in t.rows ==> t.rows[id].progress == 100.0 && t.rows[id].stage == "done"
  }

  /** Worker w has its runner's outcome for job id and has not yet closed the row with verdict v. */
  predicate Closing(s: State, w: nat, id: JobId, o: Outcome, v: (Status, string)) {
    && s.proc.Some? && s.proc.value.mode.Up? && IsBusy(s.proc.value, w, id)
    && var at := s.proc.value.workers[w].at;
       if o.Produced? && at.AtRecord? then at == AtRecord(o.path, o.title, o.size) && v == (Done, "")
       else if o.Produced? && at.AtComplete? then Recorded(s.table, id, o) && v == (Done, "")
       else at == AtClose(v.0, v.1) && (o.Produced? ==> Recorded(s.table, id, o) && Complete(s.table, id))
  }

  /** Row id is as it was, or deleted. */
  predicate Untouched(t: Jobs, t': Jobs, id: JobId) {
    id in t'.rows ==> id in t.rows && t'.rows[id] == t.rows[id]
  }

  /** Others leave a worker's row and the worker alone. */
  predicate LeftAlone(s: State, s': State, w: nat, id: JobId)
    requires s.proc.Some? && w in s.proc.value.workers
  {
    && s'.proc.Some? && s'.proc.value.mode.Up? && w in s'.proc.value.workers
    && s'.proc.value.workers[w] == s.proc.value.workers[w]
    && Untouched(s.table, s'.table, id)
  }

  lemma RequestLeavesAlone(s: State, p: Proc, a: RequestAct, w: nat, id: JobId)
    requires s.proc == Some(p) && p.mode.Up? && w in p.workers && RequestStep(s, p, a).Some?
    ensures LeftAlone(s, RequestStep(s, p, a).value, w, id)
  {}

  lemma HeldIdIsApart(p: Proc, used: set<JobId>, w: nat, id: JobId)
    requires Exclusive(p, used) && IsBusy(p, w, id)
    ensures id in used && id !in p.submits
  {
    assert HeldApart(p, used, p.workers[w]);
  }

  lemma OthersLeaveAlone(s: State, st: Step, w: nat, id: JobId)
    requires s.proc.Some? && Exclusive(s.proc.value, s.used) && s.proc.value.mode.Up? && IsBusy(s.proc.value, w, id)
    requires Next(s, st).Some? && !st.Crash? && !(st.Work? && st.w == w)
    ensures LeftAlone(s, Next(s, st).value, w, id)
  {
    var p := s.proc.value;
    HeldIdIsApart(p, s.used, w, id);
    if st.Startup? {
      StartupIsOver(s, p, st.startup);
    } else if st.Submit? {
      SubmitLeavesAlone(s, p, st.id, st.submit, w, id);
    } else if st.Work? {
      WorkLeavesAlone(s, p, st.w, st.work, w, id);
    } else if st.Request? {
      RequestLeavesAlone(s, p, st.request, w, id);
    }
  }

  lemma SubmitLeavesAlone(s: State, p: Proc, sid: JobId, a: SubmitAct, w: nat, id: JobId)
    requires s.proc == Some(p) && w in p.workers && id in s.used && id !in p.submits && SubmitStep(s, p, sid, a).Some?
    ensures LeftAlone(s, SubmitStep(s, p, sid, a).value, w, id)
  {}

  lemma WorkLeavesAlone(s: State, p: Proc, v: nat, a: WorkerAct, w: nat, id: JobId)
    requires Exclusive(p, s.used) && s.proc == Some(p) && IsBusy(p, w, id) && v != w && WorkStep(s, p, v, a).Some?
    ensures LeftAlone(s, WorkStep(s, p, v, a).value, w, id)
  {}

  lemma ReturnBegins(s: State, w: nat, o: Outcome)
    requires s.proc.Some? && Next(s, Work(w, Return(o))).Some?
    ensures var p := s.proc.value;
            && w in p.workers && p.workers[w].Busy?
            && Closing(Next(s, Work(w, Return(o))).value, w, p.workers[w].id, o, Verdict(p, p.workers[w].exec, o))
  {}

  lemma ClosingStays(s: State, st: Step, w: nat, id: JobId, o: Outcome, v: (Status, string))
    requires Inv(s) && Closing(s, w, id, o, v) && Next(s, st).Some? && !st.Crash? && st != Work(w, Close)
    ensures Closing(Next(s, st).value, w, id, o, v)
  {
    if st.Work? && st.w == w {
      OwnStepStays(s, s.proc.value, w, st.work, id, o, v);
    } else {
      OthersLeaveAlone(s, st, w, id);
    }
  }

  lemma OwnStepStays(s: State, p: Proc, w: nat, a: WorkerAct, id: JobId, o: Outcome, v: (Status, string))
    requires s.proc == Some(p) && Closing(s, w, id, o, v) && WorkStep(s, p, w, a).Some? && a != Close
    ensures Closing(WorkStep(s, p, w, a).value, w, id, o, v)
  {}

  /** What a closed row says, if it was not deleted meanwhile. */
  predicate Closed(t: Jobs, id: JobId, o: Outcome, v: (Status, string), now: int) {
    id in t.rows ==>
      && t.rows[id].status == v.0 && t.rows[id].error == v.1 && t.rows[id].finishedAt == Some(now)
      && (o.Produced? ==> Recorded(t, id, o) && Complete(t, id))
  }

  lemma CloseCloses(s: State, w: nat, id: JobId, o: Outcome, v: (Status, string))
    requires Closing(s, w, id, o, v) && v.0.Terminal() && Next(s, Work(w, Close)).Some?
    ensures Closed(Next(s, Work(w, Close)).value.table, id, o, v, s.now)
  {}

  lemma {:induction false} StillClosing(states: seq<State>, steps: seq<Step>, i: nat, j: nat, w: nat, o: Outcome)
    requires IsRun(states, steps) && i < j < |states| && steps[i] == Work(w, Return(o)) && states[i].proc.Some?
    requires forall k :: i < k < j ==> !steps[k].Crash? && steps[k] != Work(w, Close)
    ensures var p := states[i].proc.value;
            && w in p.workers && p.workers[w].Busy?
            && Closing(states[j], w, p.workers[w].id, o, Verdict(p, p.workers[w].exec, o))
    decreases j
  {
    RunStep(states, steps, i);
    ReturnBegins(states[i], w, o);
    if i + 1 < j {
      StillClosing(states, steps, i, j - 1, w, o);
      var p := states[i].proc.value;
      RunKeepsInv(states, steps, j - 1);
      RunStep(states, steps, j - 1);
      ClosingStays(states[j - 1], steps[j - 1], w, p.workers[w].id, o, Verdict(p, p.workers[w].exec, o));
    }
  }

  /** From a runner's return to the closing write, whatever the other workers, submissions,
      cancels, deletions and a shutdown do in between: the row ends with the status and error that
      return called for, finished now; and a job that is done has its output recorded and stands at
      100 percent. A cancel that comes after the return, and the look at the context that goes with
      it, changes nothing. */
  lemma ReturnDecides(states: seq<State>, steps: seq<Step>, i: nat, j: nat, w: nat, o: Outcome)
    requires IsRun(states, steps) && i < j < |steps| && steps[i] == Work(w, Return(o)) && steps[j] == Work(w, Close)
    requires forall k :: i < k < j ==> !steps[k].Crash? && steps[k] != Work(w, Close)
    ensures states[i].proc.Some? && w in states[i].proc.value.workers && states[i].proc.value.workers[w].Busy?
    ensures var p := states[i].proc.value;
            Closed(states[j + 1].table, p.workers[w].id, o, Verdict(p, p.workers[w].exec, o), states[j].now)
  {
    RunStep(states, steps, i);
    StillClosing(states, steps, i, j, w, o);
    RunStep(states, steps, j);
    var p := states[i].proc.value;
    CloseCloses(states[j], w, p.workers[w].id, o, Verdict(p, p.workers[w].exec, o));
  }
}
