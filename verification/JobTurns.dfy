/** The publishers of one job take turns: each has gone on from its Publish before the next one
    says anything about the job. */
module JobTurns {
  import opened Common
  import opened JobTable
  import opened JobProtocol
  import opened JobSafety
  import opened JobRuns
  import JobEvents
  import JobOutcomes

  datatype Actor = Worker(w: nat) | Submitter(id: JobId) | Main | Other

  /** A client leaving and a time limit passing are nobody's doing. */
  function ActorOf(st: Step): Actor {
    match st
    case Startup(_) => Main
    case Submit(id, a) => if a.ClientGone? then Other else Submitter(id)
    case Work(w, a) => if a.TimeOut? then Other else Worker(w)
    case _ => Other
  }

  /** The step publishes something about the life of job id. */
  predicate Publishes(s: State, st: Step, id: JobId) {
    && s.proc.Some? && Next(s, st).Some? && Next(s, st).value.proc.Some?
    && var log, log' := s.proc.value.log, Next(s, st).value.proc.value.log;
       |log'| == |log| + 1 && log'[|log|].id == id && !log'[|log|].DeletedEvent?
  }

  /** The actor has the job in hand. */
  predicate With(p: Proc, a: Actor, id: JobId) {
    match a
    case Worker(w) => p.mode.Up? && IsBusy(p, w, id)
    case Submitter(x) => p.mode.Up? && x == id && id in p.submits
    case Main => p.mode.Resending? && p.mode.id == id
    case Other => false
  }

  /** Nobody has the job, nor will get it in this process. */
  ghost predicate Nowhere(p: Proc, id: JobId) {
    && id !in p.ch && id !in Pending(p.mode) && id !in p.submits && !p.mode.Booting? && !p.mode.Listing?
    && forall w :: !IsBusy(p, w, id)
  }

  lemma WorkPublisher(s: State, p: Proc, w: nat, a: WorkerAct, id: JobId)
    requires s.proc == Some(p) && Publishes(s, Work(w, a), id) && Exclusive(p, s.used)
    ensures With(p, Worker(w), id) && !a.TimeOut?
    ensures var p' := Next(s, Work(w, a)).value.proc.value; With(p', Worker(w), id) || Nowhere(p', id)
  {
    assert !a.Take? && !a.Leave?;
    assert HeldApart(p, s.used, p.workers[w]);
    assert Quietened(p);
  }

  /** Nothing is pending once the workers are up. */
  predicate Quietened(p: Proc) {
    p.mode.Up? ==> Pending(p.mode) == []
  }

  lemma SubmitPublisher(s: State, p: Proc, sid: JobId, a: SubmitAct, id: JobId)
    requires s.proc == Some(p) && Publishes(s, Submit(sid, a), id) && Exclusive(p, s.used)
    ensures With(p, Submitter(sid), id) && !a.ClientGone?
    ensures var p' := Next(s, Submit(sid, a)).value.proc.value; With(p', Submitter(sid), id) || Nowhere(p', id)
  {
    assert forall w :: IsBusy(p, w, id) ==> HeldApart(p, s.used, p.workers[w]);
  }

  lemma MainPublisher(s: State, p: Proc, a: StartupAct, id: JobId)
    requires s.proc == Some(p) && Publishes(s, Startup(a), id) && Quiet(p, s.used)
    ensures With(p, Main, id) && Nowhere(Next(s, Startup(a)).value.proc.value, id)
  {
    assert a.DropSend?;
    HeadApart(p.mode.id, p.mode.rest);
    assert Pending(p.mode)[0] == id;
  }

  lemma RequestPublishesNothing(s: State, st: Step, id: JobId)
    requires st.Request? || st.Tick? || st.Boot? || st.Crash?
    ensures !Publishes(s, st, id)
  {
    if st.Request? && s.proc.Some? {
      JobEvents.RequestSaysNothing(s, s.proc.value, st.request);
    }
  }

  /** Who publishes about a job has it, and afterwards still has it, or nobody does. */
  lemma PublisherHolds(s: State, st: Step, id: JobId)
    requires Inv(s) && Publishes(s, st, id)
    ensures With(s.proc.value, ActorOf(st), id)
    ensures var p' := Next(s, st).value.proc.value; With(p', ActorOf(st), id) || Nowhere(p', id)
  {
    var p := s.proc.value;
    match st {
      case Startup(a) => MainPublisher(s, p, a, id);
      case Submit(sid, a) => SubmitPublisher(s, p, sid, a, id);
      case Work(w, a) => WorkPublisher(s, p, w, a, id);
      case _ => RequestPublishesNothing(s, st, id);
    }
  }

  /** No two actors have the same job in hand. */
  lemma OneAtATime(s: State, p: Proc, a: Actor, b: Actor, id: JobId)
    requires Inv(s) && s.proc == Some(p) && With(p, a, id) && With(p, b, id)
    ensures a == b
  {
    forall w | IsBusy(p, w, id)
      ensures HeldApart(p, s.used, p.workers[w])
    {}
  }

  lemma NowhereExcludes(p: Proc, a: Actor, id: JobId)
    requires Nowhere(p, id)
    ensures !With(p, a, id)
  {
    assert p.mode.Resending? ==> p.mode.id == Pending(p.mode)[0];
  }

  /** A worker or Submit keeps its job through everybody else's steps. */
  lemma WithStays(s: State, st: Step, a: Actor, id: JobId)
    requires Inv(s) && s.proc.Some? && With(s.proc.value, a, id) && !a.Main?
    requires Next(s, st).Some? && !st.Crash? && ActorOf(st) != a
    ensures Next(s, st).value.proc.Some? && With(Next(s, st).value.proc.value, a, id)
  {
    if st.Work? && st.work.TimeOut? {
      TimeOutMovesNobody(s, s.proc.value, st.w, a, id);
    } else if a.Worker? {
      JobOutcomes.OthersLeaveAlone(s, st, a.w, id);
    } else {
      SubmitterStays(s, s.proc.value, st, id);
    }
  }

  lemma TimeOutMovesNobody(s: State, p: Proc, w: nat, a: Actor, id: JobId)
    requires WorkStep(s, p, w, TimeOut).Some? && With(p, a, id)
    ensures var s' := WorkStep(s, p, w, TimeOut).value; s'.proc.Some? && With(s'.proc.value, a, id)
  {
    assert WorkStep(s, p, w, TimeOut).value.proc.value.workers == p.workers;
  }

  lemma LeavingMovesNobody(s: State, p: Proc, sid: JobId)
    requires SubmitStep(s, p, sid, ClientGone).Some?
    ensures SubmitStep(s, p, sid, ClientGone).value.proc == Some(p.(gone := p.gone + {sid}))
  {}

  lemma SubmitKeepsOthers(s: State, p: Proc, sid: JobId, a: SubmitAct, id: JobId)
    requires SubmitStep(s, p, sid, a).Some? && sid != id && id in p.submits
    ensures var s' := SubmitStep(s, p, sid, a).value;
            s'.proc.Some? && id in s'.proc.value.submits && s'.proc.value.mode.Up?
  {}

  lemma SubmitterStays(s: State, p: Proc, st: Step, id: JobId)
    requires s.proc == Some(p) && p.mode.Up? && id in p.submits
    requires Next(s, st).Some? && !st.Crash? && ActorOf(st) != Submitter(id)
    ensures Next(s, st).value.proc.Some? && With(Next(s, st).value.proc.value, Submitter(id), id)
  {
    match st {
      case Tick(_) =>
      case Startup(a) => StartupIsOver(s, p, a);
      case Submit(sid, a) =>
        if a.ClientGone? {
          LeavingMovesNobody(s, p, sid);
        } else {
          SubmitKeepsOthers(s, p, sid, a, id);
        }
      case Work(w, a) => WorkKeepsSubmits(s, p, w, a);
      case Request(a) => RequestKeepsSubmits(s, p, a);
    }
  }

  lemma NowhereStays(s: State, st: Step, id: JobId)
    requires Inv(s) && s.proc.Some? && Nowhere(s.proc.value, id) && id in s.used
    requires Next(s, st).Some? && !st.Crash?
    ensures Next(s, st).value.proc.Some? && Nowhere(Next(s, st).value.proc.value, id)
  {
    var p := s.proc.value;
    match st {
      case Tick(_) =>
      case Startup(a) => NowhereStartup(s, p, a, id);
      case Submit(sid, a) => NowhereSubmit(s, p, sid, a, id);
      case Work(w, a) => NowhereWork(s, p, w, a, id);
      case Request(a) => NowhereRequest(s, p, a, id);
    }
  }

  lemma NowhereStartup(s: State, p: Proc, a: StartupAct, id: JobId)
    requires Nowhere(p, id) && StartupStep(s, p, a).Some? && p.workers == map[]
    ensures StartupStep(s, p, a).value.proc.Some? && Nowhere(StartupStep(s, p, a).value.proc.value, id)
  {
    if p.mode.Up? {
      StartupIsOver(s, p, a);
    } else if p.mode.Resuming? {
      NowhereResume(s, p, a, id);
    } else {
      NowhereDrop(s, p, a, id);
    }
  }

  lemma NowhereResume(s: State, p: Proc, a: StartupAct, id: JobId)
    requires Nowhere(p, id) && StartupStep(s, p, a).Some? && p.workers == map[] && p.mode.Resuming?
    ensures StartupStep(s, p, a).value.proc.Some? && Nowhere(StartupStep(s, p, a).value.proc.value, id)
  {
    match a {
      case ResumeOne =>
        ResumeOneShape(s, p);
        assert p.mode.rest == [p.mode.rest[0]] + p.mode.rest[1..];
        assert p.mode.rest[0] in Pending(p.mode);
      case StartWorkers => StartWorkersShape(s, p);
    }
  }

  lemma NowhereShrinks(p: Proc, p': Proc, id: JobId)
    requires Nowhere(p, id) && GivingUp(p.mode) && Shrinks(p, p')
    ensures Nowhere(p', id)
  {
    assert forall w :: IsBusy(p', w, id) ==> IsBusy(p, w, id);
  }

  lemma NowhereDrop(s: State, p: Proc, a: StartupAct, id: JobId)
    requires Nowhere(p, id) && StartupStep(s, p, a).Some? && GivingUp(p.mode)
    ensures StartupStep(s, p, a).value.proc.Some? && Nowhere(StartupStep(s, p, a).value.proc.value, id)
  {
    DropShrinks(s, p, a);
    NowhereShrinks(p, StartupStep(s, p, a).value.proc.value, id);
  }

  lemma NowhereSubmit(s: State, p: Proc, sid: JobId, a: SubmitAct, id: JobId)
    requires Nowhere(p, id) && id in s.used && SubmitStep(s, p, sid, a).Some?
    ensures SubmitStep(s, p, sid, a).value.proc.Some? && Nowhere(SubmitStep(s, p, sid, a).value.proc.value, id)
  {
    var p' := SubmitStep(s, p, sid, a).value.proc.value;
    assert forall w :: IsBusy(p', w, id) ==> IsBusy(p, w, id);
  }

  lemma NowhereWork(s: State, p: Proc, w: nat, a: WorkerAct, id: JobId)
    requires Nowhere(p, id) && WorkStep(s, p, w, a).Some?
    ensures WorkStep(s, p, w, a).value.proc.Some? && Nowhere(WorkStep(s, p, w, a).value.proc.value, id)
  {
    var p' := WorkStep(s, p, w, a).value.proc.value;
    forall v
      ensures !IsBusy(p', v, id)
    {
      assert !IsBusy(p, v, id);
    }
  }

  lemma NowhereRequest(s: State, p: Proc, a: RequestAct, id: JobId)
    requires Nowhere(p, id) && RequestStep(s, p, a).Some?
    ensures RequestStep(s, p, a).value.proc.Some? && Nowhere(RequestStep(s, p, a).value.proc.value, id)
  {
    var p' := RequestStep(s, p, a).value.proc.value;
    assert forall w :: IsBusy(p', w, id) ==> IsBusy(p, w, id);
  }

  /** A publisher that has not gone on yet: it has the job still, or nobody does. */
  ghost predicate InHand(s: State, a: Actor, id: JobId) {
    && s.proc.Some? && id in s.used
    && (Nowhere(s.proc.value, id) || (!a.Main? && With(s.proc.value, a, id)))
  }

  lemma PublishedInHand(s: State, st: Step, id: JobId)
    requires Inv(s) && Publishes(s, st, id)
    ensures InHand(Next(s, st).value, ActorOf(st), id)
  {
    PublisherHolds(s, st, id);
    HolderIsUsed(s, ActorOf(st), id);
    StepFlows(s, st, id);
    if st.Startup? {
      MainPublisher(s, s.proc.value, st.startup, id);
    }
  }

  lemma InHandStays(s: State, st: Step, a: Actor, id: JobId)
    requires Inv(s) && InHand(s, a, id) && Next(s, st).Some? && !st.Crash? && ActorOf(st) != a
    ensures InHand(Next(s, st).value, a, id)
  {
    StepFlows(s, st, id);
    if Nowhere(s.proc.value, id) {
      NowhereStays(s, st, id);
    } else {
      WithStays(s, st, a, id);
    }
  }

  lemma {:induction false} StaysInHand(states: seq<State>, steps: seq<Step>, i: nat, j: nat, a: Actor, id: JobId)
    requires IsRun(states, steps) && i <= j < |states| && InHand(states[i], a, id)
    requires forall k :: i <= k < j ==> !steps[k].Crash? && ActorOf(steps[k]) != a
    ensures InHand(states[j], a, id)
    decreases j
  {
    if i < j {
      StaysInHand(states, steps, i, j - 1, a, id);
      RunKeepsInv(states, steps, j - 1);
      RunStep(states, steps, j - 1);
      InHandStays(states[j - 1], steps[j - 1], a, id);
    }
  }

  lemma HolderIsUsed(s: State, a: Actor, id: JobId)
    requires Inv(s) && s.proc.Some? && With(s.proc.value, a, id)
    ensures id in s.used
  {
    var p := s.proc.value;
    if a.Worker? {
      assert HeldApart(p, s.used, p.workers[a.w]);
    } else if a.Main? {
      assert Pending(p.mode)[0] == id;
    }
  }

  /** Actor a takes a step strictly between step i and step j. */
  ghost predicate MovesBetween(steps: seq<Step>, i: nat, j: nat, a: Actor) {
    exists k :: i < k < j < |steps| && ActorOf(steps[k]) == a
  }

  ghost predicate OneProcess(steps: seq<Step>, i: nat, j: nat) {
    forall k :: i < k < j < |steps| ==> !steps[k].Crash?
  }

  /** Between two publications about one job by different actors of one process, the first actor
      has taken another step, so its Publish had returned before the second began; and one actor's
      own publications follow each other. */
  lemma PublishersTakeTurns(states: seq<State>, steps: seq<Step>, i: nat, j: nat, id: JobId)
    requires IsRun(states, steps) && i < j < |steps| && OneProcess(steps, i, j)
    requires Publishes(states[i], steps[i], id) && Publishes(states[j], steps[j], id)
    ensures ActorOf(steps[i]) == ActorOf(steps[j]) || MovesBetween(steps, i, j, ActorOf(steps[i]))
  {
    PublishedAt(states, steps, i, id);
    if !MovesBetween(steps, i, j, ActorOf(steps[i])) {
      StillInHand(states, steps, i, j, ActorOf(steps[i]), id);
      HolderAt(states, steps, j, ActorOf(steps[i]), id);
    }
  }

  lemma StillInHand(states: seq<State>, steps: seq<Step>, i: nat, j: nat, a: Actor, id: JobId)
    requires IsRun(states, steps) && i < j < |steps| && InHand(states[i + 1], a, id)
    requires OneProcess(steps, i, j) && !MovesBetween(steps, i, j, a)
    ensures InHand(states[j], a, id)
  {
    StaysInHand(states, steps, i + 1, j, a, id);
  }

  lemma PublishedAt(states: seq<State>, steps: seq<Step>, i: nat, id: JobId)
    requires IsRun(states, steps) && i < |steps| && Publishes(states[i], steps[i], id)
    ensures InHand(states[i + 1], ActorOf(steps[i]), id)
  {
    RunKeepsInv(states, steps, i);
    RunStep(states, steps, i);
    PublishedInHand(states[i], steps[i], id);
  }

  lemma HolderAt(states: seq<State>, steps: seq<Step>, j: nat, a: Actor, id: JobId)
    requires IsRun(states, steps) && j < |steps| && InHand(states[j], a, id) && Publishes(states[j], steps[j], id)
    ensures ActorOf(steps[j]) == a
  {
    RunKeepsInv(states, steps, j);
    OnlyTheHolderPublishes(states[j], steps[j], a, id);
  }

  lemma OnlyTheHolderPublishes(s: State, st: Step, a: Actor, id: JobId)
    requires Inv(s) && InHand(s, a, id) && Publishes(s, st, id)
    ensures ActorOf(st) == a
  {
    PublisherHolds(s, st, id);
    if Nowhere(s.proc.value, id) {
      NowhereExcludes(s.proc.value, ActorOf(st), id);
    } else {
      OneAtATime(s, s.proc.value, a, ActorOf(st), id);
    }
  }
}
