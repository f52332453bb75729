/** The order in which one process publishes the events of one job. */
module JobEvents {
  import opened Common
  import opened JobTable
  import opened JobProtocol
  import opened JobSafety
  import opened JobRuns

  /** Is e about the life of job id? Deletions are announced by others. */
  predicate Speaks(e: Event, id: JobId) {
    e.id == id && !e.DeletedEvent?
  }

  /** created < still queued < running < progress < terminal */
  function Level(e: Event): int {
    match e
    case CreatedEvent(_) => 0
    case StatusEvent(_, st) => if st.Queued? then 1 else if st.Running? then 2 else 4
    case ProgressEvent(_) => 3
    case DeletedEvent(_) => 5
  }

  /** b may follow a in the stream of one job: only progress reports repeat. */
  predicate MayFollow(a: Event, b: Event) {
    Level(a) < Level(b) || (a.ProgressEvent? && b.ProgressEvent?)
  }

  ghost predicate Ordered(log: seq<Event>) {
    forall i, j :: 0 <= i < j < |log| && log[i].id == log[j].id && !log[i].DeletedEvent? && !log[j].DeletedEvent? ==>
      MayFollow(log[i], log[j])
  }

  ghost predicate Bounded(log: seq<Event>, id: JobId, cap: int) {
    forall k :: 0 <= k < |log| && Speaks(log[k], id) ==> Level(log[k]) <= cap
  }

  /** The highest level a worker at this point can have published. */
  function Cap(at: Point): int {
    if at.AtUnregister? then 4
    else if Fresh(at) || ((at.AtRead? || at.AtSend?) && at.after.ThenIdle?) then 0
    else 3
  }

  function SubmitCap(at: SubmitPoint): int {
    if at.AtAnnounce? then -1 else 0
  }

  ghost predicate CreatedFirst(p: Proc) {
    && (forall id :: id in p.mine && !(id in p.submits && p.submits[id].AtAnnounce?) ==> CreatedEvent(id) in p.log)
    && (forall j :: 0 <= j < |p.log| && !p.log[j].DeletedEvent? && 0 < Level(p.log[j]) && p.log[j].id in p.mine ==>
          CreatedEvent(p.log[j].id) in p.log[..j])
  }

  ghost predicate LogOrdered(p: Proc, used: set<JobId>) {
    Ordered(p.log) && forall k :: 0 <= k < |p.log| ==> p.log[k].id in used
  }

  ghost predicate ChannelBounded(p: Proc) {
    forall id :: id in p.ch || id in Pending(p.mode) ==> Bounded(p.log, id, 0)
  }

  ghost predicate SubmitsBounded(p: Proc) {
    forall id :: id in p.submits ==> Bounded(p.log, id, SubmitCap(p.submits[id]))
  }

  ghost predicate WorkersBounded(p: Proc) {
    forall w :: w in p.workers && p.workers[w].Busy? ==> Bounded(p.log, p.workers[w].id, Cap(p.workers[w].at))
  }

  ghost predicate LogInv(p: Proc, used: set<JobId>) {
    LogOrdered(p, used) && ChannelBounded(p) && SubmitsBounded(p) && WorkersBounded(p) && CreatedFirst(p)
  }

  lemma BoundedAfter(log: seq<Event>, event: Option<Event>, id: JobId, cap: int, cap': int)
    requires Bounded(log, id, cap) && cap <= cap'
    requires event.Some? && Speaks(event.value, id) ==> Level(event.value) <= cap'
    ensures Bounded(Logged(log, event), id, cap')
  {}

  lemma OrderedAfter(log: seq<Event>, event: Option<Event>, cap: int)
    requires Ordered(log)
    requires event.Some? && !event.value.DeletedEvent? ==>
      Bounded(log, event.value.id, cap) && (cap < Level(event.value) || (cap == 3 && event.value.ProgressEvent?))
    ensures Ordered(Logged(log, event))
  {}

  lemma CreatedFirstAfter(p: Proc, event: Option<Event>)
    requires CreatedFirst(p)
    requires event.Some? && !event.value.DeletedEvent? && 0 < Level(event.value) && event.value.id in p.mine ==>
      CreatedEvent(event.value.id) in p.log
    ensures CreatedFirst(p.(log := Logged(p.log, event)))
  {
    var log' := Logged(p.log, event);
    forall j | 0 <= j < |log'| && !log'[j].DeletedEvent? && 0 < Level(log'[j]) && log'[j].id in p.mine
      ensures CreatedEvent(log'[j].id) in log'[..j]
    {
      if j < |p.log| {
        assert log'[..j] == p.log[..j];
      } else {
        assert log'[..j] == p.log;
      }
    }
  }

  // ---- The steps ---------------------------------------------------------------------------

  /** A worker publishes only about its own job, above everything it has published before. */
  predicate Announces(b: Worker, e: Effect)
    requires b.Busy?
  {
    && (e.event.Some? ==>
          Speaks(e.event.value, b.id) && 0 < Level(e.event.value)
          && (Cap(b.at) < Level(e.event.value) || (Cap(b.at) == 3 && e.event.value.ProgressEvent?)))
    && (e.next.Some? ==>
          && Cap(b.at) <= Cap(e.next.value)
          && (e.event.Some? ==> Level(e.event.value) <= Cap(e.next.value)))
  }

  lemma EffectAnnounces(s: State, p: Proc, b: Worker, a: WorkerAct)
    requires b.Busy? && WorkerStatus(s.table, b.id, b.at, p.live)
    requires EffectOf(s, p, b.id, b.exec, b.at, a).Some?
    ensures Announces(b, EffectOf(s, p, b.id, b.exec, b.at, a).value)
  {}

  lemma PerformCreatedFirst(s: State, p: Proc, w: nat, e: Effect)
    requires w in p.workers && p.workers[w].Busy? && Announces(p.workers[w], e)
    requires HeldApart(p, s.used, p.workers[w]) && CreatedFirst(p)
    ensures CreatedFirst(Perform(s, p, w, e).proc.value)
  {
    CreatedFirstAfter(p, e.event);
    var p', q := Perform(s, p, w, e).proc.value, p.(log := Logged(p.log, e.event));
    assert CreatedFirst(q) && p'.log == q.log && p'.mine == q.mine && p'.submits == q.submits;
  }

  lemma PerformBoundsWorker(s: State, p: Proc, w: nat, e: Effect, v: nat)
    requires w in p.workers && p.workers[w].Busy? && Announces(p.workers[w], e)
    requires Exclusive(p, s.used) && WorkersBounded(p)
    requires var p' := Perform(s, p, w, e).proc.value; v in p'.workers && p'.workers[v].Busy?
    ensures var p' := Perform(s, p, w, e).proc.value; Bounded(p'.log, p'.workers[v].id, Cap(p'.workers[v].at))
  {
    var p' := Perform(s, p, w, e).proc.value;
    assert Bounded(p.log, p.workers[v].id, Cap(p.workers[v].at));
    BoundedAfter(p.log, e.event, p.workers[v].id, Cap(p.workers[v].at), Cap(p'.workers[v].at));
  }

  lemma PerformBoundsWorkers(s: State, p: Proc, w: nat, e: Effect)
    requires w in p.workers && p.workers[w].Busy? && Announces(p.workers[w], e)
    requires Exclusive(p, s.used) && WorkersBounded(p)
    ensures WorkersBounded(Perform(s, p, w, e).proc.value)
  {
    var p' := Perform(s, p, w, e).proc.value;
    forall v | v in p'.workers && p'.workers[v].Busy?
      ensures Bounded(p'.log, p'.workers[v].id, Cap(p'.workers[v].at))
    {
      PerformBoundsWorker(s, p, w, e, v);
    }
  }

  lemma PerformBoundsChannel(s: State, p: Proc, w: nat, e: Effect)
    requires w in p.workers && p.workers[w].Busy? && Announces(p.workers[w], e)
    requires HeldApart(p, s.used, p.workers[w]) && p.mode.Up? && ChannelBounded(p)
    ensures ChannelBounded(Perform(s, p, w, e).proc.value)
  {
    var p' := Perform(s, p, w, e).proc.value;
    forall id | id in p'.ch
      ensures Bounded(p'.log, id, 0)
    {
      BoundedAfter(p.log, e.event, id, 0, 0);
    }
  }

  lemma PerformBoundsSubmits(s: State, p: Proc, w: nat, e: Effect)
    requires w in p.workers && p.workers[w].Busy? && Announces(p.workers[w], e)
    requires HeldApart(p, s.used, p.workers[w]) && SubmitsBounded(p)
    ensures SubmitsBounded(Perform(s, p, w, e).proc.value)
  {
    var p' := Perform(s, p, w, e).proc.value;
    forall id | id in p'.submits
      ensures Bounded(p'.log, id, SubmitCap(p'.submits[id]))
    {
      BoundedAfter(p.log, e.event, id, SubmitCap(p.submits[id]), SubmitCap(p.submits[id]));
    }
  }

  lemma PerformOrdered(s: State, p: Proc, w: nat, e: Effect)
    requires w in p.workers && p.workers[w].Busy? && Announces(p.workers[w], e)
    requires p.workers[w].id in s.used && LogOrdered(p, s.used) && WorkersBounded(p)
    ensures LogOrdered(Perform(s, p, w, e).proc.value, s.used)
  {
    assert Bounded(p.log, p.workers[w].id, Cap(p.workers[w].at));
    OrderedAfter(p.log, e.event, Cap(p.workers[w].at));
  }

  lemma PerformLogs(s: State, p: Proc, w: nat, e: Effect)
    requires w in p.workers && p.workers[w].Busy? && Announces(p.workers[w], e)
    requires Exclusive(p, s.used) && p.mode.Up? && LogInv(p, s.used)
    ensures LogInv(Perform(s, p, w, e).proc.value, s.used)
  {
    assert HeldApart(p, s.used, p.workers[w]);
    PerformOrdered(s, p, w, e);
    PerformCreatedFirst(s, p, w, e);
    PerformBoundsChannel(s, p, w, e);
    PerformBoundsSubmits(s, p, w, e);
    PerformBoundsWorkers(s, p, w, e);
  }

  lemma WorkLogs(s: State, p: Proc, w: nat, a: WorkerAct)
    requires Inv(s) && s.proc == Some(p) && LogInv(p, s.used) && WorkStep(s, p, w, a).Some?
    ensures LogInv(WorkStep(s, p, w, a).value.proc.value, s.used)
  {
    if a.Take? {
      assert forall id :: id in p.ch[1..] ==> id in p.ch;
      assert Bounded(p.log, p.ch[0], Cap(AtLoad));
    } else if a.Leave? {
    } else {
      var b := p.workers[w];
      assert WorkerStatus(s.table, b.id, b.at, p.live);
      EffectAnnounces(s, p, b, a);
      PerformLogs(s, p, w, EffectOf(s, p, b.id, b.exec, b.at, a).value);
    }
  }

  predicate SubmitAnnounces(id: JobId, at: SubmitPoint, e: SubmitEffect) {
    && (e.event.Some? ==>
          && Speaks(e.event.value, id) && SubmitCap(at) < Level(e.event.value)
          && (at.AtAnnounce? ==> e.event.value == CreatedEvent(id)))
    && (e.next.Some? ==>
          && SubmitCap(at) <= SubmitCap(e.next.value)
          && (e.event.Some? ==> Level(e.event.value) <= SubmitCap(e.next.value)))
    && (at.AtAnnounce? ==> e.event.Some? && e.next.Some?)
    && (e.next.Some? ==> !e.next.value.AtAnnounce?)
    && (e.enqueue ==> e.event.None? && SubmitCap(at) == 0)
  }

  lemma SubmitEffectAnnounces(s: State, p: Proc, id: JobId, at: SubmitPoint, a: SubmitAct)
    requires SubmitStatus(s.table, id, at) && SubmitEffectOf(s, p, id, at, a).Some?
    ensures SubmitAnnounces(id, at, SubmitEffectOf(s, p, id, at, a).value)
  {}

  lemma SubmitCreatedFirst(s: State, p: Proc, id: JobId, e: SubmitEffect)
    requires id in p.submits && SubmitAnnounces(id, p.submits[id], e) && CreatedFirst(p)
    ensures CreatedFirst(PerformSubmit(s, p, id, e).proc.value)
  {
    CreatedFirstAfter(p, e.event);
    var p', q := PerformSubmit(s, p, id, e).proc.value, p.(log := Logged(p.log, e.event));
    assert CreatedFirst(q) && p'.log == q.log && p'.mine == q.mine;
  }

  lemma SubmitBoundsWorkers(s: State, p: Proc, id: JobId, e: SubmitEffect)
    requires id in p.submits && SubmitAnnounces(id, p.submits[id], e)
    requires Exclusive(p, s.used) && WorkersBounded(p)
    ensures WorkersBounded(PerformSubmit(s, p, id, e).proc.value)
  {
    var p' := PerformSubmit(s, p, id, e).proc.value;
    forall v | v in p'.workers && p'.workers[v].Busy?
      ensures Bounded(p'.log, p'.workers[v].id, Cap(p'.workers[v].at))
    {
      assert HeldApart(p, s.used, p.workers[v]);
      BoundedAfter(p.log, e.event, p.workers[v].id, Cap(p.workers[v].at), Cap(p.workers[v].at));
    }
  }

  lemma SubmitOrdered(s: State, p: Proc, id: JobId, e: SubmitEffect)
    requires id in p.submits && SubmitAnnounces(id, p.submits[id], e)
    requires id in s.used && LogOrdered(p, s.used) && SubmitsBounded(p)
    ensures LogOrdered(PerformSubmit(s, p, id, e).proc.value, s.used)
  {
    assert Bounded(p.log, id, SubmitCap(p.submits[id]));
    OrderedAfter(p.log, e.event, SubmitCap(p.submits[id]));
  }

  lemma SubmitBoundsSubmits(s: State, p: Proc, id: JobId, e: SubmitEffect)
    requires id in p.submits && SubmitAnnounces(id, p.submits[id], e) && SubmitsBounded(p)
    ensures SubmitsBounded(PerformSubmit(s, p, id, e).proc.value)
  {
    var p' := PerformSubmit(s, p, id, e).proc.value;
    forall x | x in p'.submits
      ensures Bounded(p'.log, x, SubmitCap(p'.submits[x]))
    {
      assert Bounded(p.log, x, SubmitCap(p.submits[x]));
      BoundedAfter(p.log, e.event, x, SubmitCap(p.submits[x]), SubmitCap(p'.submits[x]));
    }
  }

  lemma SubmitBoundsChannel(s: State, p: Proc, id: JobId, e: SubmitEffect)
    requires id in p.submits && SubmitAnnounces(id, p.submits[id], e)
    requires Exclusive(p, s.used) && p.mode.Up? && ChannelBounded(p) && SubmitsBounded(p)
    ensures ChannelBounded(PerformSubmit(s, p, id, e).proc.value)
  {
    var p' := PerformSubmit(s, p, id, e).proc.value;
    assert Bounded(p.log, id, SubmitCap(p.submits[id]));
    forall x | x in p'.ch
      ensures Bounded(p'.log, x, 0)
    {
      BoundedAfter(p.log, e.event, x, 0, 0);
    }
  }

  lemma SubmitPerformLogs(s: State, p: Proc, id: JobId, e: SubmitEffect)
    requires id in p.submits && SubmitAnnounces(id, p.submits[id], e)
    requires Exclusive(p, s.used) && p.mode.Up? && LogInv(p, s.used)
    ensures LogInv(PerformSubmit(s, p, id, e).proc.value, s.used)
  {
    SubmitOrdered(s, p, id, e);
    SubmitCreatedFirst(s, p, id, e);
    SubmitBoundsChannel(s, p, id, e);
    SubmitBoundsSubmits(s, p, id, e);
    SubmitBoundsWorkers(s, p, id, e);
  }

  lemma SubmitLogs(s: State, p: Proc, id: JobId, a: SubmitAct)
    requires Inv(s) && s.proc == Some(p) && LogInv(p, s.used) && SubmitStep(s, p, id, a).Some?
    ensures LogInv(SubmitStep(s, p, id, a).value.proc.value, SubmitStep(s, p, id, a).value.used)
  {
    if a.Create? {
      assert Bounded(p.log, id, -1);
      assert id !in p.mine;
    } else if a.ClientGone? {
    } else {
      assert SubmitStatus(s.table, id, p.submits[id]);
      SubmitEffectAnnounces(s, p, id, p.submits[id], a);
      SubmitPerformLogs(s, p, id, SubmitEffectOf(s, p, id, p.submits[id], a).value);
    }
  }

  lemma StartupLogs(s: State, p: Proc, a: StartupAct)
    requires Inv(s) && s.proc == Some(p) && LogInv(p, s.used) && StartupStep(s, p, a).Some?
    requires p.mode.Booting? || p.mode.Listing? ==> p.log == []
    ensures EventInv(StartupStep(s, p, a).value)
  {
    if a.DropSend? {
      DropSendLogs(s, p);
    } else {
      var s' := StartupStep(s, p, a).value;
      StartupMovesOn(s, p, a);
      SameLog(p, s'.proc.value, s.used);
    }
  }

  /** Apart from its one publication, startup only passes ids from list to channel. */
  ghost predicate MovesOn(s: State, p: Proc, s': State) {
    && s'.proc.Some? && s'.used == s.used && !s'.proc.value.mode.Booting?
    && var p' := s'.proc.value;
       && p'.log == p.log && p'.submits == p.submits && p'.mine == p.mine
       && (p'.mode.Listing? ==> p.mode.Booting?)
       && (forall w :: w in p'.workers ==> !p'.workers[w].Busy?)
       && (p.mode.Booting? || p.mode.Listing?
           || forall id :: id in p'.ch || id in Pending(p'.mode) ==> id in p.ch || id in Pending(p.mode))
  }

  lemma StartupMovesOn(s: State, p: Proc, a: StartupAct)
    requires s.proc == Some(p) && StartupStep(s, p, a).Some? && !a.DropSend? && p.workers == map[] && p.submits == map[]
    ensures MovesOn(s, p, StartupStep(s, p, a).value)
  {
    match a {
      case ResumeOne => ResumeOneMovesOn(s, p);
      case DropRead(ok) => DropReadMovesOn(s, p, ok);
      case _ =>
    }
  }

  lemma ResumeOneMovesOn(s: State, p: Proc)
    requires s.proc == Some(p) && StartupStep(s, p, ResumeOne).Some? && p.workers == map[] && p.submits == map[]
    ensures MovesOn(s, p, StartupStep(s, p, ResumeOne).value)
  {
    assert p.mode.rest == [p.mode.rest[0]] + p.mode.rest[1..];
  }

  lemma DropReadMovesOn(s: State, p: Proc, ok: bool)
    requires s.proc == Some(p) && StartupStep(s, p, DropRead(ok)).Some? && p.workers == map[] && p.submits == map[]
    ensures MovesOn(s, p, StartupStep(s, p, DropRead(ok)).value)
  {}

  lemma SameLog(p: Proc, p': Proc, used: set<JobId>)
    requires LogInv(p, used) && p'.log == p.log && p'.submits == p.submits && p'.mine == p.mine
    requires forall w :: w in p'.workers ==> !p'.workers[w].Busy?
    requires p.log == [] || forall id :: id in p'.ch || id in Pending(p'.mode) ==> id in p.ch || id in Pending(p.mode)
    ensures LogInv(p', used)
  {
    assert p.log == [] ==> forall id :: Bounded(p.log, id, 0);
  }

  lemma DropSendLogs(s: State, p: Proc)
    requires Inv(s) && s.proc == Some(p) && LogInv(p, s.used) && StartupStep(s, p, DropSend).Some?
    ensures EventInv(StartupStep(s, p, DropSend).value)
  {
    var p' := StartupStep(s, p, DropSend).value.proc.value;
    var e := Some(StatusEvent(p.mode.id, p.mode.row.status));
    HeadApart(p.mode.id, p.mode.rest);
    assert Pending(p.mode)[0] == p.mode.id;
    assert Bounded(p.log, p.mode.id, 0);
    OrderedAfter(p.log, e, 0);
    CreatedFirstAfter(p, e);
    forall id | id in p'.ch || id in Pending(p'.mode)
      ensures Bounded(p'.log, id, 0)
    {
      BoundedAfter(p.log, e, id, 0, 0);
    }
  }

  lemma RequestLogs(s: State, p: Proc, a: RequestAct)
    requires Inv(s) && s.proc == Some(p) && LogInv(p, s.used) && RequestStep(s, p, a).Some?
    ensures LogInv(RequestStep(s, p, a).value.proc.value, s.used)
  {
    var p' := RequestStep(s, p, a).value.proc.value;
    if a.SendDeleted? {
      var e := Some(DeletedEvent(a.id));
      OrderedAfter(p.log, e, 0);
      CreatedFirstAfter(p, e);
      forall id, cap | Bounded(p.log, id, cap)
        ensures Bounded(p'.log, id, cap)
      {
        BoundedAfter(p.log, e, id, cap, cap);
      }
    }
  }

  ghost predicate EventInv(s: State) {
    s.proc.Some? ==>
      && LogInv(s.proc.value, s.used)
      && ((s.proc.value.mode.Booting? || s.proc.value.mode.Listing?) ==> s.proc.value.log == [])
  }

  lemma StepLogs(s: State, st: Step)
    requires Inv(s) && EventInv(s) && Next(s, st).Some?
    ensures EventInv(Next(s, st).value)
  {
    if s.proc.Some? {
      var p := s.proc.value;
      match st {
        case Tick(_) =>
        case Boot(_) =>
        case Crash =>
        case Startup(a) => StartupLogs(s, p, a);
        case Submit(id, a) =>
          SubmitLogs(s, p, id, a);
          StaysUp(s, st);
        case Work(w, a) =>
          WorkLogs(s, p, w, a);
          StaysUp(s, st);
        case Request(a) =>
          RequestLogs(s, p, a);
          RequestLogsLittle(s, p, a);
      }
    }
  }

  lemma StaysUp(s: State, st: Step)
    requires Next(s, st).Some? && (st.Submit? || st.Work?)
    ensures Next(s, st).value.proc.Some? && Next(s, st).value.proc.value.mode.Up?
  {}

  lemma RequestLogsLittle(s: State, p: Proc, a: RequestAct)
    requires Quiet(p, s.used) && RequestStep(s, p, a).Some?
    ensures var p' := RequestStep(s, p, a).value.proc.value;
            p'.mode == p.mode && (!p.mode.Up? ==> p'.log == p.log) && RequestStep(s, p, a).value.used == s.used
  {}

  lemma {:induction false} RunKeepsEvents(states: seq<State>, steps: seq<Step>, i: nat)
    requires IsRun(states, steps) && i < |states|
    ensures EventInv(states[i])
  {
    if i > 0 {
      RunKeepsEvents(states, steps, i - 1);
      RunKeepsInv(states, steps, i - 1);
      RunStep(states, steps, i - 1);
      StepLogs(states[i - 1], steps[i - 1]);
    }
  }

  /** In every process of every run, the publications about one job come in the order created,
      status while queued or running, progress, terminal status, each but progress at most once;
      and a job this process created is announced before anything else is said of it. */
  lemma JobStream(states: seq<State>, steps: seq<Step>, i: nat, a: nat, b: nat)
    requires IsRun(states, steps) && i < |states| && states[i].proc.Some?
    requires var log := states[i].proc.value.log;
             a < b < |log| && log[a].id == log[b].id && !log[a].DeletedEvent? && !log[b].DeletedEvent?
    ensures var log := states[i].proc.value.log;
            && MayFollow(log[a], log[b])
            && !log[b].CreatedEvent?
            && (log[a].ProgressEvent? && log[b].StatusEvent? ==> log[b].status.Terminal())
            && (log[a].StatusEvent? && log[b].StatusEvent? ==> log[a].status.Rank() < log[b].status.Rank())
            && (log[b].ProgressEvent? && log[a].StatusEvent? ==> !log[a].status.Terminal())
            && (log[b].id in states[i].proc.value.mine ==> CreatedEvent(log[b].id) in log[..b])
  {
    RunKeepsEvents(states, steps, i);
  }

  // ---- What is published stays published ---------------------------------------------------

  function Log(s: State): seq<Event> {
    if s.proc.Some? then s.proc.value.log else []
  }

  lemma RequestSaysNothing(s: State, p: Proc, a: RequestAct)
    requires s.proc == Some(p)
    ensures RequestStep(s, p, a).Some? ==>
              var s' := RequestStep(s, p, a).value;
              s'.proc.Some? && (s'.proc.value.log == p.log
                                || (a.SendDeleted? && s'.proc.value.log == p.log + [DeletedEvent(a.id)]))
  {}

  lemma LogGrows(s: State, st: Step)
    requires Next(s, st).Some? && s.proc.Some? && !st.Crash?
    ensures Next(s, st).value.proc.Some?
    ensures var log, log' := Log(s), Log(Next(s, st).value);
            log' == log || (|log'| == |log| + 1 && log' == log + [log'[|log|]])
  {
    var p := s.proc.value;
    match st {
      case Tick(_) =>
      case Startup(a) => StartupLogGrows(s, p, a);
      case Submit(id, a) => SubmitLogGrows(s, p, id, a);
      case Work(w, a) => WorkLogGrows(s, p, w, a);
      case Request(a) => RequestSaysNothing(s, p, a);
    }
  }

  lemma StartupLogGrows(s: State, p: Proc, a: StartupAct)
    requires StartupStep(s, p, a).Some?
    ensures var s' := StartupStep(s, p, a).value;
            && s'.proc.Some?
            && (s'.proc.value.log == p.log || exists e :: s'.proc.value.log == p.log + [e])
  {
    match a {
      case Interrupt(ok) => InterruptShape(s, p, ok);
      case List(ok) => ListShape(s, p, ok);
      case ResumeOne => ResumeOneShape(s, p);
      case DropMark(ok) => DropMarkShape(s, p, ok);
      case DropRead(ok) => DropReadShape(s, p, ok);
      case DropSend => DropSendShape(s, p);
      case StartWorkers => StartWorkersShape(s, p);
    }
  }

  lemma SubmitLogGrows(s: State, p: Proc, id: nat, a: SubmitAct)
    requires SubmitStep(s, p, id, a).Some?
    ensures var s' := SubmitStep(s, p, id, a).value;
            && s'.proc.Some?
            && (s'.proc.value.log == p.log || exists e :: s'.proc.value.log == p.log + [e])
  {}

  lemma WorkLogGrows(s: State, p: Proc, w: nat, a: WorkerAct)
    requires WorkStep(s, p, w, a).Some?
    ensures var s' := WorkStep(s, p, w, a).value;
            && s'.proc.Some?
            && (s'.proc.value.log == p.log || exists e :: s'.proc.value.log == p.log + [e])
  {}
}
