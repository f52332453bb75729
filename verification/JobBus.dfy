/** The job protocol and the event bus together: what every subscriber sees of every job. */
module JobBus {
  import opened Common
  import J = JobProtocol
  import S = JobSafety
  import R = JobRuns
  import E = JobEvents
  import P = JobReports
  import T = JobTurns
  import B = EventBus

  /** Publication k carries the k-th event of the process's log; owner names who is still inside
      the Publish of each one that has not returned. */
  datatype State = State(job: J.State, bus: B.State, owner: map<nat, T.Actor>)

  datatype Step = Job(job: J.Step) | Bus(bus: B.Step)

  const START := State(J.Initial(), B.EMPTY, map[])

  predicate Publishing(s: State, a: T.Actor) {
    a != T.Other && exists k :: k in s.owner && s.owner[k] == a
  }

  /** A step that adds to the log begins a publication, once no writer is waiting at the lock, and
      its actor does nothing more until that publication has ended. */
  function Next(s: State, st: Step): Option<State> {
    match st
    case Job(j) =>
      var job' := J.Next(s.job, j);
      if job'.None? || Publishing(s, T.ActorOf(j)) then None
      else if j.Crash? || j.Boot? then Some(State(job'.value, B.EMPTY, map[]))
      else if |E.Log(job'.value)| == |E.Log(s.job)| then Some(s.(job := job'.value))
      else
        var bus' := B.Next(s.bus, B.Begin);
        if bus'.None? then None
        else Some(State(job'.value, bus'.value, s.owner[|s.bus.before| := T.ActorOf(j)]))
    case Bus(b) =>
      if s.job.proc.None? || b.Begin? then None
      else
        var bus' := B.Next(s.bus, b);
        if bus'.None? then None
        else Some(State(s.job, bus'.value, if b.End? then s.owner - {b.k} else s.owner))
  }

  ghost predicate IsRun(states: seq<State>, steps: seq<Step>) {
    && |states| == |steps| + 1 && states[0] == START
    && forall i {:trigger steps[i]} :: 0 <= i < |steps| ==> Next(states[i], steps[i]) == Some(states[i + 1])
  }

  // ---- A job's publications do not overlap -------------------------------------------------

  predicate SameJob(a: J.Event, b: J.Event) {
    a.id == b.id && !a.DeletedEvent? && !b.DeletedEvent?
  }

  /** Of two publications about one job the earlier had returned before the later began. */
  ghost predicate TakeTurns(log: seq<J.Event>, before: seq<set<nat>>) {
    |log| == |before| && forall a, b :: 0 <= a < b < |log| && SameJob(log[a], log[b]) ==> a in before[b]
  }

  /** Whoever is inside a Publish about a job has that job in hand. */
  ghost predicate OwnersHold(s: State) {
    forall k :: k in s.owner ==>
      k < |E.Log(s.job)| && (E.Log(s.job)[k].DeletedEvent? || HoldsFor(s, s.owner[k], E.Log(s.job)[k].id))
  }

  ghost predicate HoldsFor(s: State, a: T.Actor, id: nat) {
    a != T.Other && T.InHand(s.job, a, id)
  }

  ghost predicate JobInv(s: J.State) {
    S.Inv(s) && E.EventInv(s) && P.Truthful(s)
  }

  ghost predicate Inv(s: State) {
    && JobInv(s.job) && B.Inv(s.bus)
    && s.owner.Keys == s.bus.active.Keys
    && OwnersHold(s)
    && TakeTurns(E.Log(s.job), s.bus.before)
  }

  /** Through a step of somebody else every publisher keeps its job in hand. */
  lemma OwnerStays(s: State, j: J.Step, k: nat)
    requires Inv(s) && k in s.owner && !E.Log(s.job)[k].DeletedEvent?
    requires J.Next(s.job, j).Some? && !j.Crash? && !Publishing(s, T.ActorOf(j))
    ensures T.InHand(J.Next(s.job, j).value, s.owner[k], E.Log(s.job)[k].id) && s.owner[k] != T.Other
  {
    assert HoldsFor(s, s.owner[k], E.Log(s.job)[k].id);
    T.InHandStays(s.job, j, s.owner[k], E.Log(s.job)[k].id);
  }

  lemma ResetKeeps(s: State, j: J.Step)
    requires Inv(s) && (j.Crash? || j.Boot?) && Next(s, Job(j)).Some?
    ensures Inv(Next(s, Job(j)).value)
  {
    JobPartKeeps(s.job, j);
  }

  lemma QuietStepKeeps(s: State, j: J.Step)
    requires Inv(s) && Next(s, Job(j)).Some? && !j.Crash? && !j.Boot? && s.job.proc.Some?
    requires E.Log(J.Next(s.job, j).value) == E.Log(s.job)
    ensures Inv(Next(s, Job(j)).value)
  {
    var s' := Next(s, Job(j)).value;
    JobPartKeeps(s.job, j);
    forall k | k in s'.owner && !E.Log(s'.job)[k].DeletedEvent?
      ensures HoldsFor(s', s'.owner[k], E.Log(s'.job)[k].id)
    {
      OwnerStays(s, j, k);
    }
  }

  /** A new publication about a job begins only when no other about it is under way. */
  lemma NewTurn(s: State, j: J.Step, e: J.Event)
    requires Inv(s) && Next(s, Job(j)).Some? && !j.Crash? && !j.Boot? && s.job.proc.Some?
    requires E.Log(J.Next(s.job, j).value) == E.Log(s.job) + [e]
    ensures TakeTurns(E.Log(s.job) + [e], s.bus.before + [s.bus.ended])
  {
    var log := E.Log(s.job);
    forall a | 0 <= a < |log| && SameJob(log[a], e)
      ensures a in s.bus.ended
    {
      E.LogGrows(s.job, j);
      if a in s.bus.active {
        assert a in s.owner.Keys;
        assert HoldsFor(s, s.owner[a], e.id);
        assert T.Publishes(s.job, j, e.id);
        T.OnlyTheHolderPublishes(s.job, j, s.owner[a], e.id);
        assert Publishing(s, T.ActorOf(j));
      }
    }
  }

  lemma NewOwner(s: State, j: J.Step, e: J.Event)
    requires Inv(s) && Next(s, Job(j)).Some? && !j.Crash? && !j.Boot? && s.job.proc.Some?
    requires E.Log(J.Next(s.job, j).value) == E.Log(s.job) + [e] && !e.DeletedEvent?
    ensures HoldsFor(Next(s, Job(j)).value, T.ActorOf(j), e.id)
  {
    E.LogGrows(s.job, j);
    assert T.Publishes(s.job, j, e.id);
    T.PublishedInHand(s.job, j, e.id);
    T.PublisherHolds(s.job, j, e.id);
  }

  lemma PublishOwnersHold(s: State, j: J.Step, e: J.Event)
    requires Inv(s) && Next(s, Job(j)).Some? && !j.Crash? && !j.Boot? && s.job.proc.Some?
    requires E.Log(J.Next(s.job, j).value) == E.Log(s.job) + [e]
    ensures OwnersHold(Next(s, Job(j)).value)
  {
    var s' := Next(s, Job(j)).value;
    forall k | k in s'.owner
      ensures k < |E.Log(s'.job)| && (E.Log(s'.job)[k].DeletedEvent? || HoldsFor(s', s'.owner[k], E.Log(s'.job)[k].id))
    {
      if k == |E.Log(s.job)| {
        if !e.DeletedEvent? {
          NewOwner(s, j, e);
        }
      } else {
        assert k in s.owner && E.Log(s'.job)[k] == E.Log(s.job)[k];
        if !E.Log(s.job)[k].DeletedEvent? {
          OwnerStays(s, j, k);
        }
      }
    }
  }

  lemma PublishBegins(s: State, j: J.Step, e: J.Event)
    requires s.job.proc.Some? && Next(s, Job(j)).Some? && !j.Crash? && !j.Boot?
    requires E.Log(J.Next(s.job, j).value) == E.Log(s.job) + [e]
    ensures B.Next(s.bus, B.Begin).Some?
    ensures Next(s, Job(j)).value ==
            State(J.Next(s.job, j).value, B.Next(s.bus, B.Begin).value, s.owner[|s.bus.before| := T.ActorOf(j)])
  {}

  lemma JobPartKeeps(s: J.State, j: J.Step)
    requires JobInv(s) && J.Next(s, j).Some?
    ensures JobInv(J.Next(s, j).value)
  {
    S.StepKeeps(s, j);
    E.StepLogs(s, j);
    P.StepTruthful(s, j);
  }

  lemma BeginKeeps(s: State, job': J.State, a: T.Actor)
    requires Inv(s) && JobInv(job') && B.Next(s.bus, B.Begin).Some?
    requires TakeTurns(E.Log(job'), s.bus.before + [s.bus.ended])
    requires OwnersHold(State(job', B.Next(s.bus, B.Begin).value, s.owner[|s.bus.before| := a]))
    ensures Inv(State(job', B.Next(s.bus, B.Begin).value, s.owner[|s.bus.before| := a]))
  {
    B.StepKeeps(s.bus, B.Begin);
  }

  lemma PublishKeeps(s: State, j: J.Step, e: J.Event)
    requires Inv(s) && Next(s, Job(j)).Some? && !j.Crash? && !j.Boot? && s.job.proc.Some?
    requires E.Log(J.Next(s.job, j).value) == E.Log(s.job) + [e]
    ensures Inv(Next(s, Job(j)).value)
  {
    PublishBegins(s, j, e);
    JobPartKeeps(s.job, j);
    NewTurn(s, j, e);
    PublishOwnersHold(s, j, e);
    BeginKeeps(s, J.Next(s.job, j).value, T.ActorOf(j));
  }

  lemma JobStepKeeps(s: State, j: J.Step)
    requires Inv(s) && Next(s, Job(j)).Some?
    ensures Inv(Next(s, Job(j)).value)
  {
    if j.Crash? || j.Boot? {
      ResetKeeps(s, j);
    } else if s.job.proc.None? {
      assert j.Tick?;
      S.StepKeeps(s.job, j);
    } else {
      E.LogGrows(s.job, j);
      var log, log' := E.Log(s.job), E.Log(J.Next(s.job, j).value);
      if log' == log {
        QuietStepKeeps(s, j);
      } else {
        PublishKeeps(s, j, log'[|log|]);
      }
    }
  }

  lemma BusStepKeeps(s: State, b: B.Step)
    requires Inv(s) && Next(s, Bus(b)).Some?
    ensures Inv(Next(s, Bus(b)).value)
  {
    var s' := Next(s, Bus(b)).value;
    B.StepKeeps(s.bus, b);
    assert s'.bus.before == s.bus.before;
    assert s'.owner.Keys == s'.bus.active.Keys;
    forall k | k in s'.owner && !E.Log(s'.job)[k].DeletedEvent?
      ensures HoldsFor(s', s'.owner[k], E.Log(s'.job)[k].id)
    {
      assert HoldsFor(s, s.owner[k], E.Log(s.job)[k].id);
    }
  }

  lemma StepKeeps(s: State, st: Step)
    requires Inv(s) && Next(s, st).Some?
    ensures Inv(Next(s, st).value)
  {
    match st {
      case Job(j) => JobStepKeeps(s, j);
      case Bus(b) => BusStepKeeps(s, b);
    }
  }

  lemma {:induction false} RunKeepsInv(states: seq<State>, steps: seq<Step>, i: nat)
    requires IsRun(states, steps) && i < |states|
    ensures Inv(states[i])
  {
    if i > 0 {
      RunKeepsInv(states, steps, i - 1);
      assert Next(states[i - 1], steps[i - 1]) == Some(states[i]);
      StepKeeps(states[i - 1], steps[i - 1]);
    }
  }

  /** In every process, under every interleaving of Submits, workers, cancels, deletes, shutdown,
      subscribers coming and going and slow readers: of any two events about one job's life in a
      subscriber's stream the earlier was published earlier, and they come in the order created,
      status while queued or running, progress, terminal status; only progress repeats. */
  lemma SubscriberSeesJobInOrder(states: seq<State>, steps: seq<Step>, i: nat, sub: nat, a: nat, b: nat)
    requires IsRun(states, steps) && i < |states| && sub in states[i].bus.chans
    requires a < b < |states[i].bus.chans[sub].stream|
    ensures var stream, log := states[i].bus.chans[sub].stream, E.Log(states[i].job);
            && stream[a] < |log| && stream[b] < |log|
            && (SameJob(log[stream[a]], log[stream[b]]) ==>
                  && stream[a] < stream[b] && E.MayFollow(log[stream[a]], log[stream[b]])
                  && !log[stream[b]].CreatedEvent?
                  && (log[stream[a]].StatusEvent? && log[stream[b]].StatusEvent? ==>
                        log[stream[a]].status.Rank() < log[stream[b]].status.Rank())
                  && (log[stream[a]].ProgressEvent? && log[stream[b]].StatusEvent? ==> log[stream[b]].status.Terminal())
                  && (log[stream[a]].StatusEvent? && log[stream[b]].ProgressEvent? ==>
                      !log[stream[a]].status.Terminal()))
  {
    RunKeepsInv(states, steps, i);
    StreamInOrder(states[i], sub, a, b);
    ReadOff(E.Log(states[i].job)[states[i].bus.chans[sub].stream[a]],
            E.Log(states[i].job)[states[i].bus.chans[sub].stream[b]]);
  }

  lemma ReadOff(x: J.Event, y: J.Event)
    requires SameJob(x, y) ==> E.MayFollow(x, y)
    ensures SameJob(x, y) ==>
              && !y.CreatedEvent?
              && (x.StatusEvent? && y.StatusEvent? ==> x.status.Rank() < y.status.Rank())
              && (x.ProgressEvent? && y.StatusEvent? ==> y.status.Terminal())
              && (x.StatusEvent? && y.ProgressEvent? ==> !x.status.Terminal())
  {}

  lemma StreamInOrder(s: State, sub: nat, a: nat, b: nat)
    requires Inv(s) && sub in s.bus.chans && a < b < |s.bus.chans[sub].stream|
    ensures var stream, log := s.bus.chans[sub].stream, E.Log(s.job);
            && stream[a] < |log| && stream[b] < |log|
            && (SameJob(log[stream[a]], log[stream[b]]) ==>
                  stream[a] < stream[b] && E.MayFollow(log[stream[a]], log[stream[b]]))
  {
    var c := s.bus.chans[sub];
    assert B.ChanInv(s.bus, sub);
    assert c.stream[a] in c.stream && c.stream[b] in c.stream;
    var x, y := c.stream[a], c.stream[b];
    assert SameJob(E.Log(s.job)[x], E.Log(s.job)[y]) == SameJob(E.Log(s.job)[y], E.Log(s.job)[x]);
    assert s.job.proc.Some? ==> E.Ordered(E.Log(s.job));
  }

  /** A terminal status that reaches a subscriber is the status of the job's row, as long as that is
      there. */
  lemma SubscriberSeesTrueEnd(states: seq<State>, steps: seq<Step>, i: nat, sub: nat, a: nat, id: nat)
    requires IsRun(states, steps) && i < |states| && sub in states[i].bus.chans
    requires a < |states[i].bus.chans[sub].stream| && id in states[i].job.table.rows
    ensures var k, log := states[i].bus.chans[sub].stream[a], E.Log(states[i].job);
            && k < |log|
            && (log[k].StatusEvent? && log[k].id == id && log[k].status.Terminal() ==>
                  states[i].job.table.rows[id].status == log[k].status)
  {
    RunKeepsInv(states, steps, i);
    TrueEnd(states[i], sub, a, id);
  }

  lemma TrueEnd(s: State, sub: nat, a: nat, id: nat)
    requires Inv(s) && sub in s.bus.chans && a < |s.bus.chans[sub].stream| && id in s.job.table.rows
    ensures var k, log := s.bus.chans[sub].stream[a], E.Log(s.job);
            && k < |log|
            && (log[k].StatusEvent? && log[k].id == id && log[k].status.Terminal() ==>
                  s.job.table.rows[id].status == log[k].status)
  {
    var k, log := s.bus.chans[sub].stream[a], E.Log(s.job);
    assert B.ChanInv(s.bus, sub) && k in s.bus.chans[sub].stream;
    if log[k].StatusEvent? && log[k].id == id && log[k].status.Terminal() {
      assert log[k] == J.StatusEvent(id, log[k].status);
      assert P.Holds(s.job.proc.value, id, log[k].status);
    }
  }
}
