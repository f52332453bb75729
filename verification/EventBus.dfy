/** The event bus: lossy fan-out to buffered channels under a read-write lock. */
module EventBus {
  import opened Common

  const CAPACITY: nat := 64

  /** A non-blocking send into a buffered channel. */
  function Offer<E>(buffer: seq<E>, e: E): seq<E> {
    if |buffer| < CAPACITY then buffer + [e] else buffer
  }

  // ---- The bus as one caller sees it -------------------------------------------------------

  class Bus<E(0)> {
    var next: nat
    var subs: map<nat, seq<E>>     // subscriber number to what its channel buffers

    ghost predicate Valid()
      reads this
    {
      (forall id :: id in subs ==> id < next) && (forall id :: id in subs ==> |subs[id]| <= CAPACITY)
    }

    constructor ()
      ensures Valid() && subs == map[]
    {
      next, subs := 0, map[];
    }

    method Subscribe() returns (id: nat)
      requires Valid()
      modifies this
      ensures Valid() && id !in old(subs) && subs == old(subs)[id := []] && next == id + 1
    {
      id := next;
      next := next + 1;
      subs := subs[id := []];
    }

    method Cancel(id: nat)
      requires Valid()
      modifies this`subs
      ensures Valid() && subs == old(subs) - {id}
    {
      subs := subs - {id};
    }

    /** Every subscriber is offered e once; a full channel loses it and nobody waits. */
    method Publish(e: E)
      requires Valid()
      modifies this`subs
      ensures Valid() && subs.Keys == old(subs).Keys
      ensures forall id :: id in subs ==> subs[id] == Offer(old(subs)[id], e)
    {
      var todo := subs.Keys;
      while todo != {}
        invariant subs.Keys == old(subs).Keys && todo <= subs.Keys && Valid()
        invariant forall id :: id in subs ==> subs[id] == if id in todo then old(subs)[id] else Offer(old(subs)[id], e)
        decreases todo
      {
        var id :| id in todo;
        if |subs[id]| < CAPACITY {
          subs := subs[id := subs[id] + [e]];
        }
        todo := todo - {id};
      }
    }
  }

  // ---- The bus as concurrent callers see it ------------------------------------------------

  /** stream is everything that entered the channel, oldest first; the last |stream| - taken are buffered. */
  datatype Chan = Chan(stream: seq<nat>, taken: nat, dropped: set<nat>, open: bool, joined: nat) {
    predicate Full() {
      |stream| - taken >= CAPACITY
    }
  }

  /** Publications are numbered as their Publish takes the read lock. before[k] holds those that
      had already returned then. */
  datatype State = State(
    chans: map<nat, Chan>,
    registered: set<nat>,
    writers: nat,                      // subscribes and unsubscribes waiting at the lock
    active: map<nat, set<nat>>,        // publications holding the read lock: subscribers visited
    before: seq<set<nat>>,
    ended: set<nat>,
    panicked: bool)

  datatype Step =
    | AskWrite
    | Subscribe(sub: nat)
    | Unregister(sub: nat)             // delete under the write lock
    | CloseChan(sub: nat)              // after the lock is released
    | Begin
    | Send(k: nat, sub: nat)
    | End(k: nat)
    | Receive(sub: nat)

  const EMPTY := State(map[], {}, 0, map[], [], {}, false)

  /** The write lock waits for every reader; a reader waits behind a waiting writer. */
  predicate MayWrite(s: State) {
    s.writers > 0 && s.active == map[]
  }

  function Next(s: State, st: Step): Option<State> {
    match st
    case AskWrite => Some(s.(writers := s.writers + 1))
    case Subscribe(sub) =>
      if !MayWrite(s) || sub in s.chans then None
      else Some(s.(writers := s.writers - 1, chans := s.chans[sub := Chan([], 0, {}, true, |s.before|)],
                   registered := s.registered + {sub}))
    case Unregister(sub) =>
      if !MayWrite(s) || sub !in s.registered then None
      else Some(s.(writers := s.writers - 1, registered := s.registered - {sub}))
    case CloseChan(sub) =>
      if sub in s.registered || sub !in s.chans || !s.chans[sub].open then None
      else Some(s.(chans := s.chans[sub := s.chans[sub].(open := false)]))
    case Begin =>
      if s.writers > 0 then None
      else Some(s.(active := s.active[|s.before| := {}], before := s.before + [s.ended]))
    case Send(k, sub) =>
      if k !in s.active || sub !in s.registered || sub in s.active[k] || sub !in s.chans then None
      else
        var c := s.chans[sub];
        var s' := s.(active := s.active[k := s.active[k] + {sub}]);
        if !c.open then Some(s'.(panicked := true))
        else if c.Full() then Some(s'.(chans := s.chans[sub := c.(dropped := c.dropped + {k})]))
        else Some(s'.(chans := s.chans[sub := c.(stream := c.stream + [k])]))
    case End(k) =>
      if k !in s.active || s.active[k] != s.registered then None
      else Some(s.(active := s.active - {k}, ended := s.ended + {k}))
    case Receive(sub) =>
      if sub !in s.chans || s.chans[sub].taken >= |s.chans[sub].stream| then None
      else Some(s.(chans := s.chans[sub := s.chans[sub].(taken := s.chans[sub].taken + 1)]))
  }

  /** No publication in the stream had already returned when an earlier one of the stream began. */
  ghost predicate NeverInverts(stream: seq<nat>, before: seq<set<nat>>) {
    forall i, j :: 0 <= i < j < |stream| && stream[i] < |before| ==> stream[j] !in before[stream[i]]
  }

  ghost predicate ChanInv(s: State, sub: nat)
    requires sub in s.chans
  {
    var c := s.chans[sub];
    && c.taken <= |c.stream| <= c.taken + CAPACITY
    && Distinct(c.stream) && NeverInverts(c.stream, s.before)
    && (forall k :: k in c.stream || k in c.dropped ==> k < |s.before| && (k in s.active ==> sub in s.active[k]))
    && (forall k :: k in c.stream ==> k !in c.dropped)
    && (sub in s.registered ==> c.open && Reached(s, sub))
  }

  /** Whoever has visited sub since it joined left its publication there or found the buffer full. */
  ghost predicate Reached(s: State, sub: nat)
    requires sub in s.chans
  {
    var c := s.chans[sub];
    forall k :: c.joined <= k < |s.before| && (k in s.ended || (k in s.active && sub in s.active[k])) ==>
      k in c.stream || k in c.dropped
  }

  ghost predicate Inv(s: State) {
    && !s.panicked
    && (forall k: nat :: k < |s.before| ==> (k in s.active <==> k !in s.ended))
    && (forall k :: k in s.active || k in s.ended ==> k < |s.before|)
    && (forall k, e :: 0 <= k < |s.before| && e in s.before[k] ==> e in s.ended)
    && (forall k :: k in s.active ==> s.active[k] <= s.registered)
    && (forall sub :: sub in s.registered ==> sub in s.chans)
    && (forall sub :: sub in s.chans ==> ChanInv(s, sub))
  }

  lemma SendKeepsTarget(s: State, k: nat, sub: nat)
    requires Inv(s) && Next(s, Send(k, sub)).Some?
    ensures sub in Next(s, Send(k, sub)).value.chans && ChanInv(Next(s, Send(k, sub)).value, sub)
  {
    var c := s.chans[sub];
    assert ChanInv(s, sub);
    assert k !in c.stream && k !in c.dropped;
  }

  lemma SendKeeps(s: State, k: nat, sub: nat)
    requires Inv(s) && Next(s, Send(k, sub)).Some?
    ensures Inv(Next(s, Send(k, sub)).value)
  {
    var s' := Next(s, Send(k, sub)).value;
    SendKeepsTarget(s, k, sub);
    assert ChanInv(s, sub);
    forall x | x in s'.chans
      ensures ChanInv(s', x)
    {
      assert ChanInv(s, x);
    }
  }

  lemma StepKeeps(s: State, st: Step)
    requires Inv(s) && Next(s, st).Some?
    ensures Inv(Next(s, st).value)
  {
    if st.Send? {
      SendKeeps(s, st.k, st.sub);
    } else {
      var s' := Next(s, st).value;
      forall x | x in s'.chans
        ensures ChanInv(s', x)
      {
        OtherStepKeepsChan(s, st, x);
      }
    }
  }

  lemma OtherStepKeepsChan(s: State, st: Step, x: nat)
    requires Inv(s) && Next(s, st).Some? && !st.Send? && x in Next(s, st).value.chans
    ensures ChanInv(Next(s, st).value, x)
  {
    if x in s.chans {
      assert ChanInv(s, x);
      assert forall i :: 0 <= i < |s.chans[x].stream| ==> s.chans[x].stream[i] in s.chans[x].stream;
    }
  }

  ghost predicate IsRun(states: seq<State>, steps: seq<Step>) {
    Continues(EMPTY, states, steps)
  }

  /** states follow one another from s on. */
  ghost predicate Continues(s: State, states: seq<State>, steps: seq<Step>) {
    && |states| == |steps| + 1 && states[0] == s
    && forall i {:trigger steps[i]} :: 0 <= i < |steps| ==> Next(states[i], steps[i]) == Some(states[i + 1])
  }

  lemma {:induction false} StaysInv(s: State, states: seq<State>, steps: seq<Step>, i: nat)
    requires Inv(s) && Continues(s, states, steps) && i < |states|
    ensures Inv(states[i])
  {
    if i > 0 {
      StaysInv(s, states, steps, i - 1);
      assert Next(states[i - 1], steps[i - 1]) == Some(states[i]);
      StepKeeps(states[i - 1], steps[i - 1]);
    }
  }

  /** No Publish sends on a closed channel, and one that holds the lock never has to wait: while it
      is not done there is a send or its return to perform, whatever the others do. One that wants
      the lock waits only for a subscribe or unsubscribe already there, and once the readers are
      out those can go. */
  lemma PublishNeverBlocksNorPanics(states: seq<State>, steps: seq<Step>, i: nat)
    requires IsRun(states, steps) && i < |states|
    ensures !states[i].panicked
    ensures forall k :: k in states[i].active ==>
              Next(states[i], End(k)).Some? || exists sub :: Next(states[i], Send(k, sub)).Some?
    ensures Next(states[i], Begin).None? <==> states[i].writers > 0
    ensures states[i].writers > 0 && states[i].active == map[] ==> exists sub :: Next(states[i], Subscribe(sub)).Some?
  {
    StaysInv(EMPTY, states, steps, i);
    var s := states[i];
    forall k | k in s.active && s.active[k] != s.registered
      ensures exists sub :: Next(s, Send(k, sub)).Some?
    {
      var sub :| sub in s.registered && sub !in s.active[k];
      assert Next(s, Send(k, sub)).Some?;
    }
    if MayWrite(s) {
      var sub := FreshNumber(s.chans.Keys);
      assert Next(s, Subscribe(sub)).Some?;
    }
  }

  lemma {:induction false} FreshNumber(used: set<nat>) returns (n: nat)
    ensures forall m :: m in used ==> m < n
    decreases used
  {
    if used == {} {
      n := 0;
    } else {
      var m :| m in used;
      n := FreshNumber(used - {m});
      n := if m < n then n else m + 1;
      assert forall k :: k in used ==> k == m || k in used - {m};
    }
  }

  /** What a subscriber can rely on: no publication twice; none that had returned before another
      began arrives after it; and while it stays subscribed, each one that returned since it
      joined is in its stream or was dropped at a full buffer. */
  lemma SubscriberStream(states: seq<State>, steps: seq<Step>, i: nat, sub: nat)
    requires IsRun(states, steps) && i < |states| && sub in states[i].chans
    ensures var s := states[i];
            var c := s.chans[sub];
            && Distinct(c.stream) && NeverInverts(c.stream, s.before)
            && (forall k :: k in c.stream ==> k < |s.before|)
            && (sub in s.registered ==> forall k :: c.joined <= k && k in s.ended ==> k in c.stream || k in c.dropped)
  {
    StaysInv(EMPTY, states, steps, i);
    assert ChanInv(states[i], sub);
  }

  /** A drop happens only at a full buffer. */
  lemma DropMeansFull(s: State, k: nat, sub: nat)
    requires Inv(s) && Next(s, Send(k, sub)).Some?
    ensures var c, c' := s.chans[sub], Next(s, Send(k, sub)).value.chans[sub];
            if |c.stream| - c.taken == CAPACITY then c'.dropped == c.dropped + {k} && c'.stream == c.stream
            else c'.stream == c.stream + [k] && c'.dropped == c.dropped
  {
    assert ChanInv(s, sub);
  }

  // ---- When two publications can arrive in opposite orders ---------------------------------

  /** a came before b in this stream. */
  ghost predicate Precedes(stream: seq<nat>, a: nat, b: nat) {
    exists i, j :: 0 <= i < j < |stream| && stream[i] == a && stream[j] == b
  }

  ghost predicate Opposite(s: State, a: nat, b: nat, x: nat, y: nat) {
    x in s.chans && y in s.chans && Precedes(s.chans[x].stream, a, b) && Precedes(s.chans[y].stream, b, a)
  }

  /** Two streams that disagree about two publications: neither had returned when the other began. */
  lemma OppositeOverlaps(s: State, a: nat, b: nat, x: nat, y: nat)
    requires Inv(s) && Opposite(s, a, b, x, y)
    ensures a < |s.before| && b < |s.before| && a !in s.before[b] && b !in s.before[a]
  {
    assert ChanInv(s, x) && ChanInv(s, y);
    var i, j :| 0 <= i < j < |s.chans[x].stream| && s.chans[x].stream[i] == a && s.chans[x].stream[j] == b;
    var m, n :| 0 <= m < n < |s.chans[y].stream| && s.chans[y].stream[m] == b && s.chans[y].stream[n] == a;
    assert a in s.chans[x].stream && b in s.chans[x].stream;
  }

  /** Room for two more, from a publication that has not been here. */
  predicate Awaits(s: State, sub: nat, a: nat, b: nat) {
    && sub in s.registered && sub in s.chans && |s.chans[sub].stream| - s.chans[sub].taken <= CAPACITY - 2
    && (a in s.active ==> sub !in s.active[a]) && (b in s.active ==> sub !in s.active[b])
  }

  /** s with sub's stream longer by k, which has now been there. */
  function Arrived(s: State, k: nat, sub: nat): State
    requires k in s.active && sub in s.chans
  {
    s.(active := s.active[k := s.active[k] + {sub}],
       chans := s.chans[sub := s.chans[sub].(stream := s.chans[sub].stream + [k])])
  }

  lemma SendArrives(s: State, k: nat, sub: nat)
    requires Inv(s) && k in s.active && sub in s.registered && sub !in s.active[k]
    requires sub in s.chans && |s.chans[sub].stream| - s.chans[sub].taken < CAPACITY
    ensures Next(s, Send(k, sub)) == Some(Arrived(s, k, sub)) && Inv(Arrived(s, k, sub))
  {
    assert ChanInv(s, sub);
    SendKeeps(s, k, sub);
  }

  /** Two sends to one subscriber. */
  lemma SendBoth(s: State, k: nat, l: nat, sub: nat) returns (s1: State, s2: State)
    requires Inv(s) && k != l && k in s.active && l in s.active && Awaits(s, sub, k, l)
    ensures s1 == Arrived(s, k, sub) && s2 == Arrived(s1, l, sub) && Inv(s2)
    ensures Next(s, Send(k, sub)) == Some(s1) && Next(s1, Send(l, sub)) == Some(s2)
    ensures s2.registered == s.registered && sub in s2.chans && Precedes(s2.chans[sub].stream, k, l)
    ensures forall z :: z != sub && Awaits(s, z, k, l) ==> Awaits(s2, z, k, l)
    ensures forall z :: z != sub && z in s.chans ==> z in s2.chans && s2.chans[z] == s.chans[z]
  {
    SendArrives(s, k, sub);
    s1 := Arrived(s, k, sub);
    SendArrives(s1, l, sub);
    s2 := Arrived(s1, l, sub);
    LastTwo(s.chans[sub].stream, k, l);
  }

  lemma LastTwo(stream: seq<nat>, a: nat, b: nat)
    ensures Precedes(stream + [a] + [b], a, b)
  {
    var t := stream + [a] + [b];
    assert t[|stream|] == a && t[|stream| + 1] == b;
  }

  lemma TwoSteps(s: State, t: Step, s1: State, t1: Step, s2: State) returns (states: seq<State>, steps: seq<Step>)
    requires Next(s, t) == Some(s1) && Next(s1, t1) == Some(s2)
    ensures Continues(s, states, steps) && states[|states| - 1] == s2
  {
    states, steps := [s, s1, s2], [t, t1];
  }

  lemma Chain(s: State, states: seq<State>, steps: seq<Step>, states': seq<State>, steps': seq<Step>)
    requires Continues(s, states, steps) && Continues(states[|states| - 1], states', steps')
    ensures Continues(s, states + states'[1..], steps + steps')
    ensures (states + states'[1..])[|states| + |states'| - 2] == states'[|states'| - 1]
  {
    var all, ts := states + states'[1..], steps + steps';
    var n := |steps|;
    assert forall i :: n <= i < |all| ==> all[i] == states'[i - n];
    forall i | 0 <= i < |ts|
      ensures Next(all[i], ts[i]) == Some(all[i + 1])
    {
      assert i >= n ==> Next(states'[i - n], steps'[i - n]) == Some(states'[i - n + 1]);
    }
  }

  /** Four sends bring two publications under way to two subscribers in opposite orders. */
  lemma InvertByHand(s: State, a: nat, b: nat, x: nat, y: nat) returns (states: seq<State>, steps: seq<Step>)
    requires Inv(s) && a != b && a in s.active && b in s.active && x != y && Awaits(s, x, a, b) && Awaits(s, y, a, b)
    ensures Continues(s, states, steps) && Opposite(states[|states| - 1], a, b, x, y)
  {
    var s1, s2 := SendBoth(s, a, b, x);
    assert Awaits(s2, y, a, b);
    var s3, s4 := SendBoth(s2, b, a, y);
    var first, sends := TwoSteps(s, Send(a, x), s1, Send(b, x), s2);
    var second, sends' := TwoSteps(s2, Send(b, y), s3, Send(a, y), s4);
    Chain(s, first, sends, second, sends');
    states, steps := first + second[1..], sends + sends';
  }

  lemma {:induction false} BeforeStands(s: State, states: seq<State>, steps: seq<Step>, i: nat)
    requires Continues(s, states, steps) && i < |states|
    ensures s.before <= states[i].before
  {
    if i > 0 {
      BeforeStands(s, states, steps, i - 1);
      assert Next(states[i - 1], steps[i - 1]) == Some(states[i]);
    }
  }

  /** Publication b has just begun; a began earlier. Two subscribers that neither has reached can
      still get the two in opposite orders exactly when a had not returned before b began: there
      is no order all subscribers agree on, but sequential publications keep theirs. */
  lemma InvertibleExactly(s: State, a: nat, b: nat, x: nat, y: nat)
    requires Inv(s) && a < b == |s.before| - 1 && b in s.active && s.before[b] == s.ended
    requires x != y && Awaits(s, x, a, b) && Awaits(s, y, a, b)
    ensures (exists states, steps :: Continues(s, states, steps) && Opposite(states[|states| - 1], a, b, x, y))
        <==> a !in s.before[b]
  {
    if a !in s.before[b] {
      var states, steps := InvertByHand(s, a, b, x, y);
    }
    forall states, steps | Continues(s, states, steps) && Opposite(states[|states| - 1], a, b, x, y)
      ensures a !in s.before[b]
    {
      StaysInv(s, states, steps, |states| - 1);
      OppositeOverlaps(states[|states| - 1], a, b, x, y);
      BeforeStands(s, states, steps, |states| - 1);
    }
  }

  lemma Extend(states: seq<State>, steps: seq<Step>, st: Step) returns (states': seq<State>, steps': seq<Step>)
    requires Continues(EMPTY, states, steps) && Next(states[|steps|], st).Some?
    ensures Continues(EMPTY, states', steps') && |steps'| == |steps| + 1
    ensures Some(states'[|steps'|]) == Next(states[|steps|], st)
  {
    states', steps' := states + [Next(states[|steps|], st).value], steps + [st];
  }

  /** Two subscribers, and two publications under way that have reached neither. */
  lemma TwoUnderWay() returns (states: seq<State>, steps: seq<Step>)
    ensures Continues(EMPTY, states, steps)
    ensures var c := Chan([], 0, {}, true, 0);
            states[|steps|] == State(map[0 := c, 1 := c], {0, 1}, 0, map[0 := {}, 1 := {}], [{}, {}], {}, false)
  {
    states, steps := [EMPTY], [];
    states, steps := Extend(states, steps, AskWrite);
    states, steps := Extend(states, steps, Subscribe(0));
    states, steps := Extend(states, steps, AskWrite);
    states, steps := Extend(states, steps, Subscribe(1));
    states, steps := Extend(states, steps, Begin);
    states, steps := Extend(states, steps, Begin);
  }

  /** A run from the start in which the two subscribers get them in opposite orders. */
  lemma InversionHappens() returns (states: seq<State>, steps: seq<Step>)
    ensures IsRun(states, steps) && Opposite(states[|states| - 1], 0, 1, 0, 1)
  {
    states, steps := TwoUnderWay();
    StaysInv(EMPTY, states, steps, |states| - 1);
    var more, sends := InvertByHand(states[|states| - 1], 0, 1, 0, 1);
    Chain(EMPTY, states, steps, more, sends);
    states, steps := states + more[1..], steps + sends;
  }
}
