/** The probe limiter: a token bucket with refunds, and a fixed number of in-flight slots. */
module ProbeLimiter {
  import opened Common

  const BURST: real := 8.0
  const INTERVAL: real := 3.0   // seconds for one token
  const MAX_SLOTS: nat := 4

  function Capped(tokens: real): real {
    if tokens > BURST then BURST else tokens
  }

  /** What a take at this moment finds in the bucket. */
  function Level(tokens: real, last: real, now: real): real {
    Capped(tokens + (now - last) / INTERVAL)
  }

  function SlotsFor(inFlight: int): nat {
    if inFlight < 1 then 1 else if inFlight > MAX_SLOTS then MAX_SLOTS else inFlight
  }

  class Limiter {
    const capacity: nat
    var slots: nat
    var tokens: real
    var last: real

    constructor (inFlight: int, now: real)
      ensures 1 <= capacity <= 4 && (1 <= inFlight <= 4 ==> capacity == inFlight)
      ensures capacity == SlotsFor(inFlight) && slots == 0 && tokens == BURST && last == now
    {
      var n := inFlight;
      if n < 1 {
        n := 1;
      }
      if n > MAX_SLOTS {
        n := MAX_SLOTS;
      }
      capacity, slots, tokens, last := n, 0, BURST, now;
    }

    method Take(now: real) returns (ok: bool)
      modifies this`tokens, this`last
      ensures ok <==> old(Level(tokens, last, now)) >= 1.0
      ensures last == now && tokens == old(Level(tokens, last, now)) - if ok then 1.0 else 0.0
    {
      tokens := tokens + (now - last) / INTERVAL;
      if tokens > BURST {
        tokens := BURST;
      }
      last := now;
      if tokens < 1.0 {
        return false;
      }
      tokens := tokens - 1.0;
      return true;
    }

    method Refund()
      modifies this`tokens
      ensures tokens == if old(tokens) < BURST then old(tokens) + 1.0 else old(tokens)
    {
      if tokens < BURST {
        tokens := tokens + 1.0;
      }
    }

    /** With nobody else about, a request refused for want of a slot costs no token. */
    method Acquire(now: real) returns (ok: bool)
      modifies this
      ensures ok <==> old(Level(tokens, last, now)) >= 1.0 && old(slots) < capacity
      ensures slots == old(slots) + if ok then 1 else 0
      ensures last == now && tokens == old(Level(tokens, last, now)) - if ok then 1.0 else 0.0
    {
      var took := Take(now);
      if !took {
        return false;
      }
      if slots < capacity {
        slots := slots + 1;
        return true;
      }
      Refund();
      return false;
    }

    method Release()
      requires slots > 0
      modifies this`slots
      ensures slots == old(slots) - 1
    {
      slots := slots - 1;
    }
  }

  // ---- Requests interleaved ----------------------------------------------------------------

  /** deciding: took a token, no slot asked for yet; refunding: found every slot taken;
      admitted: how many acquires have succeeded since the start. */
  datatype State = State(
    now: real,
    tokens: real,
    last: real,
    capacity: nat,
    deciding: nat,
    refunding: nat,
    holders: nat,
    admitted: nat)

  datatype Step = Tick(passed: real) | Take | Slot | Refund | Release

  function Start(inFlight: int, now: real): State {
    State(now, BURST, now, SlotsFor(inFlight), 0, 0, 0, 0)
  }

  function LevelOf(s: State): real {
    Level(s.tokens, s.last, s.now)
  }

  function Next(s: State, st: Step): Option<State> {
    match st
    case Tick(d) => if d < 0.0 then None else Some(s.(now := s.now + d))
    case Take =>
      var found := LevelOf(s);
      if found < 1.0 then Some(s.(tokens := found, last := s.now))
      else Some(s.(tokens := found - 1.0, last := s.now, deciding := s.deciding + 1))
    case Slot =>
      if s.deciding == 0 then None
      else if s.holders < s.capacity
          then Some(s.(deciding := s.deciding - 1, holders := s.holders + 1, admitted := s.admitted + 1))
      else Some(s.(deciding := s.deciding - 1, refunding := s.refunding + 1))
    case Refund =>
      if s.refunding == 0 then None
      else Some(s.(refunding := s.refunding - 1, tokens := if s.tokens < BURST then s.tokens + 1.0 else s.tokens))
    case Release =>
      if s.holders == 0 then None else Some(s.(holders := s.holders - 1))
  }

  ghost predicate IsRun(inFlight: int, states: seq<State>, steps: seq<Step>) {
    && |states| == |steps| + 1 && states[0] == Start(inFlight, states[0].now)
    && forall i {:trigger steps[i]} :: 0 <= i < |steps| ==> Next(states[i], steps[i]) == Some(states[i + 1])
  }

  predicate Inv(inFlight: int, s: State) {
    && s.last <= s.now && 0.0 <= s.tokens < BURST + 1.0
    && s.holders <= s.capacity == SlotsFor(inFlight)
  }

  /** Acquires that have a token and have neither been admitted nor paid it back. */
  function InProgress(s: State): nat {
    s.deciding + s.refunding
  }

  lemma {:induction false} RunKeepsInv(inFlight: int, states: seq<State>, steps: seq<Step>, i: nat)
    requires IsRun(inFlight, states, steps) && i < |states|
    ensures Inv(inFlight, states[i])
  {
    if i > 0 {
      RunKeepsInv(inFlight, states, steps, i - 1);
      assert Next(states[i - 1], steps[i - 1]) == Some(states[i]);
    }
  }

  /** Every token is in the bucket, on its way back, or spent on an admission; steps only lose
      tokens, and only time adds them. */
  function Potential(s: State): real {
    s.admitted as real + InProgress(s) as real + LevelOf(s) - s.now / INTERVAL
  }

  lemma PotentialFalls(inFlight: int, s: State, st: Step)
    requires Inv(inFlight, s) && Next(s, st).Some?
    ensures Potential(Next(s, st).value) <= Potential(s)
  {}

  lemma {:induction false} PotentialNeverRises(inFlight: int, states: seq<State>, steps: seq<Step>, i: nat, j: nat)
    requires IsRun(inFlight, states, steps) && i <= j < |states|
    ensures Potential(states[j]) <= Potential(states[i])
    decreases j
  {
    if i < j {
      PotentialNeverRises(inFlight, states, steps, i, j - 1);
      RunKeepsInv(inFlight, states, steps, j - 1);
      assert Next(states[j - 1], steps[j - 1]) == Some(states[j]);
      PotentialFalls(inFlight, states[j - 1], steps[j - 1]);
    }
  }

  lemma PotentialBounds(inFlight: int, s: State)
    requires Inv(inFlight, s)
    ensures s.admitted as real <= Potential(s) + s.now / INTERVAL
         <= s.admitted as real + BURST + InProgress(s) as real
  {}

  /** Over any stretch of any run, the admissions number at most 8 + m + t/3, where m acquires
      were in progress as it began. */
  lemma AdmissionsBounded(inFlight: int, states: seq<State>, steps: seq<Step>, i: nat, j: nat)
    requires IsRun(inFlight, states, steps) && i <= j < |states|
    ensures (states[j].admitted - states[i].admitted) as real
         <= 8.0 + InProgress(states[i]) as real + (states[j].now - states[i].now) / INTERVAL
  {
    PotentialNeverRises(inFlight, states, steps, i, j);
    RunKeepsInv(inFlight, states, steps, i);
    RunKeepsInv(inFlight, states, steps, j);
    PotentialBounds(inFlight, states[i]);
    PotentialBounds(inFlight, states[j]);
  }

  /** Never more requests in flight than max(n, 1), nor than four. */
  lemma HoldersBounded(inFlight: int, states: seq<State>, steps: seq<Step>, i: nat)
    requires IsRun(inFlight, states, steps) && i < |states|
    ensures states[i].holders <= Min(if inFlight < 1 then 1 else inFlight, 4)
  {
    RunKeepsInv(inFlight, states, steps, i);
  }

  /** No shorter than necessary: from the moment full on, admissions and acquires still in
      progress account for everything missing from the bucket. */
  ghost predicate Accounted(states: seq<State>, full: nat, i: nat)
    requires full <= i < |states|
  {
    LevelOf(states[i]) + InProgress(states[i]) as real + (states[i].admitted - states[full].admitted) as real
      >= BURST + (states[i].now - states[full].now) / INTERVAL
  }

  lemma {:induction false} LastFull(inFlight: int, states: seq<State>, steps: seq<Step>, i: nat) returns (full: nat)
    requires IsRun(inFlight, states, steps) && i < |states|
    ensures full <= i && Accounted(states, full, i)
  {
    if i == 0 {
      full := 0;
    } else {
      full := LastFull(inFlight, states, steps, i - 1);
      RunKeepsInv(inFlight, states, steps, i - 1);
      var s := states[i - 1];
      assert Next(s, steps[i - 1]) == Some(states[i]);
      if LevelOf(states[i]) == BURST {
        full := i;
      }
    }
  }

  /** A take is refused only if, since some earlier moment, admissions and the acquires still in
      progress exceed 7 + t/3: the bound above is met but for one token. */
  lemma RefusedOnlyWhenBusy(inFlight: int, states: seq<State>, steps: seq<Step>, i: nat) returns (from: nat)
    requires IsRun(inFlight, states, steps) && i < |steps|
    requires steps[i] == Take && states[i + 1].deciding == states[i].deciding
    ensures from <= i
    ensures InProgress(states[i]) as real + (states[i].admitted - states[from].admitted) as real
          > BURST - 1.0 + (states[i].now - states[from].now) / INTERVAL
  {
    assert Next(states[i], steps[i]) == Some(states[i + 1]);
    from := LastFull(inFlight, states, steps, i);
  }

  /** A take decides on at most 8 tokens, and leaves at most 7. */
  lemma TakeSeesAtMostBurst(inFlight: int, states: seq<State>, steps: seq<Step>, i: nat)
    requires IsRun(inFlight, states, steps) && i < |steps| && steps[i] == Take
    ensures 0.0 <= LevelOf(states[i]) <= 8.0
    ensures states[i + 1].tokens <= 7.0
    ensures (states[i + 1].deciding == states[i].deciding + 1 <==> LevelOf(states[i]) >= 1.0)
  {
    RunKeepsInv(inFlight, states, steps, i);
    assert Next(states[i], steps[i]) == Some(states[i + 1]);
  }

  /** The counter itself can pass 8, exactly by a refund to more than 7 tokens and fewer than 8. */
  lemma PassesBurstExactlyWhen(inFlight: int, states: seq<State>, steps: seq<Step>, i: nat)
    requires IsRun(inFlight, states, steps) && i < |steps| && states[i].tokens <= BURST
    ensures states[i + 1].tokens > BURST <==> steps[i] == Refund && BURST - 1.0 < states[i].tokens < BURST
  {
    RunKeepsInv(inFlight, states, steps, i);
    assert Next(states[i], steps[i]) == Some(states[i + 1]);
  }

  /** It does not while acquires never overlap: the one in progress left at most 7 tokens. */
  lemma {:induction false} AloneStaysWithinBurst(inFlight: int, states: seq<State>, steps: seq<Step>, i: nat)
    requires IsRun(inFlight, states, steps) && i < |states|
    requires forall k :: 0 <= k <= i ==> InProgress(states[k]) <= 1
    ensures states[i].tokens <= BURST && (InProgress(states[i]) == 1 ==> states[i].tokens <= BURST - 1.0)
  {
    if i > 0 {
      AloneStaysWithinBurst(inFlight, states, steps, i - 1);
      RunKeepsInv(inFlight, states, steps, i - 1);
      assert Next(states[i - 1], steps[i - 1]) == Some(states[i]);
    }
  }

  /** Two that overlap are enough: their refunds land after the bucket has refilled. */
  lemma RefundsPassBurst() returns (states: seq<State>, steps: seq<Step>)
    ensures IsRun(1, states, steps)
    ensures forall k :: 0 <= k < |states| ==> InProgress(states[k]) <= 2
    ensures states[|states| - 1].tokens == 8.75
  {
    steps := [Take, Slot, Take, Slot, Tick(5.25), Take, Slot, Refund, Refund];
    var s0 := Start(1, 0.0);
    var s1 := s0.(tokens := 7.0, deciding := 1);
    var s2 := s1.(deciding := 0, holders := 1, admitted := 1);
    var s3 := s2.(tokens := 6.0, deciding := 1);
    var s4 := s3.(deciding := 0, refunding := 1);
    var s5 := s4.(now := 5.25);
    var s6 := s5.(tokens := 6.75, last := 5.25, deciding := 1);
    var s7 := s6.(deciding := 0, refunding := 2);
    var s8 := s7.(tokens := 7.75, refunding := 1);
    var s9 := s8.(tokens := 8.75, refunding := 0);
    states := [s0, s1, s2, s3, s4, s5, s6, s7, s8, s9];
  }
}
