/** Failed-login counters: fixed windows, and what they imply for sliding ones. */
module FailureWindows {
  import opened Common

  type Address = string

  // nanoseconds
  const SECOND: int := 1_000_000_000
  const FAIL_WINDOW: int := 15 * 60 * SECOND
  const GLOBAL_WINDOW: int := 5 * 60 * SECOND
  const MAX_FAILURES: nat := 5
  const GLOBAL_MAX: nat := 100
  const MAX_ENTRIES: nat := 4096

  datatype Counter = Counter(count: nat, first: int)

  const ZERO := Counter(0, 0)

  type Failures = map<Address, Counter>

  datatype Limits = Limits(failures: Failures, global: Counter)

  predicate Over(c: Counter, window: int, now: int) {
    now - c.first > window
  }

  function Prune(failures: Failures, now: int): Failures {
    map ip | ip in failures && !Over(failures[ip], FAIL_WINDOW, now) :: failures[ip]
  }

  // ---- rateLimited -------------------------------------------------------------------------

  function CheckedGlobal(g: Counter, now: int): Counter {
    if g.count > 0 && Over(g, GLOBAL_WINDOW, now) then ZERO else g
  }

  /** The household's verdict comes first and leaves the address alone. */
  function Checked(l: Limits, ip: Address, now: int): Limits {
    var g := CheckedGlobal(l.global, now);
    var over := g.count < GLOBAL_MAX && ip in l.failures && Over(l.failures[ip], FAIL_WINDOW, now);
    Limits(if over then l.failures - {ip} else l.failures, g)
  }

  predicate Limited(l: Limits, ip: Address, now: int) {
    || CheckedGlobal(l.global, now).count >= GLOBAL_MAX
    || (ip in l.failures && !Over(l.failures[ip], FAIL_WINDOW, now) && l.failures[ip].count >= MAX_FAILURES)
  }

  // ---- recordFailure -----------------------------------------------------------------------

  /** A counter at zero, or whose window is over, starts afresh. */
  function Bump(c: Counter, window: int, now: int): Counter {
    if c.count == 0 || Over(c, window, now) then Counter(1, now) else Counter(c.count + 1, c.first)
  }

  function Room(failures: Failures, now: int): Failures {
    if |failures| >= MAX_ENTRIES then Prune(failures, now) else failures
  }

  function RecordAddress(failures: Failures, ip: Address, now: int): Failures {
    if ip in failures then
      failures[ip := if Over(failures[ip], FAIL_WINDOW, now) then Counter(1, now)
                     else Counter(failures[ip].count + 1, failures[ip].first)]
    else if |Room(failures, now)| >= MAX_ENTRIES then Room(failures, now)
    else Room(failures, now)[ip := Counter(1, now)]
  }

  function Record(l: Limits, ip: Address, now: int): Limits {
    Limits(RecordAddress(l.failures, ip, now), Bump(l.global, GLOBAL_WINDOW, now))
  }

  /** A successful login forgives its address and the household. */
  function Forgive(l: Limits, ip: Address): Limits {
    Limits(l.failures - {ip}, ZERO)
  }

  // ---- One counter and the failures it has counted -----------------------------------------

  /** Failures counted since the last successful login, oldest first, and where the newest two
      windows begin. */
  datatype Track = Track(times: seq<int>, prev: nat, cur: nat)

  const NO_FAILURES := Track([], 0, 0)

  /** Counting opens a window when the last one is over, and extends it otherwise. */
  function Counted(c: Counter, k: Track, window: int, now: int): Track {
    if c.count > 0 && !Over(c, window, now) then k.(times := k.times + [now])
    else Track(k.times + [now], k.cur, |k.times|)
  }

  ghost predicate Ascending(times: seq<int>, now: int) {
    forall i, j :: 0 <= i <= j < |times| ==> times[i] <= times[j] <= now
  }

  /** No stretch as short as the window holds more than n failures. */
  ghost predicate Sparse(times: seq<int>, window: int, n: nat) {
    forall i, j :: 0 <= i <= j < |times| && times[j] - times[i] <= window ==> j - i + 1 <= n
  }

  predicate Windows(k: Track, window: int, bound: nat) {
    if k.times == [] then k.prev == k.cur == 0
    else
      && k.prev <= k.cur < |k.times|
      && k.cur - k.prev <= bound && |k.times| - k.cur <= bound
      && (k.cur > 0 ==> k.times[k.prev] + window < k.times[k.cur])
  }

  /** A live counter holds the size and start of the newest window; zero means that one is over. */
  predicate Matches(c: Counter, k: Track, window: int, now: int) {
    if c.count == 0 then k.times == [] || (k.cur < |k.times| && k.times[k.cur] + window < now)
    else k.cur < |k.times| && c == Counter(|k.times| - k.cur, k.times[k.cur])
  }

  /** waiting: logins past the check that may still be counted here. */
  ghost predicate Good(c: Counter, k: Track, waiting: nat, window: int, bound: nat, now: int) {
    && Ascending(k.times, now) && Sparse(k.times, window, 2 * bound)
    && Windows(k, window, bound) && Matches(c, k, window, now)
    && c.count + waiting <= bound
  }

  lemma CountedSparse(c: Counter, k: Track, waiting: nat, window: int, bound: nat, now: int)
    requires Good(c, k, waiting, window, bound, now) && 0 < waiting && 0 <= window
    ensures Sparse(Counted(c, k, window, now).times, window, 2 * bound)
  {
    var k' := Counted(c, k, window, now);
    forall i, j | 0 <= i <= j < |k'.times| && k'.times[j] - k'.times[i] <= window
      ensures j - i + 1 <= 2 * bound
    {
      if j < |k.times| {
        assert k'.times[i] == k.times[i] && k'.times[j] == k.times[j];
      }
    }
  }

  /** One more failure counted: nowhere do more than two windows' worth come together. */
  lemma CountedKeeps(c: Counter, k: Track, waiting: nat, window: int, bound: nat, now: int)
    requires Good(c, k, waiting, window, bound, now) && 0 < waiting && 0 <= window
    ensures Good(Bump(c, window, now), Counted(c, k, window, now), waiting - 1, window, bound, now)
  {
    CountedSparse(c, k, waiting, window, bound, now);
  }

  lemma LaterKeeps(c: Counter, k: Track, waiting: nat, window: int, bound: nat, now: int, later: int)
    requires Good(c, k, waiting, window, bound, now) && now <= later
    ensures Good(c, k, waiting, window, bound, later)
  {}

  /** Dropping a counter whose window is over loses nothing. */
  lemma OverKeeps(c: Counter, k: Track, waiting: nat, window: int, bound: nat, now: int)
    requires Good(c, k, waiting, window, bound, now) && Over(c, window, now)
    ensures Good(ZERO, k, waiting, window, bound, now)
  {}

  // ---- Concurrent logins -------------------------------------------------------------------

  /** checked: the addresses of logins past rateLimited and not yet settled. */
  datatype State = State(
    now: int,
    limits: Limits,
    checked: multiset<Address>,
    global: Track,
    tracks: map<Address, Track>)

  datatype Step =
    | Tick(passed: nat)
    | Attempt(ip: Address)
    | Refused(ip: Address)
    | Fail(ip: Address)
    | Succeed(ip: Address)
    | Shed(ip: Address)                // gave up waiting, or the verification itself failed
    | Reap(at: int)

  const START := State(0, Limits(map[], ZERO), multiset{}, NO_FAILURES, map[])

  function TrackOf(tracks: map<Address, Track>, ip: Address): Track {
    if ip in tracks then tracks[ip] else NO_FAILURES
  }

  function CounterOf(failures: Failures, ip: Address): Counter {
    if ip in failures then failures[ip] else ZERO
  }

  /** An address the full map has no room for is not counted. */
  function TrackFailure(s: State, ip: Address): map<Address, Track> {
    if ip in RecordAddress(s.limits.failures, ip, s.now) then
      s.tracks[ip := Counted(CounterOf(s.limits.failures, ip), TrackOf(s.tracks, ip), FAIL_WINDOW, s.now)]
    else s.tracks
  }

  /** k bounds the logins between check and record. */
  function Next(k: nat, s: State, st: Step): Option<State> {
    match st
    case Tick(d) => Some(s.(now := s.now + d))
    case Attempt(ip) =>
      if |s.checked| >= k || Limited(s.limits, ip, s.now) then None
      else Some(s.(limits := Checked(s.limits, ip, s.now), checked := s.checked + multiset{ip}))
    case Refused(ip) =>
      if Limited(s.limits, ip, s.now) then Some(s.(limits := Checked(s.limits, ip, s.now))) else None
    case Fail(ip) =>
      if ip !in s.checked then None
      else Some(State(s.now, Record(s.limits, ip, s.now), s.checked - multiset{ip},
                      Counted(s.limits.global, s.global, GLOBAL_WINDOW, s.now), TrackFailure(s, ip)))
    case Succeed(ip) =>
      if ip !in s.checked then None
      else Some(State(s.now, Forgive(s.limits, ip), s.checked - multiset{ip}, NO_FAILURES, s.tracks - {ip}))
    case Shed(ip) =>
      if ip !in s.checked then None else Some(s.(checked := s.checked - multiset{ip}))
    case Reap(at) =>
      // the ticker's time may be older than the clock
      if at > s.now then None
      else Some(s.(limits := s.limits.(failures := Prune(s.limits.failures, at))))
  }

  ghost predicate IsRun(k: nat, states: seq<State>, steps: seq<Step>) {
    && |states| == |steps| + 1 && states[0] == START
    && forall i {:trigger steps[i]} :: 0 <= i < |steps| ==> Next(k, states[i], steps[i]) == Some(states[i + 1])
  }

  function AddressBound(k: nat): nat {
    MAX_FAILURES - 1 + k
  }

  function GlobalBound(k: nat): nat {
    GLOBAL_MAX - 1 + k
  }

  ghost predicate AddressGood(k: nat, s: State, ip: Address) {
    && Good(CounterOf(s.limits.failures, ip), TrackOf(s.tracks, ip), s.checked[ip], FAIL_WINDOW, AddressBound(k), s.now)
    && (ip in s.limits.failures ==> s.limits.failures[ip].count > 0)
    && s.checked[ip] <= k
  }

  ghost predicate GlobalGood(k: nat, s: State) {
    && Good(s.limits.global, s.global, |s.checked|, GLOBAL_WINDOW, GlobalBound(k), s.now)
    && |s.checked| <= k
  }

  ghost predicate Inv(k: nat, s: State) {
    && GlobalGood(k, s)
    && |s.limits.failures| <= MAX_ENTRIES
    && forall ip :: AddressGood(k, s, ip)
  }

  lemma OneOfMany(m: multiset<Address>, ip: Address)
    ensures m[ip] <= |m|
  {
    assert |m[ip := 0]| + m[ip] == |m|;
  }

  lemma {:induction false} SubsetSize<T>(a: set<T>, b: set<T>)
    requires a <= b
    ensures |a| <= |b|
    decreases a
  {
    if a != {} {
      var x :| x in a;
      SubsetSize(a - {x}, b - {x});
    }
  }

  lemma FewerFailures(a: Failures, b: Failures)
    requires a.Keys <= b.Keys
    ensures |a| <= |b|
  {
    SubsetSize(a.Keys, b.Keys);
  }

  lemma CheckedAddress(k: nat, s: State, ip: Address, x: Address)
    requires AddressGood(k, s, x)
    ensures AddressGood(k, s.(limits := Checked(s.limits, ip, s.now)), x)
  {
    var c := CounterOf(s.limits.failures, x);
    if Over(c, FAIL_WINDOW, s.now) {
      OverKeeps(c, TrackOf(s.tracks, x), s.checked[x], FAIL_WINDOW, AddressBound(k), s.now);
    }
  }

  lemma CheckedKeeps(k: nat, s: State, ip: Address)
    requires Inv(k, s)
    ensures Inv(k, s.(limits := Checked(s.limits, ip, s.now)))
  {
    var s' := s.(limits := Checked(s.limits, ip, s.now));
    FewerFailures(s'.limits.failures, s.limits.failures);
    if Over(s.limits.global, GLOBAL_WINDOW, s.now) {
      OverKeeps(s.limits.global, s.global, |s.checked|, GLOBAL_WINDOW, GlobalBound(k), s.now);
    }
    forall x
      ensures AddressGood(k, s', x)
    {
      CheckedAddress(k, s, ip, x);
    }
  }

  /** An admitted login adds one to what may still be counted. */
  lemma AdmitKeeps(k: nat, s: State, ip: Address)
    requires Inv(k, s) && |s.checked| < k
    requires s.limits.global.count < GLOBAL_MAX && CounterOf(s.limits.failures, ip).count < MAX_FAILURES
    ensures Inv(k, s.(checked := s.checked + multiset{ip}))
  {
    var s' := s.(checked := s.checked + multiset{ip});
    forall x
      ensures AddressGood(k, s', x)
    {
      assert AddressGood(k, s, x);
      OneOfMany(s'.checked, x);
    }
  }

  lemma AttemptKeeps(k: nat, s: State, ip: Address)
    requires Inv(k, s) && Next(k, s, Attempt(ip)).Some?
    ensures Inv(k, Next(k, s, Attempt(ip)).value)
  {
    CheckedKeeps(k, s, ip);
    AdmitKeeps(k, s.(limits := Checked(s.limits, ip, s.now)), ip);
  }

  lemma SettledAddress(k: nat, s: State, ip: Address, x: Address)
    requires AddressGood(k, s, x) && ip in s.checked
    ensures AddressGood(k, s.(checked := s.checked - multiset{ip}), x)
  {}

  lemma ShedKeeps(k: nat, s: State, ip: Address)
    requires Inv(k, s) && ip in s.checked
    ensures Inv(k, s.(checked := s.checked - multiset{ip}))
  {
    forall x
      ensures AddressGood(k, s.(checked := s.checked - multiset{ip}), x)
    {
      SettledAddress(k, s, ip, x);
    }
  }

  lemma PrunedAddress(k: nat, s: State, at: int, x: Address)
    requires AddressGood(k, s, x) && at <= s.now
    ensures AddressGood(k, s.(limits := s.limits.(failures := Prune(s.limits.failures, at))), x)
  {
    var c := CounterOf(s.limits.failures, x);
    if Over(c, FAIL_WINDOW, s.now) {
      OverKeeps(c, TrackOf(s.tracks, x), s.checked[x], FAIL_WINDOW, AddressBound(k), s.now);
    }
  }

  lemma PruneKeeps(k: nat, s: State, at: int)
    requires Inv(k, s) && at <= s.now
    ensures Inv(k, s.(limits := s.limits.(failures := Prune(s.limits.failures, at))))
  {
    var s' := s.(limits := s.limits.(failures := Prune(s.limits.failures, at)));
    FewerFailures(s'.limits.failures, s.limits.failures);
    forall x
      ensures AddressGood(k, s', x)
    {
      PrunedAddress(k, s, at, x);
    }
  }

  lemma RoomBound(failures: Failures, ip: Address, now: int)
    requires |failures| <= MAX_ENTRIES
    ensures |RecordAddress(failures, ip, now)| <= MAX_ENTRIES
  {
    FewerFailures(Room(failures, now), failures);
    if ip in failures {
      assert failures[ip := ZERO].Keys == failures.Keys;
      FewerFailures(RecordAddress(failures, ip, now), failures);
    }
  }

  lemma FailedAddress(k: nat, s: State, ip: Address)
    requires AddressGood(k, s, ip) && Next(k, s, Fail(ip)).Some?
    ensures AddressGood(k, Next(k, s, Fail(ip)).value, ip)
  {
    CountedKeeps(CounterOf(s.limits.failures, ip), TrackOf(s.tracks, ip), s.checked[ip], FAIL_WINDOW, AddressBound(k),
                 s.now);
  }

  lemma OtherAddress(k: nat, s: State, ip: Address, x: Address)
    requires AddressGood(k, s, x) && Next(k, s, Fail(ip)).Some? && x != ip
    ensures AddressGood(k, Next(k, s, Fail(ip)).value, x)
  {
    PrunedAddress(k, s, s.now, x);
  }

  lemma FailKeeps(k: nat, s: State, ip: Address)
    requires Inv(k, s) && Next(k, s, Fail(ip)).Some?
    ensures Inv(k, Next(k, s, Fail(ip)).value)
  {
    var s' := Next(k, s, Fail(ip)).value;
    CountedKeeps(s.limits.global, s.global, |s.checked|, GLOBAL_WINDOW, GlobalBound(k), s.now);
    RoomBound(s.limits.failures, ip, s.now);
    forall x
      ensures AddressGood(k, s', x)
    {
      if x == ip { FailedAddress(k, s, ip); } else { OtherAddress(k, s, ip, x); }
    }
  }

  lemma ForgivenAddress(k: nat, s: State, ip: Address, x: Address)
    requires AddressGood(k, s, x) && Next(k, s, Succeed(ip)).Some?
    ensures AddressGood(k, Next(k, s, Succeed(ip)).value, x)
  {}

  lemma SucceedKeeps(k: nat, s: State, ip: Address)
    requires Inv(k, s) && Next(k, s, Succeed(ip)).Some?
    ensures Inv(k, Next(k, s, Succeed(ip)).value)
  {
    var s' := Next(k, s, Succeed(ip)).value;
    FewerFailures(s'.limits.failures, s.limits.failures);
    forall x
      ensures AddressGood(k, s', x)
    {
      ForgivenAddress(k, s, ip, x);
    }
  }

  lemma TickKeeps(k: nat, s: State, d: nat)
    requires Inv(k, s)
    ensures Inv(k, s.(now := s.now + d))
  {
    var s' := s.(now := s.now + d);
    LaterKeeps(s.limits.global, s.global, |s.checked|, GLOBAL_WINDOW, GlobalBound(k), s.now, s'.now);
    forall x
      ensures AddressGood(k, s', x)
    {
      assert AddressGood(k, s, x);
      LaterKeeps(CounterOf(s.limits.failures, x), TrackOf(s.tracks, x), s.checked[x], FAIL_WINDOW, AddressBound(k),
                 s.now, s'.now);
    }
  }

  lemma StepKeeps(k: nat, s: State, st: Step)
    requires Inv(k, s) && Next(k, s, st).Some?
    ensures Inv(k, Next(k, s, st).value)
  {
    match st {
      case Tick(d) => TickKeeps(k, s, d);
      case Attempt(ip) => AttemptKeeps(k, s, ip);
      case Refused(ip) => CheckedKeeps(k, s, ip);
      case Fail(ip) => FailKeeps(k, s, ip);
      case Succeed(ip) => SucceedKeeps(k, s, ip);
      case Shed(ip) => ShedKeeps(k, s, ip);
      case Reap(at) => PruneKeeps(k, s, at);
    }
  }

  lemma {:induction false} RunKeepsInv(k: nat, states: seq<State>, steps: seq<Step>, i: nat)
    requires IsRun(k, states, steps) && i < |states|
    ensures Inv(k, states[i])
  {
    if i == 0 {
      assert forall ip :: AddressGood(k, START, ip);
    } else {
      RunKeepsInv(k, states, steps, i - 1);
      assert Next(k, states[i - 1], steps[i - 1]) == Some(states[i]);
      StepKeeps(k, states[i - 1], steps[i - 1]);
    }
  }

  /** At every moment of every run with at most k logins between check and record: no window
      counts more than 99 + k failures altogether or 4 + k from one address, and the map of
      addresses stays within its ceiling. */
  lemma WindowBounds(k: nat, states: seq<State>, steps: seq<Step>, i: nat, ip: Address)
    requires IsRun(k, states, steps) && i < |states|
    ensures states[i].limits.global.count <= 99 + k
    ensures ip in states[i].limits.failures ==> 1 <= states[i].limits.failures[ip].count <= 4 + k
    ensures |states[i].limits.failures| <= 4096
  {
    RunKeepsInv(k, states, steps, i);
    assert AddressGood(k, states[i], ip);
  }

  // ---- The failures of a run ---------------------------------------------------------------

  /** When failures were recorded, since the last successful login from anywhere. */
  ghost function FailTimes(states: seq<State>, steps: seq<Step>, i: nat): seq<int>
    requires |states| == |steps| + 1 && i < |states|
  {
    if i == 0 || steps[i - 1].Succeed? then []
    else FailTimes(states, steps, i - 1) + if steps[i - 1].Fail? then [states[i - 1].now] else []
  }

  /** When failures from ip were recorded, since its last successful login; one that finds no
      room in the map of addresses does not count. */
  ghost function FailTimesFrom(states: seq<State>, steps: seq<Step>, ip: Address, i: nat): seq<int>
    requires |states| == |steps| + 1 && i < |states|
  {
    if i == 0 || steps[i - 1] == Succeed(ip) then []
    else
      FailTimesFrom(states, steps, ip, i - 1) +
      if steps[i - 1] == Fail(ip) && ip in states[i].limits.failures then [states[i - 1].now] else []
  }

  lemma StepTimes(k: nat, s: State, st: Step, ip: Address)
    requires Next(k, s, st).Some?
    ensures var s' := Next(k, s, st).value;
            && s'.global.times == (if st.Succeed? then [] else s.global.times + if st.Fail? then [s.now] else [])
            && TrackOf(s'.tracks, ip).times ==
                 (if st == Succeed(ip) then []
                  else TrackOf(s.tracks, ip).times + if st == Fail(ip) && ip in s'.limits.failures then [s.now] else [])
  {}

  lemma {:induction false} TracksAreFailTimes(k: nat, states: seq<State>, steps: seq<Step>, ip: Address, i: nat)
    requires IsRun(k, states, steps) && i < |states|
    ensures states[i].global.times == FailTimes(states, steps, i)
    ensures TrackOf(states[i].tracks, ip).times == FailTimesFrom(states, steps, ip, i)
  {
    if i > 0 {
      TracksAreFailTimes(k, states, steps, ip, i - 1);
      var s, st := states[i - 1], steps[i - 1];
      assert Next(k, s, st) == Some(states[i]);
      StepTimes(k, s, st, ip);
    }
  }

  /** Since the last successful login, any five minutes hold at most twice a window's worth of
      failures; since the last one from an address, any fifteen minutes of its failures do too. */
  lemma SlidingBounds(k: nat, states: seq<State>, steps: seq<Step>, i: nat, ip: Address)
    requires IsRun(k, states, steps) && i < |states|
    ensures Sparse(FailTimes(states, steps, i), GLOBAL_WINDOW, 2 * (99 + k))
    ensures Sparse(FailTimesFrom(states, steps, ip, i), FAIL_WINDOW, 2 * (4 + k))
  {
    RunKeepsInv(k, states, steps, i);
    TracksAreFailTimes(k, states, steps, ip, i);
    assert AddressGood(k, states[i], ip);
  }

  // ---- Refused only when it should be ------------------------------------------------------

  /** At least n of the times lie within the window. */
  ghost predicate Recent(times: seq<int>, n: nat, window: int, now: int) {
    n <= |times| && forall j :: |times| - n <= j < |times| ==> now - window <= times[j] <= now
  }

  /** What a counter that is not over counts has happened within its window. */
  lemma LiveIsRecent(c: Counter, k: Track, waiting: nat, window: int, bound: nat, now: int, n: nat)
    requires Good(c, k, waiting, window, bound, now) && 0 < n <= c.count && !Over(c, window, now)
    ensures Recent(k.times, n, window, now)
  {
    var times := k.times;
    forall j | |times| - n <= j < |times|
      ensures now - window <= times[j] <= now
    {
      assert times[k.cur] <= times[j];
    }
  }

  /** A login is refused only after a hundred failures within five minutes since the last successful
      login, or after five from its own address within fifteen. */
  lemma RefusedOnlyWhen(k: nat, states: seq<State>, steps: seq<Step>, i: nat, ip: Address)
    requires IsRun(k, states, steps) && i < |states| && Next(k, states[i], Refused(ip)).Some?
    ensures || Recent(FailTimes(states, steps, i), 100, 5 * 60 * SECOND, states[i].now)
            || Recent(FailTimesFrom(states, steps, ip, i), 5, 15 * 60 * SECOND, states[i].now)
  {
    var s := states[i];
    RunKeepsInv(k, states, steps, i);
    TracksAreFailTimes(k, states, steps, ip, i);
    assert AddressGood(k, s, ip);
    if CheckedGlobal(s.limits.global, s.now).count >= GLOBAL_MAX {
      LiveIsRecent(s.limits.global, s.global, |s.checked|, GLOBAL_WINDOW, GlobalBound(k), s.now, 100);
    } else {
      LiveIsRecent(CounterOf(s.limits.failures, ip), TrackOf(s.tracks, ip), s.checked[ip], FAIL_WINDOW, AddressBound(k),
                   s.now, 5);
    }
  }

  /** Where the newest of the windows begins that failures at these times open one after the other. */
  ghost function WindowStart(times: seq<int>, window: int): (c: nat)
    ensures times != [] ==> c < |times|
  {
    if |times| <= 1 then 0
    else
      var last := |times| - 1;
      var c := WindowStart(times[..last], window);
      if times[last] - times[c] > window then last else c
  }

  /** The newest window is not over and holds n failures. */
  ghost predicate Full(times: seq<int>, n: nat, window: int, now: int) {
    times != [] && now - times[WindowStart(times, window)] <= window && |times| - WindowStart(times, window) >= n
  }

  ghost predicate InWindow(k: Track, window: int) {
    k.times != [] ==> k.cur == WindowStart(k.times, window)
  }

  lemma CountedInWindow(c: Counter, k: Track, window: int, now: int)
    requires Matches(c, k, window, now) && InWindow(k, window)
    ensures InWindow(Counted(c, k, window, now), window)
  {
    var times' := Counted(c, k, window, now).times;
    assert times'[..|k.times|] == k.times;
  }

  /** What a step does to a track. */
  lemma StepTracks(k: nat, s: State, st: Step, ip: Address)
    requires Next(k, s, st).Some?
    ensures Next(k, s, st).value.global in
              {s.global, NO_FAILURES, Counted(s.limits.global, s.global, GLOBAL_WINDOW, s.now)}
    ensures var from := TrackOf(s.tracks, ip);
            TrackOf(Next(k, s, st).value.tracks, ip) in
              {from, NO_FAILURES, Counted(CounterOf(s.limits.failures, ip), from, FAIL_WINDOW, s.now)}
  {}

  lemma StepInWindow(k: nat, s: State, st: Step, ip: Address)
    requires GlobalGood(k, s) && AddressGood(k, s, ip) && Next(k, s, st).Some?
    requires InWindow(s.global, GLOBAL_WINDOW) && InWindow(TrackOf(s.tracks, ip), FAIL_WINDOW)
    ensures InWindow(Next(k, s, st).value.global, GLOBAL_WINDOW)
    ensures InWindow(TrackOf(Next(k, s, st).value.tracks, ip), FAIL_WINDOW)
  {
    StepTracks(k, s, st, ip);
    CountedInWindow(s.limits.global, s.global, GLOBAL_WINDOW, s.now);
    CountedInWindow(CounterOf(s.limits.failures, ip), TrackOf(s.tracks, ip), FAIL_WINDOW, s.now);
  }

  lemma {:induction false} RunInWindow(k: nat, states: seq<State>, steps: seq<Step>, ip: Address, i: nat)
    requires IsRun(k, states, steps) && i < |states|
    ensures InWindow(states[i].global, GLOBAL_WINDOW) && InWindow(TrackOf(states[i].tracks, ip), FAIL_WINDOW)
  {
    if i > 0 {
      RunInWindow(k, states, steps, ip, i - 1);
      RunKeepsInv(k, states, steps, i - 1);
      assert Next(k, states[i - 1], steps[i - 1]) == Some(states[i]);
      assert AddressGood(k, states[i - 1], ip);
      StepInWindow(k, states[i - 1], steps[i - 1], ip);
    }
  }

  lemma FullExactly(c: Counter, k: Track, waiting: nat, window: int, bound: nat, now: int, n: nat)
    requires Good(c, k, waiting, window, bound, now) && InWindow(k, window) && 0 < n
    ensures Full(k.times, n, window, now) <==> c.count >= n && !Over(c, window, now)
  {}

  lemma GlobalFull(k: nat, states: seq<State>, steps: seq<Step>, i: nat)
    requires IsRun(k, states, steps) && i < |states|
    ensures var s := states[i];
            Full(FailTimes(states, steps, i), 100, 5 * 60 * SECOND, s.now) <==>
              s.limits.global.count >= 100 && !Over(s.limits.global, GLOBAL_WINDOW, s.now)
  {
    var s := states[i];
    RunKeepsInv(k, states, steps, i);
    RunInWindow(k, states, steps, "", i);
    TracksAreFailTimes(k, states, steps, "", i);
    FullExactly(s.limits.global, s.global, |s.checked|, GLOBAL_WINDOW, GlobalBound(k), s.now, 100);
  }

  lemma AddressFull(k: nat, states: seq<State>, steps: seq<Step>, i: nat, ip: Address)
    requires IsRun(k, states, steps) && i < |states|
    ensures var s := states[i];
            var c := CounterOf(s.limits.failures, ip);
            Full(FailTimesFrom(states, steps, ip, i), 5, 15 * 60 * SECOND, s.now) <==>
              c.count >= 5 && !Over(c, FAIL_WINDOW, s.now)
  {
    var s := states[i];
    RunKeepsInv(k, states, steps, i);
    RunInWindow(k, states, steps, ip, i);
    TracksAreFailTimes(k, states, steps, ip, i);
    assert AddressGood(k, s, ip);
    FullExactly(CounterOf(s.limits.failures, ip), TrackOf(s.tracks, ip), s.checked[ip], FAIL_WINDOW, AddressBound(k),
                s.now, 5);
  }

  lemma LimitedExactly(k: nat, s: State, ip: Address)
    ensures var c := CounterOf(s.limits.failures, ip);
            Limited(s.limits, ip, s.now) <==>
              || (s.limits.global.count >= 100 && !Over(s.limits.global, GLOBAL_WINDOW, s.now))
              || (c.count >= 5 && !Over(c, FAIL_WINDOW, s.now))
  {}

  /** A login is refused exactly when the newest five-minute window since the last successful login
      holds a hundred failures, or the newest fifteen-minute window of its address five. */
  lemma RefusedExactlyWhen(k: nat, states: seq<State>, steps: seq<Step>, i: nat, ip: Address)
    requires IsRun(k, states, steps) && i < |states|
    ensures var full := || Full(FailTimes(states, steps, i), 100, 5 * 60 * SECOND, states[i].now)
                        || Full(FailTimesFrom(states, steps, ip, i), 5, 15 * 60 * SECOND, states[i].now);
            && (Next(k, states[i], Refused(ip)).Some? <==> full)
            && (Next(k, states[i], Attempt(ip)).Some? <==> !full && |states[i].checked| < k)
  {
    GlobalFull(k, states, steps, i);
    AddressFull(k, states, steps, i, ip);
    LimitedExactly(k, states[i], ip);
  }

  // ---- Which failures are counted ----------------------------------------------------------

  lemma RoomLeft(failures: Failures, ip: Address, now: int)
    requires ip !in RecordAddress(failures, ip, now)
    ensures |Prune(failures, now)| >= 4096
  {}

  /** A failure goes uncounted for its address only if 4096 others have counters whose windows are
      not over. */
  lemma UncountedOnlyWhen(k: nat, s: State, ip: Address)
    requires Next(k, s, Fail(ip)).Some?
    ensures var live := set x | x in s.limits.failures && s.now - s.limits.failures[x].first <= 15 * 60 * SECOND;
            ip in Next(k, s, Fail(ip)).value.limits.failures || (|live| >= 4096 && ip !in live)
  {
    var failures := s.limits.failures;
    var live := set x | x in failures && s.now - failures[x].first <= 15 * 60 * SECOND;
    assert live == Prune(failures, s.now).Keys;
    if ip !in RecordAddress(failures, ip, s.now) {
      RoomLeft(failures, ip, s.now);
    }
  }
}
