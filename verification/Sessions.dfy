/** Login sessions: a map in memory, written through to the database, across restarts. */
module Sessions {
  import opened Common

  type Token = string

  const MILLI: int := 1_000_000   // nanoseconds

  /** UnixMilli: rounds down. */
  function Millis(t: int): int {
    t / MILLI
  }

  /** credentialFingerprint, taken to be injective and never empty. */
  function Fingerprint(hash: string): string {
    "#" + hash
  }

  lemma FingerprintInjective(a: string, b: string)
    requires Fingerprint(a) == Fingerprint(b)
    ensures a == b
  {
    assert a == Fingerprint(a)[1..] && b == Fingerprint(b)[1..];
  }

  // ---- The persistent side -----------------------------------------------------------------

  datatype Db = Db(sessions: map<Token, int>, credential: Option<string>)

  function Save(d: Db, token: Token, expiry: int): Db {
    d.(sessions := d.sessions[token := Millis(expiry)])
  }

  function Delete(d: Db, token: Token): Db {
    d.(sessions := d.sessions - {token})
  }

  function DeleteExpired(d: Db, now: int): Db {
    d.(sessions := map t | t in d.sessions && d.sessions[t] > Millis(now) :: d.sessions[t])
  }

  /** One transaction: a different or missing binding drops every session. */
  function Rebind(d: Db, fingerprint: string): Db {
    Db(if d.credential == Some(fingerprint) then d.sessions else map[], Some(fingerprint))
  }

  function Live(d: Db, now: int): map<Token, int> {
    map t | t in d.sessions && d.sessions[t] > Millis(now) :: d.sessions[t] * MILLI
  }

  // ---- The memory side ---------------------------------------------------------------------

  /** now.After(exp) is strict. */
  predicate Expired(sessions: map<Token, int>, token: Token, now: int) {
    token in sessions && now > sessions[token]
  }

  predicate Accepts(sessions: map<Token, int>, token: Token, now: int) {
    token in sessions && now <= sessions[token]
  }

  function Reaped(sessions: map<Token, int>, now: int): map<Token, int> {
    map t | t in sessions && now <= sessions[t] :: sessions[t]
  }

  // ---- Processes, crashes and requests, interleaved ----------------------------------------

  datatype Phase = Rebinding | Loading | Adopting(live: map<Token, int>, at: int) | Cleaning(at: int) | Up

  datatype Proc = Proc(
    hash: string,
    enabled: bool,
    phase: Phase,
    sessions: map<Token, int>,
    saving: map<Token, int>,         // Logins between the lock and the write-through
    leaving: set<Token>,             // Logouts between the lock and the delete
    dropping: set<Token>,            // expired on use, delete still to come
    reaping: set<int>)               // reaps between the lock and the delete

  datatype Issue = Issue(hash: string, expiry: int)

  /** The last three fields record what has happened. */
  datatype State = State(
    now: int,
    db: Db,
    proc: Option<Proc>,
    issued: map<Token, Issue>,
    asked: set<Token>,               // a Logout for it has begun
    out: set<Token>)                 // a Logout for it has reached the database

  /** ok: whether the database carried the statement out; if not, the code logs it and goes on. */
  datatype Step =
    | Tick(passed: nat)
    | Boot(hash: string, enabled: bool)
    | Crash
    | BindStore(ok: bool)
    | LoadLive(ok: bool)
    | Adopt
    | CleanUp(ok: bool)
    | Login(token: Token, ttl: nat)
    | FinishLogin(token: Token, ok: bool)
    | Logout(token: Token)
    | FinishLogout(token: Token, ok: bool)
    | Authenticate(token: Token)
    | FinishDrop(token: Token, ok: bool)
    | Reap(at: int)
    | FinishReap(at: int, ok: bool)

  const START := State(0, Db(map[], None), None, map[], {}, {})

  function Next(s: State, st: Step): Option<State> {
    if st.Tick? then Some(s.(now := s.now + st.passed))
    else if st.Boot? then
      if s.proc.Some? then None
      else Some(s.(proc := Some(Proc(st.hash, st.enabled, Rebinding, map[], map[], {}, {}, {}))))
    else if s.proc.None? then None
    else
      var p := s.proc.value;
      match st
      case Crash => Some(s.(proc := None))
      case BindStore(ok) =>
        if p.phase != Rebinding then None
        else if !ok then Some(s.(proc := Some(p.(phase := Up))))
        else Some(s.(db := Rebind(s.db, Fingerprint(p.hash)), proc := Some(p.(phase := Loading))))
      case LoadLive(ok) =>
        if p.phase != Loading then None
        else if !ok then Some(s.(proc := Some(p.(phase := Up))))
        else Some(s.(proc := Some(p.(phase := Adopting(Live(s.db, s.now), s.now)))))
      case Adopt =>
        if !p.phase.Adopting? then None
        else Some(s.(proc := Some(p.(sessions := p.sessions + p.phase.live, phase := Cleaning(p.phase.at)))))
      case CleanUp(ok) =>
        if !p.phase.Cleaning? then None
        else Some(s.(db := if ok then DeleteExpired(s.db, p.phase.at) else s.db, proc := Some(p.(phase := Up))))
      case _ => if p.phase != Up then None else Serve(s, p, st)
  }

  function Serve(s: State, p: Proc, st: Step): Option<State> {
    match st
    case Login(token, ttl) =>
      // a fresh random token nobody has named before
      if !p.enabled || token in s.issued || token in s.asked then None
      else Some(s.(issued := s.issued[token := Issue(p.hash, s.now + ttl)],
                   proc := Some(p.(sessions := p.sessions[token := s.now + ttl],
                                   saving := p.saving[token := s.now + ttl]))))
    case FinishLogin(token, ok) =>
      if token !in p.saving then None
      else Some(s.(db := if ok then Save(s.db, token, p.saving[token]) else s.db,
                   proc := Some(p.(saving := p.saving - {token}))))
    case Logout(token) =>
      // the cookie is only handed out once the Login is complete
      if token in p.saving then None
      else Some(s.(asked := s.asked + {token},
                   proc := Some(p.(sessions := p.sessions - {token}, leaving := p.leaving + {token}))))
    case FinishLogout(token, ok) =>
      if token !in p.leaving then None
      else if !ok then Some(s.(proc := Some(p.(leaving := p.leaving - {token}))))
      else Some(s.(db := Delete(s.db, token), out := s.out + {token}, proc := Some(p.(leaving := p.leaving - {token}))))
    case Authenticate(token) =>
      if !Expired(p.sessions, token, s.now) then Some(s)
      else Some(s.(proc := Some(p.(sessions := p.sessions - {token}, dropping := p.dropping + {token}))))
    case FinishDrop(token, ok) =>
      if token !in p.dropping then None
      else Some(s.(db := if ok then Delete(s.db, token) else s.db, proc := Some(p.(dropping := p.dropping - {token}))))
    case Reap(at) =>
      // the ticker's time may be older than the clock
      if at > s.now then None
      else Some(s.(proc := Some(p.(sessions := Reaped(p.sessions, at), reaping := p.reaping + {at}))))
    case FinishReap(at, ok) =>
      if at !in p.reaping then None
      else Some(s.(db := if ok then DeleteExpired(s.db, at) else s.db, proc := Some(p.(reaping := p.reaping - {at}))))
    case _ => None
  }

  ghost predicate IsRun(states: seq<State>, steps: seq<Step>) {
    && |states| == |steps| + 1 && states[0] == START
    && forall i {:trigger steps[i]} :: 0 <= i < |steps| ==> Next(states[i], steps[i]) == Some(states[i + 1])
  }

  // ---- Only what Login issued, under the same hash, not logged out, not expired -------------

  predicate Vouched(s: State, hash: string, token: Token, expiry: int) {
    && token in s.issued && s.issued[token].hash == hash && expiry <= s.issued[token].expiry && token !in s.out
  }

  /** A Login whose write-through is still to come: in memory until it expires. */
  predicate Pending(s: State, p: Proc, t: Token)
    requires t in p.saving
  {
    && Vouched(s, p.hash, t, p.saving[t]) && t !in s.asked && s.issued[t].expiry == p.saving[t]
    && t !in p.leaving
    && (s.now <= p.saving[t] ==> t in p.sessions && p.sessions[t] == p.saving[t] && t !in p.dropping)
  }

  ghost predicate ProcSound(s: State, p: Proc) {
    && (forall t :: t in p.sessions ==> Vouched(s, p.hash, t, p.sessions[t]))
    && (forall t :: t in p.saving ==> Pending(s, p, t))
    && (forall at :: at in p.reaping ==> at <= s.now)
    && (p.phase.Adopting? ==> forall t :: t in p.phase.live ==> Vouched(s, p.hash, t, p.phase.live[t]))
    && (p.phase.Rebinding? ==> p.sessions == map[])
    && (!p.phase.Up? ==> p.saving == map[] && p.leaving == {} && p.dropping == {} && p.reaping == {})
    && (forall t :: t in p.dropping ==> t in s.issued)
    && (p.phase.Loading? || p.phase.Adopting? || p.phase.Cleaning? ==> s.db.credential == Some(Fingerprint(p.hash)))
    && (forall t :: t in p.leaving ==> t !in p.sessions && t in s.asked)
  }

  /** No process with another hash would adopt what is stored. */
  predicate BoundTo(d: Db, hash: string) {
    d.credential.None? || d.credential == Some(Fingerprint(hash))
  }

  /** A session is stored by a process whose own hash, if any, the store is bound to. It is not if
      the process failed to rebind a store left by another hash. */
  predicate SavesBound(s: State, st: Step) {
    st.FinishLogin? && st.ok && s.proc.Some? ==> BoundTo(s.db, s.proc.value.hash)
  }

  ghost predicate DbSound(s: State) {
    && (forall t :: t in s.db.sessions ==>
          t in s.issued && BoundTo(s.db, s.issued[t].hash)
          && s.db.sessions[t] == Millis(s.issued[t].expiry) && t !in s.out)
    && s.out <= s.asked
  }

  ghost predicate Sound(s: State) {
    DbSound(s) && (s.proc.Some? ==> ProcSound(s, s.proc.value))
  }

  lemma TruncationNeverExtends(t: int)
    ensures Millis(t) * MILLI <= t < (Millis(t) + 1) * MILLI
  {}

  lemma StepSound(s: State, st: Step)
    requires Sound(s) && Next(s, st).Some? && SavesBound(s, st)
    ensures Sound(Next(s, st).value)
  {
    if s.proc.Some? {
      var p := s.proc.value;
      match st {
        case Tick(_) =>
        case Boot(_, _) =>
        case Crash =>
        case BindStore(_) =>
        case LoadLive(ok) =>
          if ok {
            LoadSound(s, p);
          }
        case Adopt =>
        case CleanUp(_) =>
        case _ =>
          ServeDbSound(s, p, st);
          ServeProcSound(s, p, st);
      }
    }
  }

  lemma LoadSound(s: State, p: Proc)
    requires Sound(s) && s.proc == Some(p) && Next(s, LoadLive(true)).Some?
    ensures Sound(Next(s, LoadLive(true)).value)
  {
    forall t | t in s.db.sessions
      ensures s.db.sessions[t] * MILLI <= s.issued[t].expiry
    {
      TruncationNeverExtends(s.issued[t].expiry);
    }
    forall t | t in s.db.sessions
      ensures s.issued[t].hash == p.hash
    {
      FingerprintInjective(s.issued[t].hash, p.hash);
    }
  }

  lemma ServeDbSound(s: State, p: Proc, st: Step)
    requires Sound(s) && s.proc == Some(p) && p.phase.Up? && Serve(s, p, st).Some? && SavesBound(s, st)
    ensures DbSound(Serve(s, p, st).value)
  {
    assert st.FinishLogin? ==> Pending(s, p, st.token);
  }

  lemma ServePending(s: State, p: Proc, st: Step, t: Token)
    requires Sound(s) && s.proc == Some(p) && p.phase.Up? && Serve(s, p, st).Some?
    requires Serve(s, p, st).value.proc.Some? && t in Serve(s, p, st).value.proc.value.saving
    ensures Pending(Serve(s, p, st).value, Serve(s, p, st).value.proc.value, t)
  {
    if t in p.saving {
      assert Pending(s, p, t);
    }
  }

  lemma ServeProcSound(s: State, p: Proc, st: Step)
    requires Sound(s) && s.proc == Some(p) && p.phase.Up? && Serve(s, p, st).Some?
    ensures Serve(s, p, st).value.proc.Some? && ProcSound(Serve(s, p, st).value, Serve(s, p, st).value.proc.value)
  {
    forall t | t in Serve(s, p, st).value.proc.value.saving
      ensures Pending(Serve(s, p, st).value, Serve(s, p, st).value.proc.value, t)
    {
      ServePending(s, p, st, t);
    }
  }

  ghost predicate AllSavesBound(states: seq<State>, steps: seq<Step>, i: nat) {
    |states| == |steps| + 1 && i < |states| && forall k :: 0 <= k < i ==> SavesBound(states[k], steps[k])
  }

  lemma {:induction false} RunSound(states: seq<State>, steps: seq<Step>, i: nat)
    requires IsRun(states, steps) && i < |states| && AllSavesBound(states, steps, i)
    ensures Sound(states[i])
  {
    if i > 0 {
      RunSound(states, steps, i - 1);
      assert Next(states[i - 1], steps[i - 1]) == Some(states[i]);
      StepSound(states[i - 1], steps[i - 1]);
    }
  }

  /** Over every run of logins, logouts, reaps, crashes, restarts and failing statements that stores
      sessions bound: a token is accepted only if Login issued it under the very password-hash
      string in force now, no Logout of it has reached the database, and its original expiry has
      not passed. */
  lemma VouchedWhileBound(states: seq<State>, steps: seq<Step>, i: nat, token: Token)
    requires IsRun(states, steps) && i < |states| && AllSavesBound(states, steps, i) && states[i].proc.Some?
    requires Accepts(states[i].proc.value.sessions, token, states[i].now)
    ensures var s := states[i];
            && token in s.issued && s.issued[token].hash == s.proc.value.hash
            && token !in s.out && s.now <= s.issued[token].expiry
  {
    RunSound(states, steps, i);
  }

  // ---- Sessions are stored bound if every rebinding succeeds -------------------------------

  ghost predicate RebindsSucceed(steps: seq<Step>, i: nat)
    requires i <= |steps|
  {
    forall k :: 0 <= k < i && steps[k].BindStore? ==> steps[k].ok
  }

  predicate Rebound(s: State) {
    s.proc.Some? ==>
      var p := s.proc.value;
      && (p.phase != Rebinding ==> s.db.credential == Some(Fingerprint(p.hash)))
      && (p.phase != Up ==> p.saving == map[])
  }

  lemma StepRebound(s: State, st: Step)
    requires Rebound(s) && Next(s, st).Some? && (st.BindStore? ==> st.ok)
    ensures Rebound(Next(s, st).value)
  {}

  lemma {:induction false} RunRebound(states: seq<State>, steps: seq<Step>, i: nat)
    requires IsRun(states, steps) && i < |states| && RebindsSucceed(steps, i)
    ensures Rebound(states[i])
  {
    if i > 0 {
      RunRebound(states, steps, i - 1);
      assert Next(states[i - 1], steps[i - 1]) == Some(states[i]);
      StepRebound(states[i - 1], steps[i - 1]);
    }
  }

  lemma SavesAreBound(states: seq<State>, steps: seq<Step>, i: nat)
    requires IsRun(states, steps) && i < |states| && RebindsSucceed(steps, i)
    ensures AllSavesBound(states, steps, i)
  {
    forall k | 0 <= k < i
      ensures SavesBound(states[k], steps[k])
    {
      RunRebound(states, steps, k);
      assert Next(states[k], steps[k]) == Some(states[k + 1]);
    }
  }

  /** If every rebinding so far has succeeded, then, over every run of logins, logouts, reaps,
      crashes, restarts and other failing statements, a token is accepted only if Login issued it
      under the very password-hash string in force now, no Logout of it has reached the database,
      and its original expiry has not passed. */
  lemma OnlyVouchedTokens(states: seq<State>, steps: seq<Step>, i: nat, token: Token)
    requires IsRun(states, steps) && i < |states| && RebindsSucceed(steps, i) && states[i].proc.Some?
    requires Accepts(states[i].proc.value.sessions, token, states[i].now)
    ensures var s := states[i];
            && token in s.issued && s.issued[token].hash == s.proc.value.hash
            && token !in s.out && s.now <= s.issued[token].expiry
  {
    SavesAreBound(states, steps, i);
    VouchedWhileBound(states, steps, i, token);
  }

  // ---- Why sessions have to be stored bound ------------------------------------------------

  ghost predicate Bindable(d: Db) {
    d.credential.Some? ==> exists h :: d.credential.value == Fingerprint(h)
  }

  lemma {:induction false} AlwaysBindable(states: seq<State>, steps: seq<Step>, i: nat)
    requires IsRun(states, steps) && i < |states|
    ensures Bindable(states[i].db)
  {
    if i > 0 {
      AlwaysBindable(states, steps, i - 1);
      assert Next(states[i - 1], steps[i - 1]) == Some(states[i]);
    }
  }

  /** A restart under hash that reads the store. */
  function Restart(hash: string): seq<Step> {
    [Crash, Boot(hash, true), BindStore(true), LoadLive(true), Adopt]
  }

  lemma RestartAdopts(s: State, hash: string, token: Token) returns (states: seq<State>)
    requires s.proc.Some? && s.db.credential == Some(Fingerprint(hash))
    requires token in s.db.sessions && Millis(s.now) < s.db.sessions[token]
    ensures |states| == 6 && states[0] == s
    ensures forall k :: 0 <= k < 5 ==> Next(states[k], Restart(hash)[k]) == Some(states[k + 1])
    ensures var s' := states[5];
            && s'.issued == s.issued && s'.proc.Some? && s'.proc.value.hash == hash
            && Accepts(s'.proc.value.sessions, token, s'.now)
  {
    var s1 := s.(proc := None);
    var p2 := Proc(hash, true, Rebinding, map[], map[], {}, {}, {});
    var s2 := s1.(proc := Some(p2));
    var s3 := s2.(proc := Some(p2.(phase := Loading)));
    var s4 := s3.(proc := Some(p2.(phase := Adopting(Live(s.db, s.now), s.now))));
    var s5 := s4.(proc := Some(p2.(sessions := Live(s.db, s.now), phase := Cleaning(s.now))));
    states := [s, s1, s2, s3, s4, s5];
    assert Rebind(s.db, Fingerprint(hash)) == s.db;
    assert map[] + Live(s.db, s.now) == Live(s.db, s.now);
  }

  /** A session on its way to the store is one that this process has issued. */
  ghost predicate OwnSaves(s: State) {
    s.proc.Some? ==>
      forall t :: t in s.proc.value.saving ==>
        t in s.issued && s.issued[t] == Issue(s.proc.value.hash, s.proc.value.saving[t])
  }

  lemma {:induction false} AlwaysOwnSaves(states: seq<State>, steps: seq<Step>, i: nat)
    requires IsRun(states, steps) && i < |states|
    ensures OwnSaves(states[i])
  {
    if i > 0 {
      AlwaysOwnSaves(states, steps, i - 1);
      assert Next(states[i - 1], steps[i - 1]) == Some(states[i]);
      StepOwnSaves(states[i - 1], steps[i - 1]);
    }
  }

  lemma StepOwnSaves(s: State, st: Step)
    requires OwnSaves(s) && Next(s, st).Some?
    ensures OwnSaves(Next(s, st).value)
  {}

  /** Once a session is stored otherwise, the next restart under the hash that the store is still
      bound to accepts it, though it was issued under another. */
  lemma UnboundSaveIsAdopted(states: seq<State>, steps: seq<Step>, token: Token)
    returns (hash: string, after: seq<State>)
    requires IsRun(states, steps) && Next(states[|steps|], FinishLogin(token, true)).Some?
    requires !SavesBound(states[|steps|], FinishLogin(token, true))
    requires states[|steps|].now < Horizon(states[|steps|].proc.value.saving[token])
    ensures IsRun(states + after, steps + [FinishLogin(token, true)] + Restart(hash))
    ensures var s := (states + after)[|steps| + 6];
            && token in s.issued && s.proc.Some? && s.issued[token].hash != s.proc.value.hash
            && Accepts(s.proc.value.sessions, token, s.now)
  {
    var s := states[|steps|];
    AlwaysBindable(states, steps, |steps|);
    AlwaysOwnSaves(states, steps, |steps|);
    BeforeHorizon(s.now, s.now, s.proc.value.saving[token]);
    hash :| s.db.credential == Some(Fingerprint(hash));
    after := RestartAdopts(Next(s, FinishLogin(token, true)).value, hash, token);
    RunGoesOn(states, steps, FinishLogin(token, true), Restart(hash), after);
  }

  lemma RunGoesOn(states: seq<State>, steps: seq<Step>, st: Step, more: seq<Step>, after: seq<State>)
    requires IsRun(states, steps) && |after| == |more| + 1
    requires Next(states[|steps|], st) == Some(after[0])
    requires forall k :: 0 <= k < |more| ==> Next(after[k], more[k]) == Some(after[k + 1])
    ensures IsRun(states + after, steps + [st] + more)
  {
    var all, done := states + after, steps + [st] + more;
    forall k | 0 <= k < |done|
      ensures Next(all[k], done[k]) == Some(all[k + 1])
    {
      if k < |steps| {
        assert done[k] == steps[k];
      } else if k > |steps| {
        assert done[k] == more[k - |steps| - 1];
      }
    }
  }

  lemma Extend(states: seq<State>, steps: seq<Step>, st: Step) returns (states': seq<State>, steps': seq<Step>)
    requires IsRun(states, steps) && Next(states[|steps|], st).Some?
    ensures IsRun(states', steps') && steps' == steps + [st]
    ensures states' == states + [Next(states[|steps|], st).value]
  {
    states', steps' := states + [Next(states[|steps|], st).value], steps + [st];
  }

  /** A store bound to hash "a", and a process with hash "b" that could not rebind it. */
  lemma LeftBound() returns (states: seq<State>, steps: seq<Step>)
    ensures IsRun(states, steps)
    ensures states[|steps|] == State(0, Db(map[], Some(Fingerprint("a"))),
                                     Some(Proc("b", true, Up, map[], map[], {}, {}, {})), map[], {}, {})
  {
    states, steps := [START], [];
    states, steps := Extend(states, steps, Boot("a", true));
    states, steps := Extend(states, steps, BindStore(true));
    states, steps := Extend(states, steps, Crash);
    states, steps := Extend(states, steps, Boot("b", true));
    states, steps := Extend(states, steps, BindStore(false));
  }

  /** Its next login is stored unbound, and after a restart under "a" it is accepted. */
  lemma UnboundSaveHappens() returns (states: seq<State>, steps: seq<Step>)
    ensures IsRun(states, steps)
    ensures var s := states[|steps|];
            && "t" in s.issued && s.proc.Some? && s.issued["t"].hash != s.proc.value.hash
            && Accepts(s.proc.value.sessions, "t", s.now)
  {
    states, steps := LeftBound();
    states, steps := Extend(states, steps, Login("t", MILLI));
    if Fingerprint("a") == Fingerprint("b") {
      FingerprintInjective("a", "b");
    }
    assert !SavesBound(states[|steps|], FinishLogin("t", true));
    var hash, after := UnboundSaveIsAdopted(states, steps, "t");
    states, steps := states + after, steps + [FinishLogin("t", true)] + Restart(hash);
  }

  // ---- What a Logout is worth --------------------------------------------------------------

  /** A token whose Logout has reached the database is nowhere, nor on its way anywhere. */
  ghost predicate OutIsGone(s: State) {
    && s.out <= s.asked && (forall t :: t in s.out ==> t !in s.db.sessions)
    && (s.proc.Some? ==>
          var p := s.proc.value;
          && (forall t :: t in s.asked ==> t !in p.saving)
          && (forall t :: t in p.leaving ==> t in s.asked && t !in p.sessions)
          && (p.leaving != {} ==> p.phase.Up?)
          && (forall t :: t in s.out ==> t !in p.sessions && (p.phase.Adopting? ==> t !in p.phase.live)))
  }

  lemma StepOutIsGone(s: State, st: Step)
    requires OutIsGone(s) && Next(s, st).Some?
    ensures OutIsGone(Next(s, st).value) && s.out <= Next(s, st).value.out
  {}

  lemma {:induction false} RunOutIsGone(states: seq<State>, steps: seq<Step>, i: nat)
    requires IsRun(states, steps) && i < |states|
    ensures OutIsGone(states[i])
  {
    if i > 0 {
      RunOutIsGone(states, steps, i - 1);
      assert Next(states[i - 1], steps[i - 1]) == Some(states[i]);
      StepOutIsGone(states[i - 1], steps[i - 1]);
    }
  }

  lemma {:induction false} StaysOut(states: seq<State>, steps: seq<Step>, k: nat, i: nat, token: Token)
    requires IsRun(states, steps) && k < i < |states| && steps[k] == FinishLogout(token, true)
    ensures token in states[i].out
    decreases i
  {
    assert Next(states[i - 1], steps[i - 1]) == Some(states[i]);
    if k < i - 1 {
      StaysOut(states, steps, k, i - 1, token);
      RunOutIsGone(states, steps, i - 1);
      StepOutIsGone(states[i - 1], steps[i - 1]);
    }
  }

  /** Once the DELETE of a Logout has succeeded no process ever accepts the token again, under
      whatever hash and whatever else fails. */
  lemma LogoutIsFinal(states: seq<State>, steps: seq<Step>, k: nat, i: nat, token: Token)
    requires IsRun(states, steps) && k < i < |states| && steps[k] == FinishLogout(token, true)
    ensures states[i].proc.Some? ==> !Accepts(states[i].proc.value.sessions, token, states[i].now)
  {
    StaysOut(states, steps, k, i, token);
    RunOutIsGone(states, steps, i);
  }

  /** If it fails, the Logout has ended for the client all the same, and the next restart under the
      same hash accepts the token again, for as long as its stored form lasts. */
  lemma FailedLogoutIsUndone(states: seq<State>, steps: seq<Step>, token: Token) returns (after: seq<State>)
    requires IsRun(states, steps) && Next(states[|steps|], Logout(token)).Some?
    requires var s := states[|steps|];
             && s.db.credential == Some(Fingerprint(s.proc.value.hash))
             && token in s.db.sessions && Millis(s.now) < s.db.sessions[token]
    ensures |after| == 7
    ensures var hash := states[|steps|].proc.value.hash;
            var s := after[6];
            && s.proc.Some? && s.proc.value.hash == hash && Accepts(s.proc.value.sessions, token, s.now)
            && IsRun(states + after, steps + [Logout(token), FinishLogout(token, false)] + Restart(hash))
  {
    var hash := states[|steps|].proc.value.hash;
    var asked := Next(states[|steps|], Logout(token)).value;
    var states', steps' := Extend(states, steps, Logout(token));
    var rest := RestartAdopts(Next(asked, FinishLogout(token, false)).value, hash, token);
    RunGoesOn(states', steps', FinishLogout(token, false), Restart(hash), rest);
    after := [asked] + rest;
    assert states + after == states' + rest;
    assert steps' + [FinishLogout(token, false)] == steps + [Logout(token), FinishLogout(token, false)];
  }

  lemma Serving() returns (states: seq<State>, steps: seq<Step>)
    ensures IsRun(states, steps)
    ensures states[|steps|] == State(0, Db(map[], Some(Fingerprint("a"))),
                                     Some(Proc("a", true, Up, map[], map[], {}, {}, {})), map[], {}, {})
  {
    states, steps := [START], [];
    states, steps := Extend(states, steps, Boot("a", true));
    states, steps := Extend(states, steps, BindStore(true));
    states, steps := Extend(states, steps, LoadLive(true));
    states, steps := Extend(states, steps, Adopt);
    states, steps := Extend(states, steps, CleanUp(true));
  }

  /** One login in a serving process, stored. */
  lemma StoredLogin() returns (states: seq<State>, steps: seq<Step>)
    ensures IsRun(states, steps) && Next(states[|steps|], Logout("t")).Some?
    ensures var s := states[|steps|];
            && s.db.credential == Some(Fingerprint(s.proc.value.hash))
            && "t" in s.db.sessions && Millis(s.now) < s.db.sessions["t"]
  {
    states, steps := Serving();
    states, steps := Extend(states, steps, Login("t", MILLI));
    states, steps := Extend(states, steps, FinishLogin("t", true));
  }

  lemma LogoutUndoneHappens() returns (states: seq<State>, steps: seq<Step>)
    ensures IsRun(states, steps) && Logout("t") in steps
    ensures var s := states[|steps|]; s.proc.Some? && Accepts(s.proc.value.sessions, "t", s.now)
  {
    states, steps := StoredLogin();
    var hash := states[|steps|].proc.value.hash;
    var after := FailedLogoutIsUndone(states, steps, "t");
    states, steps := states + after, steps + [Logout("t"), FinishLogout("t", false)] + Restart(hash);
  }

  // ---- A completed Login survives restarts -------------------------------------------------

  /** The last instant the stored form of an expiry vouches for, exclusive. */
  function Horizon(expiry: int): int {
    Millis(expiry) * MILLI
  }

  /** Until its horizon the token is in the database and wherever the process needs it. */
  ghost predicate Kept(s: State, token: Token) {
    token in s.issued &&
    var h := Horizon(s.issued[token].expiry);
    && token !in s.asked
    && (s.now < h ==> token in s.db.sessions && s.db.credential == Some(Fingerprint(s.issued[token].hash)))
    && (s.proc.Some? ==>
          var p := s.proc.value;
          && p.hash == s.issued[token].hash
          && token !in p.leaving && token !in p.saving
          && (token in p.dropping ==> h <= s.now)
          && (forall at :: at in p.reaping ==> at <= s.now)
          && (p.phase.Adopting? || p.phase.Cleaning? ==> p.phase.at <= s.now)
          && (p.phase.Adopting? && s.now < h ==> token in p.phase.live && h <= p.phase.live[token])
          && ((p.phase.Cleaning? || p.phase.Up?) && s.now < h ==> token in p.sessions && h <= p.sessions[token]))
  }

  lemma BeforeHorizon(now: int, at: int, expiry: int)
    requires at <= now < Horizon(expiry)
    ensures Millis(at) < Millis(expiry)
  {}

  /** token goes on being kept: nobody logs it out, and a restart is under the same hash and reads
      the store. */
  predicate Spares(st: Step, token: Token, hash: string) {
    match st
    case Logout(t) => t != token
    case Boot(h, _) => h == hash
    case BindStore(ok) => ok
    case LoadLive(ok) => ok
    case _ => true
  }

  lemma StepKeeps(s: State, st: Step, token: Token)
    requires Sound(s) && Kept(s, token) && Next(s, st).Some? && Spares(st, token, s.issued[token].hash)
    ensures Kept(Next(s, st).value, token)
  {
    var s' := Next(s, st).value;
    var h := Horizon(s.issued[token].expiry);
    if s'.now < h {
      BeforeHorizon(s'.now, s'.now, s.issued[token].expiry);
      if st.CleanUp? {
        BeforeHorizon(s.now, s.proc.value.phase.at, s.issued[token].expiry);
      } else if st.FinishReap? {
        BeforeHorizon(s.now, st.at, s.issued[token].expiry);
      }
    }
  }

  /** From the moment a Login has been stored by a process that has bound the store, in a run that
      stores sessions bound, as long as nobody asks to log the token out and every restart runs with
      the same password hash and reads the store, any serving process accepts it until its
      millisecond expiry. */
  lemma {:induction false} SurvivesWhileBound(states: seq<State>, steps: seq<Step>, i: nat, j: nat, token: Token)
    requires IsRun(states, steps) && i < j < |states| && AllSavesBound(states, steps, j)
    requires steps[i] == FinishLogin(token, true) && states[i].db.credential.Some? && token in states[i].issued
    requires forall k :: i < k < j ==> Spares(steps[k], token, states[i].issued[token].hash)
    ensures token in states[j].issued && states[j].issued[token] == states[i].issued[token]
    ensures Kept(states[j], token)
    ensures var s := states[j];
            s.proc.Some? && s.proc.value.phase.Up? && s.now < Horizon(s.issued[token].expiry) ==>
              Accepts(s.proc.value.sessions, token, s.now)
    decreases j
  {
    if j == i + 1 {
      KeptAt(states, steps, i, i, token);
      FreshlySaved(states[i], token);
    } else {
      SurvivesWhileBound(states, steps, i, j - 1, token);
      KeptAt(states, steps, i, j - 1, token);
      StepKeeps(states[j - 1], steps[j - 1], token);
    }
  }

  /** If every rebinding succeeds: from the moment a Login has been stored, as long as nobody asks to
      log the token out and every restart runs with the hash of its process and reads the store,
      any serving process accepts it until its millisecond expiry. */
  lemma LoginSurvives(states: seq<State>, steps: seq<Step>, i: nat, j: nat, token: Token)
    requires IsRun(states, steps) && i < j < |states| && RebindsSucceed(steps, j)
    requires steps[i] == FinishLogin(token, true) && states[i].proc.Some?
    requires forall k :: i < k < j ==> Spares(steps[k], token, states[i].proc.value.hash)
    ensures token in states[i].issued && token in states[j].issued
    ensures states[j].issued[token] == states[i].issued[token]
    ensures var s := states[j];
            s.proc.Some? && s.proc.value.phase.Up? && s.now < Horizon(s.issued[token].expiry) ==>
              Accepts(s.proc.value.sessions, token, s.now)
  {
    SavesAreBound(states, steps, j);
    RunRebound(states, steps, i);
    AlwaysOwnSaves(states, steps, i);
    assert Next(states[i], steps[i]) == Some(states[i + 1]);
    SurvivesWhileBound(states, steps, i, j, token);
  }

  lemma KeptAt(states: seq<State>, steps: seq<Step>, i: nat, k: nat, token: Token)
    requires IsRun(states, steps) && i <= k < |steps| && AllSavesBound(states, steps, k) && token in states[k].issued
    ensures Sound(states[k]) && Next(states[k], steps[k]) == Some(states[k + 1])
    ensures token in states[k + 1].issued && states[k + 1].issued[token] == states[k].issued[token]
  {
    RunSound(states, steps, k);
    assert Next(states[k], steps[k]) == Some(states[k + 1]);
    IssueStands(states[k], steps[k], token);
  }

  lemma IssueStands(s: State, st: Step, token: Token)
    requires Next(s, st).Some? && token in s.issued
    ensures token in Next(s, st).value.issued && Next(s, st).value.issued[token] == s.issued[token]
  {}

  lemma FreshlySaved(s: State, token: Token)
    requires Sound(s) && Next(s, FinishLogin(token, true)).Some?
    requires SavesBound(s, FinishLogin(token, true)) && s.db.credential.Some?
    ensures Kept(Next(s, FinishLogin(token, true)).value, token)
  {
    TruncationNeverExtends(s.issued[token].expiry);
  }
}
