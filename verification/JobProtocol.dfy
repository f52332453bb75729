/** The job protocol as interleaved steps, one per store, channel, lock or bus operation:
    Submits, workers, cancels, deletes, startup, shutdown and crashes. */
module JobProtocol {
  import opened Common
  import opened JobTable

  datatype Config = Config(depth: nat, workers: nat, runners: set<Kind>)

  /** What execute goes on to do after a publishStatus. */
  datatype After = ThenRun | ThenUnregister | ThenIdle

  /** Where a worker stands inside execute; each names the operation it does next. */
  datatype Point =
    | AtLoad
    | AtRefuse
    | AtRegister
    | AtMark
    | AtRead(after: After)
    | AtSend(row: Row, after: After)
    | AtRun
    | AtRecord(path: string, title: string, size: int)
    | AtComplete
    | AtClose(status: Status, error: string)
    | AtUnregister

  datatype Worker = Idle | Busy(id: JobId, exec: nat, at: Point) | Exited

  /** Where a Submit stands once its row exists. */
  datatype SubmitPoint = AtAnnounce | AtOffer | AtReject | AtReread | AtResend(row: Row)

  datatype Mode =
    | Booting
    | Listing
    | Resuming(rest: seq<JobId>)
    | Dropping(id: JobId, rest: seq<JobId>)
    | Rereading(id: JobId, rest: seq<JobId>)
    | Resending(id: JobId, rest: seq<JobId>, row: Row)
    | Up

  datatype Cause = CancelRequested | TimedOut

  datatype Event =
    | CreatedEvent(id: JobId)
    | StatusEvent(id: JobId, status: Status)
    | ProgressEvent(id: JobId)
    | DeletedEvent(id: JobId)

  /** One process. The last four fields only record what has happened in it. */
  datatype Proc = Proc(
    cfg: Config,
    mode: Mode,
    live: bool,                          // the server context is not canceled
    closed: bool,                        // Stop has closed the channel
    ch: seq<JobId>,
    submits: map<JobId, SubmitPoint>,
    gone: set<JobId>,                    // submissions whose request context is canceled
    workers: map<nat, Worker>,
    running: map<JobId, nat>,            // cancel function per registered job
    nextExec: nat,
    causes: map<nat, Cause>,             // first cancellation cause per execution
    aimed: set<nat>,                     // cancel functions looked up, not yet called
    deleted: set<JobId>,                 // deletions not yet published
    lost: set<JobId>,                    // rows given up while still queued
    mine: set<JobId>,                    // rows this process created
    runs: multiset<JobId>,               // runner invocations
    log: seq<Event>)                     // publications in order

  datatype State = State(table: Jobs, used: set<JobId>, now: int, proc: Option<Proc>)

  datatype StartupAct =
    | Interrupt(ok: bool) | List(ok: bool) | ResumeOne | DropMark(ok: bool) | DropRead(ok: bool) | DropSend
    | StartWorkers

  datatype SubmitAct =
    | Create(row: Row) | Announce | Offer | Reject(ok: bool) | RejectRead(ok: bool) | RejectSend | ClientGone
    | SendPanics

  datatype Outcome =
    | Produced(path: string, title: string, size: int)
    | OutputMissing(text: string)
    | Erred(text: string)

  datatype WorkerAct =
    | Take | Load(ok: bool) | Refuse(ok: bool) | Register | Mark(ok: bool) | Read(ok: bool) | Send
    | SaveProgress(percent: real, stage: string) | SendProgress | Return(outcome: Outcome)
    | Record | Complete | Close | Unregister | TimeOut | Leave

  datatype RequestAct =
    | AimCancel(id: JobId) | FireCancel(exec: nat) | DeleteRow(id: JobId) | SendDeleted(id: JobId)
    | Shutdown | CloseQueue

  datatype Step =
    | Tick(passed: nat)
    | Boot(cfg: Config)
    | Crash
    | Startup(startup: StartupAct)
    | Submit(id: JobId, submit: SubmitAct)
    | Work(w: nat, work: WorkerAct)
    | Request(request: RequestAct)

  const TIMEOUT_TEXT := "job stopped after hitting the time limit (JOB_TIMEOUT_MINUTES)"
  const NO_RUNNER_TEXT := "no runner registered for job type"

  function NewProc(cfg: Config): Proc {
    Proc(cfg, Booting, true, false, [], map[], {}, map[], map[], 0, map[], {}, {}, {}, {}, multiset{}, [])
  }

  function Initial(): State {
    State(EMPTY_TABLE, {}, 0, None)
  }

  function Next(s: State, st: Step): Option<State> {
    if st.Tick? then Some(s.(now := s.now + st.passed))
    else if st.Boot? then
      if s.proc.None? && 0 < st.cfg.depth then Some(s.(proc := Some(NewProc(st.cfg)))) else None
    else if s.proc.None? then None
    else
      var p := s.proc.value;
      match st
      case Crash => Some(s.(proc := None))
      case Startup(a) => StartupStep(s, p, a)
      case Submit(id, a) => SubmitStep(s, p, id, a)
      case Work(w, a) => WorkStep(s, p, w, a)
      case Request(a) => RequestStep(s, p, a)
      case _ => None
  }

  function To(s: State, p: Proc): Option<State> {
    Some(s.(proc := Some(p)))
  }

  /** One UPDATE of row id. */
  function Write(s: State, id: JobId, patch: Patch): State {
    s.(table := Update(s.table, id, patch))
  }

  // ---- Startup: FailInterrupted, Resume, Start, in that order -----------------------------

  /** A statement on a live context succeeds; on a canceled one it may fail and do nothing. */
  function StartupStep(s: State, p: Proc, a: StartupAct): Option<State> {
    if p.mode.Booting? && a.Interrupt? then
      if a.ok then To(s.(table := FailInterrupted(s.table, s.now)), p.(mode := Listing))
      else if p.live then None
      else To(s, p.(mode := Listing))
    else if p.mode.Listing? && a.List? then
      if a.ok then To(s, p.(mode := Resuming(QueuedIds(s.table))))
      else if p.live then None
      else To(s, p.(mode := Resuming([])))
    else if p.mode.Resuming? && p.mode.rest != [] && a.ResumeOne? then
      if |p.ch| < p.cfg.depth then To(s, p.(mode := Resuming(p.mode.rest[1..]), ch := p.ch + [p.mode.rest[0]]))
      else To(s, p.(mode := Dropping(p.mode.rest[0], p.mode.rest[1..])))
    else if p.mode.Dropping? && a.DropMark? then
      if a.ok then To(Write(s, p.mode.id, ToStatus(Failed, QUEUE_FULL, s.now)),
                      p.(mode := Rereading(p.mode.id, p.mode.rest)))
      else if p.live then None
      else To(s, p.(mode := Rereading(p.mode.id, p.mode.rest)))
    else if p.mode.Rereading? && a.DropRead? then
      if a.ok && p.mode.id in s.table.rows
          then To(s, p.(mode := Resending(p.mode.id, p.mode.rest, s.table.rows[p.mode.id])))
      else if !a.ok && p.live then None
      else To(s, p.(mode := Resuming(p.mode.rest)))
    else if p.mode.Resending? && a.DropSend? then
      To(s, p.(mode := Resuming(p.mode.rest), log := p.log + [StatusEvent(p.mode.id, p.mode.row.status)]))
    else if p.mode.Resuming? && p.mode.rest == [] && a.StartWorkers? then
      To(s, p.(mode := Up, workers := IdleWorkers(p.cfg.workers)))
    else None
  }

  function IdleWorkers(n: nat): (r: map<nat, Worker>)
    ensures forall w: nat :: w in r <==> w < n
    ensures forall w :: w in r ==> r[w].Idle?
  {
    if n == 0 then map[] else IdleWorkers(n - 1)[n - 1 := Idle]
  }

  // ---- Submit ------------------------------------------------------------------------------

  /** What one step of a submission does besides moving on; next = None ends the Submit. */
  datatype SubmitEffect = SubmitEffect(
    next: Option<SubmitPoint>,
    write: Option<Patch> := None,
    event: Option<Event> := None,
    enqueue: bool := false,
    lose: bool := false)

  function SubmitStep(s: State, p: Proc, id: JobId, a: SubmitAct): Option<State> {
    if p.mode != Up then None
    else if a.Create? then
      // ids are drawn at random and never repeat; the primary key would refuse one that did
      if id in s.used || id in s.table.rows || a.row.kind !in p.cfg.runners then None
      else Some(s.(table := Insert(s.table, NewRow(a.row, id, s.now)), used := s.used + {id},
                   proc := Some(p.(submits := p.submits[id := AtAnnounce], mine := p.mine + {id}))))
    else if id !in p.submits then None
    else if a.ClientGone? then To(s, p.(gone := p.gone + {id}))
    else
      var e := SubmitEffectOf(s, p, id, p.submits[id], a);
      if e.None? then None else Some(PerformSubmit(s, p, id, e.value))
  }

  function NewRow(draft: Row, id: JobId, now: int): Row {
    draft.(id := id, status := Queued, error := "", createdAt := now, updatedAt := now, startedAt := None,
           finishedAt := None)
  }

  function SubmitEffectOf(s: State, p: Proc, id: JobId, at: SubmitPoint, a: SubmitAct): Option<SubmitEffect> {
    match (at, a)
    case (AtAnnounce, Announce) =>
      Some(SubmitEffect(Some(AtOffer), event := Some(CreatedEvent(id))))
    case (AtOffer, Offer) =>
      if p.closed then None
      else if |p.ch| < p.cfg.depth then Some(SubmitEffect(None, enqueue := true))
      else Some(SubmitEffect(Some(AtReject)))
    case (AtOffer, SendPanics) =>
      if p.closed then Some(SubmitEffect(None, lose := true)) else None
    case (AtReject, Reject(ok)) =>
      // the request context: canceled once the client is gone
      if ok then Some(SubmitEffect(Some(AtReread), write := Some(ToStatus(Failed, QUEUE_FULL, s.now))))
      else if id in p.gone then Some(SubmitEffect(Some(AtReread), lose := true))
      else None
    case (AtReread, RejectRead(ok)) =>
      if !ok && id !in p.gone then None
      else if ok && id in s.table.rows then Some(SubmitEffect(Some(AtResend(s.table.rows[id]))))
      else Some(SubmitEffect(None))
    case (AtResend(row), RejectSend) =>
      Some(SubmitEffect(None, event := Some(StatusEvent(id, row.status))))
    case _ => None
  }

  function PerformSubmit(s: State, p: Proc, id: JobId, e: SubmitEffect): State {
    s.(table := Written(s.table, id, e.write),
       proc := Some(p.(submits := if e.next.Some? then p.submits[id := e.next.value] else p.submits - {id},
                       ch := if e.enqueue then p.ch + [id] else p.ch,
                       lost := if e.lose then p.lost + {id} else p.lost,
                       log := Logged(p.log, e.event))))
  }

  function Written(t: Jobs, id: JobId, w: Option<Patch>): Jobs {
    match w
    case None => t
    case Some(patch) => Update(t, id, patch)
  }

  function Logged(log: seq<Event>, e: Option<Event>): seq<Event> {
    match e
    case None => log
    case Some(event) => log + [event]
  }

  // ---- execute -----------------------------------------------------------------------------

  predicate CtxDone(p: Proc, exec: nat) {
    exec in p.causes || !p.live
  }

  datatype Registry = KeepEntry | AddEntry | DropEntry

  /** What one step of a worker does besides moving on; next = None makes it idle. */
  datatype Effect = Effect(
    next: Option<Point>,
    write: Option<Patch> := None,
    event: Option<Event> := None,
    registry: Registry := KeepEntry,
    start: bool := false,
    timeOut: bool := false,
    lose: bool := false)

  function WorkStep(s: State, p: Proc, w: nat, a: WorkerAct): Option<State> {
    if p.mode != Up || w !in p.workers then None
    else if a.Take? then
      if !p.workers[w].Idle? || p.ch == [] then None
      else To(s, p.(ch := p.ch[1..], nextExec := p.nextExec + 1,
                    workers := p.workers[w := Busy(p.ch[0], p.nextExec, AtLoad)]))
    else if a.Leave? then
      if p.workers[w].Idle? && (!p.live || (p.closed && p.ch == [])) then To(s, p.(workers := p.workers[w := Exited]))
          else None
    else if !p.workers[w].Busy? then None
    else
      var e := EffectOf(s, p, p.workers[w].id, p.workers[w].exec, p.workers[w].at, a);
      if e.None? then None else Some(Perform(s, p, w, e.value))
  }

  /** After a publishStatus: start the runner, unwind, or go back to the channel. */
  function Resume(after: After, event: Option<Event>): Effect {
    match after
    case ThenRun => Effect(Some(AtRun), event := event, start := true)
    case ThenUnregister => Effect(Some(AtUnregister), event := event)
    case ThenIdle => Effect(None, event := event)
  }

  function EffectOf(s: State, p: Proc, id: JobId, exec: nat, at: Point, a: WorkerAct): Option<Effect> {
    match (at, a)
    case (AtLoad, Load(ok)) =>
      if !ok then (if p.live then None else Some(Effect(None, lose := true)))
      else if id !in s.table.rows then Some(Effect(None))
      else Some(Effect(Some(if s.table.rows[id].kind in p.cfg.runners then AtRegister else AtRefuse)))
    case (AtRefuse, Refuse(ok)) =>
      if ok then Some(Effect(Some(AtRead(ThenIdle)), write := Some(ToStatus(Failed, NO_RUNNER_TEXT, s.now))))
      else if p.live then None
      else Some(Effect(Some(AtRead(ThenIdle)), lose := true))
    case (AtRegister, Register) =>
      Some(Effect(Some(AtMark), registry := AddEntry))
    case (AtMark, Mark(ok)) =>
      if ok then Some(Effect(Some(AtRead(ThenRun)), write := Some(ToStatus(Running, "", s.now))))
      else if CtxDone(p, exec) then Some(Effect(Some(AtRead(ThenRun))))
      else None
    case (AtRead(after), Read(ok)) =>
      // the closing bookkeeping runs on a detached context
      if !ok && (after.ThenUnregister? || !CtxDone(p, exec)) then None
      else if ok && id in s.table.rows then Some(Effect(Some(AtSend(s.table.rows[id], after))))
      else Some(Resume(after, None))
    case (AtSend(row, after), Send) =>
      Some(Resume(after, Some(StatusEvent(id, row.status))))
    case (AtRun, SaveProgress(pct, stage)) =>
      Some(Effect(Some(AtRun), write := Some(ToProgress(pct, stage, s.now))))
    case (AtRun, SendProgress) =>
      Some(Effect(Some(AtRun), event := Some(ProgressEvent(id))))
    case (AtRun, Return(outcome)) =>
      Some(Effect(Some(match outcome
                       case Produced(path, title, size) => AtRecord(path, title, size)
                       case OutputMissing(text) => AtClose(Failed, text)
                       case Erred(text) =>
                         if exec in p.causes && p.causes[exec].TimedOut? then AtClose(Failed, TIMEOUT_TEXT)
                         else if CtxDone(p, exec) then AtClose(Canceled, "canceled")
                         else AtClose(Failed, text))))
    case (AtRecord(path, title, size), Record) =>
      Some(Effect(Some(AtComplete), write := Some(ToOutput(path, size, title, s.now))))
    case (AtComplete, Complete) =>
      Some(Effect(Some(AtClose(Done, "")), write := Some(ToProgress(100.0, "done", s.now))))
    case (AtClose(status, error), Close) =>
      Some(Effect(Some(AtRead(ThenUnregister)), write := Some(ToStatus(status, error, s.now))))
    case (AtUnregister, Unregister) =>
      Some(Effect(None, registry := DropEntry))
    case (_, TimeOut) =>
      if Registered(at) && !CtxDone(p, exec) then Some(Effect(Some(at), timeOut := true)) else None
    case _ => None
  }

  function Perform(s: State, p: Proc, w: nat, e: Effect): State
    requires w in p.workers && p.workers[w].Busy?
  {
    var b := p.workers[w];
    s.(table := Written(s.table, b.id, e.write),
       proc := Some(p.(workers := p.workers[w := if e.next.Some? then b.(at := e.next.value) else Idle],
                       running := match e.registry
                                  case KeepEntry => p.running
                                  case AddEntry => p.running[b.id := b.exec]
                                  case DropEntry => p.running - {b.id},
                       causes := if e.timeOut then p.causes[b.exec := TimedOut] else p.causes,
                       lost := if e.lose then p.lost + {b.id} else p.lost,
                       runs := if e.start then p.runs + multiset{b.id} else p.runs,
                       log := Logged(p.log, e.event))))
  }

  /** Between putting its cancel function in the running map and taking it out. */
  predicate Registered(at: Point) {
    !(at.AtLoad? || at.AtRefuse? || at.AtRegister? || ((at.AtRead? || at.AtSend?) && at.after.ThenIdle?))
  }

  // ---- Cancel, delete, shutdown ------------------------------------------------------------

  function RequestStep(s: State, p: Proc, a: RequestAct): Option<State> {
    match a
    case AimCancel(id) =>
      if id in p.running then To(s, p.(aimed := p.aimed + {p.running[id]})) else None
    case FireCancel(exec) =>
      if exec !in p.aimed then None
      else To(s, p.(causes := if exec in p.causes then p.causes else p.causes[exec := CancelRequested]))
    case DeleteRow(id) =>
      if p.mode != Up || id !in s.table.rows then None
      else Some(s.(table := Remove(s.table, id), proc := Some(p.(deleted := p.deleted + {id}))))
    case SendDeleted(id) =>
      if id !in p.deleted then None
      else To(s, p.(deleted := p.deleted - {id}, log := p.log + [DeletedEvent(id)]))
    case Shutdown => To(s, p.(live := false))
    case CloseQueue => if p.live || p.mode != Up then None else To(s, p.(closed := true))
  }

  // ---- Runs --------------------------------------------------------------------------------

  /** A run: states joined by steps, from the empty database. */
  ghost predicate IsRun(states: seq<State>, steps: seq<Step>) {
    && |states| == |steps| + 1
    && states[0] == Initial()
    && forall i {:trigger steps[i]} :: 0 <= i < |steps| ==> Next(states[i], steps[i]) == Some(states[i + 1])
  }
}
