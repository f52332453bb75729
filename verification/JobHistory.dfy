/** What has to happen for a row, a channel slot or a context to come to be as it is. */
module JobHistory {
  import opened Common
  import opened JobTable
  import opened JobProtocol
  import opened JobSafety
  import opened JobRuns
  import opened JobOutcomes
  import JobReports

  /** Steps k and i belong to one process. */
  ghost predicate SameProcess(steps: seq<Step>, k: nat, i: nat)
    requires i <= |steps|
  {
    k < i && forall m :: k < m < i ==> !steps[m].Crash?
  }

  // ---- Cancellations and timeouts ----------------------------------------------------------

  predicate TimesOut(s: State, st: Step, exec: nat) {
    && st.Work? && st.work.TimeOut? && s.proc.Some? && st.w in s.proc.value.workers
    && s.proc.value.workers[st.w].Busy? && s.proc.value.workers[st.w].exec == exec
  }

  predicate Cancels(st: Step, exec: nat) {
    st == Request(FireCancel(exec))
  }

  function CauseOf(s: State, exec: nat): Option<Cause> {
    if s.proc.Some? && exec in s.proc.value.causes then Some(s.proc.value.causes[exec]) else None
  }

  /** The first of a called cancel function and a passed time limit marks the context, for good. */
  lemma CauseStep(s: State, st: Step, exec: nat)
    requires s.proc.Some? && Next(s, st).Some? && !st.Crash?
    ensures CauseOf(Next(s, st).value, exec) ==
              if CauseOf(s, exec).Some? then CauseOf(s, exec)
              else if Cancels(st, exec) then Some(CancelRequested)
              else if TimesOut(s, st, exec) then Some(TimedOut)
              else None
  {
    var p := s.proc.value;
    match st {
      case Tick(_) =>
      case Startup(a) => StartupShape(s, p, a);
      case Submit(id, a) => SubmitCauses(s, p, id, a);
      case Work(w, a) => WorkCauses(s, p, w, a, exec);
      case Request(a) =>
    }
  }

  lemma SubmitCauses(s: State, p: Proc, id: JobId, a: SubmitAct)
    requires s.proc == Some(p) && SubmitStep(s, p, id, a).Some?
    ensures SubmitStep(s, p, id, a).value.proc.Some? && SubmitStep(s, p, id, a).value.proc.value.causes == p.causes
  {}

  lemma EffectTimesOut(s: State, p: Proc, b: Worker, a: WorkerAct)
    requires b.Busy? && EffectOf(s, p, b.id, b.exec, b.at, a).Some?
    ensures EffectOf(s, p, b.id, b.exec, b.at, a).value.timeOut <==> a.TimeOut?
    ensures a.TimeOut? ==> b.exec !in p.causes
  {}

  lemma WorkCauses(s: State, p: Proc, w: nat, a: WorkerAct, exec: nat)
    requires s.proc == Some(p) && WorkStep(s, p, w, a).Some?
    ensures var s' := WorkStep(s, p, w, a).value;
            && s'.proc.Some?
            && CauseOf(s', exec) ==
                 if a.TimeOut? && p.workers[w].Busy? && p.workers[w].exec == exec then Some(TimedOut)
                     else CauseOf(s, exec)
    ensures a.TimeOut? && p.workers[w].Busy? && p.workers[w].exec == exec ==> CauseOf(s, exec).None?
  {
    if !a.Take? && !a.Leave? {
      EffectTimesOut(s, p, p.workers[w], a);
    }
  }

  ghost predicate TimedOutBefore(states: seq<State>, steps: seq<Step>, i: nat, exec: nat)
    requires i <= |steps| < |states|
  {
    exists k: nat :: SameProcess(steps, k, i) && TimesOut(states[k], steps[k], exec)
  }

  ghost predicate CanceledBefore(steps: seq<Step>, i: nat, exec: nat)
    requires i <= |steps|
  {
    exists k: nat :: SameProcess(steps, k, i) && Cancels(steps[k], exec)
  }

  lemma SameProcessNext(steps: seq<Step>, k: nat, i: nat)
    requires k < i < |steps|
    ensures SameProcess(steps, k, i + 1) <==> SameProcess(steps, k, i) && !steps[i].Crash?
  {}

  lemma TimedOutNext(states: seq<State>, steps: seq<Step>, i: nat, exec: nat)
    requires i < |steps| < |states|
    ensures TimedOutBefore(states, steps, i + 1, exec) <==>
              TimesOut(states[i], steps[i], exec) || (!steps[i].Crash? && TimedOutBefore(states, steps, i, exec))
  {
    if TimesOut(states[i], steps[i], exec) {
      assert SameProcess(steps, i, i + 1);
    }
    forall k: nat | k < i
      ensures SameProcess(steps, k, i + 1) <==> SameProcess(steps, k, i) && !steps[i].Crash?
    {
      SameProcessNext(steps, k, i);
    }
  }

  lemma CanceledNext(steps: seq<Step>, i: nat, exec: nat)
    requires i < |steps|
    ensures CanceledBefore(steps, i + 1, exec) <==>
              Cancels(steps[i], exec) || (!steps[i].Crash? && CanceledBefore(steps, i, exec))
  {
    if Cancels(steps[i], exec) {
      assert SameProcess(steps, i, i + 1);
    }
    forall k: nat | k < i
      ensures SameProcess(steps, k, i + 1) <==> SameProcess(steps, k, i) && !steps[i].Crash?
    {
      SameProcessNext(steps, k, i);
    }
  }

  lemma NoProcNoCause(s: State, st: Step, exec: nat)
    requires Next(s, st).Some? && (s.proc.None? || st.Crash?)
    ensures CauseOf(Next(s, st).value, exec).None? && !Cancels(st, exec) && !TimesOut(s, st, exec)
  {}

  /** A time limit passes only on a context that is not marked yet. */
  lemma TimeOutIsFirst(s: State, st: Step, exec: nat)
    requires s.proc.Some? && Next(s, st).Some? && TimesOut(s, st, exec)
    ensures CauseOf(s, exec).None? && !Cancels(st, exec)
  {}

  lemma CauseAt(states: seq<State>, steps: seq<Step>, n: nat, exec: nat)
    requires IsRun(states, steps) && n < |steps|
    ensures CauseOf(states[n + 1], exec) ==
              if steps[n].Crash? then None
              else if CauseOf(states[n], exec).Some? then CauseOf(states[n], exec)
              else if Cancels(steps[n], exec) then Some(CancelRequested)
              else if TimesOut(states[n], steps[n], exec) then Some(TimedOut)
              else None
    ensures TimesOut(states[n], steps[n], exec) ==> CauseOf(states[n], exec).None? && !Cancels(steps[n], exec)
    ensures steps[n].Crash? ==> !TimesOut(states[n], steps[n], exec) && !Cancels(steps[n], exec)
  {
    RunStep(states, steps, n);
    if states[n].proc.None? || steps[n].Crash? {
      NoProcNoCause(states[n], steps[n], exec);
    } else {
      CauseStep(states[n], steps[n], exec);
      if TimesOut(states[n], steps[n], exec) {
        TimeOutIsFirst(states[n], steps[n], exec);
      }
    }
  }

  /** The context of an execution is marked by what this process did first: the passing of its time
      limit, or a call of its cancel function. */
  lemma {:induction false} CauseHistory(states: seq<State>, steps: seq<Step>, i: nat, exec: nat)
    requires IsRun(states, steps) && i < |states|
    ensures CauseOf(states[i], exec) ==
              if TimedOutBefore(states, steps, i, exec) then Some(TimedOut)
              else if CanceledBefore(steps, i, exec) then Some(CancelRequested)
              else None
  {
    if i > 0 {
      CauseHistory(states, steps, i - 1, exec);
      TimedOutNext(states, steps, i - 1, exec);
      CanceledNext(steps, i - 1, exec);
      CauseAt(states, steps, i - 1, exec);
    }
  }

  /** What the error of a runner is taken for, in terms of what happened to its execution in this
      process: its time limit passed, a cancel or a shutdown came, or neither. */
  lemma ErrorIsTakenFor(states: seq<State>, steps: seq<Step>, i: nat, w: nat, text: string)
    requires IsRun(states, steps) && JobReports.Returns(states, steps, i, w, Erred(text))
    ensures var p := states[i].proc.value;
            var exec := p.workers[w].exec;
            JobReports.Called(states[i], w, Erred(text)).1 ==
              if TimedOutBefore(states, steps, i, exec) then (Failed, TIMEOUT_TEXT)
              else if CanceledBefore(steps, i, exec) || !p.live then (Canceled, "canceled")
              else (Failed, text)
  {
    CauseHistory(states, steps, i, states[i].proc.value.workers[w].exec);
  }

  // ---- The channel is first in, first out --------------------------------------------------

  predicate Takes(s: State, st: Step, id: JobId) {
    st.Work? && st.work.Take? && s.proc.Some? && s.proc.value.ch != [] && s.proc.value.ch[0] == id
  }

  ghost predicate Precedes(ch: seq<JobId>, a: JobId, b: JobId) {
    exists i, j :: 0 <= i < j < |ch| && ch[i] == a && ch[j] == b
  }

  /** A step takes the head, or adds at the end, or leaves the channel as it is. */
  lemma ChannelMoves(s: State, st: Step)
    requires s.proc.Some? && Next(s, st).Some? && !st.Crash?
    ensures Next(s, st).value.proc.Some?
    ensures var ch, ch' := s.proc.value.ch, Next(s, st).value.proc.value.ch;
            if st.Work? && st.work.Take? then ch != [] && ch' == ch[1..] else ch' == ch || exists id :: ch' == ch + [id]
  {
    var p := s.proc.value;
    match st {
      case Tick(_) =>
      case Startup(a) => StartupChannel(s, p, a);
      case Submit(id, a) => SubmitChannel(s, p, id, a);
      case Work(w, a) => WorkChannel(s, p, w, a);
      case Request(a) =>
    }
  }

  lemma StartupChannel(s: State, p: Proc, a: StartupAct)
    requires s.proc == Some(p) && StartupStep(s, p, a).Some?
    ensures var s' := StartupStep(s, p, a).value;
            s'.proc.Some? && (s'.proc.value.ch == p.ch || exists id :: s'.proc.value.ch == p.ch + [id])
  {
    match a {
      case Interrupt(ok) => InterruptShape(s, p, ok);
      case List(ok) => ListShape(s, p, ok);
      case ResumeOne => ResumeOneShape(s, p);
      case DropMark(ok) => DropMarkShape(s, p, ok);
      case DropRead(ok) => DropReadShape(s, p, ok);
      case DropSend => DropSendShape(s, p);
      case StartWorkers => StartWorkersShape(s, p);
    }
  }

  lemma SubmitChannel(s: State, p: Proc, sid: JobId, a: SubmitAct)
    requires s.proc == Some(p) && SubmitStep(s, p, sid, a).Some?
    ensures var s' := SubmitStep(s, p, sid, a).value;
            s'.proc.Some? && (s'.proc.value.ch == p.ch || s'.proc.value.ch == p.ch + [sid])
  {}

  lemma WorkChannel(s: State, p: Proc, w: nat, a: WorkerAct)
    requires s.proc == Some(p) && WorkStep(s, p, w, a).Some?
    ensures var s' := WorkStep(s, p, w, a).value;
            && s'.proc.Some? && (a.Take? ==> p.ch != [])
            && s'.proc.value.ch == if a.Take? then p.ch[1..] else p.ch
  {}

  lemma PrecedesShifts(ch: seq<JobId>, a: JobId, b: JobId)
    requires Precedes(ch, a, b) && ch[0] != a
    ensures Precedes(ch[1..], a, b)
  {
    var i, j :| 0 <= i < j < |ch| && ch[i] == a && ch[j] == b;
    assert ch[1..][i - 1] == a && ch[1..][j - 1] == b;
  }

  lemma PrecedesGrows(ch: seq<JobId>, x: JobId, a: JobId, b: JobId)
    requires Precedes(ch, a, b)
    ensures Precedes(ch + [x], a, b)
  {
    var i, j :| 0 <= i < j < |ch| && ch[i] == a && ch[j] == b;
    assert (ch + [x])[i] == a && (ch + [x])[j] == b;
  }

  lemma PrecedesStays(s: State, st: Step, a: JobId, b: JobId)
    requires s.proc.Some? && Next(s, st).Some? && !st.Crash? && Precedes(s.proc.value.ch, a, b) && !Takes(s, st, a)
    ensures Next(s, st).value.proc.Some? && Precedes(Next(s, st).value.proc.value.ch, a, b)
  {
    ChannelMoves(s, st);
    var ch := s.proc.value.ch;
    if st.Work? && st.work.Take? {
      PrecedesShifts(ch, a, b);
    } else if Next(s, st).value.proc.value.ch != ch {
      var id :| Next(s, st).value.proc.value.ch == ch + [id];
      PrecedesGrows(ch, id, a, b);
    }
  }

  lemma {:induction false} StaysAhead(states: seq<State>, steps: seq<Step>, i: nat, j: nat, a: JobId, b: JobId)
    requires IsRun(states, steps) && i <= j < |states| && states[i].proc.Some?
    requires Precedes(states[i].proc.value.ch, a, b)
    requires forall m :: i <= m < j ==> !steps[m].Crash? && !Takes(states[m], steps[m], a)
    ensures states[j].proc.Some? && Precedes(states[j].proc.value.ch, a, b)
    decreases j
  {
    if i < j {
      StaysAhead(states, steps, i, j - 1, a, b);
      RunStep(states, steps, j - 1);
      PrecedesStays(states[j - 1], steps[j - 1], a, b);
    }
  }

  /** Of two jobs in the channel the one that is ahead is received first. */
  lemma FirstInFirstOut(states: seq<State>, steps: seq<Step>, i: nat, j: nat, a: JobId, b: JobId)
    requires IsRun(states, steps) && i <= j < |steps| && states[i].proc.Some? && Precedes(states[i].proc.value.ch, a, b)
    requires Takes(states[j], steps[j], b) && forall m :: i <= m < j ==> !steps[m].Crash?
    ensures exists m :: i <= m < j && Takes(states[m], steps[m], a)
  {
    if forall m :: i <= m < j ==> !Takes(states[m], steps[m], a) {
      StaysAhead(states, steps, i, j, a, b);
      RunKeepsInv(states, steps, j);
    }
  }

  /** A job that a Submit sends goes behind all others, the resumed ones among them. */
  lemma NewGoesLast(s: State, id: JobId, a: JobId)
    requires s.proc.Some? && Next(s, Submit(id, Offer)).Some? && a in s.proc.value.ch
    ensures var s' := Next(s, Submit(id, Offer)).value;
            s'.proc.Some? && (s'.proc.value.ch == s.proc.value.ch || Precedes(s'.proc.value.ch, a, id))
  {
    var ch := s.proc.value.ch;
    var i :| 0 <= i < |ch| && ch[i] == a;
    SubmitChannel(s, s.proc.value, id, Offer);
    assert (ch + [id])[i] == a && (ch + [id])[|ch|] == id;
  }

  // ---- Columns -----------------------------------------------------------------------------

  /** Worker st.w, running job id, is at the point at. */
  predicate ActsAt(s: State, st: Step, id: JobId, at: Point) {
    st.Work? && s.proc.Some? && IsBusy(s.proc.value, st.w, id) && s.proc.value.workers[st.w].at == at
  }

  /** The step records a produced output for job id. */
  ghost predicate Records(s: State, st: Step, id: JobId, path: string, title: string, size: int) {
    ActsAt(s, st, id, AtRecord(path, title, size)) && st.work == Record
  }

  predicate Marks(s: State, st: Step, id: JobId) {
    ActsAt(s, st, id, AtMark) && st.work == Mark(true)
  }

  /** What no step changes. */
  predicate SameJob(r: Row, r': Row) {
    && r'.id == r.id && r'.kind == r.kind && r'.source == r.source && r'.params == r.params
    && r'.inputPath == r.inputPath && r'.createdAt == r.createdAt && r'.expiresAt == r.expiresAt
  }

  predicate SameOutput(r: Row, r': Row) {
    r'.title == r.title && r'.outputPath == r.outputPath && r'.outputSize == r.outputSize
  }

  ghost predicate ColumnsFollow(s: State, st: Step, r: Row, r': Row) {
    && SameJob(r, r')
    && (SameOutput(r, r') || exists path, title, size ::
          Records(s, st, r.id, path, title, size) && r'.outputPath == path && r'.outputSize == size
          && r'.title == if title == "" then r.title else title)
    && r'.startedAt == if Marks(s, st, r.id) then Some(s.now) else r.startedAt
  }

  lemma StepColumns(s: State, st: Step, id: JobId)
    requires Inv(s) && Next(s, st).Some? && id in s.table.rows && id in Next(s, st).value.table.rows
    ensures ColumnsFollow(s, st, s.table.rows[id], Next(s, st).value.table.rows[id])
  {
    var r, r' := s.table.rows[id], Next(s, st).value.table.rows[id];
    if st.Work? {
      WorkColumns(s, s.proc.value, st.w, st.work, id);
    } else {
      OtherStepColumns(s, st, id);
      AlikeFollows(s, st, r, r');
    }
  }

  lemma AlikeFollows(s: State, st: Step, r: Row, r': Row)
    requires Alike(r, r') && !st.Work?
    ensures ColumnsFollow(s, st, r, r')
  {}

  lemma OtherStepColumns(s: State, st: Step, id: JobId)
    requires Next(s, st).Some? && !st.Work? && id in s.table.rows && id in Next(s, st).value.table.rows
    ensures Alike(s.table.rows[id], Next(s, st).value.table.rows[id])
  {
    match st {
      case Tick(_) =>
      case Boot(_) =>
      case Crash =>
      case Startup(a) => StartupColumns(s, s.proc.value, a, id);
      case Submit(sid, a) => SubmitColumns(s, s.proc.value, sid, a, id);
      case Request(a) => RequestColumns(s, s.proc.value, a, id);
    }
  }

  lemma RequestColumns(s: State, p: Proc, a: RequestAct, id: JobId)
    requires RequestStep(s, p, a).Some? && id in s.table.rows && id in RequestStep(s, p, a).value.table.rows
    ensures RequestStep(s, p, a).value.table.rows[id] == s.table.rows[id]
  {}

  predicate Alike(r: Row, r': Row) {
    SameJob(r, r') && SameOutput(r, r') && r'.startedAt == r.startedAt
  }

  lemma Unmarked(t: Jobs, x: JobId, patch: Patch, id: JobId)
    requires id in t.rows && !patch.ToOutput? && (patch.ToStatus? ==> !patch.status.Running?)
    ensures id in Update(t, x, patch).rows && Alike(t.rows[id], Update(t, x, patch).rows[id])
  {}

  lemma StartupTable(s: State, p: Proc, a: StartupAct)
    requires StartupStep(s, p, a).Some?
    ensures var t' := StartupStep(s, p, a).value.table;
            || t' == s.table || t' == FailInterrupted(s.table, s.now)
            || (p.mode.Dropping? && t' == Update(s.table, p.mode.id, ToStatus(Failed, QUEUE_FULL, s.now)))
  {}

  lemma StartupColumns(s: State, p: Proc, a: StartupAct, id: JobId)
    requires StartupStep(s, p, a).Some? && id in s.table.rows && id in StartupStep(s, p, a).value.table.rows
    ensures Alike(s.table.rows[id], StartupStep(s, p, a).value.table.rows[id])
  {
    StartupTable(s, p, a);
    if p.mode.Dropping? {
      Unmarked(s.table, p.mode.id, ToStatus(Failed, QUEUE_FULL, s.now), id);
    }
  }

  lemma SubmitTable(s: State, p: Proc, sid: JobId, a: SubmitAct)
    requires SubmitStep(s, p, sid, a).Some?
    ensures var t' := SubmitStep(s, p, sid, a).value.table;
            if a.Create? then sid !in s.table.rows && t' == Insert(s.table, NewRow(a.row, sid, s.now))
            else t' == s.table || t' == Update(s.table, sid, ToStatus(Failed, QUEUE_FULL, s.now))
  {}

  lemma SubmitColumns(s: State, p: Proc, sid: JobId, a: SubmitAct, id: JobId)
    requires SubmitStep(s, p, sid, a).Some? && id in s.table.rows && id in SubmitStep(s, p, sid, a).value.table.rows
    ensures Alike(s.table.rows[id], SubmitStep(s, p, sid, a).value.table.rows[id])
  {
    SubmitTable(s, p, sid, a);
    Unmarked(s.table, sid, ToStatus(Failed, QUEUE_FULL, s.now), id);
  }

  /** Marking writes the start time, recording the output, and nothing else does either. */
  lemma EffectWrites(s: State, p: Proc, b: Worker, a: WorkerAct)
    requires b.Busy? && EffectOf(s, p, b.id, b.exec, b.at, a).Some? && (b.at.AtClose? ==> b.at.status.Terminal())
    ensures var write := EffectOf(s, p, b.id, b.exec, b.at, a).value.write;
            if b.at.AtMark? && a == Mark(true) then write == Some(ToStatus(Running, "", s.now))
            else if b.at.AtRecord? && a.Record? then write == Some(ToOutput(b.at.path, b.at.size, b.at.title, s.now))
            else write.Some? ==> !write.value.ToOutput? && (write.value.ToStatus? ==> write.value.status.Terminal())
  {}

  lemma CloseEnds(s: State, p: Proc, w: nat)
    requires Inv(s) && s.proc == Some(p) && w in p.workers && p.workers[w].Busy? && p.workers[w].at.AtClose?
    ensures p.workers[w].at.status.Terminal()
  {
    assert WorkerStatus(s.table, p.workers[w].id, p.workers[w].at, p.live);
  }

  /** A worker's step writes to its own row only. */
  lemma WorkTable(s: State, p: Proc, w: nat, a: WorkerAct)
    requires WorkStep(s, p, w, a).Some?
    ensures w in p.workers
    ensures var t' := WorkStep(s, p, w, a).value.table;
            if p.workers[w].Busy? && !a.Take? && !a.Leave? then
              var b := p.workers[w];
              var e := EffectOf(s, p, b.id, b.exec, b.at, a);
              e.Some? && t' == Written(s.table, b.id, e.value.write)
            else t' == s.table
  {}

  lemma WorkColumns(s: State, p: Proc, w: nat, a: WorkerAct, id: JobId)
    requires Inv(s) && s.proc == Some(p) && WorkStep(s, p, w, a).Some?
    requires id in s.table.rows && id in WorkStep(s, p, w, a).value.table.rows
    ensures ColumnsFollow(s, Work(w, a), s.table.rows[id], WorkStep(s, p, w, a).value.table.rows[id])
  {
    WorkTable(s, p, w, a);
    var b := p.workers[w];
    if b.Busy? && !a.Take? && !a.Leave? && b.id == id {
      if b.at.AtClose? {
        CloseEnds(s, p, w);
      }
      EffectWrites(s, p, b, a);
      OwnColumns(s, p, w, a, EffectOf(s, p, id, b.exec, b.at, a).value.write);
    } else {
      OtherColumns(s, Work(w, a), s.table.rows[id]);
    }
  }

  lemma OtherColumns(s: State, st: Step, r: Row)
    requires st.Work? && (s.proc.None? || !IsBusy(s.proc.value, st.w, r.id) || st.work.Take? || st.work.Leave?)
    ensures ColumnsFollow(s, st, r, r)
  {}

  lemma OwnColumns(s: State, p: Proc, w: nat, a: WorkerAct, write: Option<Patch>)
    requires s.proc == Some(p) && w in p.workers && p.workers[w].Busy?
    requires var id := p.workers[w].id; id in s.table.rows && s.table.rows[id].id == id
    requires var b := p.workers[w];
             if b.at.AtMark? && a == Mark(true) then write == Some(ToStatus(Running, "", s.now))
             else if b.at.AtRecord? && a.Record? then write == Some(ToOutput(b.at.path, b.at.size, b.at.title, s.now))
             else write.Some? ==> !write.value.ToOutput? && (write.value.ToStatus? ==> write.value.status.Terminal())
    ensures var id := p.workers[w].id;
            && id in Written(s.table, id, write).rows
            && ColumnsFollow(s, Work(w, a), s.table.rows[id], Written(s.table, id, write).rows[id])
  {
    var b := p.workers[w];
    var r := s.table.rows[b.id];
    if b.at.AtMark? && a == Mark(true) {
      MarkFollows(s, w, r);
    } else if b.at.AtRecord? && a.Record? {
      RecordFollows(s, w, r, b.at.path, b.at.title, b.at.size);
    } else if write.Some? {
      OtherFollows(s, Work(w, a), r, write.value);
    }
  }

  lemma MarkFollows(s: State, w: nat, r: Row)
    requires ActsAt(s, Work(w, Mark(true)), r.id, AtMark)
    ensures ColumnsFollow(s, Work(w, Mark(true)), r, Apply(r, ToStatus(Running, "", s.now)))
  {}

  lemma RecordFollows(s: State, w: nat, r: Row, path: string, title: string, size: int)
    requires ActsAt(s, Work(w, Record), r.id, AtRecord(path, title, size))
    ensures ColumnsFollow(s, Work(w, Record), r, Apply(r, ToOutput(path, size, title, s.now)))
  {
    assert Records(s, Work(w, Record), r.id, path, title, size);
  }

  lemma OtherFollows(s: State, st: Step, r: Row, patch: Patch)
    requires !Marks(s, st, r.id) && !patch.ToOutput? && (patch.ToStatus? ==> patch.status.Terminal())
    ensures ColumnsFollow(s, st, r, Apply(r, patch))
  {}

  ghost predicate NeverTitled(states: seq<State>, steps: seq<Step>, i: nat, j: nat, id: JobId)
    requires j <= |steps| < |states|
  {
    forall k, path, title, size :: i <= k < j && Records(states[k], steps[k], id, path, title, size) ==> title == ""
  }

  lemma TitleAt(states: seq<State>, steps: seq<Step>, n: nat, id: JobId)
    requires IsRun(states, steps) && n < |steps| && id in states[n].table.rows && id in states[n + 1].table.rows
    requires forall path, title, size :: Records(states[n], steps[n], id, path, title, size) ==> title == ""
    ensures states[n + 1].table.rows[id].title == states[n].table.rows[id].title
  {
    RunKeepsInv(states, steps, n);
    RunStep(states, steps, n);
    StepColumns(states[n], steps[n], id);
  }

  lemma {:induction false} UsedStays(states: seq<State>, steps: seq<Step>, i: nat, j: nat, id: JobId)
    requires IsRun(states, steps) && i <= j < |states| && id in states[i].used
    ensures id in states[j].used
    decreases j
  {
    if i < j {
      UsedStays(states, steps, i, j - 1, id);
      RunKeepsInv(states, steps, j - 1);
      RunStep(states, steps, j - 1);
      StepFlows(states[j - 1], steps[j - 1], id);
    }
  }

  lemma ThereBefore(states: seq<State>, steps: seq<Step>, n: nat, id: JobId)
    requires IsRun(states, steps) && n < |steps| && id in states[n].used && id in states[n + 1].table.rows
    ensures id in states[n].table.rows
  {
    RunKeepsInv(states, steps, n);
    RunStep(states, steps, n);
    StepFlows(states[n], steps[n], id);
  }

  /** A job keeps its title as long as no runner gives it one. */
  lemma {:induction false} TitleStays(states: seq<State>, steps: seq<Step>, i: nat, j: nat, id: JobId)
    requires IsRun(states, steps) && i <= j < |states| && NeverTitled(states, steps, i, j, id)
    requires id in states[i].used && id in states[j].table.rows
    ensures id in states[i].table.rows && states[j].table.rows[id].title == states[i].table.rows[id].title
    decreases j
  {
    if i < j {
      UsedStays(states, steps, i, j - 1, id);
      ThereBefore(states, steps, j - 1, id);
      TitleStays(states, steps, i, j - 1, id);
      TitleAt(states, steps, j - 1, id);
    }
  }

  lemma CreateRow(s: State, id: JobId, draft: Row)
    requires Next(s, Submit(id, Create(draft))).Some?
    ensures var s' := Next(s, Submit(id, Create(draft))).value;
            id in s'.used && id in s'.table.rows && s'.table.rows[id].title == draft.title
  {}

  /** So a job whose runner gave no title ends with the one it was submitted with. */
  lemma SubmittedTitleStays(states: seq<State>, steps: seq<Step>, c: nat, j: nat, id: JobId, draft: Row)
    requires IsRun(states, steps) && c < j < |states| && steps[c] == Submit(id, Create(draft))
    requires NeverTitled(states, steps, c + 1, j, id) && id in states[j].table.rows
    ensures states[j].table.rows[id].title == draft.title
  {
    RunStep(states, steps, c);
    CreateRow(states[c], id, draft);
    TitleStays(states, steps, c + 1, j, id);
  }

  // ---- Why a job ends ----------------------------------------------------------------------

  /** A worker that refuses a job has no runner for it; Resume drops a job when the channel is full. */
  ghost predicate HasReason(s: State) {
    s.proc.Some? ==>
      var p := s.proc.value;
      && (forall w :: w in p.workers && p.workers[w].Busy? ==> Refusable(s.table, p, p.workers[w]))
      && (p.mode.Dropping? ==> |p.ch| >= p.cfg.depth)
  }

  predicate Refusable(t: Jobs, p: Proc, b: Worker)
    requires b.Busy?
  {
    b.at.AtRefuse? && b.id in t.rows ==> t.rows[b.id].kind !in p.cfg.runners
  }

  lemma SubmitLeavesWorkers(s: State, p: Proc, id: JobId, a: SubmitAct)
    requires s.proc == Some(p) && SubmitStep(s, p, id, a).Some?
    ensures SubmitStep(s, p, id, a).value.proc.Some?
    ensures var p' := SubmitStep(s, p, id, a).value.proc.value;
            p'.workers == p.workers && p'.cfg == p.cfg && p'.mode == p.mode
  {}

  lemma RequestLeavesWorkers(s: State, p: Proc, a: RequestAct)
    requires s.proc == Some(p) && RequestStep(s, p, a).Some?
    ensures RequestStep(s, p, a).value.proc.Some?
    ensures var p' := RequestStep(s, p, a).value.proc.value;
            p'.workers == p.workers && p'.cfg == p.cfg && p'.mode == p.mode
  {}

  lemma WorkLeavesOthers(s: State, p: Proc, v: nat, a: WorkerAct)
    requires s.proc == Some(p) && WorkStep(s, p, v, a).Some?
    ensures WorkStep(s, p, v, a).value.proc.Some?
    ensures var p' := WorkStep(s, p, v, a).value.proc.value;
            && p'.workers.Keys == p.workers.Keys && p'.cfg == p.cfg && p'.mode == p.mode
            && forall w :: w in p.workers && w != v ==> p'.workers[w] == p.workers[w]
  {}

  /** A serving process stays one, and no worker moves by another's step. */
  lemma ServingStays(s: State, st: Step)
    requires Next(s, st).Some? && s.proc.Some? && s.proc.value.mode.Up? && !st.Crash?
    ensures Next(s, st).value.proc.Some?
    ensures var p, p' := s.proc.value, Next(s, st).value.proc.value;
            && p'.workers.Keys == p.workers.Keys && p'.cfg == p.cfg && p'.mode == p.mode
            && forall w :: w in p.workers && !(st.Work? && st.w == w) ==> p'.workers[w] == p.workers[w]
  {
    match st {
      case Tick(_) =>
      case Startup(a) => StartupIsOver(s, s.proc.value, a);
      case Submit(id, a) => SubmitLeavesWorkers(s, s.proc.value, id, a);
      case Work(w, a) => WorkLeavesOthers(s, s.proc.value, w, a);
      case Request(a) => RequestLeavesWorkers(s, s.proc.value, a);
    }
  }

  lemma EffectRefuses(s: State, p: Proc, b: Worker, a: WorkerAct)
    requires b.Busy? && Refusable(s.table, p, b) && EffectOf(s, p, b.id, b.exec, b.at, a).Some?
    ensures var e := EffectOf(s, p, b.id, b.exec, b.at, a).value;
            e.next == Some(AtRefuse) ==>
                e.write.None? && (b.id in s.table.rows ==> s.table.rows[b.id].kind !in p.cfg.runners)
  {}

  lemma OwnRefusal(s: State, p: Proc, w: nat, a: WorkerAct)
    requires s.proc == Some(p) && WorkStep(s, p, w, a).Some?
    requires p.workers[w].Busy? ==> Refusable(s.table, p, p.workers[w])
    ensures var s' := WorkStep(s, p, w, a).value;
            && s'.proc.Some? && w in s'.proc.value.workers
            && (s'.proc.value.workers[w].Busy? ==> Refusable(s'.table, s'.proc.value, s'.proc.value.workers[w]))
  {
    if !a.Take? && !a.Leave? {
      EffectRefuses(s, p, p.workers[w], a);
    }
  }

  lemma RefusalStays(s: State, st: Step, w: nat)
    requires Inv(s) && HasReason(s) && Next(s, st).Some? && s.proc.Some? && !st.Crash? && s.proc.value.mode.Up?
    requires Next(s, st).value.proc.Some? && w in Next(s, st).value.proc.value.workers
    requires Next(s, st).value.proc.value.workers[w].Busy?
    ensures Refusable(Next(s, st).value.table, Next(s, st).value.proc.value, Next(s, st).value.proc.value.workers[w])
  {
    var p := s.proc.value;
    ServingStays(s, st);
    if st.Work? && st.w == w {
      OwnRefusal(s, p, w, st.work);
    } else {
      OthersLeaveAlone(s, st, w, p.workers[w].id);
    }
  }

  lemma StartingHasReason(s: State, st: Step)
    requires Inv(s) && HasReason(s) && Next(s, st).Some? && (s.proc.Some? ==> !s.proc.value.mode.Up?)
    ensures HasReason(Next(s, st).value)
  {
    if s.proc.Some? && st.Startup? {
      StartupHasReason(s, s.proc.value, st.startup);
    }
  }

  lemma StartupHasReason(s: State, p: Proc, a: StartupAct)
    requires s.proc == Some(p) && p.workers == map[] && StartupStep(s, p, a).Some?
    ensures HasReason(StartupStep(s, p, a).value)
  {
    match a {
      case Interrupt(ok) => InterruptShape(s, p, ok);
      case List(ok) => ListShape(s, p, ok);
      case ResumeOne => ResumeOneShape(s, p);
      case DropMark(ok) => DropMarkShape(s, p, ok);
      case DropRead(ok) => DropReadShape(s, p, ok);
      case DropSend => DropSendShape(s, p);
      case StartWorkers => StartWorkersShape(s, p);
    }
  }

  lemma StepHasReason(s: State, st: Step)
    requires Inv(s) && HasReason(s) && Next(s, st).Some?
    ensures HasReason(Next(s, st).value)
  {
    if s.proc.Some? && s.proc.value.mode.Up? {
      if !st.Crash? {
        ServingStays(s, st);
        forall w | w in Next(s, st).value.proc.value.workers && Next(s, st).value.proc.value.workers[w].Busy?
          ensures Refusable(Next(s, st).value.table, Next(s, st).value.proc.value,
                            Next(s, st).value.proc.value.workers[w])
        {
          RefusalStays(s, st, w);
        }
      }
    } else {
      StartingHasReason(s, st);
    }
  }

  lemma {:induction false} RunHasReason(states: seq<State>, steps: seq<Step>, i: nat)
    requires IsRun(states, steps) && i < |states|
    ensures HasReason(states[i])
  {
    if i > 0 {
      RunHasReason(states, steps, i - 1);
      RunKeepsInv(states, steps, i - 1);
      RunStep(states, steps, i - 1);
      StepHasReason(states[i - 1], steps[i - 1]);
    }
  }

  predicate Becomes(r: Row, status: Status, error: string) {
    r.status == status && r.error == error
  }

  /** The ways in which a job can end, each with its text. */
  ghost predicate EndsBy(s: State, st: Step, r: Row, r': Row) {
    || (st == Startup(Interrupt(true)) && r.status.Running? && Becomes(r', Failed, INTERRUPTED))
    || (st == Startup(DropMark(true)) && s.proc.Some? && |s.proc.value.ch| >= s.proc.value.cfg.depth
        && Becomes(r', Failed, QUEUE_FULL))
    || (st == Submit(r.id, Reject(true)) && r.status.Queued? && Becomes(r', Failed, QUEUE_FULL))
    || (ActsAt(s, st, r.id, AtRefuse) && st.work == Refuse(true) && r.kind !in s.proc.value.cfg.runners
        && Becomes(r', Failed, NO_RUNNER_TEXT))
    || (exists status, error ::
          ActsAt(s, st, r.id, AtClose(status, error)) && st.work == Close && Becomes(r', status, error))
  }

  predicate Ends(r: Row, r': Row) {
    !r.status.Terminal() && r'.status.Terminal()
  }

  lemma WorkEnds(s: State, p: Proc, w: nat, a: WorkerAct, id: JobId)
    requires Inv(s) && HasReason(s) && s.proc == Some(p) && WorkStep(s, p, w, a).Some?
    requires id in s.table.rows && id in WorkStep(s, p, w, a).value.table.rows
    requires Ends(s.table.rows[id], WorkStep(s, p, w, a).value.table.rows[id])
    ensures EndsBy(s, Work(w, a), s.table.rows[id], WorkStep(s, p, w, a).value.table.rows[id])
  {
    WorkTable(s, p, w, a);
    var b := p.workers[w];
    assert Refusable(s.table, p, b);
    EffectEnds(s, p, b, a);
    if b.at.AtClose? {
      assert ActsAt(s, Work(w, a), id, AtClose(b.at.status, b.at.error));
    }
  }

  lemma EffectEnds(s: State, p: Proc, b: Worker, a: WorkerAct)
    requires b.Busy? && EffectOf(s, p, b.id, b.exec, b.at, a).Some?
    ensures var write := EffectOf(s, p, b.id, b.exec, b.at, a).value.write;
            write.Some? && write.value.ToStatus? && write.value.status.Terminal() ==>
              || (b.at.AtRefuse? && a == Refuse(true) && write == Some(ToStatus(Failed, NO_RUNNER_TEXT, s.now)))
              || (b.at.AtClose? && a == Close && write == Some(ToStatus(b.at.status, b.at.error, s.now)))
  {}

  lemma StartupWrites(s: State, p: Proc, a: StartupAct)
    requires StartupStep(s, p, a).Some?
    ensures StartupStep(s, p, a).value.table ==
              if a == Interrupt(true) then FailInterrupted(s.table, s.now)
              else if a == DropMark(true) && p.mode.Dropping? then
                Update(s.table, p.mode.id, ToStatus(Failed, QUEUE_FULL, s.now))
              else s.table
  {}

  lemma StartupEnds(s: State, p: Proc, a: StartupAct, id: JobId)
    requires HasReason(s) && s.proc == Some(p) && StartupStep(s, p, a).Some?
    requires id in s.table.rows && id in StartupStep(s, p, a).value.table.rows
    requires Ends(s.table.rows[id], StartupStep(s, p, a).value.table.rows[id])
    ensures EndsBy(s, Startup(a), s.table.rows[id], StartupStep(s, p, a).value.table.rows[id])
  {
    StartupWrites(s, p, a);
  }

  lemma SubmitWrites(s: State, p: Proc, sid: JobId, a: SubmitAct)
    requires SubmitStep(s, p, sid, a).Some? && !a.Create?
    ensures StatusOfSubmit(p, sid, a)
    ensures SubmitStep(s, p, sid, a).value.table ==
              if a == Reject(true) then Update(s.table, sid, ToStatus(Failed, QUEUE_FULL, s.now)) else s.table
  {}

  predicate StatusOfSubmit(p: Proc, sid: JobId, a: SubmitAct) {
    sid in p.submits && (a.Reject? ==> p.submits[sid].AtReject?)
  }

  lemma SubmitEnds(s: State, p: Proc, sid: JobId, a: SubmitAct, id: JobId)
    requires Inv(s) && s.proc == Some(p) && SubmitStep(s, p, sid, a).Some?
    requires id in s.table.rows && id in SubmitStep(s, p, sid, a).value.table.rows
    requires Ends(s.table.rows[id], SubmitStep(s, p, sid, a).value.table.rows[id])
    ensures EndsBy(s, Submit(sid, a), s.table.rows[id], SubmitStep(s, p, sid, a).value.table.rows[id])
  {
    if a.Create? {
      SubmitTable(s, p, sid, a);
    } else {
      SubmitWrites(s, p, sid, a);
      assert SubmitStatus(s.table, sid, p.submits[sid]);
    }
  }

  /** Every job that ends at a step of a run ends for one of these reasons. */
  lemma EndsForAReason(states: seq<State>, steps: seq<Step>, n: nat, id: JobId)
    requires IsRun(states, steps) && n < |steps| && id in states[n].table.rows && id in states[n + 1].table.rows
    requires Ends(states[n].table.rows[id], states[n + 1].table.rows[id])
    ensures EndsBy(states[n], steps[n], states[n].table.rows[id], states[n + 1].table.rows[id])
  {
    RunKeepsInv(states, steps, n);
    RunHasReason(states, steps, n);
    RunStep(states, steps, n);
    StepEnds(states[n], steps[n], id);
  }

  lemma StepEnds(s: State, st: Step, id: JobId)
    requires Inv(s) && HasReason(s) && Next(s, st).Some? && id in s.table.rows && id in Next(s, st).value.table.rows
    requires Ends(s.table.rows[id], Next(s, st).value.table.rows[id])
    ensures EndsBy(s, st, s.table.rows[id], Next(s, st).value.table.rows[id])
  {
    match st {
      case Startup(a) => StartupEnds(s, s.proc.value, a, id);
      case Submit(sid, a) => SubmitEnds(s, s.proc.value, sid, a, id);
      case Work(w, a) => WorkEnds(s, s.proc.value, w, a, id);
      case Request(a) => RequestColumns(s, s.proc.value, a, id);
      case _ =>
    }
  }
}
