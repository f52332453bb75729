/** ffmpeg's progress reports as percentages, in one run and over the two passes of a size target. */
module EncodeProgress {
  import opened Common

  function Clamp(p: real): real {
    if p < 0.0 then 0.0 else if p > 100.0 then 100.0 else p
  }

  /** What a key=value line comes to. */
  datatype Note = Time(us: real) | Speed(v: string) | Block(end: bool) | Other

  datatype Meter = Meter(duration: real, stage: string, base: real, span: real, outUs: real, speed: string,
                         haveTime: bool)

  /** percent is -1 when unknown. */
  datatype Update = Update(percent: real, stage: string, speed: string)

  /** A span of 0 means the whole bar. */
  function Width(m: Meter): real {
    if m.span <= 0.0 then 100.0 else m.span
  }

  function Scale(m: Meter, frac: real): real {
    Clamp(m.base + frac * Width(m))
  }

  function Known(m: Meter): real {
    if m.duration > 0.0 && m.haveTime then Scale(m, m.outUs / (m.duration * 1_000_000.0)) else -1.0
  }

  function Take(m: Meter, n: Note): Meter {
    match n
    case Time(us) => m.(outUs := us, haveTime := true)
    case Speed(v) => m.(speed := v)
    case _ => m
  }

  function Reported(m: Meter, n: Note): Option<Update> {
    if n.Block? then Some(Update(if n.end then Scale(m, 1.0) else Known(m), m.stage, m.speed)) else None
  }

  // ---- The line reader ---------------------------------------------------------------------

  predicate Blank(c: char) {
    c == ' ' || c == '\t' || c == '\n' || c == '\r'
  }

  function TrimSpace(s: string): string {
    if s == "" then s
    else if Blank(s[0]) then TrimSpace(s[1..])
    else if Blank(s[|s| - 1]) then TrimSpace(s[..|s| - 1])
    else s
  }

  /** Around the first '='. */
  function Cut(s: string): Option<(string, string)> {
    if s == "" then None
    else if s[0] == '=' then Some(("", s[1..]))
    else
      var rest := Cut(s[1..]);
      if rest.None? then None else Some(([s[0]] + rest.value.0, rest.value.1))
  }

  /** number: ParseFloat. */
  function NoteOf(line: string, number: string -> Option<real>): Note {
    var kv := Cut(TrimSpace(line));
    if kv.None? then Other
    else
      var k, v := TrimSpace(kv.value.0), TrimSpace(kv.value.1);
      // out_time_ms is in microseconds too
      if k == "out_time_us" || k == "out_time_ms" then
        if v != "N/A" && number(v).Some? && number(v).value >= 0.0 then Time(number(v).value) else Other
      else if k == "speed" then if v != "N/A" && v != "0x" then Speed(v) else Other
      else if k == "progress" then Block(v == "end")
      else Other
  }

  class FfProgress {
    const duration: real
    const stage: string
    const base: real
    const span: real
    const number: string -> Option<real>
    var outUs: real
    var speed: string
    var haveTime: bool

    ghost function State(): Meter
      reads this
    {
      Meter(duration, stage, base, span, outUs, speed, haveTime)
    }

    constructor (duration: real, stage: string, base: real, span: real, number: string -> Option<real>)
      ensures State() == Meter(duration, stage, base, span, 0.0, "", false) && this.number == number
    {
      this.duration, this.stage, this.base, this.span, this.number := duration, stage, base, span, number;
      outUs, speed, haveTime := 0.0, "", false;
    }

    method ScaleTo(frac: real) returns (p: real)
      ensures p == Scale(State(), frac)
    {
      var width := span;
      if width <= 0.0 {
        width := 100.0;
      }
      p := Clamp(base + frac * width);
    }

    method Line(s: string) returns (u: Option<Update>)
      modifies this
      ensures State() == Take(old(State()), NoteOf(s, number))
      ensures u == Reported(old(State()), NoteOf(s, number))
    {
      u := None;
      var kv := Cut(TrimSpace(s));
      if kv.None? {
        return;
      }
      var k, v := TrimSpace(kv.value.0), TrimSpace(kv.value.1);
      if k == "out_time_us" || k == "out_time_ms" {
        if v != "N/A" {
          var n := number(v);
          if n.Some? && n.value >= 0.0 {
            outUs, haveTime := n.value, true;
          }
        }
      } else if k == "speed" {
        if v != "N/A" && v != "0x" {
          speed := v;
        }
      } else if k == "progress" {
        var percent := -1.0;
        if v == "end" {
          percent := ScaleTo(1.0);
        } else if duration > 0.0 && haveTime {
          percent := ScaleTo(outUs / (duration * 1_000_000.0));
        }
        u := Some(Update(percent, stage, speed));
      }
    }
  }

  predicate Tight(s: string) {
    s != "" ==> !Blank(s[0]) && !Blank(s[|s| - 1])
  }

  lemma {:induction false} CutAt(k: string, v: string)
    requires '=' !in k
    ensures Cut(k + "=" + v) == Some((k, v))
  {
    if k == "" {
      assert k + "=" + v == "=" + v;
    } else {
      CutAt(k[1..], v);
      assert (k + "=" + v)[1..] == k[1..] + "=" + v;
      assert [k[0]] + k[1..] == k;
    }
  }

  lemma PairRead(k: string, v: string)
    requires k != "" && Tight(k) && Tight(v) && '=' !in k
    ensures Cut(TrimSpace(k + "=" + v)) == Some((k, v)) && TrimSpace(k) == k && TrimSpace(v) == v
  {
    var s := k + "=" + v;
    assert s[0] == k[0] && s[|s| - 1] == if v == "" then '=' else v[|v| - 1];
    CutAt(k, v);
  }

  /** What each line of a report says. */
  lemma LineMeaning(k: string, v: string, number: string -> Option<real>)
    requires k != "" && Tight(k) && Tight(v) && '=' !in k
    ensures var n := NoteOf(k + "=" + v, number);
            && (k == "progress" ==> n == Block(v == "end"))
            && (k == "speed" ==> n == if v == "N/A" || v == "0x" then Other else Speed(v))
            && (k in ["out_time_us", "out_time_ms"] ==>
                  n == if v == "N/A" || number(v).None? || number(v).value < 0.0 then Other else Time(number(v).value))
            && (k !in ["progress", "speed", "out_time_us", "out_time_ms"] ==> n == Other)
  {
    PairRead(k, v);
  }

  // ---- One run -----------------------------------------------------------------------------

  /** The known percentages a run of notes emits. */
  function Percents(m: Meter, notes: seq<Note>): seq<real>
    decreases |notes|
  {
    if notes == [] then []
    else
      var u := Reported(m, notes[0]);
      var rest := Percents(Take(m, notes[0]), notes[1..]);
      if u.Some? && u.value.percent >= 0.0 then [u.value.percent] + rest else rest
  }

  predicate Quiet(notes: seq<Note>) {
    forall i :: 0 <= i < |notes| ==> !notes[i].Block?
  }

  /** Times never fall, stay within limit, and nothing is reported after the end. */
  predicate Paced(notes: seq<Note>, from: real, limit: real) {
    if notes == [] then true
    else
      match notes[0]
      case Time(us) => from <= us <= limit && Paced(notes[1..], us, limit)
      case Block(end) => (end ==> Quiet(notes[1..])) && Paced(notes[1..], from, limit)
      case _ => Paced(notes[1..], from, limit)
  }

  /** Never falling, from lo to hi. */
  predicate Rising(ps: seq<real>, lo: real, hi: real) {
    if ps == [] then true else lo <= ps[0] <= hi && Rising(ps[1..], ps[0], hi)
  }

  lemma {:induction false} RisingFrom(ps: seq<real>, lo: real, lo': real, hi: real)
    requires Rising(ps, lo, hi) && lo' <= lo
    ensures Rising(ps, lo', hi)
  {}

  lemma RisingCons(p: real, ps: seq<real>, lo: real, hi: real)
    requires lo <= p <= hi && Rising(ps, p, hi)
    ensures Rising([p] + ps, lo, hi)
  {
    assert ([p] + ps)[1..] == ps;
  }

  lemma {:induction false} RisingConcat(a: seq<real>, b: seq<real>, lo: real, mid: real, hi: real)
    requires Rising(a, lo, mid) && Rising(b, mid, hi) && lo <= mid <= hi
    ensures Rising(a + b, lo, hi)
  {
    if a == [] {
      assert a + b == b;
      RisingFrom(b, mid, lo, hi);
    } else {
      RisingConcat(a[1..], b, a[0], mid, hi);
      assert (a + b)[1..] == a[1..] + b;
    }
  }

  lemma {:induction false} RisingMeaning(ps: seq<real>, lo: real, hi: real, i: nat, j: nat)
    requires Rising(ps, lo, hi) && i <= j < |ps|
    ensures lo <= ps[i] <= ps[j] <= hi
  {
    if i > 0 {
      RisingMeaning(ps[1..], ps[0], hi, i - 1, j - 1);
    } else if j > 0 {
      RisingMeaning(ps[1..], ps[0], hi, j - 1, j - 1);
    }
  }

  predicate OnBar(m: Meter) {
    0.0 <= m.base && m.base + Width(m) <= 100.0 && 0.0 <= m.outUs
  }

  function Limit(m: Meter): real {
    m.duration * 1_000_000.0
  }

  /** Where the bar stands. */
  function Position(m: Meter): real {
    if m.haveTime && m.duration > 0.0 then Known(m) else m.base
  }

  lemma Products(a: real, b: real, c: real) returns (x: real, y: real)
    requires 0.0 <= a <= b <= 1.0 && c >= 0.0
    ensures x == a * c && y == b * c && 0.0 <= x <= y <= c
  {
    x, y := a * c, b * c;
  }

  lemma Quotients(a: real, b: real, c: real) returns (x: real, y: real)
    requires 0.0 <= a <= b <= c && c > 0.0
    ensures x == a / c && y == b / c && 0.0 <= x <= y <= 1.0
  {
    x, y := a / c, b / c;
  }

  lemma ScaleWithin(m: Meter, frac: real, part: real)
    requires OnBar(m) && part == frac * Width(m) && 0.0 <= part <= Width(m)
    ensures Scale(m, frac) == m.base + part
  {}

  lemma ScaleRises(m: Meter, us: real, us': real)
    requires OnBar(m) && m.duration > 0.0 && 0.0 <= us <= us' <= Limit(m)
    ensures m.base <= Scale(m, us / Limit(m)) <= Scale(m, us' / Limit(m)) <= m.base + Width(m)
  {
    var a, b := Quotients(us, us', Limit(m));
    FractionsRise(m, a, b);
  }

  lemma FractionsRise(m: Meter, a: real, b: real)
    requires OnBar(m) && 0.0 <= a <= b <= 1.0
    ensures m.base <= Scale(m, a) <= Scale(m, b) <= m.base + Width(m)
  {
    var x, y := Products(a, b, Width(m));
    ScaleWithin(m, a, x);
    ScaleWithin(m, b, y);
  }

  lemma {:induction false} QuietSaysNothing(m: Meter, notes: seq<Note>)
    requires Quiet(notes)
    ensures Percents(m, notes) == []
    decreases |notes|
  {
    if notes != [] {
      assert !notes[0].Block?;
      QuietSaysNothing(Take(m, notes[0]), notes[1..]);
    }
  }

  /** The clock of a run on its part of the bar. */
  predicate OnTime(m: Meter) {
    OnBar(m) && m.duration > 0.0 && (m.haveTime ==> m.outUs <= Limit(m))
  }

  function LastTime(m: Meter): real {
    if m.haveTime then m.outUs else 0.0
  }

  lemma PositionInSpan(m: Meter)
    requires OnTime(m)
    ensures m.base <= Position(m) <= m.base + Width(m) && Scale(m, 1.0) == m.base + Width(m)
  {
    if m.haveTime {
      ScaleRises(m, m.outUs, m.outUs);
    }
  }

  /** In between, the bar stands at the share of the file that is done; at the end, at the end of
      its part. */
  lemma ReportMeaning(m: Meter, end: bool, share: real)
    requires OnTime(m) && m.span > 0.0 && share == m.outUs / (m.duration * 1_000_000.0)
    ensures var u := Reported(m, Block(end));
            && u.Some? && u.value.stage == m.stage && u.value.speed == m.speed
            && u.value.percent ==
                 if end then m.base + m.span else if m.haveTime then m.base + share * m.span else -1.0
  {
    PositionInSpan(m);
    if m.haveTime {
      var a, b := Quotients(m.outUs, m.outUs, Limit(m));
      var x, y := Products(share, share, m.span);
      ScaleWithin(m, share, x);
    }
  }

  lemma TimeRaises(m: Meter, us: real)
    requires OnTime(m) && LastTime(m) <= us <= Limit(m)
    ensures OnTime(Take(m, Time(us))) && Position(m) <= Position(Take(m, Time(us)))
  {
    var m' := Take(m, Time(us));
    assert Position(m') == Scale(m, us / Limit(m));
    if m.haveTime {
      ScaleRises(m, m.outUs, us);
      assert Position(m) == Scale(m, m.outUs / Limit(m));
    } else {
      ScaleRises(m, us, us);
    }
  }

  lemma BlockRises(m: Meter, end: bool, rest: seq<Note>)
    requires OnTime(m)
    requires if end then Percents(m, rest) == [] else Rising(Percents(m, rest), Position(m), m.base + Width(m))
    ensures Rising(Percents(m, [Block(end)] + rest), Position(m), m.base + Width(m))
  {
    PositionInSpan(m);
    var u := Reported(m, Block(end)).value.percent;
    assert ([Block(end)] + rest)[1..] == rest;
    if u >= 0.0 {
      assert !end ==> u == Position(m);
      RisingCons(u, Percents(m, rest), Position(m), m.base + Width(m));
    }
  }

  lemma TimeThenRises(m: Meter, us: real, rest: seq<Note>)
    requires OnTime(m) && LastTime(m) <= us <= Limit(m)
    requires Rising(Percents(Take(m, Time(us)), rest), Position(Take(m, Time(us))), m.base + Width(m))
    ensures Rising(Percents(m, [Time(us)] + rest), Position(m), m.base + Width(m))
  {
    TimeRaises(m, us);
    assert ([Time(us)] + rest)[1..] == rest;
    RisingFrom(Percents(Take(m, Time(us)), rest), Position(Take(m, Time(us))), Position(m), m.base + Width(m));
  }

  lemma StillOnTime(m: Meter, n: Note)
    requires OnTime(m) && (n.Time? ==> LastTime(m) <= n.us <= Limit(m))
    ensures OnTime(Take(m, n)) && LastTime(Take(m, n)) == (if n.Time? then n.us else LastTime(m))
    ensures Limit(Take(m, n)) == Limit(m) && (!n.Time? ==> Position(Take(m, n)) == Position(m))
  {}

  /** One run's known percentages never fall and stay in its part of the bar. */
  lemma {:induction false} RunRises(m: Meter, notes: seq<Note>)
    requires OnTime(m) && Paced(notes, LastTime(m), Limit(m))
    ensures Rising(Percents(m, notes), Position(m), m.base + Width(m))
    decreases |notes|
  {
    if notes != [] {
      var n, rest := notes[0], notes[1..];
      assert notes == [n] + rest;
      StillOnTime(m, n);
      if n.Block? && n.end {
        QuietSaysNothing(m, rest);
      } else {
        RunRises(Take(m, n), rest);
      }
      match n {
        case Time(us) => TimeThenRises(m, us, rest);
        case Block(end) => BlockRises(m, end, rest);
        case _ =>
      }
    }
  }

  /** Of a file of unknown length only the end is known, at the end of the bar's part. */
  lemma {:induction false} UnknownLength(m: Meter, notes: seq<Note>, i: nat)
    requires 0.0 <= m.base && m.base + Width(m) <= 100.0 && m.duration <= 0.0 && i < |Percents(m, notes)|
    ensures Percents(m, notes)[i] == m.base + Width(m)
    decreases |notes|
  {
    var n, rest := notes[0], Percents(Take(m, notes[0]), notes[1..]);
    assert m.base + 1.0 * Width(m) == m.base + Width(m);
    if |rest| < |Percents(m, notes)| {
      if i > 0 {
        UnknownLength(Take(m, n), notes[1..], i - 1);
      }
    } else {
      UnknownLength(Take(m, n), notes[1..], i);
    }
  }

  // ---- Two passes --------------------------------------------------------------------------

  /** One pass: what ffmpeg wrote, and whether it succeeded. */
  datatype Pass = Pass(lines: seq<string>, ok: bool)

  function Notes(lines: seq<string>, number: string -> Option<real>): seq<Note> {
    if lines == [] then [] else [NoteOf(lines[0], number)] + Notes(lines[1..], number)
  }

  function PassMeter(duration: real, second: bool): Meter {
    Meter(duration, if second then "encoding" else "analyzing", if second then 50.0 else 0.0, 50.0, 0.0, "", false)
  }

  function PassPercents(duration: real, second: bool, p: Pass, number: string -> Option<real>): seq<real> {
    [if second then 50.0 else 0.0] + Percents(PassMeter(duration, second), Notes(p.lines, number))
  }

  lemma {:induction false} PercentsConcat(m: Meter, a: seq<Note>, n: Note)
    ensures Percents(m, a + [n]) == Percents(m, a) + Percents(TakeAll(m, a), [n])
    decreases |a|
  {
    if a == [] {
      assert a + [n] == [n];
    } else {
      assert (a + [n])[1..] == a[1..] + [n] && (a + [n])[0] == a[0];
      PercentsConcat(Take(m, a[0]), a[1..], n);
    }
  }

  function TakeAll(m: Meter, notes: seq<Note>): Meter
    decreases |notes|
  {
    if notes == [] then m else TakeAll(Take(m, notes[0]), notes[1..])
  }

  lemma {:induction false} TakeAllSnoc(m: Meter, a: seq<Note>, n: Note)
    ensures TakeAll(m, a + [n]) == Take(TakeAll(m, a), n)
    decreases |a|
  {
    if a == [] {
      assert [n][1..] == [];
    } else {
      assert (a + [n])[1..] == a[1..] + [n];
      TakeAllSnoc(Take(m, a[0]), a[1..], n);
    }
  }

  lemma {:induction false} NotesSnoc(lines: seq<string>, line: string, number: string -> Option<real>)
    ensures Notes(lines + [line], number) == Notes(lines, number) + [NoteOf(line, number)]
  {
    if lines == [] {
      assert [line][1..] == [];
    } else {
      assert (lines + [line])[1..] == lines[1..] + [line];
      NotesSnoc(lines[1..], line, number);
    }
  }

  /** encode: every line through the meter, every report out. */
  method Encode(meter: FfProgress, lines: seq<string>) returns (percents: seq<real>)
    modifies meter
    ensures percents == old(Percents(meter.State(), Notes(lines, meter.number)))
  {
    percents := [];
    ghost var m := meter.State();
    for i := 0 to |lines|
      invariant meter.State() == TakeAll(m, Notes(lines[..i], meter.number))
      invariant percents == Percents(m, Notes(lines[..i], meter.number))
    {
      ghost var before, n := Notes(lines[..i], meter.number), NoteOf(lines[i], meter.number);
      assert lines[..i + 1] == lines[..i] + [lines[i]];
      NotesSnoc(lines[..i], lines[i], meter.number);
      PercentsConcat(m, before, n);
      TakeAllSnoc(m, before, n);
      var u := meter.Line(lines[i]);
      if u.Some? && u.value.percent >= 0.0 {
        percents := percents + [u.value.percent];
      }
      assert Percents(Take(TakeAll(m, before), n), [n][1..]) == [];
    }
    assert lines[..|lines|] == lines;
  }

  method RunPass(duration: real, stage: string, base: real, lines: seq<string>, number: string -> Option<real>)
    returns (percents: seq<real>)
    ensures percents == [base] + Percents(Meter(duration, stage, base, 50.0, 0.0, "", false), Notes(lines, number))
  {
    var meter := new FfProgress(duration, stage, base, 50.0, number);
    var reported := Encode(meter, lines);
    return [base] + reported;
  }

  function PassesPercents(duration: real, passes: seq<Pass>, n: nat, number: string -> Option<real>): seq<real>
    requires n <= |passes|
  {
    if n == 0 then []
    else PassesPercents(duration, passes, n - 1, number) + PassPercents(duration, n == 2, passes[n - 1], number)
  }

  /** A failed pass ends the job. */
  method RunTwoPass(duration: real, passes: seq<Pass>, number: string -> Option<real>)
      returns (percents: seq<real>, ok: bool)
    requires |passes| == 2
    ensures ok <==> passes[0].ok && passes[1].ok
    ensures percents == PassesPercents(duration, passes, if passes[0].ok then 2 else 1, number)
  {
    percents := [];
    for i := 0 to 2
      invariant percents == PassesPercents(duration, passes, i, number)
      invariant forall k :: 0 <= k < i ==> passes[k].ok
    {
      var stage, base := "analyzing", 0.0;
      if i == 1 {
        stage, base := "encoding", 50.0;
      }
      var reported := RunPass(duration, stage, base, passes[i].lines, number);
      percents := percents + reported;
      if !passes[i].ok {
        return percents, false;
      }
    }
    return percents, true;
  }

  /** The first pass owns the first half of the bar and the second the other: over both, if each
      pass's clock never falls, stays within the file and ends once, no percentage walks back. */
  lemma TwoPassRises(duration: real, first: Pass, second: Pass, number: string -> Option<real>)
    requires duration > 0.0
    requires Paced(Notes(first.lines, number), 0.0, duration * 1_000_000.0)
    requires Paced(Notes(second.lines, number), 0.0, duration * 1_000_000.0)
    ensures var a, b := PassPercents(duration, false, first, number), PassPercents(duration, true, second, number);
            Rising(a, 0.0, 50.0) && Rising(b, 50.0, 100.0) && Rising(a + b, 0.0, 100.0)
  {
    var a, b := PassPercents(duration, false, first, number), PassPercents(duration, true, second, number);
    RunRises(PassMeter(duration, false), Notes(first.lines, number));
    RunRises(PassMeter(duration, true), Notes(second.lines, number));
    RisingCons(0.0, Percents(PassMeter(duration, false), Notes(first.lines, number)), 0.0, 50.0);
    RisingCons(50.0, Percents(PassMeter(duration, true), Notes(second.lines, number)), 50.0, 100.0);
    RisingConcat(a, b, 0.0, 50.0, 100.0);
  }
}
