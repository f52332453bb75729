/** The trim-and-crop command line. */
module EditArgs {
  import opened Common
  import opened Numerals
  import opened FfmpegArgs
  import A = Argv
  import P = Presets

  // ---- Seconds with three decimals ---------------------------------------------------------

  /** v in thousandths, rounded to the nearest; a tie goes to the even one. */
  function Thousandths(v: real): int {
    var t := v * 1000.0;
    var n := t.Floor;
    var over := t - n as real;
    if over < 0.5 || (over == 0.5 && n % 2 == 0) then n else n + 1
  }

  function ThreeDigits(n: nat): string
    requires n < 1000
  {
    [DigitOf(n / 100), DigitOf(n / 10 % 10), DigitOf(n % 10)]
  }

  function Seconds(v: real): string
    requires v >= 0.0
  {
    var n := Thousandths(v);
    Itoa(n / 1000) + "." + ThreeDigits(n % 1000)
  }

  /** Reading a number with exactly three decimals, in thousandths. */
  function ReadThousandths(s: string): Option<nat> {
    if |s| < 5 || s[|s| - 4] != '.' || !AllDigits(s[..|s| - 4]) || !AllDigits(s[|s| - 3..]) then None
    else Some(1000 * NatValue(s[..|s| - 4]) + NatValue(s[|s| - 3..]))
  }

  lemma ThreeDigitsValue(n: nat)
    requires n < 1000
    ensures AllDigits(ThreeDigits(n)) && NatValue(ThreeDigits(n)) == n
  {
    var s := ThreeDigits(n);
    assert s[..2] == [DigitOf(n / 100), DigitOf(n / 10 % 10)] && s[..2][..1] == [DigitOf(n / 100)];
    assert NatValue(s[..2][..1]) == n / 100;
    assert NatValue(s[..2]) == n / 10;
  }

  /** The digits printed are those of v to the nearest thousandth. */
  lemma SecondsAccurate(v: real)
    requires v >= 0.0
    ensures Thousandths(v) >= 0 && ReadThousandths(Seconds(v)) == Some(Thousandths(v))
    ensures -0.0005 <= Thousandths(v) as real / 1000.0 - v <= 0.0005
  {
    var n := Thousandths(v);
    var whole, part := NatNumeral(n / 1000), ThreeDigits(n % 1000);
    assert Seconds(v) == whole + "." + part;
    assert (whole + "." + part)[..|whole|] == whole && (whole + "." + part)[|whole| + 1..] == part;
    NatRoundTrip(n / 1000);
    ThreeDigitsValue(n % 1000);
  }

  // ---- Options -----------------------------------------------------------------------------

  predicate HasCrop(p: P.Edit) {
    p.cropW > 0 && p.cropH > 0
  }

  function CropFilter(p: P.Edit): string {
    "crop=" + Itoa(p.cropW) + ":" + Itoa(p.cropH) + ":" + Itoa(p.cropX) + ":" + Itoa(p.cropY)
  }

  /** An accepted edit crops exactly when the client gave a size. */
  lemma CropAsked(raw: P.Payload<P.EditFields>, retention: int)
    requires P.ParsedEdit(raw, retention).Some?
    ensures HasCrop(P.ParsedEdit(raw, retention).value) <==>
              raw.fields.cropW !in {None, Some(0)} || raw.fields.cropH !in {None, Some(0)}
  {}

  /** What stands before the first c, and what after it. */
  function Cut(s: string, c: char): Option<(string, string)> {
    if s == "" then None
    else if s[0] == c then Some(("", s[1..]))
    else match Cut(s[1..], c)
         case None => None
         case Some((front, rest)) => Some(([s[0]] + front, rest))
  }

  lemma {:induction false} CutFirst(front: string, c: char, rest: string)
    requires c !in front
    ensures Cut(front + [c] + rest, c) == Some((front, rest))
  {
    if front == "" {
      assert front + [c] + rest == [c] + rest;
    } else {
      CutFirst(front[1..], c, rest);
      assert (front + [c] + rest)[1..] == front[1..] + [c] + rest;
      assert [front[0]] + front[1..] == front;
    }
  }

  function ReadNumber(s: string): Option<nat> {
    if AllDigits(s) then Some(NatValue(s)) else None
  }

  /** A list of numbers with colons in between. */
  function ReadNumbers(s: string): seq<Option<nat>>
    decreases |s|
  {
    match Cut(s, ':')
    case None => [ReadNumber(s)]
    case Some((front, rest)) => CutShorter(s, ':'); [ReadNumber(front)] + ReadNumbers(rest)
  }

  lemma {:induction false} CutShorter(s: string, c: char)
    requires Cut(s, c).Some?
    ensures |Cut(s, c).value.1| < |s|
  {
    if s[0] != c {
      CutShorter(s[1..], c);
    }
  }

  lemma {:induction false} NotFound(s: string, c: char)
    requires c !in s
    ensures Cut(s, c).None?
  {
    if s != "" {
      NotFound(s[1..], c);
    }
  }

  lemma ReadLast(n: nat)
    ensures ReadNumbers(Itoa(n)) == [Some(n)]
  {
    NatRoundTrip(n);
    NotFound(Itoa(n), ':');
  }

  lemma ReadNext(n: nat, rest: string)
    ensures ReadNumbers(Itoa(n) + ":" + rest) == [Some(n)] + ReadNumbers(rest)
  {
    NatRoundTrip(n);
    CutFirst(Itoa(n), ':', rest);
  }

  /** The crop filter names width, height, left and top, in this order. */
  lemma CropReadsBack(p: P.Edit)
    requires HasCrop(p) && 0 <= p.cropX && 0 <= p.cropY
    ensures "crop=" <= CropFilter(p)
    ensures ReadNumbers(CropFilter(p)[5..]) == [Some(p.cropW), Some(p.cropH), Some(p.cropX), Some(p.cropY)]
  {
    var y := Itoa(p.cropY);
    var x := Itoa(p.cropX) + ":" + y;
    var h := Itoa(p.cropH) + ":" + x;
    assert CropFilter(p) == "crop=" + (Itoa(p.cropW) + ":" + h);
    ReadLast(p.cropY);
    ReadNext(p.cropX, y);
    ReadNext(p.cropH, x);
    ReadNext(p.cropW, h);
  }

  predicate HasSuffix(s: string, suffix: string) {
    |suffix| <= |s| && s[|s| - |suffix|..] == suffix
  }

  predicate FastFile(output: string) {
    HasSuffix(output, ".mp4") || HasSuffix(output, ".mov")
  }

  function SeekOpts(p: P.Edit): seq<Opt> {
    [HideBanner, NoStdin, Overwrite] + if p.start > 0.0 then [Seek(Seconds(p.start))] else []
  }

  function LengthOpts(p: P.Edit): seq<Opt> {
    if P.Span(p) > 0.0 then [Length(Seconds(P.Span(p)))] else []
  }

  function SourceOpts(input: string, p: P.Edit): seq<Opt> {
    SeekOpts(p) + [Input(input), Progress("pipe:1"), NoStats] + LengthOpts(p)
  }

  const ENCODE: seq<Opt> := [VideoCodec("libx264"), Preset("veryfast"), Crf("18")]
      + [PixFmt("yuv420p"), AudioCodec("copy")]

  function CropOpts(p: P.Edit): seq<Opt> {
    if HasCrop(p) then [Filter(CropFilter(p))] else []
  }

  function CodecOpts(p: P.Edit, copyOnly: bool): seq<Opt> {
    if copyOnly then [AllCodecs("copy"), AvoidNegative("make_zero")]
    else CropOpts(p) + ENCODE
  }

  function FastOpts(output: string): seq<Opt> {
    if FastFile(output) then [MovFlags("+faststart")] else []
  }

  function EditOptions(input: string, output: string, p: P.Edit, copyOnly: bool): seq<Opt> {
    SourceOpts(input, p) + CodecOpts(p, copyOnly) + FastOpts(output)
  }

  lemma WrittenEncode()
    ensures A.Written(FFMPEG, ENCODE)
         == ["-c:v", "libx264", "-preset", "veryfast", "-crf", "18", "-pix_fmt", "yuv420p", "-c:a", "copy"]
  {
    A.WrittenThree(FFMPEG, VideoCodec("libx264"), Preset("veryfast"), Crf("18"));
    A.WrittenTwo(FFMPEG, PixFmt("yuv420p"), AudioCodec("copy"));
    A.WrittenConcat(FFMPEG, [VideoCodec("libx264"), Preset("veryfast"), Crf("18")],
                    [PixFmt("yuv420p"), AudioCodec("copy")]);
  }

  method CropArgs(p: P.Edit) returns (args: seq<string>)
    ensures args == A.Written(FFMPEG, CropOpts(p))
  {
    WrittenShort(CropOpts(p));
    args := if p.cropW > 0 && p.cropH > 0 then ["-vf", CropFilter(p)] else [];
  }

  method CodecArgs(p: P.Edit, copyOnly: bool) returns (args: seq<string>)
    ensures args == A.Written(FFMPEG, CodecOpts(p, copyOnly))
  {
    if copyOnly {
      A.WrittenTwo(FFMPEG, AllCodecs("copy"), AvoidNegative("make_zero"));
      return ["-c", "copy", "-avoid_negative_ts", "make_zero"];
    }
    args := CropArgs(p);
    WrittenEncode();
    A.WrittenConcat(FFMPEG, CropOpts(p), ENCODE);
    args := args + ["-c:v", "libx264", "-preset", "veryfast", "-crf", "18", "-pix_fmt", "yuv420p", "-c:a", "copy"];
  }

  method SeekArgs(p: P.Edit) returns (args: seq<string>)
    ensures args == A.Written(FFMPEG, SeekOpts(p))
  {
    args := ["-hide_banner", "-nostdin", "-y"];
    A.WrittenThree(FFMPEG, HideBanner, NoStdin, Overwrite);
    if p.start > 0.0 {
      // before -i: seek to the cut instead of decoding up to it
      args := args + ["-ss", Seconds(p.start)];
      A.WrittenSnoc(FFMPEG, [HideBanner, NoStdin, Overwrite], Seek(Seconds(p.start)));
    } else {
      assert SeekOpts(p) == [HideBanner, NoStdin, Overwrite];
    }
  }

  method SourceArgs(input: string, p: P.Edit) returns (args: seq<string>)
    ensures args == A.Written(FFMPEG, SourceOpts(input, p))
  {
    args := SeekArgs(p);
    args := args + ["-i", input, "-progress", "pipe:1", "-nostats"];
    A.WrittenThree(FFMPEG, Input(input), Progress("pipe:1"), NoStats);
    A.WrittenParts(FFMPEG, SeekOpts(p), [Input(input), Progress("pipe:1"), NoStats], LengthOpts(p));
    var span := P.Span(p);
    if span > 0.0 {
      args := args + ["-t", Seconds(span)];
      A.WrittenOne(FFMPEG, Length(Seconds(span)));
    }
  }

  method Args(input: string, output: string, p: P.Edit, copyOnly: bool) returns (args: seq<string>)
    ensures args == A.Written(FFMPEG, EditOptions(input, output, p, copyOnly)) + [output]
  {
    args := SourceArgs(input, p);
    var codecs := CodecArgs(p, copyOnly);
    args := args + codecs;
    A.WrittenParts(FFMPEG, SourceOpts(input, p), CodecOpts(p, copyOnly), FastOpts(output));
    if FastFile(output) {
      args := args + ["-movflags", "+faststart"];
      A.WrittenOne(FFMPEG, MovFlags("+faststart"));
    }
    return args + [output];
  }

  // ---- What the argv says ------------------------------------------------------------------

  lemma Decodable(input: string, output: string, p: P.Edit, copyOnly: bool)
    requires IsFile(output)
    ensures A.Read(FFMPEG, A.Written(FFMPEG, EditOptions(input, output, p, copyOnly)) + [output])
         == A.Reading(EditOptions(input, output, p, copyOnly), [output])
  {
    ReadBack(EditOptions(input, output, p, copyOnly), output);
  }

  lemma SourceMeans(input: string, output: string, p: P.Edit, copyOnly: bool, o: Opt)
    ensures o in SourceOpts(input, p) <==>
              && (o.HideBanner? || o.NoStdin? || o.Overwrite? || o.NoStats?
                  || o.Input? || o.Progress? || o.Seek? || o.Length?)
              && EditMeans(input, output, p, copyOnly, o)
  {
    assert o in SeekOpts(p) <==>
        o == HideBanner || o == NoStdin || o == Overwrite || (p.start > 0.0 && o == Seek(Seconds(p.start)));
  }

  lemma CodecMeans(input: string, output: string, p: P.Edit, copyOnly: bool, o: Opt)
    ensures o in CodecOpts(p, copyOnly) <==>
              && (o.AllCodecs? || o.AvoidNegative? || o.Filter? || Encodes(o))
              && EditMeans(input, output, p, copyOnly, o)
  {
    EncodeMeans(o);
    if !copyOnly {
      assert o in CodecOpts(p, copyOnly) <==> o in CropOpts(p) || o in ENCODE;
    }
  }

  predicate Encodes(o: Opt) {
    o.VideoCodec? || o.Preset? || o.Crf? || o.PixFmt? || o.AudioCodec?
  }

  lemma EncodeMeans(o: Opt)
    ensures o in ENCODE <==>
              || o == VideoCodec("libx264") || o == Preset("veryfast") || o == Crf("18")
              || o == PixFmt("yuv420p") || o == AudioCodec("copy")
  {}

  /** It seeks, cuts, crops, copies and re-encodes exactly when the edit says so. */
  lemma EditMeaning(input: string, output: string, p: P.Edit, copyOnly: bool, o: Opt)
    ensures o in EditOptions(input, output, p, copyOnly) <==> EditMeans(input, output, p, copyOnly, o)
  {
    SourceMeans(input, output, p, copyOnly, o);
    CodecMeans(input, output, p, copyOnly, o);
    assert o in EditOptions(input, output, p, copyOnly) <==>
             o in SourceOpts(input, p) || o in CodecOpts(p, copyOnly) || o in FastOpts(output);
  }

  predicate EditMeans(input: string, output: string, p: P.Edit, copyOnly: bool, o: Opt) {
    match o
    case HideBanner | NoStdin | Overwrite | NoStats => true
    case Input(v) => v == input
    case Progress(v) => v == "pipe:1"
    case Seek(v) => p.start > 0.0 && v == Seconds(p.start)
    case Length(v) => P.Span(p) > 0.0 && v == Seconds(P.Span(p))
    case AllCodecs(v) => copyOnly && v == "copy"
    case AvoidNegative(v) => copyOnly && v == "make_zero"
    case Filter(v) => !copyOnly && HasCrop(p) && v == CropFilter(p)
    case VideoCodec(v) => !copyOnly && v == "libx264"
    case Preset(v) => !copyOnly && v == "veryfast"
    case Crf(v) => !copyOnly && v == "18"
    case PixFmt(v) => !copyOnly && v == "yuv420p"
    case AudioCodec(v) => !copyOnly && v == "copy"
    case MovFlags(v) => FastFile(output) && v == "+faststart"
    case _ => false
  }
}
