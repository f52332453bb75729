/** The ffmpeg command line: settings to argv, and back by a reader that knows each flag's arity. */
module FfmpegArgs {
  import opened Common
  import opened Numerals
  import A = Argv
  import P = Presets

  // ---- Options and how ffmpeg reads them ---------------------------------------------------

  datatype Opt =
    | HideBanner | NoStdin | Overwrite | NoStats | NoAudio
    | Input(v: string) | Progress(v: string) | VideoCodec(v: string) | CpuUsed(v: string) | RowMt(v: string)
    | Preset(v: string) | Crf(v: string) | VideoBitrate(v: string) | Pass(v: string) | PassLog(v: string)
    | Filter(v: string) | Rate(v: string) | Format(v: string) | AudioCodec(v: string) | AudioBitrate(v: string)
    | MapMetadata(v: string) | MovFlags(v: string) | Seek(v: string) | Length(v: string) | AllCodecs(v: string)
    | AvoidNegative(v: string) | PixFmt(v: string)

  function Flag(o: Opt): string {
    match o
    case HideBanner => "-hide_banner"
    case NoStdin => "-nostdin"
    case Overwrite => "-y"
    case NoStats => "-nostats"
    case NoAudio => "-an"
    case Input(_) => "-i"
    case Progress(_) => "-progress"
    case VideoCodec(_) => "-c:v"
    case CpuUsed(_) => "-cpu-used"
    case RowMt(_) => "-row-mt"
    case Preset(_) => "-preset"
    case Crf(_) => "-crf"
    case VideoBitrate(_) => "-b:v"
    case Pass(_) => "-pass"
    case PassLog(_) => "-passlogfile"
    case Filter(_) => "-vf"
    case Rate(_) => "-r"
    case Format(_) => "-f"
    case AudioCodec(_) => "-c:a"
    case AudioBitrate(_) => "-b:a"
    case MapMetadata(_) => "-map_metadata"
    case MovFlags(_) => "-movflags"
    case Seek(_) => "-ss"
    case Length(_) => "-t"
    case AllCodecs(_) => "-c"
    case AvoidNegative(_) => "-avoid_negative_ts"
    case PixFmt(_) => "-pix_fmt"
  }

  predicate Bare(o: Opt) {
    o.HideBanner? || o.NoStdin? || o.Overwrite? || o.NoStats? || o.NoAudio?
  }

  /** A flag that stands alone. */
  function ReadBare(flag: string): Option<Opt> {
    match flag
    case "-hide_banner" => Some(HideBanner)
    case "-nostdin" => Some(NoStdin)
    case "-y" => Some(Overwrite)
    case "-nostats" => Some(NoStats)
    case "-an" => Some(NoAudio)
    case _ => None
  }

  /** A flag that takes the next argument, whatever it looks like. */
  function ReadWithOperand(flag: string, v: string): Option<Opt> {
    match flag
    case "-i" => Some(Input(v))
    case "-progress" => Some(Progress(v))
    case "-c:v" => Some(VideoCodec(v))
    case "-cpu-used" => Some(CpuUsed(v))
    case "-row-mt" => Some(RowMt(v))
    case "-preset" => Some(Preset(v))
    case "-crf" => Some(Crf(v))
    case "-b:v" => Some(VideoBitrate(v))
    case "-pass" => Some(Pass(v))
    case "-passlogfile" => Some(PassLog(v))
    case "-vf" => Some(Filter(v))
    case "-r" => Some(Rate(v))
    case "-f" => Some(Format(v))
    case "-c:a" => Some(AudioCodec(v))
    case "-b:a" => Some(AudioBitrate(v))
    case "-map_metadata" => Some(MapMetadata(v))
    case "-movflags" => Some(MovFlags(v))
    case "-ss" => Some(Seek(v))
    case "-t" => Some(Length(v))
    case "-c" => Some(AllCodecs(v))
    case "-avoid_negative_ts" => Some(AvoidNegative(v))
    case "-pix_fmt" => Some(PixFmt(v))
    case _ => None
  }

  function Words(o: Opt): seq<string> {
    if Bare(o) then [Flag(o)] else [Flag(o), o.v]
  }

  const FFMPEG: A.Syntax<Opt> := A.Syntax(o => Words(o), f => ReadBare(f), (f, v) => ReadWithOperand(f, v))

  lemma SyntaxUnambiguous()
    ensures A.Unambiguous(FFMPEG)
  {
    forall o: Opt
      ensures var w := Words(o);
              || (|w| == 1 && ReadBare(w[0]) == Some(o))
              || (|w| == 2 && ReadBare(w[0]) == None && ReadWithOperand(w[0], w[1]) == Some(o))
    {
      ReadOne(o);
    }
  }

  lemma ReadOne(o: Opt)
    ensures Bare(o) ==> ReadBare(Flag(o)) == Some(o)
    ensures !Bare(o) ==> ReadBare(Flag(o)) == None && ReadWithOperand(Flag(o), o.v) == Some(o)
  {}

  /** An output file ffmpeg does not take for a flag. */
  predicate IsFile(output: string) {
    ReadBare(output).None?
  }

  /** Left to right: known flags with their operands, then a single argument, the output file. */
  lemma ReadBack(opts: seq<Opt>, output: string)
    requires IsFile(output)
    ensures A.Read(FFMPEG, A.Written(FFMPEG, opts) + [output]) == A.Reading(opts, [output])
  {
    SyntaxUnambiguous();
    A.ReadWritten(FFMPEG, opts, [output]);
  }

  // ---- Settings ----------------------------------------------------------------------------

  datatype Spec = Spec(
    container: string, videoCodec: string, speed: string, crf: int, resolution: string, frameRate: string,
    audioCodec: string, audioBitrate: string, stripMetadata: bool, stage: string,
    targetMB: int, videoKbps: int, pass: int, passLog: string)

  function VideoEncoder(codec: string): Option<string> {
    match codec
    case "h264" => Some("libx264")
    case "h265" => Some("libx265")
    case "vp9" => Some("libvpx-vp9")
    case "av1" => Some("libsvtav1")
    case "copy" => Some("copy")
    case _ => None
  }

  function SpeedIndex(speed: string, veryslow: int, slow: int, medium: int, fast: int, faster: int, veryfast: int)
    : Option<int>
  {
    match speed
    case "veryslow" => Some(veryslow)
    case "slow" => Some(slow)
    case "medium" => Some(medium)
    case "fast" => Some(fast)
    case "faster" => Some(faster)
    case "veryfast" => Some(veryfast)
    case _ => None
  }

  function Vp9CpuUsed(speed: string): Option<int> {
    SpeedIndex(speed, 0, 1, 2, 3, 4, 5)
  }

  function SvtAv1Preset(speed: string): Option<int> {
    SpeedIndex(speed, 2, 4, 6, 8, 9, 10)
  }

  function SpecOfConvert(p: P.Convert): Spec {
    var r := P.Resolved(p);
    Spec(p.container, p.videoCodec, r.0, r.1, p.resolution, p.frameRate, p.audioCodec, p.audioBitrate, p.stripMetadata,
         "converting", 0, 0, 0, "")
  }

  function SpecOfCompress(p: P.Compress): Spec {
    Spec(p.container, p.videoCodec, p.speed, P.CompressCrfFor(p), p.resolution, "source",
         P.DefaultAudioCodec(p.container),
         p.audioBitrate, p.stripMetadata, "encoding", p.targetSizeMB, 0, 0, "")
  }

  /** specFor: the stored parameters are parsed again; other job types are refused. */
  function SpecFor(stored: P.Request, retention: int): Option<Spec> {
    match stored
    case ConvertRequest(raw) => P.Lift(P.ParsedConvert(raw, retention), p => SpecOfConvert(p))
    case CompressRequest(raw) => P.Lift(P.ParsedCompress(raw, retention), p => SpecOfCompress(p))
    case _ => None
  }

  // ---- The argv ----------------------------------------------------------------------------

  function Encoder(s: Spec): string {
    P.Or(VideoEncoder(s.videoCodec), "libx264")
  }

  function SpeedOpts(enc: string, s: Spec): seq<Opt> {
    if enc == "libvpx-vp9" then [CpuUsed(Itoa(P.Or(Vp9CpuUsed(s.speed), 0))), RowMt("1")]
    else if enc == "libsvtav1" then [Preset(Itoa(P.Or(SvtAv1Preset(s.speed), 0)))]
    else [Preset(s.speed)]
  }

  function RateOpts(enc: string, s: Spec): seq<Opt> {
    if s.pass > 0 then [VideoBitrate(Itoa(s.videoKbps) + "k"), Pass(Itoa(s.pass)), PassLog(s.passLog)]
    else if enc == "libvpx-vp9" then [Crf(Itoa(s.crf)), VideoBitrate("0")]
    else [Crf(Itoa(s.crf))]
  }

  /** A positive number other than the "source" marker. */
  function Numeric(v: string): Option<int> {
    if v != "" && v != "source" && Atoi(v).Some? && Atoi(v).value > 0 then Atoi(v) else None
  }

  function ScaleOpts(s: Spec): seq<Opt> {
    if Numeric(s.resolution).Some? then [Filter("scale=-2:" + Itoa(Numeric(s.resolution).value))] else []
  }

  function FpsOpts(s: Spec): seq<Opt> {
    if Numeric(s.frameRate).Some? then [Rate(Itoa(Numeric(s.frameRate).value))] else []
  }

  function FilterOpts(s: Spec): seq<Opt> {
    ScaleOpts(s) + FpsOpts(s)
  }

  function AudioOpts(s: Spec): seq<Opt> {
    match s.audioCodec
    case "none" => [NoAudio]
    case "copy" => [AudioCodec("copy")]
    case "flac" => [AudioCodec("flac")]
    case "aac" => [AudioCodec("aac"), AudioBitrate(s.audioBitrate + "k")]
    case "opus" => [AudioCodec("libopus"), AudioBitrate(s.audioBitrate + "k")]
    case "mp3" => [AudioCodec("libmp3lame"), AudioBitrate(s.audioBitrate + "k")]
    case _ => []
  }

  function HeadOpts(input: string): seq<Opt> {
    [HideBanner, NoStdin, Overwrite, Input(input), Progress("pipe:1"), NoStats]
  }

  function VideoOpts(s: Spec): seq<Opt> {
    var enc := Encoder(s);
    [VideoCodec(enc)] + if enc == "copy" then [] else SpeedOpts(enc, s) + RateOpts(enc, s) + FilterOpts(s)
  }

  predicate Faststart(s: Spec) {
    s.container == "mp4" || s.container == "mov"
  }

  function MuxOpts(s: Spec): seq<Opt> {
    (if s.stripMetadata then [MapMetadata("-1")] else []) +
    (if Faststart(s) then [MovFlags("+faststart")] else [])
  }

  function TailOpts(s: Spec): seq<Opt> {
    if s.pass == 1 then [NoAudio, Format("null")] else AudioOpts(s) + MuxOpts(s)
  }

  function Options(input: string, s: Spec): seq<Opt> {
    HeadOpts(input) + VideoOpts(s) + TailOpts(s)
  }

  lemma WrittenShort(opts: seq<Opt>)
    requires |opts| <= 2
    ensures A.Written(FFMPEG, opts)
        == (if opts == [] then [] else if |opts| == 1 then Words(opts[0]) else Words(opts[0]) + Words(opts[1]))
  {
    if |opts| == 1 {
      assert opts == [opts[0]];
      A.WrittenOne(FFMPEG, opts[0]);
    } else if |opts| == 2 {
      assert opts == [opts[0], opts[1]];
      A.WrittenTwo(FFMPEG, opts[0], opts[1]);
    }
  }

  method RateControl(enc: string, s: Spec) returns (args: seq<string>)
    ensures args == A.Written(FFMPEG, RateOpts(enc, s))
  {
    if s.pass > 0 {
      A.WrittenThree(FFMPEG, VideoBitrate(Itoa(s.videoKbps) + "k"), Pass(Itoa(s.pass)), PassLog(s.passLog));
      return ["-b:v", Itoa(s.videoKbps) + "k", "-pass", Itoa(s.pass), "-passlogfile", s.passLog];
    }
    A.WrittenOne(FFMPEG, Crf(Itoa(s.crf)));
    if enc == "libvpx-vp9" {
      A.WrittenTwo(FFMPEG, Crf(Itoa(s.crf)), VideoBitrate("0"));
      return ["-crf", Itoa(s.crf), "-b:v", "0"];
    }
    return ["-crf", Itoa(s.crf)];
  }

  method SpeedArgs(enc: string, s: Spec) returns (args: seq<string>)
    ensures args == A.Written(FFMPEG, SpeedOpts(enc, s))
  {
    if enc == "libvpx-vp9" {
      var n := Itoa(P.Or(Vp9CpuUsed(s.speed), 0));
      A.WrittenTwo(FFMPEG, CpuUsed(n), RowMt("1"));
      return ["-cpu-used", n, "-row-mt", "1"];
    } else if enc == "libsvtav1" {
      var n := Itoa(P.Or(SvtAv1Preset(s.speed), 0));
      A.WrittenOne(FFMPEG, Preset(n));
      return ["-preset", n];
    }
    A.WrittenOne(FFMPEG, Preset(s.speed));
    return ["-preset", s.speed];
  }

  method ScaleArgs(s: Spec) returns (args: seq<string>)
    ensures args == A.Written(FFMPEG, ScaleOpts(s))
  {
    WrittenShort(ScaleOpts(s));
    args := [];
    if s.resolution != "" && s.resolution != "source" {
      var h := Atoi(s.resolution);
      if h.Some? && h.value > 0 {
        args := ["-vf", "scale=-2:" + Itoa(h.value)];
      }
    }
  }

  method FpsArgs(s: Spec) returns (args: seq<string>)
    ensures args == A.Written(FFMPEG, FpsOpts(s))
  {
    WrittenShort(FpsOpts(s));
    args := [];
    if s.frameRate != "" && s.frameRate != "source" {
      var fps := Atoi(s.frameRate);
      if fps.Some? && fps.value > 0 {
        args := ["-r", Itoa(fps.value)];
      }
    }
  }

  method FilterArgs(s: Spec) returns (args: seq<string>)
    ensures args == A.Written(FFMPEG, FilterOpts(s))
  {
    var scale := ScaleArgs(s);
    var fps := FpsArgs(s);
    A.WrittenConcat(FFMPEG, ScaleOpts(s), FpsOpts(s));
    args := scale + fps;
  }

  method EncodeArgs(enc: string, s: Spec) returns (args: seq<string>)
    ensures args == A.Written(FFMPEG, SpeedOpts(enc, s) + RateOpts(enc, s) + FilterOpts(s))
  {
    var speed := SpeedArgs(enc, s);
    var rate := RateControl(enc, s);
    var filters := FilterArgs(s);
    args := speed + rate + filters;
    A.WrittenParts(FFMPEG, SpeedOpts(enc, s), RateOpts(enc, s), FilterOpts(s));
  }

  method VideoArgs(s: Spec) returns (args: seq<string>)
    ensures args == A.Written(FFMPEG, VideoOpts(s))
  {
    var known := VideoEncoder(s.videoCodec);
    var enc := if known.Some? then known.value else "libx264";
    args := ["-c:v", enc];
    A.WrittenOne(FFMPEG, VideoCodec(enc));
    if enc != "copy" {
      var encode := EncodeArgs(enc, s);
      args := args + encode;
      A.WrittenConcat(FFMPEG, [VideoCodec(enc)], SpeedOpts(enc, s) + RateOpts(enc, s) + FilterOpts(s));
    }
  }

  method AudioArgs(s: Spec) returns (args: seq<string>)
    ensures args == A.Written(FFMPEG, AudioOpts(s))
  {
    args := [];
    match s.audioCodec {
      case "none" => args := ["-an"];
      case "copy" => args := ["-c:a", "copy"];
      case "flac" => args := ["-c:a", "flac"];
      case "aac" => args := ["-c:a", "aac", "-b:a", s.audioBitrate + "k"];
      case "opus" => args := ["-c:a", "libopus", "-b:a", s.audioBitrate + "k"];
      case "mp3" => args := ["-c:a", "libmp3lame", "-b:a", s.audioBitrate + "k"];
      case _ =>
    }
    WrittenShort(AudioOpts(s));
  }

  lemma WrittenHead(input: string)
    ensures A.Written(FFMPEG, HeadOpts(input))
        == ["-hide_banner", "-nostdin", "-y", "-i", input, "-progress", "pipe:1", "-nostats"]
  {
    var a, b := [HideBanner, NoStdin, Overwrite], [Input(input), Progress("pipe:1"), NoStats];
    A.WrittenThree(FFMPEG, HideBanner, NoStdin, Overwrite);
    A.WrittenThree(FFMPEG, Input(input), Progress("pipe:1"), NoStats);
    assert HeadOpts(input) == a + b;
    A.WrittenConcat(FFMPEG, a, b);
  }

  method MuxArgs(s: Spec) returns (args: seq<string>)
    ensures args == A.Written(FFMPEG, MuxOpts(s))
  {
    args := [];
    ghost var opts: seq<Opt> := [];
    if s.stripMetadata {
      args := args + ["-map_metadata", "-1"];
      A.WrittenSnoc(FFMPEG, opts, MapMetadata("-1"));
      opts := opts + [MapMetadata("-1")];
    }
    if s.container == "mp4" || s.container == "mov" {
      args := args + ["-movflags", "+faststart"];
      A.WrittenSnoc(FFMPEG, opts, MovFlags("+faststart"));
      opts := opts + [MovFlags("+faststart")];
    }
    assert opts == MuxOpts(s);
  }

  method TailArgs(s: Spec) returns (args: seq<string>)
    ensures args == A.Written(FFMPEG, TailOpts(s))
  {
    if s.pass == 1 {
      A.WrittenTwo(FFMPEG, NoAudio, Format("null"));
      return ["-an", "-f", "null"];
    }
    var audio := AudioArgs(s);
    var mux := MuxArgs(s);
    A.WrittenConcat(FFMPEG, AudioOpts(s), MuxOpts(s));
    return audio + mux;
  }

  method Args(input: string, output: string, s: Spec) returns (args: seq<string>)
    ensures args == A.Written(FFMPEG, Options(input, s)) + [output]
  {
    args := ["-hide_banner", "-nostdin", "-y", "-i", input, "-progress", "pipe:1", "-nostats"];
    WrittenHead(input);
    var video := VideoArgs(s);
    var tail := TailArgs(s);
    args := args + video + tail;
    A.WrittenParts(FFMPEG, HeadOpts(input), VideoOpts(s), TailOpts(s));
    return args + [output];
  }

  // ---- What the argv says ------------------------------------------------------------------

  /** Whatever the settings and the paths, the argv is read in one way only. */
  lemma Decodable(input: string, output: string, s: Spec)
    requires IsFile(output)
    ensures A.Read(FFMPEG, A.Written(FFMPEG, Options(input, s)) + [output]) == A.Reading(Options(input, s), [output])
  {
    ReadBack(Options(input, s), output);
  }

  /** Every setting comes from its table; a CRF in use is in its codec's bounds. */
  predicate Settled(s: Spec) {
    && s.container in P.VIDEO_CONTAINERS && s.videoCodec in P.VIDEO_CODECS && s.speed in P.ENCODE_SPEEDS
    && s.resolution in P.RESOLUTIONS && s.frameRate in P.FRAME_RATES && s.audioCodec in P.AUDIO_CODECS
    && (P.Lossy(s.audioCodec) ==> s.audioBitrate in P.AUDIO_BITRATES)
    && (s.videoCodec != "copy" && s.targetMB == 0 ==> P.CrfWithin(s.crf, s.videoCodec))
  }

  /** Every payload accepted at the API and stored settles every setting in the runner. */
  lemma AcceptedIsSettled(req: P.Request, retention: int, retention': int)
    requires req.ConvertRequest? || req.CompressRequest?
    requires P.ParseParams(req, retention).Some?
    ensures var stored := P.Stored(P.ParseParams(req, retention).value);
            && SpecFor(stored, retention').Some? && Settled(SpecFor(stored, retention').value)
            && SpecFor(stored, retention') == SpecFor(stored, retention)
  {
    P.ReparseIsFixed(req, retention, retention');
    P.ReparseIsFixed(req, retention, retention);
    if req.ConvertRequest? {
      ConvertSettled(req.convert, retention);
    } else {
      CompressSettled(req.compress, retention);
    }
  }

  lemma CompressSettled(raw: P.Payload<P.CompressFields>, retention: int)
    requires P.ParsedCompress(raw, retention).Some?
    ensures Settled(SpecOfCompress(P.ParsedCompress(raw, retention).value))
  {
    P.CompressCrfInBounds(raw, retention);
  }

  lemma ConvertSettled(raw: P.Payload<P.ConvertFields>, retention: int)
    requires P.ParsedConvert(raw, retention).Some?
    ensures Settled(SpecOfConvert(P.ParsedConvert(raw, retention).value))
  {
    P.ConvertCrfInBounds(raw, retention);
  }

  /** No lookup misses: the fallback encoder and the zero speed of a missing entry are never used. */
  lemma LookupsHit(s: Spec)
    requires Settled(s)
    ensures VideoEncoder(s.videoCodec).Some? && Vp9CpuUsed(s.speed).Some? && SvtAv1Preset(s.speed).Some?
    ensures AudioOpts(s) != []
  {}

  function Named(n: Option<int>): Option<string> {
    if n.Some? then Some(Itoa(n.value)) else None
  }

  /** When each option is there, and with what. */
  predicate Means(input: string, s: Spec, o: Opt) {
    MeansHead(input, o) || MeansVideo(s, o) || MeansTail(s, o)
  }

  predicate MeansHead(input: string, o: Opt) {
    match o
    case HideBanner | NoStdin | Overwrite | NoStats => true
    case Input(v) => v == input
    case Progress(v) => v == "pipe:1"
    case _ => false
  }

  predicate MeansVideo(s: Spec, o: Opt) {
    var encodes := s.videoCodec != "copy";
    match o
    case VideoCodec(v) => Some(v) == VideoEncoder(s.videoCodec)
    case CpuUsed(v) => s.videoCodec == "vp9" && Some(v) == Named(Vp9CpuUsed(s.speed))
    case RowMt(v) => s.videoCodec == "vp9" && v == "1"
    case Preset(v) =>
      if s.videoCodec == "av1" then Some(v) == Named(SvtAv1Preset(s.speed))
      else encodes && s.videoCodec != "vp9" && v == s.speed
    case Crf(v) => encodes && s.pass <= 0 && v == Itoa(s.crf)
    case VideoBitrate(v) => encodes
        && (if s.pass > 0 then v == Itoa(s.videoKbps) + "k" else s.videoCodec == "vp9" && v == "0")
    case Pass(v) => encodes && s.pass > 0 && v == Itoa(s.pass)
    case PassLog(v) => encodes && s.pass > 0 && v == s.passLog
    case Filter(v) => encodes && s.resolution != "source" && v == "scale=-2:" + s.resolution
    case Rate(v) => encodes && s.frameRate != "source" && v == s.frameRate
    case _ => false
  }

  predicate MeansTail(s: Spec, o: Opt) {
    match o
    case NoAudio => s.pass == 1 || s.audioCodec == "none"
    case Format(v) => s.pass == 1 && v == "null"
    case AudioCodec(v) => s.pass != 1 && AudioEncoder(s.audioCodec) == Some(v)
    case AudioBitrate(v) => s.pass != 1 && P.Lossy(s.audioCodec) && v == s.audioBitrate + "k"
    case MapMetadata(v) => s.pass != 1 && s.stripMetadata && v == "-1"
    case MovFlags(v) => s.pass != 1 && Faststart(s) && v == "+faststart"
    case _ => false
  }

  function AudioEncoder(codec: string): Option<string> {
    match codec
    case "copy" => Some("copy")
    case "flac" => Some("flac")
    case "aac" => Some("aac")
    case "opus" => Some("libopus")
    case "mp3" => Some("libmp3lame")
    case _ => None
  }

  lemma NumericMeans(v: string)
    requires v in P.RESOLUTIONS || v in P.FRAME_RATES
    ensures if v == "source" then Numeric(v).None? else Numeric(v).Some? && Itoa(Numeric(v).value) == v
  {
    if v != "source" { ShortNumeral(v); }
  }

  lemma ScaleMeans(s: Spec, o: Opt)
    requires s.resolution in P.RESOLUTIONS && s.videoCodec != "copy"
    ensures o in ScaleOpts(s) <==> o.Filter? && MeansVideo(s, o)
  {
    NumericMeans(s.resolution);
  }

  lemma FpsMeans(s: Spec, o: Opt)
    requires s.frameRate in P.FRAME_RATES && s.videoCodec != "copy"
    ensures o in FpsOpts(s) <==> o.Rate? && MeansVideo(s, o)
  {
    NumericMeans(s.frameRate);
  }

  lemma FilterMeans(s: Spec, o: Opt)
    requires Settled(s) && s.videoCodec != "copy"
    ensures o in FilterOpts(s) <==> (o.Filter? || o.Rate?) && MeansVideo(s, o)
  {
    ScaleMeans(s, o);
    FpsMeans(s, o);
    assert o in FilterOpts(s) <==> o in ScaleOpts(s) || o in FpsOpts(s);
  }

  lemma SpeedMeans(s: Spec, o: Opt)
    requires Settled(s) && s.videoCodec != "copy"
    ensures o in SpeedOpts(Encoder(s), s) <==> (o.CpuUsed? || o.RowMt? || o.Preset?) && MeansVideo(s, o)
  {}

  lemma RateMeans(s: Spec, o: Opt)
    requires Settled(s) && s.videoCodec != "copy"
    ensures o in RateOpts(Encoder(s), s) <==> (o.Crf? || o.VideoBitrate? || o.Pass? || o.PassLog?) && MeansVideo(s, o)
  {}

  lemma EncodeMeans(s: Spec, o: Opt)
    requires Settled(s) && s.videoCodec != "copy"
    ensures o in SpeedOpts(Encoder(s), s) + RateOpts(Encoder(s), s) + FilterOpts(s) <==>
        !o.VideoCodec? && MeansVideo(s, o)
  {
    FilterMeans(s, o);
    SpeedMeans(s, o);
    RateMeans(s, o);
  }

  lemma EncoderMeans(codec: string)
    requires codec in P.VIDEO_CODECS
    ensures VideoEncoder(codec).Some? && (VideoEncoder(codec) == Some("copy") <==> codec == "copy")
  {}

  lemma VideoMeans(s: Spec, o: Opt)
    requires Settled(s)
    ensures o in VideoOpts(s) <==> MeansVideo(s, o)
  {
    EncoderMeans(s.videoCodec);
    if s.videoCodec != "copy" {
      EncodeMeans(s, o);
    }
  }

  lemma AudioMeans(s: Spec, o: Opt)
    requires s.audioCodec in P.AUDIO_CODECS && s.pass != 1
    ensures o in AudioOpts(s) <==> (o.NoAudio? || o.AudioCodec? || o.AudioBitrate?) && MeansTail(s, o)
  {}

  lemma TailMeans(s: Spec, o: Opt)
    requires Settled(s)
    ensures o in TailOpts(s) <==> MeansTail(s, o)
  {
    if s.pass != 1 {
      AudioMeans(s, o);
      assert o in MuxOpts(s) <==> (o.MapMetadata? || o.MovFlags?) && MeansTail(s, o);
    }
  }

  lemma HeadMeans(input: string, o: Opt)
    ensures o in HeadOpts(input) <==> MeansHead(input, o)
  {}

  lemma InParts(a: seq<Opt>, b: seq<Opt>, c: seq<Opt>, o: Opt)
    ensures o in a + b + c <==> o in a || o in b || o in c
  {}

  /** The argv holds an option exactly when the setting behind it takes effect. */
  lemma OptionsMean(input: string, s: Spec, o: Opt)
    requires Settled(s)
    ensures o in Options(input, s) <==> Means(input, s, o)
  {
    HeadMeans(input, o);
    VideoMeans(s, o);
    TailMeans(s, o);
    InParts(HeadOpts(input), VideoOpts(s), TailOpts(s), o);
  }

  // ---- Nothing that takes effect is lost ---------------------------------------------------

  /** One argv for both. */
  ghost predicate SameArgs(i: string, o: string, s: Spec, i': string, o': string, s': Spec) {
    A.Written(FFMPEG, Options(i, s)) + [o] == A.Written(FFMPEG, Options(i', s')) + [o']
  }

  lemma SameOptions(i: string, o: string, s: Spec, i': string, o': string, s': Spec)
    requires IsFile(o) && IsFile(o') && SameArgs(i, o, s, i', o', s')
    ensures Options(i, s) == Options(i', s') && o == o'
  {
    Decodable(i, o, s);
    Decodable(i', o', s');
  }

  ghost predicate Agree(i: string, s: Spec, i': string, s': Spec) {
    forall o :: Means(i, s, o) <==> Means(i', s', o)
  }

  lemma SameMeanings(i: string, s: Spec, i': string, s': Spec)
    requires Settled(s) && Settled(s') && Options(i, s) == Options(i', s')
    ensures Agree(i, s, i', s')
  {
    forall o
      ensures Means(i, s, o) <==> Means(i', s', o)
    {
      OptionsMean(i, s, o);
      OptionsMean(i', s', o);
    }
  }

  lemma SameSuffix(p: string, a: string, b: string)
    ensures p + a == p + b ==> a == b
  {
    assert (p + a)[|p|..] == a && (p + b)[|p|..] == b;
  }

  lemma SameFront(a: string, b: string, p: string)
    ensures a + p == b + p ==> a == b
  {
    if a + p == b + p {
      assert |a| == |b|;
      assert a == (a + p)[..|a|] && b == (b + p)[..|b|];
    }
  }

  lemma VideoEncodersDiffer(a: string, b: string)
    requires a in P.VIDEO_CODECS && b in P.VIDEO_CODECS && VideoEncoder(a) == VideoEncoder(b)
    ensures a == b
  {}

  lemma AudioEncodersDiffer(a: string, b: string)
    requires a in P.AUDIO_CODECS && b in P.AUDIO_CODECS && AudioEncoder(a) == AudioEncoder(b)
    ensures a == b
  {}

  lemma Vp9SpeedsDiffer(a: string, b: string)
    requires a in P.ENCODE_SPEEDS && b in P.ENCODE_SPEEDS && Named(Vp9CpuUsed(a)) == Named(Vp9CpuUsed(b))
    ensures a == b
  {
    ItoaInjective(Vp9CpuUsed(a).value, Vp9CpuUsed(b).value);
  }

  lemma Av1SpeedsDiffer(a: string, b: string)
    requires a in P.ENCODE_SPEEDS && b in P.ENCODE_SPEEDS && Named(SvtAv1Preset(a)) == Named(SvtAv1Preset(b))
    ensures a == b
  {
    ItoaInjective(SvtAv1Preset(a).value, SvtAv1Preset(b).value);
  }

  lemma SameCodec(i: string, s: Spec, i': string, s': Spec)
    requires Agree(i, s, i', s') && s.videoCodec in P.VIDEO_CODECS && s'.videoCodec in P.VIDEO_CODECS
    ensures i == i' && s.videoCodec == s'.videoCodec
  {
    assert Means(i, s, Input(i));
    assert VideoEncoder(s.videoCodec).Some? && Means(i, s, VideoCodec(VideoEncoder(s.videoCodec).value));
    VideoEncodersDiffer(s.videoCodec, s'.videoCodec);
  }

  lemma SameSpeed(i: string, s: Spec, i': string, s': Spec)
    requires Agree(i, s, i', s') && s.speed in P.ENCODE_SPEEDS && s'.speed in P.ENCODE_SPEEDS
    requires s.videoCodec == s'.videoCodec != "copy"
    ensures s.speed == s'.speed
  {
    if s.videoCodec == "vp9" {
      assert Means(i, s, CpuUsed(Named(Vp9CpuUsed(s.speed)).value));
      Vp9SpeedsDiffer(s.speed, s'.speed);
    } else if s.videoCodec == "av1" {
      assert Means(i, s, Preset(Named(SvtAv1Preset(s.speed)).value));
      Av1SpeedsDiffer(s.speed, s'.speed);
    } else {
      assert Means(i, s, Preset(s.speed));
    }
  }

  lemma SameFilters(i: string, s: Spec, i': string, s': Spec)
    requires Agree(i, s, i', s') && s.videoCodec == s'.videoCodec != "copy"
    ensures s.resolution == s'.resolution && s.frameRate == s'.frameRate
  {
    var scale := "scale=-2:";
    SameSuffix(scale, s.resolution, s'.resolution);
    assert s.resolution != "source" ==> Means(i, s, Filter(scale + s.resolution));
    assert s'.resolution != "source" ==> Means(i', s', Filter(scale + s'.resolution));
    assert s.frameRate != "source" ==> Means(i, s, Rate(s.frameRate));
    assert s'.frameRate != "source" ==> Means(i', s', Rate(s'.frameRate));
  }

  lemma SameRate(i: string, s: Spec, i': string, s': Spec)
    requires Agree(i, s, i', s') && s.videoCodec == s'.videoCodec != "copy" && 0 <= s.pass && 0 <= s'.pass
    ensures s.pass == s'.pass
    ensures if s.pass == 0 then s.crf == s'.crf else s.videoKbps == s'.videoKbps && s.passLog == s'.passLog
  {
    assert s'.pass > 0 ==> Means(i', s', Pass(Itoa(s'.pass)));
    if s.pass > 0 {
      assert Means(i, s, Pass(Itoa(s.pass)));
      ItoaInjective(s.pass, s'.pass);
      assert Means(i, s, PassLog(s.passLog));
      assert Means(i, s, VideoBitrate(Itoa(s.videoKbps) + "k"));
      SameFront(Itoa(s.videoKbps), Itoa(s'.videoKbps), "k");
      ItoaInjective(s.videoKbps, s'.videoKbps);
    } else {
      assert Means(i, s, Crf(Itoa(s.crf)));
      ItoaInjective(s.crf, s'.crf);
    }
  }

  lemma SameAudio(i: string, s: Spec, i': string, s': Spec)
    requires Agree(i, s, i', s') && s.pass != 1 && s'.pass != 1
    requires s.audioCodec in P.AUDIO_CODECS && s'.audioCodec in P.AUDIO_CODECS
    ensures s.audioCodec == s'.audioCodec && (P.Lossy(s.audioCodec) ==> s.audioBitrate == s'.audioBitrate)
  {
    var e := AudioEncoder(s.audioCodec);
    assert s.audioCodec == "none" ==> Means(i, s, NoAudio);
    assert e.Some? ==> Means(i, s, AudioCodec(e.value));
    AudioEncodersDiffer(s.audioCodec, s'.audioCodec);
    SameFront(s.audioBitrate, s'.audioBitrate, "k");
    assert P.Lossy(s.audioCodec) ==> Means(i, s, AudioBitrate(s.audioBitrate + "k"));
  }

  lemma SameMux(i: string, s: Spec, i': string, s': Spec)
    requires Agree(i, s, i', s')
    ensures s.pass == 1 <==> s'.pass == 1
    ensures s.pass != 1 ==> s.stripMetadata == s'.stripMetadata && (Faststart(s) <==> Faststart(s'))
  {
    assert Means(i, s, Format("null")) <==> s.pass == 1;
    assert Means(i, s, MapMetadata("-1")) <==> s.pass != 1 && s.stripMetadata;
    assert Means(i, s, MovFlags("+faststart")) <==> s.pass != 1 && Faststart(s);
  }

  /** Two jobs with the same argv are the same job as far as ffmpeg goes: input, output, encoder
      and speed, quality or bitrate and pass, scaling, frame rate, audio and container flags. */
  lemma SettingsRecovered(i: string, o: string, s: Spec, i': string, o': string, s': Spec)
    requires Settled(s) && Settled(s') && 0 <= s.pass && 0 <= s'.pass
    requires IsFile(o) && IsFile(o') && SameArgs(i, o, s, i', o', s')
    ensures i == i' && o == o' && s.videoCodec == s'.videoCodec
    ensures s.videoCodec != "copy" ==>
              && s.speed == s'.speed && s.resolution == s'.resolution && s.frameRate == s'.frameRate
              && s.pass == s'.pass
              && (if s.pass == 0 then s.crf == s'.crf else s.videoKbps == s'.videoKbps && s.passLog == s'.passLog)
    ensures s.pass == 1 <==> s'.pass == 1
    ensures s.pass != 1 ==>
              && s.audioCodec == s'.audioCodec && (P.Lossy(s.audioCodec) ==> s.audioBitrate == s'.audioBitrate)
              && s.stripMetadata == s'.stripMetadata && (Faststart(s) <==> Faststart(s'))
  {
    SameOptions(i, o, s, i', o', s');
    SameMeanings(i, s, i', s');
    SameCodec(i, s, i', s');
    SameMux(i, s, i', s');
    if s.videoCodec != "copy" {
      SameSpeed(i, s, i', s');
      SameFilters(i, s, i', s');
      SameRate(i, s, i', s');
    }
    if s.pass != 1 {
      SameAudio(i, s, i', s');
    }
  }
}
