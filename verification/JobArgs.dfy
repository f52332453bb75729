/** From what a client asked for to what ffmpeg is asked for, option by option. */
module JobArgs {
  import opened Common
  import opened Numerals
  import opened FfmpegArgs
  import E = EditArgs
  import P = Presets

  // ---- Convert -----------------------------------------------------------------------------

  /** The encoder of each codec a client can name. */
  predicate EncodesWith(codec: string, encoder: string) {
    (codec, encoder) in
      [("h264", "libx264"), ("h265", "libx265"), ("vp9", "libvpx-vp9"), ("av1", "libsvtav1"), ("copy", "copy")]
  }

  predicate SoundsWith(codec: string, encoder: string) {
    (codec, encoder) in
      [("aac", "aac"), ("opus", "libopus"), ("mp3", "libmp3lame"), ("flac", "flac"), ("copy", "copy")]
  }

  predicate Vp9Speed(speed: string, v: string) {
    (speed, v) in
      [("veryslow", "0"), ("slow", "1"), ("medium", "2"), ("fast", "3"), ("faster", "4"), ("veryfast", "5")]
  }

  predicate Av1Speed(speed: string, v: string) {
    (speed, v) in
      [("veryslow", "2"), ("slow", "4"), ("medium", "6"), ("fast", "8"), ("faster", "9"), ("veryfast", "10")]
  }

  /** What every encode asks for. */
  predicate AsksAlways(input: string, o: Opt) {
    o in [HideBanner, NoStdin, Overwrite, NoStats, Input(input), Progress("pipe:1")]
  }

  predicate AsksForSpeed(codec: string, speed: string, o: Opt) {
    match o
    case CpuUsed(v) => codec == "vp9" && Vp9Speed(speed, v)
    case RowMt(v) => codec == "vp9" && v == "1"
    case Preset(v) => if codec == "av1" then Av1Speed(speed, v) else codec in ["h264", "h265"] && v == speed
    case _ => false
  }

  predicate AsksForPicture(resolution: string, frameRate: string, o: Opt) {
    || (resolution != "source" && o == Filter("scale=-2:" + resolution))
    || (frameRate != "source" && o == Rate(frameRate))
  }

  predicate AsksForMux(container: string, stripMetadata: bool, o: Opt) {
    (stripMetadata && o == MapMetadata("-1")) || (container in ["mp4", "mov"] && o == MovFlags("+faststart"))
  }

  predicate AsksForSound(codec: string, bitrate: string, o: Opt) {
    match o
    case NoAudio => codec == "none"
    case AudioCodec(v) => SoundsWith(codec, v)
    case AudioBitrate(v) => codec in ["aac", "opus", "mp3"] && v == bitrate + "k"
    case _ => false
  }

  /** The quality of an encode in a single pass; libvpx needs a bitrate of zero with it. */
  predicate AsksForQuality(codec: string, crf: int, o: Opt) {
    o == Crf(Itoa(crf)) || (codec == "vp9" && o == VideoBitrate("0"))
  }

  predicate ConvertAsks(input: string, p: P.Convert, o: Opt) {
    || AsksAlways(input, o) || (o.VideoCodec? && EncodesWith(p.videoCodec, o.v))
    || (p.videoCodec != "copy"
        && (AsksForSpeed(p.videoCodec, p.speed, o) || AsksForQuality(p.videoCodec, p.crf, o)
            || AsksForPicture(p.resolution, p.frameRate, o)))
    || AsksForSound(p.audioCodec, p.audioBitrate, o) || AsksForMux(p.container, p.stripMetadata, o)
  }

  /** The speed tables, written out. */
  lemma SpeedsMean(codec: string, speed: string, s: Spec, o: Opt)
    requires codec in P.VIDEO_CODECS && codec != "copy" && speed in P.ENCODE_SPEEDS
    requires s.videoCodec == codec && s.speed == speed
    ensures AsksForSpeed(codec, speed, o) <==> (o.CpuUsed? || o.RowMt? || o.Preset?) && MeansVideo(s, o)
  {
    SmallNumerals();
  }

  lemma SmallNumerals()
    ensures Itoa(0) == "0" && Itoa(1) == "1" && Itoa(2) == "2" && Itoa(3) == "3" && Itoa(4) == "4" && Itoa(5) == "5"
    ensures Itoa(6) == "6" && Itoa(8) == "8" && Itoa(9) == "9" && Itoa(10) == "10"
  {
    assert NatNumeral(1) == "1";
  }

  lemma VideoAsked(s: Spec, o: Opt)
    requires Settled(s) && s.pass == 0
    ensures MeansVideo(s, o) <==>
              || (o.VideoCodec? && EncodesWith(s.videoCodec, o.v))
              || (s.videoCodec != "copy"
                  && (AsksForSpeed(s.videoCodec, s.speed, o) || AsksForQuality(s.videoCodec, s.crf, o)
                      || AsksForPicture(s.resolution, s.frameRate, o)))
  {
    if s.videoCodec != "copy" {
      SpeedsMean(s.videoCodec, s.speed, s, o);
    }
  }

  lemma TailAsked(s: Spec, o: Opt)
    requires Settled(s) && s.pass != 1
    ensures MeansTail(s, o) <==>
              AsksForSound(s.audioCodec, s.audioBitrate, o) || AsksForMux(s.container, s.stripMetadata, o)
  {}

  lemma HeadAsked(input: string, o: Opt)
    ensures MeansHead(input, o) <==> AsksAlways(input, o)
  {}

  lemma FoldedResolves(raw: P.Payload<P.ConvertFields>, retention: int)
    requires P.ParsedConvert(raw, retention).Some?
    ensures var p := P.ParsedConvert(raw, retention).value; P.Resolved(p) == (p.speed, p.crf)
  {}

  /** The command line of an accepted convert job asks for exactly what its record says. */
  lemma ConvertMeans(input: string, raw: P.Payload<P.ConvertFields>, retention: int, o: Opt)
    requires P.ParsedConvert(raw, retention).Some?
    ensures var p := P.ParsedConvert(raw, retention).value;
            o in Options(input, SpecOfConvert(p)) <==> ConvertAsks(input, p, o)
  {
    var s := SpecOfConvert(P.ParsedConvert(raw, retention).value);
    ConvertSettled(raw, retention);
    FoldedResolves(raw, retention);
    OptionsMean(input, s, o);
    HeadAsked(input, o);
    VideoAsked(s, o);
    TailAsked(s, o);
  }

  // ---- Compress ----------------------------------------------------------------------------

  /** One of the two passes at a bitrate. */
  predicate AsksForPass(pass: int, kbps: int, log: string, o: Opt) {
    o in [VideoBitrate(Itoa(kbps) + "k"), Pass(Itoa(pass)), PassLog(log)]
  }

  predicate AsksForCrf(p: P.Compress, o: Opt) {
    var crf := P.CompressCrf(p.target, p.videoCodec);
    crf.Some? && AsksForQuality(p.videoCodec, crf.value, o)
  }

  predicate AsksForStream(p: P.Compress, pass: int, kbps: int, log: string, o: Opt) {
    || (o.VideoCodec? && EncodesWith(p.videoCodec, o.v))
    || AsksForSpeed(p.videoCodec, p.speed, o) || AsksForPicture(p.resolution, "source", o)
    || (if pass == 0 then AsksForCrf(p, o) else AsksForPass(pass, kbps, log, o))
  }

  /** A first pass has neither sound nor container. */
  predicate AsksForRest(p: P.Compress, pass: int, o: Opt) {
    if pass == 1 then o in [NoAudio, Format("null")]
    else
      || AsksForSound(if p.container == "webm" then "opus" else "aac", p.audioBitrate, o)
      || AsksForMux(p.container, p.stripMetadata, o)
  }

  /** pass is 0 for an encode at a quality. */
  predicate CompressAsks(input: string, p: P.Compress, pass: int, kbps: int, log: string, o: Opt) {
    AsksAlways(input, o) || AsksForStream(p, pass, kbps, log, o) || AsksForRest(p, pass, o)
  }

  function PassSpec(p: P.Compress, pass: int, kbps: int, log: string): Spec {
    SpecOfCompress(p).(pass := pass, videoKbps := kbps, passLog := log)
  }

  lemma PassAsked(s: Spec, o: Opt)
    requires Settled(s) && s.pass > 0 && s.videoCodec != "copy"
    ensures MeansVideo(s, o) <==>
              || (o.VideoCodec? && EncodesWith(s.videoCodec, o.v))
              || AsksForSpeed(s.videoCodec, s.speed, o) || AsksForPass(s.pass, s.videoKbps, s.passLog, o)
              || AsksForPicture(s.resolution, s.frameRate, o)
  {
    SpeedsMean(s.videoCodec, s.speed, s, o);
  }

  lemma StreamAsked(p: P.Compress, pass: int, kbps: int, log: string, o: Opt)
    requires var s := PassSpec(p, pass, kbps, log); Settled(s) && s.videoCodec != "copy" && 0 <= pass
    requires pass == 0 ==> P.CompressCrf(p.target, p.videoCodec).Some?
    ensures MeansVideo(PassSpec(p, pass, kbps, log), o) <==> AsksForStream(p, pass, kbps, log, o)
  {
    var s := PassSpec(p, pass, kbps, log);
    if pass == 0 { VideoAsked(s, o); } else { PassAsked(s, o); }
  }

  lemma RestAsked(p: P.Compress, pass: int, kbps: int, log: string, o: Opt)
    requires Settled(PassSpec(p, pass, kbps, log))
    ensures MeansTail(PassSpec(p, pass, kbps, log), o) <==> AsksForRest(p, pass, o)
  {
    if pass != 1 {
      TailAsked(PassSpec(p, pass, kbps, log), o);
    }
  }

  lemma PassSettled(raw: P.Payload<P.CompressFields>, retention: int, pass: int, kbps: int, log: string)
    requires P.ParsedCompress(raw, retention).Some?
    ensures var p := P.ParsedCompress(raw, retention).value;
            && Settled(PassSpec(p, pass, kbps, log)) && p.videoCodec != "copy"
            && (p.target != "target_size" ==> P.CompressCrf(p.target, p.videoCodec).Some?)
  {
    P.CompressCrfInBounds(raw, retention);
    CompressSettled(raw, retention);
  }

  /** So do the command lines of a compress job: one at a quality, or two passes for a size. */
  lemma CompressMeans(input: string, raw: P.Payload<P.CompressFields>, retention: int, pass: int, kbps: int,
                      log: string, o: Opt)
    requires P.ParsedCompress(raw, retention).Some?
    requires if P.ParsedCompress(raw, retention).value.target == "target_size" then pass == 1 || pass == 2
        else pass == 0
    ensures var p := P.ParsedCompress(raw, retention).value;
            o in Options(input, PassSpec(p, pass, kbps, log)) <==> CompressAsks(input, p, pass, kbps, log, o)
  {
    var p := P.ParsedCompress(raw, retention).value;
    PassSettled(raw, retention, pass, kbps, log);
    OptionsMean(input, PassSpec(p, pass, kbps, log), o);
    HeadAsked(input, o);
    StreamAsked(p, pass, kbps, log, o);
    RestAsked(p, pass, kbps, log, o);
  }

  // ---- Order -------------------------------------------------------------------------------

  /** What must stand before the input: what concerns ffmpeg as a whole, and the seek in it. */
  predicate BeforeInput(o: Opt) {
    o.HideBanner? || o.NoStdin? || o.Overwrite? || o.Seek?
  }

  /** The input stands at k, once; what concerns it before it, and what concerns the output after. */
  ghost predicate InputAt(opts: seq<Opt>, k: nat, input: string) {
    && k < |opts| && opts[k] == Input(input)
    && (forall i :: 0 <= i < k ==> BeforeInput(opts[i]))
    && (forall i :: k < i < |opts| ==> !BeforeInput(opts[i]) && !opts[i].Input?)
  }

  lemma Placed(before: seq<Opt>, input: string, after: seq<Opt>)
    requires forall o :: o in before ==> BeforeInput(o)
    requires forall o :: o in after ==> !BeforeInput(o) && !o.Input?
    ensures InputAt(before + [Input(input)] + after, |before|, input)
  {
    var opts := before + [Input(input)] + after;
    assert forall i :: |before| < i < |opts| ==> opts[i] in after;
  }

  lemma Regroup<T>(a: seq<T>, x: T, b: seq<T>, c: seq<T>, d: seq<T>, e: seq<T>)
    ensures a + ([x] + b) + c + d + e == a + [x] + (b + c + d + e)
  {}

  lemma ConvertParts(input: string, s: Spec)
    ensures Options(input, s) == [HideBanner, NoStdin, Overwrite] + [Input(input)]
        + ([Progress("pipe:1"), NoStats] + VideoOpts(s) + TailOpts(s))
  {
    var before, after := [HideBanner, NoStdin, Overwrite], [Progress("pipe:1"), NoStats];
    assert HeadOpts(input) == before + ([Input(input)] + after);
    Regroup(before, Input(input), after, VideoOpts(s), TailOpts(s), []);
    assert after + VideoOpts(s) + TailOpts(s) + [] == after + VideoOpts(s) + TailOpts(s);
    assert Options(input, s) + [] == Options(input, s);
  }

  lemma ConvertOrder(input: string, s: Spec)
    requires Settled(s)
    ensures InputAt(Options(input, s), 3, input)
  {
    var before := [HideBanner, NoStdin, Overwrite];
    var after := [Progress("pipe:1"), NoStats] + VideoOpts(s) + TailOpts(s);
    ConvertParts(input, s);
    forall o | o in after
      ensures !BeforeInput(o) && !o.Input?
    {
      VideoMeans(s, o);
      TailMeans(s, o);
    }
    Placed(before, input, after);
  }

  function AfterInput(output: string, p: P.Edit, copyOnly: bool): seq<Opt> {
    [Progress("pipe:1"), NoStats] + E.LengthOpts(p) + E.CodecOpts(p, copyOnly) + E.FastOpts(output)
  }

  lemma EditTail(input: string, output: string, p: P.Edit, copyOnly: bool, o: Opt)
    requires o in AfterInput(output, p, copyOnly)
    ensures !BeforeInput(o) && !o.Input?
  {
    E.CodecMeans(input, output, p, copyOnly, o);
  }

  lemma EditParts(input: string, output: string, p: P.Edit, copyOnly: bool)
    ensures E.EditOptions(input, output, p, copyOnly)
         == E.SeekOpts(p) + [Input(input)] + AfterInput(output, p, copyOnly)
  {
    var after := [Progress("pipe:1"), NoStats];
    assert [Input(input), Progress("pipe:1"), NoStats] == [Input(input)] + after;
    Regroup(E.SeekOpts(p), Input(input), after, E.LengthOpts(p), E.CodecOpts(p, copyOnly), E.FastOpts(output));
  }

  /** An edit seeks in its input, and cuts its output. */
  lemma EditOrder(input: string, output: string, p: P.Edit, copyOnly: bool)
    ensures InputAt(E.EditOptions(input, output, p, copyOnly), if p.start > 0.0 then 4 else 3, input)
  {
    EditParts(input, output, p, copyOnly);
    forall o | o in AfterInput(output, p, copyOnly)
      ensures !BeforeInput(o) && !o.Input?
    {
      EditTail(input, output, p, copyOnly, o);
    }
    Placed(E.SeekOpts(p), input, AfterInput(output, p, copyOnly));
  }
}
