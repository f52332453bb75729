/** The allow-lists and the parsers every job's parameters go through, twice: at the API, which
    stores what it parsed, and in the runner, which parses what was stored. */
module Presets {
  import opened Common

  // ---- Tables ------------------------------------------------------------------------------

  const VIDEO_CONTAINERS := ["mp4", "mkv", "webm", "mov"]
  const VIDEO_CODECS := ["h264", "h265", "vp9", "av1", "copy"]
  const ENCODE_SPEEDS := ["veryfast", "faster", "fast", "medium", "slow", "veryslow"]
  const RESOLUTIONS := ["source", "2160", "1440", "1080", "720", "480", "360"]
  const FRAME_RATES := ["source", "60", "30", "24"]
  const AUDIO_CODECS := ["aac", "opus", "mp3", "flac", "copy", "none"]
  const AUDIO_BITRATES := ["64", "96", "128", "192", "256", "320"]
  const AUDIO_FORMATS := ["mp3", "m4a", "opus", "flac", "wav"]
  const IMAGE_FORMATS := ["source", "jpg", "png", "webp", "avif", "gif", "tiff", "svg", "svg_trace"]
  const ENCODE_PRESETS := ["quality", "balanced", "speed", "size", "custom"]
  const COMPRESS_TARGETS := ["light", "balanced", "aggressive", "target_size"]
  const TRACE_TARGETS := ["dark", "light"]
  const TARGET_SIZE := "target_size"
  const TARGET_MIN_MB := 1
  const TARGET_MAX_MB := 65536

  function CrfBounds(codec: string): Option<(int, int)> {
    match codec
    case "h264" => Some((14, 34))
    case "h265" => Some((18, 38))
    case "vp9" => Some((20, 45))
    case "av1" => Some((20, 50))
    case _ => None
  }

  /** A row of a CRF table. */
  function PerCodec(codec: string, h264: int, h265: int, vp9: int, av1: int): Option<int> {
    match codec
    case "h264" => Some(h264)
    case "h265" => Some(h265)
    case "vp9" => Some(vp9)
    case "av1" => Some(av1)
    case _ => None
  }

  function CompressCrf(target: string, codec: string): Option<int> {
    match target
    case "light" => PerCodec(codec, 20, 24, 28, 30)
    case "balanced" => PerCodec(codec, 24, 28, 33, 36)
    case "aggressive" => PerCodec(codec, 30, 34, 40, 44)
    case _ => None
  }

  function EncodePresetCrf(preset: string, codec: string): Option<int> {
    match preset
    case "quality" => PerCodec(codec, 18, 22, 24, 26)
    case "balanced" => PerCodec(codec, 23, 27, 31, 34)
    case "speed" => PerCodec(codec, 25, 29, 33, 36)
    case "size" => PerCodec(codec, 30, 34, 40, 45)
    case _ => None
  }

  function EncodePresetSpeed(preset: string): string {
    match preset
    case "quality" => "slow"
    case "balanced" => "medium"
    case "speed" => "veryfast"
    case "size" => "slow"
    case _ => ""
  }

  // ---- Payloads ----------------------------------------------------------------------------

  /** What a JSON payload gives a decoder: some fields, or an error. */
  datatype Payload<T> = Unreadable | Fields(fields: T)

  datatype Result<T> = Ok(value: T) | Invalid(field: string)

  function Or<T>(given: Option<T>, default: T): T {
    if given.Some? then given.value else default
  }

  /** The field as it was given, or else its default. */
  predicate Taken<T(==)>(given: Option<T>, default: T, value: T) {
    match given
    case Some(v) => value == v
    case None => value == default
  }

  predicate Unlisted(given: Option<string>, table: seq<string>) {
    given.Some? && given.value !in table
  }

  predicate RetentionUnlisted(given: Option<int>) {
    given.Some? && given.value !in {0, 1, 7, 30}
  }

  method OneOf(value: string, opts: seq<string>) returns (ok: bool)
    ensures ok <==> value in opts
  {
    for i := 0 to |opts|
      invariant value !in opts[..i]
    {
      if opts[i] == value {
        return true;
      }
    }
    return false;
  }

  predicate RetentionOk(days: int) {
    days == 0 || days == 1 || days == 7 || days == 30
  }

  function DefaultAudioCodec(container: string): string {
    if container == "webm" then "opus" else "aac"
  }

  /** What a container can hold; mkv takes everything. */
  predicate TakesVideo(container: string, codec: string) {
    if container == "webm" then codec == "vp9" || codec == "av1"
    else container == "mkv" || codec != "vp9"
  }

  predicate TakesAudio(container: string, codec: string) {
    if container == "webm" then codec == "opus" || codec == "none"
    else container == "mkv" || codec != "flac"
  }

  /** Of a copied stream the codec is not known, and then neither is checked. */
  predicate Muxes(container: string, vcodec: string, acodec: string) {
    vcodec == "copy" || acodec == "copy" || (TakesVideo(container, vcodec) && TakesAudio(container, acodec))
  }

  /** The field checkContainerCodec complains about. */
  function ContainerCodecError(container: string, vcodec: string, acodec: string): Option<string> {
    if vcodec == "copy" || acodec == "copy" then None
    else if container == "webm" then
      if vcodec != "vp9" && vcodec != "av1" then Some("container")
      else if acodec != "opus" && acodec != "none" then Some("audio_codec")
      else None
    else if container == "mp4" || container == "mov" then
      if vcodec == "vp9" then Some("container")
      else if acodec == "flac" then Some("audio_codec")
      else None
    else None
  }

  // ---- Download ----------------------------------------------------------------------------

  datatype Download = Download(
    mode: string, formatId: string, audioFormat: string, audioBitrate: string, container: string,
    embedSubs: bool, embedThumb: bool, embedMetadata: bool, retentionDays: int)

  datatype DownloadFields = DownloadFields(
    mode: Option<string>, formatId: Option<string>, audioFormat: Option<string>, audioBitrate: Option<string>,
    container: Option<string>, embedSubs: Option<bool>, embedThumb: Option<bool>, embedMetadata: Option<bool>,
    retentionDays: Option<int>)

  function DecodeDownload(f: DownloadFields, retention: int): Download {
    Download(Or(f.mode, "video"), Or(f.formatId, ""), Or(f.audioFormat, ""), Or(f.audioBitrate, ""),
             Or(f.container, ""), Or(f.embedSubs, false), Or(f.embedThumb, false), Or(f.embedMetadata, false),
             Or(f.retentionDays, retention))
  }

  function EncodeDownload(p: Download): DownloadFields {
    DownloadFields(Some(p.mode), Some(p.formatId), Some(p.audioFormat), Some(p.audioBitrate), Some(p.container),
                   Some(p.embedSubs), Some(p.embedThumb), Some(p.embedMetadata), Some(p.retentionDays))
  }

  predicate Alphanumeric(c: char) {
    'a' <= c <= 'z' || 'A' <= c <= 'Z' || '0' <= c <= '9'
  }

  predicate FormatChar(c: char) {
    Alphanumeric(c) || c == '_' || c == '.' || c == '-'
  }

  predicate FormatPart(s: string) {
    s != "" && Alphanumeric(s[0]) && forall i :: 0 <= i < |s| ==> FormatChar(s[i])
  }

  function FirstPlus(s: string): (n: nat)
    ensures n <= |s| && (n < |s| ==> s[n] == '+') && forall i :: 0 <= i < n ==> s[i] != '+'
  {
    if s == "" || s[0] == '+' then 0 else 1 + FirstPlus(s[1..])
  }

  /** One part, or two joined by a plus. */
  predicate FormatIdOk(s: string) {
    var n := FirstPlus(s);
    FormatPart(s[..n]) && (n == |s| || FormatPart(s[n + 1..]))
  }

  predicate DownloadOk(p: Download) {
    && (p.formatId == "" || (FormatIdOk(p.formatId) && |p.formatId| <= 64))
    && RetentionOk(p.retentionDays)
    && match p.mode
       case "audio" => p.audioFormat in AUDIO_FORMATS && (p.audioBitrate == "" || p.audioBitrate in AUDIO_BITRATES)
       case "video" => p.container == "" || p.container in VIDEO_CONTAINERS
       case _ => false
  }

  /** What can be wrong with each field. */
  predicate DownloadFault(p: Download, field: string) {
    match field
    case "mode" => p.mode !in ["video", "audio"]
    case "format_id" => p.formatId != "" && !(FormatIdOk(p.formatId) && |p.formatId| <= 64)
    case "audio_format" => p.mode == "audio" && p.audioFormat !in AUDIO_FORMATS
    case "audio_bitrate" => p.mode == "audio" && p.audioBitrate !in [""] + AUDIO_BITRATES
    case "container" => p.mode == "video" && p.container !in [""] + VIDEO_CONTAINERS
    case "retention_days" => !RetentionOk(p.retentionDays)
    case _ => false
  }

  lemma DownloadFaults(p: Download)
    ensures DownloadOk(p) <==> forall f :: !DownloadFault(p, f)
  {
    if forall f :: !DownloadFault(p, f) {
      assert !DownloadFault(p, "mode") && !DownloadFault(p, "format_id") && !DownloadFault(p, "retention_days");
      assert !DownloadFault(p, "audio_format") && !DownloadFault(p, "audio_bitrate") && !DownloadFault(p, "container");
    }
  }

  function ParsedDownload(raw: Payload<DownloadFields>, retention: int): Option<Download> {
    if raw.Unreadable? || !DownloadOk(DecodeDownload(raw.fields, retention)) then None
    else Some(DecodeDownload(raw.fields, retention))
  }

  ghost predicate DownloadFilled(f: DownloadFields, retention: int, p: Download) {
    && Taken(f.mode, "video", p.mode) && Taken(f.formatId, "", p.formatId) && Taken(f.audioFormat, "", p.audioFormat)
    && Taken(f.audioBitrate, "", p.audioBitrate) && Taken(f.container, "", p.container)
    && Taken(f.embedSubs, false, p.embedSubs) && Taken(f.embedThumb, false, p.embedThumb)
    && Taken(f.embedMetadata, false, p.embedMetadata) && Taken(f.retentionDays, retention, p.retentionDays)
  }

  /** The client gave a value that no download takes. */
  ghost predicate DownloadUnlisted(f: DownloadFields) {
    || Unlisted(f.mode, ["video", "audio"]) || RetentionUnlisted(f.retentionDays)
    || (f.formatId.Some? && f.formatId.value != "" && (|f.formatId.value| > 64 || !FormatIdOk(f.formatId.value)))
    || (if f.mode == Some("audio")
        then Unlisted(f.audioFormat, AUDIO_FORMATS) || Unlisted(f.audioBitrate, [""] + AUDIO_BITRATES)
        else Unlisted(f.container, [""] + VIDEO_CONTAINERS))
  }

  /** Accepted exactly when no field is at fault; otherwise the field named is. */
  method ParseDownload(raw: Payload<DownloadFields>, retention: int) returns (r: Result<Download>)
    ensures r.Ok? ==> raw.Fields? && DownloadFilled(raw.fields, retention, r.value)
    ensures raw.Fields? && DownloadUnlisted(raw.fields) ==> r.Invalid?
    ensures raw.Fields? && r.Invalid? ==>
              forall p :: DownloadFilled(raw.fields, retention, p) ==> DownloadFault(p, r.field)
    ensures if r.Ok? then Some(r.value) == ParsedDownload(raw, retention) else ParsedDownload(raw, retention).None?
    ensures r.Invalid? ==>
              if raw.Unreadable? then r.field == "params"
              else DownloadFault(DecodeDownload(raw.fields, retention), r.field)
  {
    if raw.Unreadable? {
      return Invalid("params");
    }
    var p := DecodeDownload(raw.fields, retention);
    if p.mode != "video" && p.mode != "audio" {
      return Invalid("mode");
    }
    if p.formatId != "" && !FormatIdOk(p.formatId) {
      return Invalid("format_id");
    }
    if |p.formatId| > 64 {
      return Invalid("format_id");
    }
    if p.mode == "audio" {
      var known := OneOf(p.audioFormat, AUDIO_FORMATS);
      if !known {
        return Invalid("audio_format");
      }
      if p.audioBitrate != "" {
        known := OneOf(p.audioBitrate, AUDIO_BITRATES);
        if !known {
          return Invalid("audio_bitrate");
        }
      }
    } else if p.container != "" {
      var known := OneOf(p.container, VIDEO_CONTAINERS);
      if !known {
        return Invalid("container");
      }
    }
    if !RetentionOk(p.retentionDays) {
      return Invalid("retention_days");
    }
    return Ok(p);
  }

  // ---- Convert -----------------------------------------------------------------------------

  datatype Convert = Convert(
    preset: string, container: string, videoCodec: string, speed: string, crf: int, resolution: string,
    frameRate: string, audioCodec: string, audioBitrate: string, stripMetadata: bool, retentionDays: int)

  datatype ConvertFields = ConvertFields(
    preset: Option<string>, container: Option<string>, videoCodec: Option<string>, speed: Option<string>,
    crf: Option<int>, resolution: Option<string>, frameRate: Option<string>, audioCodec: Option<string>,
    audioBitrate: Option<string>, stripMetadata: Option<bool>, retentionDays: Option<int>)

  function DecodeConvert(f: ConvertFields, retention: int): Convert {
    Convert(Or(f.preset, "custom"), Or(f.container, "mp4"), Or(f.videoCodec, "h264"), Or(f.speed, "medium"),
            Or(f.crf, 23),
            Or(f.resolution, "source"), Or(f.frameRate, "source"), Or(f.audioCodec, "aac"), Or(f.audioBitrate, "192"),
            Or(f.stripMetadata, false), Or(f.retentionDays, retention))
  }

  function EncodeConvert(p: Convert): ConvertFields {
    ConvertFields(Some(p.preset), Some(p.container), Some(p.videoCodec), Some(p.speed), Some(p.crf), Some(p.resolution),
                  Some(p.frameRate), Some(p.audioCodec), Some(p.audioBitrate), Some(p.stripMetadata),
                  Some(p.retentionDays))
  }

  predicate CrfWithin(crf: int, codec: string) {
    CrfBounds(codec).Some? && CrfBounds(codec).value.0 <= crf <= CrfBounds(codec).value.1
  }

  predicate Lossy(audioCodec: string) {
    audioCodec != "none" && audioCodec != "copy" && audioCodec != "flac"
  }

  /** The raw knobs matter for "custom" only; any other preset has settings for every codec with a
      quality range, and for no other. */
  predicate PresetOk(p: Convert) {
    if p.preset == "custom" then p.speed in ENCODE_SPEEDS && (p.videoCodec == "copy" || CrfWithin(p.crf, p.videoCodec))
    else p.preset in ENCODE_PRESETS && CrfBounds(p.videoCodec).Some?
  }

  predicate StreamsOk(p: Convert) {
    && p.resolution in RESOLUTIONS && p.frameRate in FRAME_RATES && p.audioCodec in AUDIO_CODECS
    && (Lossy(p.audioCodec) ==> p.audioBitrate in AUDIO_BITRATES)
  }

  predicate ConvertOk(p: Convert) {
    && p.container in VIDEO_CONTAINERS && p.videoCodec in VIDEO_CODECS && StreamsOk(p)
    && PresetOk(p) && Muxes(p.container, p.videoCodec, p.audioCodec) && RetentionOk(p.retentionDays)
  }

  predicate ConvertFault(p: Convert, field: string) {
    var unknown := p.videoCodec == "copy" || p.audioCodec == "copy";
    match field
    case "container" => p.container !in VIDEO_CONTAINERS || (!unknown && !TakesVideo(p.container, p.videoCodec))
    case "video_codec" => p.videoCodec !in VIDEO_CODECS
    case "preset" => p.preset !in ENCODE_PRESETS || (p.preset != "custom" && CrfBounds(p.videoCodec).None?)
    case "speed" => p.preset == "custom" && p.speed !in ENCODE_SPEEDS
    case "crf" => p.preset == "custom" && p.videoCodec != "copy" && !CrfWithin(p.crf, p.videoCodec)
    case "resolution" => p.resolution !in RESOLUTIONS
    case "frame_rate" => p.frameRate !in FRAME_RATES
    case "audio_codec" => p.audioCodec !in AUDIO_CODECS || (!unknown && !TakesAudio(p.container, p.audioCodec))
    case "audio_bitrate" => Lossy(p.audioCodec) && p.audioBitrate !in AUDIO_BITRATES
    case "retention_days" => !RetentionOk(p.retentionDays)
    case _ => false
  }

  lemma ConvertFaults(p: Convert)
    ensures ConvertOk(p) <==> forall f :: !ConvertFault(p, f)
  {
    if forall f :: !ConvertFault(p, f) {
      assert !ConvertFault(p, "container") && !ConvertFault(p, "video_codec") && !ConvertFault(p, "preset");
      assert !ConvertFault(p, "speed") && !ConvertFault(p, "crf") && !ConvertFault(p, "resolution");
      assert !ConvertFault(p, "frame_rate") && !ConvertFault(p, "audio_codec") && !ConvertFault(p, "audio_bitrate");
      assert !ConvertFault(p, "retention_days");
    }
  }

  /** The speed and quality a job runs with: those of its preset, or its own if there is none for it. */
  function Resolved(p: Convert): (string, int) {
    var crf := EncodePresetCrf(p.preset, p.videoCodec);
    if crf.None? then (p.speed, p.crf) else (EncodePresetSpeed(p.preset), crf.value)
  }

  /** The record of an accepted job: with a preset, its own speed and quality for the codec. */
  function Folded(p: Convert): Convert {
    if p.preset == "custom" then p
    else p.(speed := EncodePresetSpeed(p.preset), crf := Or(EncodePresetCrf(p.preset, p.videoCodec), p.crf))
  }

  function ParsedConvert(raw: Payload<ConvertFields>, retention: int): Option<Convert> {
    if raw.Unreadable? || !ConvertOk(DecodeConvert(raw.fields, retention)) then None
    else Some(Folded(DecodeConvert(raw.fields, retention)))
  }

  lemma MuxFault(p: Convert)
    requires p.container in VIDEO_CONTAINERS
    ensures var error := ContainerCodecError(p.container, p.videoCodec, p.audioCodec);
            if error.None? then Muxes(p.container, p.videoCodec, p.audioCodec)
            else !Muxes(p.container, p.videoCodec, p.audioCodec) && ConvertFault(p, error.value)
  {}

  lemma ResolvedIsFolded(p: Convert)
    requires PresetOk(p)
    ensures p.(speed := Resolved(p).0, crf := Resolved(p).1) == Folded(p)
  {}

  method CheckPreset(p: Convert) returns (error: Option<string>)
    ensures error.None? <==> PresetOk(p)
    ensures error.Some? ==> ConvertFault(p, error.value)
  {
    if p.preset != "custom" {
      if p.videoCodec == "copy" {
        return Some("preset");
      }
      if EncodePresetCrf(p.preset, p.videoCodec).None? {
        return Some("preset");
      }
      return None;
    }
    var known := OneOf(p.speed, ENCODE_SPEEDS);
    if !known {
      return Some("speed");
    }
    if p.videoCodec == "copy" {
      return None;
    }
    var b := CrfBounds(p.videoCodec);
    if b.None? {
      return Some("video_codec");
    }
    if p.crf < b.value.0 || p.crf > b.value.1 {
      return Some("crf");
    }
    return None;
  }

  /** The checks of ParseConvert on picture size and sound. */
  method CheckStreams(p: Convert) returns (error: Option<string>)
    ensures error.None? <==> StreamsOk(p)
    ensures error.Some? ==> ConvertFault(p, error.value)
  {
    var known := OneOf(p.resolution, RESOLUTIONS);
    if !known {
      return Some("resolution");
    }
    known := OneOf(p.frameRate, FRAME_RATES);
    if !known {
      return Some("frame_rate");
    }
    known := OneOf(p.audioCodec, AUDIO_CODECS);
    if !known {
      return Some("audio_codec");
    }
    if p.audioCodec != "none" && p.audioCodec != "copy" && p.audioCodec != "flac" {
      known := OneOf(p.audioBitrate, AUDIO_BITRATES);
      if !known {
        return Some("audio_bitrate");
      }
    }
    return None;
  }

  /** The checks of ParseConvert, in its order. */
  method CheckConvert(p: Convert) returns (error: Option<string>)
    ensures error.None? <==> ConvertOk(p)
    ensures error.Some? ==> ConvertFault(p, error.value)
  {
    var known := OneOf(p.container, VIDEO_CONTAINERS);
    if !known {
      return Some("container");
    }
    known := OneOf(p.videoCodec, VIDEO_CODECS);
    if !known {
      return Some("video_codec");
    }
    known := OneOf(p.preset, ENCODE_PRESETS);
    if !known {
      return Some("preset");
    }
    error := CheckPreset(p);
    if error.Some? {
      return error;
    }
    error := CheckStreams(p);
    if error.Some? {
      return error;
    }
    MuxFault(p);
    error := ContainerCodecError(p.container, p.videoCodec, p.audioCodec);
    if error.Some? {
      return error;
    }
    if !RetentionOk(p.retentionDays) {
      return Some("retention_days");
    }
    return None;
  }

  ghost predicate ConvertFilled(f: ConvertFields, retention: int, p: Convert) {
    ConvertTaken(f, retention, p) && Taken(f.speed, "medium", p.speed) && Taken(f.crf, 23, p.crf)
  }

  /** Every field but the two a preset decides. */
  ghost predicate ConvertTaken(f: ConvertFields, retention: int, p: Convert) {
    && Taken(f.preset, "custom", p.preset) && Taken(f.container, "mp4", p.container)
    && Taken(f.videoCodec, "h264", p.videoCodec) && Taken(f.resolution, "source", p.resolution)
    && Taken(f.frameRate, "source", p.frameRate) && Taken(f.audioCodec, "aac", p.audioCodec)
    && Taken(f.audioBitrate, "192", p.audioBitrate) && Taken(f.stripMetadata, false, p.stripMetadata)
    && Taken(f.retentionDays, retention, p.retentionDays)
  }

  ghost predicate ConvertUnlisted(f: ConvertFields) {
    || Unlisted(f.container, VIDEO_CONTAINERS) || Unlisted(f.videoCodec, VIDEO_CODECS)
    || Unlisted(f.preset, ENCODE_PRESETS) || Unlisted(f.resolution, RESOLUTIONS)
    || Unlisted(f.frameRate, FRAME_RATES) || Unlisted(f.audioCodec, AUDIO_CODECS) || RetentionUnlisted(f.retentionDays)
    || (f.audioCodec !in {Some("none"), Some("copy"), Some("flac")} && Unlisted(f.audioBitrate, AUDIO_BITRATES))
    || (f.preset in {None, Some("custom")} && (Unlisted(f.speed, ENCODE_SPEEDS) || CrfUnlisted(f.videoCodec, f.crf)))
  }

  ghost predicate CrfUnlisted(videoCodec: Option<string>, crf: Option<int>) {
    crf.Some? && (match videoCodec
                  case None => !(14 <= crf.value <= 34)
                  case Some(codec) => codec != "copy" && !CrfWithin(crf.value, codec))
  }

  method ParseConvert(raw: Payload<ConvertFields>, retention: int) returns (r: Result<Convert>)
    ensures r.Ok? ==> raw.Fields? && ConvertTaken(raw.fields, retention, r.value)
    ensures r.Ok? && r.value.preset == "custom" ==>
              Taken(raw.fields.speed, "medium", r.value.speed) && Taken(raw.fields.crf, 23, r.value.crf)
    ensures r.Ok? && r.value.preset != "custom" ==>
              && r.value.speed == EncodePresetSpeed(r.value.preset)
              && Some(r.value.crf) == EncodePresetCrf(r.value.preset, r.value.videoCodec)
    ensures raw.Fields? && ConvertUnlisted(raw.fields) ==> r.Invalid?
    ensures raw.Fields? && r.Invalid? ==>
              forall p :: ConvertFilled(raw.fields, retention, p) ==> ConvertFault(p, r.field)
    ensures if r.Ok? then Some(r.value) == ParsedConvert(raw, retention) else ParsedConvert(raw, retention).None?
    ensures r.Invalid? ==>
              if raw.Unreadable? then r.field == "params"
              else ConvertFault(DecodeConvert(raw.fields, retention), r.field)
  {
    if raw.Unreadable? {
      return Invalid("params");
    }
    var p := DecodeConvert(raw.fields, retention);
    var error := CheckConvert(p);
    if error.Some? {
      return Invalid(error.value);
    }
    ResolvedIsFolded(p);
    var resolved := Resolved(p);
    p := p.(speed := resolved.0, crf := resolved.1);
    return Ok(p);
  }

  // ---- Compress ----------------------------------------------------------------------------

  datatype Compress = Compress(
    target: string, targetSizeMB: int, container: string, videoCodec: string, speed: string, resolution: string,
    audioBitrate: string, stripMetadata: bool, retentionDays: int)

  datatype CompressFields = CompressFields(
    target: Option<string>, targetSizeMB: Option<int>, container: Option<string>, videoCodec: Option<string>,
    speed: Option<string>, resolution: Option<string>, audioBitrate: Option<string>, stripMetadata: Option<bool>,
    retentionDays: Option<int>)

  function DecodeCompress(f: CompressFields, retention: int): Compress {
    Compress(Or(f.target, "balanced"), Or(f.targetSizeMB, 0), Or(f.container, "mp4"), Or(f.videoCodec, "h264"),
             Or(f.speed, "medium"), Or(f.resolution, "source"), Or(f.audioBitrate, "128"), Or(f.stripMetadata, false),
             Or(f.retentionDays, retention))
  }

  function EncodeCompress(p: Compress): CompressFields {
    CompressFields(Some(p.target), Some(p.targetSizeMB), Some(p.container), Some(p.videoCodec), Some(p.speed),
                   Some(p.resolution), Some(p.audioBitrate), Some(p.stripMetadata), Some(p.retentionDays))
  }

  function TargetSizeError(p: Compress): Option<string> {
    if p.target != TARGET_SIZE then
      if p.targetSizeMB != 0 then Some("target_size_mb")
      else if CompressCrf(p.target, p.videoCodec).None? then Some("video_codec")
      else None
    else if p.videoCodec == "copy" then Some("video_codec")
    else if CrfBounds(p.videoCodec).None? then Some("video_codec")
    else if p.targetSizeMB == 0 then Some("target_size_mb")
    else if p.targetSizeMB < TARGET_MIN_MB || p.targetSizeMB > TARGET_MAX_MB then Some("target_size_mb")
    else None
  }

  predicate SizeOk(p: Compress) {
    if p.target == TARGET_SIZE then TARGET_MIN_MB <= p.targetSizeMB <= TARGET_MAX_MB else p.targetSizeMB == 0
  }

  /** The stream is always encoded anew, with the audio codec its container calls for. */
  predicate CompressOk(p: Compress) {
    && p.target in COMPRESS_TARGETS && p.container in VIDEO_CONTAINERS && p.speed in ENCODE_SPEEDS
    && p.resolution in RESOLUTIONS && p.audioBitrate in AUDIO_BITRATES
    && CrfBounds(p.videoCodec).Some? && TakesVideo(p.container, p.videoCodec)
    && SizeOk(p) && RetentionOk(p.retentionDays)
  }

  predicate CompressFault(p: Compress, field: string) {
    match field
    case "target" => p.target !in COMPRESS_TARGETS
    case "container" => p.container !in VIDEO_CONTAINERS || !TakesVideo(p.container, p.videoCodec)
    case "speed" => p.speed !in ENCODE_SPEEDS
    case "resolution" => p.resolution !in RESOLUTIONS
    case "audio_bitrate" => p.audioBitrate !in AUDIO_BITRATES
    case "video_codec" => CrfBounds(p.videoCodec).None?
    case "target_size_mb" => !SizeOk(p)
    case "retention_days" => !RetentionOk(p.retentionDays)
    case _ => false
  }

  lemma CompressFaults(p: Compress)
    ensures CompressOk(p) <==> forall f :: !CompressFault(p, f)
  {
    if forall f :: !CompressFault(p, f) {
      assert !CompressFault(p, "target") && !CompressFault(p, "container") && !CompressFault(p, "speed");
      assert !CompressFault(p, "resolution") && !CompressFault(p, "audio_bitrate") && !CompressFault(p, "video_codec");
      assert !CompressFault(p, "target_size_mb") && !CompressFault(p, "retention_days");
    }
  }

  function ParsedCompress(raw: Payload<CompressFields>, retention: int): Option<Compress> {
    if raw.Unreadable? || !CompressOk(DecodeCompress(raw.fields, retention)) then None
    else Some(DecodeCompress(raw.fields, retention))
  }

  /** A missing table entry reads as zero. */
  function CompressCrfFor(p: Compress): int {
    Or(CompressCrf(p.target, p.videoCodec), 0)
  }

  /** The checks of ParseCompress, in its order. */
  method CheckCompress(p: Compress) returns (error: Option<string>)
    ensures error.None? <==> CompressOk(p)
    ensures error.Some? ==> CompressFault(p, error.value)
  {
    var known := OneOf(p.target, COMPRESS_TARGETS);
    if !known {
      return Some("target");
    }
    known := OneOf(p.container, VIDEO_CONTAINERS);
    if !known {
      return Some("container");
    }
    known := OneOf(p.speed, ENCODE_SPEEDS);
    if !known {
      return Some("speed");
    }
    known := OneOf(p.resolution, RESOLUTIONS);
    if !known {
      return Some("resolution");
    }
    known := OneOf(p.audioBitrate, AUDIO_BITRATES);
    if !known {
      return Some("audio_bitrate");
    }
    error := TargetSizeError(p);
    if error.Some? {
      return error;
    }
    error := ContainerCodecError(p.container, p.videoCodec, DefaultAudioCodec(p.container));
    if error.Some? {
      return error;
    }
    if !RetentionOk(p.retentionDays) {
      return Some("retention_days");
    }
    return None;
  }

  ghost predicate CompressFilled(f: CompressFields, retention: int, p: Compress) {
    && Taken(f.target, "balanced", p.target) && Taken(f.targetSizeMB, 0, p.targetSizeMB)
    && Taken(f.container, "mp4", p.container) && Taken(f.videoCodec, "h264", p.videoCodec)
    && Taken(f.speed, "medium", p.speed) && Taken(f.resolution, "source", p.resolution)
    && Taken(f.audioBitrate, "128", p.audioBitrate) && Taken(f.stripMetadata, false, p.stripMetadata)
    && Taken(f.retentionDays, retention, p.retentionDays)
  }

  ghost predicate CompressUnlisted(f: CompressFields) {
    || Unlisted(f.target, COMPRESS_TARGETS) || Unlisted(f.container, VIDEO_CONTAINERS)
    || Unlisted(f.videoCodec, ["h264", "h265", "vp9", "av1"]) || Unlisted(f.speed, ENCODE_SPEEDS)
    || Unlisted(f.resolution, RESOLUTIONS) || Unlisted(f.audioBitrate, AUDIO_BITRATES)
    || RetentionUnlisted(f.retentionDays)
    || (if f.target == Some("target_size") then f.targetSizeMB.None? || !(1 <= f.targetSizeMB.value <= 65536)
        else f.targetSizeMB !in {None, Some(0)})
  }

  method ParseCompress(raw: Payload<CompressFields>, retention: int) returns (r: Result<Compress>)
    ensures r.Ok? ==> raw.Fields? && CompressFilled(raw.fields, retention, r.value)
    ensures raw.Fields? && CompressUnlisted(raw.fields) ==> r.Invalid?
    ensures raw.Fields? && r.Invalid? ==>
              forall p :: CompressFilled(raw.fields, retention, p) ==> CompressFault(p, r.field)
    ensures if r.Ok? then Some(r.value) == ParsedCompress(raw, retention) else ParsedCompress(raw, retention).None?
    ensures r.Invalid? ==>
              if raw.Unreadable? then r.field == "params"
              else CompressFault(DecodeCompress(raw.fields, retention), r.field)
  {
    if raw.Unreadable? {
      return Invalid("params");
    }
    var p := DecodeCompress(raw.fields, retention);
    var error := CheckCompress(p);
    if error.Some? {
      return Invalid(error.value);
    }
    return Ok(p);
  }

  // ---- Image -------------------------------------------------------------------------------

  const MAX_DIM := 20000

  datatype Image = Image(
    format: string, trace: string, quality: int, width: int, height: int, stripMetadata: bool, retentionDays: int)

  datatype ImageFields = ImageFields(
    format: Option<string>, trace: Option<string>, quality: Option<int>, width: Option<int>, height: Option<int>,
    stripMetadata: Option<bool>, retentionDays: Option<int>)

  function DecodeImage(f: ImageFields, retention: int): Image {
    Image(Or(f.format, "webp"), Or(f.trace, "dark"), Or(f.quality, 82), Or(f.width, 0), Or(f.height, 0),
          Or(f.stripMetadata, true), Or(f.retentionDays, retention))
  }

  function EncodeImage(p: Image): ImageFields {
    ImageFields(Some(p.format), Some(p.trace), Some(p.quality), Some(p.width), Some(p.height), Some(p.stripMetadata),
                Some(p.retentionDays))
  }

  predicate ImageOk(p: Image) {
    && p.format in IMAGE_FORMATS && p.trace in TRACE_TARGETS && RetentionOk(p.retentionDays)
    && 0 <= p.quality <= 100 && 0 <= p.width <= MAX_DIM && 0 <= p.height <= MAX_DIM
  }

  predicate ImageFault(p: Image, field: string) {
    match field
    case "format" => p.format !in IMAGE_FORMATS
    case "trace" => p.trace !in TRACE_TARGETS
    case "quality" => !(0 <= p.quality <= 100)
    case "width" => !(0 <= p.width <= MAX_DIM)
    case "height" => !(0 <= p.height <= MAX_DIM)
    case "retention_days" => !RetentionOk(p.retentionDays)
    case _ => false
  }

  lemma ImageFaults(p: Image)
    ensures ImageOk(p) <==> forall f :: !ImageFault(p, f)
  {
    if forall f :: !ImageFault(p, f) {
      assert !ImageFault(p, "format") && !ImageFault(p, "trace") && !ImageFault(p, "quality");
      assert !ImageFault(p, "width") && !ImageFault(p, "height") && !ImageFault(p, "retention_days");
    }
  }

  function ParsedImage(raw: Payload<ImageFields>, retention: int): Option<Image> {
    if raw.Unreadable? || !ImageOk(DecodeImage(raw.fields, retention)) then None
    else Some(DecodeImage(raw.fields, retention))
  }

  ghost predicate ImageFilled(f: ImageFields, retention: int, p: Image) {
    && Taken(f.format, "webp", p.format) && Taken(f.trace, "dark", p.trace) && Taken(f.quality, 82, p.quality)
    && Taken(f.width, 0, p.width) && Taken(f.height, 0, p.height) && Taken(f.stripMetadata, true, p.stripMetadata)
    && Taken(f.retentionDays, retention, p.retentionDays)
  }

  ghost predicate ImageUnlisted(f: ImageFields) {
    || Unlisted(f.format, IMAGE_FORMATS) || Unlisted(f.trace, TRACE_TARGETS) || RetentionUnlisted(f.retentionDays)
    || (f.quality.Some? && !(0 <= f.quality.value <= 100))
    || (f.width.Some? && !(0 <= f.width.value <= 20000)) || (f.height.Some? && !(0 <= f.height.value <= 20000))
  }

  method ParseImage(raw: Payload<ImageFields>, retention: int) returns (r: Result<Image>)
    ensures r.Ok? ==> raw.Fields? && ImageFilled(raw.fields, retention, r.value)
    ensures raw.Fields? && ImageUnlisted(raw.fields) ==> r.Invalid?
    ensures raw.Fields? && r.Invalid? ==>
              forall p :: ImageFilled(raw.fields, retention, p) ==> ImageFault(p, r.field)
    ensures if r.Ok? then Some(r.value) == ParsedImage(raw, retention) else ParsedImage(raw, retention).None?
    ensures r.Invalid? ==>
              if raw.Unreadable? then r.field == "params"
              else ImageFault(DecodeImage(raw.fields, retention), r.field)
  {
    if raw.Unreadable? {
      return Invalid("params");
    }
    var p := DecodeImage(raw.fields, retention);
    var known := OneOf(p.format, IMAGE_FORMATS);
    if !known {
      return Invalid("format");
    }
    known := OneOf(p.trace, TRACE_TARGETS);
    if !known {
      return Invalid("trace");
    }
    if p.quality < 0 || p.quality > 100 {
      return Invalid("quality");
    }
    if p.width < 0 || p.width > MAX_DIM {
      return Invalid("width");
    }
    if p.height < 0 || p.height > MAX_DIM {
      return Invalid("height");
    }
    if !RetentionOk(p.retentionDays) {
      return Invalid("retention_days");
    }
    return Ok(p);
  }

  // ---- Edit --------------------------------------------------------------------------------

  const EDIT_MAX_SECONDS: real := 86400.0
  const EDIT_MIN_SPAN: real := 0.1
  const CROP_MIN := 16
  const CROP_MAX := 20000

  datatype Edit = Edit(start: real, end: real, cropX: int, cropY: int, cropW: int, cropH: int, retentionDays: int)

  datatype EditFields = EditFields(
    start: Option<real>, end: Option<real>, cropX: Option<int>, cropY: Option<int>, cropW: Option<int>,
    cropH: Option<int>, retentionDays: Option<int>)

  function DecodeEdit(f: EditFields, retention: int): Edit {
    Edit(Or(f.start, 0.0), Or(f.end, 0.0), Or(f.cropX, 0), Or(f.cropY, 0), Or(f.cropW, 0), Or(f.cropH, 0),
         Or(f.retentionDays, retention))
  }

  function EncodeEdit(p: Edit): EditFields {
    EditFields(Some(p.start), Some(p.end), Some(p.cropX), Some(p.cropY), Some(p.cropW), Some(p.cropH),
               Some(p.retentionDays))
  }

  /** The low bit cleared: towards minus infinity for negative numbers too. */
  function Even(n: int): int {
    n - n % 2
  }

  predicate NoCrop(p: Edit) {
    p.cropW == 0 && p.cropH == 0
  }

  function Rounded(p: Edit): Edit {
    if NoCrop(p) then p else p.(cropW := Even(p.cropW), cropH := Even(p.cropH))
  }

  predicate CropSizeOk(n: int) {
    CROP_MIN <= n <= CROP_MAX
  }

  /** Before rounding: one pixel more than the most is still taken. */
  predicate CropSideOk(n: int) {
    CROP_MIN <= n <= CROP_MAX + 1
  }

  predicate OffsetsOk(p: Edit) {
    if NoCrop(p) then p.cropX == 0 && p.cropY == 0 else 0 <= p.cropX <= CROP_MAX && 0 <= p.cropY <= CROP_MAX
  }

  predicate CropOk(p: Edit) {
    OffsetsOk(p) && (NoCrop(p) || (CropSideOk(p.cropW) && CropSideOk(p.cropH)))
  }

  predicate EditOk(p: Edit) {
    && 0.0 <= p.start <= EDIT_MAX_SECONDS && 0.0 <= p.end <= EDIT_MAX_SECONDS
    && (p.end == 0.0 || p.end >= p.start + EDIT_MIN_SPAN)
    && CropOk(p) && RetentionOk(p.retentionDays)
  }

  /** An offset without a crop is a fault of the missing width. */
  predicate EditFault(p: Edit, field: string) {
    match field
    case "start" => !(0.0 <= p.start <= EDIT_MAX_SECONDS)
    case "end" => !(p.end == 0.0 || p.start + EDIT_MIN_SPAN <= p.end <= EDIT_MAX_SECONDS)
    case "crop_w" => if NoCrop(p) then !OffsetsOk(p) else !CropSideOk(p.cropW)
    case "crop_h" => !NoCrop(p) && !CropSideOk(p.cropH)
    case "crop_x" => !NoCrop(p) && !OffsetsOk(p)
    case "retention_days" => !RetentionOk(p.retentionDays)
    case _ => false
  }

  lemma EditFaults(p: Edit)
    ensures EditOk(p) <==> forall f :: !EditFault(p, f)
  {
    if forall f :: !EditFault(p, f) {
      assert !EditFault(p, "start") && !EditFault(p, "end") && !EditFault(p, "retention_days");
      assert !EditFault(p, "crop_w") && !EditFault(p, "crop_h") && !EditFault(p, "crop_x");
    }
  }

  function ParsedEdit(raw: Payload<EditFields>, retention: int): Option<Edit> {
    if raw.Unreadable? || !EditOk(DecodeEdit(raw.fields, retention)) then None
    else Some(Rounded(DecodeEdit(raw.fields, retention)))
  }

  /** The two sizes are looked at in either order. */
  method CheckCrop(p: Edit) returns (q: Edit, error: Option<string>)
    ensures q == Rounded(p)
    ensures error.None? <==> CropOk(p)
    ensures error.Some? ==> EditFault(p, error.value)
  {
    q, error := p, None;
    if q.cropW == 0 && q.cropH == 0 {
      if q.cropX != 0 || q.cropY != 0 {
        error := Some("crop_w");
      }
      return;
    }
    q := q.(cropW := q.cropW - q.cropW % 2);
    q := q.(cropH := q.cropH - q.cropH % 2);
    var sizes := map["crop_w" := q.cropW, "crop_h" := q.cropH];
    var rest := sizes.Keys;
    while rest != {}
      invariant rest <= sizes.Keys
      invariant forall f :: f in sizes && f !in rest ==> CropSizeOk(sizes[f])
    {
      var field: string :| field in rest;
      var v := sizes[field];
      if v < CROP_MIN || v > CROP_MAX {
        error := Some(field);
        return;
      }
      rest := rest - {field};
    }
    assert CropSizeOk(sizes["crop_w"]) && CropSizeOk(sizes["crop_h"]);
    if q.cropX < 0 || q.cropY < 0 || q.cropX > CROP_MAX || q.cropY > CROP_MAX {
      error := Some("crop_x");
    }
  }

  ghost predicate EditFilled(f: EditFields, retention: int, p: Edit) {
    EditTaken(f, retention, p) && Taken(f.cropW, 0, p.cropW) && Taken(f.cropH, 0, p.cropH)
  }

  /** Every field but the two that are rounded. */
  ghost predicate EditTaken(f: EditFields, retention: int, p: Edit) {
    && Taken(f.start, 0.0, p.start) && Taken(f.end, 0.0, p.end) && Taken(f.cropX, 0, p.cropX)
    && Taken(f.cropY, 0, p.cropY) && Taken(f.retentionDays, retention, p.retentionDays)
  }

  ghost predicate EditUnlisted(f: EditFields) {
    || (f.start.Some? && !(0.0 <= f.start.value <= 86400.0)) || (f.end.Some? && !(0.0 <= f.end.value <= 86400.0))
    || (f.cropW.Some? && f.cropW.value > 20001) || (f.cropH.Some? && f.cropH.value > 20001)
    || (f.cropX.Some? && !(0 <= f.cropX.value <= 20000)) || (f.cropY.Some? && !(0 <= f.cropY.value <= 20000))
    || RetentionUnlisted(f.retentionDays)
  }

  /** n, or the number below it if n is odd. */
  ghost predicate EvenBelow(n: int, r: int) {
    r % 2 == 0 && r <= n <= r + 1
  }

  method ParseEdit(raw: Payload<EditFields>, retention: int) returns (r: Result<Edit>)
    ensures r.Ok? ==>
              && raw.Fields? && EditTaken(raw.fields, retention, r.value)
              && EvenBelow(Or(raw.fields.cropW, 0), r.value.cropW) && EvenBelow(Or(raw.fields.cropH, 0), r.value.cropH)
    ensures raw.Fields? && EditUnlisted(raw.fields) ==> r.Invalid?
    ensures raw.Fields? && r.Invalid? ==>
              forall p :: EditFilled(raw.fields, retention, p) ==> EditFault(p, r.field)
    ensures if r.Ok? then Some(r.value) == ParsedEdit(raw, retention) else ParsedEdit(raw, retention).None?
    ensures r.Invalid? ==>
              if raw.Unreadable? then r.field == "params"
              else EditFault(DecodeEdit(raw.fields, retention), r.field)
  {
    if raw.Unreadable? {
      return Invalid("params");
    }
    var p := DecodeEdit(raw.fields, retention);
    if p.start < 0.0 || p.start > EDIT_MAX_SECONDS {
      return Invalid("start");
    }
    if p.end < 0.0 || p.end > EDIT_MAX_SECONDS {
      return Invalid("end");
    }
    if p.end > 0.0 && p.end - p.start < EDIT_MIN_SPAN {
      return Invalid("end");
    }
    var error;
    p, error := CheckCrop(p);
    if error.Some? {
      return Invalid(error.value);
    }
    if !RetentionOk(p.retentionDays) {
      return Invalid("retention_days");
    }
    return Ok(p);
  }

  /** The output length, 0 when the cut runs to the end. */
  function Span(p: Edit): real {
    if p.end <= p.start then 0.0 else p.end - p.start
  }

  // ---- Twice parsed ------------------------------------------------------------------------

  datatype Request =
    | DownloadRequest(download: Payload<DownloadFields>)
    | ConvertRequest(convert: Payload<ConvertFields>)
    | CompressRequest(compress: Payload<CompressFields>)
    | ImageRequest(image: Payload<ImageFields>)
    | EditRequest(edit: Payload<EditFields>)

  datatype Params =
    | DownloadParams(download: Download)
    | ConvertParams(convert: Convert)
    | CompressParams(compress: Compress)
    | ImageParams(image: Image)
    | EditParams(edit: Edit)

  function Lift<A, B>(r: Option<A>, f: A -> B): Option<B> {
    if r.Some? then Some(f(r.value)) else None
  }

  /** What parseParams accepts, and what each runner makes of the stored form. */
  function ParseParams(req: Request, retention: int): Option<Params> {
    match req
    case DownloadRequest(raw) => Lift(ParsedDownload(raw, retention), p => DownloadParams(p))
    case ConvertRequest(raw) => Lift(ParsedConvert(raw, retention), p => ConvertParams(p))
    case CompressRequest(raw) => Lift(ParsedCompress(raw, retention), p => CompressParams(p))
    case ImageRequest(raw) => Lift(ParsedImage(raw, retention), p => ImageParams(p))
    case EditRequest(raw) => Lift(ParsedEdit(raw, retention), p => EditParams(p))
  }

  /** The job record: every field of the validated parameters, spelled out. */
  function Stored(p: Params): Request {
    match p
    case DownloadParams(v) => DownloadRequest(Fields(EncodeDownload(v)))
    case ConvertParams(v) => ConvertRequest(Fields(EncodeConvert(v)))
    case CompressParams(v) => CompressRequest(Fields(EncodeCompress(v)))
    case ImageParams(v) => ImageRequest(Fields(EncodeImage(v)))
    case EditParams(v) => EditRequest(Fields(EncodeEdit(v)))
  }

  lemma FoldedStays(p: Convert)
    requires ConvertOk(p)
    ensures ConvertOk(Folded(p)) && Folded(Folded(p)) == Folded(p)
  {}

  lemma RoundedStays(p: Edit)
    requires EditOk(p)
    ensures EditOk(Rounded(p)) && Rounded(Rounded(p)) == Rounded(p)
  {}

  lemma ConvertReparse(raw: Payload<ConvertFields>, retention: int, retention': int)
    requires ParsedConvert(raw, retention).Some?
    ensures var p := ParsedConvert(raw, retention).value;
            ParsedConvert(Fields(EncodeConvert(p)), retention') == Some(p)
  {
    var p := DecodeConvert(raw.fields, retention);
    FoldedStays(p);
    assert DecodeConvert(EncodeConvert(Folded(p)), retention') == Folded(p);
  }

  lemma EditReparse(raw: Payload<EditFields>, retention: int, retention': int)
    requires ParsedEdit(raw, retention).Some?
    ensures var p := ParsedEdit(raw, retention).value;
            ParsedEdit(Fields(EncodeEdit(p)), retention') == Some(p)
  {
    var p := DecodeEdit(raw.fields, retention);
    RoundedStays(p);
    assert DecodeEdit(EncodeEdit(Rounded(p)), retention') == Rounded(p);
  }

  /** Whatever the API accepts, the runner accepts from the record, whatever its own default
      retention, and reads exactly the parameters the API validated. */
  lemma ReparseIsFixed(req: Request, retention: int, retention': int)
    requires ParseParams(req, retention).Some?
    ensures var p := ParseParams(req, retention).value;
            ParseParams(Stored(p), retention') == Some(p)
  {
    match req {
      case DownloadRequest(raw) =>
        var p := DecodeDownload(raw.fields, retention);
        assert DecodeDownload(EncodeDownload(p), retention') == p;
      case ConvertRequest(raw) => ConvertReparse(raw, retention, retention');
      case CompressRequest(raw) =>
        var p := DecodeCompress(raw.fields, retention);
        assert DecodeCompress(EncodeCompress(p), retention') == p;
      case ImageRequest(raw) =>
        var p := DecodeImage(raw.fields, retention);
        assert DecodeImage(EncodeImage(p), retention') == p;
      case EditRequest(raw) => EditReparse(raw, retention, retention');
    }
  }

  // ---- What acceptance guarantees ----------------------------------------------------------

  lemma PresetsWithinBounds(preset: string, codec: string)
    requires EncodePresetCrf(preset, codec).Some?
    ensures CrfWithin(EncodePresetCrf(preset, codec).value, codec)
  {}

  lemma TargetsWithinBounds(target: string, codec: string)
    requires CompressCrf(target, codec).Some?
    ensures CrfWithin(CompressCrf(target, codec).value, codec)
  {}

  /** The quality a convert job runs with lies in its codec's bounds, unless it copies. */
  lemma ConvertCrfInBounds(raw: Payload<ConvertFields>, retention: int)
    requires ParsedConvert(raw, retention).Some?
    ensures var p := ParsedConvert(raw, retention).value;
            p.videoCodec != "copy" ==> CrfWithin(Resolved(p).1, p.videoCodec)
    ensures Resolved(ParsedConvert(raw, retention).value).0 in ENCODE_SPEEDS
  {
    var p := DecodeConvert(raw.fields, retention);
    FoldedStays(p);
    if EncodePresetCrf(p.preset, p.videoCodec).Some? {
      PresetsWithinBounds(p.preset, p.videoCodec);
    }
  }

  /** And a compress job's, unless it aims at a size; a size target is never a copy. */
  lemma CompressCrfInBounds(raw: Payload<CompressFields>, retention: int)
    requires ParsedCompress(raw, retention).Some?
    ensures var p := ParsedCompress(raw, retention).value;
            && p.videoCodec != "copy" && CrfBounds(p.videoCodec).Some?
            && (p.target != TARGET_SIZE ==> CrfWithin(CompressCrfFor(p), p.videoCodec) && p.targetSizeMB == 0)
            && (p.target == TARGET_SIZE ==> 1 <= p.targetSizeMB <= 65536)
  {
    var p := DecodeCompress(raw.fields, retention);
    if p.target != TARGET_SIZE {
      TargetsWithinBounds(p.target, p.videoCodec);
    }
  }

  /** An accepted edit has an even crop inside the limits or none at all, and a span of at least a
      tenth of a second or none. */
  lemma EditMeaning(raw: Payload<EditFields>, retention: int)
    requires ParsedEdit(raw, retention).Some?
    ensures var p := ParsedEdit(raw, retention).value;
            && (NoCrop(p) || (p.cropW % 2 == 0 && p.cropH % 2 == 0 && CropSizeOk(p.cropW) && CropSizeOk(p.cropH)))
            && (Span(p) == 0.0 || Span(p) >= 0.1) && (Span(p) == 0.0 <==> p.end == 0.0)
            && (p.end != 0.0 ==> p.start + Span(p) == p.end)
  {}
}
