/** The yt-dlp command line: client text only as an operand or after the end of the options. */
module YtDlpArgs {
  import opened Common
  import A = Argv
  import P = Presets

  datatype Opt =
    | NoPlaylist | NoWarnings | Newline | ShowProgress | NoPart | RestrictNames | WriteInfo
    | ExtractAudio | EmbedSubs | EmbedThumb | EmbedMetadata
    | Output(v: string) | AudioFormat(v: string) | AudioQuality(v: string) | Format(v: string) | MergeFormat(v: string)

  function Flag(o: Opt): string {
    match o
    case NoPlaylist => "--no-playlist"
    case NoWarnings => "--no-warnings"
    case Newline => "--newline"
    case ShowProgress => "--progress"
    case NoPart => "--no-part"
    case RestrictNames => "--restrict-filenames"
    case WriteInfo => "--write-info-json"
    case ExtractAudio => "-x"
    case EmbedSubs => "--embed-subs"
    case EmbedThumb => "--embed-thumbnail"
    case EmbedMetadata => "--embed-metadata"
    case Output(_) => "-o"
    case AudioFormat(_) => "--audio-format"
    case AudioQuality(_) => "--audio-quality"
    case Format(_) => "-f"
    case MergeFormat(_) => "--merge-output-format"
  }

  predicate Bare(o: Opt) {
    !(o.Output? || o.AudioFormat? || o.AudioQuality? || o.Format? || o.MergeFormat?)
  }

  function ReadBare(flag: string): Option<Opt> {
    match flag
    case "--no-playlist" => Some(NoPlaylist)
    case "--no-warnings" => Some(NoWarnings)
    case "--newline" => Some(Newline)
    case "--progress" => Some(ShowProgress)
    case "--no-part" => Some(NoPart)
    case "--restrict-filenames" => Some(RestrictNames)
    case "--write-info-json" => Some(WriteInfo)
    case "-x" => Some(ExtractAudio)
    case "--embed-subs" => Some(EmbedSubs)
    case "--embed-thumbnail" => Some(EmbedThumb)
    case "--embed-metadata" => Some(EmbedMetadata)
    case _ => None
  }

  function ReadWithOperand(flag: string, v: string): Option<Opt> {
    match flag
    case "-o" => Some(Output(v))
    case "--audio-format" => Some(AudioFormat(v))
    case "--audio-quality" => Some(AudioQuality(v))
    case "-f" => Some(Format(v))
    case "--merge-output-format" => Some(MergeFormat(v))
    case _ => None
  }

  function Words(o: Opt): seq<string> {
    if Bare(o) then [Flag(o)] else [Flag(o), o.v]
  }

  const YTDLP: A.Syntax<Opt> := A.Syntax(o => Words(o), f => ReadBare(f), (f, v) => ReadWithOperand(f, v))

  lemma SyntaxUnambiguous()
    ensures A.Unambiguous(YTDLP)
  {
    forall o: Opt
      ensures var w := Words(o);
              || (|w| == 1 && ReadBare(w[0]) == Some(o))
              || (|w| == 2 && ReadBare(w[0]) == None && ReadWithOperand(w[0], w[1]) == Some(o))
    {
      ReadOne(o);
    }
  }

  lemma ReadOne(o: Opt)
    ensures Bare(o) ==> ReadBare(Flag(o)) == Some(o)
    ensures !Bare(o) ==> ReadBare(Flag(o)) == None && ReadWithOperand(Flag(o), o.v) == Some(o)
  {}

  // ---- The argv ----------------------------------------------------------------------------

  /** A picked format comes with an audio track, unless the caller merges one in already. */
  function FormatSelector(id: string): string {
    if id == "" then "bv*+ba/b"
    else if '+' in id then id
    else id + "+ba/" + id
  }

  function HeadOpts(tmpl: string): seq<Opt> {
    [NoPlaylist, NoWarnings, Newline] + [ShowProgress, NoPart, RestrictNames] + [WriteInfo, Output(tmpl)]
  }

  function MediaOpts(p: P.Download): seq<Opt> {
    if p.mode == "audio" then
      [ExtractAudio, AudioFormat(p.audioFormat)] + if p.audioBitrate != "" then [AudioQuality(p.audioBitrate + "K")]
          else []
    else
      [Format(FormatSelector(p.formatId))] + if p.container != "" then [MergeFormat(p.container)] else []
  }

  function EmbedOpts(p: P.Download): seq<Opt> {
    (if p.embedSubs then [EmbedSubs] else []) + (if p.embedThumb then [EmbedThumb] else []) +
    (if p.embedMetadata then [EmbedMetadata] else [])
  }

  function Options(p: P.Download, tmpl: string): seq<Opt> {
    HeadOpts(tmpl) + MediaOpts(p) + EmbedOpts(p)
  }

  lemma WrittenHead(tmpl: string)
    ensures A.Written(YTDLP, HeadOpts(tmpl)) ==
            ["--no-playlist", "--no-warnings", "--newline", "--progress", "--no-part", "--restrict-filenames",
             "--write-info-json", "-o", tmpl]
  {
    A.WrittenThree(YTDLP, NoPlaylist, NoWarnings, Newline);
    A.WrittenThree(YTDLP, ShowProgress, NoPart, RestrictNames);
    A.WrittenTwo(YTDLP, WriteInfo, Output(tmpl));
    A.WrittenConcat(YTDLP, [NoPlaylist, NoWarnings, Newline], [ShowProgress, NoPart, RestrictNames]);
    A.WrittenConcat(YTDLP, [NoPlaylist, NoWarnings, Newline] + [ShowProgress, NoPart, RestrictNames],
                    [WriteInfo, Output(tmpl)]);
  }

  method EmbedArgs(p: P.Download) returns (args: seq<string>)
    ensures args == A.Written(YTDLP, EmbedOpts(p))
  {
    args := [];
    ghost var opts: seq<Opt> := [];
    if p.embedSubs {
      args := args + ["--embed-subs"];
      A.WrittenSnoc(YTDLP, opts, EmbedSubs);
      opts := opts + [EmbedSubs];
    }
    if p.embedThumb {
      args := args + ["--embed-thumbnail"];
      A.WrittenSnoc(YTDLP, opts, EmbedThumb);
      opts := opts + [EmbedThumb];
    }
    if p.embedMetadata {
      args := args + ["--embed-metadata"];
      A.WrittenSnoc(YTDLP, opts, EmbedMetadata);
      opts := opts + [EmbedMetadata];
    }
    assert opts == EmbedOpts(p);
  }

  method MediaArgs(p: P.Download) returns (args: seq<string>)
    ensures args == A.Written(YTDLP, MediaOpts(p))
  {
    if p.mode == "audio" {
      args := ["-x", "--audio-format", p.audioFormat];
      A.WrittenTwo(YTDLP, ExtractAudio, AudioFormat(p.audioFormat));
      if p.audioBitrate != "" {
        args := args + ["--audio-quality", p.audioBitrate + "K"];
        A.WrittenSnoc(YTDLP, [ExtractAudio, AudioFormat(p.audioFormat)], AudioQuality(p.audioBitrate + "K"));
      } else {
        assert MediaOpts(p) == [ExtractAudio, AudioFormat(p.audioFormat)];
      }
    } else {
      args := ["-f", FormatSelector(p.formatId)];
      A.WrittenOne(YTDLP, Format(FormatSelector(p.formatId)));
      if p.container != "" {
        args := args + ["--merge-output-format", p.container];
        A.WrittenSnoc(YTDLP, [Format(FormatSelector(p.formatId))], MergeFormat(p.container));
      } else {
        assert MediaOpts(p) == [Format(FormatSelector(p.formatId))];
      }
    }
  }

  method Args(p: P.Download, tmpl: string, url: string) returns (args: seq<string>)
    ensures args == A.Written(YTDLP, Options(p, tmpl)) + ["--", url]
  {
    args := ["--no-playlist", "--no-warnings", "--newline", "--progress", "--no-part", "--restrict-filenames",
             "--write-info-json", "-o", tmpl];
    WrittenHead(tmpl);
    var media := MediaArgs(p);
    var embed := EmbedArgs(p);
    args := args + media + embed;
    A.WrittenParts(YTDLP, HeadOpts(tmpl), MediaOpts(p), EmbedOpts(p));
    return args + ["--", url];
  }

  // ---- What the argv says ------------------------------------------------------------------

  /** Whatever the client sent: its strings come back as operands of the options meant for them,
      the URL as the one thing after "--", and no option is there that is not listed. */
  lemma Decodable(p: P.Download, tmpl: string, url: string)
    ensures A.Read(YTDLP, A.Written(YTDLP, Options(p, tmpl)) + ["--", url]) == A.Reading(Options(p, tmpl), ["--", url])
  {
    SyntaxUnambiguous();
    A.ReadWritten(YTDLP, Options(p, tmpl), ["--", url]);
  }

  predicate Means(p: P.Download, tmpl: string, o: Opt) {
    var audio := p.mode == "audio";
    match o
    case ExtractAudio => audio
    case EmbedSubs => p.embedSubs
    case EmbedThumb => p.embedThumb
    case EmbedMetadata => p.embedMetadata
    case Output(v) => v == tmpl
    case AudioFormat(v) => audio && v == p.audioFormat
    case AudioQuality(v) => audio && p.audioBitrate != "" && v == p.audioBitrate + "K"
    case Format(v) => !audio && v == FormatSelector(p.formatId)
    case MergeFormat(v) => !audio && p.container != "" && v == p.container
    case _ => true
  }

  lemma HeadMeans(p: P.Download, tmpl: string, o: Opt)
    ensures o in HeadOpts(tmpl) <==>
              || o == NoPlaylist || o == NoWarnings || o == Newline || o == ShowProgress || o == NoPart
              || o == RestrictNames
              || o == WriteInfo || o == Output(tmpl)
  {}

  lemma MediaMeans(p: P.Download, tmpl: string, o: Opt)
    ensures o in MediaOpts(p) <==>
              (o.ExtractAudio? || o.AudioFormat? || o.AudioQuality? || o.Format? || o.MergeFormat?) && Means(p, tmpl, o)
  {}

  lemma EmbedMeans(p: P.Download, tmpl: string, o: Opt)
    ensures o in EmbedOpts(p) <==> (o.EmbedSubs? || o.EmbedThumb? || o.EmbedMetadata?) && Means(p, tmpl, o)
  {}

  lemma OptionsMean(p: P.Download, tmpl: string, o: Opt)
    ensures o in Options(p, tmpl) <==> Means(p, tmpl, o)
  {
    HeadMeans(p, tmpl, o);
    MediaMeans(p, tmpl, o);
    EmbedMeans(p, tmpl, o);
    assert o in Options(p, tmpl) <==> o in HeadOpts(tmpl) || o in MediaOpts(p) || o in EmbedOpts(p);
  }

  /** p with the fields nobody validates in its mode replaced. */
  function Tampered(p: P.Download, q: P.Download): P.Download {
    if p.mode == "audio" then p.(container := q.container)
        else p.(audioFormat := q.audioFormat, audioBitrate := q.audioBitrate)
  }

  /** Fields left unvalidated in a mode are never read in it: replacing them by anything changes
      neither the verdict nor the argv. */
  lemma UnvalidatedIsUnread(p: P.Download, q: P.Download, tmpl: string)
    ensures P.DownloadOk(Tampered(p, q)) <==> P.DownloadOk(p)
    ensures Options(Tampered(p, q), tmpl) == Options(p, tmpl)
  {}

  predicate Flaglike(s: string) {
    s != "" && s[0] == '-'
  }

  /** Even an operand does not look like a flag, once the parameters are accepted. */
  lemma OperandsHarmless(p: P.Download, tmpl: string, o: Opt)
    requires P.DownloadOk(p) && !Flaglike(tmpl) && o in Options(p, tmpl) && !Bare(o)
    ensures !Flaglike(o.v)
  {
    OptionsMean(p, tmpl, o);
    if o.Format? && p.formatId != "" {
      var id := p.formatId;
      assert id[..P.FirstPlus(id)][0] == id[0];
    }
  }

  // ---- Nothing the client chose is lost ----------------------------------------------------

  lemma SplitAtPlus(s: string)
    requires P.FormatIdOk(s)
    ensures s != "" && '/' !in s && '*' !in s
  {
    var n := P.FirstPlus(s);
    assert forall i :: 0 <= i < n ==> P.FormatChar(s[..n][i]);
    if n < |s| {
      assert forall i :: n < i < |s| ==> s[i] == s[n + 1..][i - n - 1];
    }
  }

  lemma SingleFormat(id: string)
    requires '+' !in id && id != ""
    ensures FormatSelector(id) == id + "+ba/" + id && FormatSelector(id)[|id| + 3] == '/'
  {}

  /** Formats are told apart by what is passed on. */
  lemma SelectorsDiffer(a: string, b: string)
    requires a == "" || P.FormatIdOk(a)
    requires b == "" || P.FormatIdOk(b)
    requires FormatSelector(a) == FormatSelector(b)
    ensures a == b
  {
    var best := "bv*+ba/b";
    assert best[2] == '*' && best[6] == '/';
    if a != "" { SplitAtPlus(a); PlainSelector(a); }
    if b != "" { SplitAtPlus(b); PlainSelector(b); }
    if a != "" && b != "" && '+' !in a && '+' !in b {
      assert |a| == |b|;
      assert a == FormatSelector(a)[..|a|] && b == FormatSelector(b)[..|b|];
    }
  }

  lemma PlainSelector(id: string)
    requires id != "" && '*' !in id && '/' !in id
    ensures '*' !in FormatSelector(id)
    ensures '/' in FormatSelector(id) <==> '+' !in id
  {
    if '+' !in id {
      SingleFormat(id);
    }
  }

  ghost predicate SameArgs(p: P.Download, t: string, u: string, q: P.Download, t': string, u': string) {
    A.Written(YTDLP, Options(p, t)) + ["--", u] == A.Written(YTDLP, Options(q, t')) + ["--", u']
  }

  ghost predicate Agree(p: P.Download, t: string, q: P.Download, t': string) {
    forall o :: Means(p, t, o) <==> Means(q, t', o)
  }

  lemma SameMeanings(p: P.Download, t: string, u: string, q: P.Download, t': string, u': string)
    requires SameArgs(p, t, u, q, t', u')
    ensures u == u' && Agree(p, t, q, t')
  {
    Decodable(p, t, u);
    Decodable(q, t', u');
    assert ["--", u][1] == u && ["--", u'][1] == u';
    forall o
      ensures Means(p, t, o) <==> Means(q, t', o)
    {
      OptionsMean(p, t, o);
      OptionsMean(q, t', o);
    }
  }

  lemma SameSound(p: P.Download, t: string, q: P.Download, t': string)
    requires Agree(p, t, q, t') && p.mode == q.mode == "audio"
    ensures p.audioFormat == q.audioFormat && p.audioBitrate == q.audioBitrate
  {
    assert Means(p, t, AudioFormat(p.audioFormat));
    assert p.audioBitrate != "" ==> Means(p, t, AudioQuality(p.audioBitrate + "K"));
    assert q.audioBitrate != "" ==> Means(q, t', AudioQuality(q.audioBitrate + "K"));
    if p.audioBitrate != "" && q.audioBitrate != "" {
      assert p.audioBitrate == (p.audioBitrate + "K")[..|p.audioBitrate|];
      assert q.audioBitrate == (q.audioBitrate + "K")[..|q.audioBitrate|];
    }
  }

  lemma SamePicture(p: P.Download, t: string, q: P.Download, t': string)
    requires P.DownloadOk(p) && P.DownloadOk(q) && Agree(p, t, q, t') && p.mode == q.mode == "video"
    ensures p.formatId == q.formatId && p.container == q.container
  {
    assert Means(p, t, Format(FormatSelector(p.formatId)));
    SelectorsDiffer(p.formatId, q.formatId);
    assert p.container != "" ==> Means(p, t, MergeFormat(p.container));
    assert q.container != "" ==> Means(q, t', MergeFormat(q.container));
  }

  /** Two accepted downloads with the same argv are the same one: URL, template, mode, what is
      embedded, and the format and container of the picture or the format and bitrate of the sound. */
  lemma DownloadRecovered(p: P.Download, t: string, u: string, q: P.Download, t': string, u': string)
    requires P.DownloadOk(p) && P.DownloadOk(q) && SameArgs(p, t, u, q, t', u')
    ensures u == u' && t == t' && p.mode == q.mode
    ensures p.embedSubs == q.embedSubs && p.embedThumb == q.embedThumb && p.embedMetadata == q.embedMetadata
    ensures if p.mode == "audio" then p.audioFormat == q.audioFormat && p.audioBitrate == q.audioBitrate
            else p.formatId == q.formatId && p.container == q.container
  {
    SameMeanings(p, t, u, q, t', u');
    assert Means(p, t, Output(t));
    assert Means(p, t, ExtractAudio) <==> Means(q, t', ExtractAudio);
    assert Means(p, t, EmbedSubs) <==> Means(q, t', EmbedSubs);
    assert Means(p, t, EmbedThumb) <==> Means(q, t', EmbedThumb);
    assert Means(p, t, EmbedMetadata) <==> Means(q, t', EmbedMetadata);
    if p.mode == "audio" { SameSound(p, t, q, t'); } else { SamePicture(p, t, q, t'); }
  }
}
