/** A target file size as a video bitrate; floats are reals. */
module SizeBudget {
  import opened Common
  import opened Numerals
  import F = FfmpegArgs
  import P = Presets

  const OVERHEAD: real := 0.98
  const MIN_VIDEO := 100
  const MAX_VIDEO := 500_000

  /** int(x) in Go: towards zero. */
  function Truncated(x: real): int {
    if x >= 0.0 then x.Floor else -(-x).Floor
  }

  /** Zero for a bitrate that is no number. */
  function AudioKbps(s: F.Spec): int {
    if s.audioCodec == "none" then 0
    else if Atoi(s.audioBitrate).Some? then Atoi(s.audioBitrate).value else 0
  }

  function TotalKbps(targetMB: int, seconds: real): real
    requires seconds > 0.0
  {
    targetMB as real * 1_000_000.0 * 8.0 / 1000.0 / seconds * OVERHEAD
  }

  /** None: the length is unknown, or the target cannot hold the file. */
  function TargetVideoKbps(targetMB: int, seconds: real, audioKbps: int): Option<int> {
    if seconds <= 0.0 then None
    else
      var video := Truncated(TotalKbps(targetMB, seconds)) - audioKbps;
      if video < MIN_VIDEO then None else Some(Min(video, MAX_VIDEO))
  }

  // ---- What the budget guarantees ----------------------------------------------------------

  /** What the file may hold, in bits. */
  function Budget(targetMB: int): real {
    OVERHEAD * targetMB as real * 8_000_000.0
  }

  /** What so many kilobits a second come to. */
  function Bits(kbps: int, seconds: real): real {
    kbps as real * 1000.0 * seconds
  }

  lemma TotalIsBudget(targetMB: int, seconds: real)
    requires seconds > 0.0
    ensures TotalKbps(targetMB, seconds) * (1000.0 * seconds) == Budget(targetMB)
  {
    var x := targetMB as real * 1_000_000.0 * 8.0 / 1000.0;
    assert x / seconds * seconds == x;
  }

  lemma TimesPositive(a: real, b: real, c: real)
    requires c > 0.0
    ensures a <= b <==> a * c <= b * c
  {}

  /** A rate fits the budget just when it does not exceed the total. */
  lemma FitsExactly(targetMB: int, seconds: real, kbps: int)
    requires seconds > 0.0
    ensures Bits(kbps, seconds) <= Budget(targetMB) <==> kbps as real <= TotalKbps(targetMB, seconds)
  {
    TotalIsBudget(targetMB, seconds);
    TimesPositive(kbps as real, TotalKbps(targetMB, seconds), 1000.0 * seconds);
    assert Bits(kbps, seconds) == kbps as real * (1000.0 * seconds);
  }

  /** A target is accepted exactly when the budget holds the audio and 100 kbps of video. What is
      granted fits with the audio, lies between 100 and 500000, and short of that ceiling is the
      most that fits. */
  lemma BudgetKept(targetMB: int, seconds: real, audioKbps: nat)
    requires targetMB > 0 && seconds > 0.0
    ensures TargetVideoKbps(targetMB, seconds, audioKbps).Some? <==>
        Bits(MIN_VIDEO + audioKbps, seconds) <= Budget(targetMB)
    ensures TargetVideoKbps(targetMB, seconds, audioKbps).Some? ==>
              var video := TargetVideoKbps(targetMB, seconds, audioKbps).value;
              && MIN_VIDEO <= video <= MAX_VIDEO
              && Bits(video + audioKbps, seconds) <= Budget(targetMB)
              && (video < MAX_VIDEO ==> Bits(video + 1 + audioKbps, seconds) > Budget(targetMB))
  {
    var total := TotalKbps(targetMB, seconds);
    TotalPositive(targetMB, seconds);
    FitsExactly(targetMB, seconds, MIN_VIDEO + audioKbps);
    var granted := TargetVideoKbps(targetMB, seconds, audioKbps);
    if granted.Some? {
      FitsExactly(targetMB, seconds, granted.value + audioKbps);
      FitsExactly(targetMB, seconds, granted.value + 1 + audioKbps);
    }
  }

  lemma TotalPositive(targetMB: int, seconds: real)
    requires targetMB > 0 && seconds > 0.0
    ensures TotalKbps(targetMB, seconds) > 0.0
  {
    var x := targetMB as real * 1_000_000.0 * 8.0 / 1000.0;
    assert x / seconds > 0.0;
  }

  /** More megabytes or less running time never costs video bitrate, nor acceptance. */
  lemma Monotone(mb: int, mb': int, seconds: real, seconds': real, audioKbps: nat)
    requires 0 < mb <= mb' && 0.0 < seconds' <= seconds
    requires TargetVideoKbps(mb, seconds, audioKbps).Some?
    ensures TargetVideoKbps(mb', seconds', audioKbps).Some?
    ensures TargetVideoKbps(mb, seconds, audioKbps).value <= TargetVideoKbps(mb', seconds', audioKbps).value
  {
    TotalMonotone(mb, mb', seconds, seconds');
  }

  lemma TotalMonotone(mb: int, mb': int, seconds: real, seconds': real)
    requires 0 < mb <= mb' && 0.0 < seconds' <= seconds
    ensures 0.0 < TotalKbps(mb, seconds) <= TotalKbps(mb', seconds')
  {
    TotalPositive(mb, seconds);
    var t, t' := TotalKbps(mb, seconds), TotalKbps(mb', seconds');
    TotalIsBudget(mb, seconds);
    TotalIsBudget(mb', seconds');
    assert t * (1000.0 * seconds') <= t * (1000.0 * seconds);
    TimesPositive(t, t', 1000.0 * seconds');
  }

  lemma AudioShare(s: F.Spec)
    requires F.Settled(s) && P.Lossy(s.audioCodec)
    ensures AudioKbps(s) > 0 && Itoa(AudioKbps(s)) == s.audioBitrate
  {
    ShortNumeral(s.audioBitrate);
  }

  lemma CompressAudioShare(raw: P.Payload<P.CompressFields>, retention: int)
    requires P.ParsedCompress(raw, retention).Some?
    ensures AudioKbps(F.SpecOfCompress(P.ParsedCompress(raw, retention).value)) > 0
  {
    F.CompressSettled(raw, retention);
    AudioShare(F.SpecOfCompress(P.ParsedCompress(raw, retention).value));
  }

  /** For any accepted size target, what the runner grants its video stays inside the size asked
      for, along with the audio the command line asks for. */
  lemma SizeTargetKept(raw: P.Payload<P.CompressFields>, retention: int, seconds: real)
    requires P.ParsedCompress(raw, retention).Some? && P.ParsedCompress(raw, retention).value.target == P.TARGET_SIZE
    requires seconds > 0.0
    ensures var s := F.SpecOfCompress(P.ParsedCompress(raw, retention).value);
            var granted := TargetVideoKbps(s.targetMB, seconds, AudioKbps(s));
            && AudioKbps(s) > 0 && 1 <= s.targetMB <= 65536
            && (granted.Some? ==>
                  Bits(granted.value + AudioKbps(s), seconds) <= 0.98 * s.targetMB as real * 8_000_000.0)
  {
    P.CompressCrfInBounds(raw, retention);
    CompressAudioShare(raw, retention);
    var s := F.SpecOfCompress(P.ParsedCompress(raw, retention).value);
    BudgetKept(s.targetMB, seconds, AudioKbps(s));
  }
}
