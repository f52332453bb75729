/** The tail of a tool's error output: the last few lines, each clipped, joined and clipped again. */
module StderrRing {
  import opened Utf8

  const MAX_LINES: nat := 40
  const MAX_LINE_BYTES: nat := 512
  const MAX_BYTES: nat := 4096

  // ---- What the ring stands for ------------------------------------------------------------

  function TrimRight(s: string): (r: string)
    ensures r <= s && (r != "" ==> r[|r| - 1] != ' ' && r[|r| - 1] != '\t')
    ensures forall i :: |r| <= i < |s| ==> s[i] == ' ' || s[i] == '\t'
  {
    if s != "" && (s[|s| - 1] == ' ' || s[|s| - 1] == '\t') then TrimRight(s[..|s| - 1]) else s
  }

  function Clipped(line: string): string {
    if |line| > MAX_LINE_BYTES then ToValid(line[..MAX_LINE_BYTES]) + "..." else line
  }

  /** The non-blank lines, right-trimmed and clipped. */
  function Kept(lines: seq<string>): seq<string> {
    if lines == [] then []
    else
      var line := TrimRight(lines[|lines| - 1]);
      Kept(lines[..|lines| - 1]) + if line == "" then [] else [Clipped(line)]
  }

  function Last<T>(s: seq<T>, n: nat): (r: seq<T>)
    ensures |r| <= n && |r| <= |s|
  {
    if |s| <= n then s else s[|s| - n..]
  }

  lemma KeptOneMore(lines: seq<string>, i: nat)
    requires i < |lines|
    ensures var line := TrimRight(lines[i]);
            Kept(lines[..i + 1]) == Kept(lines[..i]) + if line == "" then [] else [Clipped(line)]
  {
    assert lines[..i + 1][..i] == lines[..i];
  }

  /** Forgetting before or after an addition comes to the same. */
  lemma LastOfLast<T>(s: seq<T>, x: T, n: nat)
    ensures Last(Last(s, n) + [x], n) == Last(s + [x], n)
  {}

  function Join(lines: seq<string>): string {
    if lines == [] then ""
    else if |lines| == 1 then lines[0]
    else lines[0] + "; " + Join(lines[1..])
  }

  function CutFront(s: string): string {
    if |s| > MAX_BYTES then "..." + ToValid(Tail(s)) else s
  }

  /** The last 4096 bytes. */
  function Tail(s: string): string
    requires |s| >= MAX_BYTES
  {
    s[|s| - MAX_BYTES..]
  }

  function Rendered(lines: seq<string>): string {
    CutFront(Join(lines))
  }

  // ---- The ring ----------------------------------------------------------------------------

  /** What a ring of this state holds, oldest first. */
  function View(b: seq<string>, next: nat, full: bool): seq<string>
    requires next < |b|
  {
    (if full then b[next..] else []) + b[..next]
  }

  lemma Overwrite(b: seq<string>, next: nat, full: bool, x: string)
    requires next < |b|
    ensures var b' := b[next := x];
            Last(View(b, next, full) + [x], |b|) == if next + 1 == |b| then View(b', 0, true)
                else View(b', next + 1, full)
  {
    var b' := b[next := x];
    var was := View(b, next, full) + [x];
    if full {
      assert was == b[next..] + b[..next] + [x];
      assert Last(was, |b|) == b[next + 1..] + b[..next] + [x];
      assert b'[next + 1..] == b[next + 1..];
    }
    assert b'[..next + 1] == b[..next] + [x];
    assert b'[..|b|] == b' == b'[0..];
  }

  lemma Wraps(next: nat, limit: nat)
    requires next < limit
    ensures (next + 1) % limit == if next + 1 == limit then 0 else next + 1
  {}

  class Ring {
    const buf: array<string>
    const limit: nat
    var next: nat
    var full: bool

    ghost predicate Valid()
      reads this
    {
      0 < limit == buf.Length && next < limit
    }

    ghost function Contents(): seq<string>
      requires Valid()
      reads this, buf
    {
      View(buf[..], next, full)
    }

    constructor (n: int)
      ensures Valid() && fresh(buf) && Contents() == []
      ensures limit == if n < 1 then 1 else n
    {
      limit := if n < 1 then 1 else n;
      buf := new string[if n < 1 then 1 else n](_ => "");
      next, full := 0, false;
    }

    method Add(line: string)
      requires Valid()
      modifies this, buf
      ensures Valid()
      ensures Contents() == if TrimRight(line) == "" then old(Contents())
                            else Last(old(Contents()) + [Clipped(TrimRight(line))], limit)
    {
      var trimmed := TrimRight(line);
      if trimmed == "" {
        return;
      }
      if |trimmed| > MAX_LINE_BYTES {
        trimmed := ToValid(trimmed[..MAX_LINE_BYTES]) + "...";
      }
      Overwrite(buf[..], next, full, trimmed);
      Wraps(next, limit);
      buf[next] := trimmed;
      assert buf[..] == old(buf[..])[next := trimmed];
      next := (next + 1) % limit;
      if next == 0 {
        full := true;
      }
    }

    method Render() returns (s: string)
      requires Valid()
      ensures s == Rendered(Contents())
    {
      var out: seq<string> := [];
      if full {
        out := out + buf[next..];
      }
      out := out + buf[..next];
      assert out == Contents();
      s := Join(out);
      if |s| > MAX_BYTES {
        s := "..." + ToValid(s[|s| - MAX_BYTES..]);
      }
    }

    /** Feeding a stream of lines leaves the last limit kept ones, in order of arrival. */
    method AddAll(lines: seq<string>)
      requires Valid() && Contents() == []
      modifies this, buf
      ensures Valid() && Contents() == Last(Kept(lines), limit)
    {
      for i := 0 to |lines|
        invariant Valid() && Contents() == Last(Kept(lines[..i]), limit)
      {
        KeptOneMore(lines, i);
        Add(lines[i]);
        LastOfLast(Kept(lines[..i]), Clipped(TrimRight(lines[i])), limit);
      }
      assert lines[..|lines|] == lines;
    }
  }

  // ---- What reaches the error text ---------------------------------------------------------

  lemma ClippedSize(line: string)
    ensures |Clipped(line)| <= MAX_LINE_BYTES + 3
  {
    if |line| > MAX_LINE_BYTES {
      ToValidIsValid(line[..MAX_LINE_BYTES]);
    }
  }

  lemma DotsCancel(a: string, b: string)
    ensures a + "..." == b + "..." ==> a == b
    ensures "..." + a == "..." + b ==> a == b
  {
    assert (a + "...")[..|a|] == a && (b + "...")[..|b|] == b;
    assert ("..." + a)[3..] == a && ("..." + b)[3..] == b;
  }

  /** The clipped line is n bytes of the line, and the dots. */
  predicate ClippedTo(line: string, n: nat) {
    n <= |line| && Clipped(line) == line[..n] + "..."
  }

  /** Clipping leaves a prefix of a long line exactly when its first 512 bytes are valid text and
      then bytes starting no encoding, such as the front of the rune that the cut goes through. */
  lemma ClippedIsPrefix(line: string)
    requires |line| > MAX_LINE_BYTES
    ensures (exists n: nat :: ClippedTo(line, n)) <==> ValidThenStrays(line[..MAX_LINE_BYTES])
  {
    var head := line[..MAX_LINE_BYTES];
    PrefixExactlyWhen(head);
    if n: nat :| ClippedTo(line, n) {
      DotsCancel(ToValid(head), line[..n]);
      ToValidIsValid(head);
      assert LeavesPrefix(head, n);
    }
    if n: nat :| LeavesPrefix(head, n) {
      assert ClippedTo(line, n);
    }
  }

  /** Of valid text it leaves a prefix short of 512 bytes by no more than a cut rune. */
  lemma ValidIsClippedToPrefix(line: string) returns (n: nat)
    requires Valid(line) && |line| > MAX_LINE_BYTES
    ensures MAX_LINE_BYTES - 3 <= n <= MAX_LINE_BYTES && ClippedTo(line, n)
  {
    var d := ValidPrefix(line, MAX_LINE_BYTES);
    n := MAX_LINE_BYTES - d;
  }

  lemma {:induction false} JoinValid(lines: seq<string>)
    requires forall k :: 0 <= k < |lines| ==> Valid(lines[k])
    ensures Valid(Join(lines))
  {
    if |lines| > 1 {
      JoinValid(lines[1..]);
      assert Valid("; "[1..]) && Valid("; ");
      ValidConcat(lines[0], "; ");
      ValidConcat(lines[0] + "; ", Join(lines[1..]));
    }
  }

  lemma {:induction false} TrimmedValid(s: string)
    requires Valid(s)
    ensures Valid(TrimRight(s))
  {
    if TrimRight(s) != s {
      var c := s[|s| - 1];
      assert s == s[..|s| - 1] + [c];
      DropAscii(s[..|s| - 1], c);
      TrimmedValid(s[..|s| - 1]);
    }
  }

  lemma DotsValid()
    ensures Valid("...")
  {
    assert Valid("..."[1..][1..]) && Valid("..."[1..]);
  }

  lemma ClippedValid(line: string)
    requires Valid(line)
    ensures Valid(Clipped(line))
  {
    if |line| > MAX_LINE_BYTES {
      ToValidIsValid(line[..MAX_LINE_BYTES]);
      DotsValid();
      ValidConcat(ToValid(line[..MAX_LINE_BYTES]), "...");
    }
  }

  lemma {:induction false} KeptValid(lines: seq<string>)
    requires forall k :: 0 <= k < |lines| ==> Valid(lines[k])
    ensures forall k :: 0 <= k < |Kept(lines)| ==> Valid(Kept(lines)[k])
  {
    if lines != [] {
      KeptValid(lines[..|lines| - 1]);
      var line := lines[|lines| - 1];
      TrimmedValid(line);
      ClippedValid(TrimRight(line));
    }
  }

  /** Whatever the tool writes, the text stays within 4096 bytes and the dots, and what a cut
      leaves is valid UTF-8. */
  lemma RenderedSize(lines: seq<string>)
    ensures |Rendered(lines)| <= MAX_BYTES + 3
    ensures |Join(lines)| > MAX_BYTES ==> exists t :: Rendered(lines) == "..." + t && Valid(t)
  {
    var s := Join(lines);
    if |s| > MAX_BYTES {
      ToValidIsValid(s[|s| - MAX_BYTES..]);
    }
  }

  lemma CutIsSuffix(s: string) returns (from: nat)
    requires Valid(s) && |s| > MAX_BYTES
    ensures MAX_BYTES - 3 <= |s| - from <= MAX_BYTES && CutFront(s) == "..." + s[from..]
  {
    var k: nat := |s| - MAX_BYTES;
    var d := ValidSuffix(s, k);
    from := k + d;
    assert ToValid(s[k..]) == s[from..];
  }

  lemma CutIsValid(s: string)
    requires Valid(s)
    ensures Valid(CutFront(s))
  {
    if |s| > MAX_BYTES {
      var tail := s[|s| - MAX_BYTES..];
      ToValidIsValid(tail);
      DotsValid();
      ValidConcat("...", ToValid(tail));
    }
  }

  /** The text of the ring is the dots and what follows from the join. */
  predicate RendersFrom(lines: seq<string>, from: nat) {
    from <= |Join(lines)| && Rendered(lines) == "..." + Join(lines)[from..]
  }

  /** The ring after a stream of lines. */
  function Ringed(lines: seq<string>, limit: nat): seq<string> {
    Last(Kept(lines), limit)
  }

  /** A join that fits is the text. Otherwise the text is the dots and a suffix of the join exactly
      when the last 4096 bytes are bytes starting no encoding, such as the rest of the rune that the
      cut goes through, and then valid text. */
  lemma RenderedIsSuffix(lines: seq<string>, limit: nat)
    ensures var ring := Ringed(lines, limit);
            var s := Join(ring);
            if |s| <= MAX_BYTES then Rendered(ring) == s
            else (exists from: nat :: RendersFrom(ring, from)) <==> StraysThenValid(Tail(s))
  {
    if |Join(Ringed(lines, limit))| > MAX_BYTES {
      CutExactlyWhen(Ringed(lines, limit));
    }
  }

  lemma SuffixOfTail(s: string, from: nat)
    requires |s| > MAX_BYTES && from <= |s| && CutFront(s) == "..." + s[from..]
    ensures from >= |s| - MAX_BYTES && LeavesSuffix(Tail(s), from - (|s| - MAX_BYTES))
  {
    DotsCancel(ToValid(Tail(s)), s[from..]);
    ToValidIsValid(Tail(s));
    assert |s| - from <= MAX_BYTES;
    DropDrop(s, |s| - MAX_BYTES, from - (|s| - MAX_BYTES));
  }

  lemma TailOfSuffix(s: string, m: nat)
    requires |s| > MAX_BYTES && LeavesSuffix(Tail(s), m)
    ensures CutFront(s) == "..." + s[|s| - MAX_BYTES + m..]
  {
    DropDrop(s, |s| - MAX_BYTES, m);
  }

  lemma CutExactlyWhen(lines: seq<string>)
    requires |Join(lines)| > MAX_BYTES
    ensures (exists from: nat :: RendersFrom(lines, from)) <==> StraysThenValid(Tail(Join(lines)))
  {
    var s := Join(lines);
    SuffixExactlyWhen(Tail(s));
    if from: nat :| RendersFrom(lines, from) {
      SuffixOfTail(s, from);
    }
    if m: nat :| LeavesSuffix(Tail(s), m) {
      TailOfSuffix(s, m);
      assert RendersFrom(lines, |s| - MAX_BYTES + m);
    }
  }

  /** While the lines in the ring are valid, whatever went before, the suffix falls short of 4096
      bytes by no more than a cut rune, and the text is valid UTF-8. */
  lemma ValidRingIsSuffix(lines: seq<string>, limit: nat)
    requires forall k :: 0 <= k < |Ringed(lines, limit)| ==> Valid(Ringed(lines, limit)[k])
    ensures var ring := Ringed(lines, limit);
            var s := Join(ring);
            && Valid(Rendered(ring))
            && (|s| > MAX_BYTES ==> exists from: nat ::
                MAX_BYTES - 3 <= |s| - from <= MAX_BYTES && RendersFrom(ring, from))
  {
    var ring := Ringed(lines, limit);
    JoinValid(ring);
    CutIsValid(Join(ring));
    if |Join(ring)| > MAX_BYTES {
      var from := CutIsSuffix(Join(ring));
      assert RendersFrom(ring, from);
    }
  }

  // ---- A tail that is no suffix ------------------------------------------------------------

  predicate Ascii(s: string) {
    forall i :: 0 <= i < |s| ==> In(s[i], 0, 0x7F)
  }

  lemma {:induction false} AsciiIsValid(s: string)
    requires Ascii(s)
    ensures Valid(s)
  {
    if s != "" {
      assert Width(s) == 1;
      AsciiIsValid(s[1..]);
    }
  }

  lemma {:induction false} JoinSnoc(lines: seq<string>, x: string)
    requires lines != []
    ensures Join(lines + [x]) == Join(lines) + "; " + x
  {
    if |lines| > 1 {
      JoinSnoc(lines[1..], x);
      assert (lines + [x])[1..] == lines[1..] + [x];
    }
  }

  lemma {:induction false} KeptAsIs(lines: seq<string>)
    requires forall k :: 0 <= k < |lines| ==> lines[k] != "" && TrimRight(lines[k]) == lines[k] == Clipped(lines[k])
    ensures Kept(lines) == lines
  {
    if lines != [] {
      KeptAsIs(lines[..|lines| - 1]);
      assert lines == lines[..|lines| - 1] + [lines[|lines| - 1]];
    }
  }

  lemma NoStrayInFront(s: string)
    requires Width(s) > 0 && StraysThenValid(s)
    ensures Valid(s)
  {
    assert s[0..] == s;
  }

  /** A stray byte between valid texts is missing from what the cut leaves. */
  lemma StrayByteIsMissing(front: string, c: char, back: string)
    requires Valid(front) && Continuation(c) && Valid(back)
    ensures ToValid(front + ([c] + back)) == front + back
  {
    ToValidFront(front, [c] + back);
    StrayBytes([c] + back, 1);
    assert ([c] + back)[1..] == back;
    ToValidKeeps(back);
  }

  /** So no suffix is left when there is text in front of it. */
  lemma StrayByteSpoils(front: string, c: char, back: string)
    requires Valid(front) && front != "" && Continuation(c) && Valid(back)
    ensures !StraysThenValid(front + ([c] + back))
  {
    var t := front + ([c] + back);
    StrayByteIsMissing(front, c, back);
    WidthPrefix(front, [c] + back);
    if StraysThenValid(t) {
      NoStrayInFront(t);
      ToValidKeeps(t);
    }
  }

  function Long(): string {
    seq(MAX_LINE_BYTES, _ => 'a')
  }

  function Longs(n: nat): seq<string> {
    seq(n, _ => Long())
  }

  lemma {:induction false} JoinedLongs(n: nat)
    requires n > 0
    ensures Ascii(Join(Longs(n))) && |Join(Longs(n))| >= n * MAX_LINE_BYTES
  {
    if n > 1 {
      JoinedLongs(n - 1);
      assert Longs(n)[1..] == Longs(n - 1);
    }
  }

  const SPOILT: string := "a" + ([0x80 as char] + "a")

  /** Nine long lines, and one with a stray byte between two letters. */
  function Spoiled(): seq<string> {
    Longs(9) + [SPOILT]
  }

  lemma SpoiledIsKept()
    ensures Ringed(Spoiled(), MAX_LINES) == Spoiled()
  {
    KeptAsIs(Spoiled());
  }

  lemma SpoiledTail() returns (front: string)
    ensures Ascii(front) && front != "" && |Join(Spoiled())| > MAX_BYTES
    ensures Tail(Join(Spoiled())) == front + ([0x80 as char] + "a")
  {
    JoinedLongs(9);
    var start := Join(Longs(9)) + "; a";
    JoinSnoc(Longs(9), SPOILT);
    var s := Join(Spoiled());
    assert s == start + ([0x80 as char] + "a");
    front := start[|s| - MAX_BYTES..];
  }

  /** A tool that writes such lines gets a tail that occurs nowhere in its output. */
  lemma TailIsNoSuffix()
    ensures var ring := Ringed(Spoiled(), MAX_LINES);
            |Join(ring)| > MAX_BYTES && forall from: nat :: !RendersFrom(ring, from)
  {
    SpoiledIsKept();
    var front := SpoiledTail();
    AsciiIsValid(front);
    AsciiIsValid("a");
    StrayByteSpoils(front, 0x80 as char, "a");
    CutExactlyWhen(Spoiled());
  }

  /** A line of over 512 bytes whose second byte starts no encoding. */
  const SPOILT_LINE: string := SPOILT + Long()

  lemma LastIsNoStray(s: string, d: nat)
    requires d < |s| && In(s[|s| - 1], 0, 0x7F)
    ensures !Strays(s[d..], |s| - d)
  {
    var k := |s| - 1 - d;
    assert s[d..][k..] == [s[|s| - 1]];
    assert Width(s[d..][k..]) == 1;
  }

  lemma EndsInText(s: string)
    requires ValidThenStrays(s) && s != "" && In(s[|s| - 1], 0, 0x7F)
    ensures Valid(s)
  {
    var d: nat :| ValidUpTo(s, d);
    if d < |s| {
      LastIsNoStray(s, d);
    } else {
      assert s[..d] == s;
    }
  }

  lemma SecondIsStray(s: string)
    requires |s| > 1 && In(s[0], 0, 0x7F) && Continuation(s[1])
    ensures !Valid(s)
  {
    assert Width(s) == 1;
    assert s[1..][0] == s[1];
  }

  /** It is clipped to something that is no prefix of it. */
  lemma ClippedIsNoPrefix()
    ensures |SPOILT_LINE| > MAX_LINE_BYTES && forall n: nat :: !ClippedTo(SPOILT_LINE, n)
  {
    var head := SPOILT_LINE[..MAX_LINE_BYTES];
    assert head[0] == 'a' && head[1] == 0x80 as char && head[MAX_LINE_BYTES - 1] == 'a';
    ClippedIsPrefix(SPOILT_LINE);
    SecondIsStray(head);
    if ValidThenStrays(head) {
      EndsInText(head);
    }
  }
}
