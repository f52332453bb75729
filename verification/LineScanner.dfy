/** Tool output cut into lines: a split function driven by a scanner over arbitrary reads.
    A byte is a char here, and a Go string or byte slice a string. */
module LineScanner {
  import opened Common

  const MAX_LINE: nat := 0x10_0000

  predicate IsSeparator(c: char) {
    c == '\n' || c == '\r'
  }

  // ---- What the lines of a stream are ------------------------------------------------------

  /** How many separators s begins with. */
  function Skip(s: string): (n: nat)
    ensures n <= |s| && forall i :: 0 <= i < n ==> IsSeparator(s[i])
    ensures n < |s| ==> !IsSeparator(s[n])
  {
    if s == "" || !IsSeparator(s[0]) then 0 else 1 + Skip(s[1..])
  }

  /** How many bytes s begins with before any separator. */
  function Run(s: string): (n: nat)
    ensures n <= |s| && forall i :: 0 <= i < n ==> !IsSeparator(s[i])
    ensures n < |s| ==> IsSeparator(s[n])
  {
    if s == "" || IsSeparator(s[0]) then 0 else 1 + Run(s[1..])
  }

  /** The non-empty maximal separator-free runs, in order. */
  function Lines(s: string): seq<string> {
    if s == "" then []
    else if IsSeparator(s[0]) then Lines(s[1..])
    else [s[..Run(s)]] + Lines(s[Run(s)..])
  }

  predicate SeparatorFree(s: string) {
    forall i :: 0 <= i < |s| ==> !IsSeparator(s[i])
  }

  lemma {:induction false} LinesAreProper(s: string, k: nat)
    requires k < |Lines(s)|
    ensures Lines(s)[k] != "" && SeparatorFree(Lines(s)[k])
    decreases |s|
  {
    if IsSeparator(s[0]) {
      LinesAreProper(s[1..], k);
    } else if k > 0 {
      LinesAreProper(s[Run(s)..], k - 1);
    }
  }

  lemma RunOf(a: string, b: string)
    requires SeparatorFree(a) && (b == "" || IsSeparator(b[0]))
    ensures Run(a + b) == |a|
  {
    assert forall i :: 0 <= i < |a| ==> (a + b)[i] == a[i];
    assert b != "" ==> (a + b)[|a|] == b[0];
  }

  /** A separator-free stretch is one line. */
  lemma OneLine(a: string)
    requires a != "" && SeparatorFree(a)
    ensures Lines(a) == [a]
  {
    assert a + "" == a;
    RunOf(a, "");
  }

  lemma RunBefore(a: string, c: char, b: string)
    requires IsSeparator(c)
    ensures Run(a + [c] + b) == Run(a)
  {
    var r := Run(a);
    var s := a + [c] + b;
    assert s[..r] == a[..r] && s == s[..r] + s[r..];
    assert SeparatorFree(a[..r]) && IsSeparator(s[r]);
    RunOf(s[..r], s[r..]);
  }

  /** A separator divides a stream: the lines are those before it and those after. With OneLine
      this says all there is to say about Lines. */
  lemma {:induction false} LinesDivide(a: string, c: char, b: string)
    requires IsSeparator(c)
    ensures Lines(a + [c] + b) == Lines(a) + Lines(b)
    decreases |a|
  {
    if a == "" {
      assert (a + [c] + b)[1..] == b;
    } else if IsSeparator(a[0]) {
      Cut(a, c, b, 1);
      LinesDivide(a[1..], c, b);
    } else {
      var r := Run(a);
      RunBefore(a, c, b);
      Cut(a, c, b, r);
      LinesDivide(a[r..], c, b);
      Regroup(a[..r], Lines(a[r..]), Lines(b));
    }
  }

  lemma Cut(a: string, c: char, b: string, k: nat)
    requires k <= |a|
    ensures (a + [c] + b)[k..] == a[k..] + [c] + b && (a + [c] + b)[..k] == a[..k]
  {}

  lemma Regroup(first: string, a: seq<string>, b: seq<string>)
    ensures [first] + (a + b) == ([first] + a) + b
  {}

  // ---- splitLinesCR ------------------------------------------------------------------------

  datatype Split = Split(advance: nat, token: Option<string>)

  function SplitOf(data: string, atEof: bool): (r: Split)
    ensures r.advance <= |data|
  {
    var start := Skip(data);
    var j := Run(data[start..]);
    if start + j < |data| then Split(start + j + 1, Some(data[start..][..j]))
    else if atEof then Split(|data|, if start < |data| then Some(data[start..]) else None)
    else Split(start, None)
  }

  lemma {:induction false} SkipIs(s: string, n: nat)
    requires n <= |s| && (forall i :: 0 <= i < n ==> IsSeparator(s[i])) && (n < |s| ==> !IsSeparator(s[n]))
    ensures Skip(s) == n
  {
    if n > 0 {
      assert IsSeparator(s[0]);
      SkipIs(s[1..], n - 1);
    }
  }

  method IndexOfSeparator(s: string) returns (j: int)
    ensures j == if Run(s) < |s| then Run(s) else -1
  {
    for i := 0 to |s|
      invariant SeparatorFree(s[..i])
    {
      if IsSeparator(s[i]) {
        assert s == s[..i] + s[i..];
        RunOf(s[..i], s[i..]);
        return i;
      }
    }
    assert s[..|s|] == s == s + "";
    RunOf(s, "");
    j := -1;
  }

  method SplitLinesCR(data: string, atEof: bool) returns (advance: nat, token: Option<string>)
    ensures Split(advance, token) == SplitOf(data, atEof)
  {
    var start := 0;
    while start < |data| && (data[start] == '\n' || data[start] == '\r')
      invariant start <= |data| && forall i :: 0 <= i < start ==> IsSeparator(data[i])
    {
      start := start + 1;
    }
    SkipIs(data, start);
    var j := IndexOfSeparator(data[start..]);
    if j >= 0 {
      assert data[start..][..j] == data[start..start + j];
      return start + j + 1, Some(data[start..start + j]);
    }
    if atEof {
      if start < |data| {
        return |data|, Some(data[start..]);
      }
      return |data|, None;
    }
    if start > 0 {
      return start, None;
    }
    return 0, None;
  }

  lemma {:induction false} LinesAfterSkip(s: string, rest: string)
    ensures Lines(s + rest) == Lines(s[Skip(s)..] + rest)
  {
    if Skip(s) > 0 {
      assert (s + rest)[1..] == s[1..] + rest;
      assert s[1..][Skip(s[1..])..] == s[Skip(s)..];
      LinesAfterSkip(s[1..], rest);
    } else {
      assert s[0..] == s;
    }
  }

  lemma TokenIsFirstLine(tail: string, rest: string)
    requires Run(tail) < |tail| && (tail != "" ==> !IsSeparator(tail[0]))
    ensures Lines(tail + rest) == [tail[..Run(tail)]] + Lines(tail[Run(tail) + 1..] + rest)
  {
    var j := Run(tail);
    var line, after := tail[..j], tail[j + 1..];
    assert tail + rest == line + [tail[j]] + (after + rest);
    LinesDivide(line, tail[j], after + rest);
    OneLine(line);
  }

  /** A token is the first line whatever is still to be read. */
  lemma TokenMeaning(data: string, atEof: bool, rest: string)
    requires (atEof ==> rest == "") && SplitOf(data, atEof).token.Some?
    ensures var r := SplitOf(data, atEof);
            && r.token.value != "" && |r.token.value| <= |data| && r.advance > 0
            && Lines(data + rest) == [r.token.value] + Lines(data[r.advance..] + rest)
  {
    var tail := data[Skip(data)..];
    LinesAfterSkip(data, rest);
    if Run(tail) < |tail| {
      assert tail[Run(tail) + 1..] == data[Skip(data) + Run(tail) + 1..];
      TokenIsFirstLine(tail, rest);
    } else {
      assert tail + rest == tail && data[|data|..] + rest == "";
      OneLine(tail);
    }
  }

  /** Without a token nothing is lost, and what is kept holds no separator. */
  lemma NoTokenMeaning(data: string, atEof: bool, rest: string)
    requires (atEof ==> rest == "") && SplitOf(data, atEof).token.None?
    ensures var kept := data[SplitOf(data, atEof).advance..];
            && Lines(data + rest) == Lines(kept + rest)
            && SeparatorFree(kept) && (atEof ==> kept == "")
  {
    LinesAfterSkip(data, rest);
  }

  // ---- The scanner -------------------------------------------------------------------------

  /** A reader: any non-empty piece at a time, the end alone or along with the last piece. */
  class Source {
    var rest: string

    constructor (stream: string)
      ensures rest == stream
    {
      rest := stream;
    }

    method Read(room: nat) returns (piece: string, eof: bool)
      requires room > 0
      modifies this
      ensures old(rest) == piece + rest && |piece| <= room
      ensures eof ==> rest == ""
      ensures !eof ==> piece != ""
    {
      var n: nat :| n <= room && n <= |rest| && (n == 0 ==> rest == "");
      var last: bool :| last ==> n == |rest|;
      piece, rest, eof := rest[..n], rest[n..], last || n == 0;
    }
  }

  /** bufio.Scanner with this split function and a buffer that grows to MAX_LINE bytes. */
  class Scanner {
    const source: Source
    var buffered: string
    var eof: bool
    var tooLong: bool

    ghost predicate Valid()
      reads this, source
    {
      |buffered| <= MAX_LINE && (eof ==> source.rest == "")
    }

    /** Everything not yet handed out. */
    ghost function Ahead(): string
      reads this, source
    {
      buffered + source.rest
    }

    constructor (source: Source)
      ensures this.source == source && Valid() && Ahead() == source.rest && !tooLong
    {
      this.source, buffered, eof, tooLong := source, "", false, false;
      new;
      assert "" + source.rest == source.rest;
    }

    method Scan() returns (token: Option<string>)
      requires Valid() && !tooLong
      modifies this, source
      ensures Valid()
      ensures token.Some? ==>
                && !tooLong && Lines(old(Ahead())) == [token.value] + Lines(Ahead())
                && (|token.value| < MAX_LINE || (|token.value| == MAX_LINE && Lines(Ahead()) == []))
                && |Ahead()| < |old(Ahead())|
      ensures token.None? && !tooLong ==> Lines(old(Ahead())) == []
      ensures token.None? && tooLong ==> Lines(old(Ahead())) != [] && |Lines(old(Ahead()))[0]| >= MAX_LINE
    {
      token := None;
      while true
        invariant Valid() && !tooLong
        invariant Lines(Ahead()) == Lines(old(Ahead())) && |Ahead()| <= |old(Ahead())|
        decreases |source.rest|, if eof then 0 else 1
      {
        if buffered != "" || eof {
          var advance;
          advance, token := SplitLinesCR(buffered, eof);
          if token.Some? {
            TokenOut(buffered, eof, source.rest);
            buffered := buffered[advance..];
            return;
          }
          NoTokenMeaning(buffered, eof, source.rest);
          buffered := buffered[advance..];
        }
        if eof {
          assert Ahead() == "";
          return;
        }
        if |buffered| >= MAX_LINE {
          LongLine(buffered, source.rest);
          tooLong := true;
          return;
        }
        var piece;
        ghost var before := buffered;
        ghost var unread := source.rest;
        piece, eof := source.Read(MAX_LINE - |buffered|);
        buffered := buffered + piece;
        assert before + unread == buffered + source.rest;
      }
    }
  }

  /** What handing out a token makes of the stream. */
  lemma TokenOut(data: string, atEof: bool, rest: string)
    requires (atEof ==> rest == "") && |data| <= MAX_LINE && SplitOf(data, atEof).token.Some?
    ensures var r := SplitOf(data, atEof);
            var line, left := r.token.value, data[r.advance..] + rest;
            && Lines(data + rest) == [line] + Lines(left) && |left| < |data + rest|
            && (|line| < MAX_LINE || (|line| == MAX_LINE && Lines(left) == []))
  {
    TokenMeaning(data, atEof, rest);
    LineAtEof(data, atEof);
  }

  /** A token that fills the whole buffer was cut by the end of input: nothing follows. */
  lemma LineAtEof(data: string, atEof: bool)
    ensures var r := SplitOf(data, atEof);
            r.token.Some? && |r.token.value| == |data| ==> atEof && data[r.advance..] == ""
  {}

  lemma LongLine(kept: string, rest: string)
    requires kept != "" && SeparatorFree(kept)
    ensures Lines(kept + rest) != [] && |Lines(kept + rest)[0]| >= |kept|
  {
    var s := kept + rest;
    assert forall i :: 0 <= i < |kept| ==> s[i] == kept[i];
    assert s[0] == kept[0];
  }

  /** Every line fits the buffer with a separator after it; the last may do without one if that is
      the end of the stream. */
  ghost predicate Fit(lines: seq<string>, ended: bool) {
    forall k :: 0 <= k < |lines| ==> |lines[k]| < MAX_LINE || (ended && k == |lines| - 1 && |lines[k]| == MAX_LINE)
  }

  predicate Short(lines: seq<string>, n: nat)
    requires n <= |lines|
  {
    forall k :: 0 <= k < n ==> |lines[k]| < MAX_LINE
  }

  /** What may come out of a stream whose lines are all. */
  ghost predicate Outcome(all: seq<string>, lines: seq<string>, complete: bool) {
    if complete then lines == all && Fit(lines, true)
    else |lines| < |all| && lines == all[..|lines|] && Short(all, |lines|) && |all[|lines|]| >= MAX_LINE
  }

  method ScanLines(source: Source) returns (lines: seq<string>, complete: bool)
    modifies source
    ensures Outcome(old(Lines(source.rest)), lines, complete)
  {
    var scanner := new Scanner(source);
    ghost var all := Lines(source.rest);
    lines := [];
    while true
      invariant scanner.Valid() && !scanner.tooLong && scanner.source == source
      invariant all == lines + Lines(scanner.Ahead())
      invariant Fit(lines, Lines(scanner.Ahead()) == [])
      decreases |scanner.Ahead()|
    {
      var token := scanner.Scan();
      if token.None? {
        break;
      }
      lines := lines + [token.value];
    }
    complete := !scanner.tooLong;
  }

  /** However a stream is cut into reads: if every line is shorter than the limit, the lines come
      out exactly, in order. If one is longer, those before it come out and the scan gives up. */
  lemma ChunkIndependence(all: seq<string>, lines: seq<string>, complete: bool)
    requires Outcome(all, lines, complete)
    ensures Short(all, |all|) ==> complete && lines == all
    ensures forall n :: 0 <= n < |all| && |all[n]| > MAX_LINE && Short(all, n) ==> !complete && lines == all[..n]
  {
    forall n | 0 <= n < |all| && |all[n]| > MAX_LINE && Short(all, n)
      ensures !complete && |lines| == n
    {}
  }
}
