/** Upload names and ids. A char is a rune here; bytes that are no part of one stand apart. */
module Uploads {
  const TOKEN_DIGITS: nat := 16
  const MAX_NAME: nat := 120
  const MAX_EXT: nat := 16
  const MAX_ID_BYTES: nat := 512
  const FALLBACK := "upload"
  const RUNE_ERROR := '\U{FFFD}'

  /** A client-supplied name as it arrives. */
  datatype Piece = Rune(c: char) | Stray

  // ---- Runes -------------------------------------------------------------------------------

  /** unicode.IsSpace. */
  predicate IsSpace(c: char) {
    var n := c as int;
    || 9 <= n <= 13 || n == 32 || n == 0x85 || n == 0xA0 || n == 0x1680 || 0x2000 <= n <= 0x200A
    || n == 0x2028 || n == 0x2029 || n == 0x202F || n == 0x205F || n == 0x3000
  }

  predicate IsControl(c: char) {
    c as int < 32 || 0x7F <= c as int <= 0x9F
  }

  predicate Hostile(c: char) {
    c in ":*?\"<>|`$;&'\\"
  }

  /** What a rune turns into. */
  function Mapped(c: char): string {
    if c == '/' || IsSpace(c) || Hostile(c) then "_"
    else if IsControl(c) || c == RUNE_ERROR then ""
    else [c]
  }

  function ByteSize(c: char): nat {
    if c as int < 0x80 then 1 else if c as int < 0x800 then 2 else if c as int < 0x1_0000 then 3 else 4
  }

  function Bytes(s: string): nat {
    if s == "" then 0 else ByteSize(s[0]) + Bytes(s[1..])
  }

  // ---- sanitiseFilename --------------------------------------------------------------------

  predicate IsSlash(p: Piece) {
    p == Rune('/') || p == Rune('\\')
  }

  function DropTrailing(name: seq<Piece>): seq<Piece> {
    if name != [] && IsSlash(name[|name| - 1]) then DropTrailing(name[..|name| - 1]) else name
  }

  function AfterLastSlash(name: seq<Piece>): seq<Piece> {
    if name == [] || IsSlash(name[|name| - 1]) then []
    else AfterLastSlash(name[..|name| - 1]) + [name[|name| - 1]]
  }

  /** filepath.Base once backslashes are slashes. */
  function Base(name: seq<Piece>): seq<Piece> {
    if name == [] then [Rune('.')]
    else
      var last := AfterLastSlash(DropTrailing(name));
      if last == [] then [Rune('/')] else last
  }

  function Mapping(name: seq<Piece>): string {
    if name == [] then ""
    else
      var p := name[|name| - 1];
      Mapping(name[..|name| - 1]) + if p.Rune? then Mapped(p.c) else ""
  }

  predicate Edge(c: char) {
    c == '.' || c == '_' || c == '-'
  }

  function TrimLeft(s: string): (r: string)
    ensures |r| <= |s| && r == s[|s| - |r|..] && (r != "" ==> !Edge(r[0]))
    ensures s != "" && !Edge(s[0]) ==> r == s
  {
    if s != "" && Edge(s[0]) then TrimLeft(s[1..]) else s
  }

  function TrimRight(s: string): (r: string)
    ensures r <= s && (r != "" ==> !Edge(r[|r| - 1]))
    ensures s != "" && !Edge(s[0]) ==> r != ""
  {
    if s != "" && Edge(s[|s| - 1]) then TrimRight(s[..|s| - 1]) else s
  }

  lemma {:induction false} TrimLeftDrops(s: string)
    ensures forall i :: 0 <= i < |s| - |TrimLeft(s)| ==> Edge(s[i])
  {
    if s != "" && Edge(s[0]) {
      TrimLeftDrops(s[1..]);
      assert forall i :: 0 < i < |s| ==> s[i] == s[1..][i - 1];
    }
  }

  lemma {:induction false} TrimRightDrops(s: string)
    ensures forall i :: |TrimRight(s)| <= i < |s| ==> Edge(s[i])
  {
    if s != "" && Edge(s[|s| - 1]) {
      TrimRightDrops(s[..|s| - 1]);
    }
  }

  function Trimmed(s: string): string {
    TrimRight(TrimLeft(s))
  }

  /** filepath.Ext: from the last dot. */
  function Ext(s: string): (e: string)
    ensures |e| <= |s| && e == s[|s| - |e|..] && (e != "" ==> e[0] == '.')
  {
    if s == "" then ""
    else if s[0] == '.' && '.' !in s[1..] then s
    else Ext(s[1..])
  }

  lemma {:induction false} ExtIsLast(s: string)
    ensures if Ext(s) == "" then '.' !in s else '.' !in Ext(s)[1..]
  {
    if s != "" && !(s[0] == '.' && '.' !in s[1..]) {
      ExtIsLast(s[1..]);
    }
  }

  function KeptExt(out: string): (e: string)
    ensures |e| <= |out| && |e| <= MAX_EXT && e == out[|out| - |e|..]
  {
    if |Ext(out)| > MAX_EXT then "" else Ext(out)
  }

  function Stem(out: string): (r: string)
    ensures r <= out && |r| + |KeptExt(out)| <= MAX_NAME
  {
    var stem, keep := out[..|out| - |KeptExt(out)|], MAX_NAME - |KeptExt(out)|;
    if |stem| > keep then stem[..keep] else stem
  }

  /** Truncation keeps a short extension. */
  function Shortened(out: string): string {
    if |out| <= MAX_NAME then out else Trimmed(Stem(out)) + KeptExt(out)
  }

  function Finished(out: string): string {
    if out == "" || out == "." || out == ".." then FALLBACK
    else if Shortened(out) == "" then FALLBACK
    else Shortened(out)
  }

  function Sanitised(name: seq<Piece>): string {
    Finished(Trimmed(Mapping(Base(name))))
  }

  method MapRunes(base: seq<Piece>) returns (out: string)
    ensures out == Mapping(base)
  {
    out := "";
    for i := 0 to |base|
      invariant out == Mapping(base[..i])
    {
      assert base[..i + 1][..i] == base[..i];
      if base[i].Rune? {
        var r := base[i].c;
        if r == '/' || IsSpace(r) || Hostile(r) {
          out := out + "_";
        } else if !(IsControl(r) || r == RUNE_ERROR) {
          out := out + [r];
        }
      }
    }
    assert base[..|base|] == base;
  }

  method Shorten(out: string) returns (r: string)
    ensures r == Shortened(out)
  {
    if |out| <= MAX_NAME {
      return out;
    }
    var ext := Ext(out);
    if |ext| > MAX_EXT {
      ext := "";
    }
    var stem := out[..|out| - |ext|];
    var keep := MAX_NAME - |ext|;
    if |stem| > keep {
      stem := stem[..keep];
    }
    assert ext == KeptExt(out) && stem == Stem(out);
    return Trimmed(stem) + ext;
  }

  method SanitiseFilename(name: seq<Piece>) returns (out: string)
    ensures out == Sanitised(name)
  {
    out := MapRunes(Base(name));
    out := Trimmed(out);
    if out == "" || out == "." || out == ".." {
      return FALLBACK;
    }
    out := Shorten(out);
    if out == "" {
      return FALLBACK;
    }
  }

  // ---- What a sanitised name is ------------------------------------------------------------

  predicate SafeRune(c: char) {
    c != '/' && !IsSpace(c) && !Hostile(c) && !IsControl(c)
  }

  predicate Safe(s: string) {
    forall i :: 0 <= i < |s| ==> SafeRune(s[i])
  }

  predicate IsName(s: string) {
    0 < |s| <= MAX_NAME && Safe(s) && !Edge(s[0])
  }

  lemma {:induction false} MappingSafe(name: seq<Piece>)
    ensures Safe(Mapping(name))
  {
    if name != [] {
      MappingSafe(name[..|name| - 1]);
      assert SafeRune('_');
    }
  }

  lemma PartSafe(s: string, a: nat, b: nat)
    requires a <= b <= |s| && Safe(s)
    ensures Safe(s[a..b])
  {
    assert forall i :: 0 <= i < b - a ==> s[a..b][i] == s[a + i];
  }

  lemma SuffixSafe(s: string, a: nat)
    requires a <= |s| && Safe(s)
    ensures Safe(s[a..])
  {
    PartSafe(s, a, |s|);
    assert s[a..|s|] == s[a..];
  }

  lemma PrefixSafe(s: string, b: nat)
    requires b <= |s| && Safe(s)
    ensures Safe(s[..b])
  {
    PartSafe(s, 0, b);
    assert s[0..b] == s[..b];
  }

  lemma TrimmedSafe(s: string)
    requires Safe(s)
    ensures Safe(Trimmed(s)) && |Trimmed(s)| <= |s| && (Trimmed(s) != "" ==> !Edge(Trimmed(s)[0]))
  {
    var l := TrimLeft(s);
    SuffixSafe(s, |s| - |l|);
    PrefixSafe(l, |TrimRight(l)|);
  }

  lemma JoinSafe(a: string, b: string)
    requires Safe(a) && Safe(b)
    ensures Safe(a + b)
  {}

  lemma TrimmedStays(s: string)
    requires s != "" && !Edge(s[0])
    ensures Trimmed(s) != "" && Trimmed(s)[0] == s[0]
  {}

  lemma ShortenedIsName(out: string)
    requires Safe(out) && out != "" && !Edge(out[0])
    ensures IsName(Shortened(out))
  {
    if |out| > MAX_NAME {
      var ext, stem := KeptExt(out), Stem(out);
      PrefixSafe(out, |stem|);
      SuffixSafe(out, |out| - |ext|);
      assert stem[0] == out[0];
      TrimmedSafe(stem);
      TrimmedStays(stem);
      JoinSafe(Trimmed(stem), ext);
    }
  }

  /** Whatever the client calls its file: a name of 1 to 120 runes, free of separators, blanks,
      control characters and shell-hostile bytes, not starting with a dot or a dash. */
  lemma SanitisedIsName(name: seq<Piece>)
    ensures IsName(Sanitised(name))
  {
    MappingSafe(Base(name));
    TrimmedSafe(Mapping(Base(name)));
    FinishedIsName(Trimmed(Mapping(Base(name))));
  }

  lemma FinishedIsName(out: string)
    requires Safe(out) && (out != "" ==> !Edge(out[0]))
    ensures IsName(Finished(out))
  {
    if out != "" {
      ShortenedIsName(out);
    }
    FallbackIsName();
  }

  lemma FallbackIsName()
    ensures IsName(FALLBACK)
  {}

  // ---- Which part of the client's name is used ---------------------------------------------

  lemma {:induction false} LastElement(dir: seq<Piece>, name: seq<Piece>)
    requires dir != [] && IsSlash(dir[|dir| - 1]) && forall p :: p in name ==> !IsSlash(p)
    ensures AfterLastSlash(dir + name) == name
  {
    if name == [] {
      assert dir + name == dir;
    } else {
      var front, last := name[..|name| - 1], name[|name| - 1];
      assert last in name;
      LastElement(dir, front);
      assert (dir + name)[..|dir + name| - 1] == dir + front;
    }
  }

  lemma {:induction false} TrailingDropped(name: seq<Piece>, slashes: seq<Piece>)
    requires name == [] || !IsSlash(name[|name| - 1])
    requires forall p :: p in slashes ==> IsSlash(p)
    ensures DropTrailing(name + slashes) == name
  {
    if slashes == [] {
      assert name + slashes == name;
    } else {
      assert slashes[|slashes| - 1] in slashes;
      assert (name + slashes)[..|name + slashes| - 1] == name + slashes[..|slashes| - 1];
      TrailingDropped(name, slashes[..|slashes| - 1]);
    }
  }

  /** Whatever directories the client puts in front, with slashes or backslashes, and however many
      of these behind: only the last element of the path counts. */
  lemma OnlyLastElement(dir: seq<Piece>, name: seq<Piece>, slashes: seq<Piece>)
    requires dir == [] || IsSlash(dir[|dir| - 1])
    requires name != [] && forall p :: p in name ==> !IsSlash(p)
    requires forall p :: p in slashes ==> IsSlash(p)
    ensures Sanitised(dir + name + slashes) == Sanitised(name)
  {
    assert name[|name| - 1] in name;
    TrailingDropped(dir + name, slashes);
    TrailingDropped(name, []);
    assert name + [] == name;
    BaseKeeps(name);
    if dir == [] {
      assert dir + name == name;
    } else {
      LastElement(dir, name);
    }
  }

  /** Each blank, separator or hostile rune becomes an underscore in its place. */
  lemma {:induction false} MappedAt(s: string, i: nat)
    requires i < |s| && RUNE_ERROR !in s
    requires forall k :: 0 <= k < |s| ==> IsSpace(s[k]) || !IsControl(s[k])
    ensures |Mapping(Pieces(s))| == |s|
    ensures Mapping(Pieces(s))[i] == if IsSpace(s[i]) || s[i] in "/:*?\"<>|`$;&'\\" then '_' else s[i]
    decreases |s|
  {
    var front, last := s[..|s| - 1], s[|s| - 1];
    assert last in s;
    assert Pieces(s)[..|s| - 1] == Pieces(front);
    if |s| > 1 {
      MappedAt(front, if i < |s| - 1 then i else 0);
    }
  }

  lemma MappingSnoc(a: seq<Piece>, p: Piece)
    ensures Mapping(a + [p]) == Mapping(a) + if p.Rune? then Mapped(p.c) else ""
  {
    assert (a + [p])[..|a|] == a;
  }

  /** Control characters and broken bytes vanish. */
  lemma {:induction false} MappingDrops(a: seq<Piece>, p: Piece, b: seq<Piece>)
    requires p.Stray? || p.c == RUNE_ERROR || (IsControl(p.c) && !IsSpace(p.c))
    ensures Mapping(a + [p] + b) == Mapping(a + b)
    decreases |b|
  {
    if b == [] {
      MappingSnoc(a, p);
      assert a + [p] + b == a + [p] && a + b == a;
    } else {
      var front, last := b[..|b| - 1], b[|b| - 1];
      MappingDrops(a, p, front);
      MappingSnoc(a + [p] + front, last);
      MappingSnoc(a + front, last);
      assert a + [p] + b == a + [p] + front + [last] && a + b == a + front + [last];
    }
  }

  lemma StemIsFront(out: string)
    requires |out| > MAX_NAME
    ensures var keep := MAX_NAME - |KeptExt(out)|;
            Stem(out) == out[..keep] && forall i :: 0 <= i < keep ==> Stem(out)[i] == out[i]
  {}

  lemma TrimmedFront(s: string)
    requires s != "" && !Edge(s[0])
    ensures Trimmed(s) == TrimRight(s)
  {}

  lemma ShortenedParts(out: string)
    requires |out| > MAX_NAME && !Edge(out[0])
    ensures Shortened(out) == TrimRight(Stem(out)) + KeptExt(out)
  {
    StemIsFront(out);
    assert Stem(out)[0] == out[0];
    TrimmedFront(Stem(out));
  }

  lemma CutsEdges(out: string)
    requires |out| > MAX_NAME
    ensures var n, keep := |TrimRight(Stem(out))|, MAX_NAME - |KeptExt(out)|;
            n <= keep && TrimRight(Stem(out)) == out[..n] && forall i :: n <= i < keep ==> Edge(out[i])
  {
    var stem := Stem(out);
    var n := |TrimRight(stem)|;
    StemIsFront(out);
    TrimRightDrops(stem);
    assert TrimRight(stem) == stem[..n] == out[..n];
  }

  /** A name that is too long is cut in front of its extension, if that has at most 16 runes with
      its dot, and only dots, dashes and underscores go besides. */
  lemma ShortenedKeepsExt(out: string) returns (n: nat)
    requires |out| > MAX_NAME && !Edge(out[0])
    ensures var ext := if |Ext(out)| <= 16 then Ext(out) else "";
            && |ext| + n <= 120
            && Shortened(out) == out[..n] + ext
            && forall i :: n <= i < 120 - |ext| ==> Edge(out[i])
  {
    n := |TrimRight(Stem(out))|;
    CutsEdges(out);
    ShortenedParts(out);
  }

  // ---- Ids ---------------------------------------------------------------------------------

  predicate HexDigit(c: char) {
    '0' <= c <= '9' || 'a' <= c <= 'f'
  }

  predicate IsToken(t: string) {
    |t| == TOKEN_DIGITS && forall i :: 0 <= i < |t| ==> HexDigit(t[i])
  }

  function StoredName(token: string, original: string): string {
    token + "-" + original
  }

  function FirstDash(s: string): (n: nat)
    ensures n <= |s| && (n < |s| ==> s[n] == '-') && forall i :: 0 <= i < n ==> s[i] != '-'
  {
    if s == "" || s[0] == '-' then 0 else 1 + FirstDash(s[1..])
  }

  /** The index of the first dash counts bytes. */
  function OriginalName(stored: string): string {
    var i := FirstDash(stored);
    if i < |stored| && Bytes(stored[..i]) == TOKEN_DIGITS then stored[i + 1..] else stored
  }

  lemma {:induction false} BytesConcat(a: string, b: string)
    ensures Bytes(a + b) == Bytes(a) + Bytes(b)
  {
    if a == "" {
      assert a + b == b;
    } else {
      BytesConcat(a[1..], b);
      assert (a + b)[1..] == a[1..] + b;
    }
  }

  lemma {:induction false} BytesBounds(s: string)
    ensures |s| <= Bytes(s) <= 4 * |s|
    ensures (forall i :: 0 <= i < |s| ==> HexDigit(s[i])) ==> Bytes(s) == |s|
  {
    if s != "" {
      BytesBounds(s[1..]);
      assert (forall i :: 0 <= i < |s| ==> HexDigit(s[i])) ==> HexDigit(s[0]);
    }
  }

  /** originalName undoes storedName. */
  lemma OriginalOfStored(token: string, original: string)
    requires IsToken(token)
    ensures OriginalName(StoredName(token, original)) == original
  {
    var s := StoredName(token, original);
    BytesBounds(token);
    assert forall i :: 0 <= i < |token| ==> s[i] == token[i];
    assert s[|token|] == '-';
    assert FirstDash(s) == |token|;
    assert s[..|token|] == token;
  }

  predicate HasDoubleDot(s: string) {
    exists i :: 0 < i < |s| && s[i - 1] == '.' && s[i] == '.'
  }

  /** path.Clean and path.Base of a name without separators. */
  function CleanElement(id: string): string {
    if id == "" then "." else id
  }

  /** The lexical part of resolveUpload; a name without a slash is never absolute. */
  predicate GateAccepts(id: string) {
    && id != "" && Bytes(id) <= MAX_ID_BYTES
    && '/' !in id && '\\' !in id && '\0' !in id
    && id != "." && !HasDoubleDot(id)
    && CleanElement(id) == id
  }

  /** Behind a directory, an id that passes names a file directly in it. */
  lemma AcceptedIsInside(dir: string, id: string)
    requires GateAccepts(id)
    ensures id != "." && id != ".." && '/' !in id && '\\' !in id && |id| <= 512
    ensures var path := dir + "/" + id;
            AfterLastSlash(Pieces(path)) == Pieces(id) && Pieces(id) != []
  {
    BytesBounds(id);
    assert HasDoubleDot("..") by { assert ".."[0] == '.' && ".."[1] == '.'; }
    forall p | p in Pieces(id)
      ensures !IsSlash(p)
    {
      var i :| 0 <= i < |id| && p == Rune(id[i]);
    }
    LastElement(Pieces(dir + "/"), Pieces(id));
    assert Pieces(dir + "/" + id) == Pieces(dir + "/") + Pieces(id);
  }

  lemma GateOpens(id: string)
    requires Bytes(id) <= MAX_ID_BYTES && |id| > 1 && '/' !in id && '\\' !in id && '\0' !in id
    ensures GateAccepts(id) <==> !HasDoubleDot(id)
  {}

  /** The id of a sanitised name takes at most 497 bytes, and the gate lets it back in exactly when
      the name holds no "..". */
  lemma GateAcceptsExactly(token: string, name: seq<Piece>)
    requires IsToken(token)
    ensures Bytes(StoredName(token, Sanitised(name))) <= 497
    ensures GateAccepts(StoredName(token, Sanitised(name))) <==> !HasDoubleDot(Sanitised(name))
  {
    var original := Sanitised(name);
    SanitisedIsName(name);
    NameGate(token, original);
  }

  function Pieces(s: string): seq<Piece> {
    seq(|s|, i requires 0 <= i < |s| => Rune(s[i]))
  }

  predicate Kept(s: string) {
    Safe(s) && RUNE_ERROR !in s
  }

  lemma {:induction false} BaseKeeps(name: seq<Piece>)
    requires forall p :: p in name ==> !IsSlash(p)
    ensures AfterLastSlash(name) == name
  {
    if name != [] {
      BaseKeeps(name[..|name| - 1]);
      assert name[|name| - 1] in name;
    }
  }

  lemma {:induction false} MappingKeeps(s: string)
    requires Kept(s)
    ensures Mapping(Pieces(s)) == s
  {
    if s != "" {
      var front, last := s[..|s| - 1], s[|s| - 1];
      MappingKeeps(front);
      assert Pieces(s)[..|s| - 1] == Pieces(front);
      assert SafeRune(last) && last in s && Mapped(last) == [last];
    }
  }

  lemma TrimmedKeeps(s: string)
    requires s != "" && !Edge(s[0]) && !Edge(s[|s| - 1])
    ensures Trimmed(s) == s
  {}

  lemma FinishedKeeps(s: string)
    requires IsName(s)
    ensures Finished(s) == s
  {}

  lemma NoSlash(s: string)
    requires Safe(s)
    ensures forall p :: p in Pieces(s) ==> !IsSlash(p)
  {
    forall p | p in Pieces(s)
      ensures !IsSlash(p)
    {
      var i :| 0 <= i < |s| && p == Rune(s[i]);
      assert SafeRune(s[i]);
    }
  }

  lemma BaseStays(name: seq<Piece>)
    requires name != [] && forall p :: p in name ==> !IsSlash(p)
    ensures Base(name) == name
  {
    assert name[|name| - 1] in name;
    BaseKeeps(name);
  }

  /** A name of safe runes that neither begins nor ends with a dot, dash or underscore stays. */
  lemma SanitisedKeeps(s: string)
    requires IsName(s) && Kept(s) && !Edge(s[|s| - 1])
    ensures Sanitised(Pieces(s)) == s
  {
    NoSlash(s);
    BaseStays(Pieces(s));
    MappingKeeps(s);
    TrimmedKeeps(s);
    FinishedKeeps(s);
  }

  const DOTTED := "a..b"

  lemma DottedIsName()
    ensures IsName(DOTTED) && Kept(DOTTED) && !Edge(DOTTED[|DOTTED| - 1]) && HasDoubleDot(DOTTED)
  {
    assert DOTTED[1] == '.' && DOTTED[2] == '.';
  }

  /** So a..b stays, and no id of it passes the gate. */
  lemma DottedNameIsRefused(token: string)
    requires IsToken(token)
    ensures Sanitised(Pieces(DOTTED)) == DOTTED && !GateAccepts(StoredName(token, DOTTED))
  {
    DottedIsName();
    SanitisedKeeps(DOTTED);
    GateAcceptsExactly(token, Pieces(DOTTED));
  }

  lemma NameGate(token: string, original: string)
    requires IsToken(token) && IsName(original)
    ensures Bytes(StoredName(token, original)) <= 497
    ensures GateAccepts(StoredName(token, original)) <==> !HasDoubleDot(original)
  {
    IdSize(token, original);
    IdRunes(token, original);
    IdDots(token, original);
    GateOpens(StoredName(token, original));
  }

  lemma IdSize(token: string, original: string)
    requires IsToken(token) && |original| <= MAX_NAME
    ensures Bytes(StoredName(token, original)) <= 497
  {
    BytesBounds(token);
    BytesBounds(original);
    BytesConcat(token, "-");
    BytesConcat(token + "-", original);
    assert Bytes("-") == 1;
  }

  lemma IdRunes(token: string, original: string)
    requires IsToken(token) && Safe(original)
    ensures var id := StoredName(token, original); '/' !in id && '\\' !in id && '\0' !in id && |id| > 1
  {
    var id := StoredName(token, original);
    assert |id| > 1;
    forall i | 0 <= i < |id|
      ensures id[i] != '/' && id[i] != '\\' && id[i] != '\0'
    {
      if i < |token| {
        assert HexDigit(token[i]);
      } else if i > |token| {
        assert SafeRune(original[i - |token| - 1]);
      }
    }
  }

  lemma IdAt(token: string, original: string)
    ensures var id, n := StoredName(token, original), |token| + 1;
            && |id| == n + |original| && id[|token|] == '-'
            && (forall k :: 0 <= k < |token| ==> id[k] == token[k])
            && (forall k :: n <= k < |id| ==> id[k] == original[k - n])
  {}

  lemma IdDots(token: string, original: string)
    requires IsToken(token)
    ensures HasDoubleDot(StoredName(token, original)) <==> HasDoubleDot(original)
  {
    var id, n := StoredName(token, original), |token| + 1;
    IdAt(token, original);
    if HasDoubleDot(original) {
      var i :| 0 < i < |original| && original[i - 1] == '.' && original[i] == '.';
      assert id[n + i - 1] == '.' && id[n + i] == '.';
    }
    if HasDoubleDot(id) {
      var i :| 0 < i < |id| && id[i - 1] == '.' && id[i] == '.';
      assert original[i - 1 - n] == '.' && original[i - n] == '.';
    }
  }
}
