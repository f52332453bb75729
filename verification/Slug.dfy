/** Names safe for the file system and the command line, and output paths built from them. */
module Slug {

  const MAX_SLUG: nat := 80
  const MAX_ATTEMPTS: nat := 16
  const FALLBACK := "file"

  predicate Keep(c: char) {
    'a' <= c <= 'z' || 'A' <= c <= 'Z' || '0' <= c <= '9' || c == '.' || c == '_'
  }

  predicate Allowed(c: char) {
    Keep(c) || c == '-'
  }

  predicate Edge(c: char) {
    c == '-' || c == '.' || c == ' ' || c == '\t'
  }

  // ---- The stages, as functions ------------------------------------------------------------

  /** Kept bytes as they are, any run of others as one dash. */
  function Filtered(s: string): string {
    if s == "" then ""
    else
      var head, c := Filtered(s[..|s| - 1]), s[|s| - 1];
      if Keep(c) then head + [c]
      else if head != "" && head[|head| - 1] == '-' then head
      else head + "-"
  }

  function Cut(s: string): string {
    if |s| > MAX_SLUG then s[..MAX_SLUG] else s
  }

  function TrimLeft(s: string): (r: string)
    ensures |r| <= |s| && r == s[|s| - |r|..] && (r != "" ==> !Edge(r[0]))
  {
    if s != "" && Edge(s[0]) then TrimLeft(s[1..]) else s
  }

  function TrimRight(s: string): (r: string)
    ensures r <= s && (r != "" ==> !Edge(r[|r| - 1]))
  {
    if s != "" && Edge(s[|s| - 1]) then TrimRight(s[..|s| - 1]) else s
  }

  function Trimmed(s: string): string {
    TrimRight(TrimLeft(s))
  }

  lemma {:induction false} TrimLeftDrops(s: string)
    ensures forall i :: 0 <= i < |s| - |TrimLeft(s)| ==> Edge(s[i])
  {
    if s != "" && Edge(s[0]) {
      TrimLeftDrops(s[1..]);
      assert forall i :: 0 < i < |s| ==> s[i] == s[1..][i - 1];
    }
  }

  lemma {:induction false} TrimRightDrops(s: string)
    ensures forall i :: |TrimRight(s)| <= i < |s| ==> Edge(s[i])
  {
    if s != "" && Edge(s[|s| - 1]) {
      TrimRightDrops(s[..|s| - 1]);
    }
  }

  /** Every run of dots as one dot. */
  function Collapsed(s: string): string {
    if |s| < 2 then s
    else if s[0] == '.' && s[1] == '.' then Collapsed(s[1..])
    else [s[0]] + Collapsed(s[1..])
  }

  function Finished(filtered: string): string {
    var out := Collapsed(Trimmed(Cut(filtered)));
    if out == "" then FALLBACK else out
  }

  function Sanitized(s: string): string {
    Finished(Filtered(s))
  }

  // ---- What a slug is ----------------------------------------------------------------------

  /** c never stands next to itself. */
  predicate NoDouble(s: string, c: char) {
    forall i :: 0 < i < |s| ==> !(s[i - 1] == c && s[i] == c)
  }

  predicate AllAllowed(s: string) {
    forall i :: 0 <= i < |s| ==> Allowed(s[i])
  }

  predicate IsSlug(s: string) {
    && 1 <= |s| <= MAX_SLUG
    && AllAllowed(s) && NoDouble(s, '-') && NoDouble(s, '.')
    && !Edge(s[0]) && !Edge(s[|s| - 1])
  }

  lemma {:induction false} FilteredClean(s: string)
    ensures AllAllowed(Filtered(s)) && NoDouble(Filtered(s), '-')
  {
    if s != "" {
      FilteredClean(s[..|s| - 1]);
    }
  }

  /** Any part of a clean string is clean. */
  lemma PartClean(s: string, a: nat, b: nat)
    requires a <= b <= |s| && AllAllowed(s) && NoDouble(s, '-')
    ensures AllAllowed(s[a..b]) && NoDouble(s[a..b], '-')
  {
    var t := s[a..b];
    assert forall i :: 0 <= i < |t| ==> t[i] == s[a + i];
  }

  lemma LeftClean(s: string)
    requires AllAllowed(s) && NoDouble(s, '-')
    ensures AllAllowed(TrimLeft(s)) && NoDouble(TrimLeft(s), '-')
  {
    var l := TrimLeft(s);
    PartClean(s, |s| - |l|, |s|);
    assert l == s[|s| - |l|..|s|];
  }

  lemma RightClean(s: string)
    requires AllAllowed(s) && NoDouble(s, '-')
    ensures var t := TrimRight(s);
            AllAllowed(t) && NoDouble(t, '-') && (t != "" ==> t[0] == s[0] && !Edge(t[|t| - 1]))
  {
    var t := TrimRight(s);
    PartClean(s, 0, |t|);
    assert t == s[0..|t|];
  }

  lemma TrimmedClean(s: string)
    requires AllAllowed(s) && NoDouble(s, '-')
    ensures var t := Trimmed(s);
            && AllAllowed(t) && NoDouble(t, '-') && |t| <= |s| && (t != "" ==> !Edge(t[0]) && !Edge(t[|t| - 1]))
  {
    LeftClean(s);
    RightClean(TrimLeft(s));
  }

  lemma {:induction false} CollapsedClean(s: string)
    requires AllAllowed(s) && NoDouble(s, '-')
    ensures var t := Collapsed(s);
            && AllAllowed(t) && NoDouble(t, '-') && NoDouble(t, '.') && |t| <= |s|
            && (s != "" ==> t != "" && t[0] == s[0] && t[|t| - 1] == s[|s| - 1])
  {
    if |s| >= 2 {
      PartClean(s, 1, |s|);
      assert s[1..] == s[1..|s|];
      CollapsedClean(s[1..]);
    }
  }

  /** Whatever the input, the result is a slug: 1 to 80 bytes over [A-Za-z0-9._-], no dash, dot
      or blank at either end, neither ".." nor "--" inside. */
  lemma SanitizedIsSlug(s: string)
    ensures IsSlug(Sanitized(s))
  {
    FilteredClean(s);
    CutClean(Filtered(s));
    TrimmedClean(Cut(Filtered(s)));
    CollapsedClean(Trimmed(Cut(Filtered(s))));
    FallbackIsSlug();
  }

  lemma CutClean(s: string)
    requires AllAllowed(s) && NoDouble(s, '-')
    ensures AllAllowed(Cut(s)) && NoDouble(Cut(s), '-') && |Cut(s)| <= MAX_SLUG
  {
    PartClean(s, 0, |Cut(s)|);
    assert Cut(s) == s[0..|Cut(s)|];
  }

  lemma FallbackIsSlug()
    ensures IsSlug(FALLBACK)
  {}

  lemma {:induction false} FilteredFixed(s: string)
    requires AllAllowed(s) && NoDouble(s, '-')
    ensures Filtered(s) == s
  {
    if s != "" {
      PartClean(s, 0, |s| - 1);
      assert s[..|s| - 1] == s[0..|s| - 1];
      FilteredFixed(s[..|s| - 1]);
      assert s == s[..|s| - 1] + [s[|s| - 1]];
    }
  }

  lemma {:induction false} CollapsedFixed(s: string)
    requires NoDouble(s, '.')
    ensures Collapsed(s) == s
  {
    if |s| >= 2 {
      assert s[0] == s[1 - 1];
      assert forall i :: 0 < i < |s[1..]| ==> s[1..][i - 1] == s[i] && s[1..][i] == s[i + 1];
      CollapsedFixed(s[1..]);
    }
  }

  /** Sanitising changes nothing exactly when its input is already a slug; so it is idempotent. */
  lemma FixedExactlyWhenSlug(s: string)
    ensures Sanitized(s) == s <==> IsSlug(s)
    ensures Sanitized(Sanitized(s)) == Sanitized(s)
  {
    SanitizedIsSlug(s);
    SlugFixed(Sanitized(s));
    if IsSlug(s) {
      SlugFixed(s);
    }
  }

  lemma SlugFixed(s: string)
    requires IsSlug(s)
    ensures Sanitized(s) == s
  {
    FilteredFixed(s);
    CollapsedFixed(s);
  }

  /** s with a dash for every character that is not kept. */
  function Dashed(s: string): (r: string)
    ensures |r| == |s| && forall i :: 0 <= i < |s| ==> r[i] == if Keep(s[i]) then s[i] else '-'
  {
    seq(|s|, i requires 0 <= i < |s| => if Keep(s[i]) then s[i] else '-')
  }

  lemma {:induction false} OthersAreDashes(s: string)
    ensures Filtered(s) == Filtered(Dashed(s))
  {
    if s != "" {
      OthersAreDashes(s[..|s| - 1]);
      assert Dashed(s)[..|s| - 1] == Dashed(s[..|s| - 1]);
    }
  }

  lemma {:induction false} RunIsOneDash(a: string, c: char, d: char, b: string)
    requires !Keep(c) && !Keep(d)
    ensures Filtered(a + [c, d] + b) == Filtered(a + [c] + b)
    decreases |b|
  {
    if b == "" {
      assert a + [c, d] + b == a + [c] + [d] && a + [c] + b == a + [c];
      assert (a + [c] + [d])[..|a| + 1] == a + [c] && (a + [c])[..|a|] == a;
    } else {
      var front := b[..|b| - 1];
      RunIsOneDash(a, c, d, front);
      assert (a + [c, d] + b)[..|a| + 1 + |b|] == a + [c, d] + front;
      assert (a + [c] + b)[..|a| + |b|] == a + [c] + front;
    }
  }

  lemma DashForOther(a: string, c: char, b: string)
    requires !Keep(c)
    ensures Sanitized(a + [c] + b) == Sanitized(a + "-" + b)
  {
    OthersAreDashes(a + [c] + b);
    OthersAreDashes(a + "-" + b);
    assert Dashed(a + [c] + b) == Dashed(a + "-" + b);
  }

  /** Characters that are not kept are alike, and a run of them counts as one. */
  lemma OthersAreAlike(a: string, c: char, d: char, b: string)
    requires !Keep(c) && !Keep(d)
    ensures Sanitized(a + [c, d] + b) == Sanitized(a + [c] + b)
    ensures Sanitized(a + [c] + b) == Sanitized(a + [d] + b) == Sanitized(a + "-" + b)
  {
    RunIsOneDash(a, c, d, b);
    DashForOther(a, c, b);
    DashForOther(a, d, b);
  }

  // ---- sanitizeName ------------------------------------------------------------------------

  function ReplaceDots(s: string): (r: string)
    ensures |r| <= |s|
  {
    if |s| < 2 then s
    else if s[0] == '.' && s[1] == '.' then "." + ReplaceDots(s[2..])
    else [s[0]] + ReplaceDots(s[1..])
  }

  predicate HasDoubleDot(s: string) {
    exists i :: 0 < i < |s| && s[i - 1] == '.' && s[i] == '.'
  }

  lemma {:induction false} ReplaceShrinks(s: string)
    requires HasDoubleDot(s)
    ensures |ReplaceDots(s)| < |s|
  {
    if !(s[0] == '.' && s[1] == '.') {
      var i :| 0 < i < |s| && s[i - 1] == '.' && s[i] == '.';
      assert s[1..][i - 1 - 1] == '.' && s[1..][i - 1] == '.';
      ReplaceShrinks(s[1..]);
    }
  }

  lemma CollapsedCons(c: char, s: string)
    ensures Collapsed([c] + s) == if s != "" && c == '.' && s[0] == '.' then Collapsed(s) else [c] + Collapsed(s)
  {
    assert ([c] + s)[1..] == s;
  }

  /** One round of replacing leaves the runs of dots the same runs, only shorter. */
  lemma {:induction false} ReplaceKeepsCollapsed(s: string)
    ensures Collapsed(ReplaceDots(s)) == Collapsed(s)
    ensures s != "" ==> ReplaceDots(s) != "" && ReplaceDots(s)[0] == s[0]
  {
    if |s| >= 2 {
      if s[0] == '.' && s[1] == '.' {
        ReplaceKeepsCollapsed(s[2..]);
        CollapsedCons('.', ReplaceDots(s[2..]));
        CollapsedCons('.', s[2..]);
        assert s[1..] == "." + s[2..];
      } else {
        ReplaceKeepsCollapsed(s[1..]);
        CollapsedCons(s[0], ReplaceDots(s[1..]));
      }
    }
  }

  method SanitizeName(s: string) returns (out: string)
    ensures out == Sanitized(s)
  {
    out := "";
    var dash := false;
    for i := 0 to |s|
      invariant out == Filtered(s[..i])
      invariant dash <==> out != "" && out[|out| - 1] == '-'
    {
      var c := s[i];
      assert s[..i + 1][..i] == s[..i];
      if 'a' <= c <= 'z' || 'A' <= c <= 'Z' || '0' <= c <= '9' || c == '.' || c == '_' {
        out := out + [c];
        dash := false;
      } else if !dash {
        out := out + "-";
        dash := true;
      }
    }
    assert s[..|s|] == s;
    if |out| > MAX_SLUG {
      out := out[..MAX_SLUG];
    }
    out := Trimmed(out);
    ghost var trimmed := out;
    while HasDoubleDot(out)
      invariant Collapsed(out) == Collapsed(trimmed)
      decreases |out|
    {
      ReplaceShrinks(out);
      ReplaceKeepsCollapsed(out);
      out := ReplaceDots(out);
    }
    CollapsedFixed(out);
    if out == "" {
      out := FALLBACK;
    }
  }

  // ---- uniqueOutputPath --------------------------------------------------------------------

  const TAG_LENGTH: nat := 2

  predicate Tagged(tag: string) {
    tag != "" && tag != FALLBACK
  }

  function FileName(slug: string, tag: string, ext: string): string {
    slug + (if Tagged(tag) then "-" + tag else "") + (if ext != "" then "." + ext else "")
  }

  /** filepath.Join on a clean directory. */
  function Joined(dir: string, name: string): string {
    dir + "/" + name
  }

  /** Names a direct child, and neither hides it nor reads as a flag. */
  predicate ChildName(name: string) {
    && name != "" && !Edge(name[0]) && NoDouble(name, '.')
    && AllAllowed(name)                // no separator among these
    && |name| <= 3 * MAX_SLUG + 2
  }

  lemma GlueClean(a: string, c: char, b: string)
    requires a != "" && b != "" && AllAllowed(a) && AllAllowed(b) && NoDouble(a, '.') && NoDouble(b, '.')
    requires Allowed(c) && !Edge(a[0]) && (c == '.' ==> a[|a| - 1] != '.' && b[0] != '.')
    ensures var s := a + [c] + b; AllAllowed(s) && NoDouble(s, '.') && !Edge(s[0]) && s[|s| - 1] == b[|b| - 1]
  {
    var s := a + [c] + b;
    forall i | 0 < i < |s|
      ensures !(s[i - 1] == '.' && s[i] == '.')
    {
      if i < |a| {
        assert s[i - 1] == a[i - 1] && s[i] == a[i];
      } else if i > |a| + 1 {
        assert s[i - 1] == b[i - |a| - 2] && s[i] == b[i - |a| - 1];
      }
    }
  }

  lemma NameIsChild(slug: string, tag: string, ext: string)
    requires IsSlug(slug) && (tag == "" || IsSlug(tag)) && (ext == "" || IsSlug(ext))
    ensures ChildName(FileName(slug, tag, ext))
  {
    var name := slug;
    if Tagged(tag) {
      GlueClean(slug, '-', tag);
      name := slug + "-" + tag;
    }
    if ext != "" {
      GlueClean(name, '.', ext);
      assert FileName(slug, tag, ext) == name + "." + ext;
    }
  }

  predicate HexDigit(c: char) {
    '0' <= c <= '9' || 'a' <= c <= 'f'
  }

  /** Two hex digits, or nothing when there is no randomness. */
  method RandomTag() returns (tag: string)
    ensures tag == "" || (|tag| == TAG_LENGTH && HexDigit(tag[0]) && HexDigit(tag[1]) && IsSlug(tag))
  {
    assert HexDigit('0');
    var a: char :| HexDigit(a);
    var b: char :| HexDigit(b);
    var drawn: bool :| true;
    tag := if drawn then [a, b] else "";
  }

  function WithoutDot(ext: string): string {
    if ext != "" && ext[0] == '.' then ext[1..] else ext
  }

  /** An extension that sanitises to the fallback is dropped. */
  function Suffix(ext: string): string {
    var e := Sanitized(WithoutDot(ext));
    if e == FALLBACK then "" else e
  }

  function ShortId(id: string): string {
    if |id| > TAG_LENGTH then id[..TAG_LENGTH] else id
  }

  /** A proper extension stays, with its dot or without. */
  lemma SuffixStays(ext: string)
    requires IsSlug(ext) && ext != FALLBACK
    ensures Suffix(ext) == ext == Suffix("." + ext)
  {
    assert ("." + ext)[1..] == ext;
    SlugFixed(ext);
  }

  lemma HexPairIsSlug(tag: string)
    requires |tag| == 2 && HexDigit(tag[0]) && HexDigit(tag[1])
    ensures IsSlug(tag) && Tagged(tag)
  {
    assert |FALLBACK| == 4;
  }

  /** The first tag of a hexadecimal id is its first two digits. */
  lemma FirstTag(id: string)
    requires |id| >= 2 && HexDigit(id[0]) && HexDigit(id[1])
    ensures Sanitized(ShortId(id)) == id[..2] && Tagged(id[..2])
  {
    var tag := id[..2];
    assert ShortId(id) == tag && tag[0] == id[0] && tag[1] == id[1];
    HexPairIsSlug(tag);
    SlugFixed(tag);
  }

  /** Other tags make other names. */
  lemma TagsTellApart(slug: string, tag: string, tag': string, ext: string)
    requires |tag| == |tag'| == 2 && FileName(slug, tag, ext) == FileName(slug, tag', ext)
    ensures tag == tag'
  {
    var a, b := FileName(slug, tag, ext), FileName(slug, tag', ext);
    assert a[|slug| + 1..|slug| + 3] == tag && b[|slug| + 1..|slug| + 3] == tag';
  }

  /** Directly inside dir, under a safe name. */
  predicate IsChild(dir: string, path: string) {
    |path| > |dir| && path[..|dir| + 1] == dir + "/" && ChildName(path[|dir| + 1..])
  }

  lemma JoinedIsChild(dir: string, name: string)
    requires ChildName(name)
    ensures IsChild(dir, Joined(dir, name))
  {
    assert Joined(dir, name)[|dir| + 1..] == name;
  }

  /** disk: the paths a Stat finds. tag is the one in the name, rounds how many were tried. */
  method UniqueOutputPath(dir: string, base: string, ext: string, jobId: string, disk: set<string>)
    returns (path: string, ghost tag: string, ghost rounds: nat)
    ensures IsChild(dir, path)
    ensures path == Joined(dir, FileName(Sanitized(base), tag, Suffix(ext)))
    ensures 1 <= rounds <= MAX_ATTEMPTS + 1
    ensures path in disk ==> !Tagged(tag) || rounds == MAX_ATTEMPTS + 1
    ensures rounds == 1 ==> tag == Sanitized(ShortId(jobId))
  {
    var slug := SanitizeName(base);
    var suffix := SanitizeName(WithoutDot(ext));
    SanitizedIsSlug(base);
    SanitizedIsSlug(WithoutDot(ext));
    if suffix == FALLBACK {
      suffix := "";
    }
    var first := SanitizeName(ShortId(jobId));
    SanitizedIsSlug(ShortId(jobId));
    path, tag, rounds := DrawName(dir, slug, suffix, first, disk);
    NameIsChild(slug, tag, suffix);
    JoinedIsChild(dir, FileName(slug, tag, suffix));
  }

  method DrawName(dir: string, slug: string, suffix: string, first: string, disk: set<string>)
    returns (path: string, ghost tag: string, ghost rounds: nat)
    requires IsSlug(first)
    ensures path == Joined(dir, FileName(slug, tag, suffix))
    ensures 1 <= rounds <= MAX_ATTEMPTS + 1 && (tag == "" || IsSlug(tag))
    ensures path in disk ==> !Tagged(tag) || rounds == MAX_ATTEMPTS + 1
    ensures rounds == 1 ==> tag == first
  {
    var current := first;
    var attempt := 0;
    while true
      invariant attempt <= MAX_ATTEMPTS && (attempt == 0 ==> current == first)
      invariant current == "" || IsSlug(current)
      decreases MAX_ATTEMPTS - attempt
    {
      var name := slug;
      if current != "" && current != FALLBACK {
        name := name + "-" + current;
      }
      if suffix != "" {
        name := name + "." + suffix;
      }
      path := Joined(dir, name);
      tag, rounds := current, attempt + 1;
      assert name == FileName(slug, tag, suffix);
      if current == "" || current == FALLBACK || attempt >= MAX_ATTEMPTS {
        return;
      }
      if path !in disk {
        return;
      }
      current := RandomTag();
      attempt := attempt + 1;
    }
  }
}
