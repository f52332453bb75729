/** Command lines in general: options written one after the other, and read back by arity. */
module Argv {
  import opened Common

  /** How one tool spells its options: alone, or followed by one operand. */
  datatype Syntax<!O> = Syntax(
    words: O -> seq<string>,
    bare: string -> Option<O>,
    taking: (string, string) -> Option<O>)

  /** Every option is spelled so that its flag alone tells what it is. */
  ghost predicate Unambiguous<O(!new)>(x: Syntax<O>) {
    forall o ::
      var w := x.words(o);
      || (|w| == 1 && x.bare(w[0]) == Some(o))
      || (|w| == 2 && x.bare(w[0]) == None && x.taking(w[0], w[1]) == Some(o))
  }

  function Written<O>(x: Syntax<O>, opts: seq<O>): seq<string> {
    if opts == [] then [] else x.words(opts[0]) + Written(x, opts[1..])
  }

  datatype Reading<O> = Reading(opts: seq<O>, rest: seq<string>)

  /** Left to right: a flag, with its operand if it takes one, for as long as flags come; an
      operand is taken whatever it looks like. */
  function Read<O>(x: Syntax<O>, args: seq<string>): Reading<O> {
    if args != [] && x.bare(args[0]).Some? then Prefixed(x.bare(args[0]).value, Read(x, args[1..]))
    else if |args| > 1 && x.taking(args[0], args[1]).Some? then
      Prefixed(x.taking(args[0], args[1]).value, Read(x, args[2..]))
    else Reading([], args)
  }

  function Prefixed<O>(o: O, r: Reading<O>): Reading<O> {
    Reading([o] + r.opts, r.rest)
  }

  lemma ReadOne<O(!new)>(x: Syntax<O>, o: O, tail: seq<string>)
    requires Unambiguous(x)
    ensures Read(x, x.words(o) + tail) == Prefixed(o, Read(x, tail))
  {
    var w := x.words(o);
    assert (w + tail)[|w|..] == tail;
  }

  lemma ReadNext<O(!new)>(x: Syntax<O>, o: O, tail: seq<string>, r: Reading<O>)
    requires Unambiguous(x) && Read(x, tail) == r
    ensures Read(x, x.words(o) + tail) == Prefixed(o, r)
  {
    ReadOne(x, o, tail);
  }

  lemma Assoc(a: seq<string>, b: seq<string>, c: seq<string>)
    ensures a + (b + c) == (a + b) + c
  {}

  lemma Uncons<O>(s: seq<O>)
    requires s != []
    ensures [s[0]] + s[1..] == s
  {}

  /** Options are read back from an argv as they were written, whatever their operands, up to the
      first thing that is no option. */
  lemma {:induction false} ReadWritten<O(!new)>(x: Syntax<O>, opts: seq<O>, rest: seq<string>)
    requires Unambiguous(x) && Read(x, rest) == Reading([], rest)
    ensures Read(x, Written(x, opts) + rest) == Reading(opts, rest)
  {
    if opts == [] {
      assert Written(x, opts) + rest == rest;
    } else {
      ReadWritten(x, opts[1..], rest);
      Assoc(x.words(opts[0]), Written(x, opts[1..]), rest);
      ReadNext(x, opts[0], Written(x, opts[1..]) + rest, Reading(opts[1..], rest));
      Uncons(opts);
    }
  }

  lemma {:induction false} WrittenConcat<O>(x: Syntax<O>, a: seq<O>, b: seq<O>)
    ensures Written(x, a + b) == Written(x, a) + Written(x, b)
  {
    if a == [] {
      assert a + b == b;
    } else {
      WrittenConcat(x, a[1..], b);
      assert (a + b)[1..] == a[1..] + b;
      Assoc(x.words(a[0]), Written(x, a[1..]), Written(x, b));
    }
  }

  lemma WrittenOne<O>(x: Syntax<O>, o: O)
    ensures Written(x, [o]) == x.words(o)
  {
    assert [o][1..] == [];
  }

  lemma WrittenSnoc<O>(x: Syntax<O>, opts: seq<O>, o: O)
    ensures Written(x, opts + [o]) == Written(x, opts) + x.words(o)
  {
    WrittenConcat(x, opts, [o]);
    WrittenOne(x, o);
  }

  lemma WrittenTwo<O>(x: Syntax<O>, a: O, b: O)
    ensures Written(x, [a, b]) == x.words(a) + x.words(b)
  {
    WrittenOne(x, a);
    WrittenSnoc(x, [a], b);
    assert [a] + [b] == [a, b];
  }

  lemma WrittenThree<O>(x: Syntax<O>, a: O, b: O, c: O)
    ensures Written(x, [a, b, c]) == x.words(a) + x.words(b) + x.words(c)
  {
    WrittenTwo(x, a, b);
    WrittenSnoc(x, [a, b], c);
    assert [a, b] + [c] == [a, b, c];
  }

  lemma WrittenParts<O>(x: Syntax<O>, a: seq<O>, b: seq<O>, c: seq<O>)
    ensures Written(x, a + b + c) == Written(x, a) + Written(x, b) + Written(x, c)
  {
    WrittenConcat(x, a + b, c);
    WrittenConcat(x, a, b);
  }
}
