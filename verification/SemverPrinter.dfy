/** `to_string`, which writes backwards into a buffer of exactly `length()` characters, and the round trips
    between printing and parsing. */
module SemverPrinter {
  import opened Basics
  import opened SemverSyntax
  import opened SemverParser
  import opened SemverGrammar

  function DigitChar(d: nat): char
    requires d < 10
  {
    ('0' as int + d) as char
  }

  /** The decimal numeral of a number. */
  function Digits(n: nat): (s: string)
    ensures s != []
  {
    if n < 10 then [DigitChar(n)] else Digits(n / 10) + [DigitChar(n % 10)]
  }

  function Marked(mark: char, text: string): string {
    if text == [] then [] else [mark] + text
  }

  function Print(v: Version): string {
    Digits(v.major) + "." + Digits(v.minor) + "." + Digits(v.patch) + Marked('-', v.tag) + Marked('+', v.build)
  }

  // ---------------------------------------------------------------- the loops

  method DigitCount(n: nat) returns (count: nat)
    ensures count == |Digits(n)|
  {
    var rest: nat := n / 10;
    count := 1;
    while rest != 0
      invariant |Digits(n)| == if rest == 0 then count else count + |Digits(rest)|
      decreases rest
    {
      count := count + 1;
      rest := rest / 10;
    }
  }

  method Length(v: Version) returns (n: nat)
    ensures n == |Print(v)|
  {
    var a := DigitCount(v.major);
    var b := DigitCount(v.minor);
    var c := DigitCount(v.patch);
    n := a + b + c + 2;
    if v.tag != [] {
      n := n + |v.tag| + 1;
    }
    if v.build != [] {
      n := n + |v.build| + 1;
    }
  }

  /** What a backward writer does: `text` now ends where `dest` was, and nothing else moved. */
  twostate predicate WroteBefore(buf: array<char>, dest: nat, text: string, start: nat)
    reads buf
  {
    && start + |text| == dest <= buf.Length
    && buf[start..dest] == text
    && (forall k :: 0 <= k < start ==> buf[k] == old(buf[k]))
    && (forall k :: dest <= k < buf.Length ==> buf[k] == old(buf[k]))
  }

  method ToChars(buf: array<char>, dest: nat, n: nat) returns (start: nat)
    requires |Digits(n)| <= dest <= buf.Length
    modifies buf
    ensures WroteBefore(buf, dest, Digits(n), start)
  {
    start := dest - 1;
    buf[start] := DigitChar(n % 10);
    var rest: nat := n / 10;
    while rest != 0
      invariant start < dest <= buf.Length
      invariant rest != 0 ==> |Digits(rest)| <= start
      invariant Digits(n) == (if rest == 0 then [] else Digits(rest)) + buf[start..dest]
      invariant forall k :: 0 <= k < start ==> buf[k] == old(buf[k])
      invariant forall k :: dest <= k < buf.Length ==> buf[k] == old(buf[k])
      decreases rest
    {
      ghost var tail := buf[start..dest];
      start := start - 1;
      buf[start] := DigitChar(rest % 10);
      assert buf[start..dest] == [DigitChar(rest % 10)] + tail;
      rest := rest / 10;
    }
  }

  method CopyBackward(text: string, buf: array<char>, dest: nat) returns (start: nat)
    requires |text| <= dest <= buf.Length
    modifies buf
    ensures WroteBefore(buf, dest, text, start)
  {
    var i := |text|;
    start := dest;
    while i > 0
      invariant 0 <= i <= |text| && start == dest - |text| + i
      invariant buf[start..dest] == text[i..]
      invariant forall k :: 0 <= k < start ==> buf[k] == old(buf[k])
      invariant forall k :: dest <= k < buf.Length ==> buf[k] == old(buf[k])
    {
      i := i - 1;
      start := start - 1;
      buf[start] := text[i];
      assert text[i..] == [text[i]] + text[i + 1..];
    }
  }

  method PutBefore(buf: array<char>, dest: nat, c: char) returns (start: nat)
    requires 1 <= dest <= buf.Length
    modifies buf
    ensures WroteBefore(buf, dest, [c], start)
  {
    start := dest - 1;
    buf[start] := c;
  }

  /** Two adjacent writes are one write of the concatenation. */
  lemma Extend(buf: seq<char>, text: string, mid: nat, more: string, start: nat)
    requires start + |more| == mid <= |buf| && buf[start..mid] == more && buf[mid..] == text
    ensures buf[start..] == more + text
  {
    assert buf[start..] == buf[start..mid] + buf[mid..];
  }

  method PutMarked(buf: array<char>, dest: nat, mark: char, text: string) returns (start: nat)
    requires |Marked(mark, text)| <= dest <= buf.Length
    modifies buf
    ensures WroteBefore(buf, dest, Marked(mark, text), start)
  {
    start := dest;
    if text != [] {
      start := CopyBackward(text, buf, start);
      ghost var mid := start;
      start := PutBefore(buf, start, mark);
      assert buf[start..dest] == buf[start..mid] + buf[mid..dest];
      assert buf[mid..dest] == text;
    }
  }

  method PutDotNumber(buf: array<char>, dest: nat, n: nat) returns (start: nat)
    requires 1 + |Digits(n)| <= dest <= buf.Length
    modifies buf
    ensures WroteBefore(buf, dest, "." + Digits(n), start)
  {
    hide Digits;
    start := ToChars(buf, dest, n);
    ghost var mid := start;
    start := PutBefore(buf, start, '.');
    assert buf[start..dest] == buf[start..mid] + buf[mid..dest];
    assert buf[mid..dest] == Digits(n);
  }

  /** The numbers and dots, written from `dest` down to the start of the buffer. */
  method PutTriple(buf: array<char>, dest: nat, v: Version) returns (start: nat)
    requires |Digits(v.major) + "." + Digits(v.minor) + "." + Digits(v.patch)| == dest <= buf.Length
    modifies buf
    ensures WroteBefore(buf, dest, Digits(v.major) + "." + Digits(v.minor) + "." + Digits(v.patch), start)
  {
    hide Digits;
    ghost var a, b, c := Digits(v.major), "." + Digits(v.minor), "." + Digits(v.patch);
    var p := PutDotNumber(buf, dest, v.patch);
    assert buf[p..dest] == c;
    var q := PutDotNumber(buf, p, v.minor);
    assert buf[p..dest] == c && buf[q..p] == b;
    start := ToChars(buf, q, v.major);
    assert buf[p..dest] == c && buf[q..p] == b && buf[start..q] == a;
    assert buf[start..dest] == buf[start..q] + (buf[q..p] + buf[p..dest]);
    assert a + (b + c) == a + "." + Digits(v.minor) + "." + Digits(v.patch);
  }

  /** The iterator comes back to the beginning: `length()` is neither too large nor too small. */
  method ToString(v: Version) returns (text: string)
    ensures text == Print(v)
  {
    hide Digits;
    var n := Length(v);
    var buf := new char[n];
    ghost var abc := Digits(v.major) + "." + Digits(v.minor) + "." + Digits(v.patch);
    var it := PutMarked(buf, n, '+', v.build);
    ghost var p := it;
    it := PutMarked(buf, it, '-', v.tag);
    assert buf[..][p..] == Marked('+', v.build);
    Extend(buf[..], Marked('+', v.build), p, Marked('-', v.tag), it);
    p := it;
    it := PutTriple(buf, it, v);
    assert buf[..][p..] == Marked('-', v.tag) + Marked('+', v.build);
    Extend(buf[..], Marked('-', v.tag) + Marked('+', v.build), p, abc, it);
    assert it == 0;
    text := buf[..];
    assert text == text[it..];
    assert abc + (Marked('-', v.tag) + Marked('+', v.build)) == abc + Marked('-', v.tag) + Marked('+', v.build);
  }

  // ---------------------------------------------------------------- numerals and numbers

  /** Printing a number gives the numeral of that value. */
  lemma {:induction false} DigitsDenote(n: nat)
    ensures Numeral(Digits(n)) && Value(Digits(n)) == n
  {
    var s := Digits(n);
    if n < 10 {
      assert Value(s[..0]) == 0;
    } else {
      DigitsDenote(n / 10);
      assert s[..|s| - 1] == Digits(n / 10);
      if n / 10 < 10 {
        assert Digits(n / 10)[0] == DigitChar(n / 10);
      } else {
        assert |Digits(n / 10)| > 1;
      }
    }
  }

  /** A numeral is the one printed for its value: leading zeros are what would break this. */
  lemma {:induction false} NumeralUnique(w: string)
    requires Numeral(w)
    ensures Digits(Value(w)) == w
    decreases |w|
  {
    var u := w[..|w| - 1];
    var d := DigitOf(w[|w| - 1]);
    assert DigitChar(d) == w[|w| - 1];
    assert w == u + [w[|w| - 1]];
    if u == [] {
      assert Value(w) == d;
    } else {
      assert u[0] == w[0];
      NumeralUnique(u);
      ValuePositive(u);
      assert Value(w) / 10 == Value(u) && Value(w) % 10 == d;
    }
  }

  lemma {:induction false} ValuePositive(w: string)
    requires AllDigits(w) && w != [] && w[0] != '0'
    ensures Value(w) >= 1
    decreases |w|
  {
    if |w| > 1 {
      ValuePositive(w[..|w| - 1]);
    } else {
      assert Value(w[..0]) == 0;
    }
  }

  lemma {:induction false} ValueBelow(w: string)
    requires AllDigits(w)
    ensures Value(w) < Pow10(|w|)
    decreases |w|
  {
    if w != [] {
      ValueBelow(w[..|w| - 1]);
    }
  }

  lemma Pow10Nineteen()
    ensures Pow10(10) == 10_000_000_000 && Pow10(19) == 10_000_000_000_000_000_000
  {
    assert Pow10(5) == 100_000;
    assert Pow10(10) == 10_000_000_000;
    assert Pow10(15) == 1_000_000_000_000_000;
  }

  lemma NineteenDigitsFit(w: string)
    requires AllDigits(w) && |w| <= 19
    ensures Value(w) < WORD
  {
    hide Value, Pow10;
    ValueBelow(w);
    Pow10Grows(|w|, 19);
    Pow10Nineteen();
  }

  lemma {:induction false} DigitsLong(n: nat)
    ensures |Digits(n)| > 1 ==> Pow10(|Digits(n)| - 1) <= n
  {
    if n >= 10 {
      DigitsLong(n / 10);
    }
  }

  /** Numbers that fit an `int` print with at most ten digits. */
  lemma IntIsShort(n: nat)
    requires n <= INT_MAX
    ensures |Digits(n)| <= 10
  {
    hide Digits, Pow10;
    DigitsLong(n);
    Pow10Nineteen();
    if |Digits(n)| > 10 {
      Pow10Grows(10, |Digits(n)| - 1);
    }
  }

  /** A numeral reprints as itself unless the accumulator wrapped, and then it reprints shorter. */
  lemma Reprint(w: string)
    requires Numeral(w) && Word(w) <= INT_MAX
    ensures Value(w) < WORD ==> Digits(Word(w)) == w
    ensures Value(w) >= WORD ==> |Digits(Word(w))| < |w|
  {
    hide Digits, Value;
    if Value(w) < WORD {
      NumeralUnique(w);
    } else {
      IntIsShort(Word(w));
      if |w| <= 19 {
        NineteenDigitsFit(w);
      }
    }
  }

  // ---------------------------------------------------------------- round trips

  /** No number of the text wraps the 64-bit accumulator. */
  predicate Unwrapped(x: Syntax)
    requires WellFormed(x)
  {
    Value(x.major) < WORD && Value(x.minor) < WORD && Value(x.patch) < WORD
  }

  lemma JoinEmpty(ids: seq<string>, pre: bool)
    requires AllIds(ids, pre)
    ensures Join(ids) == [] <==> ids == []
    ensures forall mark :: Marked(mark, Join(ids)) == Section(mark, ids)
  {
    if ids != [] {
      JoinPlain(ids, pre);
    }
  }

  lemma PrintParts(x: Syntax)
    requires WellFormed(x)
    ensures Print(Denote(x)) ==
      Digits(Word(x.major)) + "." + Digits(Word(x.minor)) + "." + Digits(Word(x.patch))
      + Section('-', x.pre) + Section('+', x.build)
  {
    hide Digits, Word, Section, Join;
    RenderPlain(x);
    JoinEmpty(x.pre, true);
    JoinEmpty(x.build, false);
  }

  /** Parsing and printing a text gives the text back exactly when no number wrapped. */
  lemma ParsePrint(x: Syntax)
    requires WellFormed(x) && Fits(x)
    ensures Parse(Render(x)).Some?
    ensures Print(Parse(Render(x)).value) == Render(x) <==> Unwrapped(x)
  {
    hide Parse, Digits, Word, Value, Section, Denote, Print, Numeral;
    ParseComplete(x);
    PrintParts(x);
    Reprint(x.major);
    Reprint(x.minor);
    Reprint(x.patch);
    RenderLength(x);
    PrintNoLonger(x);
  }

  lemma PrintNoLonger(x: Syntax)
    requires WellFormed(x) && Fits(x)
    ensures |Print(Denote(x))| <= |Render(x)|
    ensures !Unwrapped(x) ==> |Print(Denote(x))| < |Render(x)|
  {
    hide Digits, Word, Value, Section, Denote, Print, Numeral;
    PrintParts(x);
    Reprint(x.major);
    Reprint(x.minor);
    Reprint(x.patch);
  }

  /** The text that is printed, as a syntax. */
  lemma Normal(x: Syntax) returns (y: Syntax)
    requires WellFormed(x) && Fits(x)
    ensures WellFormed(y) && Fits(y) && Render(y) == Print(Denote(x)) && Denote(y) == Denote(x)
  {
    hide Digits, Section, Denote, Print;
    PrintParts(x);
    y := x.(major := Digits(Word(x.major)), minor := Digits(Word(x.minor)), patch := Digits(Word(x.patch)));
    DigitsDenote(Word(x.major));
    DigitsDenote(Word(x.minor));
    DigitsDenote(Word(x.patch));
    assert y.pre == x.pre && y.build == x.build;
    SameDenotation(x, y);
  }

  /** The printed form of any parsed version parses to that same version, wrapped numbers included. */
  lemma PrintParse(s: string)
    requires Parse(s).Some?
    ensures Parse(Print(Parse(s).value)) == Parse(s)
  {
    hide Parse, Digits, Section, Denote, Print, WellFormed, Fits;
    ParseSound(s);
    var x :| WellFormed(x) && Fits(x) && Render(x) == s && Parse(s).value == Denote(x);
    var y := Normal(x);
    ParseComplete(y);
  }

  lemma SameDenotation(x: Syntax, y: Syntax)
    requires WellFormed(x) && WellFormed(y) && x.pre == y.pre && x.build == y.build
    requires Word(x.major) == Word(y.major) && Word(x.minor) == Word(y.minor) && Word(x.patch) == Word(y.patch)
    ensures Denote(x) == Denote(y)
  {
  }

  /** With numerals of at most 19 digits `parse` is exactly the specification's grammar restricted to
      `int` components, and `to_string` is its inverse. */
  lemma ShortNumeralsExact(x: Syntax)
    requires WellFormed(x) && |x.major| <= 19 && |x.minor| <= 19 && |x.patch| <= 19
    ensures Parse(Render(x)).Some? <==> Value(x.major) <= INT_MAX && Value(x.minor) <= INT_MAX && Value(x.patch) <= INT_MAX
    ensures Parse(Render(x)).Some? ==>
      var v := Parse(Render(x)).value;
      && (v.major, v.minor, v.patch) == (Value(x.major), Value(x.minor), Value(x.patch))
      && (v.tag, v.build) == (Join(x.pre), Join(x.build))
      && Print(v) == Render(x)
  {
    hide Parse, Value, Print, Render;
    NineteenDigitsFit(x.major);
    NineteenDigitsFit(x.minor);
    NineteenDigitsFit(x.patch);
    ParseComplete(x);
    if Fits(x) {
      ParsePrint(x);
    }
  }

  /** A numeral of twenty digits can wrap: this text is accepted as version 1.0.0. */
  lemma WrappedNumeralAccepted()
    ensures Parse("18446744073709551617.0.0") == Some(Version(1, 0, 0, "", "", []))
    ensures Print(Version(1, 0, 0, "", "", [])) == "1.0.0"
  {
    hide Parse, Print, Value, Digits;
    var x := Syntax("18446744073709551617", "0", "0", [], []);
    assert Digits(18446744073709551617) == "18446744073709551617" && Digits(0) == "0" && Digits(1) == "1" by {
      TwentyDigits();
    }
    DigitsDenote(18446744073709551617);
    DigitsDenote(0);
    assert WellFormed(x) && Fits(x);
    assert Render(x) == "18446744073709551617.0.0";
    ParseComplete(x);
    PrintParts(x);
    assert Denote(x) == Version(1, 0, 0, "", "", []);
  }

  lemma TwentyDigits()
    ensures Digits(18446744073709551617) == "18446744073709551617" && Digits(0) == "0" && Digits(1) == "1"
  {
    TenDigits();
    hide Digits;
    NextDigit(1844674407, "1844674407", 3);
    NextDigit(18446744073, "18446744073", 7);
    NextDigit(184467440737, "184467440737", 0);
    NextDigit(1844674407370, "1844674407370", 9);
    NextDigit(18446744073709, "18446744073709", 5);
    NextDigit(184467440737095, "184467440737095", 5);
    NextDigit(1844674407370955, "1844674407370955", 1);
    NextDigit(18446744073709551, "18446744073709551", 6);
    NextDigit(184467440737095516, "184467440737095516", 1);
    NextDigit(1844674407370955161, "1844674407370955161", 7);
  }

  lemma TenDigits()
    ensures Digits(1844674407) == "1844674407" && Digits(0) == "0" && Digits(1) == "1"
  {
    assert Digits(18446) == "18446" && Digits(0) == "0" && Digits(1) == "1";
    hide Digits;
    NextDigit(18446, "18446", 7);
    NextDigit(184467, "184467", 4);
    NextDigit(1844674, "1844674", 4);
    NextDigit(18446744, "18446744", 0);
    NextDigit(184467440, "184467440", 7);
  }

  lemma NextDigit(n: nat, w: string, d: nat)
    requires n >= 1 && Digits(n) == w && d < 10
    ensures Digits(n * 10 + d) == w + [DigitChar(d)]
  {
  }
}
