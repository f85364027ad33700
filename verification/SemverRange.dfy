/** Version ranges: their parser, what they contain, and the version gate at login. */
module SemverRange {
  import opened Basics
  import opened SemverSyntax
  import opened SemverParser
  import opened SemverGrammar
  import opened SemverOrder
  import opened SemverCursor
  import SemverPrinter

  datatype Comparator = Comparator(op: RangeOp, version: Version)

  // ---------------------------------------------------------------- membership

  function Satisfies(v: Version, c: Comparator): bool {
    var r := Compare(v, c.version, true);
    match c.op
    case Less => r < 0
    case LessEq => r <= 0
    case Greater => r > 0
    case GreaterEq => r >= 0
    case Equal => r == 0
  }

  /** Without the option to include pre-releases, a pre-release needs a comparator that names one of the
      same three numbers. */
  predicate NamedPrerelease(range: seq<Comparator>, v: Version) {
    v.tag == [] || exists i :: 0 <= i < |range| && range[i].version.tag != [] && Compare(v, range[i].version, false) == 0
  }

  predicate Contains(range: seq<Comparator>, v: Version, includePre: bool) {
    (includePre || NamedPrerelease(range, v)) && forall i :: 0 <= i < |range| ==> Satisfies(v, range[i])
  }

  predicate SetContains(ranges: seq<seq<Comparator>>, v: Version, includePre: bool) {
    exists i :: 0 <= i < |ranges| && Contains(ranges[i], v, includePre)
  }

  ghost predicate ParsedRange(range: seq<Comparator>) {
    forall i :: 0 <= i < |range| ==> Parsed(range[i].version)
  }

  /** A version can be compared with every version the range names. */
  predicate RangeComparable(range: seq<Comparator>, v: Version) {
    forall i :: 0 <= i < |range| ==> Comparable(range[i].version.ids, v.ids)
  }

  lemma SatisfiesConvex(c: Comparator, a: Version, b: Version, d: Version)
    requires Parsed(c.version) && Parsed(a) && Parsed(b) && Parsed(d)
    requires Comparable(c.version.ids, a.ids) && Comparable(c.version.ids, b.ids) && Comparable(c.version.ids, d.ids)
    requires Comparable(a.ids, b.ids) && Comparable(b.ids, d.ids)
    requires Compare(a, b, true) <= 0 && Compare(b, d, true) <= 0 && Satisfies(a, c) && Satisfies(d, c)
    ensures Satisfies(b, c)
  {
    hide Compare, Parsed, Comparable;
    var v := c.version;
    ComparableSym(v.ids, a.ids);
    ComparableSym(v.ids, b.ids);
    ComparableSym(v.ids, d.ids);
    ComparableSym(a.ids, v.ids);
    ComparableSym(b.ids, v.ids);
    ComparableSym(d.ids, v.ids);
    ComparableSym(a.ids, b.ids);
    ComparableSym(b.ids, d.ids);
    TotalPreorder(a, b, v);
    TotalPreorder(b, d, v);
    TotalPreorder(v, a, b);
    TotalPreorder(v, v, v);
    TotalPreorder(a, v, a);
    TotalPreorder(d, v, d);
    TotalPreorder(b, v, b);
  }

  /** A single range is convex once pre-releases are included.  Without them a version between two members
      is a member exactly when a comparator names its pre-release. */
  lemma ContainsConvex(range: seq<Comparator>, a: Version, b: Version, c: Version, includePre: bool)
    requires ParsedRange(range) && Parsed(a) && Parsed(b) && Parsed(c)
    requires RangeComparable(range, a) && RangeComparable(range, b) && RangeComparable(range, c)
    requires Comparable(a.ids, b.ids) && Comparable(b.ids, c.ids)
    requires Compare(a, b, true) <= 0 && Compare(b, c, true) <= 0
    requires Contains(range, a, includePre) && Contains(range, c, includePre)
    ensures Contains(range, b, true)
    ensures Contains(range, b, includePre) <==> includePre || NamedPrerelease(range, b)
  {
    hide Compare, Parsed, Satisfies, NamedPrerelease, Comparable;
    forall i | 0 <= i < |range|
      ensures Satisfies(b, range[i])
    {
      SatisfiesConvex(range[i], a, b, c);
    }
  }

  // ---------------------------------------------------------------- parsing, as functions

  function SkipSpaces(ts: seq<Token>, i: nat): (j: nat)
    requires i < |ts| && Closed(ts)
    ensures i <= j < |ts| && ts[j] != Space
    decreases |ts| - i
  {
    if ts[i] == Space then SkipSpaces(ts, i + 1) else i
  }

  function ParseComparator(ts: seq<Token>, i: nat): (r: Option<(Comparator, nat)>)
    requires i < |ts| && Closed(ts)
    ensures r.Some? ==> i < r.value.1 < |ts|
  {
    var (op, j) := if ts[i].Operator? then (ts[i].op, i + 1) else (Equal, i);
    var v := ParseVersion(ts, SkipSpaces(ts, j));
    if v.None? then None else Some((Comparator(op, v.value.0), v.value.1))
  }

  /** Comparators until neither an operator nor a digit follows. */
  function ParseRange(ts: seq<Token>, i: nat): (r: Option<(seq<Comparator>, nat)>)
    requires i < |ts| && Closed(ts)
    ensures r.Some? ==> i < r.value.1 < |ts|
    decreases |ts| - i
  {
    var c := ParseComparator(ts, SkipSpaces(ts, i));
    if c.None? then None
    else
      var j := SkipSpaces(ts, c.value.1);
      if !(ts[j].Operator? || ts[j].Digit?) then Some(([c.value.0], j))
      else
        var rest := ParseRange(ts, j);
        if rest.None? then None else Some(([c.value.0] + rest.value.0, rest.value.1))
  }

  /** Ranges separated by the logical or; what follows the last is not looked at. */
  function ParseRanges(ts: seq<Token>, i: nat): (r: Option<seq<seq<Comparator>>>)
    requires i < |ts| && Closed(ts)
    decreases |ts| - i
  {
    var range := ParseRange(ts, i);
    if range.None? then None
    else
      var j := SkipSpaces(ts, range.value.1);
      if ts[j] != Or then Some([range.value.0])
      else
        var rest := ParseRanges(ts, j + 1);
        if rest.None? then None else Some([range.value.0] + rest.value)
  }

  function ParseRangeSet(s: string): Option<seq<seq<Comparator>>> {
    var ts := Lex(s);
    if ts.None? then None else ParseRanges(ts.value, 0)
  }

  // ---------------------------------------------------------------- parsed ranges are convex

  lemma VersionParsed(ts: seq<Token>, i: nat)
    requires i < |ts| && Closed(ts) && ParseVersion(ts, i).Some?
    ensures Parsed(ParseVersion(ts, i).value.0)
  {
    hide ParseVersion, PartsAt, Word, Closed;
    var x := VersionFrom(ts, i);
    RenderLength(x);
    RenderPlain(x);
    assert TagOf(Denote(x), x.pre);
  }

  lemma ComparatorParsed(ts: seq<Token>, i: nat)
    requires i < |ts| && Closed(ts) && ParseComparator(ts, i).Some?
    ensures Parsed(ParseComparator(ts, i).value.0.version)
  {
    hide ParseVersion, Parsed;
    VersionParsed(ts, SkipSpaces(ts, if ts[i].Operator? then i + 1 else i));
  }

  lemma {:induction false} RangeParsed(ts: seq<Token>, i: nat)
    requires i < |ts| && Closed(ts) && ParseRange(ts, i).Some?
    ensures ParsedRange(ParseRange(ts, i).value.0)
    decreases |ts| - i
  {
    hide ParseComparator, Parsed, Closed;
    var start := SkipSpaces(ts, i);
    ComparatorParsed(ts, start);
    var j := SkipSpaces(ts, ParseComparator(ts, start).value.1);
    if ts[j].Operator? || ts[j].Digit? {
      RangeParsed(ts, j);
    }
  }

  lemma {:induction false} RangesParsed(ts: seq<Token>, i: nat, k: nat)
    requires i < |ts| && Closed(ts) && ParseRanges(ts, i).Some? && k < |ParseRanges(ts, i).value|
    ensures ParsedRange(ParseRanges(ts, i).value[k])
    decreases |ts| - i
  {
    hide ParseRange, ParsedRange;
    RangeParsed(ts, i);
    var j := SkipSpaces(ts, ParseRange(ts, i).value.1);
    if ts[j] == Or && k > 0 {
      RangesParsed(ts, j + 1, k - 1);
    }
  }

  /** Every range of every range text, between any three version texts whose tags can be compared. */
  lemma RangeTextConvex(text: string, k: nat, s: string, t: string, u: string)
    requires ParseRangeSet(text).Some? && k < |ParseRangeSet(text).value|
    requires Parse(s).Some? && Parse(t).Some? && Parse(u).Some?
    requires var (range, a, b, c) := (ParseRangeSet(text).value[k], Parse(s).value, Parse(t).value, Parse(u).value);
      && RangeComparable(range, a) && RangeComparable(range, b) && RangeComparable(range, c)
      && Comparable(a.ids, b.ids) && Comparable(b.ids, c.ids)
    ensures var (range, a, b, c) := (ParseRangeSet(text).value[k], Parse(s).value, Parse(t).value, Parse(u).value);
      Compare(a, b, true) <= 0 && Compare(b, c, true) <= 0 && Contains(range, a, true) && Contains(range, c, true)
      ==> Contains(range, b, true)
  {
    RangesParsed(Lex(text).value, 0, k);
    hide Lex, ParseRanges, Parse, Compare, Contains, Parsed, Comparable, RangeComparable;
    ParseGivesParsed(s);
    ParseGivesParsed(t);
    ParseGivesParsed(u);
    var (range, a, b, c) := (ParseRangeSet(text).value[k], Parse(s).value, Parse(t).value, Parse(u).value);
    if Compare(a, b, true) <= 0 && Compare(b, c, true) <= 0 && Contains(range, a, true) && Contains(range, c, true) {
      ContainsConvex(range, a, b, c, true);
    }
  }

  // ---------------------------------------------------------------- the loops

  ghost function ResumeRange(done: seq<Comparator>, rest: Option<(seq<Comparator>, nat)>): Option<(seq<Comparator>, nat)> {
    if rest.None? then None else Some((done + rest.value.0, rest.value.1))
  }

  lemma ResumeRangeStep(ts: seq<Token>, i: nat, done: seq<Comparator>)
    requires i < |ts| && Closed(ts)
    ensures var c := ParseComparator(ts, SkipSpaces(ts, i));
      ResumeRange(done, ParseRange(ts, i)) ==
      if c.None? then None
      else
        var j := SkipSpaces(ts, c.value.1);
        if !(ts[j].Operator? || ts[j].Digit?) then Some((done + [c.value.0], j))
        else ResumeRange(done + [c.value.0], ParseRange(ts, j))
  {
    hide ParseComparator;
    var c := ParseComparator(ts, SkipSpaces(ts, i));
    if c.Some? {
      var j := SkipSpaces(ts, c.value.1);
      if ts[j].Operator? || ts[j].Digit? {
        var rest := ParseRange(ts, j);
        if rest.Some? {
          assert done + ([c.value.0] + rest.value.0) == done + [c.value.0] + rest.value.0;
        }
      }
    }
  }

  ghost function ResumeRanges(done: seq<seq<Comparator>>, rest: Option<seq<seq<Comparator>>>): Option<seq<seq<Comparator>>> {
    if rest.None? then None else Some(done + rest.value)
  }

  lemma ResumeRangesStep(ts: seq<Token>, i: nat, done: seq<seq<Comparator>>)
    requires i < |ts| && Closed(ts)
    ensures var range := ParseRange(ts, i);
      ResumeRanges(done, ParseRanges(ts, i)) ==
      if range.None? then None
      else
        var j := SkipSpaces(ts, range.value.1);
        if ts[j] != Or then Some(done + [range.value.0])
        else ResumeRanges(done + [range.value.0], ParseRanges(ts, j + 1))
  {
    hide ParseRange;
    var range := ParseRange(ts, i);
    if range.Some? {
      var j := SkipSpaces(ts, range.value.1);
      if ts[j] == Or {
        var rest := ParseRanges(ts, j + 1);
        if rest.Some? {
          assert done + ([range.value.0] + rest.value) == done + [range.value.0] + rest.value;
        }
      }
    }
  }

  class RangeParser {
    const stream: TokenStream

    constructor (s: TokenStream)
      ensures stream == s
    {
      stream := s;
    }

    method SkipWhitespaces()
      requires stream.Ready()
      modifies stream
      ensures stream.Ready() && stream.current == SkipSpaces(stream.tokens, old(stream.current))
    {
      hide Closed;
      var more, t := stream.AdvanceIfMatch(KSpace);
      while more
        invariant stream.Ready() && (!more ==> stream.tokens[stream.current] != Space)
        invariant SkipSpaces(stream.tokens, old(stream.current)) == SkipSpaces(stream.tokens, stream.current)
        decreases |stream.tokens| - stream.current, more
      {
        more, t := stream.AdvanceIfMatch(KSpace);
      }
    }

    method ParseRangeComparator() returns (r: Option<Comparator>)
      requires stream.Ready()
      modifies stream
      ensures stream.Valid()
      ensures var p := ParseComparator(stream.tokens, old(stream.current));
        && r == (if p.None? then None else Some(p.value.0))
        && (p.Some? ==> stream.current == p.value.1)
    {
      hide Closed, ParseVersion;
      var op := Equal;
      var marked, t := stream.AdvanceIfMatch(KOperator);
      if marked {
        op := t.op;
      }
      SkipWhitespaces();
      var v := stream.ParseVersion();
      if v.None? {
        return None;
      }
      return Some(Comparator(op, v.value));
    }

    method ParseOneRange() returns (r: Option<seq<Comparator>>)
      requires stream.Ready()
      modifies stream
      ensures stream.Valid()
      ensures var p := ParseRange(stream.tokens, old(stream.current));
        && r == (if p.None? then None else Some(p.value.0))
        && (p.Some? ==> stream.current == p.value.1)
    {
      hide Closed, ParseComparator, ParseRange;
      var done: seq<Comparator> := [];
      ghost var whole := ParseRange(stream.tokens, stream.current);
      assert whole == ResumeRange([], whole) by {
        assert whole.Some? ==> [] + whole.value.0 == whole.value.0;
      }
      var more := true;
      while more
        invariant stream.Ready()
        invariant whole == if more then ResumeRange(done, ParseRange(stream.tokens, stream.current))
                           else Some((done, stream.current))
        decreases |stream.tokens| - stream.current, more
      {
        ResumeRangeStep(stream.tokens, stream.current, done);
        SkipWhitespaces();
        var c := ParseRangeComparator();
        if c.None? {
          return None;
        }
        done := done + [c.value];
        SkipWhitespaces();
        var next := KindOf(stream.tokens[stream.current]);
        more := next == KOperator || next == KDigit;
      }
      return Some(done);
    }

    method Parse() returns (r: Option<seq<seq<Comparator>>>)
      requires stream.Ready()
      modifies stream
      ensures stream.Valid() && r == ParseRanges(stream.tokens, old(stream.current))
    {
      hide Closed, ParseRange, ParseRanges;
      var done: seq<seq<Comparator>> := [];
      ghost var whole := ParseRanges(stream.tokens, stream.current);
      assert whole == ResumeRanges([], whole) by {
        assert whole.Some? ==> [] + whole.value == whole.value;
      }
      var more := true;
      while more
        invariant stream.Ready()
        invariant whole == if more then ResumeRanges(done, ParseRanges(stream.tokens, stream.current)) else Some(done)
        decreases |stream.tokens| - stream.current, more
      {
        ResumeRangesStep(stream.tokens, stream.current, done);
        var range := ParseOneRange();
        if range.None? {
          return None;
        }
        done := done + [range.value];
        SkipWhitespaces();
        var t;
        more, t := stream.AdvanceIfMatch(KOr);
      }
      return Some(done);
    }
  }

  method ParseRangeText(text: string) returns (r: Option<seq<seq<Comparator>>>)
    ensures r == ParseRangeSet(text)
  {
    var tokens := ScanTokens(text);
    if tokens.None? {
      return None;
    }
    var stream := new TokenStream(tokens.value);
    var parser := new RangeParser(stream);
    r := parser.Parse();
  }

  // ---------------------------------------------------------------- the login gate

  const SUPPORTED := ">=0.5.19 <0.6.0"

  /** A range text that did not parse would leave the range set empty, which contains nothing. */
  function Supported(): seq<seq<Comparator>> {
    var r := ParseRangeSet(SUPPORTED);
    if r.None? then [] else r.value
  }

  predicate Accepts(text: string) {
    Parse(text).Some? && SetContains(Supported(), Parse(text).value, false)
  }

  method CheckVersion(text: string) returns (ok: bool)
    ensures ok == Accepts(text)
  {
    hide Parse, ParseRangeSet, SetContains;
    var range := ParseRangeText(SUPPORTED);
    var version := ParseText(text);
    var ranges := if range.None? then [] else range.value;
    return version.Some? && SetContains(ranges, version.value, false);
  }

  function Release(major: nat, minor: nat, patch: nat): Version {
    Version(major, minor, patch, "", "", [])
  }

  lemma {:induction false} LexCons(s: string)
    requires s != [] && Plain(s[0]) && Lex(s[1..]).Some?
    ensures Lex(s) == Some([Tok(s[0])] + Lex(s[1..]).value)
  {
    LexOnePlain(s);
    hide LexOne, Closed;
  }

  /** Version characters in front of any text lex to themselves. */
  lemma {:induction false} LexThrough(w: string, tail: string)
    requires PlainText(w) && Lex(tail).Some?
    ensures Lex(w + tail).Some? && At(Lex(w + tail).value, 0, w)
    ensures |Lex(w + tail).value| == |w| + |Lex(tail).value| && Lex(w + tail).value[|w|..] == Lex(tail).value
    decreases |w|
  {
    hide Closed, Lex, Tok;
    if w == [] {
      assert w + tail == tail;
      assert Lex(tail).value[0..] == Lex(tail).value;
    } else {
      var rest := Lex(w[1..] + tail);
      assert (w + tail)[1..] == w[1..] + tail;
      LexThrough(w[1..], tail);
      LexCons(w + tail);
      AtShift(rest.value, Tok(w[0]), 0, w[1..]);
      assert ([Tok(w[0])] + rest.value)[|w|..] == rest.value[|w| - 1..];
    }
  }

  lemma {:induction false} AtDrop(ts: seq<Token>, n: nat, i: nat, w: string)
    requires n <= |ts| && At(ts[n..], i, w)
    ensures At(ts, n + i, w)
    decreases |w|
  {
    if w != [] {
      AtDrop(ts, n, i + 1, w[1..]);
    }
  }

  /** The tokens of the literal, as far as its parser looks at them. */
  predicate GateTokens(ts: seq<Token>) {
    && Closed(ts) && |ts| == 15
    && ts[0] == Operator(GreaterEq) && At(ts, 1, "0.5.19") && ts[7] == Space
    && ts[8] == Operator(RangeOp.Less) && At(ts, 9, "0.6.0") && ts[14] == Eol
  }

  lemma {:induction false} LexOperator(s: string, op: Token, rest: string)
    requires Lex(rest).Some? && |rest| < |s| && LexOne(s) == Some((op, |s| - |rest|)) && s[|s| - |rest|..] == rest
    ensures Lex(s) == Some([op] + Lex(rest).value)
  {
    hide LexOne, Closed;
  }

  lemma LexGate()
    ensures Lex(SUPPORTED).Some? && GateTokens(Lex(SUPPORTED).value)
  {
    hide Lex, At, Closed;
    var high, spaced, low := "<0.6.0", " <0.6.0", "0.5.19 <0.6.0";
    LexPlain("0.6.0");
    LexOperator(high, Operator(RangeOp.Less), "0.6.0");
    LexOperator(spaced, Space, high);
    assert low == "0.5.19" + spaced;
    LexThrough("0.5.19", spaced);
    LexOperator(SUPPORTED, Operator(GreaterEq), low);
    GateAssemble(Lex(SUPPORTED).value, Lex(low).value, Lex("0.6.0").value);
  }

  lemma {:induction false} GateAssemble(ts: seq<Token>, low: seq<Token>, high: seq<Token>)
    requires Closed(ts) && ts == [Operator(GreaterEq)] + low
    requires At(low, 0, "0.5.19") && |low| == 14 && low[6..] == [Space] + ([Operator(RangeOp.Less)] + high)
    requires At(high, 0, "0.6.0") && |high| == 6
    ensures GateTokens(ts)
  {
    assert ts[14] == Eol;
    hide Closed, At;
    AtShift(low, Operator(GreaterEq), 0, "0.5.19");
    assert ts[7..] == low[6..];
    assert ts[7] == ts[7..][0] && ts[8] == ts[7..][1];
    assert ts[9..] == ts[7..][2..] == high;
    AtDrop(ts, 9, 0, "0.6.0");
  }

  lemma GateLow(ts: seq<Token>)
    requires GateTokens(ts)
    ensures ParseVersion(ts, 1) == Some((Release(0, 5, 19), 7))
  {
    var x := Syntax("0", "5", "19", [], []);
    SmallNumerals();
    hide ParseVersion, Closed, At, Value, Word;
    assert Render(x) == "0.5.19";
    RenderAt(ts, 1, x);
    VersionAt(ts, 1, x, 7);
  }

  lemma GateHigh(ts: seq<Token>)
    requires GateTokens(ts)
    ensures ParseVersion(ts, 9) == Some((Release(0, 6, 0), 14))
  {
    var x := Syntax("0", "6", "0", [], []);
    SmallNumerals();
    hide ParseVersion, Closed, At, Value, Word;
    assert Render(x) == "0.6.0";
    RenderAt(ts, 9, x);
    VersionAt(ts, 9, x, 14);
  }

  lemma GateDigits(ts: seq<Token>)
    requires GateTokens(ts)
    ensures ts[1] == Digit(0) && ts[9] == Digit(0)
  {
    AtHead(ts, 1, "0.5.19");
    AtHead(ts, 9, "0.6.0");
  }

  lemma SmallNumerals()
    ensures Word("0") == 0 && Word("5") == 5 && Word("6") == 6 && Word("19") == 19
  {
    assert "19"[..1] == "1" && "1"[..0] == "" && Value("1") == 1;
  }

  lemma GateComparators(ts: seq<Token>)
    requires GateTokens(ts)
    ensures ParseComparator(ts, 0) == Some((Comparator(GreaterEq, Release(0, 5, 19)), 7))
    ensures ParseComparator(ts, 8) == Some((Comparator(RangeOp.Less, Release(0, 6, 0)), 14))
    ensures SkipSpaces(ts, 7) == 8 && SkipSpaces(ts, 0) == 0 && SkipSpaces(ts, 8) == 8 && SkipSpaces(ts, 14) == 14
  {
    hide ParseVersion, Closed, At;
    GateLow(ts);
    GateHigh(ts);
    GateDigits(ts);
  }

  /** What the literal means. */
  lemma GateRange()
    ensures Supported() == [[Comparator(GreaterEq, Release(0, 5, 19)), Comparator(RangeOp.Less, Release(0, 6, 0))]]
  {
    hide Lex, At, Closed, ParseComparator, SkipSpaces, ParseRange, ParseRanges;
    LexGate();
    var ts := Lex(SUPPORTED).value;
    GateComparators(ts);
    RangeOfTwo(ts);
  }

  lemma RangeOfTwo(ts: seq<Token>)
    requires GateTokens(ts) && ParseComparator(ts, 0).Some? && ParseComparator(ts, 8).Some?
    requires ParseComparator(ts, 0).value.1 == 7 && ParseComparator(ts, 8).value.1 == 14
    requires SkipSpaces(ts, 7) == 8 && SkipSpaces(ts, 0) == 0 && SkipSpaces(ts, 8) == 8 && SkipSpaces(ts, 14) == 14
    ensures ParseRanges(ts, 0) == Some([[ParseComparator(ts, 0).value.0, ParseComparator(ts, 8).value.0]])
  {
    hide At, Closed, ParseComparator, SkipSpaces;
    var low, high := ParseComparator(ts, 0).value.0, ParseComparator(ts, 8).value.0;
    assert ParseRange(ts, 8) == Some(([high], 14));
    assert ParseRange(ts, 0) == Some(([low] + [high], 14));
    hide ParseRange;
    assert [low] + [high] == [low, high];
  }

  lemma ReleaseOrder(v: Version, w: Version)
    requires v.ids == [] && w.ids == []
    ensures Compare(v, w, true) >= 0 <==>
      (v.major > w.major || (v.major == w.major && (v.minor > w.minor || (v.minor == w.minor && v.patch >= w.patch))))
  {
  }

  lemma GateOfVersion(v: Version)
    requires v.tag == [] <==> v.ids == []
    ensures SetContains(Supported(), v, false) <==> v.tag == [] && v.major == 0 && v.minor == 5 && v.patch >= 19
  {
    GateRange();
    hide Supported, Compare;
    var low, high := Comparator(GreaterEq, Release(0, 5, 19)), Comparator(RangeOp.Less, Release(0, 6, 0));
    var range := [low, high];
    assert Supported()[0] == range;
    if v.tag == [] {
      ReleaseOrder(v, low.version);
      ReleaseOrder(v, high.version);
      assert range[0] == low && range[1] == high;
      assert Contains(range, v, false) <==> Satisfies(v, low) && Satisfies(v, high);
    }
  }

  /** The gate, for every text: a version without pre-release whose numbers, as the parser sees them, are
      0, 5 and at least 19. */
  lemma GateExact(text: string)
    ensures Accepts(text) <==>
      exists x :: WellFormed(x) && Fits(x) && Render(x) == text && GateSyntax(x)
  {
    hide Parse, SetContains, Word, Fits, Supported;
    if Accepts(text) {
      ParseSound(text);
      var x :| WellFormed(x) && Fits(x) && Render(x) == text && Parse(text).value == Denote(x);
      GateOfSyntax(x);
    }
    if x :| WellFormed(x) && Fits(x) && Render(x) == text && GateSyntax(x) {
      ParseComplete(x);
      GateOfSyntax(x);
    }
  }

  predicate GateSyntax(x: Syntax)
    requires WellFormed(x)
  {
    x.pre == [] && Word(x.major) == 0 && Word(x.minor) == 5 && Word(x.patch) >= 19
  }

  lemma GateOfSyntax(x: Syntax)
    requires WellFormed(x)
    ensures SetContains(Supported(), Denote(x), false) <==> GateSyntax(x)
  {
    hide Word, Supported, SetContains;
    RenderPlain(x);
    EmptyJoin(x.pre);
    GateOfVersion(Denote(x));
  }

  /** With numerals of at most 19 digits: exactly 0.5.p, p at least 19, with any build metadata. */
  lemma GateShort(x: Syntax)
    requires WellFormed(x) && |x.major| <= 19 && |x.minor| <= 19 && |x.patch| <= 19
    ensures Accepts(Render(x)) <==>
      x.pre == [] && x.major == "0" && x.minor == "5" && 19 <= Value(x.patch) <= INT_MAX
  {
    hide Parse, SetContains, Value, Supported, Render;
    SemverPrinter.NineteenDigitsFit(x.major);
    SemverPrinter.NineteenDigitsFit(x.minor);
    SemverPrinter.NineteenDigitsFit(x.patch);
    assert Value("0") == 0 && Value("5") == 5 by {
      SmallNumerals();
      SemverPrinter.NineteenDigitsFit("0");
      SemverPrinter.NineteenDigitsFit("5");
    }
    SameValueSameText(x.major, "0");
    SameValueSameText(x.minor, "5");
    ParseComplete(x);
    GateOfSyntax(x);
  }
}
