/** The parser accepts exactly the grammar: for every text, and with the 64-bit accumulator as it is. */
module SemverGrammar {
  import opened Basics
  import opened SemverSyntax
  import opened SemverParser

  // ---------------------------------------------------------------- characters and tokens

  predicate Plain(c: char) {
    IsIdentChar(c) || c == '.' || c == '+'
  }

  predicate PlainText(s: string) {
    forall i :: 0 <= i < |s| ==> Plain(s[i])
  }

  /** The token of a character that can occur in a version; no other character has one. */
  function Tok(c: char): Token {
    if c == '.' then Dot else if c == '+' then Plus else if c == '-' then Hyphen
    else if IsDigit(c) then Digit(DigitOf(c)) else if IsLetter(c) then Letter(c) else Eol
  }

  lemma LexOnePlain(s: string)
    requires s != []
    ensures Plain(s[0]) ==> LexOne(s) == Some((Tok(s[0]), 1))
    ensures forall c :: Tok(c) != Eol && LexOne(s).Some? && LexOne(s).value.0 == Tok(c) ==> s[0] == c
  {
  }

  /** `w` stands in the tokens at `i`. */
  predicate At(ts: seq<Token>, i: nat, w: string)
    decreases |w|
  {
    w == [] || (i < |ts| && ts[i] == Tok(w[0]) && At(ts, i + 1, w[1..]))
  }

  lemma {:induction false} AtConcat(ts: seq<Token>, i: nat, a: string, b: string)
    ensures At(ts, i, a + b) <==> At(ts, i, a) && At(ts, i + |a|, b)
    decreases |a|
  {
    if a == [] {
      assert a + b == b;
    } else {
      assert (a + b)[1..] == a[1..] + b;
      AtConcat(ts, i + 1, a[1..], b);
    }
  }

  lemma {:induction false} AtIndex(ts: seq<Token>, i: nat, w: string, k: nat)
    requires At(ts, i, w) && k < |w|
    ensures i + k < |ts| && ts[i + k] == Tok(w[k])
    decreases k
  {
    if k > 0 {
      AtIndex(ts, i + 1, w[1..], k - 1);
    }
  }

  lemma {:induction false} AtShift(ts: seq<Token>, t: Token, i: nat, w: string)
    requires At(ts, i, w)
    ensures At([t] + ts, i + 1, w)
    decreases |w|
  {
    if w != [] {
      AtShift(ts, t, i + 1, w[1..]);
    }
  }

  /** A plain text lexes character by character. */
  lemma {:induction false} LexPlain(s: string)
    requires PlainText(s)
    ensures Lex(s).Some? && At(Lex(s).value, 0, s) && |Lex(s).value| == |s| + 1
    decreases |s|
  {
    if s != [] {
      LexOnePlain(s);
      LexPlain(s[1..]);
      AtShift(Lex(s[1..]).value, Tok(s[0]), 0, s[1..]);
    }
  }

  lemma {:induction false} AtUnshift(ts: seq<Token>, t: Token, i: nat, w: string)
    requires At([t] + ts, i + 1, w)
    ensures At(ts, i, w)
    decreases |w|
  {
    if w != [] {
      AtUnshift(ts, t, i + 1, w[1..]);
    }
  }

  /** No other text gives the same tokens. */
  lemma {:induction false} LexInjective(s: string, w: string)
    requires Lex(s).Some? && At(Lex(s).value, 0, w) && |Lex(s).value| == |w| + 1
    ensures s == w
    decreases |s|
  {
    if s != [] {
      var ts := Lex(s).value;
      var one := LexOne(s).value;
      var rest := Lex(s[one.1..]).value;
      assert ts == [one.0] + rest && w != [];
      LexOnePlain(s);
      assert one.0 == Tok(w[0]) && one.0 != Eol;
      assert s[0] == w[0] && one.1 == 1;
      AtUnshift(rest, one.0, 0, w[1..]);
      LexInjective(s[1..], w[1..]);
    }
  }

  lemma AtHead(ts: seq<Token>, i: nat, w: string)
    requires w != [] && At(ts, i, w)
    ensures i < |ts| && ts[i] == Tok(w[0])
  {
  }

  // ---------------------------------------------------------------- runs

  lemma {:induction false} RunEndIs(ts: seq<Token>, i: nat, j: nat)
    requires Closed(ts) && i <= j < |ts| && !IsIdentToken(ts[j])
    requires forall k :: i <= k < j ==> IsIdentToken(ts[k])
    ensures RunEnd(ts, i) == j
    decreases j - i
  {
    if i < j {
      RunEndIs(ts, i + 1, j);
    }
  }

  lemma {:induction false} DigitsEndIs(ts: seq<Token>, i: nat, j: nat)
    requires Closed(ts) && i <= j < |ts| && !ts[j].Digit?
    requires forall k :: i <= k < j ==> ts[k].Digit?
    ensures DigitsEnd(ts, i) == j
    decreases j - i
  {
    if i < j {
      DigitsEndIs(ts, i + 1, j);
    }
  }

  /** Text and tokens of an identifier determine each other. */
  lemma TextAt(ts: seq<Token>, i: nat, w: string)
    requires Closed(ts) && At(ts, i, w) && i + |w| <= |ts| && forall k :: 0 <= k < |w| ==> IsIdentChar(w[k])
    ensures forall k :: i <= k < i + |w| ==> IsIdentToken(ts[k])
    ensures Text(ts, i, i + |w|) == w
  {
    forall k | i <= k < i + |w|
      ensures IsIdentToken(ts[k]) && CharOf(ts[k]) == w[k - i]
    {
      AtIndex(ts, i, w, k - i);
    }
  }

  lemma AtText(ts: seq<Token>, i: nat, j: nat)
    requires Closed(ts) && i <= j < |ts| && forall k :: i <= k < j ==> IsIdentToken(ts[k])
    ensures var w := Text(ts, i, j);
      && At(ts, i, w)
      && (forall k :: 0 <= k < |w| ==> IsIdentChar(w[k]) && (IsDigit(w[k]) <==> ts[i + k].Digit?))
  {
    var w := Text(ts, i, j);
    forall k | 0 <= k < |w|
      ensures IsIdentChar(w[k]) && (IsDigit(w[k]) <==> ts[i + k].Digit?) && ts[i + k] == Tok(w[k])
    {
      assert IsIdentToken(ts[i + k]) && w[k] == CharOf(ts[i + k]);
      if ts[i + k].Digit? {
        assert ts[i + k].d < 10;
      }
    }
    AtFrom(ts, i, w);
  }

  lemma {:induction false} AtFrom(ts: seq<Token>, i: nat, w: string)
    requires i + |w| <= |ts| && forall k :: 0 <= k < |w| ==> ts[i + k] == Tok(w[k])
    ensures At(ts, i, w)
    decreases |w|
  {
    if w != [] {
      assert ts[i + 0] == Tok(w[0]);
      forall k | 0 <= k < |w[1..]|
        ensures ts[i + 1 + k] == Tok(w[1..][k])
      {
        assert ts[i + (k + 1)] == Tok(w[k + 1]);
      }
      AtFrom(ts, i + 1, w[1..]);
    }
  }

  lemma {:induction false} AccumulateIsWord(ts: seq<Token>, i: nat, w: string)
    requires Closed(ts) && At(ts, i, w) && i + |w| <= |ts| && AllDigits(w)
    ensures forall k :: i <= k < i + |w| ==> ts[k].Digit?
    ensures Accumulate(ts, i, i + |w|) == Word(w)
    decreases |w|
  {
    forall k | i <= k < i + |w|
      ensures ts[k].Digit?
    {
      AtIndex(ts, i, w, k - i);
    }
    if w != [] {
      var u := w[..|w| - 1];
      assert w == u + [w[|u|]];
      AtConcat(ts, i, u, [w[|u|]]);
      AccumulateIsWord(ts, i, u);
      AtIndex(ts, i, w, |u|);
      WrapOnceOrTwice(Value(u), DigitOf(w[|u|]));
    }
  }

  lemma WrapOnceOrTwice(n: nat, d: nat)
    ensures (n % WORD * 10 + d) % WORD == (n * 10 + d) % WORD
  {
    var q := n / WORD;
    assert n * 10 + d == (n % WORD * 10 + d) + WORD * (q * 10);
    AddMultiple(n % WORD * 10 + d, q * 10);
  }

  lemma AddMultiple(a: nat, k: nat)
    ensures (a + WORD * k) % WORD == a % WORD
  {
  }

  // ---------------------------------------------------------------- numbers

  lemma NumberAt(ts: seq<Token>, i: nat, w: string)
    requires Closed(ts) && Numeral(w) && At(ts, i, w) && i + |w| < |ts| && !ts[i + |w|].Digit?
    ensures ParseNumber(ts, i) == if Word(w) <= INT_MAX then Some((Word(w), i + |w|)) else None
  {
    AtHead(ts, i, w);
    AccumulateIsWord(ts, i, w);
    DigitsEndIs(ts, i, i + |w|);
    if w[0] == '0' {
      assert w == "0";
      assert Value(w) == Value(w[..0]) * 10 + DigitOf(w[0]);
    }
  }

  lemma NumberFrom(ts: seq<Token>, i: nat)
    requires Closed(ts) && i < |ts| && ParseNumber(ts, i).Some?
    ensures var (n, j) := ParseNumber(ts, i).value;
      exists w :: Numeral(w) && At(ts, i, w) && i + |w| == j && Word(w) == n
  {
    var (n, j) := ParseNumber(ts, i).value;
    var w := Text(ts, i, j);
    AtText(ts, i, j);
    assert w[0] == CharOf(ts[i + 0]);
    if ts[i].d == 0 {
      assert w == "0";
      assert Value(w) == Value(w[..0]) * 10 + DigitOf(w[0]);
    } else {
      AccumulateIsWord(ts, i, w);
    }
    assert Numeral(w) && At(ts, i, w) && i + |w| == j && Word(w) == n;
  }

  // ---------------------------------------------------------------- identifiers

  predicate IsId(w: string, pre: bool) {
    if pre then PreIdent(w) else BuildIdent(w)
  }

  lemma IdentAt(ts: seq<Token>, i: nat, w: string, pre: bool)
    requires Closed(ts) && IsId(w, pre) && At(ts, i, w) && i + |w| < |ts| && !IsIdentToken(ts[i + |w|])
    ensures (if pre then ParsePreIdent(ts, i) else ParseBuildIdent(ts, i)) == Some((w, i + |w|))
  {
    TextAt(ts, i, w);
    RunEndIs(ts, i, i + |w|);
    LeadingZeroText(ts, i, w);
  }

  lemma LeadingZeroText(ts: seq<Token>, i: nat, w: string)
    requires Closed(ts) && i + |w| < |ts| && At(ts, i, w) && RunEnd(ts, i) == i + |w|
    ensures IsLeadingZero(ts, i) ==> AllDigits(w) && |w| > 1 && w[0] == '0'
  {
    if IsLeadingZero(ts, i) {
      AtHead(ts, i, w);
      forall k | 0 <= k < |w|
        ensures IsDigit(w[k])
      {
        AtIndex(ts, i, w, k);
      }
    }
  }

  lemma IdentFrom(ts: seq<Token>, i: nat, pre: bool)
    requires Closed(ts) && i < |ts|
    requires (if pre then ParsePreIdent(ts, i) else ParseBuildIdent(ts, i)).Some?
    ensures var (w, j) := (if pre then ParsePreIdent(ts, i) else ParseBuildIdent(ts, i)).value;
      IsId(w, pre) && At(ts, i, w) && j == i + |w|
  {
    var j := RunEnd(ts, i);
    var w := Text(ts, i, j);
    AtText(ts, i, j);
    if i < j {
      LeadingZeroSeen(ts, i);
    }
  }

  lemma LeadingZeroSeen(ts: seq<Token>, i: nat)
    requires Closed(ts) && i < |ts| && i < RunEnd(ts, i)
    ensures var w := Text(ts, i, RunEnd(ts, i));
      AllDigits(w) && |w| > 1 && w[0] == '0' ==> IsLeadingZero(ts, i)
  {
    var j := RunEnd(ts, i);
    var w := Text(ts, i, j);
    AtText(ts, i, j);
    AtHead(ts, i, w);
    if AllDigits(w) {
      forall k | i <= k < j
        ensures ts[k].Digit?
      {
        assert IsDigit(w[k - i]) <==> ts[i + (k - i)].Digit?;
      }
      DigitsEndIs(ts, i, j);
    }
  }

  predicate AllIds(ids: seq<string>, pre: bool) {
    forall i :: 0 <= i < |ids| ==> IsId(ids[i], pre)
  }

  lemma {:induction false} JoinPlain(ids: seq<string>, pre: bool)
    requires AllIds(ids, pre)
    ensures PlainText(Join(ids)) && (ids != [] ==> Join(ids) != [])
  {
    if |ids| > 0 {
      JoinPlain(ids[1..], pre);
      assert IsId(ids[0], pre);
    }
  }

  /** A list of identifiers stands at `i` when its first, a dot and the others do. */
  lemma JoinAt(ts: seq<Token>, i: nat, ids: seq<string>)
    requires |ids| > 1
    ensures |Join(ids)| == |ids[0]| + 1 + |Join(ids[1..])|
    ensures At(ts, i, Join(ids)) <==>
            && At(ts, i, ids[0]) && i + |ids[0]| < |ts| && ts[i + |ids[0]|] == Dot
            && At(ts, i + |ids[0]| + 1, Join(ids[1..]))
  {
    var w, rest := ids[0], ids[1..];
    assert Join(ids) == w + ("." + Join(rest));
    AtConcat(ts, i, w, "." + Join(rest));
    AtConcat(ts, i + |w|, ".", Join(rest));
    DotAt(ts, i + |w|);
  }

  lemma {:induction false} IdentsAt(ts: seq<Token>, i: nat, ids: seq<string>, pre: bool)
    requires Closed(ts) && ids != [] && AllIds(ids, pre) && At(ts, i, Join(ids))
    requires i + |Join(ids)| < |ts| && !IsIdentToken(ts[i + |Join(ids)|]) && ts[i + |Join(ids)|] != Dot
    ensures ParseIdents(ts, i, pre) == Some((ids, i + |Join(ids)|))
    decreases |ids|
  {
    hide At, RunEnd, ParsePreIdent, ParseBuildIdent, IsId, Closed;
    var w := ids[0];
    assert IsId(w, pre);
    if |ids| == 1 {
      IdentAt(ts, i, w, pre);
      assert ids == [w];
    } else {
      assert AllIds(ids[1..], pre);
      JoinAt(ts, i, ids);
      IdentAt(ts, i, w, pre);
      IdentsAt(ts, i + |w| + 1, ids[1..], pre);
      IdentsStep(ts, i, w, ids[1..], pre);
      assert ids == [w] + ids[1..];
    }
  }

  /** One turn of the list loop, from its parts. */
  lemma IdentsStep(ts: seq<Token>, i: nat, w: string, rest: seq<string>, pre: bool)
    requires Closed(ts) && i + |w| < |ts| && ts[i + |w|] == Dot && w != []
    requires (if pre then ParsePreIdent(ts, i) else ParseBuildIdent(ts, i)) == Some((w, i + |w|))
    requires i + |w| + 1 < |ts|
    requires ParseIdents(ts, i + |w| + 1, pre) == Some((rest, i + |w| + 1 + |Join(rest)|))
    ensures ParseIdents(ts, i, pre) == Some(([w] + rest, i + |w| + 1 + |Join(rest)|))
  {
  }

  lemma {:induction false} IdentsFrom(ts: seq<Token>, i: nat, pre: bool)
    requires Closed(ts) && i < |ts| && ParseIdents(ts, i, pre).Some?
    ensures var (ids, j) := ParseIdents(ts, i, pre).value;
      && AllIds(ids, pre) && ids != [] && At(ts, i, Join(ids)) && j == i + |Join(ids)|
    decreases |ts| - i
  {
    hide At, IsIdentToken, RunEnd, ParsePreIdent, ParseBuildIdent, IsId, Closed;
    IdentFrom(ts, i, pre);
    var (w, j) := (if pre then ParsePreIdent(ts, i) else ParseBuildIdent(ts, i)).value;
    if ts[j] == Dot {
      IdentsFrom(ts, j + 1, pre);
      var rest := ParseIdents(ts, j + 1, pre).value.0;
      var ids := [w] + rest;
      assert ids[1..] == rest;
      assert AllIds(ids, pre);
      JoinAt(ts, i, ids);
    }
  }

  function MarkToken(mark: char): Token {
    if mark == '-' then Hyphen else Plus
  }

  lemma SectionAt(ts: seq<Token>, i: nat, mark: char, ids: seq<string>, pre: bool)
    requires Closed(ts) && (mark == '-' || mark == '+') && AllIds(ids, pre)
    requires At(ts, i, Section(mark, ids)) && i + |Section(mark, ids)| < |ts|
    requires var next := ts[i + |Section(mark, ids)|];
      if ids == [] then next != MarkToken(mark) else !IsIdentToken(next) && next != Dot
    ensures ParseSection(ts, i, MarkToken(mark), pre) == Some((ids, i + |Section(mark, ids)|))
  {
    if ids != [] {
      AtConcat(ts, i, [mark], Join(ids));
      IdentsAt(ts, i + 1, ids, pre);
    }
  }

  lemma SectionFrom(ts: seq<Token>, i: nat, mark: char, pre: bool)
    requires Closed(ts) && i < |ts| && (mark == '-' || mark == '+')
    requires ParseSection(ts, i, MarkToken(mark), pre).Some?
    ensures var (ids, j) := ParseSection(ts, i, MarkToken(mark), pre).value;
      AllIds(ids, pre) && At(ts, i, Section(mark, ids)) && j == i + |Section(mark, ids)|
  {
    if ts[i] == MarkToken(mark) {
      IdentsFrom(ts, i + 1, pre);
      var ids := ParseIdents(ts, i + 1, pre).value.0;
      AtConcat(ts, i, [mark], Join(ids));
    }
  }

  // ---------------------------------------------------------------- whole versions

  lemma RenderPlain(x: Syntax)
    requires WellFormed(x)
    ensures PlainText(Render(x)) && AllIds(x.pre, true) && AllIds(x.build, false)
  {
    assert AllIds(x.pre, true) && AllIds(x.build, false);
    JoinPlain(x.pre, true);
    JoinPlain(x.build, false);
  }

  function Triple(x: Syntax): string {
    x.major + ("." + (x.minor + ("." + x.patch)))
  }

  function Tail(x: Syntax): string {
    Section('-', x.pre) + Section('+', x.build)
  }

  lemma RenderSplit(x: Syntax)
    ensures Render(x) == Triple(x) + Tail(x)
  {
    var a, b, c, d, e := x.major, x.minor, x.patch, Section('-', x.pre), Section('+', x.build);
    assert a + "." + b + "." + c == Triple(x);
    assert Triple(x) + d + e == Triple(x) + (d + e);
  }

  lemma DotAt(ts: seq<Token>, i: nat)
    ensures At(ts, i, ".") <==> i < |ts| && ts[i] == Dot
  {
    assert "."[1..] == [];
  }

  /** What follows a section begins with its own mark or is the end. */
  lemma SectionHead(ts: seq<Token>, i: nat, mark: char, ids: seq<string>, pre: bool)
    requires (mark == '-' || mark == '+') && AllIds(ids, pre) && At(ts, i, Section(mark, ids)) && i < |ts|
    ensures ids != [] ==> ts[i] == MarkToken(mark)
  {
    if ids != [] {
      AtHead(ts, i, Section(mark, ids));
    }
  }

  /** Three numerals with dots between them stand at `i` when each does in its place. */
  lemma DottedAt(ts: seq<Token>, i: nat, a: string, b: string, c: string)
    ensures var i1, i2 := i + |a|, i + |a| + 1 + |b|;
      At(ts, i, a + ("." + (b + ("." + c)))) <==>
      && At(ts, i, a) && i1 < |ts| && ts[i1] == Dot
      && At(ts, i1 + 1, b) && i2 < |ts| && ts[i2] == Dot
      && At(ts, i2 + 1, c)
  {
    var i1, i2 := i + |a|, i + |a| + 1 + |b|;
    AtConcat(ts, i, a, "." + (b + ("." + c)));
    AtConcat(ts, i1, ".", b + ("." + c));
    AtConcat(ts, i1 + 1, b, "." + c);
    AtConcat(ts, i2, ".", c);
    DotAt(ts, i1);
    DotAt(ts, i2);
  }

  lemma NumbersAt(ts: seq<Token>, i: nat, a: string, b: string, c: string)
    requires Closed(ts) && Numeral(a) && Numeral(b) && Numeral(c)
    requires var i1, i2, i3 := i + |a|, i + |a| + 1 + |b|, i + |a| + 1 + |b| + 1 + |c|;
      && At(ts, i, a) && At(ts, i1 + 1, b) && At(ts, i2 + 1, c)
      && i3 < |ts| && ts[i1] == Dot && ts[i2] == Dot && !ts[i3].Digit?
    ensures ParseTriple(ts, i) ==
      if Word(a) <= INT_MAX && Word(b) <= INT_MAX && Word(c) <= INT_MAX
      then Some(((Word(a), Word(b), Word(c)), i + |a| + 1 + |b| + 1 + |c|)) else None
  {
    hide At, Closed, ParseNumber, Word, Numeral;
    NumberAt(ts, i, a);
    NumberAt(ts, i + |a| + 1, b);
    NumberAt(ts, i + |a| + 1 + |b| + 1, c);
  }

  lemma SectionsAt(ts: seq<Token>, i: nat, j: nat, k: nat, pre: seq<string>, build: seq<string>)
    requires Closed(ts) && AllIds(pre, true) && AllIds(build, false)
    requires j == i + |Section('-', pre)| && k == j + |Section('+', build)| < |ts|
    requires At(ts, i, Section('-', pre)) && At(ts, j, Section('+', build))
    requires !IsIdentToken(ts[k]) && ts[k] != Dot && ts[k] != Plus
    ensures ParseSections(ts, i) == Some(((pre, build), k))
    ensures !ts[i].Digit?
  {
    assert ts[j] == Plus || ts[j] == ts[k] by {
      SectionHead(ts, j, '+', build, false);
    }
    assert ts[i] == Hyphen || ts[i] == ts[j] by {
      SectionHead(ts, i, '-', pre, true);
    }
    assert ParseSection(ts, i, Hyphen, true) == Some((pre, j)) by {
      SectionAt(ts, i, '-', pre, true);
    }
    assert ParseSection(ts, j, Plus, false) == Some((build, k)) by {
      SectionAt(ts, j, '+', build, false);
    }
  }

  /** Where the parts of a version stand. */
  predicate PartsAt(ts: seq<Token>, i: nat, x: Syntax) {
    var i1, i2 := i + |x.major|, i + |x.major| + 1 + |x.minor|;
    var i3 := i2 + 1 + |x.patch|;
    && At(ts, i, x.major) && i1 < |ts| && ts[i1] == Dot
    && At(ts, i1 + 1, x.minor) && i2 < |ts| && ts[i2] == Dot
    && At(ts, i2 + 1, x.patch)
    && At(ts, i3, Section('-', x.pre))
    && At(ts, i3 + |Section('-', x.pre)|, Section('+', x.build))
  }

  lemma RenderAt(ts: seq<Token>, i: nat, x: Syntax)
    ensures At(ts, i, Render(x)) <==> PartsAt(ts, i, x)
  {
    hide At, Section, Tok;
    RenderSplit(x);
    AtConcat(ts, i, Triple(x), Tail(x));
    AtConcat(ts, i + |Triple(x)|, Section('-', x.pre), Section('+', x.build));
    DottedAt(ts, i, x.major, x.minor, x.patch);
  }

  lemma RenderLength(x: Syntax)
    ensures |Render(x)| == |x.major| + 1 + |x.minor| + 1 + |x.patch| + |Section('-', x.pre)| + |Section('+', x.build)|
  {
  }

  /** A version whose parts stand in the tokens, with the end or a foreign token after it, is what is
      parsed. */
  lemma VersionAt(ts: seq<Token>, i: nat, x: Syntax, e: nat)
    requires Closed(ts) && WellFormed(x) && PartsAt(ts, i, x) && i + |Render(x)| == e < |ts|
    requires !IsIdentToken(ts[e]) && ts[e] != Dot && ts[e] != Plus
    ensures ParseVersion(ts, i) == if Fits(x) then Some((Denote(x), e)) else None
  {
    hide At, Section, Render, ParseTriple, ParseSections, ParseVersion, Closed, Word, Denote;
    var k := i + |x.major| + 1 + |x.minor| + 1 + |x.patch|;
    var j := k + |Section('-', x.pre)|;
    RenderLength(x);
    assert AllIds(x.pre, true) && AllIds(x.build, false);
    SectionsAt(ts, k, j, e, x.pre, x.build);
    NumbersAt(ts, i, x.major, x.minor, x.patch);
    VersionAssemble(ts, i, x, k, e);
  }

  lemma VersionAssemble(ts: seq<Token>, i: nat, x: Syntax, k: nat, j: nat)
    requires Closed(ts) && i < k < |ts| && WellFormed(x)
    requires ParseTriple(ts, i) == if Fits(x) then Some(((Word(x.major), Word(x.minor), Word(x.patch)), k)) else None
    requires ParseSections(ts, k) == Some(((x.pre, x.build), j))
    ensures ParseVersion(ts, i) == if Fits(x) then Some((Denote(x), j)) else None
  {
  }

  lemma NumeralFrom(ts: seq<Token>, i: nat) returns (w: string)
    requires Closed(ts) && i < |ts| && ParseNumber(ts, i).Some?
    ensures Numeral(w) && At(ts, i, w) && i + |w| == ParseNumber(ts, i).value.1 && Word(w) == ParseNumber(ts, i).value.0
  {
    NumberFrom(ts, i);
    w :| Numeral(w) && At(ts, i, w) && i + |w| == ParseNumber(ts, i).value.1 && Word(w) == ParseNumber(ts, i).value.0;
  }

  /** The three numerals that `ParseTriple` has read. */
  predicate TripleRead(ts: seq<Token>, i: nat, a: string, b: string, c: string)
    requires Closed(ts) && i < |ts| && ParseTriple(ts, i).Some?
  {
    && Numeral(a) && Numeral(b) && Numeral(c)
    && ParseTriple(ts, i).value.0 == (Word(a), Word(b), Word(c))
    && At(ts, i, a + ("." + (b + ("." + c))))
    && ParseTriple(ts, i).value.1 == i + |a| + 1 + |b| + 1 + |c|
  }

  lemma TripleFrom(ts: seq<Token>, i: nat) returns (a: string, b: string, c: string)
    requires Closed(ts) && i < |ts| && ParseTriple(ts, i).Some?
    ensures TripleRead(ts, i, a, b, c)
  {
    a := NumeralFrom(ts, i);
    b := NumeralFrom(ts, i + |a| + 1);
    c := NumeralFrom(ts, i + |a| + 1 + |b| + 1);
    DottedAt(ts, i, a, b, c);
  }

  lemma TailFrom(ts: seq<Token>, i: nat)
    requires Closed(ts) && i < |ts| && ParseSections(ts, i).Some?
    ensures var ((pre, build), e) := ParseSections(ts, i).value;
      var j := i + |Section('-', pre)|;
      && AllIds(pre, true) && AllIds(build, false)
      && At(ts, i, Section('-', pre)) && At(ts, j, Section('+', build)) && e == j + |Section('+', build)|
  {
    SectionFrom(ts, i, '-', true);
    var j := ParseSection(ts, i, Hyphen, true).value.1;
    SectionFrom(ts, j, '+', false);
  }

  lemma IdsWellFormed(x: Syntax)
    requires Numeral(x.major) && Numeral(x.minor) && Numeral(x.patch)
    requires AllIds(x.pre, true) && AllIds(x.build, false)
    ensures WellFormed(x)
  {
    assert forall m :: 0 <= m < |x.pre| ==> IsId(x.pre[m], true);
    assert forall m :: 0 <= m < |x.build| ==> IsId(x.build[m], false);
  }

  lemma VersionFrom(ts: seq<Token>, i: nat) returns (x: Syntax)
    requires Closed(ts) && i < |ts| && ParseVersion(ts, i).Some?
    ensures WellFormed(x) && Fits(x) && PartsAt(ts, i, x)
    ensures ParseVersion(ts, i).value == (Denote(x), i + |Render(x)|)
  {
    hide At, Section, Render, ParseTriple, ParseSections, Closed, Word, Numeral, WellFormed, Fits;
    var k := ParseTriple(ts, i).value.1;
    var a, b, c := TripleFrom(ts, i);
    TailFrom(ts, k);
    var ids := ParseSections(ts, k).value.0;
    x := Syntax(a, b, c, ids.0, ids.1);
    IdsWellFormed(x);
    TripleFits(ts, i, x);
    DottedAt(ts, i, a, b, c);
    RenderLength(x);
  }

  lemma TripleFits(ts: seq<Token>, i: nat, x: Syntax)
    requires Closed(ts) && i < |ts| && ParseTriple(ts, i).Some? && WellFormed(x)
    requires ParseTriple(ts, i).value.0 == (Word(x.major), Word(x.minor), Word(x.patch))
    ensures Fits(x)
  {
  }

  // ---------------------------------------------------------------- the theorem

  /** `parse` on a text of the grammar: it succeeds with the text's denotation exactly when the numbers fit. */
  lemma ParseComplete(x: Syntax)
    requires WellFormed(x)
    ensures Parse(Render(x)) == if Fits(x) then Some(Denote(x)) else None
  {
    RenderPlain(x);
    LexPlain(Render(x));
    RenderAt(Lex(Render(x)).value, 0, x);
    VersionAt(Lex(Render(x)).value, 0, x, |Render(x)|);
  }

  /** `parse` succeeds on nothing else. */
  lemma ParseSound(s: string)
    requires Parse(s).Some?
    ensures exists x :: WellFormed(x) && Fits(x) && Render(x) == s && Parse(s).value == Denote(x)
  {
    var ts := Lex(s).value;
    var x := VersionFrom(ts, 0);
    assert ParseVersion(ts, 0).value.1 == |ts| - 1;
    RenderAt(ts, 0, x);
    LexInjective(s, Render(x));
  }

  /** For every text: `parse` gives `v` exactly when the text is a Semantic Versioning 2.0.0 version whose
      numbers, taken modulo 2^64, fit an `int`, and `v` is what it denotes. */
  lemma ParseIffGrammar(s: string, v: Version)
    ensures Parse(s) == Some(v) <==>
            exists x :: WellFormed(x) && Fits(x) && Render(x) == s && Denote(x) == v
  {
    if Parse(s) == Some(v) {
      ParseSound(s);
    }
    if x :| WellFormed(x) && Fits(x) && Render(x) == s && Denote(x) == v {
      ParseComplete(x);
    }
  }
}
