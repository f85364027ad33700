/** The lexer and the recursive-descent parser, first as functions of the text and the token position,
    then as the loops over a token cursor that compute them. */
module SemverParser {
  import opened Basics
  import opened SemverSyntax

  datatype RangeOp = Less | LessEq | Greater | GreaterEq | Equal

  datatype Token = Eol | Space | Dot | Plus | Hyphen | Letter(c: char) | Digit(d: nat) | Operator(op: RangeOp) | Or

  // ---------------------------------------------------------------- lexing

  /** The first token of a non-empty text and how many characters it takes. */
  function LexOne(s: string): (r: Option<(Token, nat)>)
    requires s != []
    ensures r.Some? ==> 1 <= r.value.1 <= |s|
  {
    var next := |s| > 1;
    match s[0]
    case ' ' => Some((Space, 1))
    case '.' => Some((Dot, 1))
    case '-' => Some((Hyphen, 1))
    case '+' => Some((Plus, 1))
    case '|' => if next && s[1] == '|' then Some((Or, 2)) else None
    case '<' => if next && s[1] == '=' then Some((Operator(LessEq), 2)) else Some((Operator(Less), 1))
    case '>' => if next && s[1] == '=' then Some((Operator(GreaterEq), 2)) else Some((Operator(Greater), 1))
    case '=' => Some((Operator(Equal), 1))
    case _ =>
      if IsDigit(s[0]) then Some((Digit(DigitOf(s[0])), 1))
      else if IsLetter(s[0]) then Some((Letter(s[0]), 1))
      else None
  }

  function Lex(s: string): (r: Option<seq<Token>>)
    ensures r.Some? ==> Closed(r.value)
    decreases |s|
  {
    if s == [] then Some([Eol])
    else
      var one := LexOne(s);
      if one.None? then None
      else
        var rest := Lex(s[one.value.1..]);
        if rest.None? then None else Some([one.value.0] + rest.value)
  }

  /** The end token stands at the end and nowhere else; digits are digits. */
  predicate Closed(ts: seq<Token>) {
    && ts != [] && ts[|ts| - 1] == Eol
    && (forall i :: 0 <= i < |ts| - 1 ==> ts[i] != Eol)
    && (forall i :: 0 <= i < |ts| && ts[i].Digit? ==> ts[i].d < 10)
    && (forall i :: 0 <= i < |ts| && ts[i].Letter? ==> IsLetter(ts[i].c))
  }

  /** What the tokens of the whole text are once `out` are those before `pos`. */
  ghost function Resume(out: seq<Token>, rest: Option<seq<Token>>): Option<seq<Token>> {
    if rest.None? then None else Some(out + rest.value)
  }

  lemma ResumeStep(out: seq<Token>, s: string)
    requires s != []
    ensures var one := LexOne(s);
      Resume(out, Lex(s)) ==
      if one.None? then None else Resume(out + [one.value.0], Lex(s[one.value.1..]))
  {
    var one := LexOne(s);
    if one.Some? && Lex(s[one.value.1..]).Some? {
      var rest := Lex(s[one.value.1..]).value;
      assert out + ([one.value.0] + rest) == out + [one.value.0] + rest;
    }
  }

  method ScanTokens(text: string) returns (tokens: Option<seq<Token>>)
    ensures tokens == Lex(text)
  {
    var pos := 0;
    var out: seq<Token> := [];
    assert text[0..] == text;
    assert Lex(text).Some? ==> out + Lex(text).value == Lex(text).value;
    while pos < |text|
      invariant 0 <= pos <= |text|
      invariant Lex(text) == Resume(out, Lex(text[pos..]))
    {
      ResumeStep(out, text[pos..]);
      var one := LexOne(text[pos..]);
      if one.None? {
        return None;
      }
      assert text[pos..][one.value.1..] == text[pos + one.value.1..];
      out := out + [one.value.0];
      pos := pos + one.value.1;
    }
    assert text[pos..] == [];
    return Some(out + [Eol]);
  }

  // ---------------------------------------------------------------- parsing, as functions

  predicate IsIdentToken(t: Token) {
    t.Hyphen? || t.Letter? || t.Digit?
  }

  /** The end of the longest run of identifier tokens from `i`. */
  function RunEnd(ts: seq<Token>, i: nat): (j: nat)
    requires i < |ts| && Closed(ts)
    ensures i <= j < |ts| && !IsIdentToken(ts[j])
    ensures forall k :: i <= k < j ==> IsIdentToken(ts[k])
    decreases |ts| - i
  {
    if IsIdentToken(ts[i]) then RunEnd(ts, i + 1) else i
  }

  function DigitsEnd(ts: seq<Token>, i: nat): (j: nat)
    requires i < |ts| && Closed(ts)
    ensures i <= j < |ts| && !ts[j].Digit?
    ensures forall k :: i <= k < j ==> ts[k].Digit?
    decreases |ts| - i
  {
    if ts[i].Digit? then DigitsEnd(ts, i + 1) else i
  }

  function CharOf(t: Token): char
    requires IsIdentToken(t) && (t.Digit? ==> t.d < 10)
  {
    match t
    case Hyphen => '-'
    case Letter(c) => c
    case Digit(d) => ('0' as int + d) as char
  }

  /** The characters of the identifier tokens in a range. */
  function Text(ts: seq<Token>, i: nat, j: nat): (s: string)
    requires i <= j <= |ts| && Closed(ts)
    requires forall k :: i <= k < j ==> IsIdentToken(ts[k])
    ensures |s| == j - i
    ensures forall k :: 0 <= k < j - i ==> s[k] == CharOf(ts[i + k])
    decreases j
  {
    if i == j then [] else Text(ts, i, j - 1) + [CharOf(ts[j - 1])]
  }

  /** The accumulator of `parse_number`: it wraps at 64 bits at every digit. */
  function Accumulate(ts: seq<Token>, i: nat, j: nat): nat
    requires i <= j <= |ts| && Closed(ts)
    requires forall k :: i <= k < j ==> ts[k].Digit?
    decreases j
  {
    if i == j then 0 else (Accumulate(ts, i, j - 1) * 10 + ts[j - 1].d) % WORD
  }

  function ParseNumber(ts: seq<Token>, i: nat): (r: Option<(nat, nat)>)
    requires i < |ts| && Closed(ts)
    ensures r.Some? ==> i < r.value.1 < |ts| && r.value.0 <= INT_MAX
  {
    if !ts[i].Digit? then None
    else if ts[i].d == 0 then Some((0, i + 1))
    else
      var j := DigitsEnd(ts, i);
      var n := Accumulate(ts, i, j);
      if n <= INT_MAX then Some((n, j)) else None
  }

  /** A zero that only digits follow. */
  predicate IsLeadingZero(ts: seq<Token>, i: nat)
    requires i < |ts| && Closed(ts)
  {
    ts[i] == Digit(0) && DigitsEnd(ts, i) == RunEnd(ts, i) && i + 1 < RunEnd(ts, i)
  }

  function ParsePreIdent(ts: seq<Token>, i: nat): (r: Option<(string, nat)>)
    requires i < |ts| && Closed(ts)
    ensures r.Some? ==> i < r.value.1 < |ts|
  {
    var j := RunEnd(ts, i);
    if i == j || IsLeadingZero(ts, i) then None else Some((Text(ts, i, j), j))
  }

  function ParseBuildIdent(ts: seq<Token>, i: nat): (r: Option<(string, nat)>)
    requires i < |ts| && Closed(ts)
    ensures r.Some? ==> i < r.value.1 < |ts|
  {
    var j := RunEnd(ts, i);
    if i == j then None else Some((Text(ts, i, j), j))
  }

  /** Identifiers separated by dots, after the mark. */
  function ParseIdents(ts: seq<Token>, i: nat, pre: bool): (r: Option<(seq<string>, nat)>)
    requires i < |ts| && Closed(ts)
    ensures r.Some? ==> i < r.value.1 < |ts| && r.value.0 != []
    decreases |ts| - i
  {
    var id := if pre then ParsePreIdent(ts, i) else ParseBuildIdent(ts, i);
    if id.None? then None
    else if ts[id.value.1] != Dot then Some(([id.value.0], id.value.1))
    else
      var rest := ParseIdents(ts, id.value.1 + 1, pre);
      if rest.None? then None else Some(([id.value.0] + rest.value.0, rest.value.1))
  }

  /** A section that is only there when its mark is. */
  function ParseSection(ts: seq<Token>, i: nat, mark: Token, pre: bool): (r: Option<(seq<string>, nat)>)
    requires i < |ts| && Closed(ts) && mark != Eol
    ensures r.Some? ==> i <= r.value.1 < |ts|
  {
    if ts[i] == mark then ParseIdents(ts, i + 1, pre) else Some(([], i))
  }

  /** The three numbers. */
  function ParseTriple(ts: seq<Token>, i: nat): (r: Option<((nat, nat, nat), nat)>)
    requires i < |ts| && Closed(ts)
    ensures r.Some? ==> i < r.value.1 < |ts|
  {
    var major := ParseNumber(ts, i);
    if major.None? || ts[major.value.1] != Dot then None
    else
      var minor := ParseNumber(ts, major.value.1 + 1);
      if minor.None? || ts[minor.value.1] != Dot then None
      else
        var patch := ParseNumber(ts, minor.value.1 + 1);
        if patch.None? then None
        else Some(((major.value.0, minor.value.0, patch.value.0), patch.value.1))
  }

  /** The pre-release and the build section. */
  function ParseSections(ts: seq<Token>, i: nat): (r: Option<((seq<string>, seq<string>), nat)>)
    requires i < |ts| && Closed(ts)
    ensures r.Some? ==> i <= r.value.1 < |ts|
  {
    var pre := ParseSection(ts, i, Hyphen, true);
    if pre.None? then None
    else
      var build := ParseSection(ts, pre.value.1, Plus, false);
      if build.None? then None else Some(((pre.value.0, build.value.0), build.value.1))
  }

  function ParseVersion(ts: seq<Token>, i: nat): (r: Option<(Version, nat)>)
    requires i < |ts| && Closed(ts)
    ensures r.Some? ==> i < r.value.1 < |ts|
  {
    var triple := ParseTriple(ts, i);
    if triple.None? then None
    else
      var tail := ParseSections(ts, triple.value.1);
      if tail.None? then None
      else
        var (n, ids) := (triple.value.0, tail.value.0);
        Some((MakeVersion(n.0, n.1, n.2, ids.0, ids.1), tail.value.1))
  }

  /** `semver::parse` for a whole text. */
  function Parse(s: string): Option<Version> {
    var ts := Lex(s);
    if ts.None? then None
    else
      var v := ParseVersion(ts.value, 0);
      if v.None? || ts.value[v.value.1] != Eol then None else Some(v.value.0)
  }
}
