/** What range texts mean: operators, versions and blanks as they are written, and which versions they
    contain by the precedence of section 11 of Semantic Versioning 2.0.0. */
module SemverRangeText {
  import opened Basics
  import opened SemverSyntax
  import opened SemverParser
  import opened SemverGrammar
  import opened SemverOrder
  import opened SemverRange

  // ---------------------------------------------------------------- texts

  /** A comparator with the blanks before it and behind its operator. */
  datatype Clause = Clause(before: nat, op: Option<RangeOp>, between: nat, x: Syntax)

  /** One alternative, with the blanks behind it. */
  datatype Alternative = Alternative(clauses: seq<Clause>, after: nat)

  function Mark(op: RangeOp): string {
    match op
    case Less => "<"
    case LessEq => "<="
    case Greater => ">"
    case GreaterEq => ">="
    case Equal => "="
  }

  function Blanks(n: nat): string {
    if n == 0 then "" else " " + Blanks(n - 1)
  }

  function MarkText(c: Clause): string {
    if c.op.Some? then Mark(c.op.value) + Blanks(c.between) else ""
  }

  function ClauseText(c: Clause): string {
    Blanks(c.before) + (MarkText(c) + Render(c.x))
  }

  function ClausesText(cs: seq<Clause>): string {
    if cs == [] then "" else ClauseText(cs[0]) + ClausesText(cs[1..])
  }

  function AlternativesText(rs: seq<Alternative>): string {
    if rs == [] then ""
    else ClausesText(rs[0].clauses) + Blanks(rs[0].after) + (if |rs| == 1 then "" else "||" + AlternativesText(rs[1..]))
  }

  /** A comparator without an operator is told from the one before by a blank. */
  predicate Written(cs: seq<Clause>) {
    && cs != [] && (forall i :: 0 <= i < |cs| ==> WellFormed(cs[i].x))
    && forall i :: 1 <= i < |cs| ==> cs[i].op.Some? || cs[i].before > 0
  }

  predicate AllWritten(rs: seq<Alternative>) {
    rs != [] && forall i :: 0 <= i < |rs| ==> Written(rs[i].clauses)
  }

  // ---------------------------------------------------------------- tokens

  function Spaces(n: nat): (ts: seq<Token>)
    ensures |ts| == n && forall k :: 0 <= k < n ==> ts[k] == Space
  {
    seq(n, i => Space)
  }

  function Toks(w: string): (ts: seq<Token>)
    ensures |ts| == |w|
  {
    seq(|w|, i requires 0 <= i < |w| => Tok(w[i]))
  }

  function MarkTokens(c: Clause): seq<Token> {
    if c.op.Some? then [Operator(c.op.value)] + Spaces(c.between) else []
  }

  function ClauseTokens(c: Clause): seq<Token> {
    Spaces(c.before) + (MarkTokens(c) + Toks(Render(c.x)))
  }

  function ClausesTokens(cs: seq<Clause>): seq<Token> {
    if cs == [] then [] else ClauseTokens(cs[0]) + ClausesTokens(cs[1..])
  }

  function AlternativesTokens(rs: seq<Alternative>): seq<Token> {
    if rs == [] then []
    else ClausesTokens(rs[0].clauses) + Spaces(rs[0].after) + (if |rs| == 1 then [] else [Or] + AlternativesTokens(rs[1..]))
  }

  /** In front of any text that lexes, `w` lexes to `us`. */
  ghost predicate Lexes(w: string, us: seq<Token>, tail: string) {
    Lex(tail).Some? && Lex(w + tail) == Some(us + Lex(tail).value)
  }

  lemma LexesConcat(v: string, us: seq<Token>, w: string, ws: seq<Token>, tail: string)
    requires Lexes(w, ws, tail) && Lexes(v, us, w + tail)
    ensures Lexes(v + w, us + ws, tail)
  {
    hide Lex;
    assert v + w + tail == v + (w + tail);
    assert us + ws + Lex(tail).value == us + (ws + Lex(tail).value);
  }

  lemma {:induction false} LexPlainText(w: string, tail: string)
    requires PlainText(w) && Lex(tail).Some?
    ensures Lexes(w, Toks(w), tail)
    decreases |w|
  {
    hide Lex, Tok, Closed;
    if w == [] {
      assert w + tail == tail && Toks(w) + Lex(tail).value == Lex(tail).value;
    } else {
      assert (w + tail)[1..] == w[1..] + tail;
      LexPlainText(w[1..], tail);
      LexCons(w + tail);
      assert Toks(w) + Lex(tail).value == [Tok(w[0])] + (Toks(w[1..]) + Lex(tail).value);
    }
  }

  lemma {:induction false} LexBlanks(n: nat, tail: string)
    requires Lex(tail).Some?
    ensures Lexes(Blanks(n), Spaces(n), tail)
    decreases n
  {
    hide Lex, Closed;
    if n == 0 {
      assert Blanks(n) + tail == tail && Spaces(n) + Lex(tail).value == Lex(tail).value;
    } else {
      var rest := Blanks(n - 1) + tail;
      LexBlanks(n - 1, tail);
      var s := Blanks(n) + tail;
      assert s[1..] == rest;
      LexOperator(s, Space, rest);
      assert Spaces(n) + Lex(tail).value == [Space] + (Spaces(n - 1) + Lex(tail).value);
    }
  }

  lemma LexMark(op: RangeOp, tail: string)
    requires Lex(tail).Some? && tail != [] && tail[0] != '='
    ensures Lexes(Mark(op), [Operator(op)], tail)
  {
    hide Lex;
    var s, n := Mark(op) + tail, |Mark(op)|;
    assert s[n..] == tail && n == |s| - |tail|;
    assert LexOne(s) == Some((Operator(op), n)) by {
      FirstMark(op, tail);
    }
    hide LexOne, Mark;
    LexOperator(s, Operator(op), tail);
  }

  lemma FirstMark(op: RangeOp, tail: string)
    requires tail != [] && tail[0] != '='
    ensures LexOne(Mark(op) + tail) == Some((Operator(op), |Mark(op)|))
  {
    var s := Mark(op) + tail;
    match op
    case Less => assert s[0] == '<' && s[1] == tail[0];
    case LessEq => assert s[0] == '<' && s[1] == '=';
    case Greater => assert s[0] == '>' && s[1] == tail[0];
    case GreaterEq => assert s[0] == '>' && s[1] == '=';
    case Equal => assert s[0] == '=';
  }

  lemma LexOr(tail: string)
    requires Lex(tail).Some?
    ensures Lexes("||", [Or], tail)
  {
    hide Lex;
    var s := "||" + tail;
    assert s[2..] == tail;
    LexOperator(s, Or, tail);
  }

  lemma FirstOfClause(c: Clause, tail: string)
    requires WellFormed(c.x)
    ensures var s := Blanks(c.between) + (Render(c.x) + tail); s != [] && s[0] != '='
    ensures Render(c.x) != [] && IsDigit(Render(c.x)[0])
  {
    RenderSplit(c.x);
    assert Render(c.x)[0] == c.x.major[0];
  }

  lemma LexClause(c: Clause, tail: string)
    requires WellFormed(c.x) && Lex(tail).Some?
    ensures Lexes(ClauseText(c), ClauseTokens(c), tail)
  {
    hide Lex, Blanks, Render, Spaces, Toks, Lexes, MarkText, MarkTokens;
    RenderPlain(c.x);
    LexPlainText(Render(c.x), tail);
    LexMarked(c, tail);
    LexesLex(MarkText(c) + Render(c.x), MarkTokens(c) + Toks(Render(c.x)), tail);
    LexBlanks(c.before, MarkText(c) + Render(c.x) + tail);
    LexesConcat(Blanks(c.before), Spaces(c.before), MarkText(c) + Render(c.x), MarkTokens(c) + Toks(Render(c.x)), tail);
  }

  lemma LexesLex(w: string, us: seq<Token>, tail: string)
    requires Lexes(w, us, tail)
    ensures Lex(w + tail).Some?
  {
  }

  lemma LexMarked(c: Clause, tail: string)
    requires WellFormed(c.x) && Lexes(Render(c.x), Toks(Render(c.x)), tail)
    ensures Lexes(MarkText(c) + Render(c.x), MarkTokens(c) + Toks(Render(c.x)), tail)
  {
    hide Lex, Blanks, Render, Spaces, Toks, Lexes;
    var w, ws := Render(c.x), Toks(Render(c.x));
    if c.op.Some? {
      FirstOfClause(c, tail);
      LexesLex(w, ws, tail);
      LexBlanks(c.between, w + tail);
      var marked, v := w + tail, Blanks(c.between);
      assert v + w + tail == v + marked;
      LexesConcat(v, Spaces(c.between), w, ws, tail);
      LexesLex(v + w, Spaces(c.between) + ws, tail);
      LexMark(c.op.value, v + w + tail);
      LexesConcat(Mark(c.op.value), [Operator(c.op.value)], v + w, Spaces(c.between) + ws, tail);
      assert Mark(c.op.value) + (v + w) == MarkText(c) + w;
      assert [Operator(c.op.value)] + (Spaces(c.between) + ws) == MarkTokens(c) + ws;
    } else {
      assert "" + w == w && [] + ws == ws;
    }
  }

  lemma {:induction false} LexClauses(cs: seq<Clause>, tail: string)
    requires (forall i :: 0 <= i < |cs| ==> WellFormed(cs[i].x)) && Lex(tail).Some?
    ensures Lexes(ClausesText(cs), ClausesTokens(cs), tail)
    decreases |cs|
  {
    hide Lex, ClauseText, ClauseTokens;
    if cs == [] {
      assert "" + tail == tail && [] + Lex(tail).value == Lex(tail).value;
    } else {
      LexClauses(cs[1..], tail);
      LexClause(cs[0], ClausesText(cs[1..]) + tail);
      LexesConcat(ClauseText(cs[0]), ClauseTokens(cs[0]), ClausesText(cs[1..]), ClausesTokens(cs[1..]), tail);
    }
  }

  lemma {:induction false} LexAlternatives(rs: seq<Alternative>)
    requires AllWritten(rs)
    ensures Lexes(AlternativesText(rs), AlternativesTokens(rs), "")
    decreases |rs|
  {
    hide Lex, ClausesText, ClausesTokens, Blanks, Spaces, Lexes;
    assert Written(rs[0].clauses);
    if |rs| == 1 {
      LexNothing();
      LexAlternative(rs[0], "", []);
    } else {
      LexAlternatives(rs[1..]);
      LexOrText(AlternativesText(rs[1..]), AlternativesTokens(rs[1..]));
      LexAlternative(rs[0], "||" + AlternativesText(rs[1..]), [Or] + AlternativesTokens(rs[1..]));
    }
  }

  lemma LexOrText(w: string, us: seq<Token>)
    requires Lexes(w, us, "")
    ensures Lexes("||" + w, [Or] + us, "")
  {
    hide Lex;
    assert w + "" == w;
    LexOr(w);
    LexesConcat("||", [Or], w, us, "");
  }

  lemma LexAlternative(r: Alternative, more: string, us: seq<Token>)
    requires Written(r.clauses) && Lexes(more, us, "")
    ensures Lexes(ClausesText(r.clauses) + Blanks(r.after) + more, ClausesTokens(r.clauses) + Spaces(r.after) + us, "")
  {
    hide Lex, ClausesText, ClausesTokens, Blanks, Spaces, Lexes;
    var cs, n := r.clauses, r.after;
    LexesLex(more, us, "");
    assert more + "" == more;
    LexBlanks(n, more);
    LexesConcat(Blanks(n), Spaces(n), more, us, "");
    var more', us' := Blanks(n) + more, Spaces(n) + us;
    LexesLex(more', us', "");
    assert more' + "" == more';
    LexClauses(cs, more');
    LexesConcat(ClausesText(cs), ClausesTokens(cs), more', us', "");
    assert ClausesText(cs) + Blanks(n) + more == ClausesText(cs) + more';
    assert ClausesTokens(cs) + Spaces(n) + us == ClausesTokens(cs) + us';
  }

  lemma LexNothing()
    ensures Lexes("", [], "")
  {
    assert "" + "" == "" && [] + [Eol] == [Eol];
  }

  // ---------------------------------------------------------------- parsing

  predicate AllFit(cs: seq<Clause>)
    requires forall i :: 0 <= i < |cs| ==> WellFormed(cs[i].x)
  {
    forall i :: 0 <= i < |cs| ==> Fits(cs[i].x)
  }

  function Meant(c: Clause): Comparator
    requires WellFormed(c.x)
  {
    Comparator(if c.op.Some? then c.op.value else Equal, Denote(c.x))
  }

  function AllMeant(cs: seq<Clause>): (r: seq<Comparator>)
    requires forall i :: 0 <= i < |cs| ==> WellFormed(cs[i].x)
    ensures |r| == |cs| && forall i :: 0 <= i < |cs| ==> r[i] == Meant(cs[i])
  {
    seq(|cs|, i requires 0 <= i < |cs| => Meant(cs[i]))
  }

  lemma {:induction false} SkipRun(ts: seq<Token>, i: nat, n: nat)
    requires Closed(ts) && i + n < |ts| && forall k :: i <= k < i + n ==> ts[k] == Space
    ensures SkipSpaces(ts, i) == SkipSpaces(ts, i + n)
    decreases n
  {
    if n > 0 {
      SkipRun(ts, i + 1, n - 1);
    }
  }

  lemma {:induction false} ToksAt(ts: seq<Token>, i: nat, w: string)
    requires i + |w| <= |ts| && ts[i..i + |w|] == Toks(w)
    ensures At(ts, i, w)
    decreases |w|
  {
    if w != [] {
      assert ts[i] == ts[i..i + |w|][0] == Tok(w[0]);
      assert ts[i + 1..i + 1 + |w[1..]|] == ts[i..i + |w|][1..] == Toks(w[1..]);
      ToksAt(ts, i + 1, w[1..]);
    }
  }

  /** What may stand behind a comparator. */
  predicate Ends(t: Token) {
    t == Space || t == Or || t == Eol || t.Operator?
  }

  /** Where the parts of a comparator stand. */
  predicate StandsAt(ts: seq<Token>, i: nat, c: Clause, e: nat) {
    var m := i + c.before;
    var k := m + |MarkTokens(c)|;
    && k + |Render(c.x)| == e < |ts|
    && (forall j :: i <= j < m ==> ts[j] == Space)
    && (c.op.Some? ==> ts[m] == Operator(c.op.value) && forall j :: m < j < k ==> ts[j] == Space)
    && At(ts, k, Render(c.x)) && ts[k].Digit?
  }

  lemma Stands(ts: seq<Token>, i: nat, c: Clause, e: nat)
    requires WellFormed(c.x) && i + |ClauseTokens(c)| == e < |ts| && ts[i..e] == ClauseTokens(c)
    ensures StandsAt(ts, i, c, e)
  {
    hide Render, WellFormed, At, Tok;
    FirstOfClause(c, "");
    var m := i + c.before;
    var k := m + |MarkTokens(c)|;
    var us := ClauseTokens(c);
    Sliced(ts, i, Spaces(c.before), MarkTokens(c) + Toks(Render(c.x)));
    Sliced(ts, m, MarkTokens(c), Toks(Render(c.x)));
    if c.op.Some? {
      assert MarkTokens(c)[0] == Operator(c.op.value) && forall j :: 0 < j < |MarkTokens(c)| ==> MarkTokens(c)[j] == Space;
    }
    ToksAt(ts, k, Render(c.x));
    assert ts[k] == Toks(Render(c.x))[0] == Tok(Render(c.x)[0]);
    FirstDigit(Render(c.x)[0]);
  }

  lemma FirstDigit(c: char)
    requires IsDigit(c)
    ensures Tok(c).Digit?
  {
  }

  /** Two parts of a slice, and what stands in the first. */
  lemma Sliced(ts: seq<Token>, i: nat, us: seq<Token>, vs: seq<Token>)
    requires i + |us + vs| <= |ts| && ts[i..i + |us + vs|] == us + vs
    ensures ts[i + |us|..i + |us + vs|] == vs
    ensures forall j :: i <= j < i + |us| ==> ts[j] == us[j - i]
    ensures vs != [] ==> ts[i + |us|] == vs[0]
  {
    var w := ts[i..i + |us + vs|];
    assert w[|us|..] == vs;
    assert forall j :: i <= j < i + |us + vs| ==> ts[j] == w[j - i];
  }

  lemma ClauseAt(ts: seq<Token>, i: nat, c: Clause, e: nat)
    requires Closed(ts) && WellFormed(c.x) && StandsAt(ts, i, c, e) && Ends(ts[e])
    ensures i < e && (c.op.Some? || c.before > 0 ==> Ends(ts[i]))
    ensures ParseComparator(ts, SkipSpaces(ts, i)) == if Fits(c.x) then Some((Meant(c), e)) else None
  {
    hide Render, Closed, WellFormed, Fits, Denote, At, SkipSpaces, ParseVersion, ParseComparator;
    var m := i + c.before;
    var k := m + |MarkTokens(c)|;
    FirstOfClause(c, "");
    assert ParseVersion(ts, k) == if Fits(c.x) then Some((Denote(c.x), e)) else None by {
      VersionThere(ts, k, c.x, e);
    }
    assert SkipSpaces(ts, i) == m && i < e && (c.op.Some? || c.before > 0 ==> Ends(ts[i])) by {
      SkipRun(ts, i, c.before);
      StopHere(ts, m);
    }
    assert if c.op.Some? then m < k && ts[m] == Operator(c.op.value) && SkipSpaces(ts, m + 1) == k
           else m == k && ts[m].Digit? && SkipSpaces(ts, k) == k by {
      StopHere(ts, k);
      if c.op.Some? {
        SkipRun(ts, m + 1, c.between);
      }
    }
    hide StandsAt;
    ComparatorIs(ts, m, c.op, k);
  }

  lemma ComparatorIs(ts: seq<Token>, m: nat, op: Option<RangeOp>, k: nat)
    requires Closed(ts) && m <= k < |ts|
    requires if op.Some? then m < k && ts[m] == Operator(op.value) && SkipSpaces(ts, m + 1) == k
             else m == k && ts[m].Digit? && SkipSpaces(ts, k) == k
    ensures var v := ParseVersion(ts, k);
      ParseComparator(ts, m) == if v.None? then None else Some((Comparator(if op.Some? then op.value else Equal, v.value.0), v.value.1))
  {
    hide Closed, ParseVersion, SkipSpaces;
  }

  lemma VersionThere(ts: seq<Token>, k: nat, x: Syntax, e: nat)
    requires Closed(ts) && WellFormed(x) && At(ts, k, Render(x)) && k + |Render(x)| == e < |ts| && Ends(ts[e])
    ensures ParseVersion(ts, k) == if Fits(x) then Some((Denote(x), e)) else None
  {
    hide Render, Closed, WellFormed, Fits, ParseVersion, Denote, At, PartsAt;
    RenderAt(ts, k, x);
    VersionAt(ts, k, x, e);
  }

  /** A comparator that follows another one ends it, and goes on with an operator or a digit. */
  lemma StartsWell(ts: seq<Token>, i: nat, c: Clause, e: nat)
    requires Closed(ts) && StandsAt(ts, i, c, e) && (c.op.Some? || c.before > 0)
    ensures i < |ts| && Ends(ts[i]) && (ts[SkipSpaces(ts, i)].Operator? || ts[SkipSpaces(ts, i)].Digit?)
  {
    hide Closed, Render, At, SkipSpaces;
    SkipRun(ts, i, c.before);
    StopHere(ts, i + c.before);
  }

  lemma SkipTwice(ts: seq<Token>, i: nat)
    requires Closed(ts) && i < |ts|
    ensures SkipSpaces(ts, SkipSpaces(ts, i)) == SkipSpaces(ts, i)
  {
  }

  lemma {:induction false} ClausesAt(ts: seq<Token>, i: nat, cs: seq<Clause>, e: nat)
    requires Closed(ts) && Written(cs) && i + |ClausesTokens(cs)| == e < |ts| && ts[i..e] == ClausesTokens(cs)
    requires Ends(ts[e]) && (ts[SkipSpaces(ts, e)] == Or || ts[SkipSpaces(ts, e)] == Eol)
    ensures ParseRange(ts, i) == if AllFit(cs) then Some((AllMeant(cs), SkipSpaces(ts, e))) else None
    decreases |cs|
  {
    hide ClauseTokens, StandsAt, ParseComparator, Closed, WellFormed, Fits, Meant, SkipSpaces;
    var one, rest := ClauseTokens(cs[0]), cs[1..];
    var e1 := i + |one|;
    assert ts[i..e1] == ts[i..e][..|one|] == one;
    assert ts[e1..e] == ts[i..e][|one|..] == ClausesTokens(rest);
    Stands(ts, i, cs[0], e1);
    if rest == [] {
      assert e1 == e;
      ClauseAt(ts, i, cs[0], e1);
      assert AllMeant(cs) == [Meant(cs[0])];
    } else {
      var second := ClauseTokens(cs[1]);
      assert ts[e1..e1 + |second|] == ts[e1..e][..|second|] == second by {
        assert rest[0] == cs[1];
      }
      var e2 := e1 + |second|;
      Stands(ts, e1, cs[1], e2);
      StartsWell(ts, e1, cs[1], e2);
      ClauseAt(ts, i, cs[0], e1);
      SkipTwice(ts, e1);
      ClausesAt(ts, e1, rest, e);
      SameRange(ts, e1);
      assert AllMeant(cs) == [Meant(cs[0])] + AllMeant(rest);
      assert AllFit(cs) <==> Fits(cs[0].x) && AllFit(rest) by {
        FitsBoth(cs);
      }
    }
  }

  lemma FitsBoth(cs: seq<Clause>)
    requires cs != [] && forall i :: 0 <= i < |cs| ==> WellFormed(cs[i].x)
    ensures AllFit(cs) <==> Fits(cs[0].x) && AllFit(cs[1..])
  {
    hide Fits, WellFormed;
    if Fits(cs[0].x) && AllFit(cs[1..]) {
      forall i | 0 <= i < |cs|
        ensures Fits(cs[i].x)
      {
        if i > 0 {
          assert Fits(cs[1..][i - 1].x);
        }
      }
    }
    if AllFit(cs) {
      assert forall i :: 0 <= i < |cs[1..]| ==> cs[1..][i] == cs[i + 1] && Fits(cs[i + 1].x);
    }
  }

  lemma SameRange(ts: seq<Token>, i: nat)
    requires Closed(ts) && i < |ts|
    ensures ParseRange(ts, SkipSpaces(ts, i)) == ParseRange(ts, i)
  {
    SkipTwice(ts, i);
    hide ParseComparator, SkipSpaces, Closed;
  }

  lemma StopHere(ts: seq<Token>, i: nat)
    requires Closed(ts) && i < |ts| && ts[i] != Space
    ensures SkipSpaces(ts, i) == i
  {
  }

  function AllRanges(rs: seq<Alternative>): (r: seq<seq<Comparator>>)
    requires AllWritten(rs)
    ensures |r| == |rs| && forall i :: 0 <= i < |rs| ==> r[i] == AllMeant(rs[i].clauses)
  {
    seq(|rs|, i requires 0 <= i < |rs| => AllMeant(rs[i].clauses))
  }

  predicate EveryFits(rs: seq<Alternative>)
    requires AllWritten(rs)
  {
    forall i :: 0 <= i < |rs| ==> AllFit(rs[i].clauses)
  }

  lemma {:induction false} AlternativesAt(ts: seq<Token>, i: nat, rs: seq<Alternative>)
    requires Closed(ts) && AllWritten(rs) && i < |ts| && ts[i..] == AlternativesTokens(rs) + [Eol]
    ensures ParseRanges(ts, i) == if EveryFits(rs) then Some(AllRanges(rs)) else None
    decreases |rs|
  {
    hide AlternativesTokens, SkipSpaces, ParseRange, ParseRanges, Closed, WellFormed, AllFit, AllMeant;
    var cs := rs[0].clauses;
    assert Written(cs);
    var k := OneAlternative(ts, i, rs);
    StopHere(ts, k);
    RangesFrom(ts, i, k);
    if |rs| == 1 {
      assert AllRanges(rs) == [AllMeant(cs)];
      assert EveryFits(rs) <==> AllFit(cs);
    } else {
      EveryFitsBoth(rs);
      AlternativesAt(ts, k + 1, rs[1..]);
      assert AllRanges(rs) == [AllMeant(cs)] + AllRanges(rs[1..]);
      hide EveryFits, AllRanges;
    }
  }

  lemma RangesFrom(ts: seq<Token>, i: nat, k: nat)
    requires Closed(ts) && i < k < |ts| && SkipSpaces(ts, k) == k
    ensures ParseRange(ts, i).None? ==> ParseRanges(ts, i).None?
    ensures ParseRange(ts, i).Some? && ParseRange(ts, i).value.1 == k && ts[k] != Or ==>
              ParseRanges(ts, i) == Some([ParseRange(ts, i).value.0])
    ensures ParseRange(ts, i).Some? && ParseRange(ts, i).value.1 == k && ts[k] == Or && k + 1 < |ts| ==>
              ParseRanges(ts, i) ==
              var rest := ParseRanges(ts, k + 1);
              if rest.None? then None else Some([ParseRange(ts, i).value.0] + rest.value)
  {
    hide Closed, ParseRange, SkipSpaces;
  }

  /** The first alternative ends at `k`, before the end or the logical or. */
  lemma OneAlternative(ts: seq<Token>, i: nat, rs: seq<Alternative>) returns (k: nat)
    requires Closed(ts) && AllWritten(rs) && i < |ts| && ts[i..] == AlternativesTokens(rs) + [Eol]
    requires Written(rs[0].clauses)
    ensures i < k < |ts| && ts[k] == if |rs| == 1 then Eol else Or
    ensures |rs| > 1 ==> k + 1 < |ts| && ts[k + 1..] == AlternativesTokens(rs[1..]) + [Eol]
    ensures ParseRange(ts, i) == if AllFit(rs[0].clauses) then Some((AllMeant(rs[0].clauses), k)) else None
  {
    hide ClausesTokens, ParseRange, Closed, AllFit, AllMeant, SkipSpaces, WellFormed;
    var cs, n := rs[0].clauses, rs[0].after;
    var us := ClausesTokens(cs);
    var e := i + |us|;
    k := e + n;
    assert ts[i..e] == ts[i..][..|us|] == us;
    assert forall j :: i <= j < |ts| ==> ts[j] == ts[i..][j - i];
    if |rs| > 1 {
      assert ts[k] == Or;
      assert ts[k + 1..] == ts[i..][|us| + n + 1..] == AlternativesTokens(rs[1..]) + [Eol];
    }
    hide AlternativesTokens;
    SkipRun(ts, e, n);
    StopHere(ts, k);
    ClausesAt(ts, i, cs, e);
    SomeClause(cs);
  }

  lemma SomeClause(cs: seq<Clause>)
    requires Written(cs)
    ensures |ClausesTokens(cs)| > 0
  {
    FirstOfClause(cs[0], "");
  }

  lemma EveryFitsBoth(rs: seq<Alternative>)
    requires AllWritten(rs) && |rs| > 1
    ensures AllWritten(rs[1..]) && (EveryFits(rs) <==> AllFit(rs[0].clauses) && EveryFits(rs[1..]))
  {
    hide AllFit, WellFormed;
    assert forall i :: 0 <= i < |rs[1..]| ==> rs[1..][i] == rs[i + 1] && Written(rs[i + 1].clauses);
    assert Written(rs[0].clauses);
    if AllFit(rs[0].clauses) && EveryFits(rs[1..]) {
      forall i | 0 <= i < |rs|
        ensures AllFit(rs[i].clauses)
      {
        if i > 0 {
          assert AllFit(rs[1..][i - 1].clauses);
        }
      }
    }
    if EveryFits(rs) {
      assert forall i :: 0 <= i < |rs[1..]| ==> rs[1..][i] == rs[i + 1] && AllFit(rs[i + 1].clauses);
    }
  }

  // ---------------------------------------------------------------- main results

  /** A range text parses to exactly the comparators that are written in it, if the numbers of its versions fit,
      and to nothing otherwise. */
  lemma RangeTextParsed(rs: seq<Alternative>)
    requires AllWritten(rs)
    ensures ParseRangeSet(AlternativesText(rs)) == if EveryFits(rs) then Some(AllRanges(rs)) else None
  {
    hide Lex, ParseRanges, AlternativesTokens, AlternativesText;
    LexAlternatives(rs);
    var s := AlternativesText(rs);
    assert s + "" == s;
    assert Lex("") == Some([Eol]) by {
      LexEnd();
    }
    AlternativesAt(Lex(s).value, 0, rs);
  }

  lemma LexEnd()
    ensures Lex("") == Some([Eol])
  {
  }

  /** The relation that an operator stands for, by precedence. */
  ghost predicate Holds(v: Version, op: RangeOp, w: Version)
    requires ProperIds(v.ids) && ProperIds(w.ids)
  {
    var same := SameTriple(v, w) && v.tag == w.tag;
    match op
    case Less => Precedes(v, w)
    case LessEq => Precedes(v, w) || same
    case Greater => Precedes(w, v)
    case GreaterEq => Precedes(w, v) || same
    case Equal => same
  }

  lemma SatisfiesIff(v: Version, c: Comparator)
    requires Parsed(v) && Parsed(c.version) && Comparable(v.ids, c.version.ids)
    ensures ProperIds(v.ids) && ProperIds(c.version.ids)
    ensures Satisfies(v, c) <==> Holds(v, c.op, c.version)
  {
    hide Compare, Precedes, Parsed, Comparable, ProperIds;
    CompareIsPrecedence(v, c.version);
  }

  /** Parsed versions have proper identifiers. */
  ghost predicate AllProper(range: seq<Comparator>, v: Version) {
    ProperIds(v.ids) && forall i :: 0 <= i < |range| ==> ProperIds(range[i].version.ids)
  }

  /** The version is on the right side of every comparator; and if it is a pre-release and these are not wanted,
      one of the comparators names a pre-release of the same three numbers. */
  ghost predicate Inside(range: seq<Comparator>, v: Version, includePre: bool)
    requires AllProper(range, v)
  {
    && (forall i :: 0 <= i < |range| ==> Holds(v, range[i].op, range[i].version))
    && (includePre || v.tag == "" || exists i :: 0 <= i < |range| && range[i].version.tag != "" && SameTriple(range[i].version, v))
  }

  lemma ContainsIff(range: seq<Comparator>, v: Version, includePre: bool)
    requires ParsedRange(range) && Parsed(v) && forall i :: 0 <= i < |range| ==> Comparable(v.ids, range[i].version.ids)
    ensures AllProper(range, v)
    ensures Contains(range, v, includePre) <==> Inside(range, v, includePre)
  {
    assert forall i :: 0 <= i < |range| ==> (Compare(v, range[i].version, false) == 0 <==> SameTriple(range[i].version, v));
    hide Compare, Precedes, Parsed, Comparable, ProperIds, Holds, Satisfies, SameTriple;
    ParsedIds(v);
    forall i | 0 <= i < |range|
      ensures ProperIds(range[i].version.ids) && (Satisfies(v, range[i]) <==> Holds(v, range[i].op, range[i].version))
    {
      SatisfiesIff(v, range[i]);
    }
  }

  /** Which versions a range text contains: those inside one of its alternatives. */
  lemma RangeTextMeans(rs: seq<Alternative>, text: string, includePre: bool)
    requires AllWritten(rs) && EveryFits(rs) && SemverParser.Parse(text).Some?
    requires var v := SemverParser.Parse(text).value;
      forall i, k :: 0 <= i < |rs| && 0 <= k < |rs[i].clauses| ==> Comparable(v.ids, AllRanges(rs)[i][k].version.ids)
    ensures ParseRangeSet(AlternativesText(rs)).Some?
    ensures var v := SemverParser.Parse(text).value;
      var ranges := ParseRangeSet(AlternativesText(rs)).value;
      && ranges == AllRanges(rs) && (forall i :: 0 <= i < |rs| ==> AllProper(ranges[i], v))
      && (SetContains(ranges, v, includePre) <==> exists i :: 0 <= i < |ranges| && Inside(ranges[i], v, includePre))
  {
    hide AlternativesText, ParseRangeSet, SemverParser.Parse, Contains, Inside, Comparable, AllProper, Parsed;
    RangeTextParsed(rs);
    ParseGivesParsed(text);
    var v := SemverParser.Parse(text).value;
    forall i | 0 <= i < |rs|
      ensures AllProper(AllRanges(rs)[i], v) && (Contains(AllRanges(rs)[i], v, includePre) <==> Inside(AllRanges(rs)[i], v, includePre))
    {
      assert AllFit(rs[i].clauses) && Written(rs[i].clauses);
      MeantParsed(rs[i].clauses);
      ContainsIff(AllRanges(rs)[i], v, includePre);
    }
  }

  lemma MeantParsed(cs: seq<Clause>)
    requires Written(cs) && AllFit(cs)
    ensures ParsedRange(AllMeant(cs))
  {
    forall i | 0 <= i < |cs|
      ensures Parsed(AllMeant(cs)[i].version)
    {
      var x := cs[i].x;
      assert Fits(x) && WellFormed(x);
      RenderPlain(x);
      assert TagOf(Denote(x), x.pre);
    }
  }
}
