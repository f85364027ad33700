/** The precedence order: the comparison as it is computed, the rules of section 11 of Semantic
    Versioning 2.0.0 as a relation, and that the first is the second and a total preorder. */
module SemverOrder {
  import opened Basics
  import opened SemverSyntax
  import opened SemverParser
  import opened SemverGrammar

  const INT_MIN := -0x8000_0000

  function Clamp(n: int): (r: int)
    ensures INT_MIN <= r <= INT_MAX
  {
    if n > INT_MAX then INT_MAX else if n < INT_MIN then INT_MIN else n
  }

  function Sign(n: int): int {
    if n < 0 then -1 else if n > 0 then 1 else 0
  }

  // ---------------------------------------------------------------- the computed comparison

  /** The first position from `i` at which two texts differ, or the length of the shorter one. */
  function FirstDifference(l: string, r: string, i: nat): (k: nat)
    requires i <= |l| && i <= |r|
    ensures i <= k <= |l| && k <= |r| && (k < |l| && k < |r| ==> l[k] != r[k])
    ensures forall j :: i <= j < k ==> l[j] == r[j]
    decreases |l| - i
  {
    if i < |l| && i < |r| && l[i] == r[i] then FirstDifference(l, r, i + 1) else i
  }

  function CompareNumerically(l: string, r: string): int {
    if |l| != |r| then ToInt32(|l| - |r|)
    else
      var k := FirstDifference(l, r, 0);
      if k == |l| then 0 else l[k] as int - r[k] as int
  }

  /** `std::string_view::compare`: by code unit, then by length. */
  function CompareText(l: string, r: string): int {
    var k := FirstDifference(l, r, 0);
    if k < |l| && k < |r| then (if l[k] < r[k] then -1 else 1) else Clamp(|l| - |r|)
  }

  function CompareIdent(l: Ident, r: Ident): int {
    if l.numeric && r.numeric then CompareNumerically(l.text, r.text)
    else if !l.numeric && !r.numeric then CompareText(l.text, r.text)
    else if !l.numeric then 1 else -1
  }

  function FirstDecision(l: seq<Ident>, r: seq<Ident>, i: nat): (k: nat)
    requires i <= |l| && i <= |r|
    ensures i <= k <= |l| && k <= |r| && (k < |l| && k < |r| ==> CompareIdent(l[k], r[k]) != 0)
    ensures forall j :: i <= j < k ==> CompareIdent(l[j], r[j]) == 0
    decreases |l| - i
  {
    if i < |l| && i < |r| && CompareIdent(l[i], r[i]) == 0 then FirstDecision(l, r, i + 1) else i
  }

  function ComparePre(l: seq<Ident>, r: seq<Ident>): int {
    if (l == []) != (r == []) then ToInt32(|r|) - ToInt32(|l|)
    else
      var k := FirstDecision(l, r, 0);
      if k < |l| && k < |r| then CompareIdent(l[k], r[k]) else ToInt32(|l|) - ToInt32(|r|)
  }

  function Compare(l: Version, r: Version, includePre: bool): int {
    if l.major != r.major then l.major - r.major
    else if l.minor != r.minor then l.minor - r.minor
    else if l.patch != r.patch then l.patch - r.patch
    else if includePre then ComparePre(l.ids, r.ids) else 0
  }

  // ---------------------------------------------------------------- the loops

  method NumericComparison(l: string, r: string) returns (c: int)
    ensures c == CompareNumerically(l, r)
  {
    if |l| != |r| {
      return ToInt32(|l| - |r|);
    }
    for i := 0 to |l|
      invariant FirstDifference(l, r, 0) == FirstDifference(l, r, i)
    {
      var a, b := l[i] as int - '0' as int, r[i] as int - '0' as int;
      if a != b {
        return a - b;
      }
    }
    return 0;
  }

  method IdentComparison(l: Ident, r: Ident) returns (c: int)
    ensures c == CompareIdent(l, r)
  {
    if l.numeric && r.numeric {
      c := NumericComparison(l.text, r.text);
    } else if !l.numeric && !r.numeric {
      c := CompareText(l.text, r.text);
    } else {
      c := if !l.numeric then 1 else -1;
    }
  }

  method PreComparison(l: seq<Ident>, r: seq<Ident>) returns (c: int)
    ensures c == ComparePre(l, r)
  {
    if (l == []) != (r == []) {
      return ToInt32(|r|) - ToInt32(|l|);
    }
    var count := if |l| < |r| then |l| else |r|;
    for i := 0 to count
      invariant FirstDecision(l, r, 0) == FirstDecision(l, r, i)
    {
      c := IdentComparison(l[i], r[i]);
      if c != 0 {
        return;
      }
    }
    return ToInt32(|l|) - ToInt32(|r|);
  }

  // ---------------------------------------------------------------- the rules, as relations

  ghost predicate TextLess(l: string, r: string) {
    exists k :: 0 <= k <= |l| && k < |r| && l[..k] == r[..k] && (k == |l| || l[k] < r[k])
  }

  predicate ProperIdent(id: Ident) {
    PreIdent(id.text) && id.numeric == AllDigits(id.text)
  }

  /** Numeric identifiers by the number they denote, others in ASCII order, numeric ones first. */
  ghost predicate IdentLess(l: Ident, r: Ident)
    requires ProperIdent(l) && ProperIdent(r)
  {
    if l.numeric && r.numeric then Value(l.text) < Value(r.text)
    else if !l.numeric && !r.numeric then TextLess(l.text, r.text)
    else l.numeric
  }

  predicate ProperIds(ids: seq<Ident>) {
    forall i :: 0 <= i < |ids| ==> ProperIdent(ids[i])
  }

  /** Left to right until the first difference; a longer list of equal beginning is higher; none at all
      is higher than any. */
  ghost predicate PreLess(l: seq<Ident>, r: seq<Ident>)
    requires ProperIds(l) && ProperIds(r)
  {
    if l == [] || r == [] then l != [] && r == [] else IdsLess(l, r)
  }

  ghost predicate IdsLess(l: seq<Ident>, r: seq<Ident>)
    requires ProperIds(l) && ProperIds(r)
  {
    exists k :: 0 <= k <= |l| && k < |r| && l[..k] == r[..k] && (k == |l| || IdentLess(l[k], r[k]))
  }

  ghost predicate Precedes(l: Version, r: Version)
    requires ProperIds(l.ids) && ProperIds(r.ids)
  {
    || l.major < r.major
    || (l.major == r.major && l.minor < r.minor)
    || (l.major == r.major && l.minor == r.minor && l.patch < r.patch)
    || (l.major == r.major && l.minor == r.minor && l.patch == r.patch && PreLess(l.ids, r.ids))
  }

  // ---------------------------------------------------------------- numbers

  lemma {:induction false} ValueAppend(s: string, t: string)
    requires AllDigits(s) && AllDigits(t)
    ensures AllDigits(s + t)
    ensures Value(s + t) == Value(s) * Pow10(|t|) + Value(t) && Value(t) < Pow10(|t|)
    decreases |t|
  {
    var u := s + t;
    assert forall i :: 0 <= i < |u| ==> IsDigit(u[i]);
    if t == [] {
      assert u == s;
    } else {
      var t' := t[..|t| - 1];
      assert u[..|u| - 1] == s + t';
      ValueAppend(s, t');
      assert Value(u) == (Value(s) * Pow10(|t'|) + Value(t')) * 10 + DigitOf(t[|t| - 1]);
      TimesTen(Value(s), Pow10(|t'|));
    }
  }

  lemma TimesTen(a: nat, p: nat)
    ensures a * p * 10 == a * (10 * p)
  {
  }

  /** The value of a text is below ten to its length, and at least ten to one less without a leading zero. */
  lemma NumeralRange(w: string)
    requires Numeral(w)
    ensures Value(w) < Pow10(|w|) && (|w| > 1 ==> Pow10(|w| - 1) <= Value(w))
  {
    hide Pow10, Value;
    assert [] + w == w;
    assert w == [w[0]] + w[1..];
    ValueAppend([], w);
    ValueAppend([w[0]], w[1..]);
    if |w| > 1 {
      OneDigit(w[0]);
      AtLeastOnce(Value([w[0]]), Pow10(|w| - 1));
    }
  }

  lemma AtLeastOnce(a: nat, p: nat)
    requires a >= 1
    ensures a * p >= p
  {
  }

  /** A shorter numeral denotes a smaller number: this is where the absence of leading zeros matters. */
  lemma ShorterIsSmaller(l: string, r: string)
    requires Numeral(l) && Numeral(r) && |l| < |r|
    ensures Value(l) < Value(r)
  {
    hide Pow10, Value;
    NumeralRange(l);
    NumeralRange(r);
    Pow10Grows(|l|, |r| - 1);
  }

  lemma AtDifference(l: string, r: string, k: nat)
    requires AllDigits(l) && AllDigits(r) && |l| == |r| && k < |l| && l[..k] == r[..k] && l[k] < r[k]
    ensures Value(l) < Value(r)
  {
    hide Value, Pow10;
    var p, q := l[k + 1..], r[k + 1..];
    assert l == l[..k] + ([l[k]] + p) && r == l[..k] + ([r[k]] + q);
    SplitValue(l[..k], l[k], p);
    SplitValue(l[..k], r[k], q);
    BelowNext(DigitOf(l[k]), DigitOf(r[k]), Pow10(|p|));
  }

  lemma SplitValue(a: string, c: char, p: string)
    requires AllDigits(a) && IsDigit(c) && AllDigits(p)
    ensures AllDigits(a + ([c] + p)) && Value(p) < Pow10(|p|)
    ensures Value(a + ([c] + p)) == Value(a) * Pow10(|p| + 1) + DigitOf(c) * Pow10(|p|) + Value(p)
  {
    hide Value, Pow10;
    ValueAppend([c], p);
    ValueAppend(a, [c] + p);
    OneDigit(c);
  }

  lemma OneDigit(c: char)
    requires IsDigit(c)
    ensures Value([c]) == DigitOf(c)
  {
    assert Value([c][..0]) == 0;
  }

  lemma BelowNext(d: nat, e: nat, p: nat)
    requires d < e
    ensures d * p + p <= e * p
  {
    assert (d + 1) * p <= e * p;
  }

  /** Numerals of any length are ordered by the number they denote, exactly when the conversion of the
      length difference to `int` keeps its sign. */
  lemma NumericByValue(l: string, r: string)
    requires Numeral(l) && Numeral(r)
    ensures Sign(CompareNumerically(l, r)) == Sign(Value(l) - Value(r)) <==>
            Sign(ToInt32(|l| - |r|)) == Sign(|l| - |r|)
  {
    hide Value, Numeral;
    if |l| < |r| {
      ShorterIsSmaller(l, r);
    } else if |r| < |l| {
      ShorterIsSmaller(r, l);
    } else {
      SameLengthByValue(l, r);
    }
  }

  lemma SameLengthByValue(l: string, r: string)
    requires Numeral(l) && Numeral(r) && |l| == |r|
    ensures Sign(CompareNumerically(l, r)) == Sign(Value(l) - Value(r))
  {
    var k := FirstDifference(l, r, 0);
    hide Value, FirstDifference;
    if k == |l| {
      assert l == r;
    } else {
      assert l[..k] == r[..k];
      if l[k] < r[k] {
        AtDifference(l, r, k);
      } else {
        AtDifference(r, l, k);
      }
    }
  }

  lemma SmallLengths(a: nat, b: nat)
    requires a <= INT_MAX && b <= INT_MAX
    ensures ToInt32(a - b) == a - b && ToInt32(a) == a
  {
  }

  // ---------------------------------------------------------------- identifiers

  /** What comparison of two identifiers, lists or versions must give: the relation one way, the relation
      the other way, or sameness. */
  predicate Decides(c: int, less: bool, same: bool, greater: bool) {
    (c < 0 <==> less) && (c == 0 <==> same) && (c > 0 <==> greater)
  }

  lemma FirstDifferenceSym(l: string, r: string, i: nat)
    requires i <= |l| && i <= |r|
    ensures FirstDifference(l, r, i) == FirstDifference(r, l, i)
    decreases |l| - i
  {
  }

  lemma TextLessAt(l: string, r: string)
    ensures var k := FirstDifference(l, r, 0);
      TextLess(l, r) <==> k < |r| && (k == |l| || l[k] < r[k])
  {
    var k := FirstDifference(l, r, 0);
    hide FirstDifference;
    if k < |r| && (k == |l| || l[k] < r[k]) {
      assert l[..k] == r[..k];
    }
    if TextLess(l, r) {
      var m :| 0 <= m <= |l| && m < |r| && l[..m] == r[..m] && (m == |l| || l[m] < r[m]);
      if k < m {
        assert l[..m][k] == r[..m][k];
      }
    }
  }

  lemma TextDecides(l: string, r: string)
    ensures Decides(CompareText(l, r), TextLess(l, r), l == r, TextLess(r, l))
  {
    var k := FirstDifference(l, r, 0);
    TextLessAt(l, r);
    TextLessAt(r, l);
    FirstDifferenceSym(l, r, 0);
    hide FirstDifference, TextLess;
    assert k == |l| && k == |r| ==> l[..k] == r[..k];
    assert k == |l| && k == |r| ==> l == r;
  }

  /** The conversion to `int` keeps the sign of a difference, whichever way it is taken. */
  predicate KeepsSign(difference: int) {
    Sign(ToInt32(difference)) == Sign(difference) && Sign(ToInt32(-difference)) == Sign(-difference)
  }

  predicate IdentsComparable(l: Ident, r: Ident) {
    l.numeric && r.numeric ==> KeepsSign(|l.text| - |r.text|)
  }

  /** Position by position the lengths of numeric identifiers may be compared in an `int`, and so may the
      numbers of identifiers. */
  predicate Comparable(l: seq<Ident>, r: seq<Ident>) {
    && |l| <= INT_MAX && |r| <= INT_MAX
    && forall i :: 0 <= i < |l| && i < |r| ==> IdentsComparable(l[i], r[i])
  }

  /** Any two lists of what a text below two gigabytes can hold are comparable. */
  lemma ShortComparable(l: seq<Ident>, r: seq<Ident>)
    requires |l| <= INT_MAX && |r| <= INT_MAX
    requires forall i :: 0 <= i < |l| ==> |l[i].text| <= INT_MAX
    requires forall i :: 0 <= i < |r| ==> |r[i].text| <= INT_MAX
    ensures Comparable(l, r)
  {
    forall i | 0 <= i < |l| && i < |r|
      ensures IdentsComparable(l[i], r[i])
    {
      SmallLengths(|l[i].text|, |r[i].text|);
      SmallLengths(|r[i].text|, |l[i].text|);
    }
  }

  lemma ComparableSym(l: seq<Ident>, r: seq<Ident>)
    requires Comparable(l, r)
    ensures Comparable(r, l) && Comparable(l, l)
  {
    hide ToInt32;
    assert ToInt32(0) == 0 by {
      SmallLengths(0, 0);
    }
    forall i | 0 <= i < |l| && i < |r|
      ensures IdentsComparable(r[i], l[i])
    {
      assert IdentsComparable(l[i], r[i]);
    }
  }

  lemma IdentDecides(l: Ident, r: Ident)
    requires ProperIdent(l) && ProperIdent(r) && IdentsComparable(l, r)
    ensures Decides(CompareIdent(l, r), IdentLess(l, r), l == r, IdentLess(r, l))
  {
    hide Value, FirstDifference, TextLess, ToInt32;
    if l.numeric && r.numeric {
      NumericByValue(l.text, r.text);
      NumericByValue(r.text, l.text);
      SameValueSameText(l.text, r.text);
    } else if !l.numeric && !r.numeric {
      TextDecides(l.text, r.text);
    }
  }

  lemma SameValueSameText(l: string, r: string)
    requires Numeral(l) && Numeral(r)
    ensures Value(l) == Value(r) <==> l == r
  {
    var k := if |l| == |r| then FirstDifference(l, r, 0) else 0;
    hide Value, FirstDifference;
    if |l| < |r| {
      ShorterIsSmaller(l, r);
    } else if |r| < |l| {
      ShorterIsSmaller(r, l);
    } else if k < |l| {
      assert l[..k] == r[..k];
      if l[k] < r[k] {
        AtDifference(l, r, k);
      } else {
        AtDifference(r, l, k);
      }
    } else {
      assert l == r;
    }
  }

  // ---------------------------------------------------------------- lists

  lemma IdsLessAt(l: seq<Ident>, r: seq<Ident>)
    requires ProperIds(l) && ProperIds(r) && Comparable(l, r)
    ensures var k := FirstDecision(l, r, 0);
      IdsLess(l, r) <==> k < |r| && (k == |l| || CompareIdent(l[k], r[k]) < 0)
  {
    var k := FirstDecision(l, r, 0);
    hide FirstDecision, CompareIdent, IdentLess, ProperIdent, IdentsComparable;
    SameUntil(l, r, k);
    if k < |r| && k < |l| {
      IdentDecides(l[k], r[k]);
    }
    if IdsLess(l, r) {
      var m :| 0 <= m <= |l| && m < |r| && l[..m] == r[..m] && (m == |l| || IdentLess(l[m], r[m]));
      if m < |l| {
        IdentDecides(l[m], r[m]);
      }
      if k < m {
        assert l[..m][k] == r[..m][k];
      }
    }
  }

  /** Comparing equal means being equal. */
  lemma SameUntil(l: seq<Ident>, r: seq<Ident>, k: nat)
    requires ProperIds(l) && ProperIds(r) && Comparable(l, r) && k <= |l| && k <= |r|
    requires forall j :: 0 <= j < k ==> CompareIdent(l[j], r[j]) == 0
    ensures l[..k] == r[..k]
  {
    hide CompareIdent, IdentLess, ProperIdent, IdentsComparable;
    forall j | 0 <= j < k
      ensures l[j] == r[j]
    {
      IdentDecides(l[j], r[j]);
    }
  }

  lemma {:induction false} FirstDecisionSym(l: seq<Ident>, r: seq<Ident>, i: nat)
    requires ProperIds(l) && ProperIds(r) && Comparable(l, r) && i <= |l| && i <= |r|
    ensures FirstDecision(l, r, i) == FirstDecision(r, l, i)
    decreases |l| - i
  {
    hide CompareIdent, IdentLess, ProperIdent, IdentsComparable;
    if i < |l| && i < |r| {
      ComparableSym(l, r);
      assert IdentsComparable(r[i], l[i]);
      IdentDecides(l[i], r[i]);
      IdentDecides(r[i], l[i]);
      FirstDecisionSym(l, r, i + 1);
    }
  }

  lemma PreDecides(l: seq<Ident>, r: seq<Ident>)
    requires ProperIds(l) && ProperIds(r) && Comparable(l, r)
    ensures Decides(ComparePre(l, r), PreLess(l, r), l == r, PreLess(r, l))
  {
    hide FirstDecision, CompareIdent, IdentLess, ProperIdent, IdsLess, IdentsComparable;
    SmallLengths(|l|, |r|);
    SmallLengths(|r|, |l|);
    ComparableSym(l, r);
    IdsLessAt(l, r);
    IdsLessAt(r, l);
    FirstDecisionSym(l, r, 0);
    var k := FirstDecision(l, r, 0);
    SameUntil(l, r, k);
    if k < |l| && k < |r| {
      IdentDecides(l[k], r[k]);
      IdentDecides(r[k], l[k]);
      assert l[k] != r[k];
    } else if k == |l| && k == |r| {
      assert l == l[..k] && r == r[..k];
    }
  }

  // ---------------------------------------------------------------- versions

  /** A version as the parser builds it. */
  ghost predicate Parsed(v: Version) {
    && v.major <= INT_MAX && v.minor <= INT_MAX && v.patch <= INT_MAX
    && exists ids :: TagOf(v, ids)
  }

  predicate TagOf(v: Version, ids: seq<string>) {
    AllIds(ids, true) && v.tag == Join(ids) && v.ids == ClassifyAll(ids)
  }

  lemma {:induction false} JoinBounds(ids: seq<string>, i: nat)
    requires AllIds(ids, true)
    ensures |ids| <= |Join(ids)| && (i < |ids| ==> |ids[i]| <= |Join(ids)|)
    decreases |ids|
  {
    if ids != [] {
      assert IsId(ids[0], true);
      JoinBounds(ids[1..], if i == 0 then 0 else i - 1);
    }
  }

  lemma ParsedIds(v: Version)
    requires Parsed(v)
    ensures ProperIds(v.ids)
    ensures |v.ids| <= |v.tag| && forall i :: 0 <= i < |v.ids| ==> |v.ids[i].text| <= |v.tag|
  {
    var ids :| TagOf(v, ids);
    forall i | 0 <= i < |ids|
      ensures ProperIdent(v.ids[i]) && |v.ids[i].text| <= |v.tag|
    {
      assert IsId(ids[i], true);
      JoinBounds(ids, i);
    }
    JoinBounds(ids, 0);
  }

  /** Versions of short tags are comparable. */
  lemma ShortTagsComparable(l: Version, r: Version)
    requires Parsed(l) && Parsed(r) && |l.tag| <= INT_MAX && |r.tag| <= INT_MAX
    ensures Comparable(l.ids, r.ids)
  {
    hide Parsed;
    ParsedIds(l);
    ParsedIds(r);
    ShortComparable(l.ids, r.ids);
  }

  lemma ParseGivesParsed(s: string)
    requires Parse(s).Some?
    ensures Parsed(Parse(s).value) && |Parse(s).value.tag| <= |s|
  {
    hide Parse, Word;
    ParseSound(s);
    var x :| WellFormed(x) && Fits(x) && Render(x) == s && Parse(s).value == Denote(x);
    RenderLength(x);
    RenderPlain(x);
    assert TagOf(Denote(x), x.pre);
  }

  /** A tag is one list of identifiers only. */
  lemma JoinInjective(a: seq<string>, b: seq<string>)
    requires AllIds(a, true) && AllIds(b, true) && Join(a) == Join(b)
    ensures a == b
  {
    hide Join, At, ParseIdents;
    if a == [] || b == [] {
      EmptyJoin(a);
      EmptyJoin(b);
    } else {
      JoinPlain(a, true);
      LexPlain(Join(a));
      var ts := Lex(Join(a)).value;
      IdentsAt(ts, 0, a, true);
      IdentsAt(ts, 0, b, true);
    }
  }

  lemma EmptyJoin(a: seq<string>)
    requires AllIds(a, true)
    ensures Join(a) == [] <==> a == []
  {
    if a != [] {
      JoinPlain(a, true);
    }
  }

  lemma SameTagSameIds(l: Version, r: Version)
    requires Parsed(l) && Parsed(r)
    ensures l.tag == r.tag <==> l.ids == r.ids
  {
    var a :| TagOf(l, a);
    var b :| TagOf(r, b);
    hide Join, ClassifyAll;
    if l.tag == r.tag {
      JoinInjective(a, b);
    }
    if l.ids == r.ids {
      forall i | 0 <= i < |a|
        ensures a[i] == b[i]
      {
        assert l.ids[i] == Classify(a[i]) && r.ids[i] == Classify(b[i]);
      }
      assert a == b;
    }
  }

  predicate SameTriple(l: Version, r: Version) {
    l.major == r.major && l.minor == r.minor && l.patch == r.patch
  }

  /** The computed comparison is the precedence of section 11; it is zero exactly when the numbers and the
      pre-release tag agree, whatever the build metadata; and no subtraction leaves the range of `int`. */
  lemma CompareIsPrecedence(l: Version, r: Version)
    requires Parsed(l) && Parsed(r) && Comparable(l.ids, r.ids)
    ensures ProperIds(l.ids) && ProperIds(r.ids)
    ensures Decides(Compare(l, r, true), Precedes(l, r), SameTriple(l, r) && l.tag == r.tag, Precedes(r, l))
    ensures INT_MIN <= Compare(l, r, true) <= INT_MAX
  {
    hide ComparePre, PreLess, ProperIds, Comparable;
    ParsedIds(l);
    ParsedIds(r);
    PreDecides(l.ids, r.ids);
    PreInRange(l.ids, r.ids);
    SameTagSameIds(l, r);
  }

  lemma PreInRange(l: seq<Ident>, r: seq<Ident>)
    requires ProperIds(l) && ProperIds(r) && Comparable(l, r)
    ensures INT_MIN <= ComparePre(l, r) <= INT_MAX
  {
    hide FirstDecision, Numeral, FirstDifference;
    SmallLengths(|l|, |r|);
    SmallLengths(|r|, |l|);
    var k := FirstDecision(l, r, 0);
    if k < |l| && k < |r| {
      IdentInRange(l[k], r[k]);
    }
  }

  lemma IdentInRange(l: Ident, r: Ident)
    requires ProperIdent(l) && ProperIdent(r)
    ensures INT_MIN <= CompareIdent(l, r) <= INT_MAX
  {
  }

  // ---------------------------------------------------------------- transitivity

  lemma TextLessTransitive(a: string, b: string, c: string)
    requires TextLess(a, b) && TextLess(b, c)
    ensures TextLess(a, c)
  {
    var k :| 0 <= k <= |a| && k < |b| && a[..k] == b[..k] && (k == |a| || a[k] < b[k]);
    var m :| 0 <= m <= |b| && m < |c| && b[..m] == c[..m] && (m == |b| || b[m] < c[m]);
    var n := if k < m then k else m;
    assert a[..k][..n] == a[..n] && b[..k][..n] == b[..n] && b[..m][..n] == b[..n] && c[..m][..n] == c[..n];
    if k < m {
      assert b[..m][k] == c[..m][k];
    } else if m < k {
      assert a[..k][m] == b[..k][m];
    }
    assert 0 <= n <= |a| && n < |c| && a[..n] == c[..n] && (n == |a| || a[n] < c[n]);
  }

  lemma IdentLessTransitive(a: Ident, b: Ident, c: Ident)
    requires ProperIdent(a) && ProperIdent(b) && ProperIdent(c) && IdentLess(a, b) && IdentLess(b, c)
    ensures IdentLess(a, c)
  {
    hide TextLess, Value, PreIdent;
    if !a.numeric && !b.numeric && !c.numeric {
      TextLessTransitive(a.text, b.text, c.text);
    }
  }

  lemma IdsLessTransitive(a: seq<Ident>, b: seq<Ident>, c: seq<Ident>)
    requires ProperIds(a) && ProperIds(b) && ProperIds(c) && IdsLess(a, b) && IdsLess(b, c)
    ensures IdsLess(a, c)
  {
    hide IdentLess, ProperIdent;
    var k :| 0 <= k <= |a| && k < |b| && a[..k] == b[..k] && (k == |a| || IdentLess(a[k], b[k]));
    var m :| 0 <= m <= |b| && m < |c| && b[..m] == c[..m] && (m == |b| || IdentLess(b[m], c[m]));
    var n := if k < m then k else m;
    assert a[..k][..n] == a[..n] && b[..k][..n] == b[..n] && b[..m][..n] == b[..n] && c[..m][..n] == c[..n];
    if k < m {
      assert b[..m][k] == c[..m][k];
    } else if m < k {
      assert a[..k][m] == b[..k][m];
    } else if k < |a| {
      IdentLessTransitive(a[k], b[k], c[k]);
    }
    assert 0 <= n <= |a| && n < |c| && a[..n] == c[..n] && (n == |a| || IdentLess(a[n], c[n]));
  }

  lemma PrecedesTransitive(a: Version, b: Version, c: Version)
    requires ProperIds(a.ids) && ProperIds(b.ids) && ProperIds(c.ids) && Precedes(a, b) && Precedes(b, c)
    ensures Precedes(a, c)
  {
    hide IdsLess, ProperIds;
    if a.ids != [] && b.ids != [] && c.ids != [] && IdsLess(a.ids, b.ids) && IdsLess(b.ids, c.ids) {
      IdsLessTransitive(a.ids, b.ids, c.ids);
    }
  }

  /** Comparing parsed versions is a total preorder. */
  lemma TotalPreorder(a: Version, b: Version, c: Version)
    requires Parsed(a) && Parsed(b) && Parsed(c)
    requires Comparable(a.ids, b.ids) && Comparable(b.ids, c.ids) && Comparable(a.ids, c.ids)
    ensures Sign(Compare(b, a, true)) == -Sign(Compare(a, b, true))
    ensures Compare(a, b, true) <= 0 && Compare(b, c, true) <= 0 ==> Compare(a, c, true) <= 0
    ensures Compare(a, b, true) <= 0 && Compare(b, c, true) <= 0 && Compare(a, c, true) == 0 ==>
              Compare(a, b, true) == 0 && Compare(b, c, true) == 0
  {
    hide Compare, Precedes, Parsed, ProperIds, Comparable;
    ComparableSym(a.ids, b.ids);
    CompareIsPrecedence(a, b);
    CompareIsPrecedence(b, a);
    CompareIsPrecedence(b, c);
    CompareIsPrecedence(a, c);
    if Precedes(a, b) && Precedes(b, c) {
      PrecedesTransitive(a, b, c);
    }
    SameComparesSame(a, b, c);
    SameComparesSame(b, c, a);
  }

  /** Versions that compare equal precede the same versions. */
  lemma SameComparesSame(a: Version, b: Version, c: Version)
    requires Parsed(a) && Parsed(b) && Parsed(c)
    ensures ProperIds(a.ids) && ProperIds(b.ids) && ProperIds(c.ids)
    ensures SameTriple(a, b) && a.tag == b.tag ==>
      (Precedes(a, c) <==> Precedes(b, c)) && (Precedes(c, a) <==> Precedes(c, b))
  {
    hide PreLess, Parsed, ProperIds;
    ParsedIds(a);
    ParsedIds(b);
    ParsedIds(c);
    SameTagSameIds(a, b);
  }

  /** The same for the texts themselves. */
  lemma ParsedTextsOrdered(s: string, t: string, u: string)
    requires Parse(s).Some? && Parse(t).Some? && Parse(u).Some?
    requires var (a, b, c) := (Parse(s).value, Parse(t).value, Parse(u).value);
      Comparable(a.ids, b.ids) && Comparable(b.ids, c.ids) && Comparable(a.ids, c.ids)
    ensures var (a, b, c) := (Parse(s).value, Parse(t).value, Parse(u).value);
      && Parsed(a) && Parsed(b) && Parsed(c)
      && (Compare(a, b, true) == 0 <==> SameTriple(a, b) && a.tag == b.tag)
      && Sign(Compare(b, a, true)) == -Sign(Compare(a, b, true))
      && (Compare(a, b, true) <= 0 && Compare(b, c, true) <= 0 ==> Compare(a, c, true) <= 0)
  {
    hide Compare, Parse, Parsed, ProperIds, Precedes, Comparable;
    ParseGivesParsed(s);
    ParseGivesParsed(t);
    ParseGivesParsed(u);
    TotalPreorder(Parse(s).value, Parse(t).value, Parse(u).value);
    CompareIsPrecedence(Parse(s).value, Parse(t).value);
  }

  /** The requirement is met by all texts of at most 2^31 - 1 characters. */
  lemma ShortTextsComparable(s: string, t: string)
    requires Parse(s).Some? && Parse(t).Some? && |s| <= INT_MAX && |t| <= INT_MAX
    ensures Comparable(Parse(s).value.ids, Parse(t).value.ids)
  {
    hide Parse, Parsed, Comparable;
    ParseGivesParsed(s);
    ParseGivesParsed(t);
    ShortTagsComparable(Parse(s).value, Parse(t).value);
  }

  // ---------------------------------------------------------------- beyond the range of `int`

  /** The first difference is between two numeric identifiers whose lengths are half the range of a 32-bit word
      apart. */
  predicate HalfRangeApart(l: Version, r: Version) {
    && SameTriple(l, r) && l.ids != [] && r.ids != []
    && var k := FirstDecision(l.ids, r.ids, 0);
      && k < |l.ids| && k < |r.ids| && l.ids[k].numeric && r.ids[k].numeric
      && (|l.ids[k].text| - |r.ids[k].text|) % 0x1_0000_0000 == 0x8000_0000
  }

  /** For all versions, of any length: exchanging the operands exchanges the sign exactly outside this case. */
  lemma AntisymmetricIff(l: Version, r: Version)
    ensures Sign(Compare(r, l, true)) == -Sign(Compare(l, r, true)) <==> !HalfRangeApart(l, r)
  {
    if SameTriple(l, r) {
      PreSymmetric(l.ids, r.ids);
    }
    hide ComparePre, FirstDecision, ToInt32;
  }

  lemma PreSymmetric(l: seq<Ident>, r: seq<Ident>)
    ensures var k := FirstDecision(l, r, 0);
      var half := l != [] && r != [] && k < |l| && k < |r| && l[k].numeric && r[k].numeric
                  && (|l[k].text| - |r[k].text|) % 0x1_0000_0000 == 0x8000_0000;
      Sign(ComparePre(r, l)) == -Sign(ComparePre(l, r)) <==> !half
  {
    var k := FirstDecision(l, r, 0);
    DecisionSymmetric(l, r, 0);
    hide FirstDecision, CompareIdent, ToInt32;
    if k < |l| && k < |r| {
      IdentSymmetric(l[k], r[k]);
    }
  }

  lemma {:induction false} DecisionSymmetric(l: seq<Ident>, r: seq<Ident>, i: nat)
    requires i <= |l| && i <= |r|
    ensures FirstDecision(l, r, i) == FirstDecision(r, l, i)
    decreases |l| - i
  {
    hide CompareIdent;
    if i < |l| && i < |r| {
      IdentSymmetric(l[i], r[i]);
      DecisionSymmetric(l, r, i + 1);
    }
  }

  lemma IdentSymmetric(l: Ident, r: Ident)
    ensures CompareIdent(l, r) == 0 <==> CompareIdent(r, l) == 0
    ensures var half := l.numeric && r.numeric && (|l.text| - |r.text|) % 0x1_0000_0000 == 0x8000_0000;
      Sign(CompareIdent(r, l)) == -Sign(CompareIdent(l, r)) <==> !half
  {
    var d := |l.text| - |r.text|;
    NarrowedNegation(d);
    FirstDifferenceSym(l.text, r.text, 0);
    hide FirstDifference, ToInt32;
  }

  lemma NarrowedNegation(d: int)
    ensures ToInt32(-d) == 0 <==> ToInt32(d) == 0
    ensures Sign(ToInt32(-d)) == -Sign(ToInt32(d)) <==> d % 0x1_0000_0000 != 0x8000_0000
    ensures d == 0 ==> ToInt32(d) == 0 && d % 0x1_0000_0000 == 0
  {
    NegatedRemainder(d);
  }

  lemma NegatedRemainder(d: int)
    ensures var low := d % 0x1_0000_0000;
      (-d) % 0x1_0000_0000 == if low == 0 then 0 else 0x1_0000_0000 - low
  {
    var low, q := d % 0x1_0000_0000, d / 0x1_0000_0000;
    assert -d == 0x1_0000_0000 * (-q) - low;
    if low != 0 {
      assert -d == 0x1_0000_0000 * (-q - 1) + (0x1_0000_0000 - low);
      RemainderIs(-d, -q - 1, 0x1_0000_0000 - low);
    } else {
      RemainderIs(-d, -q, 0);
    }
  }

  lemma RemainderIs(n: int, q: int, r: nat)
    requires r < 0x1_0000_0000 && n == 0x1_0000_0000 * q + r
    ensures n % 0x1_0000_0000 == r
  {
  }

  /** So the order is lost beyond it: of two numerals 2^31 digits apart in length each compares below the
      other. */
  lemma NarrowingFlips(l: string, r: string)
    requires Numeral(l) && Numeral(r) && |l| == |r| + 0x8000_0000
    ensures CompareNumerically(l, r) < 0 && CompareNumerically(r, l) < 0 && Value(l) > Value(r)
  {
    hide Value;
    ShorterIsSmaller(r, l);
  }

  /** A numeral of any length. */
  function Ones(n: nat): (w: string)
    requires n > 0
    ensures Numeral(w) && |w| == n
  {
    seq(n, i => '1')
  }

  /** A version with one numeric pre-release identifier of `n` digits. */
  function OneIdent(n: nat): Version
    requires n > 0
  {
    Version(0, 0, 0, Ones(n), "", [Ident(true, Ones(n))])
  }

  lemma OneIdentParsed(n: nat)
    requires n > 0
    ensures Parsed(OneIdent(n))
  {
    var v, ids := OneIdent(n), [Ones(n)];
    assert ids[..0] == [];
    assert ClassifyAll(ids) == [Classify(Ones(n))];
    assert TagOf(v, ids);
  }

  /** Transitivity is lost there as well: three versions of which each precedes the next and the last the
      first. */
  lemma Cycle()
    ensures var (a, b, c) := (OneIdent(1), OneIdent(0x4000_0001), OneIdent(0x8000_0002));
      && Parsed(a) && Parsed(b) && Parsed(c)
      && Compare(a, b, true) < 0 && Compare(b, c, true) < 0 && Compare(c, a, true) < 0
  {
    hide *;
    OneIdentParsed(1);
    OneIdentParsed(0x4000_0001);
    OneIdentParsed(0x8000_0002);
    CycleSigns();
    OneIdentCompare(1, 0x4000_0001);
    OneIdentCompare(0x4000_0001, 0x8000_0002);
    OneIdentCompare(0x8000_0002, 1);
  }

  lemma CycleSigns()
    ensures ToInt32(1 - 0x4000_0001) < 0 && ToInt32(0x4000_0001 - 0x8000_0002) < 0 && ToInt32(0x8000_0002 - 1) < 0
  {
  }

  lemma OneIdentCompare(m: nat, n: nat)
    requires m > 0 && n > 0 && ToInt32(m - n) != 0
    ensures Compare(OneIdent(m), OneIdent(n), true) == ToInt32(m - n)
  {
    hide Ones, ToInt32;
  }
}
