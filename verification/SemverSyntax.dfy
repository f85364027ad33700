/** Semantic Versioning 2.0.0, sections 2, 9 and 10, as a grammar of texts, and the values texts denote.
    Nothing here refers to the parser. */
module SemverSyntax {

  const INT_MAX := 0x7FFF_FFFF
  const WORD := 0x1_0000_0000_0000_0000

  predicate IsDigit(c: char) {
    '0' <= c <= '9'
  }

  predicate IsLetter(c: char) {
    'A' <= c <= 'Z' || 'a' <= c <= 'z'
  }

  predicate IsIdentChar(c: char) {
    IsDigit(c) || IsLetter(c) || c == '-'
  }

  predicate AllDigits(s: string) {
    forall i :: 0 <= i < |s| ==> IsDigit(s[i])
  }

  /** A number without a superfluous leading zero. */
  predicate Numeral(s: string) {
    s != [] && AllDigits(s) && (|s| > 1 ==> s[0] != '0')
  }

  predicate BuildIdent(s: string) {
    s != [] && forall i :: 0 <= i < |s| ==> IsIdentChar(s[i])
  }

  predicate PreIdent(s: string) {
    BuildIdent(s) && (AllDigits(s) ==> Numeral(s))
  }

  function Join(ids: seq<string>): string {
    if ids == [] then [] else if |ids| == 1 then ids[0] else ids[0] + "." + Join(ids[1..])
  }

  /** The parts of a version text.  Empty lists stand for an absent section. */
  datatype Syntax = Syntax(major: string, minor: string, patch: string, pre: seq<string>, build: seq<string>)

  predicate WellFormed(x: Syntax) {
    && Numeral(x.major) && Numeral(x.minor) && Numeral(x.patch)
    && (forall i :: 0 <= i < |x.pre| ==> PreIdent(x.pre[i]))
    && (forall i :: 0 <= i < |x.build| ==> BuildIdent(x.build[i]))
  }

  function Section(mark: char, ids: seq<string>): string {
    if ids == [] then [] else [mark] + Join(ids)
  }

  function Render(x: Syntax): string {
    x.major + "." + x.minor + "." + x.patch + Section('-', x.pre) + Section('+', x.build)
  }

  function DigitOf(c: char): (d: nat)
    requires IsDigit(c)
    ensures d < 10
  {
    c as int - '0' as int
  }

  /** The number a digit string denotes. */
  function Value(s: string): nat
    requires AllDigits(s)
  {
    if s == [] then 0 else Value(s[..|s| - 1]) * 10 + DigitOf(s[|s| - 1])
  }

  /** Its value in a 64-bit word. */
  function Word(s: string): (w: nat)
    requires AllDigits(s)
    ensures w < WORD
  {
    Value(s) % WORD
  }

  datatype Ident = Ident(numeric: bool, text: string)

  datatype Version = Version(major: nat, minor: nat, patch: nat, tag: string, build: string, ids: seq<Ident>)

  function Classify(id: string): Ident {
    Ident(AllDigits(id), id)
  }

  /** The three numbers fit an `int` once they are in a 64-bit word. */
  predicate Fits(x: Syntax)
    requires WellFormed(x)
  {
    Word(x.major) <= INT_MAX && Word(x.minor) <= INT_MAX && Word(x.patch) <= INT_MAX
  }

  function ClassifyAll(ids: seq<string>): (r: seq<Ident>)
    ensures |r| == |ids| && forall i :: 0 <= i < |ids| ==> r[i] == Classify(ids[i])
  {
    if ids == [] then [] else ClassifyAll(ids[..|ids| - 1]) + [Classify(ids[|ids| - 1])]
  }

  function MakeVersion(major: nat, minor: nat, patch: nat, pre: seq<string>, build: seq<string>): Version {
    Version(major, minor, patch, Join(pre), Join(build), ClassifyAll(pre))
  }

  function Denote(x: Syntax): Version
    requires WellFormed(x)
  {
    MakeVersion(Word(x.major), Word(x.minor), Word(x.patch), x.pre, x.build)
  }

  function Pow10(n: nat): (p: nat)
    ensures p >= 1
  {
    if n == 0 then 1 else 10 * Pow10(n - 1)
  }

  lemma {:induction false} Pow10Grows(m: nat, n: nat)
    requires m <= n
    ensures Pow10(m) <= Pow10(n)
    decreases n
  {
    if m < n {
      Pow10Grows(m, n - 1);
    }
  }
}
