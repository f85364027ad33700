/** The parser as it runs: one cursor over the token vector, moved by loops.  Every method is proved to
    compute the parsing function of the position it starts from; each `tokens[current]` below is a proof
    that the vector is never read behind its end token. */
module SemverCursor {
  import opened Basics
  import opened SemverSyntax
  import Fn = SemverParser
  import opened SemverParser
  import Grammar = SemverGrammar

  datatype Kind = KEol | KSpace | KDot | KPlus | KHyphen | KLetter | KDigit | KOperator | KOr

  function KindOf(t: Token): Kind {
    match t
    case Eol => KEol
    case Space => KSpace
    case Dot => KDot
    case Plus => KPlus
    case Hyphen => KHyphen
    case Letter(_) => KLetter
    case Digit(_) => KDigit
    case Operator(_) => KOperator
    case Or => KOr
  }

  // ---------------------------------------------------------------- how the loops relate to the functions

  /** The list parsed from the start, once `done` are the identifiers before the cursor. */
  ghost function ResumeIds(done: seq<string>, rest: Option<(seq<string>, nat)>): Option<(seq<string>, nat)> {
    if rest.None? then None else Some((done + rest.value.0, rest.value.1))
  }

  ghost function ParseId(ts: seq<Token>, i: nat, pre: bool): (r: Option<(string, nat)>)
    requires i < |ts| && Closed(ts)
    ensures r.Some? ==> i < r.value.1 < |ts| && r.value.0 != []
  {
    if pre then ParsePreIdent(ts, i) else ParseBuildIdent(ts, i)
  }

  lemma ResumeIdsStep(ts: seq<Token>, i: nat, pre: bool, done: seq<string>)
    requires i < |ts| && Closed(ts)
    ensures var id := ParseId(ts, i, pre);
      ResumeIds(done, ParseIdents(ts, i, pre)) ==
      if id.None? then None
      else if ts[id.value.1] != Dot then Some((done + [id.value.0], id.value.1))
      else ResumeIds(done + [id.value.0], ParseIdents(ts, id.value.1 + 1, pre))
  {
    hide ParsePreIdent, ParseBuildIdent;
    var id := ParseId(ts, i, pre);
    if id.Some? && ts[id.value.1] == Dot {
      var rest := ParseIdents(ts, id.value.1 + 1, pre);
      if rest.Some? {
        assert done + ([id.value.0] + rest.value.0) == done + [id.value.0] + rest.value.0;
      }
    }
  }

  lemma {:induction false} JoinSnoc(ids: seq<string>, w: string)
    ensures Join(ids + [w]) == if ids == [] then w else Join(ids) + "." + w
    decreases |ids|
  {
    var all := ids + [w];
    if |ids| == 1 {
      assert all[1..] == [w];
    } else if |ids| > 1 {
      assert all[1..] == ids[1..] + [w];
      JoinSnoc(ids[1..], w);
    }
  }

  lemma ClassifySnoc(ids: seq<string>, w: string)
    ensures ClassifyAll(ids + [w]) == ClassifyAll(ids) + [Classify(w)]
  {
    assert (ids + [w])[..|ids|] == ids;
  }

  lemma IdentifierChars(ts: seq<Token>, i: nat, pre: bool)
    requires i < |ts| && Closed(ts) && ParseId(ts, i, pre).Some?
    ensures forall k :: 0 <= k < |ParseId(ts, i, pre).value.0| ==> IsIdentChar(ParseId(ts, i, pre).value.0[k])
  {
    Grammar.AtText(ts, i, RunEnd(ts, i));
  }

  /** The numeric kind is decided by the absence of letters and hyphens. */
  method MakeIdentifier(id: string) returns (r: Ident)
    requires forall k :: 0 <= k < |id| ==> IsIdentChar(id[k])
    ensures r == Classify(id)
  {
    for i := 0 to |id|
      invariant forall k :: 0 <= k < i ==> IsDigit(id[k])
    {
      if id[i] == '-' || IsLetter(id[i]) {
        assert !IsDigit(id[i]);
        return Ident(false, id);
      }
    }
    return Ident(true, id);
  }

  class TokenStream {
    var current: nat
    const tokens: seq<Token>

    ghost predicate Valid()
      reads this
    {
      Closed(tokens) && current <= |tokens|
    }

    /** Where a parser that started before leaves the cursor: behind the end token exactly when it has failed
        on having taken that token. */
    ghost predicate Stopped(failed: bool)
      reads this
    {
      Valid() && current > 0 && (current == |tokens| <==> failed && tokens[current - 1] == Eol)
    }

    /** The cursor stands on a token. */
    ghost predicate Ready()
      reads this
    {
      Closed(tokens) && current < |tokens|
    }

    constructor (ts: seq<Token>)
      requires Closed(ts)
      ensures tokens == ts && current == 0 && Ready()
    {
      tokens, current := ts, 0;
    }

    method Advance() returns (t: Token)
      requires Ready()
      modifies this
      ensures Valid() && current == old(current) + 1 && t == tokens[old(current)]
    {
      t := tokens[current];
      current := current + 1;
    }

    /** Taking a token of a kind other than the end leaves the cursor on a token. */
    method AdvanceIfMatch(kind: Kind) returns (matched: bool, t: Token)
      requires Ready() && kind != KEol
      modifies this
      ensures Ready() && t == tokens[old(current)]
      ensures matched == (KindOf(t) == kind) && current == old(current) + (if matched then 1 else 0)
    {
      t := tokens[current];
      matched := KindOf(t) == kind;
      if matched {
        t := Advance();
      }
    }

    method Consume(kind: Kind) returns (matched: bool)
      requires Ready()
      modifies this
      ensures Valid() && current == old(current) + 1 && matched == (KindOf(tokens[old(current)]) == kind)
    {
      var t := Advance();
      matched := KindOf(t) == kind;
    }

    /** The next token when it belongs to an identifier. */
    method AdvanceIfIdent() returns (matched: bool, t: Token)
      requires Ready()
      modifies this
      ensures Ready() && t == tokens[old(current)]
      ensures matched == IsIdentToken(t) && current == old(current) + (if matched then 1 else 0)
    {
      matched, t := AdvanceIfMatch(KHyphen);
      if !matched {
        matched, t := AdvanceIfMatch(KLetter);
      }
      if !matched {
        matched, t := AdvanceIfMatch(KDigit);
      }
    }

    method ParseNumber() returns (r: Option<nat>)
      requires Ready()
      modifies this
      ensures Stopped(r.None?)
      ensures var p := Fn.ParseNumber(tokens, old(current));
        && r == (if p.None? then None else Some(p.value.0))
        && (p.Some? ==> current == p.value.1)
    {
      ghost var start := current;
      var t := Advance();
      if !t.Digit? {
        return None;
      }
      var result := t.d;
      if result == 0 {
        return Some(result);
      }
      assert result == Accumulate(tokens, start, current) by {
        assert Accumulate(tokens, start, start) == 0;
      }
      var more: bool;
      more, t := AdvanceIfMatch(KDigit);
      while more
        invariant Ready() && start < current && (more ==> start + 1 < current && t == tokens[current - 1])
        invariant forall k :: start <= k < current ==> tokens[k].Digit?
        invariant result == Accumulate(tokens, start, if more then current - 1 else current)
        invariant !more ==> !tokens[current].Digit?
        decreases |tokens| - current, more
      {
        result := (result * 10 + t.d) % WORD;
        more, t := AdvanceIfMatch(KDigit);
      }
      Grammar.DigitsEndIs(tokens, start, current);
      if result <= INT_MAX {
        return Some(result);
      }
      return None;
    }

    /** Looks ahead from the token after a leading digit, without moving. */
    method LooksLikeLeadingZero(digit: nat) returns (r: bool)
      requires Ready() && current > 0 && tokens[current - 1] == Digit(digit)
      ensures r == IsLeadingZero(tokens, current - 1)
    {
      if digit != 0 {
        return false;
      }
      var k, alphaNumerics, digits := 0, 0, 0;
      while IsIdentToken(tokens[current + k])
        invariant 0 <= k && current + k < |tokens| && alphaNumerics == k && 0 <= digits <= k
        invariant forall j :: current <= j < current + k ==> IsIdentToken(tokens[j])
        invariant digits == k <==> forall j :: current <= j < current + k ==> tokens[j].Digit?
        decreases |tokens| - k
      {
        alphaNumerics := alphaNumerics + 1;
        if tokens[current + k].Digit? {
          digits := digits + 1;
        }
        k := k + 1;
      }
      Grammar.RunEndIs(tokens, current - 1, current + k);
      if digits == k {
        Grammar.DigitsEndIs(tokens, current - 1, current + k);
      }
      return digits > 0 && digits == alphaNumerics;
    }

    /** Both identifier loops; only the pre-release one refuses leading zeros. */
    method ParseIdentifier(pre: bool) returns (r: Option<string>)
      requires Ready()
      modifies this
      ensures Stopped(r.None?)
      ensures var p := ParseId(tokens, old(current), pre);
        && r == (if p.None? then None else Some(p.value.0))
        && (p.Some? ==> current == p.value.1)
    {
      ghost var start := current;
      var text: string := [];
      var t := Advance();
      if !IsIdentToken(t) {
        return None;
      }
      var more := true;
      while more
        invariant Ready() && start <= current - (if more then 1 else 0)
        invariant more ==> IsIdentToken(t) && t == tokens[current - 1] && |text| == current - 1 - start
        invariant !more ==> !IsIdentToken(tokens[current]) && start < current
        invariant forall k :: start <= k < current ==> IsIdentToken(tokens[k])
        invariant text == Text(tokens, start, if more then current - 1 else current)
        invariant text != [] && pre ==> !IsLeadingZero(tokens, start)
        decreases |tokens| - current, more
      {
        if pre && text == [] && t.Digit? {
          var zero := LooksLikeLeadingZero(t.d);
          if zero {
            return None;
          }
        }
        text := text + [CharOf(t)];
        more, t := AdvanceIfIdent();
      }
      Grammar.RunEndIs(tokens, start, current);
      return Some(text);
    }

    /** The tag as it is written and, for pre-releases, its classified identifiers. */
    method ParseTag(pre: bool) returns (r: Option<(string, seq<Ident>)>, ghost ids: seq<string>)
      requires Ready()
      modifies this
      ensures Stopped(r.None?)
      ensures var p := ParseIdents(tokens, old(current), pre);
        && r.Some? == p.Some?
        && (p.Some? ==> ids == p.value.0 && r.value == (Join(ids), ClassifyAll(ids)) && current == p.value.1)
    {
      hide ParseIdents, ParsePreIdent, ParseBuildIdent, Closed, Join, ClassifyAll, Classify;
      var tag: string, idents: seq<Ident> := [], [];
      ids := [];
      EmptyTag();
      ghost var whole := ParseIdents(tokens, current, pre);
      assert whole == ResumeIds([], whole) by {
        assert whole.Some? ==> [] + whole.value.0 == whole.value.0;
      }
      var more := true;
      while more
        invariant Ready() && tag == Join(ids) && idents == ClassifyAll(ids) && (ids != [] ==> tag != [])
        invariant whole == if more then ResumeIds(ids, ParseIdents(tokens, current, pre)) else Some((ids, current))
        decreases |tokens| - current, more
      {
        if tag != [] {
          tag := tag + ".";
        }
        ResumeIdsStep(tokens, current, pre, ids);
        ghost var at := current;
        var id := ParseIdentifier(pre);
        if id.None? {
          return None, ids;
        }
        IdentifierChars(tokens, at, pre);
        JoinSnoc(ids, id.value);
        ClassifySnoc(ids, id.value);
        tag := tag + id.value;
        var ident := MakeIdentifier(id.value);
        idents := idents + [ident];
        ids := ids + [id.value];
        var t;
        more, t := AdvanceIfMatch(KDot);
      }
      return Some((tag, idents)), ids;
    }

    method ParseNumbers() returns (r: Option<(nat, nat, nat)>)
      requires Ready()
      modifies this
      ensures Stopped(r.None?)
      ensures var p := ParseTriple(tokens, old(current));
        && r == (if p.None? then None else Some(p.value.0))
        && (p.Some? ==> current == p.value.1)
    {
      hide Fn.ParseNumber, Closed;
      var major := ParseNumber();
      if major.None? {
        return None;
      }
      var dot := Consume(KDot);
      EndIsLast(tokens, current - 1);
      if !dot {
        return None;
      }
      assert tokens[current - 1] == Dot;
      var minor := ParseNumber();
      if minor.None? {
        return None;
      }
      dot := Consume(KDot);
      EndIsLast(tokens, current - 1);
      if !dot {
        return None;
      }
      assert tokens[current - 1] == Dot;
      var patch := ParseNumber();
      if patch.None? {
        return None;
      }
      return Some((major.value, minor.value, patch.value));
    }

    method ParseVersion() returns (r: Option<Version>)
      requires Ready()
      modifies this
      ensures Stopped(r.None?)
      ensures var p := Fn.ParseVersion(tokens, old(current));
        && r == (if p.None? then None else Some(p.value.0))
        && (p.Some? ==> current == p.value.1)
    {
      hide ParseTriple, ParseIdents, Closed, Join, ClassifyAll;
      var numbers := ParseNumbers();
      if numbers.None? {
        return None;
      }
      var tag: (string, seq<Ident>), build: (string, seq<Ident>) := ("", []), ("", []);
      ghost var pre: seq<string>, meta: seq<string> := [], [];
      assert tag.0 == Join(pre) && tag.1 == ClassifyAll(pre) by {
        EmptyTag();
      }
      var marked, t := AdvanceIfMatch(KHyphen);
      if marked {
        var section;
        section, pre := ParseTag(true);
        if section.None? {
          return None;
        }
        tag := section.value;
      }
      marked, t := AdvanceIfMatch(KPlus);
      if marked {
        var section;
        section, meta := ParseTag(false);
        if section.None? {
          return None;
        }
        build := section.value;
      }
      return Some(Version(numbers.value.0, numbers.value.1, numbers.value.2, tag.0, build.0, tag.1));
    }
  }

  lemma EmptyTag()
    ensures Join([]) == "" && ClassifyAll([]) == []
  {
  }

  lemma EndIsLast(ts: seq<Token>, i: nat)
    requires Closed(ts) && i < |ts|
    ensures i + 1 == |ts| <==> ts[i] == Eol
  {
  }

  /** `semver::parse` of a whole text: the grammar theorem of `SemverGrammar` is about this method. */
  method ParseText(text: string) returns (r: Option<Version>)
    ensures r == Parse(text)
  {
    hide Lex, Closed, Fn.ParseVersion;
    var tokens := ScanTokens(text);
    if tokens.None? {
      return None;
    }
    var stream := new TokenStream(tokens.value);
    r := stream.ParseVersion();
    if r.None? {
      return None;
    }
    var atEnd := stream.Consume(KEol);
    if !atEnd {
      return None;
    }
  }
}
