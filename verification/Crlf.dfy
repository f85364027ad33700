/** The digest of a file: its bytes are fed in buffers, with each CR LF pair replaced by LF.  The digest
    itself is modelled as the log of the bytes it was fed. */
module Crlf {
  import opened Basics
  import Cbor

  type byte = Cbor.byte

  const CR: byte := 13
  const LF: byte := 10

  // ---------------------------------------------------------------- what is to be fed

  function Normalize(s: seq<byte>): seq<byte> {
    if s == [] then []
    else if s[0] == CR && |s| > 1 && s[1] == LF then [LF] + Normalize(s[2..])
    else [s[0]] + Normalize(s[1..])
  }

  predicate EndsInCr(s: seq<byte>) {
    s != [] && s[|s| - 1] == CR
  }

  predicate StartsWithLf(s: seq<byte>) {
    s != [] && s[0] == LF
  }

  lemma NormalizeStep(s: seq<byte>)
    requires s != []
    ensures var pair := s[0] == CR && |s| > 1 && s[1] == LF;
      Normalize(s) == if pair then [LF] + Normalize(s[2..]) else [s[0]] + Normalize(s[1..])
  {
  }

  /** A text can be normalised in parts unless the cut goes through a pair. */
  lemma {:induction false} NormalizeParts(a: seq<byte>, b: seq<byte>)
    requires !(EndsInCr(a) && StartsWithLf(b))
    ensures Normalize(a + b) == Normalize(a) + Normalize(b)
    decreases |a|
  {
    assert Normalize([]) == [];
    hide Normalize;
    if a == [] {
      assert a + b == b;
    } else {
      NormalizeStep(a);
      NormalizeStep(a + b);
      if a[0] == CR && |a| > 1 && a[1] == LF {
        assert (a + b)[2..] == a[2..] + b;
        NormalizeParts(a[2..], b);
      } else {
        assert (a + b)[1..] == a[1..] + b;
        NormalizeParts(a[1..], b);
      }
    }
  }

  lemma NormalizeOne(c: byte)
    ensures Normalize([c]) == [c]
  {
  }

  lemma NormalizePair()
    ensures Normalize([CR, LF]) == [LF]
  {
  }

  // ---------------------------------------------------------------- the loops

  /** What has been fed of a text while its last byte may still be held back. */
  predicate Fed(log: seq<byte>, text: seq<byte>, pending: bool) {
    if pending then EndsInCr(text) && log == Normalize(text[..|text| - 1]) else !EndsInCr(text) && log == Normalize(text)
  }

  /** Inside a buffer: the plain bytes from `start` are still to be fed. */
  predicate Feeding(log: seq<byte>, before: seq<byte>, buffer: seq<byte>, start: nat, i: nat, pending: bool) {
    && start <= i <= |buffer|
    && (if pending
        then (i == 0 || i == |buffer|) && start == i && Fed(log, before + buffer[..i], true)
        else log + buffer[start..i] == Normalize(before + buffer[..i])
             && (EndsInCr(before + buffer[..i]) ==> i < |buffer| && buffer[i] != LF))
  }

  /** One more byte that needs no care. */
  lemma PlainByte(log: seq<byte>, before: seq<byte>, buffer: seq<byte>, start: nat, i: nat)
    requires Feeding(log, before, buffer, start, i, false) && i < |buffer| && buffer[i] != CR
    ensures Feeding(log, before, buffer, start, i + 1, false)
  {
    hide Normalize;
    var text := before + buffer[..i];
    assert before + buffer[..i + 1] == text + [buffer[i]];
    NormalizeParts(text, [buffer[i]]);
    NormalizeOne(buffer[i]);
    assert buffer[start..i + 1] == buffer[start..i] + [buffer[i]];
    assert log + buffer[start..i + 1] == (log + buffer[start..i]) + [buffer[i]];
  }

  /** The first byte of a buffer settles what a CR held back from the one before was. */
  lemma HeldCr(log: seq<byte>, before: seq<byte>, buffer: seq<byte>)
    requires Fed(log, before, true) && buffer != []
    ensures buffer[0] == LF ==> Feeding(log + [LF], before, buffer, 1, 1, false)
    ensures buffer[0] != LF ==> Feeding(log + [CR], before, buffer, 0, 0, false)
  {
    hide Normalize;
    var text := before[..|before| - 1];
    assert before == text + [CR];
    NormalizePair();
    NormalizeOne(CR);
    if buffer[0] == LF {
      NormalizeParts(text, [CR, LF]);
      assert before + buffer[..1] == text + [CR, LF];
      assert log + [LF] + buffer[1..1] == log + [LF];
    } else {
      NormalizeParts(text, [CR]);
      assert before + buffer[..0] == before;
      assert log + [CR] + buffer[0..0] == log + [CR];
    }
  }

  /** A CR inside a buffer, with the bytes before it fed. */
  lemma FoundCr(log: seq<byte>, before: seq<byte>, buffer: seq<byte>, start: nat, i: nat)
    requires Feeding(log, before, buffer, start, i, false) && i < |buffer| && buffer[i] == CR
    ensures var flushed := log + buffer[start..i];
      && (i + 1 < |buffer| && buffer[i + 1] == LF ==> Feeding(flushed + [LF], before, buffer, i + 2, i + 2, false))
      && (i + 1 < |buffer| && buffer[i + 1] != LF ==> Feeding(flushed + [CR], before, buffer, i + 1, i + 1, false))
      && (i + 1 == |buffer| ==> Feeding(flushed, before, buffer, i + 1, i + 1, true))
  {
    hide Normalize;
    var text, flushed := before + buffer[..i], log + buffer[start..i];
    assert before + buffer[..i + 1] == text + [CR];
    NormalizePair();
    NormalizeOne(CR);
    NormalizeParts(text, [CR]);
    assert flushed + [CR] + buffer[i + 1..i + 1] == flushed + [CR];
    assert (text + [CR])[..|text + [CR]| - 1] == text;
    if i + 1 < |buffer| && buffer[i + 1] == LF {
      NormalizeParts(text, [CR, LF]);
      assert before + buffer[..i + 2] == text + [CR, LF];
      assert flushed + [LF] + buffer[i + 2..i + 2] == flushed + [LF];
    }
  }

  /** One buffer.  `before` is what the earlier ones held. */
  method FeedBuffer(log: seq<byte>, buffer: seq<byte>, pending: bool, ghost before: seq<byte>)
    returns (log': seq<byte>, pending': bool)
    requires Fed(log, before, pending) && buffer != []
    ensures Fed(log', before + buffer, pending')
  {
    hide Normalize, Feeding, Fed;
    log', pending' := log, pending;
    var start, i := 0, 0;
    assert Feeding(log', before, buffer, start, i, pending') by {
      FeedingStarts(log, before, buffer, pending);
    }
    while i < |buffer|
      invariant 0 <= start && 0 <= i <= |buffer| && Feeding(log', before, buffer, start, i, pending')
      invariant start <= i && (pending' ==> i == 0 || i == |buffer|)
    {
      var c := buffer[i];
      if pending' {
        HeldCr(log', before, buffer) by {
          HeldAtStart(log', before, buffer, start);
        }
        // nothing precedes it in this buffer, so there is nothing else to feed first
        assert i == 0;
        if c == LF {
          log' := log' + [LF];
          start := i + 1;
        } else {
          log' := log' + [CR];
          start := i;
        }
        pending' := false;
      }
      if c == CR {
        FoundCr(log', before, buffer, start, i);
        assert i == start ==> log' + buffer[start..i] == log';
        if i > start {
          log' := log' + buffer[start..i];
        }
        if i + 1 < |buffer| {
          if buffer[i + 1] == LF {
            log' := log' + [LF];
            i := i + 1;
            start := i + 1;
          } else {
            log' := log' + [CR];
            start := i + 1;
          }
        } else {
          pending' := true;
          start := i + 1;
        }
      } else if start <= i {
        PlainByte(log', before, buffer, start, i);
      }
      i := i + 1;
    }
    FeedingEnds(log', before, buffer, start, pending');
    if |buffer| > start {
      log' := log' + buffer[start..];
    }
  }

  lemma FeedingStarts(log: seq<byte>, before: seq<byte>, buffer: seq<byte>, pending: bool)
    requires Fed(log, before, pending)
    ensures Feeding(log, before, buffer, 0, 0, pending)
  {
    assert before + buffer[..0] == before;
    assert log + buffer[0..0] == log;
  }

  lemma HeldAtStart(log: seq<byte>, before: seq<byte>, buffer: seq<byte>, start: nat)
    requires Feeding(log, before, buffer, start, 0, true)
    ensures Fed(log, before, true)
  {
    assert before + buffer[..0] == before;
  }

  lemma FeedingEnds(log: seq<byte>, before: seq<byte>, buffer: seq<byte>, start: nat, pending: bool)
    requires Feeding(log, before, buffer, start, |buffer|, pending)
    ensures start <= |buffer| && Fed(log + buffer[start..], before + buffer, pending)
    ensures start == |buffer| ==> log + buffer[start..] == log
  {
    assert before + buffer[..|buffer|] == before + buffer;
    assert buffer[start..|buffer|] == buffer[start..];
    assert start == |buffer| ==> buffer[start..] == [];
  }

  /** The whole file, however reading cuts it into non-empty buffers. */
  method FeedFile(buffers: seq<seq<byte>>) returns (log: seq<byte>)
    requires forall i :: 0 <= i < |buffers| ==> buffers[i] != []
    ensures log == Normalize(Concat(buffers))
  {
    log := [];
    var pending := false;
    for i := 0 to |buffers|
      invariant Fed(log, Concat(buffers[..i]), pending)
    {
      assert buffers[..i + 1][..i] == buffers[..i];
      log, pending := FeedBuffer(log, buffers[i], pending, Concat(buffers[..i]));
    }
    assert buffers[..|buffers|] == buffers;
    if pending {
      ghost var text := Concat(buffers);
      assert text == text[..|text| - 1] + [CR];
      NormalizeOne(CR);
      NormalizeParts(text[..|text| - 1], [CR]);
      log := log + [CR];
    }
  }

  // ---------------------------------------------------------------- what normalising means

  /** The bytes of `s` without each CR that stands before an LF. */
  function Deleted(s: seq<byte>, i: nat): seq<byte>
    requires i <= |s|
    decreases |s| - i
  {
    if i == |s| then []
    else if s[i] == CR && i + 1 < |s| && s[i + 1] == LF then Deleted(s, i + 1)
    else [s[i]] + Deleted(s, i + 1)
  }

  lemma {:induction false} NormalizeDeletes(s: seq<byte>, i: nat)
    requires i <= |s|
    ensures Normalize(s[i..]) == Deleted(s, i)
    decreases |s| - i
  {
    if i < |s| {
      assert s[i..][1..] == s[i + 1..];
      NormalizeDeletes(s, i + 1);
      if s[i] == CR && i + 1 < |s| && s[i + 1] == LF {
        assert s[i..][2..] == s[i + 2..];
        NormalizeDeletes(s, i + 2);
      }
    }
  }

  /** Line ends as the other convention writes them. */
  function ToCrlf(s: seq<byte>): seq<byte> {
    if s == [] then [] else (if s[0] == LF then [CR, LF] else [s[0]]) + ToCrlf(s[1..])
  }

  /** The digest does not see which convention a file was written in. */
  lemma {:induction false} NormalizeToCrlf(s: seq<byte>)
    ensures Normalize(ToCrlf(s)) == s
    decreases |s|
  {
    if s != [] {
      var head, rest := if s[0] == LF then [CR, LF] else [s[0]], ToCrlf(s[1..]);
      NormalizeToCrlf(s[1..]);
      assert !StartsWithLf(rest);
      NormalizeOne(s[0]);
      NormalizePair();
      NormalizeParts(head, rest);
    }
  }

  predicate HasPair(s: seq<byte>) {
    exists i :: 0 <= i < |s| - 1 && s[i] == CR && s[i + 1] == LF
  }

  predicate HasTriple(s: seq<byte>) {
    exists i :: 0 <= i < |s| - 2 && s[i] == CR && s[i + 1] == CR && s[i + 2] == LF
  }

  lemma {:induction false} NormalizeShortens(s: seq<byte>)
    ensures |Normalize(s)| <= |s|
    ensures HasPair(s) ==> |Normalize(s)| < |s|
    ensures !HasPair(s) ==> Normalize(s) == s
    decreases |s|
  {
    if s != [] {
      if s[0] == CR && |s| > 1 && s[1] == LF {
        NormalizeShortens(s[2..]);
        assert HasPair(s);
      } else {
        NormalizeShortens(s[1..]);
        PairTail(s);
      }
    }
  }

  lemma PairTail(s: seq<byte>)
    requires s != [] && !(s[0] == CR && |s| > 1 && s[1] == LF)
    ensures HasPair(s) <==> HasPair(s[1..])
  {
    if i :| 0 <= i < |s| - 1 && s[i] == CR && s[i + 1] == LF {
      assert s[1..][i - 1] == CR && s[1..][i - 1 + 1] == LF;
    }
    if i :| 0 <= i < |s[1..]| - 1 && s[1..][i] == CR && s[1..][i + 1] == LF {
      assert s[i + 1] == CR && s[i + 1 + 1] == LF;
    }
  }

  lemma {:induction false} PairsLeft(s: seq<byte>)
    ensures HasPair(Normalize(s)) <==> HasTriple(s)
    ensures StartsWithLf(Normalize(s)) <==> StartsWithLf(s) || (|s| > 1 && s[0] == CR && s[1] == LF)
    decreases |s|
  {
    if s != [] {
      var k := if s[0] == CR && |s| > 1 && s[1] == LF then 2 else 1;
      PairsLeft(s[k..]);
      hide HasPair, HasTriple;
      PairCons(Normalize(s)[0], Normalize(s[k..]));
      assert Normalize(s) == [Normalize(s)[0]] + Normalize(s[k..]);
      TripleTail(s, k);
    }
  }

  lemma PairCons(c: byte, t: seq<byte>)
    ensures HasPair([c] + t) <==> HasPair(t) || (c == CR && StartsWithLf(t))
  {
    var s := [c] + t;
    assert s[1..] == t;
    if c == CR && StartsWithLf(t) {
      assert s[0] == CR && s[0 + 1] == LF;
    } else {
      PairTail(s);
    }
  }

  lemma TripleTail(s: seq<byte>, k: nat)
    requires s != [] && k == if s[0] == CR && |s| > 1 && s[1] == LF then 2 else 1
    ensures HasTriple(s) <==> HasTriple(s[k..]) || (k == 1 && s[0] == CR && |s| > 2 && s[1] == CR && s[2] == LF)
  {
    if i :| 0 <= i < |s| - 2 && s[i] == CR && s[i + 1] == CR && s[i + 2] == LF {
      if i >= k {
        assert s[k..][i - k] == CR && s[k..][i - k + 1] == CR && s[k..][i - k + 2] == LF;
      }
    }
    if i :| 0 <= i < |s[k..]| - 2 && s[k..][i] == CR && s[k..][i + 1] == CR && s[k..][i + 2] == LF {
      assert s[i + k] == CR && s[i + k + 1] == CR && s[i + k + 2] == LF;
    }
    if k == 1 && s[0] == CR && |s| > 2 && s[1] == CR && s[2] == LF {
      assert s[0 + 1] == CR && s[0 + 2] == LF;
    }
  }

  /** Normalising twice differs from once exactly for texts with CR CR LF. */
  lemma IdempotentIff(s: seq<byte>)
    ensures Normalize(Normalize(s)) == Normalize(s) <==> !HasTriple(s)
  {
    hide Normalize, HasPair, HasTriple;
    PairsLeft(s);
    NormalizeShortens(Normalize(s));
  }
}
