/** CBOR data items as sections 3, 3.1 and 4.1 of RFC 8949 define them: heads in shortest form, and a
    stream decoder that takes one head (with its string) at a time and reports it as an event. */
module Cbor {

  type byte = n: nat | n < 256

  const W8 := 0x100
  const W16 := 0x1_0000
  const W32 := 0x1_0000_0000
  const W64 := 0x1_0000_0000_0000_0000

  /** The conversion of an unsigned 64-bit value to a signed one. */
  function ToInt64(n: int): (r: int)
    ensures -0x8000_0000_0000_0000 <= r < 0x8000_0000_0000_0000
    ensures -0x8000_0000_0000_0000 <= n < 0x8000_0000_0000_0000 ==> r == n
  {
    var low := n % W64;
    if low < 0x8000_0000_0000_0000 then low else low - W64
  }

  /** What the decoder calls back with.  `width` is the size of the argument in bytes: there is one
      callback per width.  `Ignored` is a head the program does not listen to. */
  datatype Event =
    | Uint(width: nat, n: nat)
    | NegInt(width: nat, n: nat)
    | Bytes(data: seq<byte>)
    | Text(data: seq<byte>)
    | ArrayStart(size: nat)
    | MapStart(size: nat)
    | Bool(b: bool)
    | Null
    | Ignored

  datatype Decoded = Item(event: Event, read: nat) | NeedData | Malformed

  // ---------------------------------------------------------------- big-endian arguments

  function BigEndian(n: nat, k: nat): (s: seq<byte>)
    ensures |s| == k
  {
    if k == 0 then [] else BigEndian(n / 256, k - 1) + [n % 256]
  }

  function FromBigEndian(s: seq<byte>): nat {
    if s == [] then 0 else FromBigEndian(s[..|s| - 1]) * 256 + s[|s| - 1]
  }

  function Pow256(k: nat): nat {
    if k == 0 then 1 else 256 * Pow256(k - 1)
  }

  lemma {:induction false} BigEndianRoundTrip(n: nat, k: nat)
    requires n < Pow256(k)
    ensures FromBigEndian(BigEndian(n, k)) == n
  {
    if k > 0 {
      assert BigEndian(n, k)[..k - 1] == BigEndian(n / 256, k - 1);
      BigEndianRoundTrip(n / 256, k - 1);
    }
  }

  lemma Powers()
    ensures Pow256(1) == W8 && Pow256(2) == W16 && Pow256(4) == W32 && Pow256(8) == W64
  {
    assert Pow256(4) == W32;
    assert Pow256(6) == 0x1_0000_0000_0000;
  }

  // ---------------------------------------------------------------- heads

  /** Argument bytes after the initial byte in shortest form. */
  function ArgBytes(n: nat): (k: nat)
    ensures k == 0 || k == 1 || k == 2 || k == 4 || k == 8
  {
    if n < 24 then 0 else if n < W8 then 1 else if n < W16 then 2 else if n < W32 then 4 else 8
  }

  function WidthOf(n: nat): nat {
    if ArgBytes(n) == 0 then 1 else ArgBytes(n)
  }

  /** The additional information that announces `k` argument bytes. */
  function InfoFor(k: nat): nat {
    if k == 1 then 24 else if k == 2 then 25 else if k == 4 then 26 else 27
  }

  function Head(major: nat, n: nat): (s: seq<byte>)
    requires major < 8 && n < W64
    ensures |s| == 1 + ArgBytes(n)
  {
    var k := ArgBytes(n);
    if k == 0 then [major * 32 + n] else [major * 32 + InfoFor(k)] + BigEndian(n, k)
  }

  // ---------------------------------------------------------------- decoding

  /** How many argument bytes additional information announces; none for reserved or indefinite ones. */
  function Announced(info: nat): int {
    if info < 24 then 0 else if info == 24 then 1 else if info == 25 then 2
    else if info == 26 then 4 else if info == 27 then 8 else -1
  }

  /** The event of a complete head, `rest` being what follows it and `h` its length. */
  function Payload(major: nat, info: nat, width: nat, n: nat, rest: seq<byte>, h: nat): Decoded {
    match major
    case 0 => Item(Uint(width, n), h)
    case 1 => Item(NegInt(width, n), h)
    case 2 => if |rest| < n then NeedData else Item(Bytes(rest[..n]), h + n)
    case 3 => if |rest| < n then NeedData else Item(Text(rest[..n]), h + n)
    case 4 => Item(ArrayStart(n), h)
    case 5 => Item(MapStart(n), h)
    case _ =>
      if major == 7 && (info == 20 || info == 21) then Item(Bool(info == 21), h)
      else if major == 7 && info == 22 then Item(Null, h)
      else Item(Ignored, h)
  }

  function Decode(s: seq<byte>): (d: Decoded)
    ensures d.Item? ==> 1 <= d.read <= |s|
  {
    if s == [] then NeedData
    else
      var (major, info) := (s[0] / 32, s[0] % 32);
      var k := Announced(info);
      if k < 0 then
        if info == 31 && (2 <= major <= 5 || major == 7) then Item(Ignored, 1) else Malformed
      else if |s| < 1 + k then NeedData
      else
        var n := if k == 0 then info else FromBigEndian(s[1..1 + k]);
        Payload(major, info, if k == 0 then 1 else k, n, s[1 + k..], 1 + k)
  }

  function TwoBytes(s: seq<byte>, i: nat): nat
    requires i + 2 <= |s|
  {
    W8 * s[i] + s[i + 1]
  }

  function FourBytes(s: seq<byte>, i: nat): nat
    requires i + 4 <= |s|
  {
    W16 * TwoBytes(s, i) + TwoBytes(s, i + 2)
  }

  /** Whether the head is whole, its argument, and how many bytes it has.  Arguments are big-endian. */
  function Argument(s: seq<byte>): (r: (bool, nat, nat))
    requires s != []
  {
    var info := s[0] % 0x20;
    if info < 24 then (true, info, 1)
    else if info == 24 && |s| >= 2 then (true, s[1], 2)
    else if info == 25 && |s| >= 3 then (true, TwoBytes(s, 1), 3)
    else if info == 26 && |s| >= 5 then (true, FourBytes(s, 1), 5)
    else if info == 27 && |s| >= 9 then (true, W32 * FourBytes(s, 1) + FourBytes(s, 5), 9)
    else (false, 0, 0)
  }

  /** The first byte says what an item is: the table of appendix B of RFC 8949, as far as the program
      listens. */
  lemma JumpTable(s: seq<byte>)
    requires s != [] && Argument(s).0
    ensures var (_, n, h) := Argument(s);
      && (s[0] <= 0x1B ==> exists width :: Decode(s) == Item(Uint(width, n), h))
      && (0x20 <= s[0] <= 0x3B ==> exists width :: Decode(s) == Item(NegInt(width, n), h))
      && (0x40 <= s[0] <= 0x5B ==> Decode(s) == if |s| < h + n then NeedData else Item(Bytes(s[h..h + n]), h + n))
      && (0x60 <= s[0] <= 0x7B ==> Decode(s) == if |s| < h + n then NeedData else Item(Text(s[h..h + n]), h + n))
      && (0x80 <= s[0] <= 0x9B ==> Decode(s) == Item(ArrayStart(n), h))
      && (0xA0 <= s[0] <= 0xBB ==> Decode(s) == Item(MapStart(n), h))
      && (s[0] == 0xF4 ==> Decode(s) == Item(Bool(false), 1))
      && (s[0] == 0xF5 ==> Decode(s) == Item(Bool(true), 1))
      && (s[0] == 0xF6 ==> Decode(s) == Item(Null, 1))
  {
    var k := Announced(s[0] % 0x20);
    var h := 1 + k;
    ArgumentIs(s);
    hide FromBigEndian, Argument, Announced;
    var n := Argument(s).1;
    assert Decode(s) == Payload(s[0] / 32, s[0] % 32, if k == 0 then 1 else k, n, s[h..], h);
    hide Decode;
    assert |s[h..]| >= n ==> s[h..][..n] == s[h..h + n];
  }

  lemma ArgumentIs(s: seq<byte>)
    requires s != [] && Argument(s).0
    ensures var (_, n, h) := Argument(s);
      var k := Announced(s[0] % 0x20);
      0 <= k < |s| && h == 1 + k && n == if k == 0 then s[0] % 0x20 else FromBigEndian(s[1..1 + k])
  {
    var k := Announced(s[0] % 0x20);
    hide FromBigEndian;
    if k > 0 {
      FromBytes(s, 1, k);
    }
  }

  lemma FromBytes(s: seq<byte>, i: nat, k: nat)
    requires i + k <= |s|
    ensures k == 1 ==> FromBigEndian(s[i..i + k]) == s[i]
    ensures k == 2 ==> FromBigEndian(s[i..i + k]) == TwoBytes(s, i)
    ensures k == 4 ==> FromBigEndian(s[i..i + k]) == FourBytes(s, i)
    ensures k == 8 ==> FromBigEndian(s[i..i + k]) == W32 * FourBytes(s, i) + FourBytes(s, i + 4)
  {
    hide FromBigEndian, TwoBytes, FourBytes;
    if k == 1 {
      FromOne(s, i);
    } else if k == 2 {
      FromTwo(s, i);
    } else if k == 4 {
      FromFour(s, i);
    } else if k == 8 {
      FromEight(s, i);
    }
  }

  lemma FromOne(s: seq<byte>, i: nat)
    requires i + 1 <= |s|
    ensures FromBigEndian(s[i..i + 1]) == s[i]
  {
    NoArgument();
    hide FromBigEndian;
    FromSnoc(s, i, 0);
    assert s[i..i] == [];
  }

  lemma FromTwo(s: seq<byte>, i: nat)
    requires i + 2 <= |s|
    ensures FromBigEndian(s[i..i + 2]) == TwoBytes(s, i)
  {
    hide FromBigEndian;
    FromOne(s, i);
    FromSnoc(s, i, 1);
  }

  lemma FromFour(s: seq<byte>, i: nat)
    requires i + 4 <= |s|
    ensures FromBigEndian(s[i..i + 4]) == FourBytes(s, i)
  {
    hide FromBigEndian;
    FromTwo(s, i);
    FromSnoc(s, i, 2);
    FromSnoc(s, i, 3);
  }

  lemma FromEight(s: seq<byte>, i: nat)
    requires i + 8 <= |s|
    ensures FromBigEndian(s[i..i + 8]) == W32 * FourBytes(s, i) + FourBytes(s, i + 4)
  {
    hide FromBigEndian;
    FromFour(s, i);
    FromSnoc(s, i, 4);
    FromSnoc(s, i, 5);
    FromSnoc(s, i, 6);
    FromSnoc(s, i, 7);
  }

  lemma FromSnoc(s: seq<byte>, i: nat, k: nat)
    requires i + k < |s|
    ensures FromBigEndian(s[i..i + k + 1]) == FromBigEndian(s[i..i + k]) * 256 + s[i + k]
  {
    var t := s[i..i + k + 1];
    assert t[..|t| - 1] == s[i..i + k] && t[|t| - 1] == s[i + k];
  }

  /** An item that is complete is the same item whatever follows it. */
  lemma DecodeExtends(s: seq<byte>, more: seq<byte>)
    requires Decode(s).Item?
    ensures Decode(s + more) == Decode(s)
  {
    hide FromBigEndian;
    var k := Announced(s[0] % 32);
    if k >= 0 {
      var h := 1 + k;
      assert (s + more)[1..h] == s[1..h];
      assert (s + more)[h..] == s[h..] + more;
      var n := if k == 0 then s[0] % 32 else FromBigEndian(s[1..h]);
      if (s[0] / 32 == 2 || s[0] / 32 == 3) && n <= |s[h..]| {
        assert (s[h..] + more)[..n] == s[h..][..n];
      }
    }
  }

  // ---------------------------------------------------------------- one item

  /** Events a writer can produce, in shortest form. */
  predicate Canonical(e: Event) {
    match e
    case Uint(width, n) => n < W64 && width == WidthOf(n)
    case NegInt(width, n) => n < W64 && width == WidthOf(n)
    case Bytes(data) => |data| < W64
    case Text(data) => |data| < W64
    case ArrayStart(size) => size < W64
    case MapStart(size) => size < W64
    case Bool(_) => true
    case Null => true
    case Ignored => false
  }

  function Encode(e: Event): (s: seq<byte>)
    requires Canonical(e)
    ensures s != []
  {
    match e
    case Uint(_, n) => Head(0, n)
    case NegInt(_, n) => Head(1, n)
    case Bytes(data) => Head(2, |data|) + data
    case Text(data) => Head(3, |data|) + data
    case ArrayStart(size) => Head(4, size)
    case MapStart(size) => Head(5, size)
    case Bool(b) => [if b then 0xF5 else 0xF4]
    case Null => [0xF6]
  }

  /** The additional information of a shortest head. */
  function InfoOf(n: nat): (info: nat)
    ensures info < 28
  {
    if ArgBytes(n) == 0 then n else InfoFor(ArgBytes(n))
  }

  lemma InitialByte(major: nat, n: nat)
    requires major < 8 && n < W64
    ensures var h := Head(major, n);
      h[0] / 32 == major && h[0] % 32 == InfoOf(n) && Announced(InfoOf(n)) == ArgBytes(n)
  {
  }

  lemma ArgumentDecodes(n: nat)
    requires n < W64
    ensures FromBigEndian(BigEndian(n, ArgBytes(n))) == if ArgBytes(n) == 0 then 0 else n
  {
    Powers();
    hide FromBigEndian, BigEndian, Pow256;
    if ArgBytes(n) > 0 {
      BigEndianRoundTrip(n, ArgBytes(n));
    } else {
      assert FromBigEndian([]) == 0 by {
        NoArgument();
      }
    }
  }

  lemma NoArgument()
    ensures FromBigEndian([]) == 0
  {
  }

  lemma HeadBytes(major: nat, n: nat)
    requires major < 8 && n < W64
    ensures Head(major, n)[1..] == BigEndian(n, ArgBytes(n))
  {
  }

  /** A head decodes to its major type and argument whatever follows. */
  lemma HeadDecodes(major: nat, n: nat, rest: seq<byte>)
    requires major < 7 && n < W64
    ensures Decode(Head(major, n) + rest) == Payload(major, InfoOf(n), WidthOf(n), n, rest, |Head(major, n)|)
  {
    hide FromBigEndian, BigEndian, Pow256, Head, InfoOf, Announced, Payload;
    InitialByte(major, n);
    HeadBytes(major, n);
    ArgumentDecodes(n);
    var s, k := Head(major, n) + rest, ArgBytes(n);
    assert s[1 + k..] == rest && s[1..1 + k] == Head(major, n)[1..];
    if k == 0 {
      assert InfoOf(n) == n by {
        NoArgumentInfo(n);
      }
    }
  }

  lemma NoArgumentInfo(n: nat)
    requires ArgBytes(n) == 0
    ensures InfoOf(n) == n
  {
  }

  /** Encoding then decoding, with anything behind: the same event, and exactly its bytes are read. */
  lemma ItemRoundTrip(e: Event, rest: seq<byte>)
    requires Canonical(e)
    ensures Decode(Encode(e) + rest) == Item(e, |Encode(e)|)
  {
    hide Head, Decode;
    match e
    case Uint(_, n) => HeadDecodes(0, n, rest);
    case NegInt(_, n) => HeadDecodes(1, n, rest);
    case ArrayStart(size) => HeadDecodes(4, size, rest);
    case MapStart(size) => HeadDecodes(5, size, rest);
    case Bytes(data) =>
      HeadDecodes(2, |data|, data + rest);
      assert Head(2, |data|) + data + rest == Head(2, |data|) + (data + rest);
      assert (data + rest)[..|data|] == data;
    case Text(data) =>
      HeadDecodes(3, |data|, data + rest);
      assert Head(3, |data|) + data + rest == Head(3, |data|) + (data + rest);
      assert (data + rest)[..|data|] == data;
    case Bool(b) => SimpleDecodes(b, rest);
    case Null => SimpleDecodes(false, rest);
  }

  lemma SimpleDecodes(b: bool, rest: seq<byte>)
    ensures Decode(Encode(Bool(b)) + rest) == Item(Bool(b), 1)
    ensures Decode(Encode(Null) + rest) == Item(Null, 1)
  {
  }

  lemma HeadPrefix(major: nat, n: nat, k: nat)
    requires major < 7 && n < W64 && k < |Head(major, n)|
    ensures Decode(Head(major, n)[..k]) == NeedData
  {
    hide FromBigEndian, BigEndian, Head, InfoOf, Announced, Payload;
    InitialByte(major, n);
  }

  /** Any proper beginning of an item asks for more data. */
  lemma ItemPrefix(e: Event, k: nat)
    requires Canonical(e) && k < |Encode(e)|
    ensures Decode(Encode(e)[..k]) == NeedData
  {
    hide Head, Decode;
    match e
    case Uint(_, n) => HeadPrefix(0, n, k);
    case NegInt(_, n) => HeadPrefix(1, n, k);
    case ArrayStart(size) => HeadPrefix(4, size, k);
    case MapStart(size) => HeadPrefix(5, size, k);
    case Bytes(data) => StringPrefix(2, data, k);
    case Text(data) => StringPrefix(3, data, k);
    case Bool(b) => EmptyNeedsData();
    case Null => EmptyNeedsData();
  }

  lemma EmptyNeedsData()
    ensures Decode([]) == NeedData
  {
  }

  lemma StringPrefix(major: nat, data: seq<byte>, k: nat)
    requires (major == 2 || major == 3) && |data| < W64 && k < |Head(major, |data|)| + |data|
    ensures Decode((Head(major, |data|) + data)[..k]) == NeedData
  {
    hide Head, Decode;
    var h := Head(major, |data|);
    if k < |h| {
      assert (h + data)[..k] == h[..k];
      HeadPrefix(major, |data|, k);
    } else {
      assert (h + data)[..k] == h + data[..k - |h|];
      HeadDecodes(major, |data|, data[..k - |h|]);
    }
  }

  // ---------------------------------------------------------------- sequences of items

  predicate AllCanonical(es: seq<Event>) {
    forall i :: 0 <= i < |es| ==> Canonical(es[i])
  }

  function EncodeAll(es: seq<Event>): seq<byte>
    requires AllCanonical(es)
  {
    if es == [] then [] else Encode(es[0]) + EncodeAll(es[1..])
  }

  lemma {:induction false} EncodeAllConcat(a: seq<Event>, b: seq<Event>)
    requires AllCanonical(a) && AllCanonical(b)
    ensures AllCanonical(a + b) && EncodeAll(a + b) == EncodeAll(a) + EncodeAll(b)
    decreases |a|
  {
    hide Encode, Canonical;
    if a == [] {
      assert a + b == b;
    } else {
      assert (a + b)[1..] == a[1..] + b;
      EncodeAllConcat(a[1..], b);
      assert (a + b)[0] == a[0];
    }
  }

  /** A proper beginning of the bytes of several items is some whole items and a proper beginning of the
      next. */
  lemma {:induction false} CutAt(es: seq<Event>, k: nat) returns (i: nat, part: seq<byte>)
    requires AllCanonical(es) && k < |EncodeAll(es)|
    ensures i < |es| && EncodeAll(es)[..k] == EncodeAll(es[..i]) + part
    ensures |part| < |Encode(es[i])| && part == Encode(es[i])[..|part|] && Decode(part) == NeedData
    decreases |es|
  {
    hide Decode, Encode, Canonical;
    var head := Encode(es[0]);
    if k < |head| {
      i, part := 0, head[..k];
      ItemPrefix(es[0], k);
      assert EncodeAll(es)[..k] == part;
      assert EncodeAll(es[..0]) == [];
    } else {
      var j;
      j, part := CutAt(es[1..], k - |head|);
      i := j + 1;
      assert EncodeAll(es)[..k] == head + EncodeAll(es[1..])[..k - |head|];
      assert es[..i][1..] == es[1..][..j] && es[..i][0] == es[0];
      assert EncodeAll(es[..i]) == head + EncodeAll(es[1..][..j]);
    }
  }

  lemma EncodeAllSingle(e: Event)
    requires Canonical(e)
    ensures AllCanonical([e]) && EncodeAll([e]) == Encode(e)
  {
    assert EncodeAll([e][1..]) == [];
  }

  // ---------------------------------------------------------------- how the program uses it

  predicate IsInt32(n: int) {
    -0x8000_0000 <= n < 0x8000_0000
  }

  predicate IsInt64(n: int) {
    -0x8000_0000_0000_0000 <= n < 0x8000_0000_0000_0000
  }

  function UintEvent(n: nat): Event {
    Uint(WidthOf(n), n)
  }

  function NegEvent(n: nat): Event {
    NegInt(WidthOf(n), n)
  }

  /** Adding a major type to the first byte of an encoded unsigned number. */
  function WithMajor(head: seq<byte>, add: nat): seq<byte>
    requires head != [] && head[0] + add < 256
  {
    [head[0] + add] + head[1..]
  }

  lemma AddMajor(major: nat, n: nat)
    requires major < 7 && n < W64
    ensures Head(0, n)[0] < 32 && WithMajor(Head(0, n), 32 * major) == Head(major, n)
  {
    hide BigEndian;
  }

  /** What the integer callbacks hand on.  The one for a negative number of four bytes subtracts in
      unsigned 32-bit arithmetic and widens the result. */
  function CallbackInt(negative: bool, width: nat, n: nat): int {
    if !negative then (if width == 8 then ToInt64(n) else n)
    else if width == 4 then (-1 - n) % W32
    else if width == 8 then -1 - ToInt64(n)
    else -1 - n
  }
}
