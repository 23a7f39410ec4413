/**
 UTF-8 (sections 3 and 4 of RFC 3629) and the incremental decoder text-mode readers use: each call
 decodes what it can of the kept bytes and the new chunk, and keeps an incomplete last character.
 */
module Utf8 {
  import opened Options

  type Byte = b: int | 0 <= b < 256

  predicate IsScalar(c: int) {
    0 <= c < 0xD800 || 0xE000 <= c < 0x110000
  }

  /** What stands at the front of some bytes. */
  datatype Head = Incomplete | Malformed | Character(scalar: int, length: nat)

  predicate IsTail(b: Byte) {
    0x80 <= b < 0xC0
  }

  /** The second byte of a three-byte character: no overlong forms, no surrogates. */
  predicate IsSecondOfThree(first: Byte, b: Byte) {
    IsTail(b) && (first == 0xE0 ==> b >= 0xA0) && (first == 0xED ==> b < 0xA0)
  }

  /** The second byte of a four-byte character: no overlong forms, nothing above U+10FFFF. */
  predicate IsSecondOfFour(first: Byte, b: Byte) {
    IsTail(b) && (first == 0xF0 ==> b >= 0x90) && (first == 0xF4 ==> b < 0x90)
  }

  function TwoBytes(x: int, y: int): int {
    (x - 0xC0) * 0x40 + (y - 0x80)
  }

  function ThreeBytes(x: int, y: int, z: int): int {
    (x - 0xE0) * 0x1000 + (y - 0x80) * 0x40 + (z - 0x80)
  }

  function FourBytes(x: int, y: int, z: int, w: int): int {
    (x - 0xF0) * 0x40000 + (y - 0x80) * 0x1000 + (z - 0x80) * 0x40 + (w - 0x80)
  }

  function ScanTwo(b: seq<Byte>): Head
    requires |b| > 0 && 0xC2 <= b[0] < 0xE0
  {
    if |b| < 2 then Incomplete
    else if !IsTail(b[1]) then Malformed
    else Character(TwoBytes(b[0], b[1]), 2)
  }

  function ScanThree(b: seq<Byte>): Head
    requires |b| > 0 && 0xE0 <= b[0] < 0xF0
  {
    if |b| < 2 then Incomplete
    else if !IsSecondOfThree(b[0], b[1]) then Malformed
    else if |b| < 3 then Incomplete
    else if !IsTail(b[2]) then Malformed
    else Character(ThreeBytes(b[0], b[1], b[2]), 3)
  }

  function ScanFour(b: seq<Byte>): Head
    requires |b| > 0 && 0xF0 <= b[0] < 0xF5
  {
    if |b| < 2 then Incomplete
    else if !IsSecondOfFour(b[0], b[1]) then Malformed
    else if |b| < 3 then Incomplete
    else if !IsTail(b[2]) then Malformed
    else if |b| < 4 then Incomplete
    else if !IsTail(b[3]) then Malformed
    else Character(FourBytes(b[0], b[1], b[2], b[3]), 4)
  }

  function Scan(b: seq<Byte>): (head: Head)
    ensures head.Character? ==> 0 < head.length <= |b|
    ensures b == [] ==> head == Incomplete
  {
    if b == [] then Incomplete
    else if b[0] < 0x80 then Character(b[0], 1)
    else if 0xC2 <= b[0] < 0xE0 then ScanTwo(b)
    else if 0xE0 <= b[0] < 0xF0 then ScanThree(b)
    else if 0xF0 <= b[0] < 0xF5 then ScanFour(b)
    else Malformed
  }

  /** The characters at the front of `b` and the incomplete rest; None if a malformed character is met. */
  function DecodePrefix(b: seq<Byte>): (r: Option<(seq<int>, seq<Byte>)>)
    decreases |b|
  {
    match Scan(b)
    case Incomplete => Some(([], b))
    case Malformed => None
    case Character(c, n) =>
      match DecodePrefix(b[n..])
      case None => None
      case Some((cs, rest)) => Some(([c] + cs, rest))
  }

  /** One call of the incremental decoder: the characters and the bytes kept, or an error. */
  function Decode(kept: seq<Byte>, chunk: seq<Byte>, final: bool): Option<(seq<int>, seq<Byte>)> {
    match DecodePrefix(kept + chunk)
    case None => None
    case Some((cs, rest)) => if final && rest != [] then None else Some((cs, rest))
  }

  /** The decoding of a whole byte string. */
  function DecodeAll(b: seq<Byte>): Option<seq<int>> {
    match Decode([], b, true)
    case None => None
    case Some((cs, _)) => Some(cs)
  }

  // Chunks

  lemma ScanIsStable(a: seq<Byte>, b: seq<Byte>)
    ensures !Scan(a).Incomplete? ==> Scan(a + b) == Scan(a)
  {
  }

  /** Decoding a prefix first and the rest later is decoding it all. */
  lemma {:induction false} DecodeInTwo(a: seq<Byte>, b: seq<Byte>)
    ensures DecodePrefix(a).None? ==> DecodePrefix(a + b).None?
    ensures DecodePrefix(a).Some? ==>
      var (cs, rest) := DecodePrefix(a).value;
      match DecodePrefix(rest + b)
      case None => DecodePrefix(a + b).None?
      case Some((ds, last)) => DecodePrefix(a + b) == Some((cs + ds, last))
    decreases |a|
  {
    ScanIsStable(a, b);
    match Scan(a)
    case Incomplete =>
      assert forall ds: seq<int> :: [] + ds == ds;
    case Malformed =>
    case Character(c, n) =>
      assert (a + b)[n..] == a[n..] + b;
      DecodeInTwo(a[n..], b);
      assert forall cs: seq<int>, ds: seq<int> :: [c] + (cs + ds) == ([c] + cs) + ds;
  }

  /** Feed chunks one after another, flushing at the end. */
  function DecodeChunks(kept: seq<Byte>, chunks: seq<seq<Byte>>): Option<seq<int>>
    decreases |chunks|
  {
    if chunks == [] then
      match Decode(kept, [], true)
      case None => None
      case Some((cs, _)) => Some(cs)
    else
      match Decode(kept, chunks[0], false)
      case None => None
      case Some((cs, rest)) =>
        match DecodeChunks(rest, chunks[1..])
        case None => None
        case Some(ds) => Some(cs + ds)
  }

  function Concat(chunks: seq<seq<Byte>>): seq<Byte> {
    if chunks == [] then [] else chunks[0] + Concat(chunks[1..])
  }

  lemma {:induction false} ChunksFromKept(kept: seq<Byte>, chunks: seq<seq<Byte>>)
    ensures DecodeChunks(kept, chunks) == DecodeAll(kept + Concat(chunks))
    decreases |chunks|
  {
    assert forall x: seq<Byte> :: [] + x == x;
    if chunks == [] {
      assert kept + [] == kept;
    } else {
      var a, b := kept + chunks[0], Concat(chunks[1..]);
      assert kept + Concat(chunks) == a + b;
      DecodeInTwo(a, b);
      if DecodePrefix(a).Some? {
        var (cs, rest) := DecodePrefix(a).value;
        ChunksFromKept(rest, chunks[1..]);
      }
    }
  }

  /**
   Chunk independence, for every byte string and every way to split it: the same characters come out,
   and an error comes out of one splitting exactly when it comes out of all.
   */
  lemma ChunkIndependence(chunks: seq<seq<Byte>>)
    ensures DecodeChunks([], chunks) == DecodeAll(Concat(chunks))
  {
    ChunksFromKept([], chunks);
    assert [] + Concat(chunks) == Concat(chunks);
  }

  // Encoding, the independent reference

  function EncodeScalar(c: int): (b: seq<Byte>)
    requires IsScalar(c)
  {
    if c < 0x80 then [c]
    else if c < 0x800 then [0xC0 + c / 0x40, 0x80 + c % 0x40]
    else if c < 0x10000 then [0xE0 + c / 0x1000, 0x80 + c / 0x40 % 0x40, 0x80 + c % 0x40]
    else [0xF0 + c / 0x40000, 0x80 + c / 0x1000 % 0x40, 0x80 + c / 0x40 % 0x40, 0x80 + c % 0x40]
  }

  predicate AllScalars(cs: seq<int>) {
    forall i :: 0 <= i < |cs| ==> IsScalar(cs[i])
  }

  function Encode(cs: seq<int>): seq<Byte>
    requires AllScalars(cs)
  {
    if cs == [] then [] else EncodeScalar(cs[0]) + Encode(cs[1..])
  }

  lemma SplitScalar(c: int)
    ensures c == c / 0x40 * 0x40 + c % 0x40
    ensures c / 0x40 == c / 0x1000 * 0x40 + c / 0x40 % 0x40
    ensures c / 0x1000 == c / 0x40000 * 0x40 + c / 0x1000 % 0x40
  {
  }

  lemma ScanEncoded(c: int, rest: seq<Byte>)
    requires IsScalar(c)
    ensures Scan(EncodeScalar(c) + rest) == Character(c, |EncodeScalar(c)|)
  {
    var e := EncodeScalar(c);
    SplitScalar(c);
    ScanIsStable(e, rest);
    if 0x10000 <= c {
      assert FourBytes(e[0], e[1], e[2], e[3]) == c;
    } else if 0x800 <= c {
      assert ThreeBytes(e[0], e[1], e[2]) == c;
    } else if 0x80 <= c {
      assert TwoBytes(e[0], e[1]) == c;
    }
  }

  lemma EncodedTwo(x: Byte, y: Byte)
    requires 0xC2 <= x < 0xE0 && IsTail(y)
    ensures IsScalar(TwoBytes(x, y)) && EncodeScalar(TwoBytes(x, y)) == [x, y]
  {
  }

  /** The last digit to the base 64. */
  lemma LastDigit(n: int, d: int)
    requires 0 <= d < 0x40
    ensures (n * 0x40 + d) / 0x40 == n && (n * 0x40 + d) % 0x40 == d
  {
  }

  lemma NestedQuotients(c: int)
    ensures c / 0x1000 == c / 0x40 / 0x40 && c / 0x40000 == c / 0x1000 / 0x40
  {
  }

  lemma EncodedThree(x: Byte, y: Byte, z: Byte)
    requires 0xE0 <= x < 0xF0 && IsSecondOfThree(x, y) && IsTail(z)
    ensures IsScalar(ThreeBytes(x, y, z)) && EncodeScalar(ThreeBytes(x, y, z)) == [x, y, z]
  {
    var c := ThreeBytes(x, y, z);
    LastDigit((x - 0xE0) * 0x40 + (y - 0x80), z - 0x80);
    LastDigit(x - 0xE0, y - 0x80);
    NestedQuotients(c);
    assert c == ((x - 0xE0) * 0x40 + (y - 0x80)) * 0x40 + (z - 0x80);
    assert c / 0x1000 == x - 0xE0 && c / 0x40 % 0x40 == y - 0x80 && c % 0x40 == z - 0x80;
  }

  lemma EncodedFour(x: Byte, y: Byte, z: Byte, w: Byte)
    requires 0xF0 <= x < 0xF5 && IsSecondOfFour(x, y) && IsTail(z) && IsTail(w)
    ensures IsScalar(FourBytes(x, y, z, w)) && EncodeScalar(FourBytes(x, y, z, w)) == [x, y, z, w]
  {
    var c := FourBytes(x, y, z, w);
    LastDigit(((x - 0xF0) * 0x40 + (y - 0x80)) * 0x40 + (z - 0x80), w - 0x80);
    LastDigit((x - 0xF0) * 0x40 + (y - 0x80), z - 0x80);
    LastDigit(x - 0xF0, y - 0x80);
    NestedQuotients(c);
    assert c == (((x - 0xF0) * 0x40 + (y - 0x80)) * 0x40 + (z - 0x80)) * 0x40 + (w - 0x80);
    assert c / 0x40000 == x - 0xF0 && c / 0x1000 % 0x40 == y - 0x80;
    assert c / 0x40 % 0x40 == z - 0x80 && c % 0x40 == w - 0x80;
  }

  lemma EncodedScan(b: seq<Byte>)
    requires Scan(b).Character?
    ensures IsScalar(Scan(b).scalar) && b[..Scan(b).length] == EncodeScalar(Scan(b).scalar)
  {
    match Scan(b).length
    case 1 => assert b[..1] == [b[0]];
    case 2 =>
      EncodedTwo(b[0], b[1]);
      assert b[..2] == [b[0], b[1]];
    case 3 =>
      EncodedThree(b[0], b[1], b[2]);
      assert b[..3] == [b[0], b[1], b[2]];
    case _ =>
      EncodedFour(b[0], b[1], b[2], b[3]);
      assert b[..4] == [b[0], b[1], b[2], b[3]];
  }

  lemma DecodeStep(c: int, front: seq<Byte>, cs: seq<int>, rest: seq<Byte>)
    requires Scan(front + rest) == Character(c, |front|) && DecodePrefix(rest) == Some((cs, []))
    ensures DecodePrefix(front + rest) == Some(([c] + cs, []))
  {
    assert (front + rest)[|front|..] == rest;
  }

  lemma {:induction false} DecodeEncoded(cs: seq<int>)
    requires AllScalars(cs)
    ensures DecodePrefix(Encode(cs)) == Some((cs, []))
    decreases |cs|
  {
    if cs != [] {
      var rest := Encode(cs[1..]);
      ScanEncoded(cs[0], rest);
      DecodeEncoded(cs[1..]);
      DecodeStep(cs[0], EncodeScalar(cs[0]), cs[1..], rest);
      assert [cs[0]] + cs[1..] == cs;
    }
  }

  lemma EncodeMore(c: int, ds: seq<int>, front: seq<Byte>, tail: seq<Byte>, rest: seq<Byte>)
    requires IsScalar(c) && AllScalars(ds) && front == EncodeScalar(c) && tail == Encode(ds) + rest
    ensures AllScalars([c] + ds) && front + tail == Encode([c] + ds) + rest
  {
    assert ([c] + ds)[1..] == ds && ([c] + ds)[0] == c;
    var whole := Encode([c] + ds);
    assert whole == front + Encode(ds);
    assert front + (Encode(ds) + rest) == (front + Encode(ds)) + rest;
  }

  /** What has been read as one character and a rest that is an encoding and an incomplete tail. */
  lemma EncodeStep(b: seq<Byte>, c: int, n: nat, ds: seq<int>, rest: seq<Byte>)
    requires Scan(b) == Character(c, n) && n <= |b| && AllScalars(ds) && b[n..] == Encode(ds) + rest
    ensures AllScalars([c] + ds) && b == Encode([c] + ds) + rest
  {
    EncodedScan(b);
    EncodeMore(c, ds, b[..n], b[n..], rest);
    assert b == b[..n] + b[n..];
  }

  lemma DecodeFirst(b: seq<Byte>, c: int, n: nat)
    requires Scan(b) == Character(c, n) && n <= |b|
    ensures DecodePrefix(b).Some? <==> DecodePrefix(b[n..]).Some?
    ensures DecodePrefix(b).Some? ==>
      var (ds, rest) := DecodePrefix(b[n..]).value; DecodePrefix(b).value == ([c] + ds, rest)
  {
  }

  lemma {:induction false} EncodeDecoded(b: seq<Byte>)
    requires DecodePrefix(b).Some?
    ensures var (cs, rest) := DecodePrefix(b).value;
      AllScalars(cs) && b == Encode(cs) + rest && Scan(rest) == Incomplete
    decreases |b|
  {
    if Scan(b).Character? {
      var (c, n) := (Scan(b).scalar, Scan(b).length);
      DecodeFirst(b, c, n);
      EncodeDecoded(b[n..]);
      EncodeStep(b, c, n, DecodePrefix(b[n..]).value.0, DecodePrefix(b[n..]).value.1);
    }
  }

  /** A byte string decodes to `cs` exactly when it is the encoding of `cs`. */
  lemma DecodesExactlyEncodings(b: seq<Byte>, cs: seq<int>)
    ensures DecodeAll(b) == Some(cs) <==> AllScalars(cs) && b == Encode(cs)
  {
    assert [] + b == b;
    if DecodePrefix(b).Some? {
      EncodeDecoded(b);
    }
    if AllScalars(cs) {
      DecodeEncoded(cs);
    }
  }
}
