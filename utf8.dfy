/**
 * UTF-8 as `String.getBytes(StandardCharsets.UTF_8)` produces it for a string
 * of scalar values: the encoding of section 3 of RFC 3629, one to four bytes
 * per code point. The decoder is the independent partner the encoder is
 * proved against: it accepts only well-formed UTF-8 (no overlong forms, no
 * surrogates, nothing above U+10FFFF).
 */
module Utf8 {
  import opened Platform
  import opened Text

  /** The number of bytes RFC 3629 assigns to a code point, by its range. */
  function Width(c: Scalar): (n: nat)
    ensures 1 <= n <= 4
  {
    if c < 0x80 then 1 else if c < 0x800 then 2 else if c < 0x1_0000 then 3 else 4
  }

  /** A continuation byte, `10xxxxxx`. */
  predicate IsContinuation(b: uint8) {
    0x80 <= b < 0xC0
  }

  /** The low six bits of `n` in a continuation byte. */
  function Continuation(n: int): (b: uint8)
    requires n >= 0
    ensures IsContinuation(b) && b as int - 0x80 == n % 0x40
  {
    (0x80 + n % 0x40) as uint8
  }

  /** The byte sequence of one code point. */
  function EncodeScalar(c: Scalar): (b: seq<uint8>)
    ensures |b| == Width(c)
    ensures forall i | 1 <= i < |b| :: IsContinuation(b[i])
  {
    var n := c as int;
    if n < 0x80 then
      [n as uint8]
    else if n < 0x800 then
      [(0xC0 + n / 0x40) as uint8, Continuation(n)]
    else if n < 0x1_0000 then
      [(0xE0 + n / 0x40 / 0x40) as uint8, Continuation(n / 0x40), Continuation(n)]
    else
      [(0xF0 + n / 0x40 / 0x40 / 0x40) as uint8, Continuation(n / 0x40 / 0x40), Continuation(n / 0x40), Continuation(n)]
  }

  /** The byte sequence of a string, code point after code point. */
  function Encode(s: JavaString): (b: seq<uint8>)
    ensures |s| <= |b| <= 4 * |s|
  {
    if s == [] then [] else EncodeScalar(s[0]) + Encode(s[1..])
  }

  /** The total of the widths of the code points of `s`. */
  function EncodedLength(s: JavaString): nat {
    if s == [] then 0 else Width(s[0]) + EncodedLength(s[1..])
  }

  /** The payload of a continuation byte. */
  function Bits(b: uint8): int {
    b as int % 0x40
  }

  /**
   * Reads the first code point of `b`: the scalar value and how many bytes it
   * took, or `None` when `b` does not start with a well-formed sequence.
   */
  function DecodeScalar(b: seq<uint8>): (r: Option<(Scalar, nat)>)
    ensures r.Some? ==> 1 <= r.value.1 <= |b|
  {
    if |b| == 0 then None
    else
      var b0 := b[0] as int;
      if b0 < 0x80 then
        Some((b0 as Scalar, 1))
      else if 0xC0 <= b0 < 0xE0 then
        if |b| < 2 || !IsContinuation(b[1]) then None
        else
          var n := (b0 - 0xC0) * 0x40 + Bits(b[1]);
          if n < 0x80 then None else Some((n as Scalar, 2))
      else if 0xE0 <= b0 < 0xF0 then
        if |b| < 3 || !IsContinuation(b[1]) || !IsContinuation(b[2]) then None
        else
          var n := (b0 - 0xE0) * 0x1000 + Bits(b[1]) * 0x40 + Bits(b[2]);
          if n < 0x800 || 0xD800 <= n < 0xE000 then None else Some((n as Scalar, 3))
      else if 0xF0 <= b0 < 0xF8 then
        if |b| < 4 || !IsContinuation(b[1]) || !IsContinuation(b[2]) || !IsContinuation(b[3]) then None
        else
          var n := (b0 - 0xF0) * 0x4_0000 + Bits(b[1]) * 0x1000 + Bits(b[2]) * 0x40 + Bits(b[3]);
          if n < 0x1_0000 || n >= 0x11_0000 then None else Some((n as Scalar, 4))
      else
        None
  }

  /** Decodes a whole byte sequence, or `None` if it is not well-formed UTF-8. */
  function Decode(b: seq<uint8>): Option<JavaString>
    decreases |b|
  {
    if b == [] then Some([])
    else
      match DecodeScalar(b)
      case None => None
      case Some((c, k)) =>
        match Decode(b[k..])
        case None => None
        case Some(rest) => Some([c] + rest)
  }

  /** Well-formed UTF-8. */
  predicate WellFormed(b: seq<uint8>) {
    Decode(b).Some?
  }

  /** The decoder reads back the code point the encoder wrote, and nothing after it. */
  lemma DecodeEncodeScalar(c: Scalar, rest: seq<uint8>)
    ensures DecodeScalar(EncodeScalar(c) + rest) == Some((c, Width(c)))
  {
    var n := c as int;
    var b := EncodeScalar(c) + rest;
    var n1 := n / 0x40;
    var n2 := n1 / 0x40;
    var n3 := n2 / 0x40;
    if n < 0x80 {
    } else if n < 0x800 {
      assert b[0] as int == 0xC0 + n1;
      assert Bits(b[1]) == n % 0x40;
    } else if n < 0x1_0000 {
      assert b[0] as int == 0xE0 + n2;
      assert Bits(b[1]) == n1 % 0x40;
      assert Bits(b[2]) == n % 0x40;
      assert n == n2 * 0x1000 + (n1 % 0x40) * 0x40 + n % 0x40;
    } else {
      assert b[0] as int == 0xF0 + n3;
      assert Bits(b[1]) == n2 % 0x40;
      assert Bits(b[2]) == n1 % 0x40;
      assert Bits(b[3]) == n % 0x40;
      assert n == n3 * 0x4_0000 + (n2 % 0x40) * 0x1000 + (n1 % 0x40) * 0x40 + n % 0x40;
    }
  }

  /** Decoding inverts encoding: the bytes written for a string read back as that string. */
  lemma {:induction false} DecodeEncode(s: JavaString)
    ensures Decode(Encode(s)) == Some(s)
  {
    if s != [] {
      var head := EncodeScalar(s[0]);
      var tail := Encode(s[1..]);
      DecodeEncodeScalar(s[0], tail);
      assert (head + tail)[|head|..] == tail;
      DecodeEncode(s[1..]);
      assert [s[0]] + s[1..] == s;
    }
  }

  /** Division by 64 of a number given by its quotient and remainder. */
  lemma Split64(q: int, r: int)
    requires q >= 0 && 0 <= r < 0x40
    ensures (q * 0x40 + r) / 0x40 == q && (q * 0x40 + r) % 0x40 == r
  {
  }

  /**
   * The strict decoder accepts only the encoder's output: the code point it
   * reads, encoded again, is exactly the bytes it consumed.
   */
  lemma EncodeDecodeScalar(b: seq<uint8>)
    requires DecodeScalar(b).Some?
    ensures EncodeScalar(DecodeScalar(b).value.0) == b[..DecodeScalar(b).value.1]
  {
    var b0 := b[0];
    if b0 < 0x80 {
    } else if b0 < 0xE0 {
      EncodeTwo(b[0], b[1]);
    } else if b0 < 0xF0 {
      EncodeThree(b[0], b[1], b[2]);
    } else {
      EncodeFour(b[0], b[1], b[2], b[3]);
    }
  }

  /** The two-byte case of `EncodeDecodeScalar`. */
  lemma EncodeTwo(b0: uint8, b1: uint8)
    requires 0xC0 <= b0 < 0xE0 && IsContinuation(b1)
    requires 0x80 <= (b0 as int - 0xC0) * 0x40 + Bits(b1)
    ensures EncodeScalar(((b0 as int - 0xC0) * 0x40 + Bits(b1)) as Scalar) == [b0, b1]
  {
    Split64(b0 as int - 0xC0, Bits(b1));
  }

  /** The three-byte case of `EncodeDecodeScalar`. */
  lemma EncodeThree(b0: uint8, b1: uint8, b2: uint8)
    requires 0xE0 <= b0 < 0xF0 && IsContinuation(b1) && IsContinuation(b2)
    requires var n := (b0 as int - 0xE0) * 0x1000 + Bits(b1) * 0x40 + Bits(b2);
      0x800 <= n && !(0xD800 <= n < 0xE000)
    ensures EncodeScalar(((b0 as int - 0xE0) * 0x1000 + Bits(b1) * 0x40 + Bits(b2)) as Scalar) == [b0, b1, b2]
  {
    var n1 := (b0 as int - 0xE0) * 0x40 + Bits(b1);
    var n := n1 * 0x40 + Bits(b2);
    assert n == (b0 as int - 0xE0) * 0x1000 + Bits(b1) * 0x40 + Bits(b2);
    Split64(n1, Bits(b2));
    Split64(b0 as int - 0xE0, Bits(b1));
  }

  /** The four-byte case of `EncodeDecodeScalar`. */
  lemma EncodeFour(b0: uint8, b1: uint8, b2: uint8, b3: uint8)
    requires 0xF0 <= b0 < 0xF8 && IsContinuation(b1) && IsContinuation(b2) && IsContinuation(b3)
    requires var n := (b0 as int - 0xF0) * 0x4_0000 + Bits(b1) * 0x1000 + Bits(b2) * 0x40 + Bits(b3);
      0x1_0000 <= n < 0x11_0000
    ensures EncodeScalar(((b0 as int - 0xF0) * 0x4_0000 + Bits(b1) * 0x1000 + Bits(b2) * 0x40 + Bits(b3)) as Scalar)
      == [b0, b1, b2, b3]
  {
    var n1 := (b0 as int - 0xF0) * 0x40 + Bits(b1);
    var n2 := n1 * 0x40 + Bits(b2);
    var n := n2 * 0x40 + Bits(b3);
    assert n == (b0 as int - 0xF0) * 0x4_0000 + Bits(b1) * 0x1000 + Bits(b2) * 0x40 + Bits(b3);
    Split64(n2, Bits(b3));
    Split64(n1, Bits(b2));
    Split64(b0 as int - 0xF0, Bits(b1));
  }

  /**
   * Encoding inverts decoding: a well-formed byte sequence is the encoding of
   * the string it decodes to. With `DecodeEncode`, the encoding is the only
   * byte sequence the strict decoder reads as that string.
   */
  lemma {:induction false} EncodeDecode(b: seq<uint8>)
    requires WellFormed(b)
    ensures Encode(Decode(b).value) == b
    decreases |b|
  {
    if b != [] {
      var c, k := DecodeFirst(b);
      var rest := Decode(b[k..]).value;
      EncodeDecodeScalar(b);
      EncodeDecode(b[k..]);
      EncodeJoin(b, k, c, rest);
    }
  }

  /** A non-empty well-formed sequence is a code point followed by a well-formed rest. */
  lemma DecodeFirst(b: seq<uint8>) returns (c: Scalar, k: nat)
    requires WellFormed(b) && b != []
    ensures DecodeScalar(b) == Some((c, k)) && 1 <= k <= |b|
    ensures WellFormed(b[k..]) && Decode(b).value == [c] + Decode(b[k..]).value
  {
    c, k := DecodeScalar(b).value.0, DecodeScalar(b).value.1;
  }

  /** A code point and a rest whose encodings make up the two parts of `b` at `k` encode to `b`. */
  lemma EncodeJoin(b: seq<uint8>, k: nat, c: Scalar, rest: JavaString)
    requires k <= |b| && EncodeScalar(c) == b[..k] && Encode(rest) == b[k..]
    ensures Encode([c] + rest) == b
  {
    assert ([c] + rest)[1..] == rest;
    assert b[..k] + b[k..] == b;
  }

  /** A byte sequence decodes to `s` exactly when it is the encoding of `s`. */
  lemma DecodeIffEncode(b: seq<uint8>, s: JavaString)
    ensures Decode(b) == Some(s) <==> b == Encode(s)
  {
    DecodeEncode(s);
    if Decode(b) == Some(s) {
      EncodeDecode(b);
    }
  }

  /** The encoder only produces well-formed UTF-8. */
  lemma EncodeWellFormed(s: JavaString)
    ensures WellFormed(Encode(s))
  {
    DecodeEncode(s);
  }

  /** Distinct strings have distinct encodings. */
  lemma EncodeInjective(s: JavaString, t: JavaString)
    requires Encode(s) == Encode(t)
    ensures s == t
  {
    DecodeEncode(s);
    DecodeEncode(t);
  }

  /** The encoding of a concatenation is the concatenation of the encodings. */
  lemma {:induction false} EncodeAppend(s: JavaString, t: JavaString)
    ensures Encode(s + t) == Encode(s) + Encode(t)
  {
    if s == [] {
      assert s + t == t;
    } else {
      assert (s + t)[1..] == s[1..] + t;
      EncodeAppend(s[1..], t);
    }
  }

  /** The encoded length is the sum of the widths from the RFC 3629 table. */
  lemma {:induction false} EncodeLength(s: JavaString)
    ensures |Encode(s)| == EncodedLength(s)
  {
    if s != [] {
      EncodeLength(s[1..]);
    }
  }

  /** An ASCII string encodes to its own code points, one byte each. */
  lemma {:induction false} EncodeAscii(s: JavaString)
    requires forall i | 0 <= i < |s| :: s[i] < 0x80
    ensures |Encode(s)| == |s|
    ensures forall i | 0 <= i < |s| :: Encode(s)[i] as int == s[i] as int
  {
    if s != [] {
      EncodeAscii(s[1..]);
    }
  }
}
