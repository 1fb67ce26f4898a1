/**
 UTF-8 as RFC 3629 defines it: the byte grammar of section 4, read one
 character at a time, and the encoding of section 3 it is checked against.
 */
module Utf8 {
  import opened Basics

  newtype Byte = x: int | 0 <= x < 0x100

  /** Code points other than surrogates. */
  type Scalar = x: int | 0 <= x < 0xD800 || 0xE000 <= x < 0x11_0000

  predicate Continuation(b: Byte) { 0x80 <= b < 0xC0 }

  predicate Tail(bytes: seq<Byte>, i: nat, lo: Byte, hi: Byte)
  {
    i < |bytes| && lo <= bytes[i] <= hi
  }

  /** Length of the well-formed character at the start, or zero when there is none. */
  function FirstLength(bytes: seq<Byte>): (n: nat)
    ensures n <= 4 && n <= |bytes|
    ensures n > 0 ==> !Continuation(bytes[0]) && forall i :: 0 < i < n ==> Continuation(bytes[i])
  {
    if bytes == [] then 0
    else
      var b := bytes[0];
      if b <= 0x7F then 1
      else if 0xC2 <= b <= 0xDF then (if Tail(bytes, 1, 0x80, 0xBF) then 2 else 0)
      else if 0xE0 <= b <= 0xEF then
        var lo: Byte, hi: Byte := if b == 0xE0 then 0xA0 else 0x80, if b == 0xED then 0x9F else 0xBF;
        if Tail(bytes, 1, lo, hi) && Tail(bytes, 2, 0x80, 0xBF) then 3 else 0
      else if 0xF0 <= b <= 0xF4 then
        var lo: Byte, hi: Byte := if b == 0xF0 then 0x90 else 0x80, if b == 0xF4 then 0x8F else 0xBF;
        if Tail(bytes, 1, lo, hi) && Tail(bytes, 2, 0x80, 0xBF) && Tail(bytes, 3, 0x80, 0xBF) then 4 else 0
      else 0
  }

  function Low6(b: Byte): int
    requires Continuation(b)
  {
    b as int - 0x80
  }

  function FirstScalar(bytes: seq<Byte>): Scalar
    requires FirstLength(bytes) > 0
  {
    var b := bytes[0] as int;
    match FirstLength(bytes)
    case 1 => b
    case 2 => (b - 0xC0) * 0x40 + Low6(bytes[1])
    case 3 => (b - 0xE0) * 0x1000 + Low6(bytes[1]) * 0x40 + Low6(bytes[2])
    case _ => (b - 0xF0) * 0x4_0000 + Low6(bytes[1]) * 0x1000 + Low6(bytes[2]) * 0x40 + Low6(bytes[3])
  }

  /** The fatal decoder: the characters, or nothing when any byte is out of place. A byte order mark is a character. */
  function Decode(bytes: seq<Byte>): Option<seq<Scalar>>
  {
    if bytes == [] then Some([])
    else if FirstLength(bytes) == 0 then None
    else
      var rest := Decode(bytes[FirstLength(bytes)..]);
      if rest.None? then None else Some([FirstScalar(bytes)] + rest.value)
  }

  predicate WellFormed(bytes: seq<Byte>) { Decode(bytes).Some? }

  // ---------- The encoding ----------

  function EncodeScalar(s: Scalar): (bytes: seq<Byte>)
    ensures 1 <= |bytes| <= 4
  {
    if s < 0x80 then [s as Byte]
    else if s < 0x800 then [(0xC0 + s / 0x40) as Byte, (0x80 + s % 0x40) as Byte]
    else if s < 0x1_0000 then [(0xE0 + s / 0x1000) as Byte, (0x80 + s / 0x40 % 0x40) as Byte, (0x80 + s % 0x40) as Byte]
    else [(0xF0 + s / 0x4_0000) as Byte, (0x80 + s / 0x1000 % 0x40) as Byte, (0x80 + s / 0x40 % 0x40) as Byte,
          (0x80 + s % 0x40) as Byte]
  }

  function Encode(text: seq<Scalar>): seq<Byte>
  {
    if text == [] then [] else EncodeScalar(text[0]) + Encode(text[1..])
  }

  /** The byte grammar reads back exactly the encoding of one character, whatever follows it. */
  lemma FirstOfEncoded(s: Scalar, more: seq<Byte>)
    ensures FirstLength(EncodeScalar(s) + more) == |EncodeScalar(s)|
    ensures FirstScalar(EncodeScalar(s) + more) == s
  {
    if s < 0x800 {
      FirstOfShort(s, more);
    } else if s < 0x1_0000 {
      FirstOfThree(s, more);
    } else {
      FirstOfFour(s, more);
    }
  }

  lemma FirstOfShort(s: Scalar, more: seq<Byte>)
    requires s < 0x800
    ensures FirstLength(EncodeScalar(s) + more) == |EncodeScalar(s)|
    ensures FirstScalar(EncodeScalar(s) + more) == s
  {
  }

  lemma FirstOfThree(s: Scalar, more: seq<Byte>)
    requires 0x800 <= s < 0x1_0000
    ensures FirstLength(EncodeScalar(s) + more) == |EncodeScalar(s)|
    ensures FirstScalar(EncodeScalar(s) + more) == s
  {
    assert s == s / 0x1000 * 0x1000 + s / 0x40 % 0x40 * 0x40 + s % 0x40;
  }

  lemma FirstOfFour(s: Scalar, more: seq<Byte>)
    requires s >= 0x1_0000
    ensures FirstLength(EncodeScalar(s) + more) == |EncodeScalar(s)|
    ensures FirstScalar(EncodeScalar(s) + more) == s
  {
    FourDigits(s);
    var bytes := EncodeScalar(s) + more;
    assert bytes[0] as int == 0xF0 + s / 0x4_0000 && Low6(bytes[1]) == s / 0x1000 % 0x40;
    assert Low6(bytes[2]) == s / 0x40 % 0x40 && Low6(bytes[3]) == s % 0x40;
  }

  lemma FourDigits(s: Scalar)
    requires s >= 0x1_0000
    ensures s == s / 0x4_0000 * 0x4_0000 + s / 0x1000 % 0x40 * 0x1000 + s / 0x40 % 0x40 * 0x40 + s % 0x40
    ensures s / 0x4_0000 <= 4
    ensures s / 0x4_0000 == 0 ==> s / 0x1000 % 0x40 >= 0x10
    ensures s / 0x4_0000 == 4 ==> s / 0x1000 % 0x40 < 0x10
  {
    var u, v := s / 0x40, s / 0x40 / 0x40;
    assert v == s / 0x1000 && v / 0x40 == s / 0x4_0000;
    assert s == u * 0x40 + s % 0x40 && u == v * 0x40 + u % 0x40 && v == v / 0x40 * 0x40 + v % 0x40;
  }

  lemma Digits(a: nat, b: nat, c: nat, d: nat)
    requires b < 0x40 && c < 0x40 && d < 0x40
    ensures var s := a * 0x4_0000 + b * 0x1000 + c * 0x40 + d;
      s / 0x40 == a * 0x1000 + b * 0x40 + c && s / 0x1000 == a * 0x40 + b && s / 0x4_0000 == a
      && s % 0x40 == d && s / 0x40 % 0x40 == c && s / 0x1000 % 0x40 == b
  {
  }

  lemma EncodedFirst(bytes: seq<Byte>)
    requires FirstLength(bytes) > 0
    ensures EncodeScalar(FirstScalar(bytes)) == bytes[..FirstLength(bytes)]
  {
    var n, s := FirstLength(bytes), FirstScalar(bytes);
    if n == 2 {
      Digits(0, 0, bytes[0] as int - 0xC0, Low6(bytes[1]));
    } else if n == 3 {
      Digits(0, bytes[0] as int - 0xE0, Low6(bytes[1]), Low6(bytes[2]));
    } else if n == 4 {
      Digits(bytes[0] as int - 0xF0, Low6(bytes[1]), Low6(bytes[2]), Low6(bytes[3]));
    }
  }

  /** A byte sequence decodes to a text exactly when it is that text's encoding. */
  lemma {:induction false} DecodeInvertsEncode(bytes: seq<Byte>, text: seq<Scalar>)
    ensures Decode(bytes) == Some(text) <==> bytes == Encode(text)
    decreases |bytes| + |text|
  {
    if text != [] {
      var first := EncodeScalar(text[0]);
      if bytes == Encode(text) {
        FirstOfEncoded(text[0], Encode(text[1..]));
        DecodeInvertsEncode(bytes[|first|..], text[1..]);
        assert bytes[|first|..] == Encode(text[1..]);
        assert text == [text[0]] + text[1..];
      }
    }
    if bytes != [] && Decode(bytes) == Some(text) {
      var n := FirstLength(bytes);
      EncodedFirst(bytes);
      DecodeInvertsEncode(bytes[n..], text[1..]);
      assert text[1..] == Decode(bytes[n..]).value;
      assert bytes == bytes[..n] + bytes[n..];
    }
  }

  // ---------- JavaScript text ----------

  /** The characters `TextEncoder` writes for a string: pairs combined, lone surrogates replaced by U+FFFD. */
  function ScalarsOf(t: Text): seq<Scalar>
  {
    if t == [] then []
    else if HighSurrogate(t[0]) && |t| > 1 && LowSurrogate(t[1]) then
      [0x1_0000 + (t[0] as int - 0xD800) * 0x400 + (t[1] as int - 0xDC00)] + ScalarsOf(t[2..])
    else [if HighSurrogate(t[0]) || LowSurrogate(t[0]) then 0xFFFD else t[0] as int] + ScalarsOf(t[1..])
  }

  /** The byte counts used in budgets are the sizes of the UTF-8 encoding. */
  lemma {:induction false} ByteLengthIsEncodedSize(t: Text)
    ensures ByteLength(t) == |Encode(ScalarsOf(t))|
  {
    if t != [] {
      var pair := HighSurrogate(t[0]) && |t| > 1 && LowSurrogate(t[1]);
      ByteLengthIsEncodedSize(if pair then t[2..] else t[1..]);
      var scalars := ScalarsOf(t);
      assert scalars[1..] == ScalarsOf(if pair then t[2..] else t[1..]);
    }
  }

  // ---------- Joining and splitting ----------

  lemma FirstIgnoresRest(bytes: seq<Byte>, more: seq<Byte>)
    requires FirstLength(bytes) > 0
    ensures FirstLength(bytes + more) == FirstLength(bytes) && FirstScalar(bytes + more) == FirstScalar(bytes)
  {
  }

  /** Texts join as their bytes do. */
  lemma {:induction false} DecodeConcat(a: seq<Byte>, b: seq<Byte>)
    requires WellFormed(a)
    ensures Decode(a + b) == if WellFormed(b) then Some(Decode(a).value + Decode(b).value) else None
    decreases |a|
  {
    if a == [] {
      assert a + b == b;
      if WellFormed(b) {
        assert Decode(a).value + Decode(b).value == Decode(b).value;
      }
    } else {
      var n := FirstLength(a);
      FirstIgnoresRest(a, b);
      assert (a + b)[n..] == a[n..] + b;
      DecodeConcat(a[n..], b);
      if WellFormed(b) {
        assert Decode(a).value + Decode(b).value == [FirstScalar(a)] + (Decode(a[n..]).value + Decode(b).value);
      }
    }
  }

  /** A place where a character may start. */
  predicate Boundary(bytes: seq<Byte>, i: nat)
    requires i <= |bytes|
  {
    i == |bytes| || !Continuation(bytes[i])
  }

  /** A well-formed text splits at any boundary into well-formed parts. */
  lemma {:induction false} SplitsAtBoundary(bytes: seq<Byte>, i: nat)
    requires WellFormed(bytes) && i <= |bytes| && Boundary(bytes, i)
    ensures WellFormed(bytes[..i]) && WellFormed(bytes[i..])
    decreases |bytes|
  {
    if i == 0 {
      assert bytes[..0] == [] && bytes[0..] == bytes;
    } else {
      var n := FirstLength(bytes);
      SplitsAtBoundary(bytes[n..], i - n);
      assert bytes[n..][..i - n] == bytes[n..i] && bytes[n..][i - n..] == bytes[i..];
      assert bytes[..i] == bytes[..n] + bytes[n..i];
      EncodedFirst(bytes);
      FirstOfEncoded(FirstScalar(bytes), bytes[n..i]);
      assert bytes[..i][n..] == bytes[n..i];
    }
  }

  /** In a well-formed text a character start is never more than three bytes away. */
  lemma {:induction false} StartWithinThree(bytes: seq<Byte>, i: nat)
    requires WellFormed(bytes) && i <= |bytes|
    ensures exists j :: i <= j <= i + 3 && j <= |bytes| && Boundary(bytes, j)
    decreases |bytes|
  {
    if i == 0 {
      assert Boundary(bytes, 0);
    } else {
      var n := FirstLength(bytes);
      if i < n {
        assert Boundary(bytes, n) by {
          var rest := bytes[n..];
          assert WellFormed(rest);
          assert rest != [] ==> FirstLength(rest) > 0 && rest[0] == bytes[n];
        }
      } else {
        StartWithinThree(bytes[n..], i - n);
        var j :| i - n <= j <= i - n + 3 && j <= |bytes[n..]| && Boundary(bytes[n..], j);
        assert Boundary(bytes, j + n);
      }
    }
  }
}
