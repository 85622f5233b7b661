/** UTF-8 as in section 3 of RFC 3629: encoding, and decoding that refuses everything else. */
module Utf8 {
  import opened Options

  type Byte = b: nat | b < 256
  type Bytes = seq<Byte>

  /** `char` is exactly a Unicode scalar value. */
  function EncodeChar(c: char): (r: Bytes)
    ensures 1 <= |r| <= 4
  {
    var n := c as int;
    var q := n / 64;
    if n < 0x80 then [n]
    else if n < 0x800 then [0xC0 + q, 0x80 + n % 64]
    else if n < 0x10000 then [0xE0 + q / 64, 0x80 + q % 64, 0x80 + n % 64]
    else [0xF0 + q / 64 / 64, 0x80 + q / 64 % 64, 0x80 + q % 64, 0x80 + n % 64]
  }

  function Encode(s: string): Bytes {
    if s == [] then [] else EncodeChar(s[0]) + Encode(s[1..])
  }

  predicate IsContinuation(b: Byte) {
    0x80 <= b < 0xC0
  }

  predicate IsScalar(n: int) {
    0 <= n < 0xD800 || 0xE000 <= n < 0x110000
  }

  /** Append the six bits of a continuation byte. */
  function Shift(high: int, b: Byte): int {
    high * 64 + (b - 0x80)
  }

  /** The first character and how many bytes it took; no overlong form, surrogate or value above U+10FFFF. */
  function DecodeFirst(b: Bytes): (r: Option<(char, nat)>)
    requires b != []
    ensures r.Some? ==> 1 <= r.value.1 <= |b|
  {
    var lead: int := b[0];
    if lead < 0x80 then Some((lead as char, 1))
    else if 0xC2 <= lead < 0xE0 && |b| >= 2 && IsContinuation(b[1]) then
      Some((Shift(lead - 0xC0, b[1]) as char, 2))
    else if 0xE0 <= lead < 0xF0 && |b| >= 3 && IsContinuation(b[1]) && IsContinuation(b[2]) then
      var n := Shift(Shift(lead - 0xE0, b[1]), b[2]);
      if n >= 0x800 && IsScalar(n) then Some((n as char, 3)) else None
    else if 0xF0 <= lead < 0xF5 && |b| >= 4 && IsContinuation(b[1]) && IsContinuation(b[2]) && IsContinuation(b[3]) then
      var n := Shift(Shift(Shift(lead - 0xF0, b[1]), b[2]), b[3]);
      if n >= 0x10000 && IsScalar(n) then Some((n as char, 4)) else None
    else None
  }

  function Decode(b: Bytes): Option<string> {
    if b == [] then Some([])
    else match DecodeFirst(b)
      case None => None
      case Some((c, n)) =>
        match Decode(b[n..])
        case None => None
        case Some(rest) => Some([c] + rest)
  }

  lemma ShiftUndone(n: int, b: Byte)
    requires n >= 0 && IsContinuation(b)
    ensures Shift(n, b) / 64 == n && Shift(n, b) % 64 == b - 0x80
  {
  }

  lemma ShiftDone(n: nat, b: Byte)
    requires b == 0x80 + n % 64
    ensures Shift(n / 64, b) == n && IsContinuation(b)
  {
  }

  lemma DecodeFirstEncoded(c: char, rest: Bytes)
    ensures DecodeFirst(EncodeChar(c) + rest) == Some((c, |EncodeChar(c)|))
  {
    var n := c as int;
    var code := EncodeChar(c);
    var b := code + rest;
    assert forall i | 0 <= i < |code| :: b[i] == code[i];
    var q := n / 64;
    hide Shift;
    if 0x80 <= n < 0x800 {
      ShiftDone(n, code[1]);
    } else if 0x800 <= n < 0x10000 {
      ShiftDone(q, code[1]);
      ShiftDone(n, code[2]);
    } else if 0x10000 <= n {
      ShiftDone(q / 64, code[1]);
      ShiftDone(q, code[2]);
      ShiftDone(n, code[3]);
    }
  }

  lemma EncodeDecodedFirst(b: Bytes)
    requires b != [] && DecodeFirst(b).Some?
    ensures var (c, n) := DecodeFirst(b).value; EncodeChar(c) == b[..n]
  {
    var n := DecodeFirst(b).value.1;
    var lead: int := b[0];
    if n == 2 {
      ShiftUndone(lead - 0xC0, b[1]);
    } else if n == 3 {
      ShiftUndone(lead - 0xE0, b[1]);
      ShiftUndone(Shift(lead - 0xE0, b[1]), b[2]);
    } else if n == 4 {
      ShiftUndone(lead - 0xF0, b[1]);
      ShiftUndone(Shift(lead - 0xF0, b[1]), b[2]);
      ShiftUndone(Shift(Shift(lead - 0xF0, b[1]), b[2]), b[3]);
    }
  }

  /** Whatever was encoded decodes to itself. */
  lemma {:induction false} DecodeEncoded(s: string)
    ensures Decode(Encode(s)) == Some(s)
  {
    if s != [] {
      var first := EncodeChar(s[0]);
      DecodeFirstEncoded(s[0], Encode(s[1..]));
      assert (first + Encode(s[1..]))[|first|..] == Encode(s[1..]);
      DecodeEncoded(s[1..]);
      assert s == [s[0]] + s[1..];
    }
  }

  /** Strictness: bytes that decode at all are exactly the encoding of what they decode to. */
  lemma {:induction false} EncodeDecoded(b: Bytes)
    requires Decode(b).Some?
    ensures Encode(Decode(b).value) == b
    decreases |b|
  {
    if b != [] {
      hide DecodeFirst, EncodeChar;
      hide Encode;
      var (c, n) := DecodeFirst(b).value;
      EncodeDecodedFirst(b);
      EncodeDecoded(b[n..]);
      EncodeFront(c, Decode(b[n..]).value);
      Rejoin(b, n);
    } else {
      assert Encode([]) == [];
    }
  }

  lemma Rejoin(b: Bytes, n: nat)
    requires n <= |b|
    ensures b[..n] + b[n..] == b
  {
  }

  lemma EncodeFront(c: char, rest: string)
    ensures Encode([c] + rest) == EncodeChar(c) + Encode(rest)
  {
    hide EncodeChar;
    assert ([c] + rest)[1..] == rest;
  }

  lemma EncodeInjective(a: string, b: string)
    requires Encode(a) == Encode(b)
    ensures a == b
  {
    DecodeEncoded(a);
    DecodeEncoded(b);
  }

  lemma {:induction false} EncodeJoins(a: string, b: string)
    ensures Encode(a + b) == Encode(a) + Encode(b)
  {
    if a == [] {
      assert a + b == b;
    } else {
      hide EncodeChar;
      EncodeJoins(a[1..], b);
      var whole := a + b;
      assert whole[0] == a[0] && whole[1..] == a[1..] + b;
      Associates(EncodeChar(a[0]), Encode(a[1..]), Encode(b));
    }
  }

  lemma Associates(x: Bytes, y: Bytes, z: Bytes)
    ensures x + (y + z) == (x + y) + z
  {
  }

  /** An ASCII byte occurs in the encoding exactly where the character does. */
  lemma {:induction false} AsciiBytesAreCharacters(s: string, c: char)
    requires c as int < 0x80
    ensures (c as int) in Encode(s) <==> c in s
  {
    if s != [] {
      AsciiBytesAreCharacters(s[1..], c);
      var n := s[0] as int;
      assert (c as int) in EncodeChar(s[0]) <==> n == c as int;
    }
  }
}
