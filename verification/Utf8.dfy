/** UTF-8 as section 3 of RFC 3629 defines it, and the repair of invalid texts (strings.ToValidUTF8). */
module Utf8 {
  import opened Text

  // ----- encoding -----

  type Byte = x: int | 0 <= x < 256

  function EncodeChar(c: char): (r: seq<Byte>)
    ensures 1 <= |r| <= 4
  {
    var n := c as int;
    if n < 0x80 then [n]
    else if n < 0x800 then [0xC0 + n / 0x40, 0x80 + n % 0x40]
    else if n < 0x1_0000 then [0xE0 + n / 0x1000, 0x80 + n / 0x40 % 0x40, 0x80 + n % 0x40]
    else [0xF0 + n / 0x4_0000 % 8, 0x80 + n / 0x1000 % 0x40, 0x80 + n / 0x40 % 0x40, 0x80 + n % 0x40]
  }

  function Encode(text: string): seq<Byte> {
    if text == [] then [] else Encode(text[..|text| - 1]) + EncodeChar(text[|text| - 1])
  }

  /** A byte that is not a continuation byte. */
  predicate RuneStart(b: Byte) {
    !(0x80 <= b < 0xC0)
  }

  lemma CharShape(c: char)
    ensures RuneStart(EncodeChar(c)[0])
    ensures forall i | 0 < i < |EncodeChar(c)| :: !RuneStart(EncodeChar(c)[i])
  {
  }

  lemma {:induction false} EncodePrefix(text: string, k: nat)
    requires k <= |text|
    ensures Encode(text[..k]) <= Encode(text)
    decreases |text|
  {
    var n := |text|;
    if k == n {
      assert text[..k] == text;
    } else {
      EncodePrefix(text[..n - 1], k);
      assert text[..n - 1][..k] == text[..k];
    }
  }

  lemma EncodeNext(text: string, k: nat)
    requires k < |text|
    ensures Encode(text[..k + 1]) == Encode(text[..k]) + EncodeChar(text[k])
  {
    assert text[..k + 1][..k] == text[..k];
  }

  lemma {:induction false} EncodeConcat(a: string, b: string)
    ensures Encode(a + b) == Encode(a) + Encode(b)
  {
    hide EncodeChar;
    if b == [] {
      assert a + b == a;
    } else {
      assert (a + b)[..|a + b| - 1] == a + b[..|b| - 1];
      EncodeConcat(a, b[..|b| - 1]);
    }
  }

  lemma EncodeFirst(text: string)
    requires text != []
    ensures Encode(text) == EncodeChar(text[0]) + Encode(text[1..])
  {
    hide EncodeChar;
    assert text == [text[0]] + text[1..];
    EncodeConcat([text[0]], text[1..]);
    assert [text[0]][..0] == [];
  }

  // ----- decoding -----

  predicate IsContinuation(b: Byte) {
    0x80 <= b < 0xC0
  }

  function TwoBytes(a: Byte, b: Byte): int {
    (a - 0xC0) * 0x40 + (b - 0x80)
  }

  function ThreeBytes(a: Byte, b: Byte, c: Byte): int {
    (a - 0xE0) * 0x1000 + (b - 0x80) * 0x40 + (c - 0x80)
  }

  function FourBytes(a: Byte, b: Byte, c: Byte, d: Byte): int {
    (a - 0xF0) * 0x4_0000 + (b - 0x80) * 0x1000 + (c - 0x80) * 0x40 + (d - 0x80)
  }

  /**
   * The character whose encoding stands in front, when there is one: nothing overlong, no surrogate, none too large.
   */
  function FirstChar(s: seq<Byte>): (r: Option<char>)
    ensures r.Some? ==> |EncodeChar(r.value)| <= |s|
  {
    if s == [] then None
    else if s[0] < 0x80 then Some(s[0] as char)
    else if 0xC2 <= s[0] < 0xE0 then
      if |s| >= 2 && IsContinuation(s[1]) then Some(TwoBytes(s[0], s[1]) as char) else None
    else if 0xE0 <= s[0] < 0xF0 then
      if |s| >= 3 && IsContinuation(s[1]) && IsContinuation(s[2]) then
        var n := ThreeBytes(s[0], s[1], s[2]);
        if n >= 0x800 && !(0xD800 <= n < 0xE000) then Some(n as char) else None
      else None
    else if 0xF0 <= s[0] < 0xF5 then
      if |s| >= 4 && IsContinuation(s[1]) && IsContinuation(s[2]) && IsContinuation(s[3]) then
        var n := FourBytes(s[0], s[1], s[2], s[3]);
        if 0x1_0000 <= n < 0x11_0000 then Some(n as char) else None
      else None
    else None
  }

  lemma TwoBytesEncode(a: Byte, b: Byte)
    requires 0xC2 <= a < 0xE0 && IsContinuation(b)
    ensures EncodeChar(TwoBytes(a, b) as char) == [a, b]
  {
    var n := TwoBytes(a, b);
    assert n / 0x40 == a - 0xC0 && n % 0x40 == b - 0x80;
  }

  lemma ThreeBytesEncode(a: Byte, b: Byte, c: Byte)
    requires 0xE0 <= a < 0xF0 && IsContinuation(b) && IsContinuation(c)
    requires ThreeBytes(a, b, c) >= 0x800 && !(0xD800 <= ThreeBytes(a, b, c) < 0xE000)
    ensures EncodeChar(ThreeBytes(a, b, c) as char) == [a, b, c]
  {
    var n := ThreeBytes(a, b, c);
    var upper := (a - 0xE0) * 0x40 + (b - 0x80);
    assert n == upper * 0x40 + (c - 0x80);
    assert n / 0x40 == upper && n % 0x40 == c - 0x80;
    assert n / 0x1000 == a - 0xE0;
    assert upper % 0x40 == b - 0x80;
  }

  lemma FourBytesEncode(a: Byte, b: Byte, c: Byte, d: Byte)
    requires 0xF0 <= a < 0xF5 && IsContinuation(b) && IsContinuation(c) && IsContinuation(d)
    requires 0x1_0000 <= FourBytes(a, b, c, d) < 0x11_0000
    ensures EncodeChar(FourBytes(a, b, c, d) as char) == [a, b, c, d]
  {
    var n := FourBytes(a, b, c, d);
    var upper := (a - 0xF0) * 0x40 + (b - 0x80);
    var middle := upper * 0x40 + (c - 0x80);
    assert n == middle * 0x40 + (d - 0x80);
    assert n / 0x40 == middle && n % 0x40 == d - 0x80;
    assert middle % 0x40 == c - 0x80;
    assert n / 0x1000 == upper && upper % 0x40 == b - 0x80;
    assert n / 0x4_0000 == a - 0xF0;
  }

  /** The character in front is the one that the first bytes encode. */
  lemma FirstCharIsEncoded(s: seq<Byte>)
    ensures FirstChar(s).Some? ==> EncodeChar(FirstChar(s).value) <= s
  {
    if FirstChar(s).Some? && s[0] >= 0x80 {
      hide EncodeChar, TwoBytes, ThreeBytes, FourBytes;
      if s[0] < 0xE0 {
        TwoBytesEncode(s[0], s[1]);
      } else if s[0] < 0xF0 {
        ThreeBytesEncode(s[0], s[1], s[2]);
      } else {
        FourBytesEncode(s[0], s[1], s[2], s[3]);
      }
    }
  }

  /** Decoding the bytes of a character. */
  lemma EncodedBytes(c: char)
    ensures var n, e := c as int, EncodeChar(c);
      && (n < 0x80 ==> e == [n])
      && (0x80 <= n < 0x800 ==>
        |e| == 2 && 0xC2 <= e[0] < 0xE0 && IsContinuation(e[1]) && TwoBytes(e[0], e[1]) == n)
      && (0x800 <= n < 0x1_0000 ==>
        && |e| == 3 && 0xE0 <= e[0] < 0xF0 && IsContinuation(e[1]) && IsContinuation(e[2])
        && ThreeBytes(e[0], e[1], e[2]) == n)
      && (0x1_0000 <= n ==>
        && |e| == 4 && 0xF0 <= e[0] < 0xF5 && IsContinuation(e[1]) && IsContinuation(e[2]) && IsContinuation(e[3])
        && FourBytes(e[0], e[1], e[2], e[3]) == n)
  {
    var n := c as int;
    if n < 0x800 {
    } else if n < 0x1_0000 {
      assert n / 0x1000 * 0x40 + n / 0x40 % 0x40 == n / 0x40;
    } else {
      assert n < 0x11_0000 && n / 0x4_0000 % 8 == n / 0x4_0000;
      assert n / 0x4_0000 * 0x40 + n / 0x1000 % 0x40 == n / 0x1000;
      assert n / 0x1000 * 0x40 + n / 0x40 % 0x40 == n / 0x40;
    }
  }

  lemma EncodedIsFirstChar(c: char, rest: seq<Byte>)
    ensures FirstChar(EncodeChar(c) + rest) == Some(c)
  {
    EncodedBytes(c);
    hide EncodeChar, TwoBytes, ThreeBytes, FourBytes;
  }

  /** Decoding is exact: a character stands in front exactly when its encoding does. */
  lemma FirstCharExactly(s: seq<Byte>, c: char)
    ensures FirstChar(s) == Some(c) <==> EncodeChar(c) <= s
  {
    hide FirstChar, EncodeChar;
    FirstCharIsEncoded(s);
    if EncodeChar(c) <= s {
      EncodedIsFirstChar(c, s[|EncodeChar(c)|..]);
      assert s == EncodeChar(c) + s[|EncodeChar(c)|..];
    }
  }

  // ----- repair -----

  const REPLACEMENT := '\U{FFFD}'

  /** Every run of bytes that no character begins with becomes one replacement character. */
  function Repaired(s: seq<Byte>, afterInvalid: bool): string
    decreases |s|
  {
    if s == [] then []
    else match FirstChar(s)
      case Some(c) => [c] + Repaired(s[|EncodeChar(c)|..], false)
      case None => (if afterInvalid then [] else [REPLACEMENT]) + Repaired(s[1..], true)
  }

  /** A valid text is left alone. */
  lemma {:induction false} ValidIsKept(text: string, afterInvalid: bool)
    ensures Repaired(Encode(text), afterInvalid) == text
  {
    hide FirstChar, EncodeChar;
    if text != [] {
      var c, rest := text[0], Encode(text[1..]);
      EncodeFirst(text);
      EncodedIsFirstChar(c, rest);
      assert (EncodeChar(c) + rest)[|EncodeChar(c)|..] == rest;
      ValidIsKept(text[1..], false);
    }
  }

  lemma RepairKeepsSomething(s: seq<Byte>, afterInvalid: bool)
    ensures !afterInvalid ==> (Repaired(s, afterInvalid) == "" <==> s == [])
  {
  }

  /** A text is changed by the repair exactly when it is not valid. */
  lemma OnlyInvalidIsChanged(s: seq<Byte>)
    ensures Encode(Repaired(s, false)) == s <==> exists text :: Encode(text) == s
  {
    forall text | Encode(text) == s ensures Encode(Repaired(s, false)) == s {
      ValidIsKept(text, false);
    }
  }
}
