/**
 * The base-64 encoding of section 4 of RFC 4648, and the browser's `btoa`,
 * which applies it to the Latin-1 code of a string and throws an
 * `InvalidCharacterError` when a character lies outside Latin-1.
 */
module Base64 {
  import opened Wrappers

  type Byte = x: int | 0 <= x < 256
  type Sextet = x: int | 0 <= x < 64

  /** The 64-character alphabet of Table 1 of RFC 4648. */
  function Digit(v: Sextet): (c: char)
  {
    if v < 26 then ('A' as int + v) as char
    else if v < 52 then ('a' as int + (v - 26)) as char
    else if v < 62 then ('0' as int + (v - 52)) as char
    else if v == 62 then '+'
    else '/'
  }

  /** The value of an alphabet character, `None` for any other character. */
  function DigitValue(c: char): Option<Sextet>
  {
    if 'A' <= c <= 'Z' then Some(c as int - 'A' as int)
    else if 'a' <= c <= 'z' then Some(c as int - 'a' as int + 26)
    else if '0' <= c <= '9' then Some(c as int - '0' as int + 52)
    else if c == '+' then Some(62)
    else if c == '/' then Some(63)
    else None
  }

  lemma DigitValueOfDigit(v: Sextet)
    ensures DigitValue(Digit(v)) == Some(v)
  {
  }

  const Pad: char := '='

  /** Encodes a full 24-bit group of three bytes as four digits. */
  function Quantum3(b0: Byte, b1: Byte, b2: Byte): string
  {
    [Digit(b0 / 4), Digit((b0 % 4) * 16 + b1 / 16), Digit((b1 % 16) * 4 + b2 / 64), Digit(b2 % 64)]
  }

  /** A final group of two bytes: three digits and one pad character. */
  function Quantum2(b0: Byte, b1: Byte): string
  {
    [Digit(b0 / 4), Digit((b0 % 4) * 16 + b1 / 16), Digit((b1 % 16) * 4), Pad]
  }

  /** A final group of one byte: two digits and two pad characters. */
  function Quantum1(b0: Byte): string
  {
    [Digit(b0 / 4), Digit((b0 % 4) * 16), Pad, Pad]
  }

  /** The base-64 encoding of `data`, three bytes at a time. */
  function Encode(data: seq<Byte>): string
  {
    if |data| == 0 then ""
    else if |data| == 1 then Quantum1(data[0])
    else if |data| == 2 then Quantum2(data[0], data[1])
    else Quantum3(data[0], data[1], data[2]) + Encode(data[3..])
  }

  /** Decodes one group of four characters, `None` when it is not a valid group. */
  function DecodeQuantum(q: string): (r: Option<seq<Byte>>)
    requires |q| == 4
  {
    var d0, d1 := DigitValue(q[0]), DigitValue(q[1]);
    if d0.None? || d1.None? then None
    else if q[2] == Pad && q[3] == Pad then
      Some([d0.value * 4 + d1.value / 16])
    else
      var d2 := DigitValue(q[2]);
      if d2.None? then None
      else if q[3] == Pad then
        Some([d0.value * 4 + d1.value / 16, (d1.value % 16) * 16 + d2.value / 4])
      else
        var d3 := DigitValue(q[3]);
        if d3.None? then None
        else Some([d0.value * 4 + d1.value / 16, (d1.value % 16) * 16 + d2.value / 4, (d2.value % 4) * 64 + d3.value])
  }

  /**
   * The inverse of `Encode`: groups of four characters, where only the last
   * group may carry padding. `None` for text that is not base-64.
   */
  function Decode(s: string): (r: Option<seq<Byte>>)
    decreases |s|
  {
    if |s| == 0 then Some([])
    else if |s| < 4 then None
    else if |s| == 4 then DecodeQuantum(s)
    else if Pad in s[..4] then None
    else
      var head, tail := DecodeQuantum(s[..4]), Decode(s[4..]);
      if head.Some? && tail.Some? then Some(head.value + tail.value) else None
  }

  lemma Quantum3RoundTrip(b0: Byte, b1: Byte, b2: Byte)
    ensures Pad !in Quantum3(b0, b1, b2)
    ensures DecodeQuantum(Quantum3(b0, b1, b2)) == Some([b0, b1, b2])
  {
    var c0, c1, c2, c3 := b0 / 4, (b0 % 4) * 16 + b1 / 16, (b1 % 16) * 4 + b2 / 64, b2 % 64;
    DigitValueOfDigit(c0);
    DigitValueOfDigit(c1);
    DigitValueOfDigit(c2);
    DigitValueOfDigit(c3);
    assert c1 / 16 == b0 % 4 && c1 % 16 == b1 / 16;
    assert c2 / 4 == b1 % 16 && c2 % 4 == b2 / 64;
  }

  lemma Quantum2RoundTrip(b0: Byte, b1: Byte)
    ensures DecodeQuantum(Quantum2(b0, b1)) == Some([b0, b1])
  {
    var c0, c1, c2 := b0 / 4, (b0 % 4) * 16 + b1 / 16, (b1 % 16) * 4;
    DigitValueOfDigit(c0);
    DigitValueOfDigit(c1);
    DigitValueOfDigit(c2);
    assert c1 / 16 == b0 % 4 && c1 % 16 == b1 / 16;
    assert c2 / 4 == b1 % 16;
  }

  lemma Quantum1RoundTrip(b0: Byte)
    ensures DecodeQuantum(Quantum1(b0)) == Some([b0])
  {
    DigitValueOfDigit(b0 / 4);
    DigitValueOfDigit((b0 % 4) * 16);
  }

  /** Decoding undoes encoding: no two byte strings share an encoding. */
  lemma {:induction false} DecodeEncode(data: seq<Byte>)
    ensures Decode(Encode(data)) == Some(data)
    decreases |data|
  {
    if |data| == 1 {
      Quantum1RoundTrip(data[0]);
      assert Encode(data) == Quantum1(data[0]);
      assert data == [data[0]];
    } else if |data| == 2 {
      DecodeEncodePair(data);
    } else if |data| == 3 {
      DecodeEncodeTriple(data);
    } else if |data| > 3 {
      DecodeEncode(data[3..]);
      EncodeSplit(data);
      DecodeGroupThenRest(data[0], data[1], data[2], Encode(data[3..]), data[3..]);
      assert data == [data[0], data[1], data[2]] + data[3..];
    }
  }

  lemma DecodeEncodePair(data: seq<Byte>)
    requires |data| == 2
    ensures Decode(Encode(data)) == Some(data)
  {
    Quantum2RoundTrip(data[0], data[1]);
    assert Encode(data) == Quantum2(data[0], data[1]);
    assert data == [data[0], data[1]];
  }

  lemma DecodeEncodeTriple(data: seq<Byte>)
    requires |data| == 3
    ensures Decode(Encode(data)) == Some(data)
  {
    var q := Quantum3(data[0], data[1], data[2]);
    assert Encode(data) == q + Encode([]) == q;
    Quantum3RoundTrip(data[0], data[1], data[2]);
    DecodeLastGroup(q);
    assert data == [data[0], data[1], data[2]];
  }

  /** A text of one group decodes as that group. */
  lemma DecodeLastGroup(q: string)
    requires |q| == 4
    ensures Decode(q) == DecodeQuantum(q)
  {
  }

  /** A full group in front of a text that decodes. */
  lemma DecodeGroupThenRest(b0: Byte, b1: Byte, b2: Byte, t: string, rest: seq<Byte>)
    requires |t| >= 4 && Decode(t) == Some(rest)
    ensures Decode(Quantum3(b0, b1, b2) + t) == Some([b0, b1, b2] + rest)
  {
    Quantum3RoundTrip(b0, b1, b2);
    DecodeGroups(Quantum3(b0, b1, b2), t);
  }

  /** The encoding of more than three bytes: a full group, then at least one more. */
  lemma EncodeSplit(data: seq<Byte>)
    requires |data| > 3
    ensures Encode(data) == Quantum3(data[0], data[1], data[2]) + Encode(data[3..])
    ensures |Encode(data[3..])| >= 4
  {
    assert data[3..] == [data[3]] + data[4..];
  }

  /** Decoding a group without padding followed by more groups. */
  lemma DecodeGroups(q: string, t: string)
    requires |q| == 4 && Pad !in q && |t| >= 4
    ensures Decode(q + t) == 
      var head, tail := DecodeQuantum(q), Decode(t);
      if head.Some? && tail.Some? then Some(head.value + tail.value) else None
  {
    assert (q + t)[..4] == q && (q + t)[4..] == t;
  }

  /** Every three bytes, or fewer at the end, become four characters. */
  lemma {:induction false} EncodeLength(data: seq<Byte>)
    ensures |Encode(data)| == 4 * ((|data| + 2) / 3)
    decreases |data|
  {
    if |data| > 3 {
      EncodeLength(data[3..]);
      assert (|data| + 2) / 3 == (|data[3..]| + 2) / 3 + 1;
    }
  }

  /** Every character of an encoding is an alphabet digit or a pad character. */
  lemma {:induction false} EncodeAlphabet(data: seq<Byte>)
    ensures forall k :: 0 <= k < |Encode(data)| ==> Encode(data)[k] == Pad || DigitValue(Encode(data)[k]).Some?
    decreases |data|
  {
    var s := Encode(data);
    if |data| >= 3 {
      var q := Quantum3(data[0], data[1], data[2]);
      Quantum3RoundTrip(data[0], data[1], data[2]);
      EncodeAlphabet(data[3..]);
      assert s == q + Encode(data[3..]);
      forall k | 0 <= k < 4 ensures DigitValue(s[k]).Some? {
        assert s[k] == q[k];
      }
    } else if |data| == 2 {
      Quantum2RoundTrip(data[0], data[1]);
    } else if |data| == 1 {
      Quantum1RoundTrip(data[0]);
    }
  }

  /** True when every character of `s` has a code point below 256. */
  predicate IsLatin1(s: string)
  {
    forall k :: 0 <= k < |s| ==> s[k] as int < 256
  }

  /** The Latin-1 code of a string: one byte per character. */
  function Latin1(s: string): (bytes: seq<Byte>)
    requires IsLatin1(s)
    ensures |bytes| == |s|
    ensures forall k :: 0 <= k < |s| ==> bytes[k] == s[k] as int
  {
    seq(|s|, k requires 0 <= k < |s| => s[k] as int)
  }

  /** The exception `btoa` throws. */
  datatype DomException = InvalidCharacterError

  /**
   * `btoa(s)`: the base-64 encoding of the Latin-1 code of `s`; an
   * `InvalidCharacterError` when some character of `s` is not Latin-1.
   */
  function Btoa(s: string): (r: Result<string, DomException>)
    ensures r.Success? <==> IsLatin1(s)
    ensures r.Success? ==> Decode(r.value) == Some(Latin1(s))
  {
    if IsLatin1(s) then
      DecodeEncode(Latin1(s));
      Success(Encode(Latin1(s)))
    else Failure(InvalidCharacterError)
  }

  /**
   * `btoa` loses nothing: two strings it accepts give the same code only
   * when they are the same string.
   */
  lemma BtoaInjective(s1: string, s2: string)
    requires Btoa(s1).Success? && Btoa(s1) == Btoa(s2)
    ensures s1 == s2
  {
    var b1, b2 := Latin1(s1), Latin1(s2);
    assert Some(b1) == Decode(Btoa(s1).value) == Some(b2);
    forall k | 0 <= k < |s1| ensures s1[k] == s2[k] {
      assert b1[k] == s1[k] as int && b2[k] == s2[k] as int;
    }
  }
}
