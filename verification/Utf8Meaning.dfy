/** What well-formed text is: the encodings of Unicode scalar values (section 3 of RFC 3629), set against
    the byte patterns that recognise them. */
module Utf8Meaning {
  import opened Truncate

  predicate Scalar(c: int) {
    0 <= c < 0xD800 || 0xE000 <= c <= 0x10FFFF
  }

  function Encode(c: int): Bytes
    requires Scalar(c)
  {
    if c < 0x80 then [c]
    else if c < 0x800 then [0xC0 + c / 64, 0x80 + c % 64]
    else if c < 0x10000 then [0xE0 + c / 4096, 0x80 + c / 64 % 64, 0x80 + c % 64]
    else [0xF0 + c / 262144, 0x80 + c / 4096 % 64, 0x80 + c / 64 % 64, 0x80 + c % 64]
  }

  predicate AllScalars(cs: seq<int>) {
    forall i :: 0 <= i < |cs| ==> Scalar(cs[i])
  }

  function EncodeAll(cs: seq<int>): Bytes
    requires AllScalars(cs)
  {
    if cs == [] then [] else Encode(cs[0]) + EncodeAll(cs[1..])
  }

  // ---------- an encoding is recognised ----------

  lemma {:induction false} ThreeByteBounds(c: int)
    requires 0x800 <= c < 0x10000 && Scalar(c)
    ensures var a, b := c / 4096, c / 64 % 64;
            0 <= a <= 15 && (a == 0 ==> b >= 32) && (a == 13 ==> b <= 31)
  {
    assert c / 64 / 64 == c / 4096;
  }

  lemma {:induction false} FourByteBounds(c: int)
    requires 0x10000 <= c <= 0x10FFFF
    ensures var a, b := c / 262144, c / 4096 % 64;
            0 <= a <= 4 && (a == 0 ==> b >= 16) && (a == 4 ==> b <= 15)
  {
    assert c / 4096 / 64 == c / 262144;
  }

  lemma {:induction false} EncodingIsRecognised(c: int, rest: Bytes)
    requires Scalar(c)
    ensures RuneLength(Encode(c) + rest) == |Encode(c)| > 0
  {
    if 0x800 <= c < 0x10000 { ThreeByteBounds(c); }
    if c >= 0x10000 { FourByteBounds(c); }
    assert forall i :: 0 <= i < |Encode(c)| ==> (Encode(c) + rest)[i] == Encode(c)[i];
  }

  // ---------- what is recognised is an encoding ----------

  /** The scalar value a recognised code point stands for. */
  function Decode(s: Bytes): int
    requires RuneLength(s) > 0
  {
    match RuneLength(s)
    case 1 => s[0] as int
    case 2 => (s[0] as int - 0xC0) * 64 + (s[1] as int - 0x80)
    case 3 => (s[0] as int - 0xE0) * 4096 + (s[1] as int - 0x80) * 64 + (s[2] as int - 0x80)
    case _ => (s[0] as int - 0xF0) * 262144 + (s[1] as int - 0x80) * 4096 + (s[2] as int - 0x80) * 64 + (s[3] as int - 0x80)
  }

  lemma {:induction false} Digits(a: int, b: int)
    requires 0 <= b < 64
    ensures (a * 64 + b) / 64 == a && (a * 64 + b) % 64 == b
  {
  }

  lemma {:induction false} ThreeDigits(a: int, b: int, c: int)
    requires 0 <= b < 64 && 0 <= c < 64
    ensures var n := a * 4096 + b * 64 + c; n / 4096 == a && n / 64 % 64 == b && n % 64 == c
  {
    Digits(a * 64 + b, c);
    Digits(a, b);
  }

  lemma {:induction false} FourDigits(a: int, b: int, c: int, d: int)
    requires 0 <= b < 64 && 0 <= c < 64 && 0 <= d < 64
    ensures var n := a * 262144 + b * 4096 + c * 64 + d; n / 262144 == a && n / 4096 % 64 == b && n / 64 % 64 == c && n % 64 == d
  {
    Digits((a * 64 + b) * 64 + c, d);
    ThreeDigits(a, b, c);
  }

  lemma {:induction false} PairIsEncoding(s: Bytes)
    requires 0 < RuneLength(s) <= 2
    ensures Scalar(Decode(s)) && s[..RuneLength(s)] == Encode(Decode(s))
  {
    if RuneLength(s) == 2 { Digits(s[0] - 0xC0, s[1] - 0x80); }
  }

  lemma {:induction false} TripleIsEncoding(s: Bytes)
    requires RuneLength(s) == 3
    ensures Scalar(Decode(s)) && s[..3] == Encode(Decode(s))
  {
    ThreeDigits(s[0] - 0xE0, s[1] - 0x80, s[2] - 0x80);
  }

  lemma {:induction false} QuadIsEncoding(s: Bytes)
    requires RuneLength(s) == 4
    ensures Scalar(Decode(s)) && s[..4] == Encode(Decode(s))
  {
    FourDigits(s[0] - 0xF0, s[1] - 0x80, s[2] - 0x80, s[3] - 0x80);
  }

  lemma {:induction false} RecognisedIsEncoding(s: Bytes)
    requires RuneLength(s) > 0
    ensures Scalar(Decode(s)) && s[..RuneLength(s)] == Encode(Decode(s))
  {
    hide RuneLength, Decode, Encode, Scalar;
    match RuneLength(s) {
      case 3 => TripleIsEncoding(s);
      case 4 => QuadIsEncoding(s);
      case _ => PairIsEncoding(s);
    }
  }

  // ---------- whole texts ----------

  lemma {:induction false} EncodingIsValid(cs: seq<int>)
    requires AllScalars(cs)
    ensures Valid(EncodeAll(cs))
  {
    if cs == [] {
    } else {
      EncodingIsValid(cs[1..]);
      EncodingIsRecognised(cs[0], EncodeAll(cs[1..]));
      assert EncodeAll(cs)[|Encode(cs[0])|..] == EncodeAll(cs[1..]);
    }
  }

  lemma {:induction false} EncodesOneMore(c: int, rest: seq<int>)
    requires Scalar(c) && AllScalars(rest)
    ensures AllScalars([c] + rest) && EncodeAll([c] + rest) == Encode(c) + EncodeAll(rest)
  {
    hide Scalar, Encode;
    assert ([c] + rest)[1..] == rest;
  }

  lemma {:induction false} FirstOfValid(s: Bytes)
    requires Valid(s) && s != []
    ensures 0 < RuneLength(s) <= |s| && Valid(s[RuneLength(s)..])
  {
  }

  lemma {:induction false} ValidIsEncoding(s: Bytes) returns (cs: seq<int>)
    requires Valid(s)
    ensures AllScalars(cs) && EncodeAll(cs) == s
  {
    hide RuneLength, Valid, Decode, Encode, Scalar;
    if s == [] {
      cs := [];
    } else {
      FirstOfValid(s);
      var n := RuneLength(s);
      var rest := ValidIsEncoding(s[n..]);
      RecognisedIsEncoding(s);
      EncodesOneMore(Decode(s), rest);
      cs := [Decode(s)] + rest;
      assert s == s[..n] + s[n..];
    }
  }

  /** Text is well formed if and only if it is the encoding of some scalar values. */
  lemma {:induction false} ValidMeansEncoded(s: Bytes)
    ensures Valid(s) <==> exists cs :: AllScalars(cs) && EncodeAll(cs) == s
  {
    if Valid(s) { var cs := ValidIsEncoding(s); }
    if cs :| AllScalars(cs) && EncodeAll(cs) == s { EncodingIsValid(cs); }
  }
}
