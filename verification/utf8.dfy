/**
 The UTF-8 decoder behind wide memory streams, against sections 3 and 4 of RFC 3629.
 */
module Utf8 {
  import opened Options

  type Byte = bv8
  type Scalar = bv32

  datatype Decoded = Ok(codepoint: Scalar, consumed: nat) | Incomplete | Invalid

  // ------------------------------------------------------------------ the decoder

  predicate Continues(b: Byte) { b & 0xC0 == 0x80 }

  function Low6(b: Byte): Scalar { (b & 0x3F) as Scalar }

  function Two(b0: Byte, b1: Byte): Scalar { (((b0 & 0x1F) as Scalar) << 6) | Low6(b1) }

  function Three(b0: Byte, b1: Byte, b2: Byte): Scalar {
    (((b0 & 0x0F) as Scalar) << 12) | (Low6(b1) << 6) | Low6(b2)
  }

  function Four(b0: Byte, b1: Byte, b2: Byte, b3: Byte): Scalar {
    (((b0 & 0x07) as Scalar) << 18) | (Low6(b1) << 12) | (Low6(b2) << 6) | Low6(b3)
  }

  function DecodeCodepoint(s: seq<Byte>): Decoded {
    if s == [] then Incomplete
    else if s[0] < 0x80 then Ok(s[0] as Scalar, 1)
    else if 0xC2 <= s[0] <= 0xDF then
      if |s| < 2 then Incomplete
      else if !Continues(s[1]) then Invalid
      else Ok(Two(s[0], s[1]), 2)
    else if 0xE0 <= s[0] <= 0xEF then
      if |s| < 3 then Incomplete
      else if !Continues(s[1]) || !Continues(s[2]) then Invalid
      else if (s[0] == 0xE0 && s[1] < 0xA0) || (s[0] == 0xED && s[1] >= 0xA0) then Invalid
      else Ok(Three(s[0], s[1], s[2]), 3)
    else if 0xF0 <= s[0] <= 0xF4 then
      if |s| < 4 then Incomplete
      else if !Continues(s[1]) || !Continues(s[2]) || !Continues(s[3]) then Invalid
      else if (s[0] == 0xF0 && s[1] < 0x90) || (s[0] == 0xF4 && s[1] >= 0x90) then Invalid
      else Ok(Four(s[0], s[1], s[2], s[3]), 4)
    else Invalid
  }

  function DecodeString(s: seq<Byte>): Option<seq<Scalar>>
    decreases |s|
  {
    if s == [] then Some([])
    else
      match DecodeCodepoint(s)
      case Ok(c, k) =>
        if 0 < k <= |s| then
          match DecodeString(s[k..])
          case Some(rest) => Some([c] + rest)
          case None => None
        else None
      case Incomplete => None
      case Invalid => None
  }

  function Prepend(output: seq<Scalar>, rest: Option<seq<Scalar>>): Option<seq<Scalar>> {
    match rest
    case None => None
    case Some(r) => Some(output + r)
  }

  /** Decoding splits at the first code point. */
  lemma DecodeSplits(s: seq<Byte>)
    requires s != []
    ensures !DecodeCodepoint(s).Ok? ==> DecodeString(s) == None
    ensures DecodeCodepoint(s).Ok? ==>
              && 0 < DecodeCodepoint(s).consumed <= |s|
              && DecodeString(s) == Prepend([DecodeCodepoint(s).codepoint], DecodeString(s[DecodeCodepoint(s).consumed..]))
  {
  }

  lemma PrependNothing(rest: Option<seq<Scalar>>)
    ensures Prepend([], rest) == rest
  {
    if rest.Some? { assert [] + rest.value == rest.value; }
  }

  lemma PrependTwice(a: seq<Scalar>, c: Scalar, rest: Option<seq<Scalar>>)
    ensures Prepend(a, Prepend([c], rest)) == Prepend(a + [c], rest)
  {
    if rest.Some? { assert a + ([c] + rest.value) == a + [c] + rest.value; }
  }

  method DecodeStringToWchars(input: seq<Byte>) returns (ok: bool, output: seq<Scalar>)
    ensures ok <==> DecodeString(input).Some?
    ensures ok ==> output == DecodeString(input).value
  {
    output := [];
    var offset := 0;
    assert input[0..] == input;
    PrependNothing(DecodeString(input));
    while offset < |input|
      invariant 0 <= offset <= |input|
      invariant Prepend(output, DecodeString(input[offset..])) == DecodeString(input)
      decreases |input| - offset
    {
      var rest := input[offset..];
      var d := DecodeCodepoint(rest);
      DecodeSplits(rest);
      if !d.Ok? || d.consumed == 0 { return false, output; }
      assert rest[d.consumed..] == input[offset + d.consumed..];
      PrependTwice(output, d.codepoint, DecodeString(rest[d.consumed..]));
      output := output + [d.codepoint];
      offset := offset + d.consumed;
    }
    assert input[offset..] == [];
    ok := true;
  }

  // ------------------------------------------------------------------ RFC 3629

  predicate Tail(b: Byte) { 0x80 <= b <= 0xBF }

  /** UTF8-char of the ABNF in section 4. */
  predicate Utf8Char(s: seq<Byte>) {
    || (|s| == 1 && s[0] <= 0x7F)
    || (|s| == 2 && 0xC2 <= s[0] <= 0xDF && Tail(s[1]))
    || (|s| == 3 && Tail(s[1]) && Tail(s[2])
        && (|| (s[0] == 0xE0 && 0xA0 <= s[1])
            || 0xE1 <= s[0] <= 0xEC
            || (s[0] == 0xED && s[1] <= 0x9F)
            || 0xEE <= s[0] <= 0xEF))
    || (|s| == 4 && Tail(s[1]) && Tail(s[2]) && Tail(s[3])
        && (|| (s[0] == 0xF0 && 0x90 <= s[1])
            || 0xF1 <= s[0] <= 0xF3
            || (s[0] == 0xF4 && s[1] <= 0x8F)))
  }

  /** UTF8-octets: a concatenation of UTF8-chars. */
  ghost predicate Utf8Octets(s: seq<Byte>)
    decreases |s|
  { s == [] || exists k :: 0 < k <= |s| && Utf8Char(s[..k]) && Utf8Octets(s[k..]) }

  /** The code points UTF-8 encodes: all but the surrogates. */
  predicate IsScalar(c: Scalar) { c <= 0xD7FF || 0xE000 <= c <= 0x10FFFF }

  function Head2(c: Scalar): Byte { 0xC0 | (((c >> 6) & 0x1F) as Byte) }

  function Head3(c: Scalar): Byte { 0xE0 | (((c >> 12) & 0x0F) as Byte) }

  function Head4(c: Scalar): Byte { 0xF0 | (((c >> 18) & 0x07) as Byte) }

  function Octet(c: Scalar): Byte { 0x80 | ((c & 0x3F) as Byte) }

  /** Section 3: fill the x bits of the row the code point falls in. */
  function Encode(c: Scalar): seq<Byte>
    requires IsScalar(c)
  {
    if c <= 0x7F then [(c & 0x7F) as Byte]
    else if c <= 0x7FF then [Head2(c), Octet(c)]
    else if c <= 0xFFFF then [Head3(c), Octet(c >> 6), Octet(c)]
    else [Head4(c), Octet(c >> 12), Octet(c >> 6), Octet(c)]
  }

  predicate AreScalars(cs: seq<Scalar>) { forall i :: 0 <= i < |cs| ==> IsScalar(cs[i]) }

  function EncodeAll(cs: seq<Scalar>): seq<Byte>
    requires AreScalars(cs)
  { if cs == [] then [] else Encode(cs[0]) + EncodeAll(cs[1..]) }

  // ------------------------------------------------------------------ one character

  lemma ContinuesIsTail(b: Byte)
    ensures Continues(b) <==> Tail(b)
  {
  }

  /** The decoder accepts exactly the inputs that begin with a UTF8-char, and consumes just that. */
  lemma DecodesGrammar(s: seq<Byte>, k: nat)
    requires 0 < k <= |s|
    ensures Utf8Char(s[..k]) <==> DecodeCodepoint(s).Ok? && DecodeCodepoint(s).consumed == k
  {
    if |s| > 1 { ContinuesIsTail(s[1]); }
    if |s| > 2 { ContinuesIsTail(s[2]); }
    if |s| > 3 { ContinuesIsTail(s[3]); }
  }

  lemma Consumes(s: seq<Byte>)
    requires DecodeCodepoint(s).Ok?
    ensures 0 < DecodeCodepoint(s).consumed <= |s|
  {
  }

  lemma EncodeTwo(b0: Byte, b1: Byte)
    requires 0xC2 <= b0 <= 0xDF && Tail(b1)
    ensures 0x80 <= Two(b0, b1) <= 0x7FF && Encode(Two(b0, b1)) == [b0, b1]
  {
  }

  lemma ThreeBytes(b0: Byte, b1: Byte, b2: Byte)
    requires 0xE0 <= b0 <= 0xEF && Tail(b1) && Tail(b2)
    ensures var c := Three(b0, b1, b2);
            Head3(c) == b0 && Octet(c >> 6) == b1 && Octet(c) == b2
  {
  }

  lemma ThreeRange(b0: Byte, b1: Byte, b2: Byte)
    requires 0xE0 <= b0 <= 0xEF && Tail(b1) && Tail(b2)
    ensures var c := Three(b0, b1, b2);
            && c <= 0xFFFF && (c >= 0x800 <==> b0 > 0xE0 || b1 >= 0xA0)
            && (0xD800 <= c <= 0xDFFF <==> b0 == 0xED && b1 >= 0xA0)
  {
  }

  lemma EncodeThree(b0: Byte, b1: Byte, b2: Byte)
    requires 0xE0 <= b0 <= 0xEF && Tail(b1) && Tail(b2) && !(b0 == 0xE0 && b1 < 0xA0) && !(b0 == 0xED && b1 >= 0xA0)
    ensures IsScalar(Three(b0, b1, b2)) && Encode(Three(b0, b1, b2)) == [b0, b1, b2]
  {
    ThreeRange(b0, b1, b2);
    ThreeBytes(b0, b1, b2);
    var c := Three(b0, b1, b2);
    assert Encode(c) == [Head3(c), Octet(c >> 6), Octet(c)];
  }

  lemma FourHead(b0: Byte, b1: Byte, b2: Byte, b3: Byte)
    requires 0xF0 <= b0 <= 0xF4
    ensures Head4(Four(b0, b1, b2, b3)) == b0
  {
  }

  lemma FourTails(b0: Byte, b1: Byte, b2: Byte, b3: Byte)
    requires Tail(b1) && Tail(b2) && Tail(b3)
    ensures Octet(Four(b0, b1, b2, b3) >> 12) == b1
    ensures Octet(Four(b0, b1, b2, b3) >> 6) == b2
    ensures Octet(Four(b0, b1, b2, b3)) == b3
  {
  }

  lemma FourScalar(b0: Byte, b1: Byte, b2: Byte, b3: Byte)
    requires 0xF0 <= b0 <= 0xF4 && Tail(b1) && Tail(b2) && Tail(b3)
    requires !(b0 == 0xF0 && b1 < 0x90) && !(b0 == 0xF4 && b1 >= 0x90)
    ensures 0x1_0000 <= Four(b0, b1, b2, b3) <= 0x10_FFFF
  {
  }

  /** The bytes of c, found in a four-byte encoding of it. */
  predicate LongShape(c: Scalar, b0: Byte, b1: Byte, b2: Byte, b3: Byte) {
    && 0x1_0000 <= c <= 0x10_FFFF
    && Head4(c) == b0 && Octet(c >> 12) == b1 && Octet(c >> 6) == b2 && Octet(c) == b3
  }

  lemma FourShape(b0: Byte, b1: Byte, b2: Byte, b3: Byte)
    requires 0xF0 <= b0 <= 0xF4 && Tail(b1) && Tail(b2) && Tail(b3)
    requires 0x1_0000 <= Four(b0, b1, b2, b3) <= 0x10_FFFF
    ensures LongShape(Four(b0, b1, b2, b3), b0, b1, b2, b3)
  {
    FourHead(b0, b1, b2, b3);
    FourTails(b0, b1, b2, b3);
  }

  lemma EncodeLong(c: Scalar, b0: Byte, b1: Byte, b2: Byte, b3: Byte)
    requires LongShape(c, b0, b1, b2, b3)
    ensures IsScalar(c) && Encode(c) == [b0, b1, b2, b3]
  {
  }

  // ------------------------------------------------------------------ both directions

  /** What is decoded is a scalar value whose encoding is exactly the bytes consumed. */
  lemma DecodedEncodes(s: seq<Byte>)
    requires DecodeCodepoint(s).Ok?
    ensures var d := DecodeCodepoint(s);
            0 < d.consumed <= |s| && IsScalar(d.codepoint) && Encode(d.codepoint) == s[..d.consumed]
  {
    if s[0] < 0x80 {
      EncodeOne(s[0]);
      assert s[..1] == [s[0]];
    } else if s[0] <= 0xDF {
      DecodedTwo(s);
    } else if s[0] <= 0xEF {
      DecodedThree(s);
    } else {
      DecodedFour(s);
    }
  }

  lemma DecodedTwo(s: seq<Byte>)
    requires DecodeCodepoint(s).Ok? && 0xC2 <= s[0] <= 0xDF
    ensures DecodeCodepoint(s).consumed == 2 <= |s|
    ensures IsScalar(DecodeCodepoint(s).codepoint) && Encode(DecodeCodepoint(s).codepoint) == s[..2]
  {
    ContinuesIsTail(s[1]);
    EncodeTwo(s[0], s[1]);
    assert s[..2] == [s[0], s[1]];
  }

  lemma DecodedThree(s: seq<Byte>)
    requires DecodeCodepoint(s).Ok? && 0xE0 <= s[0] <= 0xEF
    ensures DecodeCodepoint(s).consumed == 3 <= |s|
    ensures IsScalar(DecodeCodepoint(s).codepoint) && Encode(DecodeCodepoint(s).codepoint) == s[..3]
  {
    ContinuesIsTail(s[1]);
    ContinuesIsTail(s[2]);
    EncodeThree(s[0], s[1], s[2]);
    assert s[..3] == [s[0], s[1], s[2]];
  }

  lemma DecodedFour(s: seq<Byte>)
    requires DecodeCodepoint(s).Ok? && 0xF0 <= s[0]
    ensures DecodeCodepoint(s).consumed == 4 <= |s|
    ensures IsScalar(DecodeCodepoint(s).codepoint) && Encode(DecodeCodepoint(s).codepoint) == s[..4]
  {
    ContinuesIsTail(s[1]);
    ContinuesIsTail(s[2]);
    ContinuesIsTail(s[3]);
    FourScalar(s[0], s[1], s[2], s[3]);
    FourShape(s[0], s[1], s[2], s[3]);
    EncodeLong(DecodeCodepoint(s).codepoint, s[0], s[1], s[2], s[3]);
    assert s[..4] == [s[0], s[1], s[2], s[3]];
  }

  lemma EncodeOne(b: Byte)
    requires b < 0x80
    ensures IsScalar(b as Scalar) && Encode(b as Scalar) == [b]
  {
  }

  lemma ShortBytes(c: Scalar)
    requires 0x80 <= c <= 0x7FF
    ensures 0xC2 <= Head2(c) <= 0xDF && Tail(Octet(c)) && Two(Head2(c), Octet(c)) == c
  {
  }

  lemma OctetIsTail(c: Scalar)
    ensures Tail(Octet(c))
  {
  }

  lemma MediumHead(c: Scalar)
    requires 0x800 <= c <= 0xFFFF
    ensures 0xE0 <= Head3(c) <= 0xEF && Three(Head3(c), Octet(c >> 6), Octet(c)) == c
  {
  }

  lemma MediumSecond(c: Scalar)
    requires 0x800 <= c <= 0xFFFF && IsScalar(c)
    ensures !(Head3(c) == 0xE0 && Octet(c >> 6) < 0xA0) && !(Head3(c) == 0xED && Octet(c >> 6) >= 0xA0)
  {
  }

  lemma LongHead(c: Scalar)
    requires 0x1_0000 <= c <= 0x10_FFFF
    ensures 0xF0 <= Head4(c) <= 0xF4
  {
  }

  lemma LongValue(c: Scalar)
    requires 0x1_0000 <= c <= 0x10_FFFF
    ensures Four(Head4(c), Octet(c >> 12), Octet(c >> 6), Octet(c)) == c
  {
  }

  lemma LongSecond(c: Scalar)
    requires 0x1_0000 <= c <= 0x10_FFFF
    ensures !(Head4(c) == 0xF0 && Octet(c >> 12) < 0x90) && !(Head4(c) == 0xF4 && Octet(c >> 12) >= 0x90)
  {
  }

  lemma DecodeTwo(s: seq<Byte>)
    requires |s| >= 2 && 0xC2 <= s[0] <= 0xDF && Tail(s[1])
    ensures DecodeCodepoint(s) == Ok(Two(s[0], s[1]), 2)
  {
    ContinuesIsTail(s[1]);
  }

  lemma DecodeThree(s: seq<Byte>)
    requires |s| >= 3 && 0xE0 <= s[0] <= 0xEF && Tail(s[1]) && Tail(s[2])
    requires !(s[0] == 0xE0 && s[1] < 0xA0) && !(s[0] == 0xED && s[1] >= 0xA0)
    ensures DecodeCodepoint(s) == Ok(Three(s[0], s[1], s[2]), 3)
  {
    ContinuesIsTail(s[1]);
    ContinuesIsTail(s[2]);
  }

  lemma DecodeFour(s: seq<Byte>)
    requires |s| >= 4 && 0xF0 <= s[0] <= 0xF4 && Tail(s[1]) && Tail(s[2]) && Tail(s[3])
    requires !(s[0] == 0xF0 && s[1] < 0x90) && !(s[0] == 0xF4 && s[1] >= 0x90)
    ensures DecodeCodepoint(s) == Ok(Four(s[0], s[1], s[2], s[3]), 4)
  {
    ContinuesIsTail(s[1]);
    ContinuesIsTail(s[2]);
    ContinuesIsTail(s[3]);
  }

  /** Decoding an encoding, whatever follows it, gives the scalar back. */
  lemma EncodedDecodes(c: Scalar, rest: seq<Byte>)
    requires IsScalar(c)
    ensures DecodeCodepoint(Encode(c) + rest) == Ok(c, |Encode(c)|)
  {
    var s := Encode(c) + rest;
    if c <= 0x7F {
      OneByte(c);
    } else if c <= 0x7FF {
      ShortBytes(c);
      DecodeTwo(s);
    } else if c <= 0xFFFF {
      OctetIsTail(c >> 6);
      OctetIsTail(c);
      MediumHead(c);
      MediumSecond(c);
      DecodeThree(s);
    } else {
      OctetIsTail(c >> 12);
      OctetIsTail(c >> 6);
      OctetIsTail(c);
      LongHead(c);
      LongValue(c);
      LongSecond(c);
      DecodeFour(s);
    }
  }

  lemma OneByte(c: Scalar)
    requires c <= 0x7F
    ensures (c & 0x7F) as Byte < 0x80 && ((c & 0x7F) as Byte) as Scalar == c
  {
  }

  // ------------------------------------------------------------------ strings

  /** Decoding the encoding of any scalar sequence gives it back. */
  lemma {:induction false} DecodeEncodeAll(cs: seq<Scalar>)
    requires AreScalars(cs)
    ensures DecodeString(EncodeAll(cs)) == Some(cs)
  {
    if cs != [] {
      var s, head := EncodeAll(cs), Encode(cs[0]);
      EncodedDecodes(cs[0], EncodeAll(cs[1..]));
      assert s[|head|..] == EncodeAll(cs[1..]);
      DecodeEncodeAll(cs[1..]);
      assert [cs[0]] + cs[1..] == cs;
    }
  }

  lemma EncodeCons(c: Scalar, rest: seq<Scalar>, s: seq<Byte>, k: nat)
    requires k <= |s| && IsScalar(c) && Encode(c) == s[..k] && AreScalars(rest) && EncodeAll(rest) == s[k..]
    ensures AreScalars([c] + rest) && EncodeAll([c] + rest) == s
  {
    assert ([c] + rest)[1..] == rest;
  }

  /** Whatever string is decoded, its scalars encode to just that string. */
  lemma {:induction false} EncodeDecodeString(s: seq<Byte>)
    requires DecodeString(s).Some?
    ensures AreScalars(DecodeString(s).value) && EncodeAll(DecodeString(s).value) == s
    decreases |s|
  {
    if s != [] {
      var d := DecodeCodepoint(s);
      DecodedEncodes(s);
      EncodeDecodeString(s[d.consumed..]);
      EncodeCons(d.codepoint, DecodeString(s[d.consumed..]).value, s, d.consumed);
    }
  }

  /** The string decoder succeeds exactly on the encodings of scalar sequences, and its output is
      the only such sequence. */
  lemma DecodesExactly(s: seq<Byte>)
    ensures DecodeString(s).Some? <==> exists cs: seq<Scalar> :: AreScalars(cs) && EncodeAll(cs) == s
    ensures forall cs: seq<Scalar> :: AreScalars(cs) && EncodeAll(cs) == s ==> DecodeString(s) == Some(cs)
  {
    forall cs: seq<Scalar> | AreScalars(cs) && EncodeAll(cs) == s ensures DecodeString(s) == Some(cs) {
      DecodeEncodeAll(cs);
    }
    if DecodeString(s).Some? { EncodeDecodeString(s); }
  }

  /** ... and exactly on the strings of the grammar. */
  lemma {:induction false} DecodesOctets(s: seq<Byte>)
    ensures DecodeString(s).Some? <==> Utf8Octets(s)
    decreases |s|
  {
    if s != [] {
      if DecodeCodepoint(s).Ok? {
        var k := DecodeCodepoint(s).consumed;
        Consumes(s);
        DecodesGrammar(s, k);
        DecodesOctets(s[k..]);
      }
      forall k | 0 < k <= |s| && Utf8Char(s[..k])
        ensures DecodeCodepoint(s).Ok? && DecodeCodepoint(s).consumed == k
      {
        DecodesGrammar(s, k);
      }
    }
  }
}
