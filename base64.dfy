/** Base 64 as Python's `base64` module does it: `b64encode` writes the encoding of
    section 4 of RFC 4648 (standard alphabet, "=" padding), and `b64decode`
    without `validate` is CPython's non-strict `binascii.a2b_base64`, which skips
    characters outside the alphabet, stops at a complete pad sequence and rejects
    input that ends in the middle of a quantum. */
module Base64 {
  import opened Wrappers

  newtype uint8 = x: int | 0 <= x < 256

  /** Table 1 of RFC 4648: the character that encodes a 6-bit value. */
  function SextetChar(v: nat): char
    requires v < 64
  {
    if v < 26 then ('A' as int + v) as char
    else if v < 52 then ('a' as int + (v - 26)) as char
    else if v < 62 then ('0' as int + (v - 52)) as char
    else if v == 62 then '+'
    else '/'
  }

  /** The decoder's table: the value of an alphabet character, 64 for any other. */
  function SextetValue(c: char): (v: nat)
    ensures v <= 64
  {
    if 'A' <= c <= 'Z' then c as int - 'A' as int
    else if 'a' <= c <= 'z' then c as int - 'a' as int + 26
    else if '0' <= c <= '9' then c as int - '0' as int + 52
    else if c == '+' then 62
    else if c == '/' then 63
    else 64
  }

  lemma SextetRoundTrip(v: nat)
    requires v < 64
    ensures SextetValue(SextetChar(v)) == v
  {
  }

  // ---------------------------------------------------------------------------
  // b64encode

  /** The four characters that encode three bytes. */
  function EncodeQuantum(b0: uint8, b1: uint8, b2: uint8): string {
    [ SextetChar(b0 as nat / 4),
      SextetChar((b0 as nat % 4) * 16 + b1 as nat / 16),
      SextetChar((b1 as nat % 16) * 4 + b2 as nat / 64),
      SextetChar(b2 as nat % 64) ]
  }

  /** `base64.b64encode(b).decode("ascii")`: whole quanta, then a final one or two
      bytes padded with "==" or "=". */
  function Encode(b: seq<uint8>): (e: string)
    ensures |e| == 4 * ((|b| + 2) / 3)
    decreases |b|
  {
    if |b| == 0 then ""
    else if |b| == 1 then
      [SextetChar(b[0] as nat / 4), SextetChar((b[0] as nat % 4) * 16), '=', '=']
    else if |b| == 2 then
      [ SextetChar(b[0] as nat / 4),
        SextetChar((b[0] as nat % 4) * 16 + b[1] as nat / 16),
        SextetChar((b[1] as nat % 16) * 4), '=' ]
    else EncodeQuantum(b[0], b[1], b[2]) + Encode(b[3..])
  }

  // ---------------------------------------------------------------------------
  // b64decode

  /** The decoder's state between characters: how many sextets of the current
      quantum were read, the bits of the last one not yet written out, and how
      many pad characters were seen since the last alphabet character. */
  predicate DecoderState(quadPos: nat, left: nat) {
    && quadPos < 4
    && (quadPos == 0 ==> left == 0)
    && (quadPos == 1 ==> left < 64)
    && (quadPos == 2 ==> left < 16)
    && (quadPos == 3 ==> left < 4)
  }

  function Prepend(x: uint8, rest: Option<seq<uint8>>): Option<seq<uint8>> {
    match rest
    case None => None
    case Some(bs) => Some([x] + bs)
  }

  /** `binascii.a2b_base64(s, strict_mode=False)` from the given state; `None` is
      the binascii.Error it raises ("Incorrect padding", or a data length one more
      than a multiple of four). */
  function A2b(s: string, quadPos: nat, left: nat, pads: nat): Option<seq<uint8>>
    requires DecoderState(quadPos, left)
    decreases |s|
  {
    if s == [] then
      if quadPos == 0 then Some([]) else None
    else if s[0] == '=' then
      if quadPos >= 2 && quadPos + pads + 1 >= 4 then Some([])
      else A2b(s[1..], quadPos, left, if quadPos >= 2 then pads + 1 else pads)
    else
      var v := SextetValue(s[0]);
      if v == 64 then A2b(s[1..], quadPos, left, pads)
      else if quadPos == 0 then A2b(s[1..], 1, v, 0)
      else if quadPos == 1 then Prepend((left * 4 + v / 16) as uint8, A2b(s[1..], 2, v % 16, 0))
      else if quadPos == 2 then Prepend((left * 16 + v / 4) as uint8, A2b(s[1..], 3, v % 4, 0))
      else Prepend((left * 64 + v) as uint8, A2b(s[1..], 0, 0, 0))
  }

  /** `base64.b64decode(s)` for a str: a character outside ASCII makes the
      conversion to bytes raise ValueError (`None`); otherwise non-strict
      a2b_base64. */
  function Decode(s: string): (r: Option<seq<uint8>>)
    ensures r.Some? ==> forall k :: 0 <= k < |s| ==> s[k] as int < 128
  {
    if exists k :: 0 <= k < |s| && s[k] as int >= 128 then None
    else A2b(s, 0, 0, 0)
  }

  // ---------------------------------------------------------------------------
  // Properties

  lemma QuantumAlphabet(b0: uint8, b1: uint8, b2: uint8)
    ensures forall k :: 0 <= k < 4 ==> SextetValue(EncodeQuantum(b0, b1, b2)[k]) < 64
  {
    SextetRoundTrip(b0 as nat / 4);
    SextetRoundTrip((b0 as nat % 4) * 16 + b1 as nat / 16);
    SextetRoundTrip((b1 as nat % 16) * 4 + b2 as nat / 64);
    SextetRoundTrip(b2 as nat % 64);
  }

  /** Every character b64encode writes is in the alphabet or is the pad. */
  lemma {:induction false} EncodeAlphabet(b: seq<uint8>)
    ensures |Encode(b)| == 4 * ((|b| + 2) / 3)
    ensures forall k :: 0 <= k < |Encode(b)| ==> SextetValue(Encode(b)[k]) < 64 || Encode(b)[k] == '='
    decreases |b|
  {
    if |b| >= 3 {
      EncodeAlphabet(b[3..]);
      var q := EncodeQuantum(b[0], b[1], b[2]);
      QuantumAlphabet(b[0], b[1], b[2]);
      assert Encode(b) == q + Encode(b[3..]);
    } else if |b| == 2 {
      SextetRoundTrip(b[0] as nat / 4);
      SextetRoundTrip((b[0] as nat % 4) * 16 + b[1] as nat / 16);
      SextetRoundTrip((b[1] as nat % 16) * 4);
    } else if |b| == 1 {
      SextetRoundTrip(b[0] as nat / 4);
      SextetRoundTrip((b[0] as nat % 4) * 16);
    }
  }

  /** The four sextets of a quantum give back its three bytes. */
  lemma QuantumBytes(b0: uint8, b1: uint8, b2: uint8)
    ensures (b0 as nat / 4) * 4 + ((b0 as nat % 4) * 16 + b1 as nat / 16) / 16 == b0 as nat
    ensures (((b0 as nat % 4) * 16 + b1 as nat / 16) % 16) * 16 + ((b1 as nat % 16) * 4 + b2 as nat / 64) / 4 == b1 as nat
    ensures (((b1 as nat % 16) * 4 + b2 as nat / 64) % 4) * 64 + b2 as nat % 64 == b2 as nat
  {
  }

  /** A whole quantum decodes to its three bytes, and the decoder is back in its
      initial state for what follows. */
  lemma DecodeQuantum(b0: uint8, b1: uint8, b2: uint8, rest: string)
    ensures A2b(EncodeQuantum(b0, b1, b2) + rest, 0, 0, 0) == Prepend(b0, Prepend(b1, Prepend(b2, A2b(rest, 0, 0, 0))))
  {
    var v0, v1, v2, v3 := b0 as nat / 4, (b0 as nat % 4) * 16 + b1 as nat / 16, (b1 as nat % 16) * 4 + b2 as nat / 64, b2 as nat % 64;
    SextetRoundTrip(v0); SextetRoundTrip(v1); SextetRoundTrip(v2); SextetRoundTrip(v3);
    QuantumBytes(b0, b1, b2);
    var s0 := EncodeQuantum(b0, b1, b2) + rest;
    var s1, s2, s3 := s0[1..], s0[2..], s0[3..];
    assert s0[0] == SextetChar(v0) && s1[0] == SextetChar(v1) && s2[0] == SextetChar(v2) && s3[0] == SextetChar(v3);
    assert s1[1..] == s2 && s2[1..] == s3 && s3[1..] == rest;
    assert A2b(s0, 0, 0, 0) == A2b(s1, 1, v0, 0);
    assert A2b(s1, 1, v0, 0) == Prepend(b0, A2b(s2, 2, v1 % 16, 0));
    assert A2b(s2, 2, v1 % 16, 0) == Prepend(b1, A2b(s3, 3, v2 % 4, 0));
    assert A2b(s3, 3, v2 % 4, 0) == Prepend(b2, A2b(rest, 0, 0, 0));
  }

  /** Two final bytes: three sextets and one pad. */
  lemma DecodeTwo(b0: uint8, b1: uint8)
    ensures A2b(Encode([b0, b1]), 0, 0, 0) == Some([b0, b1])
  {
    var v0, v1, v2 := b0 as nat / 4, (b0 as nat % 4) * 16 + b1 as nat / 16, (b1 as nat % 16) * 4;
    SextetRoundTrip(v0); SextetRoundTrip(v1); SextetRoundTrip(v2);
    QuantumBytes(b0, b1, 0);
    var s0 := Encode([b0, b1]);
    assert s0 == [SextetChar(v0), SextetChar(v1), SextetChar(v2), '='];
    var s1, s2, s3 := s0[1..], s0[2..], s0[3..];
    assert s1[1..] == s2 && s2[1..] == s3 && s3 == ['='];
    assert A2b(s0, 0, 0, 0) == A2b(s1, 1, v0, 0);
    assert A2b(s1, 1, v0, 0) == Prepend(b0, A2b(s2, 2, v1 % 16, 0));
    assert A2b(s2, 2, v1 % 16, 0) == Prepend(b1, A2b(s3, 3, v2 % 4, 0));
    assert A2b(s3, 3, v2 % 4, 0) == Some([]);
    assert [b1] + [] == [b1];
    assert [b0] + [b1] == [b0, b1];
  }

  /** One final byte: two sextets and two pads. */
  lemma DecodeOne(b0: uint8)
    ensures A2b(Encode([b0]), 0, 0, 0) == Some([b0])
  {
    var v0, v1 := b0 as nat / 4, (b0 as nat % 4) * 16;
    SextetRoundTrip(v0); SextetRoundTrip(v1);
    QuantumBytes(b0, 0, 0);
    var s := Encode([b0]);
    assert s == [SextetChar(v0), SextetChar(v1), '=', '='];
    assert s[1..][1..] == ['=', '='];
    assert s[1..][1..][1..] == ['='];
    assert A2b(s[1..][1..], 2, v1 % 16, 0) == Some([]);
    assert [b0] + [] == [b0];
  }

  lemma {:induction false} DecodeEncodedFrom(b: seq<uint8>)
    ensures A2b(Encode(b), 0, 0, 0) == Some(b)
    decreases |b|
  {
    if |b| >= 3 {
      DecodeEncodedFrom(b[3..]);
      DecodeQuantum(b[0], b[1], b[2], Encode(b[3..]));
      assert [b[0]] + ([b[1]] + ([b[2]] + b[3..])) == b;
    } else if |b| == 2 {
      DecodeTwo(b[0], b[1]);
      assert [b[0], b[1]] == b;
    } else if |b| == 1 {
      DecodeOne(b[0]);
      assert [b[0]] == b;
    }
  }

  /** Section 4 of RFC 4648 round trip: what b64encode writes, b64decode reads
      back unchanged. */
  lemma DecodeEncode(b: seq<uint8>)
    ensures Decode(Encode(b)) == Some(b)
  {
    EncodeAlphabet(b);
    var s := Encode(b);
    forall k | 0 <= k < |s| ensures s[k] as int < 128 {
      assert SextetValue(s[k]) < 64 || s[k] == '=';
    }
    DecodeEncodedFrom(b);
  }
}
