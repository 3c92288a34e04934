/** `u64::to_be_bytes` and `u64::from_be_bytes`, the wire form of a ping's correlation token. */
module BigEndian {
  import opened Prelude

  type Byte = b: nat | b < 256

  type U64 = n: nat | n < U64_SPAN

  function Span(width: nat): nat {
    if width == 0 then 1 else 256 * Span(width - 1)
  }

  function Encode(n: nat, width: nat): (bytes: seq<Byte>)
    ensures |bytes| == width
  {
    if width == 0 then [] else Encode(n / 256, width - 1) + [n % 256]
  }

  function Decode(bytes: seq<Byte>): nat {
    if bytes == [] then 0 else Decode(bytes[..|bytes| - 1]) * 256 + bytes[|bytes| - 1]
  }

  lemma {:induction false} DecodeEncode(n: nat, width: nat)
    requires n < Span(width)
    ensures Decode(Encode(n, width)) == n
  {
    if width > 0 {
      DecodeEncode(n / 256, width - 1);
      assert Encode(n, width)[..width - 1] == Encode(n / 256, width - 1);
    }
  }

  lemma {:induction false} EncodeDecode(bytes: seq<Byte>)
    ensures Decode(bytes) < Span(|bytes|)
    ensures Encode(Decode(bytes), |bytes|) == bytes
  {
    if bytes != [] {
      var init := bytes[..|bytes| - 1];
      EncodeDecode(init);
      assert Decode(bytes) / 256 == Decode(init);
      assert bytes == init + [bytes[|bytes| - 1]];
    }
  }

  lemma SpanOfEight()
    ensures Span(8) == U64_SPAN
  {
    assert Span(0) == 1;
    assert Span(1) == 256;
    assert Span(2) == 256 * 256;
    assert Span(3) == 256 * 256 * 256;
    assert Span(4) == 256 * Span(3);
    assert Span(5) == 256 * Span(4);
    assert Span(6) == 256 * Span(5);
    assert Span(7) == 256 * Span(6);
  }

  function ToBytes(n: U64): seq<Byte> {
    Encode(n, 8)
  }

  /** Only an 8-byte payload carries a token at all. */
  function FromBytes(payload: seq<Byte>): (token: Option<U64>)
    ensures token.Some? <==> |payload| == 8
  {
    if |payload| != 8 then None
    else
      SpanOfEight();
      EncodeDecode(payload);
      Some(Decode(payload))
  }

  /** A payload carries token `n` exactly when it is the encoding of `n`, so distinct tokens never
      share a payload. */
  lemma TokenIffEncoding(payload: seq<Byte>, n: U64)
    ensures FromBytes(payload) == Some(n) <==> payload == ToBytes(n)
  {
    SpanOfEight();
    DecodeEncode(n, 8);
    if |payload| == 8 {
      EncodeDecode(payload);
    }
  }
}
