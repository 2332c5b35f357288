/** Payload identifiers: 64-bit counters written as eight big-endian bytes. */
module PayloadIds {
  import opened Types
  import opened Division

  type Byte = n: nat | n < 256

  type PayloadId = bytes: seq<Byte> | |bytes| == 8 witness [0, 0, 0, 0, 0, 0, 0, 0]

  function Power256(k: nat): (p: nat)
    ensures p > 0
  {
    if k == 0 then 1 else 256 * Power256(k - 1)
  }

  function Encode(n: nat, width: nat): (bytes: seq<Byte>)
    ensures |bytes| == width
  {
    if width == 0 then [] else Encode(n / 256, width - 1) + [n % 256]
  }

  function Decode(bytes: seq<Byte>): nat {
    if bytes == [] then 0 else 256 * Decode(bytes[..|bytes| - 1]) + bytes[|bytes| - 1]
  }

  function ToBeBytes(n: U64): PayloadId {
    Encode(n, 8)
  }

  function FromBeBytes(id: PayloadId): (n: U64)
    ensures ToBeBytes(n) == id
  {
    EncodeDecode(id);
    assert Power256(8) == U64_LIMIT by { PowerOfEight(); }
    Decode(id)
  }

  lemma {:induction false} PowerOfEight()
    ensures Power256(8) == U64_LIMIT
  {
    assert Power256(2) == 0x1_0000;
    assert Power256(4) == 0x1_0000_0000;
    assert Power256(6) == 0x1_0000_0000_0000;
  }

  lemma {:induction false} DecodeEncode(n: nat, width: nat)
    requires n < Power256(width)
    ensures Decode(Encode(n, width)) == n
  {
    if width > 0 {
      DecodeEncode(n / 256, width - 1);
      var bytes := Encode(n, width);
      assert bytes[..|bytes| - 1] == Encode(n / 256, width - 1);
    }
  }

  lemma {:induction false} EncodeDecode(bytes: seq<Byte>)
    ensures Decode(bytes) < Power256(|bytes|)
    ensures Encode(Decode(bytes), |bytes|) == bytes
  {
    if bytes != [] {
      EncodeDecode(bytes[..|bytes| - 1]);
      assert Decode(bytes) / 256 == Decode(bytes[..|bytes| - 1]);
      assert bytes == bytes[..|bytes| - 1] + [bytes[|bytes| - 1]];
    }
  }

  /** Writing and reading a counter are inverse, so distinct counters have distinct identifiers. */
  lemma {:induction false} RoundTrip(n: U64)
    ensures FromBeBytes(ToBeBytes(n)) == n
  {
    PowerOfEight();
    DecodeEncode(n, 8);
  }

  lemma {:induction false} Injective(a: U64, b: U64)
    ensures ToBeBytes(a) == ToBeBytes(b) <==> a == b
  {
    RoundTrip(a);
    RoundTrip(b);
  }

  /** The most significant byte comes first. */
  lemma {:induction false} BigEndian(n: U64, i: nat)
    requires i < 8
    ensures ToBeBytes(n)[i] == n / Power256(7 - i) % 256
  {
    EncodeDigit(n, 8, i);
  }

  lemma {:induction false} EncodeDigit(n: nat, width: nat, i: nat)
    requires i < width
    ensures Encode(n, width)[i] == n / Power256(width - 1 - i) % 256
  {
    if i < width - 1 {
      EncodeDigit(n / 256, width - 1, i);
      DivideInTurn(n, Power256(width - 2 - i));
    }
  }

  lemma {:induction false} DivideInTurn(n: nat, p: nat)
    requires p > 0
    ensures n / 256 / p == n / (256 * p)
  {
    var q, r := n / 256, n % 256;
    var a, b := q / p, q % p;
    MulMonotone(256, b, p - 1);
    assert n == 256 * (p * a + b) + r;
    assert 256 * (p * a + b) == (256 * p) * a + 256 * b;
    DivUnique(n, 256 * p, a, 256 * b + r);
  }
}
