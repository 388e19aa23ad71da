/** Little-endian numbers of fixed width. */
module Encoding {

  import opened Bytes

  function Power(width: nat): nat { if width == 0 then 1 else 256 * Power(width - 1) }

  /** The low `width` bytes of n, lowest first. */
  function Encode(n: nat, width: nat): (b: Bytes)
    ensures |b| == width
  {
    if width == 0 then [] else [n % 256] + Encode(n / 256, width - 1)
  }

  function Decode(b: Bytes): nat {
    if b == [] then 0 else b[0] + 256 * Decode(b[1..])
  }

  lemma {:induction false} RoundTrip(n: nat, width: nat)
    requires n < Power(width)
    ensures Decode(Encode(n, width)) == n
  {
    if width > 0 {
      RoundTrip(n / 256, width - 1);
      assert Encode(n, width)[1..] == Encode(n / 256, width - 1);
    }
  }

  lemma {:induction false} DecodeBound(b: Bytes)
    ensures Decode(b) < Power(|b|)
  {
    if b != [] {
      DecodeBound(b[1..]);
    }
  }

  /** Lengths are written as uint32. */
  ghost predicate Fits(n: nat) { n < Power(4) }

  lemma PowerFour()
    ensures Power(4) == 0x1_0000_0000
  {
    assert Power(1) == 256 && Power(2) == 65536 && Power(3) == 16777216;
  }

  /** The bytes of a uint32, lowest first. */
  lemma FourBytesAre(n: nat)
    ensures Encode(n, 4) == [n % 256, n / 256 % 256, n / 65536 % 256, n / 16777216 % 256]
  {
    var a, b, c := n / 256, n / 65536, n / 16777216;
    assert a / 256 == b && b / 256 == c;
    assert Encode(c, 1) == [c % 256] && Encode(b, 2) == [b % 256] + Encode(c, 1);
    assert Encode(a, 3) == [a % 256] + Encode(b, 2);
  }

  lemma {:induction false} ZeroBytes(width: nat)
    ensures Encode(0, width) == seq(width, _ => 0)
  {
    if width > 0 {
      ZeroBytes(width - 1);
    }
  }

  lemma SmallBytes(n: nat)
    requires n < 256
    ensures Encode(n, 4) == [n, 0, 0, 0] && Encode(n, 8) == [n, 0, 0, 0, 0, 0, 0, 0]
  {
    ZeroBytes(3);
    ZeroBytes(7);
    assert Encode(n, 4) == [n % 256] + Encode(n / 256, 3) && Encode(n, 8) == [n % 256] + Encode(n / 256, 7);
  }

  // ---------------------------------------------------------------- length-prefixed fields

  function Field(b: Bytes): Bytes { Encode(|b|, 4) + b }

  /** The field at the front of the bytes: io.ReadFull of a length and of that many bytes. */
  predicate HasField(b: Bytes) { |b| >= 4 && |b| >= 4 + Decode(b[..4]) }

  function FieldAt(b: Bytes): Bytes
    requires HasField(b)
  {
    b[4..4 + Decode(b[..4])]
  }

  lemma FieldRoundTrip(b: Bytes, rest: Bytes)
    requires Fits(|b|)
    ensures HasField(Field(b) + rest) && FieldAt(Field(b) + rest) == b && (Field(b) + rest)[|Field(b)|..] == rest
  {
    var all := Field(b) + rest;
    RoundTrip(|b|, 4);
    assert all[..4] == Encode(|b|, 4);
    assert all[4..4 + |b|] == b;
  }

  // ---------------------------------------------------------------- putting parts together

  function Concat(parts: seq<Bytes>): Bytes { if parts == [] then [] else parts[0] + Concat(parts[1..]) }

  lemma Assoc(a: Bytes, b: Bytes, c: Bytes)
    ensures (a + b) + c == a + (b + c)
  {
  }

  lemma {:induction false} ConcatAppend(parts: seq<Bytes>, last: Bytes)
    ensures Concat(parts + [last]) == Concat(parts) + last
  {
    if parts == [] {
      assert [last][1..] == [];
    } else {
      ConcatAppend(parts[1..], last);
      assert (parts + [last])[1..] == parts[1..] + [last];
      Assoc(parts[0], Concat(parts[1..]), last);
    }
  }

  lemma DropTwice(b: Bytes, i: nat, j: nat)
    requires i + j <= |b|
    ensures b[i..][j..] == b[i + j..]
  {
  }
}
