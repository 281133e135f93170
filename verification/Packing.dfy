/** Fixed-width big-endian integers, as struct.pack(">...") writes them. */
module Packing {
  import opened Types

  type Word32 = x: int | 0 <= x < 0x1_0000_0000

  /** 256 to the given power. */
  function Span(width: nat): (r: nat)
    ensures r > 0
  {
    if width == 0 then 1 else 256 * Span(width - 1)
  }

  predicate Fits(n: int, width: nat) {
    0 <= n < Span(width)
  }

  function Pack(n: nat, width: nat): (b: Bytes)
    ensures |b| == width
  {
    if width == 0 then [] else Pack(n / 256, width - 1) + [n % 256]
  }

  function Unpack(b: Bytes): nat {
    if b == [] then 0 else 256 * Unpack(b[..|b| - 1]) + b[|b| - 1]
  }

  /** Unpacking undoes packing, for every integer that the width can hold. */
  lemma {:induction false} PackRoundTrip(n: nat, width: nat)
    requires Fits(n, width)
    ensures Unpack(Pack(n, width)) == n
  {
    if width > 0 {
      PackRoundTrip(n / 256, width - 1);
      var b := Pack(n, width);
      assert b[..|b| - 1] == Pack(n / 256, width - 1);
    }
  }

  /** Packing undoes unpacking, for every string of bytes. */
  lemma {:induction false} UnpackRoundTrip(b: Bytes)
    ensures Fits(Unpack(b), |b|) && Pack(Unpack(b), |b|) == b
  {
    if b != [] {
      UnpackRoundTrip(b[..|b| - 1]);
      assert b == b[..|b| - 1] + [b[|b| - 1]];
    }
  }

  /** The most significant byte comes first: byte i of a packed integer counts multiples of 256 to the number of the
      bytes behind it. */
  lemma {:induction false} PackOrder(n: nat, width: nat, i: nat)
    requires i < width
    ensures Pack(n, width)[i] == n / Span(width - 1 - i) % 256
  {
    hide Span;
    if i < width - 1 {
      PackOrder(n / 256, width - 1, i);
      SpanNext(width - 1 - i);
      DivTwice(n, Span(width - 2 - i));
    } else {
      SpanNone();
    }
  }

  lemma SpanNext(width: nat)
    requires width > 0
    ensures Span(width) == 256 * Span(width - 1)
  {
  }

  lemma SpanNone()
    ensures Span(0) == 1
  {
  }

  lemma DivTwice(n: nat, d: nat)
    requires d > 0
    ensures n / (256 * d) == n / 256 / d
  {
    var q, r := n / 256, n % 256;
    var q', r' := q / d, q % d;
    assert n == 256 * q + r && q == d * q' + r';
    Regroup(d, q', r', r);
    DivUnique(n, 256 * d, q', 256 * r' + r);
  }

  lemma Regroup(d: nat, q: nat, r: nat, s: nat)
    ensures 256 * (d * q + r) + s == 256 * d * q + (256 * r + s)
  {
  }

  lemma DivUnique(n: nat, d: nat, q: nat, r: nat)
    requires d > 0 && r < d && n == d * q + r
    ensures n / d == q
  {
    var k := n / d;
    if k < q {
      Multiples(d, k + 1, q);
      assert false;
    } else if k > q {
      Multiples(d, q + 1, k);
      assert false;
    }
  }

  lemma Multiples(d: nat, a: nat, b: nat)
    requires a <= b
    ensures d * a <= d * b && d * (a + 1) == d * a + d
  {
  }

  /** One header field: unpacking a slice that was packed. */
  lemma FieldRoundTrip(before: Bytes, n: nat, width: nat, after: Bytes)
    requires Fits(n, width)
    ensures
      var b := before + Pack(n, width) + after;
      Unpack(b[|before|..|before| + width]) == n
  {
    var b := before + Pack(n, width) + after;
    assert b[|before|..|before| + width] == Pack(n, width);
    PackRoundTrip(n, width);
  }

  lemma FieldAt(b: Bytes, before: Bytes, n: nat, width: nat, after: Bytes)
    requires Fits(n, width) && b == before + Pack(n, width) + after
    ensures Unpack(b[|before|..|before| + width]) == n
  {
    hide Pack, Unpack, Fits;
    FieldRoundTrip(before, n, width, after);
  }

  lemma CrcFits(w: Word32)
    ensures Fits(w, 4)
  {
    Spans();
  }

  lemma Spans()
    ensures Span(1) == 0x100 && Span(2) == 0x1_0000 && Span(4) == 0x1_0000_0000 && Span(8) == 0x1_0000_0000_0000_0000
  {
    assert Span(3) == 0x100_0000 && Span(5) == 0x100_0000_0000;
    assert Span(6) == 0x1_0000_0000_0000 && Span(7) == 0x100_0000_0000_0000;
  }
}
