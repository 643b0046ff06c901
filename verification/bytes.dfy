// Little-endian byte images of two's complement integers, as the xcore
// target lays out `int16_t` / `int32_t` samples in memory, in stream
// buffers and on the inter-tile link.
module Bytes {
  import opened Ints

  /** An octet, as stored in flash, stream buffers and link messages. */
  type byte = u8

  /** 256^n: the number of distinct n-byte values. */
  function Pow256(n: nat): (r: nat)
    ensures r >= 1
    ensures n > 0 ==> r % 2 == 0
  {
    if n == 0 then 1 else 256 * Pow256(n - 1)
  }

  lemma Pow256Values()
    ensures Pow256(2) == 0x1_0000
    ensures Pow256(4) == 0x1_0000_0000
  {
    assert Pow256(1) == 256;
    assert Pow256(3) == 0x100_0000;
  }

  /** Unsigned little-endian image of u in n bytes. */
  function ToLE(u: nat, n: nat): (b: seq<byte>)
    requires u < Pow256(n)
    ensures |b| == n
  {
    if n == 0 then [] else [u % 256] + ToLE(u / 256, n - 1)
  }

  /** Unsigned value of a little-endian byte image. */
  function FromLE(b: seq<byte>): (u: nat)
    ensures u < Pow256(|b|)
  {
    if b == [] then 0 else b[0] + 256 * FromLE(b[1..])
  }

  lemma {:induction false} FromToLE(u: nat, n: nat)
    requires u < Pow256(n)
    ensures FromLE(ToLE(u, n)) == u
  {
    if n > 0 {
      var b := ToLE(u, n);
      assert b[1..] == ToLE(u / 256, n - 1);
      FromToLE(u / 256, n - 1);
    }
  }

  lemma {:induction false} ToFromLE(b: seq<byte>)
    ensures ToLE(FromLE(b), |b|) == b
  {
    if b != [] {
      var u := FromLE(b);
      assert u % 256 == b[0] && u / 256 == FromLE(b[1..]);
      ToFromLE(b[1..]);
    }
  }

  /** v is representable as an n-byte two's complement value. */
  predicate FitsSigned(v: int, n: nat)
  {
    -(Pow256(n) / 2) <= v < Pow256(n) / 2
  }

  lemma FitsI32(v: int)
    ensures FitsSigned(v, 4) <==> INT32_MIN <= v <= INT32_MAX
  {
    Pow256Values();
  }

  lemma FitsI16(v: int)
    ensures FitsSigned(v, 2) <==> INT16_MIN <= v <= INT16_MAX
  {
    Pow256Values();
  }

  /** Two's complement little-endian image of v in n bytes. */
  function EncodeInt(v: int, n: nat): (b: seq<byte>)
    requires FitsSigned(v, n)
    ensures |b| == n
  {
    ToLE(if v < 0 then v + Pow256(n) else v, n)
  }

  /** Signed value of a two's complement little-endian image. */
  function DecodeInt(b: seq<byte>): (v: int)
    requires |b| > 0
    ensures FitsSigned(v, |b|)
  {
    var u := FromLE(b);
    if u < Pow256(|b|) / 2 then u else u - Pow256(|b|)
  }

  lemma DecodeEncodeInt(v: int, n: nat)
    requires FitsSigned(v, n)
    ensures n > 0 && DecodeInt(EncodeInt(v, n)) == v
  {
    FromToLE(if v < 0 then v + Pow256(n) else v, n);
  }

  predicate AllFit(vs: seq<int>, n: nat)
  {
    forall i :: 0 <= i < |vs| ==> FitsSigned(vs[i], n)
  }

  /** Byte image of a sequence of n-byte samples, laid out one after another. */
  function EncodeInts(vs: seq<int>, n: nat): (b: seq<byte>)
    requires AllFit(vs, n)
    ensures |b| == |vs| * n
  {
    if vs == [] then []
    else
      var b := EncodeInt(vs[0], n) + EncodeInts(vs[1..], n);
      assert |vs| * n == n + (|vs| - 1) * n;
      b
  }

  /** The samples of a byte image made of n-byte two's complement values (a trailing partial value is ignored). */
  function DecodeInts(b: seq<byte>, n: nat): (vs: seq<int>)
    requires n > 0
    ensures AllFit(vs, n)
    decreases |b|
  {
    if |b| < n then [] else [DecodeInt(b[..n])] + DecodeInts(b[n..], n)
  }

  lemma {:induction false} DecodeIntsLength(b: seq<byte>, n: nat, k: nat)
    requires n > 0 && |b| == k * n
    ensures |DecodeInts(b, n)| == k
  {
    if k > 0 {
      assert |b| == n + (k - 1) * n;
      DecodeIntsLength(b[n..], n, k - 1);
    }
  }

  lemma {:induction false} DecodeEncodeInts(vs: seq<int>, n: nat)
    requires n > 0 && AllFit(vs, n)
    ensures DecodeInts(EncodeInts(vs, n), n) == vs
  {
    if vs != [] {
      var b := EncodeInts(vs, n);
      assert b[..n] == EncodeInt(vs[0], n);
      assert b[n..] == EncodeInts(vs[1..], n);
      DecodeEncodeInt(vs[0], n);
      DecodeEncodeInts(vs[1..], n);
    }
  }

  // Interleaved multi-channel frames: one row per sample instant, one
  // column per channel (C `samp_t frame[samples][channels]`).

  predicate IsRows(rows: seq<seq<int>>, width: nat, n: nat)
  {
    forall k :: 0 <= k < |rows| ==> |rows[k]| == width && AllFit(rows[k], n)
  }

  /** Byte image of an interleaved frame: the rows one after another. */
  function EncodeRows(rows: seq<seq<int>>, width: nat, n: nat): (b: seq<byte>)
    requires IsRows(rows, width, n)
    ensures |b| == |rows| * (width * n)
  {
    if rows == [] then []
    else
      var b := EncodeInts(rows[0], n) + EncodeRows(rows[1..], width, n);
      assert |rows| * (width * n) == width * n + (|rows| - 1) * (width * n);
      b
  }

  /** The interleaved frame whose byte image is b (a trailing partial row is ignored). */
  function DecodeRows(b: seq<byte>, width: nat, n: nat): (rows: seq<seq<int>>)
    requires n > 0
    ensures IsRows(rows, width, n)
    decreases |b|
  {
    var rowBytes := width * n;
    if |b| < rowBytes || rowBytes == 0 then []
    else
      DecodeIntsLength(b[..rowBytes], n, width);
      [DecodeInts(b[..rowBytes], n)] + DecodeRows(b[rowBytes..], width, n)
  }

  lemma {:induction false} DecodeRowsLength(b: seq<byte>, width: nat, n: nat, k: nat)
    requires width > 0 && n > 0 && |b| == k * (width * n)
    ensures |DecodeRows(b, width, n)| == k
  {
    var rowBytes := width * n;
    assert rowBytes > 0;
    if k > 0 {
      assert |b| == rowBytes + (k - 1) * rowBytes;
      DecodeRowsLength(b[rowBytes..], width, n, k - 1);
    }
  }

  lemma {:induction false} DecodeEncodeRows(rows: seq<seq<int>>, width: nat, n: nat)
    requires width > 0 && n > 0 && IsRows(rows, width, n)
    ensures DecodeRows(EncodeRows(rows, width, n), width, n) == rows
  {
    var rowBytes := width * n;
    assert rowBytes > 0;
    var b := EncodeRows(rows, width, n);
    if rows != [] {
      assert |EncodeInts(rows[0], n)| == rowBytes;
      assert b[..rowBytes] == EncodeInts(rows[0], n);
      assert b[rowBytes..] == EncodeRows(rows[1..], width, n);
      DecodeEncodeInts(rows[0], n);
      DecodeEncodeRows(rows[1..], width, n);
    }
  }
}
