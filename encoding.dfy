/** Byte encodings used by the trace header: lower-case hexadecimal text
    (how OpenTelemetry reads and prints a trace id) and big-endian
    integers (Go's `encoding/binary.BigEndian`). */
module Encoding {
  import Strconv

  type Byte = x: int | 0 <= x < 256

  predicate IsZero(b: seq<Byte>) {
    forall i :: 0 <= i < |b| ==> b[i] == 0
  }

  function Zeros(k: nat): (b: seq<Byte>)
    ensures |b| == k && IsZero(b)
  {
    seq(k, i => 0)
  }

  // ---------------------------------------------------------------------
  // Lower-case hexadecimal

  predicate IsLowerHex(c: char) {
    '0' <= c <= '9' || 'a' <= c <= 'f'
  }

  predicate AllLowerHex(s: string) {
    forall i :: 0 <= i < |s| ==> IsLowerHex(s[i])
  }

  function HexValue(c: char): (v: nat)
    requires IsLowerHex(c)
    ensures v < 16
    ensures v == 0 <==> c == '0'
  {
    if c <= '9' then c as int - '0' as int else c as int - 'a' as int + 10
  }

  function HexDigit(v: nat): (c: char)
    requires v < 16
    ensures IsLowerHex(c) && HexValue(c) == v
  {
    if v < 10 then ('0' as int + v) as char else ('a' as int + v - 10) as char
  }

  lemma HexDigitOfValue(c: char)
    requires IsLowerHex(c)
    ensures HexDigit(HexValue(c)) == c
  {
  }

  /** Two hex digits per byte, the high nibble first. */
  function DecodeHex(h: string): (b: seq<Byte>)
    requires |h| % 2 == 0 && AllLowerHex(h)
    ensures |b| == |h| / 2
  {
    if h == [] then [] else [HexValue(h[0]) * 16 + HexValue(h[1])] + DecodeHex(h[2..])
  }

  /** The lower-case hex text of a byte string, as `TraceID.String()`
      prints it. */
  function EncodeHex(b: seq<Byte>): (h: string)
    ensures |h| == 2 * |b| && AllLowerHex(h)
  {
    if b == [] then [] else [HexDigit(b[0] / 16), HexDigit(b[0] % 16)] + EncodeHex(b[1..])
  }

  lemma {:induction false} EncodeDecodeHex(h: string)
    requires |h| % 2 == 0 && AllLowerHex(h)
    ensures EncodeHex(DecodeHex(h)) == h
  {
    if h != [] {
      var hi, lo := HexValue(h[0]), HexValue(h[1]);
      assert (hi * 16 + lo) / 16 == hi && (hi * 16 + lo) % 16 == lo;
      HexDigitOfValue(h[0]);
      HexDigitOfValue(h[1]);
      EncodeDecodeHex(h[2..]);
      assert h == [h[0], h[1]] + h[2..];
    }
  }

  lemma {:induction false} DecodeEncodeHex(b: seq<Byte>)
    ensures DecodeHex(EncodeHex(b)) == b
  {
    if b != [] {
      var h := EncodeHex(b);
      assert h[2..] == EncodeHex(b[1..]);
      DecodeEncodeHex(b[1..]);
    }
  }

  /** A decoded byte string is all zero exactly when its text is all '0'. */
  lemma {:induction false} DecodeHexZero(h: string)
    requires |h| % 2 == 0 && AllLowerHex(h)
    ensures IsZero(DecodeHex(h)) <==> forall i :: 0 <= i < |h| ==> h[i] == '0'
  {
    if h != [] {
      var b := DecodeHex(h);
      DecodeHexZero(h[2..]);
      assert b[1..] == DecodeHex(h[2..]);
      if IsZero(b) {
        assert IsZero(b[1..]);
        assert b[0] == HexValue(h[0]) * 16 + HexValue(h[1]) == 0;
        forall i | 0 <= i < |h| ensures h[i] == '0' {
          if i >= 2 {
            assert h[2..][i - 2] == h[i];
          }
        }
      } else {
        var i :| 0 <= i < |b| && b[i] != 0;
        if i == 0 {
          assert h[0] != '0' || h[1] != '0';
        } else {
          assert b[1..][i - 1] != 0;
          var j :| 0 <= j < |h[2..]| && h[2..][j] != '0';
          assert h[j + 2] != '0';
        }
      }
    }
  }

  // ---------------------------------------------------------------------
  // Big-endian integers

  function Pow256(k: nat): (p: nat)
    ensures p > 0
  {
    if k == 0 then 1 else 256 * Pow256(k - 1)
  }

  /** The `k`-byte big-endian encoding of `n`, most significant byte first. */
  function BigEndian(n: nat, k: nat): (b: seq<Byte>)
    requires n < Pow256(k)
    ensures |b| == k
  {
    if k == 0 then [] else BigEndian(n / 256, k - 1) + [n % 256]
  }

  /** The number a big-endian byte string denotes. */
  function FromBigEndian(b: seq<Byte>): (n: nat)
    ensures n < Pow256(|b|)
  {
    if b == [] then 0 else FromBigEndian(b[..|b| - 1]) * 256 + b[|b| - 1]
  }

  lemma {:induction false} BigEndianRoundTrip(n: nat, k: nat)
    requires n < Pow256(k)
    ensures FromBigEndian(BigEndian(n, k)) == n
  {
    if k > 0 {
      var b := BigEndian(n, k);
      assert b[..k - 1] == BigEndian(n / 256, k - 1);
      BigEndianRoundTrip(n / 256, k - 1);
    }
  }

  lemma {:induction false} FromBigEndianRoundTrip(b: seq<Byte>)
    ensures BigEndian(FromBigEndian(b), |b|) == b
  {
    if b != [] {
      var p := b[..|b| - 1];
      var n := FromBigEndian(b);
      assert n / 256 == FromBigEndian(p) && n % 256 == b[|b| - 1];
      FromBigEndianRoundTrip(p);
    }
  }

  lemma {:induction false} FromBigEndianZero(b: seq<Byte>)
    ensures FromBigEndian(b) == 0 <==> IsZero(b)
  {
    if b != [] {
      FromBigEndianZero(b[..|b| - 1]);
    }
  }

  lemma Pow256Of8()
    ensures Pow256(8) == Strconv.MaxUint64 + 1
  {
  }

  /** `binary.BigEndian.PutUint64`: the eight bytes of a 64-bit value. The
      bytes decode back to `n`, and they are all zero exactly when `n` is. */
  function PutUint64(n: nat): (b: seq<Byte>)
    requires n <= Strconv.MaxUint64
    ensures |b| == 8 && FromBigEndian(b) == n
    ensures IsZero(b) <==> n == 0
  {
    Pow256Of8();
    BigEndianRoundTrip(n, 8);
    FromBigEndianZero(BigEndian(n, 8));
    BigEndian(n, 8)
  }
}
