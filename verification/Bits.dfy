// Regrouping bit strings: bytes into symbols of w bits and back, most significant bit first.
// Base64 is the case w = 6, base32 the case w = 5.
module Bits {
  import opened Common

  // ---- Division ----

  lemma Monotone(a: nat, b: nat, w: nat)
    ensures a <= b ==> a * w <= b * w
  {
    if a <= b { assert b * w == a * w + (b - a) * w; }
  }

  lemma Quotient(n: nat, q: nat, w: nat)
    requires 0 < w && q * w <= n < q * w + w
    ensures n / w == q && n % w == n - q * w
  {
    var d := n / w;
    assert n == d * w + n % w;
    Monotone(d + 1, q, w);
    Monotone(q + 1, d, w);
  }

  lemma TakeAway(n: nat, w: nat)
    requires 0 < w <= n
    ensures (n - w) / w == n / w - 1 && (n - w) % w == n % w
  {
    assert (n / w - 1) * w == n / w * w - w;
    Quotient(n - w, n / w - 1, w);
  }

  // ---- Bits ----

  function Pow2(n: nat): (r: nat)
    ensures 1 <= r
  {
    if n == 0 then 1 else 2 * Pow2(n - 1)
  }

  // The low w bits of n.
  function ToBits(n: nat, w: nat): (r: seq<bool>)
    ensures |r| == w
  {
    if w == 0 then [] else ToBits(n / 2, w - 1) + [n % 2 == 1]
  }

  function FromBits(b: seq<bool>): (r: nat)
    ensures r < Pow2(|b|)
  {
    if b == [] then 0
    else 2 * FromBits(b[..|b| - 1]) + if b[|b| - 1] then 1 else 0
  }

  lemma {:induction false} FromTo(n: nat, w: nat)
    requires n < Pow2(w)
    ensures FromBits(ToBits(n, w)) == n
  {
    if w > 0 {
      FromTo(n / 2, w - 1);
      assert ToBits(n, w)[..w - 1] == ToBits(n / 2, w - 1);
    }
  }

  lemma {:induction false} ToFrom(b: seq<bool>)
    ensures ToBits(FromBits(b), |b|) == b
  {
    if b != [] {
      var n := |b| - 1;
      ToFrom(b[..n]);
      assert b == b[..n] + [b[n]];
    }
  }

  predicate Below(xs: seq<nat>, n: nat) {
    forall i :: 0 <= i < |xs| ==> xs[i] < n
  }

  // The bits of the symbols, w bits each.
  function Explode(xs: seq<nat>, w: nat): (r: seq<bool>)
    ensures |r| == |xs| * w
  {
    if xs == [] then [] else ToBits(xs[0], w) + Explode(xs[1..], w)
  }

  // The symbols of w bits each; bits left over at the end are dropped.
  function Chunk(b: seq<bool>, w: nat): (r: seq<nat>)
    requires 0 < w
    ensures |r| == |b| / w
    ensures Below(r, Pow2(w))
    decreases |b|
  {
    if |b| < w then [] else
      TakeAway(|b|, w);
      [FromBits(b[..w])] + Chunk(b[w..], w)
  }

  lemma {:induction false} ChunkExplode(xs: seq<nat>, w: nat, tail: seq<bool>)
    requires |tail| < w && Below(xs, Pow2(w))
    ensures Chunk(Explode(xs, w) + tail, w) == xs
  {
    if xs == [] {
      assert Explode(xs, w) + tail == tail;
    } else {
      Assoc(ToBits(xs[0], w), Explode(xs[1..], w), tail);
      ChunkFirst(xs[0], Explode(xs[1..], w) + tail, w);
      ChunkExplode(xs[1..], w, tail);
      assert xs == [xs[0]] + xs[1..];
    }
  }

  lemma ChunkFirst(n: nat, rest: seq<bool>, w: nat)
    requires 0 < w && n < Pow2(w)
    ensures Chunk(ToBits(n, w) + rest, w) == [n] + Chunk(rest, w)
  {
    var b := ToBits(n, w) + rest;
    assert b[..w] == ToBits(n, w) && b[w..] == rest;
    FromTo(n, w);
  }

  lemma {:induction false} ExplodeChunk(b: seq<bool>, w: nat)
    requires 0 < w && |b| % w == 0
    ensures Explode(Chunk(b, w), w) == b
    decreases |b|
  {
    if |b| >= w {
      ToFrom(b[..w]);
      TakeAway(|b|, w);
      ExplodeChunk(b[w..], w);
      assert Chunk(b, w)[1..] == Chunk(b[w..], w);
      assert b == b[..w] + b[w..];
    }
  }

  // How many bits complete the last symbol.
  function Missing(n: nat, w: nat): (k: nat)
    requires 0 < w
    ensures k < w
  {
    if n % w == 0 then 0 else w - n % w
  }

  lemma Completed(n: nat, w: nat)
    requires 0 < w
    ensures (n + Missing(n, w)) % w == 0
  {
    if n % w != 0 {
      var q := n / w;
      assert (q + 1) * w == q * w + w;
      Quotient(n + (w - n % w), q + 1, w);
    }
  }

  // Zero bits that complete the last symbol.
  function Zeros(n: nat, w: nat): (r: seq<bool>)
    requires 0 < w
    ensures |r| == Missing(n, w) && |r| < w && (n + |r|) % w == 0
    ensures forall i :: 0 <= i < |r| ==> !r[i]
  {
    Completed(n, w);
    seq(Missing(n, w), _ => false)
  }

  function Widen(bytes: seq<Byte>): (r: seq<nat>)
    ensures |r| == |bytes| && Below(r, 256) && forall i :: 0 <= i < |r| ==> r[i] == bytes[i]
  {
    if bytes == [] then [] else [bytes[0]] + Widen(bytes[1..])
  }

  function Narrow(xs: seq<nat>): (r: seq<Byte>)
    requires Below(xs, 256)
    ensures |r| == |xs|
  {
    if xs == [] then [] else [xs[0]] + Narrow(xs[1..])
  }

  function Encode(bytes: seq<Byte>, w: nat): (r: seq<nat>)
    requires 0 < w
    ensures Below(r, Pow2(w))
  {
    var bits := Explode(Widen(bytes), 8);
    Chunk(bits + Zeros(|bits|, w), w)
  }

  function Decode(symbols: seq<nat>, w: nat): (r: seq<Byte>)
    ensures |r| == |symbols| * w / 8
  {
    assert Pow2(8) == 256;
    Narrow(Chunk(Explode(symbols, w), 8))
  }

  // For symbols of at most eight bits, every byte string comes back.
  lemma RoundTrip(bytes: seq<Byte>, w: nat)
    requires 0 < w <= 8
    ensures Decode(Encode(bytes, w), w) == bytes
  {
    var bits := Explode(Widen(bytes), 8);
    assert Pow2(8) == 256;
    ExplodeChunk(bits + Zeros(|bits|, w), w);
    ChunkExplode(Widen(bytes), 8, Zeros(|bits|, w));
    NarrowWiden(bytes);
  }

  lemma {:induction false} NarrowWiden(bytes: seq<Byte>)
    ensures Narrow(Widen(bytes)) == bytes
  {
    if bytes != [] { NarrowWiden(bytes[1..]); }
  }

  // The number of symbols: the bits of the bytes, rounded up.
  lemma EncodedLength(bytes: seq<Byte>, w: nat)
    requires 0 < w
    ensures |Encode(bytes, w)| == (8 * |bytes| + w - 1) / w
  {
    var n := 8 * |bytes|;
    var total := n + |Zeros(n, w)|;
    var q := total / w;
    assert total == q * w;
    assert (n + w - 1) / w == q by { Quotient(n + w - 1, q, w); }
  }

  // ---- As numbers ----

  // The number with these digits, most significant first.
  function FromDigits(xs: seq<nat>, base: nat): nat {
    if xs == [] then 0 else FromDigits(xs[..|xs| - 1], base) * base + xs[|xs| - 1]
  }

  lemma Doubled(x: nat, n: nat)
    ensures x * Pow2(n + 1) == 2 * (x * Pow2(n))
  {
  }

  lemma LastBit(a: seq<bool>, bit: bool)
    ensures FromBits(a + [bit]) == 2 * FromBits(a) + if bit then 1 else 0
  {
    assert (a + [bit])[..|a|] == a;
  }

  lemma {:induction false} FromBitsAppend(a: seq<bool>, b: seq<bool>)
    ensures FromBits(a + b) == FromBits(a) * Pow2(|b|) + FromBits(b)
  {
    if b == [] {
      assert a + b == a;
    } else {
      var n := |b| - 1;
      FromBitsAppend(a, b[..n]);
      LastBit(a + b[..n], b[n]);
      LastBit(b[..n], b[n]);
      assert b == b[..n] + [b[n]];
      Assoc(a, b[..n], [b[n]]);
      Doubled(FromBits(a), n);
    }
  }

  lemma {:induction false} ExplodeAppend(xs: seq<nat>, x: nat, w: nat)
    ensures Explode(xs + [x], w) == Explode(xs, w) + ToBits(x, w)
  {
    if xs == [] {
      assert Explode([x], w) == ToBits(x, w) + Explode([], w);
    } else {
      assert (xs + [x])[1..] == xs[1..] + [x];
      ExplodeAppend(xs[1..], x, w);
    }
  }

  lemma {:induction false} ExplodedValue(xs: seq<nat>, w: nat)
    requires Below(xs, Pow2(w))
    ensures FromBits(Explode(xs, w)) == FromDigits(xs, Pow2(w))
  {
    if xs != [] {
      var n := |xs| - 1;
      assert xs == xs[..n] + [xs[n]];
      ExplodedValue(xs[..n], w);
      ExplodeAppend(xs[..n], xs[n], w);
      FromBitsAppend(Explode(xs[..n], w), ToBits(xs[n], w));
      FromTo(xs[n], w);
    }
  }

  lemma {:induction false} ZeroBits(b: seq<bool>)
    requires forall i :: 0 <= i < |b| ==> !b[i]
    ensures FromBits(b) == 0
  {
    if b != [] { ZeroBits(b[..|b| - 1]); }
  }

  // The bits that complete the last symbol.
  function Fill(n: nat, w: nat): (z: nat)
    requires 0 < w
  {
    Missing(8 * n, w)
  }

  lemma ChunkedValue(bits: seq<bool>, w: nat)
    requires 0 < w
    ensures var zeros := Zeros(|bits|, w);
      FromDigits(Chunk(bits + zeros, w), Pow2(w)) == FromBits(bits) * Pow2(|zeros|)
  {
    var zeros := Zeros(|bits|, w);
    ExplodeChunk(bits + zeros, w);
    ExplodedValue(Chunk(bits + zeros, w), w);
    FromBitsAppend(bits, zeros);
    ZeroBits(zeros);
  }

  // The symbols, read as the digits of a number, are the bytes read so, shifted left by the bits that complete the last
  // symbol: these are zero, and the order of bits and symbols is that of section 4 of RFC 4648.
  lemma EncodedValue(bytes: seq<Byte>, w: nat)
    requires 0 < w
    ensures FromDigits(Encode(bytes, w), Pow2(w)) == FromDigits(Widen(bytes), 256) * Pow2(Fill(|bytes|, w))
  {
    assert Pow2(8) == 256;
    var bits := Explode(Widen(bytes), 8);
    assert |bits| == 8 * |bytes| && |Zeros(|bits|, w)| == Fill(|bytes|, w);
    ExplodedValue(Widen(bytes), 8);
    ChunkedValue(bits, w);
  }
}
