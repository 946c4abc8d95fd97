/** Bytes, little-endian integers and in-place overwrites. */
module Bytes {

  type byte = b: int | 0 <= b < 256

  const TWO63 := 0x8000_0000_0000_0000
  const TWO64 := 0x1_0000_0000_0000_0000

  function Pow256(k: nat): (p: nat)
    ensures p >= 1
  {
    if k == 0 then 1 else 256 * Pow256(k - 1)
  }

  function Digit(u: nat, i: nat): byte {
    u / Pow256(i) % 256
  }

  /** The k low bytes of u, least significant first. */
  function Le(u: nat, k: nat): (s: seq<byte>)
    ensures |s| == k
  {
    seq(k, i requires 0 <= i => Digit(u, i))
  }

  function FromLe(s: seq<byte>): (u: nat)
    ensures u < Pow256(|s|)
    decreases |s|
  {
    if s == [] then 0 else s[0] + 256 * FromLe(s[1..])
  }

  lemma {:induction false} MulGrows(b: nat, lo: nat, hi: nat)
    requires lo < hi
    ensures b * lo + b <= b * hi
  {
    assert b * hi == b * lo + b * (hi - lo);
    assert b * (hi - lo) == b + b * (hi - lo - 1);
  }

  lemma {:induction false} QuotientUnique(a: nat, b: nat, q: nat, r: nat)
    requires a == b * q + r && r < b
    ensures a / b == q
  {
    var q', r' := a / b, a % b;
    assert a == b * q' + r';
    if q' < q {
      MulGrows(b, q', q);
      assert false;
    } else if q' > q {
      MulGrows(b, q, q');
      assert false;
    }
  }

  lemma {:induction false} DivideTwice(u: nat, p: nat)
    requires p >= 1
    ensures u / (256 * p) == u / 256 / p
  {
    var q, r := u / 256, u % 256;
    var q', r' := q / p, q % p;
    assert q == p * q' + r';
    assert u == 256 * (p * q' + r') + r == 256 * p * q' + (256 * r' + r);
    QuotientUnique(u, 256 * p, q', 256 * r' + r);
  }

  lemma {:induction false} LeRoundTrip(u: nat, k: nat)
    requires u < Pow256(k)
    ensures FromLe(Le(u, k)) == u
    decreases k
  {
    if k > 0 {
      forall i | 0 <= i < k - 1 ensures Digit(u, i + 1) == Digit(u / 256, i) {
        DivideTwice(u, Pow256(i));
      }
      assert Le(u, k)[1..] == Le(u / 256, k - 1);
      assert Digit(u, 0) == u % 256;
      LeRoundTrip(u / 256, k - 1);
    }
  }

  lemma {:induction false} Pow256Of8()
    ensures Pow256(8) == TWO64
  {
    assert Pow256(4) == 0x1_0000_0000;
    assert Pow256(8) == 256 * (256 * (256 * (256 * Pow256(4))));
  }

  predicate IsInt64(n: int) {
    -TWO63 <= n < TWO63
  }

  /** A signed 64-bit integer, two's complement, little-endian. */
  function Le64(n: int): (s: seq<byte>)
    requires IsInt64(n)
    ensures |s| == 8
  {
    Le(if n < 0 then n + TWO64 else n, 8)
  }

  function FromLe64(s: seq<byte>): (n: int)
    requires |s| == 8
    ensures IsInt64(n)
  {
    var u := FromLe(s);
    Pow256Of8();
    if u < TWO63 then u else u - TWO64
  }

  lemma {:induction false} Le64RoundTrip(n: int)
    requires IsInt64(n)
    ensures FromLe64(Le64(n)) == n
  {
    Pow256Of8();
    LeRoundTrip(if n < 0 then n + TWO64 else n, 8);
  }

  function Zeros(n: nat): (s: seq<byte>)
    ensures |s| == n && forall i | 0 <= i < n :: s[i] == 0
  {
    seq(n, i => 0)
  }

  /** `img` with `data` written at `off`. */
  function Overwrite(img: seq<byte>, off: nat, data: seq<byte>): (r: seq<byte>)
    requires off + |data| <= |img|
    ensures |r| == |img|
    ensures forall i | 0 <= i < |r| :: r[i] == if off <= i < off + |data| then data[i - off] else img[i]
  {
    img[..off] + data + img[off + |data|..]
  }
}
