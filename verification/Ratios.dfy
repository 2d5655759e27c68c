/**
 Integer ratios of runtime to period in units of 2^-20, and the real shares they
 stand for.
 */
module Ratios {

  lemma QuotientBounds(x: nat, p: nat)
    requires p > 0
    ensures (x / p) * p <= x < (x / p + 1) * p
  {
    assert x == p * (x / p) + x % p;
    assert (x / p + 1) * p == (x / p) * p + p;
  }

  lemma ShareBounds(t: nat, p: nat, r: nat, share: real)
    requires p > 0 && share == t as real / p as real && r * p <= t * 0x10_0000 < (r + 1) * p
    ensures r as real / 1048576.0 <= share < (r + 1) as real / 1048576.0
  {
    var f := p as real;
    assert t as real == share * f;
    assert (r * p) as real == r as real * f && ((r + 1) * p) as real == (r + 1) as real * f;
    assert r as real * f <= (share * 1048576.0) * f < (r + 1) as real * f;
    CancelShares(r as real, share * 1048576.0, f);
    CancelBelow(share * 1048576.0, (r + 1) as real, f);
  }

  lemma CancelShares(x: real, y: real, f: real)
    requires f > 0.0 && x * f <= y * f
    ensures x <= y
  {
    if x > y {
      CancelPositive(x - y, f);
      assert false;
    }
  }

  lemma CancelBelow(x: real, y: real, f: real)
    requires f > 0.0 && x * f < y * f
    ensures x < y
  {
    if x > y {
      CancelPositive(x - y, f);
      assert false;
    }
  }

  lemma CancelPositive(d: real, f: real)
    requires d > 0.0 && f > 0.0
    ensures d * f > 0.0
  {
  }

  // Ratios of shares are in the order of the shares, and shares nearly in the order of their ratios.
  lemma RatioMono(r: int, q: int, x: real, y: real)
    requires r as real / 1048576.0 <= x < (r + 1) as real / 1048576.0
    requires q as real / 1048576.0 <= y < (q + 1) as real / 1048576.0
    ensures x <= y ==> r <= q
    ensures r <= q ==> x < y + 1.0 / 1048576.0
  {
    if x <= y {
      assert r as real < (q + 1) as real;
    }
  }
}
