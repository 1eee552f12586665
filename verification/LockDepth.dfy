/**
 The depth at which a splice locks (spliceLockDepth, server_splice.go), in the integer widths of the source: every
 intermediate value is of a type that holds it.
 */
module LockDepth {

  type U16 = n: int | 0 <= n < 0x1_0000
  type U32 = n: int | 0 <= n < 0x1_0000_0000
  type I64 = n: int | -0x8000_0000_0000_0000 <= n < 0x8000_0000_0000_0000

  /** The most a channel without the wumbo feature holds, in satoshis. */
  const SCALE: int := 16_777_215

  function Max(a: int, b: int): int {
    if a >= b then a else b
  }

  lemma ProductFits(peer: int, maxExtra: int)
    requires 0 < peer < SCALE && 0 < maxExtra < 0x1_0000_0000
    ensures 0 < peer * maxExtra < SCALE * maxExtra
    ensures peer * maxExtra + SCALE - 1 < 0x8000_0000_0000_0000
  {
  }

  /** `extra` is the least that, for each of `maxExtra` equal shares of the scale, covers a part of the peer's. */
  predicate LeastCovering(extra: int, peer: int, maxExtra: int) {
    (extra - 1) * SCALE < peer * maxExtra <= extra * SCALE
  }

  lemma QuotientFits(peer: int, maxExtra: int)
    requires 0 < peer < SCALE && 0 < maxExtra < 0x1_0000_0000
    ensures var extra := (peer * maxExtra + SCALE - 1) / SCALE;
            LeastCovering(extra, peer, maxExtra) && 1 <= extra <= maxExtra
  {
    ProductFits(peer, maxExtra);
    var p := peer * maxExtra;
    var extra := (p + SCALE - 1) / SCALE;
    assert extra * SCALE <= p + SCALE - 1 < extra * SCALE + SCALE;
    assert p < SCALE * maxExtra;
    assert (extra - 1) * SCALE < SCALE * maxExtra;
  }

  /** spliceLockDepth: `peer` is what the peer put in, `holdConfs` the depth at which the hold on its coins ends. */
  function SpliceLockDepth(numConfs: U16, peer: I64, holdConfs: U32): U32 {
    var depth: U32 := Max(6, numConfs);
    if peer <= 0 || holdConfs <= 6 then depth
    else
      var maxExtra: I64 := holdConfs - 6;
      var extra: I64 :=
        if peer < SCALE then
          ProductFits(peer, maxExtra);
          var product: I64 := peer * maxExtra;
          var rounded: I64 := product + SCALE - 1;
          QuotientFits(peer, maxExtra);
          rounded / SCALE
        else maxExtra;
      var sum: U32 := 6 + extra;
      Max(depth, sum)
  }

  lemma LeastCoveringGrows(e: int, p: int, m: int, e': int, p': int, m': int)
    requires LeastCovering(e, p, m) && LeastCovering(e', p', m') && p * m <= p' * m'
    ensures e <= e'
  {
    assert (e - 1) * SCALE < e' * SCALE;
  }

  /** The depth is at least six and the channel's own, and no more than those and the depth at which the hold ends. */
  lemma DepthWithinBounds(numConfs: U16, peer: I64, holdConfs: U32)
    ensures var depth := SpliceLockDepth(numConfs, peer, holdConfs);
            Max(6, numConfs) <= depth <= Max(Max(6, numConfs), holdConfs)
  {
    if 0 < peer < SCALE && holdConfs > 6 {
      QuotientFits(peer, holdConfs - 6);
    }
  }

  /** Where the peer put nothing in, or the hold ends by six, it is just the larger of six and the channel's own. */
  lemma DepthWithoutStake(numConfs: U16, peer: I64, holdConfs: U32)
    requires peer <= 0 || holdConfs <= 6
    ensures var depth := SpliceLockDepth(numConfs, peer, holdConfs);
            depth in {6, numConfs} && depth >= 6 && depth >= numConfs
  {
  }

  /** Between nothing and a whole scale of the peer's coins, what is added to six is the least whole number of
      confirmations covering the peer's share of the hold. */
  lemma DepthUsesLeastExtra(numConfs: U16, peer: I64, holdConfs: U32) returns (extra: nat)
    requires holdConfs > 6 && peer > 0
    ensures SpliceLockDepth(numConfs, peer, holdConfs) == Max(Max(6, numConfs), 6 + extra)
    ensures peer < SCALE ==> LeastCovering(extra, peer, holdConfs - 6)
    ensures peer < SCALE ==> forall less: int | less < extra :: less * SCALE < peer * (holdConfs - 6)
    ensures peer >= SCALE ==> extra == holdConfs - 6
  {
    if peer < SCALE {
      QuotientFits(peer, holdConfs - 6);
      extra := (peer * (holdConfs - 6) + SCALE - 1) / SCALE;
      forall less: int | less < extra ensures less * SCALE < peer * (holdConfs - 6) {
        assert less * SCALE <= (extra - 1) * SCALE;
      }
    } else {
      extra := holdConfs - 6;
    }
  }

  lemma ProductGrows(a: int, b: int, c: int)
    requires a <= b && 0 <= c
    ensures a * c <= b * c && c * a <= c * b
  {
  }

  /** More of the peer's coins, a longer hold or a deeper channel never lock a splice earlier. */
  lemma DepthIsMonotone(n: U16, peer: I64, hold: U32, n': U16, peer': I64, hold': U32)
    requires n <= n' && peer <= peer' && hold <= hold'
    ensures SpliceLockDepth(n, peer, hold) <= SpliceLockDepth(n', peer', hold')
  {
    DepthWithinBounds(n', peer', hold');
    if peer > 0 && hold > 6 {
      var m, m' := hold - 6, hold' - 6;
      if peer < SCALE {
        QuotientFits(peer, m);
        if peer' < SCALE {
          QuotientFits(peer', m');
          assert peer * m <= peer' * m <= peer' * m' by {
            ProductGrows(peer, peer', m);
            ProductGrows(m, m', peer');
          }
          LeastCoveringGrows((peer * m + SCALE - 1) / SCALE, peer, m, (peer' * m' + SCALE - 1) / SCALE, peer', m');
        }
      }
    }
  }
}
