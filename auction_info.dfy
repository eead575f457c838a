/** The derived figures of the auction information panel
 *  (src/features/auction/components/AuctionInfo.tsx). */
module AuctionInfo {
  import opened Text
  import opened AuctionTypes

  /** `demandPercent`: the committed share of the supply in whole percent,
      by BigInt division; 0 without a state or with no supply. */
  function DemandPercent(c: AuctionConfig, state: Option<AuctionState>): (r: int)
    ensures state.None? || c.supply <= 0 ==> r == 0
  {
    if state.Some? && c.supply > 0 then TruncDiv(state.value.totalCommitted * 100, c.supply) else 0
  }

  /** The demand bar's value, `Math.min(100, demandPercent)`. */
  function DisplayedDemand(c: AuctionConfig, state: Option<AuctionState>): (r: int)
    ensures r <= 100
    ensures r == 100 <==> DemandPercent(c, state) >= 100
  {
    Min(100, DemandPercent(c, state))
  }

  /** The "Ended at Block" row is shown when the supply was met at a known block. */
  predicate ShowEndedAtBlock(s: AuctionState)
  {
    s.supplyMet && s.endedAtBlock > 0
  }

  /** With a state and a positive supply, `demandPercent` is the largest `p`
      with `p * supply <= total_committed * 100`: never negative, and 100 or
      more exactly when the commitments reach the supply. */
  lemma {:induction false} DemandPercentBounds(c: AuctionConfig, s: AuctionState)
    requires c.supply > 0 && s.totalCommitted >= 0
    ensures var p := DemandPercent(c, Some(s));
      && p >= 0
      && p * c.supply <= s.totalCommitted * 100 < (p + 1) * c.supply
      && (p >= 100 <==> s.totalCommitted >= c.supply)
  {
    var p := DemandPercent(c, Some(s));
    var n := s.totalCommitted * 100;
    assert p == n / c.supply;
    assert p * c.supply <= n < (p + 1) * c.supply;
    if s.totalCommitted >= c.supply {
      assert 100 * c.supply <= n;
      MulOrder(p + 1, 100, c.supply);
    } else {
      assert n < 100 * c.supply;
      MulOrder(100, p, c.supply);
    }
    MulOrder(0, p + 1, c.supply);
  }

  lemma MulOrder(a: int, b: int, m: int)
    requires m > 0
    ensures a <= b <==> a * m <= b * m
  {
    if a <= b {
      assert (b - a) * m >= 0;
    } else {
      assert (a - b) * m > 0;
    }
  }

  /** The bar never shows more than a full supply, even when more is
      committed than offered, and reads 100 exactly then. */
  lemma {:induction false} DisplayedDemandFull(c: AuctionConfig, s: AuctionState)
    requires c.supply > 0 && s.totalCommitted >= 0
    ensures 0 <= DisplayedDemand(c, Some(s)) <= 100
    ensures DisplayedDemand(c, Some(s)) == 100 <==> s.totalCommitted >= c.supply
  {
    DemandPercentBounds(c, s);
  }
}
