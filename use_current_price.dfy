/** The `useCurrentPrice` hook (src/features/auction/hooks/useCurrentPrice.ts):
 *  the price shown for the current block and the time-based lifecycle phase.
 *  Both memos are pure; they become functions of the configuration (absent
 *  while loading) and the block height. */
module UseCurrentPrice {
  import opened Text
  import opened AuctionTypes
  import opened Price

  /** The `price` memo: null without a configuration or before the first
      block height arrives (height 0), otherwise computeCurrentPrice, whose
      throw propagates out of the memo. */
  function PriceView(config: Option<AuctionConfig>, blockHeight: int): (r: Outcome<Option<int>>)
    ensures config.None? || blockHeight == 0 ==> r == Returns(None)
    ensures config.Some? && blockHeight != 0 ==>
              (r.Throws? <==> CurrentPrice(config.value, blockHeight).Throws?)
    ensures config.Some? && blockHeight != 0 && r.Returns? ==>
              r.value == Some(CurrentPrice(config.value, blockHeight).value)
  {
    if config.None? || blockHeight == 0 then Returns(None)
    else match CurrentPrice(config.value, blockHeight)
      case Throws => Throws
      case Returns(p) => Returns(Some(p))
  }

  /** The window is in its last tenth: `remaining < totalBlocks * 0.1`,
      taken as the exact rational comparison. */
  predicate InLastTenth(c: AuctionConfig, blockHeight: int)
  {
    10 * (c.endBlock - blockHeight) < c.endBlock - c.startBlock
  }

  /** The `status` memo. */
  function TimeStatus(config: Option<AuctionConfig>, blockHeight: int): (r: AuctionStatus)
    ensures config.None? ==> r == Upcoming
    ensures config.Some? ==> (r == Upcoming <==> blockHeight < config.value.startBlock)
    ensures config.Some? ==>
              (r == Ended <==> config.value.startBlock <= blockHeight && config.value.endBlock <= blockHeight)
    ensures r == Ending <==>
              config.Some? && config.value.startBlock <= blockHeight < config.value.endBlock
              && InLastTenth(config.value, blockHeight)
    ensures r == Active <==>
              config.Some? && config.value.startBlock <= blockHeight < config.value.endBlock
              && !InLastTenth(config.value, blockHeight)
    ensures r != SupplyMet && r != Cleared
  {
    if config.None? then Upcoming
    else
      var c := config.value;
      if blockHeight < c.startBlock then Upcoming
      else if blockHeight >= c.endBlock then Ended
      else if InLastTenth(c, blockHeight) then Ending
      else Active
  }

  /** The phases in the order a growing block height passes through them. */
  function PhaseRank(s: AuctionStatus): nat
  {
    match s
    case Upcoming => 0
    case Active => 1
    case Ending => 2
    case _ => 3
  }

  /** As the block height grows the phase only moves forward:
      upcoming, active, ending, ended. */
  lemma {:induction false} TimeStatusMonotone(c: AuctionConfig, h1: int, h2: int)
    requires h1 <= h2
    ensures PhaseRank(TimeStatus(Some(c), h1)) <= PhaseRank(TimeStatus(Some(c), h2))
  {
    if c.startBlock <= h1 && h2 < c.endBlock && InLastTenth(c, h1) {
      assert 10 * (c.endBlock - h2) <= 10 * (c.endBlock - h1);
    }
  }

  /** The phase agrees with the price: an upcoming auction shows its start
      price, an ended one its floor price, and an active or ending one a price
      from the decay schedule within `[floor_price, start_price]`. */
  lemma {:induction false} StatusMatchesPrice(c: AuctionConfig, blockHeight: int)
    requires Decays(c) && blockHeight != 0
    ensures TimeStatus(Some(c), blockHeight) == Upcoming ==> PriceView(Some(c), blockHeight) == Returns(Some(c.startPrice))
    ensures TimeStatus(Some(c), blockHeight) == Ended ==> PriceView(Some(c), blockHeight) == Returns(Some(c.floorPrice))
    ensures PriceView(Some(c), blockHeight).Returns? && PriceView(Some(c), blockHeight).value.Some?
    ensures c.floorPrice <= PriceView(Some(c), blockHeight).value.value <= c.startPrice
  {
    PriceInRange(c, blockHeight);
  }
}
