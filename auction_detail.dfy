/** The status and countdown of the auction detail page
 *  (src/features/auction/pages/AuctionDetailPage.tsx). */
module AuctionDetail {
  import opened Text
  import opened AuctionTypes
  import opened Price
  import opened UseCurrentPrice

  /** The page's status: the on-chain flags first (cleared, then supply met),
      the block-height phase otherwise. */
  function DetailStatus(state: Option<AuctionState>, timeStatus: AuctionStatus): (r: AuctionStatus)
    ensures state.Some? && state.value.cleared ==> r == Cleared
    ensures state.Some? && !state.value.cleared && state.value.supplyMet ==> r == SupplyMet
    ensures state.None? || (!state.value.cleared && !state.value.supplyMet) ==> r == timeStatus
  {
    if state.Some? && state.value.cleared then Cleared
    else if state.Some? && state.value.supplyMet then SupplyMet
    else timeStatus
  }

  /** Bidding is open in the active and ending phases. */
  predicate IsActive(status: AuctionStatus)
  {
    status == Active || status == Ending
  }

  /** Blocks left until `end_block`; 0 without a configuration. */
  function BlocksRemaining(config: Option<AuctionConfig>, blockHeight: int): (r: int)
    ensures config.None? ==> r == 0
    ensures config.Some? ==> blockHeight + r == config.value.endBlock
  {
    if config.Some? then config.value.endBlock - blockHeight else 0
  }

  /** The countdown banner: an open auction with fewer than 100 blocks left. */
  predicate IsEndingSoon(status: AuctionStatus, remaining: int)
  {
    IsActive(status) && 0 < remaining < 100
  }

  /** The bid form is offered for an open auction whose price is known. */
  predicate ShowBidForm(status: AuctionStatus, price: Outcome<Option<int>>)
  {
    IsActive(status) && price.Returns? && price.value.Some?
  }

  /** The status of the page for a configuration, a state and a height. */
  function PageStatus(config: Option<AuctionConfig>, state: Option<AuctionState>, blockHeight: int): AuctionStatus
  {
    DetailStatus(state, TimeStatus(config, blockHeight))
  }

  /** The on-chain flags override the block height: a cleared or supply-met
      auction is never open, whatever the height. */
  lemma {:induction false} FlagsOverrideHeight(config: Option<AuctionConfig>, s: AuctionState, h1: int, h2: int)
    requires s.cleared || s.supplyMet
    ensures PageStatus(config, Some(s), h1) == PageStatus(config, Some(s), h2)
    ensures !IsActive(PageStatus(config, Some(s), h1))
  {
  }

  /** An open page is inside the window of a loaded configuration, and when
      the countdown shows, the end is at most 99 blocks away. */
  lemma {:induction false} OpenMeansInWindow(c: AuctionConfig, state: Option<AuctionState>, blockHeight: int)
    requires IsActive(PageStatus(Some(c), state, blockHeight))
    ensures c.startBlock <= blockHeight < c.endBlock
    ensures state.None? || (!state.value.cleared && !state.value.supplyMet)
    ensures var status := PageStatus(Some(c), state, blockHeight);
      IsEndingSoon(status, BlocksRemaining(Some(c), blockHeight)) <==> c.endBlock - 100 < blockHeight
  {
  }

  /** When the bid form shows, its price is computeCurrentPrice at a block
      inside the window, so it lies between the floor and the start price. */
  lemma {:induction false} BidFormPrice(c: AuctionConfig, state: Option<AuctionState>, blockHeight: int)
    requires Decays(c)
    requires ShowBidForm(PageStatus(Some(c), state, blockHeight), PriceView(Some(c), blockHeight))
    ensures blockHeight != 0 && c.startBlock <= blockHeight < c.endBlock
    ensures var p := PriceView(Some(c), blockHeight).value.value;
      p == CurrentPrice(c, blockHeight).value && c.floorPrice <= p <= c.startPrice
  {
    PriceInRange(c, blockHeight);
  }
}
