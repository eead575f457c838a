/** The creator dashboard (src/features/creator/pages/CreatorDashboardPage.tsx):
 *  the auction's status as the creator sees it, whether it can be closed,
 *  and how much payment and unsold supply can still be withdrawn. */
module CreatorDashboard {
  import opened Text
  import opened AuctionTypes

  /** The dashboard's `status`: the on-chain flags first, then the block
      height; it has no "ending" phase, and missing data reads as upcoming. */
  function CreatorStatus(config: Option<AuctionConfig>, state: Option<AuctionState>, blockHeight: int): (r: AuctionStatus)
    ensures config.None? || state.None? ==> r == Upcoming
    ensures r != Ending
    ensures config.Some? && state.Some? ==>
              && (r == Cleared <==> state.value.cleared)
              && (r == SupplyMet <==> !state.value.cleared && state.value.supplyMet)
              && (r == Ended <==> !state.value.cleared && !state.value.supplyMet && blockHeight >= config.value.endBlock)
              && (r == Active <==>
                    !state.value.cleared && !state.value.supplyMet
                    && config.value.startBlock <= blockHeight < config.value.endBlock)
  {
    if config.None? || state.None? then Upcoming
    else if state.value.cleared then Cleared
    else if state.value.supplyMet then SupplyMet
    else if blockHeight >= config.value.endBlock then Ended
    else if blockHeight >= config.value.startBlock then Active
    else Upcoming
  }

  /** `canClose`: the supply was met or the window is over, and the auction
      is not cleared yet. */
  predicate CanClose(status: AuctionStatus, state: Option<AuctionState>)
  {
    (status == SupplyMet || status == Ended) && !(state.Some? && state.value.cleared)
  }

  /** `maxWithdrawable`: the revenue not yet withdrawn, once cleared. */
  function MaxWithdrawable(state: Option<AuctionState>, withdrawn: int): (r: int)
    ensures state.Some? && state.value.cleared ==> r + withdrawn == state.value.creatorRevenue
    ensures !(state.Some? && state.value.cleared) ==> r == 0
  {
    if state.Some? && state.value.cleared then state.value.creatorRevenue - withdrawn else 0
  }

  /** `unsoldSupply`: the supply nobody committed to. */
  function UnsoldSupply(config: Option<AuctionConfig>, state: Option<AuctionState>): (r: int)
    ensures config.Some? && state.Some? ==> r + state.value.totalCommitted == config.value.supply
    ensures config.None? || state.None? ==> r == 0
  {
    if config.Some? && state.Some? then config.value.supply - state.value.totalCommitted else 0
  }

  /** `maxUnsold`: the unsold supply not yet withdrawn, once cleared. */
  function MaxUnsold(config: Option<AuctionConfig>, state: Option<AuctionState>, unsoldWithdrawn: int): (r: int)
    ensures state.Some? && state.value.cleared ==> r + unsoldWithdrawn == UnsoldSupply(config, state)
    ensures !(state.Some? && state.value.cleared) ==> r == 0
  {
    if state.Some? && state.value.cleared then UnsoldSupply(config, state) - unsoldWithdrawn else 0
  }

  /** The withdraw buttons' `disabled`: an empty amount or one that is not
      positive. `BigInt` of a text that is not an integer throws. */
  function WithdrawDisabled(amount: string): (r: Outcome<bool>)
    ensures amount == "" ==> r == Returns(true)
  {
    if amount == "" then Returns(true)
    else match ParseInteger(amount)
      case Throws => Throws
      case Returns(v) => Returns(v <= 0)
  }

  /** The inputs keep digits only, so the button state is always defined: it
      is enabled exactly for a positive amount, and nothing compares the
      amount with what can still be withdrawn. */
  lemma {:induction false} WithdrawEnabledIffPositive(amount: string)
    requires IsDigits(amount)
    ensures WithdrawDisabled(amount).Returns?
    ensures WithdrawDisabled(amount).value <==> DigitsValue(amount) == 0
  {
    ParseDigits(amount);
  }

  /** The precedence of the flags: a cleared auction is cleared at any
      height, and a supply-met one stays supply-met until it is cleared. */
  lemma {:induction false} FlagsOverrideHeight(c: AuctionConfig, s: AuctionState, h1: int, h2: int)
    ensures s.cleared ==> CreatorStatus(Some(c), Some(s), h1) == Cleared
    ensures s.supplyMet ==> CreatorStatus(Some(c), Some(s), h1) == CreatorStatus(Some(c), Some(s), h2)
    ensures CanClose(CreatorStatus(Some(c), Some(s), h1), Some(s)) <==>
              !s.cleared && (s.supplyMet || h1 >= c.endBlock)
  {
  }

  /** Once cleared nothing can be closed again, and withdrawing the whole
      remaining revenue leaves nothing withdrawable. */
  lemma {:induction false} ClearedSettles(c: AuctionConfig, s: AuctionState, h: int, withdrawn: int)
    requires s.cleared
    ensures !CanClose(CreatorStatus(Some(c), Some(s), h), Some(s))
    ensures MaxWithdrawable(Some(s), withdrawn + MaxWithdrawable(Some(s), withdrawn)) == 0
  {
  }

  /** The dashboard's own state. */
  class CreatorDashboard {
    var withdrawn: int
    var unsoldWithdrawn: int
    var paymentAmount: string
    var unsoldAmount: string

    predicate Valid()
      reads this
    {
      IsDigits(paymentAmount) && IsDigits(unsoldAmount)
    }

    constructor()
      ensures Valid() && withdrawn == 0 && unsoldWithdrawn == 0 && paymentAmount == "" && unsoldAmount == ""
    {
      withdrawn := 0;
      unsoldWithdrawn := 0;
      paymentAmount := "";
      unsoldAmount := "";
    }

    /** The withdrawn-amount effect: an empty or missing mapping value keeps
        the old figure, and a value that does not parse rejects the promise,
        which also keeps it. */
    method LoadWithdrawn(raw: Option<string>, unsold: bool)
      modifies this
      ensures Valid() == old(Valid())
      ensures paymentAmount == old(paymentAmount) && unsoldAmount == old(unsoldAmount)
      ensures var v := if raw.Some? && raw.value != "" then ParseU128(raw.value) else Throws;
        && (unsold ==> withdrawn == old(withdrawn) && unsoldWithdrawn == (if v.Returns? then v.value else old(unsoldWithdrawn)))
        && (!unsold ==> unsoldWithdrawn == old(unsoldWithdrawn) && withdrawn == (if v.Returns? then v.value else old(withdrawn)))
    {
      if raw.None? || raw.value == "" {
        return;
      }
      match ParseU128(raw.value)
      case Throws =>
      case Returns(v) =>
        if unsold { unsoldWithdrawn := v; } else { withdrawn := v; }
    }

    /** The amount inputs' `onChange`: every character but the digits is dropped. */
    method EditAmount(text: string, unsold: bool)
      requires Valid()
      modifies this
      ensures Valid()
      ensures withdrawn == old(withdrawn) && unsoldWithdrawn == old(unsoldWithdrawn)
      ensures unsold ==> unsoldAmount == KeepDigits(text) && paymentAmount == old(paymentAmount)
      ensures !unsold ==> paymentAmount == KeepDigits(text) && unsoldAmount == old(unsoldAmount)
    {
      if unsold { unsoldAmount := KeepDigits(text); } else { paymentAmount := KeepDigits(text); }
    }

    /** Whether a withdraw button is enabled in this state. */
    function CanWithdraw(unsold: bool): (r: bool)
      reads this
      requires Valid()
      ensures r <==> (if unsold then unsoldAmount else paymentAmount) != ""
                     && DigitsValue(if unsold then unsoldAmount else paymentAmount) > 0
    {
      var amount := if unsold then unsoldAmount else paymentAmount;
      WithdrawEnabledIffPositive(amount);
      !WithdrawDisabled(amount).value
    }
  }
}
