/** The bid form (src/features/auction/components/BidForm.tsx): the cost of a
 *  bid at the current price and the ordered checks that gate it. */
module BidForm {
  import opened Text
  import opened AuctionTypes

  /** The first failing rule, in the form's order. */
  datatype BidProblem =
    | EnterQuantity
    | BelowMinimum(min: int)
    | AboveMaximum(max: int)
    | SelectPayment
    | InsufficientBalance

  /** `totalCost`: the quantity at the current price. */
  function TotalCost(qty: int, currentPrice: int): int
  {
    qty * currentPrice
  }

  /** `validation`: the first rule the bid breaks, or None. A maximum of 0
      means no per-bid cap. */
  function BidValidation(qty: int, c: AuctionConfig, payment: Option<TokenRecord>, currentPrice: int): (r: Option<BidProblem>)
    ensures r == Some(EnterQuantity) <==> qty <= 0
    ensures r == Some(BelowMinimum(c.minBidAmount)) <==> 0 < qty < c.minBidAmount
    ensures r == Some(AboveMaximum(c.maxBidAmount)) <==>
              0 < qty && c.minBidAmount <= qty && c.maxBidAmount > 0 && qty > c.maxBidAmount
    ensures r == Some(SelectPayment) <==>
              0 < qty && c.minBidAmount <= qty && (c.maxBidAmount <= 0 || qty <= c.maxBidAmount) && payment.None?
    ensures r.None? <==>
              && 0 < qty && c.minBidAmount <= qty && (c.maxBidAmount <= 0 || qty <= c.maxBidAmount)
              && payment.Some? && payment.value.amount >= TotalCost(qty, currentPrice)
  {
    if qty <= 0 then Some(EnterQuantity)
    else if qty < c.minBidAmount then Some(BelowMinimum(c.minBidAmount))
    else if c.maxBidAmount > 0 && qty > c.maxBidAmount then Some(AboveMaximum(c.maxBidAmount))
    else if payment.None? then Some(SelectPayment)
    else if payment.value.amount < TotalCost(qty, currentPrice) then Some(InsufficientBalance)
    else None
  }

  /** `hasPaymentRecords`: some unspent record holds the auction's payment token. */
  predicate HasPaymentRecords(records: seq<TokenRecord>, c: AuctionConfig)
  {
    exists i :: 0 <= i < |records| && records[i].tokenId == c.paymentTokenId && !records[i].spent
  }

  /** A maximum of 0 imposes no upper bound: any quantity from the minimum
      on, paid in full from a selected record, passes. */
  lemma {:induction false} NoCapWhenMaxZero(qty: int, c: AuctionConfig, payment: TokenRecord, currentPrice: int)
    requires c.maxBidAmount == 0 && qty > 0 && qty >= c.minBidAmount
    requires payment.amount >= qty * currentPrice
    ensures BidValidation(qty, c, Some(payment), currentPrice).None?
  {
  }

  /** An accepted bid pays at most the selected record's amount, and a
      larger quantity at a non-negative price never costs less. */
  lemma {:induction false} AcceptedBidAffordable(qty: int, more: int, c: AuctionConfig, payment: TokenRecord, currentPrice: int)
    requires BidValidation(qty, c, Some(payment), currentPrice).None?
    requires qty <= more && currentPrice >= 0
    ensures TotalCost(qty, currentPrice) <= payment.amount
    ensures TotalCost(qty, currentPrice) <= TotalCost(more, currentPrice)
  {
    assert (more - qty) * currentPrice >= 0;
  }

  /** The form's state. */
  class BidForm {
    const config: AuctionConfig
    const currentPrice: int
    var quantity: string
    var selectedPayment: Option<TokenRecord>

    predicate Valid()
      reads this
    {
      IsDigits(quantity)
    }

    constructor(config: AuctionConfig, currentPrice: int)
      ensures Valid() && this.config == config && this.currentPrice == currentPrice
      ensures quantity == "" && selectedPayment.None?
    {
      this.config := config;
      this.currentPrice := currentPrice;
      quantity := "";
      selectedPayment := None;
    }

    /** The quantity input's `onChange`: the digits of the text. */
    method EditQuantity(text: string)
      requires Valid()
      modifies this
      ensures Valid() && quantity == KeepDigits(text) && selectedPayment == old(selectedPayment)
    {
      quantity := KeepDigits(text);
    }

    method SelectPayment(r: Option<TokenRecord>)
      requires Valid()
      modifies this
      ensures Valid() && selectedPayment == r && quantity == old(quantity)
    {
      selectedPayment := r;
    }

    /** The validation message for the current state. */
    function Validation(): (r: Option<BidProblem>)
      reads this
      requires Valid()
      ensures r == BidValidation(DigitsValue(quantity), config, selectedPayment, currentPrice)
      ensures r.None? ==>
                && selectedPayment.Some?
                && DigitsValue(quantity) >= config.minBidAmount && DigitsValue(quantity) > 0
                && (config.maxBidAmount <= 0 || DigitsValue(quantity) <= config.maxBidAmount)
                && selectedPayment.value.amount >= DigitsValue(quantity) * currentPrice
    {
      DigitsOrZero(quantity);
      BidValidation(BigIntOrZero(quantity).value, config, selectedPayment, currentPrice)
    }

    /** handleBid. Nothing is sent while a rule fails; otherwise the bid goes
        out spending the selected payment record, with the quantity as a u128
        literal, and when the wallet returns
        a non-empty transaction id the quantity and the selection are reset. */
    method HandleBid(txId: Option<string>) returns (sent: Option<seq<string>>)
      requires Valid()
      modifies this
      ensures Valid()
      ensures var accepted := BidValidation(DigitsValue(old(quantity)), config, old(selectedPayment), currentPrice).None?;
        && (!accepted ==> sent.None? && quantity == old(quantity) && selectedPayment == old(selectedPayment))
        && (accepted ==>
                && sent == Some([old(selectedPayment).value.raw, config.auctionId, old(quantity) + "u128"])
                && ParseU128(old(quantity) + "u128") == Returns(DigitsValue(old(quantity)))
                && (Truthy(txId) ==> quantity == "" && selectedPayment.None?)
                && (!Truthy(txId) ==> quantity == old(quantity) && selectedPayment == old(selectedPayment)))
    {
      if selectedPayment.None? || Validation().Some? {
        return None;
      }
      sent := Some([selectedPayment.value.raw, config.auctionId, quantity + "u128"]);
      ParseU128Digits(quantity);
      if Truthy(txId) {
        quantity := "";
        selectedPayment := None;
      }
    }
  }
}
