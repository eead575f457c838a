/** The claim page (src/features/claim/pages/ClaimPage.tsx): the settlement
 *  of a bid at the clearing price, and the claim action that consumes the
 *  bid record. */
module ClaimPage {
  import opened Text
  import opened AuctionTypes
  import opened Records

  /** What the claim breakdown shows. */
  datatype Breakdown = Breakdown(saleTokens: int, costAtClearing: int, refund: int, clearingPrice: int)

  /** `breakdown`: only for a selected bid of a cleared auction; the bidder
      receives the bid's quantity, pays it at the clearing price, and gets
      the rest of the escrowed payment back. The refund is not clamped. */
  function ClaimBreakdown(selected: Option<BidRecord>, state: Option<AuctionState>): (r: Option<Breakdown>)
    ensures r.Some? <==> selected.Some? && state.Some? && state.value.cleared
    ensures r.Some? ==>
              && r.value.saleTokens == selected.value.quantity
              && r.value.clearingPrice == state.value.clearingPrice
              && r.value.costAtClearing + r.value.refund == selected.value.paymentAmount
  {
    if selected.None? || state.None? || !state.value.cleared then None
    else
      var bid := selected.value;
      var costAtClearing := bid.quantity * state.value.clearingPrice;
      Some(Breakdown(bid.quantity, costAtClearing, bid.paymentAmount - costAtClearing, state.value.clearingPrice))
  }

  /** The refund is never negative exactly when the escrowed payment covers
      the quantity at the clearing price; in particular it is not negative
      when the bidder paid at least the clearing price per unit. */
  lemma {:induction false} RefundCovered(bid: BidRecord, s: AuctionState, paidPrice: int)
    requires s.cleared
    ensures var b := ClaimBreakdown(Some(bid), Some(s)).value;
      && b.costAtClearing == bid.quantity * s.clearingPrice
      && (b.refund >= 0 <==> bid.paymentAmount >= bid.quantity * s.clearingPrice)
    ensures bid.quantity >= 0 && s.clearingPrice <= paidPrice && bid.paymentAmount == bid.quantity * paidPrice ==>
              ClaimBreakdown(Some(bid), Some(s)).value.refund == bid.quantity * (paidPrice - s.clearingPrice) >= 0
  {
    if bid.quantity >= 0 && s.clearingPrice <= paidPrice {
      assert bid.quantity * (paidPrice - s.clearingPrice) >= 0;
    }
  }

  /** The claim page's state; the record hook it shares with the rest of the
      page is `store`. */
  class ClaimPage {
    var selectedBid: Option<BidRecord>
    var success: bool
    /** The auction of the selected bid, as loaded. */
    var config: Option<AuctionConfig>
    var state: Option<AuctionState>
    const store: RecordStore

    constructor(store: RecordStore)
      ensures this.store == store && selectedBid.None? && !success && config.None? && state.None?
    {
      this.store := store;
      selectedBid := None;
      success := false;
      config := None;
      state := None;
    }

    /** The bid selector's `onSelect`. */
    method SelectBid(b: Option<BidRecord>)
      modifies this
      ensures selectedBid == b && success == old(success) && config == old(config) && state == old(state)
    {
      selectedBid := b;
    }

    /** The configuration and state that the auction hook delivers for the
        selected bid's auction. */
    method AuctionLoaded(c: Option<AuctionConfig>, s: Option<AuctionState>)
      modifies this
      ensures config == c && state == s && selectedBid == old(selectedBid) && success == old(success)
    {
      config := c;
      state := s;
    }

    /** handleClaim. Without a selected bid, a loaded configuration and a
        cleared state nothing happens. Otherwise the claim transaction is sent
        spending the bid record, with the clearing price as a u128 literal; when the wallet returns a
        non-empty transaction id, exactly the claimed bid's id is marked spent, the page
        reports success and the selection is cleared. */
    method HandleClaim(txId: Option<string>) returns (sent: Option<seq<string>>)
      modifies this, store
      ensures old(selectedBid).None? || old(config).None? || old(state).None? || !old(state).value.cleared ==>
                sent.None? && selectedBid == old(selectedBid) && success == old(success)
                && store.localSpent == old(store.localSpent) && store.tokenRecords == old(store.tokenRecords)
                && store.bidRecords == old(store.bidRecords)
      ensures old(selectedBid).Some? && old(config).Some? && old(state).Some? && old(state).value.cleared ==>
                && sent == Some([old(selectedBid).value.raw, U128Literal(old(state).value.clearingPrice),
                                 old(config).value.saleTokenId, old(config).value.paymentTokenId])
                && (Truthy(txId) ==>
                      && store.localSpent == old(store.localSpent) + {old(selectedBid).value.id}
                      && store.bidRecords == MarkBids(old(store.bidRecords), {old(selectedBid).value.id})
                      && store.tokenRecords == MarkTokens(old(store.tokenRecords), {old(selectedBid).value.id})
                      && success && selectedBid.None?)
                && (!Truthy(txId) ==>
                      && selectedBid == old(selectedBid) && success == old(success)
                      && store.localSpent == old(store.localSpent) && store.tokenRecords == old(store.tokenRecords)
                      && store.bidRecords == old(store.bidRecords))
      ensures config == old(config) && state == old(state)
    {
      if selectedBid.None? || config.None? || state.None? || !state.value.cleared {
        return None;
      }
      var spentId := selectedBid.value.id;
      sent := Some([selectedBid.value.raw, U128Literal(state.value.clearingPrice),
                    config.value.saleTokenId, config.value.paymentTokenId]);
      if Truthy(txId) {
        store.MarkSpent([spentId]);
        assert IdSet([spentId]) == {spentId};
        success := true;
        selectedBid := None;
      }
    }
  }

  /** `${n}u128`: an integer written as a u128 literal. */
  function U128Literal(n: int): (r: string)
    ensures n >= 0 ==> ParseU128(r) == Returns(n)
  {
    IntToTextU128Parses(n);
    IntToText(n) + "u128"
  }

  lemma IntToTextU128Parses(n: int)
    ensures n >= 0 ==> ParseU128(IntToText(n) + "u128") == Returns(n)
  {
    if n >= 0 {
      ParseU128Digits(IntToText(n));
      NatToDigitsValue(n);
    }
  }
}
