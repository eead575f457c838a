/** The token faucet (src/features/faucet/pages/FaucetPage.tsx): whom to mint
 *  to, the ordered checks before minting, and the mint call's inputs. */
module Faucet {
  import opened Text
  import opened AuctionTypes

  /** `recipient || publicKey || ""`: the typed recipient, else the connected
      wallet's address, else nothing. */
  function EffectiveRecipient(recipient: string, publicKey: Option<string>): (r: string)
    ensures recipient != "" ==> r == recipient
    ensures recipient == "" && publicKey.Some? ==> r == publicKey.value
    ensures r == "" <==> recipient == "" && (publicKey.None? || publicKey.value == "")
  {
    if recipient != "" then recipient
    else if publicKey.Some? && publicKey.value != "" then publicKey.value
    else ""
  }

  /** The faucet's messages, in the order they are checked. */
  datatype FaucetProblem = ConnectOrEnterRecipient | SelectAToken | EnterAmount

  /** `validation`; `BigInt(amount)` throws on a text that is not an integer. */
  function FaucetValidation(recipient: string, tokenId: string, amount: string): (r: Outcome<Option<FaucetProblem>>)
    ensures r == Returns(Some(ConnectOrEnterRecipient)) <==> recipient == ""
    ensures r == Returns(Some(SelectAToken)) <==> recipient != "" && tokenId == ""
    ensures r == Returns(None) <==>
              recipient != "" && tokenId != "" && amount != "" && ParseInteger(amount).Returns? && ParseInteger(amount).value > 0
  {
    if recipient == "" then Returns(Some(ConnectOrEnterRecipient))
    else if tokenId == "" then Returns(Some(SelectAToken))
    else if amount == "" then Returns(Some(EnterAmount))
    else match BigIntOrZero(amount)
      case Throws => Throws
      case Returns(v) => Returns(if v <= 0 then Some(EnterAmount) else None)
  }

  /** The token id sent to `create_token`: `field` is appended unless the
      text already contains it somewhere. */
  function FieldTokenId(tokenId: string): (r: string)
    ensures Contains(r, "field")
    ensures Contains(tokenId, "field") ==> r == tokenId
    ensures !Contains(tokenId, "field") ==> r == tokenId + "field"
  {
    if Contains(tokenId, "field") then tokenId
    else
      EndsWithContains(tokenId, "field");
      tokenId + "field"
  }

  /** A text ending in a pattern contains it. */
  lemma EndsWithContains(t: string, pat: string)
    ensures Contains(t + pat, pat)
  {
    assert OccursAt(t + pat, pat, |t|);
  }

  /** A text of digits contains no pattern that starts with a non-digit. */
  lemma NoOccurrence(t: string, pat: string)
    requires IsDigits(t) && pat != [] && !IsDigit(pat[0])
    ensures !Contains(t, pat)
  {
    forall j | 0 <= j <= |t|
      ensures !OccursAt(t, pat, j)
    {
      if j + |pat| <= |t| {
        assert t[j..j + |pat|][0] == t[j];
      }
    }
  }

  /** Suffixing is idempotent: an id already suffixed is sent unchanged, and
      a bare catalogue id `n` becomes `nfield`. */
  lemma {:induction false} FieldTokenIdIdempotent(tokenId: string)
    ensures FieldTokenId(FieldTokenId(tokenId)) == FieldTokenId(tokenId)
    ensures IsDigits(tokenId) ==> FieldTokenId(tokenId) == tokenId + "field"
  {
    if IsDigits(tokenId) {
      NoOccurrence(tokenId, "field");
    }
  }

  /** The faucet form. */
  class FaucetPage {
    const publicKey: Option<string>
    var recipient: string
    var tokenId: string
    var amount: string
    var success: bool

    predicate Valid()
      reads this
    {
      IsDigits(amount)
    }

    constructor(publicKey: Option<string>)
      ensures Valid() && this.publicKey == publicKey
      ensures recipient == "" && tokenId == "" && amount == "" && !success
    {
      this.publicKey := publicKey;
      recipient := "";
      tokenId := "";
      amount := "";
      success := false;
    }

    method EditRecipient(text: string)
      requires Valid()
      modifies this
      ensures Valid() && recipient == text
      ensures tokenId == old(tokenId) && amount == old(amount) && success == old(success)
    {
      recipient := text;
    }

    method SelectToken(id: string)
      requires Valid()
      modifies this
      ensures Valid() && tokenId == id
      ensures recipient == old(recipient) && amount == old(amount) && success == old(success)
    {
      tokenId := id;
    }

    /** The amount input keeps digits only. */
    method EditAmount(text: string)
      requires Valid()
      modifies this
      ensures Valid() && amount == KeepDigits(text)
      ensures recipient == old(recipient) && tokenId == old(tokenId) && success == old(success)
    {
      amount := KeepDigits(text);
    }

    /** The validation message: with a digits-only amount it never throws. */
    function Validation(): (r: Option<FaucetProblem>)
      reads this
      requires Valid()
      ensures FaucetValidation(EffectiveRecipient(recipient, publicKey), tokenId, amount) == Returns(r)
      ensures r.None? <==>
                EffectiveRecipient(recipient, publicKey) != "" && tokenId != "" && amount != "" && DigitsValue(amount) > 0
    {
      DigitsOrZero(amount);
      var effective := EffectiveRecipient(recipient, publicKey);
      if effective == "" then Some(ConnectOrEnterRecipient)
      else if tokenId == "" then Some(SelectAToken)
      else if amount == "" || DigitsValue(amount) <= 0 then Some(EnterAmount)
      else None
    }

    /** handleMint: nothing is sent while a check fails; otherwise the
        recipient, the suffixed token id and the amount as a positive u128
        literal go out, and a returned non-empty transaction id sets `success`. */
    method HandleMint(txId: Option<string>) returns (sent: Option<seq<string>>)
      requires Valid()
      modifies this
      ensures Valid()
      ensures recipient == old(recipient) && tokenId == old(tokenId) && amount == old(amount)
      ensures var accepted := EffectiveRecipient(old(recipient), publicKey) != "" && old(tokenId) != ""
                              && old(amount) != "" && DigitsValue(old(amount)) > 0;
        && (!accepted ==> sent.None? && success == old(success))
        && (accepted ==>
                && sent == Some([EffectiveRecipient(recipient, publicKey), FieldTokenId(tokenId), amount + "u128"])
                && ParseU128(amount + "u128") == Returns(DigitsValue(amount)) && DigitsValue(amount) > 0
                && success == (Truthy(txId) || old(success)))
    {
      if Validation().Some? {
        return None;
      }
      ParseU128Digits(amount);
      sent := Some([EffectiveRecipient(recipient, publicKey), FieldTokenId(tokenId), amount + "u128"]);
      if Truthy(txId) {
        success := true;
      }
    }
  }
}
