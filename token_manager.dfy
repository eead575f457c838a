/** The token manager (src/features/tokens/pages/TokenManagerPage.tsx): joining
 *  two records of one token into one, and splitting one record in two. */
module TokenManager {
  import opened Text
  import opened AuctionTypes
  import opened TokenGrid

  // ---------------------------------------------------------------------------
  // Join

  /** The second join grid: records of the first record's token, the first
      record itself excluded. */
  function JoinCandidates(records: seq<TokenRecord>, a: TokenRecord): seq<TokenRecord>
  {
    GridRecords(records, [a], a.tokenId)
  }

  /** The candidates are exactly the other records of the same token (a token
      record always names its token, so the filter is set). */
  lemma JoinCandidatesExactly(records: seq<TokenRecord>, a: TokenRecord, b: TokenRecord)
    requires a.tokenId != ""
    ensures b in JoinCandidates(records, a) <==> b in records && b.tokenId == a.tokenId && b.raw != a.raw
  {
    var excluded := ExcludeSet([a]);
    assert [a][0].raw in excluded;
    assert forall x :: x in excluded ==> x == a.raw by {
      forall x | x in excluded
        ensures x == a.raw
      {
        var i :| 0 <= i < |[a]| && [a][i].raw == x;
      }
    }
  }

  /** The merge preview's combined amount. */
  function Combined(a: TokenRecord, b: TokenRecord): (r: int)
    ensures r - a.amount == b.amount && r - b.amount == a.amount
  {
    a.amount + b.amount
  }

  /** The join button's text. */
  datatype JoinButton = SelectFirstToken | SelectSecondToken | JoinRecords

  function JoinLabel(joinA: Option<TokenRecord>, joinB: Option<TokenRecord>): (r: JoinButton)
    ensures r == JoinRecords <==> joinA.Some? && joinB.Some?
    ensures r == SelectFirstToken <==> joinA.None?
  {
    if joinA.None? then SelectFirstToken
    else if joinB.None? then SelectSecondToken
    else JoinRecords
  }

  /** The join tab's selection. */
  class JoinTab {
    var joinA: Option<TokenRecord>
    var joinB: Option<TokenRecord>

    /** A second record is only ever held next to a first one of the same token. */
    predicate Valid()
      reads this
    {
      joinB.Some? ==> joinA.Some? && joinB.value.tokenId == joinA.value.tokenId
    }

    constructor()
      ensures Valid() && joinA.None? && joinB.None?
    {
      joinA := None;
      joinB := None;
    }

    /** handleSelectA: the second record is dropped iff its token differs. */
    method SelectA(r: TokenRecord)
      requires Valid()
      modifies this
      ensures Valid() && joinA == Some(r)
      ensures old(joinB).Some? && old(joinB).value.tokenId != r.tokenId ==> joinB.None?
      ensures old(joinB).Some? && old(joinB).value.tokenId == r.tokenId ==> joinB == old(joinB)
      ensures old(joinB).None? ==> joinB.None?
    {
      joinA := Some(r);
      if joinB.Some? && joinB.value.tokenId != r.tokenId {
        joinB := None;
      }
    }

    /** Picking the second record from the second grid, which is on screen
        only while a first record and no second one are chosen. */
    method SelectB(records: seq<TokenRecord>, r: TokenRecord)
      requires Valid() && joinA.Some? && joinB.None? && joinA.value.tokenId != ""
      requires Pickable(records, [joinA.value], joinA.value.tokenId, r)
      modifies this
      ensures Valid() && joinB == Some(r) && joinA == old(joinA)
      ensures r.raw != joinA.value.raw && !r.spent
    {
      JoinCandidatesExactly(records, joinA.value, r);
      joinB := Some(r);
    }

    /** Deselecting the first record drops both. */
    method DeselectA()
      modifies this
      ensures Valid() && joinA.None? && joinB.None?
    {
      joinA := None;
      joinB := None;
    }

    method DeselectB()
      requires Valid()
      modifies this
      ensures Valid() && joinB.None? && joinA == old(joinA)
    {
      joinB := None;
    }

    /** handleJoin: with both records chosen the two records go out; a
        returned non-empty transaction id clears the selection and reports success. */
    method HandleJoin(txId: Option<string>) returns (sent: Option<seq<string>>, done: bool)
      requires Valid()
      modifies this
      ensures Valid()
      ensures old(joinA).None? || old(joinB).None? ==>
                sent.None? && !done && joinA == old(joinA) && joinB == old(joinB)
      ensures old(joinA).Some? && old(joinB).Some? ==>
                && sent == Some([old(joinA).value.raw, old(joinB).value.raw])
                && (done <==> Truthy(txId))
                && (done ==> joinA.None? && joinB.None?)
                && (!done ==> joinA == old(joinA) && joinB == old(joinB))
    {
      if joinA.None? || joinB.None? {
        return None, false;
      }
      sent := Some([joinA.value.raw, joinB.value.raw]);
      done := Truthy(txId);
      if done {
        joinA := None;
        joinB := None;
      }
    }
  }

  // ---------------------------------------------------------------------------
  // Split

  /** `isValid`: a record is chosen and the amount splits it into two
      non-empty parts. */
  predicate IsValidSplit(token: Option<TokenRecord>, amt: int)
  {
    token.Some? && 0 < amt < token.value.amount
  }

  /** The split preview: the part split off and the rest. */
  function SplitParts(token: Option<TokenRecord>, amt: int): (r: Option<(int, int)>)
    ensures r.Some? <==> IsValidSplit(token, amt)
    ensures r.Some? ==> r.value.0 == amt && r.value.0 > 0 && r.value.1 > 0
                        && r.value.0 + r.value.1 == token.value.amount
  {
    if IsValidSplit(token, amt) then Some((amt, token.value.amount - amt)) else None
  }

  /** "Use half": `amount / 2n || 1n`, BigInt division truncating toward zero. */
  function UseHalf(amount: int): (r: int)
    ensures r != 0
    ensures amount >= 2 ==> 0 < r < amount && amount - 2 * r <= 1
    ensures -2 < amount < 2 ==> r == 1
  {
    var half := TruncDiv(amount, 2);
    if half == 0 then 1 else half
  }

  /** "Use half" proposes a valid split for every record of at least 2, and
      an amount too large for a record of 1 or less. */
  lemma UseHalfSplits(r: TokenRecord)
    ensures r.amount >= 2 ==> IsValidSplit(Some(r), UseHalf(r.amount))
    ensures r.amount <= 1 ==> !IsValidSplit(Some(r), UseHalf(r.amount))
  {
  }

  /** The split button's text. */
  datatype SplitButton = SelectAToken | EnterAmount | AmountTooLarge | SplitRecord

  /** The label chain; `!splitAmount || amt <= 0n` folds into `amt <= 0`
      since an empty amount reads as 0. */
  function SplitLabel(token: Option<TokenRecord>, splitAmount: string, amt: int): (r: SplitButton)
    requires splitAmount == "" ==> amt == 0
    ensures r == SplitRecord <==> IsValidSplit(token, amt)
    ensures r == SelectAToken <==> token.None?
    ensures r == EnterAmount <==> token.Some? && amt <= 0
    ensures r == AmountTooLarge <==> token.Some? && 0 < amt && amt >= token.value.amount
  {
    if token.None? then SelectAToken
    else if splitAmount == "" || amt <= 0 then EnterAmount
    else if amt >= token.value.amount then AmountTooLarge
    else SplitRecord
  }

  /** The split tab's state. */
  class SplitTab {
    var splitToken: Option<TokenRecord>
    var splitAmount: string

    /** The amount is typed digits or what "use half" wrote, and is empty
        while no record is chosen. */
    predicate Valid()
      reads this
    {
      && (splitToken.None? ==> splitAmount == "")
      && (IsDigits(splitAmount) || (splitToken.Some? && splitAmount == IntToText(UseHalf(splitToken.value.amount))))
    }

    constructor()
      ensures Valid() && splitToken.None? && splitAmount == ""
    {
      splitToken := None;
      splitAmount := "";
    }

    /** `amt`: the amount read by `BigInt`, which never throws here. */
    function Amount(): (r: int)
      reads this
      requires Valid()
      ensures BigIntOrZero(splitAmount) == Returns(r)
    {
      if IsDigits(splitAmount) then
        DigitsOrZero(splitAmount);
        DigitsValue(splitAmount)
      else
        IntToTextParses(UseHalf(splitToken.value.amount));
        UseHalf(splitToken.value.amount)
    }

    /** The button is enabled exactly when its label is "Split Record". */
    function Label(): (r: SplitButton)
      reads this
      requires Valid()
      ensures r == SplitRecord <==> IsValidSplit(splitToken, Amount())
    {
      SplitLabel(splitToken, splitAmount, Amount())
    }

    /** Picking a record from the grid, which is on screen only while none is chosen. */
    method SelectToken(records: seq<TokenRecord>, r: TokenRecord)
      requires Valid() && splitToken.None?
      requires Pickable(records, [], "", r)
      modifies this
      ensures Valid() && splitToken == Some(r) && splitAmount == ""
    {
      splitToken := Some(r);
    }

    method Deselect()
      modifies this
      ensures Valid() && splitToken.None? && splitAmount == ""
    {
      splitToken := None;
      splitAmount := "";
    }

    /** The amount input, shown once a record is chosen, keeps digits only. */
    method EditAmount(text: string)
      requires Valid() && splitToken.Some?
      modifies this
      ensures Valid() && splitAmount == KeepDigits(text) && splitToken == old(splitToken)
    {
      splitAmount := KeepDigits(text);
    }

    /** "Use half" writes the proposed amount, which then reads back as itself. */
    method UseHalfClick()
      requires Valid() && splitToken.Some?
      modifies this
      ensures Valid() && splitToken == old(splitToken)
      ensures Amount() == UseHalf(splitToken.value.amount)
    {
      splitAmount := IntToText(UseHalf(splitToken.value.amount));
      IntToTextParses(UseHalf(splitToken.value.amount));
    }

    /** handleSplit: it checks only that a record is chosen (the button is
        what keeps an invalid amount back); the amount goes out as a u128
        literal, and a returned non-empty transaction id clears the tab. */
    method HandleSplit(txId: Option<string>) returns (sent: Option<seq<string>>, done: bool)
      requires Valid()
      modifies this
      ensures Valid()
      ensures old(splitToken).None? ==> sent.None? && !done && splitAmount == old(splitAmount) && splitToken.None?
      ensures old(splitToken).Some? ==>
                && sent == Some([old(splitToken).value.raw, old(splitAmount) + "u128"])
                && (done <==> Truthy(txId))
                && (done ==> splitToken.None? && splitAmount == "")
                && (!done ==> splitToken == old(splitToken) && splitAmount == old(splitAmount))
      ensures old(splitToken).Some? && IsDigits(old(splitAmount)) ==>
                ParseU128(old(splitAmount) + "u128") == Returns(DigitsValue(old(splitAmount)))
    {
      if splitToken.None? {
        return None, false;
      }
      if IsDigits(splitAmount) {
        ParseU128Digits(splitAmount);
      }
      sent := Some([splitToken.value.raw, splitAmount + "u128"]);
      done := Truthy(txId);
      if done {
        splitToken := None;
        splitAmount := "";
      }
    }
  }
}
