/** The create-auction page (src/features/auction/pages/CreateAuctionPage.tsx):
 *  the persisted draft form, the price-preview guard, the ordered validation
 *  chain and the `create_auction` input encoding.
 *
 *  Three of the chain's rules compare a JavaScript `Number` with `<=`; a
 *  text that is not a number reads as NaN, every comparison with NaN is
 *  false, and the rule lets the text through. `ValidationAsWritten` and
 *  `PreviewPassesAsWritten` keep that behaviour; `Validation` and
 *  `PreviewConfig` negate `>` instead, and the page below uses them. */
module CreateAuction {
  import opened Text
  import opened AuctionTypes
  import opened Price

  /** The draft form; the start block is deliberately not part of it. */
  datatype FormState = FormState(
    paymentTokenId: string, startPrice: string, floorPrice: string, endBlock: string,
    priceDecayBlocks: string, priceDecayAmount: string, maxBidAmount: string, minBidAmount: string)

  datatype FormKey =
    | PaymentTokenId | StartPrice | FloorPrice | EndBlock
    | PriceDecayBlocks | PriceDecayAmount | MaxBidAmount | MinBidAmount

  /** `defaultForm`: every field empty except a maximum bid of "0" (no cap)
      and a minimum bid of "1". */
  function DefaultForm(): FormState
  {
    FormState("", "", "", "", "", "", "0", "1")
  }

  function Field(f: FormState, k: FormKey): string
  {
    match k
    case PaymentTokenId => f.paymentTokenId
    case StartPrice => f.startPrice
    case FloorPrice => f.floorPrice
    case EndBlock => f.endBlock
    case PriceDecayBlocks => f.priceDecayBlocks
    case PriceDecayAmount => f.priceDecayAmount
    case MaxBidAmount => f.maxBidAmount
    case MinBidAmount => f.minBidAmount
  }

  /** `update(key)(val)`: the form with one field replaced. */
  function SetField(f: FormState, k: FormKey, v: string): (r: FormState)
    ensures Field(r, k) == v
    ensures forall j :: j != k ==> Field(r, j) == Field(f, j)
  {
    match k
    case PaymentTokenId => f.(paymentTokenId := v)
    case StartPrice => f.(startPrice := v)
    case FloorPrice => f.(floorPrice := v)
    case EndBlock => f.(endBlock := v)
    case PriceDecayBlocks => f.(priceDecayBlocks := v)
    case PriceDecayAmount => f.(priceDecayAmount := v)
    case MaxBidAmount => f.(maxBidAmount := v)
    case MinBidAmount => f.(minBidAmount := v)
  }

  /** `hasDraft`: a sale token type is chosen or some field differs from its default. */
  predicate HasDraft(saleTokenTypeId: string, form: FormState)
  {
    saleTokenTypeId != "" || exists k :: Field(form, k) != Field(DefaultForm(), k)
  }

  /** There is a draft exactly when the page is not in its initial state. */
  lemma {:induction false} HasDraftIffChanged(saleTokenTypeId: string, form: FormState)
    ensures HasDraft(saleTokenTypeId, form) <==> saleTokenTypeId != "" || form != DefaultForm()
  {
    if form != DefaultForm() {
      var d := DefaultForm();
      if form.paymentTokenId != d.paymentTokenId { assert Field(form, PaymentTokenId) != Field(d, PaymentTokenId); }
      else if form.startPrice != d.startPrice { assert Field(form, StartPrice) != Field(d, StartPrice); }
      else if form.floorPrice != d.floorPrice { assert Field(form, FloorPrice) != Field(d, FloorPrice); }
      else if form.endBlock != d.endBlock { assert Field(form, EndBlock) != Field(d, EndBlock); }
      else if form.priceDecayBlocks != d.priceDecayBlocks { assert Field(form, PriceDecayBlocks) != Field(d, PriceDecayBlocks); }
      else if form.priceDecayAmount != d.priceDecayAmount { assert Field(form, PriceDecayAmount) != Field(d, PriceDecayAmount); }
      else if form.maxBidAmount != d.maxBidAmount { assert Field(form, MaxBidAmount) != Field(d, MaxBidAmount); }
      else { assert Field(form, MinBidAmount) != Field(d, MinBidAmount); }
    }
  }

  /** JavaScript's `text || fallback`: the fallback replaces an empty text. */
  function OrElse(text: string, fallback: string): string
  {
    if text == "" then fallback else text
  }

  /** The fallback "0" itself reads as 0, so `BigIntOrZero` and `NumberOrZero`
      are `BigInt(text || "0")` and `Number(text || "0")` exactly. */
  lemma {:induction false} OrZeroReads(text: string, zero: string)
    requires zero == "0"
    ensures BigIntOrZero(text) == ParseInteger(OrElse(text, zero))
    ensures NumberOrZero(text) == ToNumber(OrElse(text, zero))
  {
    ZeroIsZero(zero);
  }

  /** `a < b` on numbers: false as soon as either side is NaN. */
  predicate NumLess(a: Num, b: Num)
  {
    a.Finite? && b.Finite? && a.v < b.v
  }

  // ---------------------------------------------------------------------------
  // Validation

  /** The numbers the page reads from the form: `BigInt(field || "0")` for
      prices and amounts (which throws on a text that is not an integer) and
      `Number(field || "0")` for blocks and the interval (NaN on such a text). */
  datatype Reading = Reading(
    startPrice: Outcome<int>, floorPrice: Outcome<int>, startBlock: Num, endBlock: Num,
    decayBlocks: Num, decayAmount: Outcome<int>, maxBid: Outcome<int>, minBid: Outcome<int>)

  function Read(form: FormState, startBlock: string): Reading
  {
    Reading(BigIntOrZero(form.startPrice), BigIntOrZero(form.floorPrice),
            NumberOrZero(startBlock), NumberOrZero(form.endBlock),
            NumberOrZero(form.priceDecayBlocks), BigIntOrZero(form.priceDecayAmount),
            BigIntOrZero(form.maxBidAmount), BigIntOrZero(form.minBidAmount))
  }

  /** The messages of the validation chain, in its order. */
  datatype CreateProblem =
    | SelectSaleTokenType
    | SelectSaleRecord
    | SelectPaymentToken
    | EnterStartPrice
    | EnterFloorPrice
    | StartMustExceedFloor
    | EnterStartBlock
    | EndMustExceedStart
    | EnterDecayInterval
    | EnterDecayAmount
    | EnterMinBid

  /** The three selections of the form are made. */
  predicate Selected(saleTokenTypeId: string, selected: Option<TokenRecord>, form: FormState)
  {
    saleTokenTypeId != "" && selected.Some? && form.paymentTokenId != ""
  }

  /** The start price is entered and reads as a positive integer. */
  predicate StartPriceEntered(form: FormState, n: Reading)
  {
    form.startPrice != "" && n.startPrice.Returns? && n.startPrice.value > 0
  }

  /** The floor price is entered and reads as a positive integer. */
  predicate FloorPriceEntered(form: FormState, n: Reading)
  {
    form.floorPrice != "" && n.floorPrice.Returns? && n.floorPrice.value > 0
  }

  /** The first six rules: a sale token type and record, a payment token, and
      a start price above a positive floor price. The first rule broken gives
      its message, in the page's order; a price that `BigInt` cannot read
      throws when its rule is reached; `Returns(None)` means all six pass. */
  function SelectionAndPriceRules(saleTokenTypeId: string, selected: Option<TokenRecord>, form: FormState, n: Reading): (r: Outcome<Option<CreateProblem>>)
    ensures r == Returns(None) <==>
              && saleTokenTypeId != "" && selected.Some? && form.paymentTokenId != ""
              && form.startPrice != "" && form.floorPrice != ""
              && n.startPrice.Returns? && n.floorPrice.Returns? && n.startPrice.value > n.floorPrice.value > 0
    ensures r == Returns(Some(SelectSaleTokenType)) <==> saleTokenTypeId == ""
    ensures r == Returns(Some(SelectSaleRecord)) <==> saleTokenTypeId != "" && selected.None?
    ensures r == Returns(Some(SelectPaymentToken)) <==>
              saleTokenTypeId != "" && selected.Some? && form.paymentTokenId == ""
    ensures r == Returns(Some(EnterStartPrice)) <==>
              && Selected(saleTokenTypeId, selected, form)
              && (form.startPrice == "" || (n.startPrice.Returns? && n.startPrice.value <= 0))
    ensures r == Returns(Some(EnterFloorPrice)) <==>
              && Selected(saleTokenTypeId, selected, form) && StartPriceEntered(form, n)
              && (form.floorPrice == "" || (n.floorPrice.Returns? && n.floorPrice.value <= 0))
    ensures r == Returns(Some(StartMustExceedFloor)) <==>
              && Selected(saleTokenTypeId, selected, form) && StartPriceEntered(form, n) && FloorPriceEntered(form, n)
              && n.startPrice.value <= n.floorPrice.value
    ensures r.Throws? <==>
              && Selected(saleTokenTypeId, selected, form) && form.startPrice != ""
              && (n.startPrice.Throws? || (StartPriceEntered(form, n) && form.floorPrice != "" && n.floorPrice.Throws?))
    ensures r.Returns? && r.value.Some? ==>
              || r.value.value.SelectSaleTokenType? || r.value.value.SelectSaleRecord?
              || r.value.value.SelectPaymentToken? || r.value.value.EnterStartPrice?
              || r.value.value.EnterFloorPrice? || r.value.value.StartMustExceedFloor?
  {
    if saleTokenTypeId == "" then Returns(Some(SelectSaleTokenType))
    else if selected.None? then Returns(Some(SelectSaleRecord))
    else if form.paymentTokenId == "" then Returns(Some(SelectPaymentToken))
    else if form.startPrice == "" then Returns(Some(EnterStartPrice))
    else match n.startPrice
      case Throws => Throws
      case Returns(start) =>
        if start <= 0 then Returns(Some(EnterStartPrice))
        else if form.floorPrice == "" then Returns(Some(EnterFloorPrice))
        else match n.floorPrice
          case Throws => Throws
          case Returns(floor) =>
            if floor <= 0 then Returns(Some(EnterFloorPrice))
            else if start <= floor then Returns(Some(StartMustExceedFloor))
            else Returns(None)
  }

  /** The last two rules, on `BigInt`s: a positive decay amount and a
      positive minimum bid, in that order; an amount that `BigInt` cannot
      read throws when its rule is reached. */
  function AmountRules(n: Reading): (r: Outcome<Option<CreateProblem>>)
    ensures r == Returns(None) <==>
              n.decayAmount.Returns? && n.decayAmount.value > 0 && n.minBid.Returns? && n.minBid.value > 0
    ensures r == Returns(Some(EnterDecayAmount)) <==> n.decayAmount.Returns? && n.decayAmount.value <= 0
    ensures r == Returns(Some(EnterMinBid)) <==>
              n.decayAmount.Returns? && n.decayAmount.value > 0 && n.minBid.Returns? && n.minBid.value <= 0
    ensures r.Throws? <==> n.decayAmount.Throws? || (n.decayAmount.value > 0 && n.minBid.Throws?)
    ensures r.Returns? && r.value.Some? ==> r.value.value.EnterDecayAmount? || r.value.value.EnterMinBid?
  {
    match n.decayAmount
    case Throws => Throws
    case Returns(amount) =>
      if amount <= 0 then Returns(Some(EnterDecayAmount))
      else match n.minBid
        case Throws => Throws
        case Returns(min) => if min <= 0 then Returns(Some(EnterMinBid)) else Returns(None)
  }

  /** The block rules as the page writes them: `sb <= 0`, `endBlock <= sb`
      and `Number(decay) <= 0`, each of which is false when a side is NaN. */
  function BlockRulesAsWritten(n: Reading): (r: Outcome<Option<CreateProblem>>)
    ensures r == Returns(None) <==>
              && !NumLessEq(n.startBlock, Finite(0)) && !NumLessEq(n.endBlock, n.startBlock)
              && !NumLessEq(n.decayBlocks, Finite(0)) && AmountRules(n) == Returns(None)
    ensures r == Returns(Some(EnterStartBlock)) <==> NumLessEq(n.startBlock, Finite(0))
    ensures r == Returns(Some(EndMustExceedStart)) <==>
              !NumLessEq(n.startBlock, Finite(0)) && NumLessEq(n.endBlock, n.startBlock)
    ensures r == Returns(Some(EnterDecayInterval)) <==>
              && !NumLessEq(n.startBlock, Finite(0)) && !NumLessEq(n.endBlock, n.startBlock)
              && NumLessEq(n.decayBlocks, Finite(0))
    ensures (!NumLessEq(n.startBlock, Finite(0)) && !NumLessEq(n.endBlock, n.startBlock)
             && !NumLessEq(n.decayBlocks, Finite(0))) ==> r == AmountRules(n)
  {
    if NumLessEq(n.startBlock, Finite(0)) then Returns(Some(EnterStartBlock))
    else if NumLessEq(n.endBlock, n.startBlock) then Returns(Some(EndMustExceedStart))
    else if NumLessEq(n.decayBlocks, Finite(0)) then Returns(Some(EnterDecayInterval))
    else AmountRules(n)
  }

  /** `validation` as the page writes it: a block field that reads as NaN
      breaks none of the block rules. */
  function ValidationAsWritten(saleTokenTypeId: string, selected: Option<TokenRecord>, form: FormState, n: Reading): (r: Outcome<Option<CreateProblem>>)
    ensures r == Returns(None) <==>
              && saleTokenTypeId != "" && selected.Some? && form.paymentTokenId != ""
              && form.startPrice != "" && form.floorPrice != ""
              && n.startPrice.Returns? && n.floorPrice.Returns? && n.startPrice.value > n.floorPrice.value > 0
              && !(n.startBlock.Finite? && n.startBlock.v <= 0)
              && !(n.startBlock.Finite? && n.endBlock.Finite? && n.endBlock.v <= n.startBlock.v)
              && !(n.decayBlocks.Finite? && n.decayBlocks.v <= 0)
              && n.decayAmount.Returns? && n.decayAmount.value > 0
              && n.minBid.Returns? && n.minBid.value > 0
    ensures SelectionAndPriceRules(saleTokenTypeId, selected, form, n) != Returns(None) ==>
              r == SelectionAndPriceRules(saleTokenTypeId, selected, form, n)
    ensures SelectionAndPriceRules(saleTokenTypeId, selected, form, n) == Returns(None) ==> r == BlockRulesAsWritten(n)
  {
    var first := SelectionAndPriceRules(saleTokenTypeId, selected, form, n);
    if first != Returns(None) then first else BlockRulesAsWritten(n)
  }

  /** The block rules with each comparison negated the other way round
      (`!(sb > 0)`, `!(endBlock > sb)`, `!(decay > 0)`), so that NaN fails them. */
  function BlockRules(n: Reading): (r: Outcome<Option<CreateProblem>>)
    ensures r == Returns(None) <==>
              && NumLess(Finite(0), n.startBlock) && NumLess(n.startBlock, n.endBlock)
              && NumLess(Finite(0), n.decayBlocks) && AmountRules(n) == Returns(None)
    ensures r == Returns(Some(EnterStartBlock)) <==> !(n.startBlock.Finite? && n.startBlock.v > 0)
    ensures r == Returns(Some(EndMustExceedStart)) <==>
              && n.startBlock.Finite? && n.startBlock.v > 0
              && !(n.endBlock.Finite? && n.endBlock.v > n.startBlock.v)
    ensures r == Returns(Some(EnterDecayInterval)) <==>
              && n.startBlock.Finite? && n.endBlock.Finite? && 0 < n.startBlock.v < n.endBlock.v
              && !(n.decayBlocks.Finite? && n.decayBlocks.v > 0)
    ensures (n.startBlock.Finite? && n.endBlock.Finite? && 0 < n.startBlock.v < n.endBlock.v
             && n.decayBlocks.Finite? && n.decayBlocks.v > 0) ==> r == AmountRules(n)
  {
    if !NumLess(Finite(0), n.startBlock) then Returns(Some(EnterStartBlock))
    else if !NumLess(n.startBlock, n.endBlock) then Returns(Some(EndMustExceedStart))
    else if !NumLess(Finite(0), n.decayBlocks) then Returns(Some(EnterDecayInterval))
    else AmountRules(n)
  }

  /** `validation` with the block comparisons corrected. Null validation
      means that every number the price engine needs was read and lies in
      its range: a start price above a positive floor, an end block after a
      positive start block, a positive decay interval and amount, and a
      positive minimum bid. */
  function Validation(saleTokenTypeId: string, selected: Option<TokenRecord>, form: FormState, n: Reading): (r: Outcome<Option<CreateProblem>>)
    ensures r == Returns(None) <==>
              && saleTokenTypeId != "" && selected.Some? && form.paymentTokenId != ""
              && form.startPrice != "" && form.floorPrice != ""
              && n.startPrice.Returns? && n.floorPrice.Returns? && n.startPrice.value > n.floorPrice.value > 0
              && n.startBlock.Finite? && n.endBlock.Finite? && 0 < n.startBlock.v < n.endBlock.v
              && n.decayBlocks.Finite? && n.decayBlocks.v > 0
              && n.decayAmount.Returns? && n.decayAmount.value > 0
              && n.minBid.Returns? && n.minBid.value > 0
    ensures SelectionAndPriceRules(saleTokenTypeId, selected, form, n) != Returns(None) ==>
              r == SelectionAndPriceRules(saleTokenTypeId, selected, form, n)
    ensures SelectionAndPriceRules(saleTokenTypeId, selected, form, n) == Returns(None) ==> r == BlockRules(n)
  {
    var first := SelectionAndPriceRules(saleTokenTypeId, selected, form, n);
    if first != Returns(None) then first else BlockRules(n)
  }

  /** The corrected chain only rejects more: whatever it accepts, the chain
      as written accepts too, and the two agree whenever the three block
      fields read as numbers. */
  lemma {:induction false} CorrectedIsStricter(saleTokenTypeId: string, selected: Option<TokenRecord>, form: FormState, n: Reading)
    ensures Validation(saleTokenTypeId, selected, form, n) == Returns(None) ==>
              ValidationAsWritten(saleTokenTypeId, selected, form, n) == Returns(None)
    ensures n.startBlock.Finite? && n.endBlock.Finite? && n.decayBlocks.Finite? ==>
              Validation(saleTokenTypeId, selected, form, n) == ValidationAsWritten(saleTokenTypeId, selected, form, n)
  {
  }

  /** A form that the chain as written accepts although its end block and
      its decay interval are not numbers at all. */
  function NonNumericForm(): FormState
  {
    FormState("2field", "9", "1", "abc", "abc", "1", "0", "1")
  }

  /** What the page reads from that form with a start block of 5. */
  function NonNumericNumbers(): Reading
  {
    Reading(Returns(9), Returns(1), Finite(5), NaN, NaN, Returns(1), Returns(0), Returns(1))
  }

  /** A word of lower-case letters, such as "abc". */
  predicate IsWord(s: string)
  {
    s != [] && forall i :: 0 <= i < |s| ==> 'a' <= s[i] <= 'z'
  }

  /** A word is not a number: `BigInt` throws and `Number` gives NaN. */
  lemma LettersThrow(s: string)
    requires IsWord(s)
    ensures ParseInteger(s) == Throws && ToNumber(s) == NaN
  {
    forall i | 0 <= i < |s| ensures !IsSpace(s[i]) {
      LetterNotSpace(s[i]);
    }
    TrimNoSpace(s);
    assert !IsDigit(s[0]);
  }

  lemma LetterNotSpace(c: char)
    requires 'a' <= c <= 'z'
    ensures !IsSpace(c)
  {
  }

  /** What the page reads from a form like `NonNumericForm`: digit fields
      read as their values, and an end block and decay interval that are
      words read as NaN. */
  lemma {:induction false} NonNumericReading(form: FormState, startBlock: string)
    requires IsDigits(form.startPrice) && IsDigits(form.floorPrice) && IsDigits(startBlock)
    requires IsDigits(form.priceDecayAmount) && IsDigits(form.maxBidAmount) && IsDigits(form.minBidAmount)
    requires IsWord(form.endBlock) && IsWord(form.priceDecayBlocks)
    ensures Read(form, startBlock)
            == Reading(Returns(DigitsValue(form.startPrice)), Returns(DigitsValue(form.floorPrice)),
                       Finite(DigitsValue(startBlock)), NaN, NaN, Returns(DigitsValue(form.priceDecayAmount)),
                       Returns(DigitsValue(form.maxBidAmount)), Returns(DigitsValue(form.minBidAmount)))
  {
    DigitsOrZero(form.startPrice);
    DigitsOrZero(form.floorPrice);
    DigitsOrZero(startBlock);
    DigitsOrZero(form.priceDecayAmount);
    DigitsOrZero(form.maxBidAmount);
    DigitsOrZero(form.minBidAmount);
    LettersThrow(form.endBlock);
    LettersThrow(form.priceDecayBlocks);
  }

  /** The finding: with a start block of 5, the chain as written reports
      nothing for an end block of "abc" and a decay interval of "abc" (both
      NaN), so the button is enabled and the page would send `abcu32`
      twice; the corrected chain reports the end block. */
  lemma {:induction false} NonNumericEndBlockPasses(record: TokenRecord)
    ensures ValidationAsWritten("1field", Some(record), NonNumericForm(), NonNumericNumbers()) == Returns(None)
    ensures Validation("1field", Some(record), NonNumericForm(), NonNumericNumbers()) == Returns(Some(EndMustExceedStart))
  {
  }

  // ---------------------------------------------------------------------------
  // Price preview

  /** The guard of `previewConfig` as written: `Throws` when a `BigInt`
      throws (the page then shows no preview), otherwise whether the guard
      lets the values through. */
  function PreviewPassesAsWritten(n: Reading): (r: Outcome<bool>)
    ensures r.Returns? <==> n.startPrice.Returns? && n.floorPrice.Returns? && n.decayAmount.Returns?
    ensures r == Returns(true) <==>
              && n.startPrice.Returns? && n.floorPrice.Returns? && n.decayAmount.Returns?
              && n.startPrice.value > n.floorPrice.value && n.decayAmount.value > 0
              && !(n.startBlock.Finite? && n.endBlock.Finite? && n.endBlock.v <= n.startBlock.v)
              && !(n.decayBlocks.Finite? && n.decayBlocks.v <= 0)
  {
    match n.startPrice
    case Throws => Throws
    case Returns(start) =>
      match n.floorPrice
      case Throws => Throws
      case Returns(floor) =>
        match n.decayAmount
        case Throws => Throws
        case Returns(amount) =>
          Returns(!(start <= floor || NumLessEq(n.endBlock, n.startBlock) || NumLessEq(n.decayBlocks, Finite(0)) || amount <= 0))
  }

  /** The same non-numeric form gets past the preview guard as written, and
      the corrected guard stops it. */
  lemma {:induction false} NonNumericPreviewPasses(selected: Option<TokenRecord>)
    ensures PreviewPassesAsWritten(NonNumericNumbers()) == Returns(true)
    ensures PreviewConfig(NonNumericForm(), NonNumericNumbers(), selected).None?
  {
  }

  /** `previewConfig` with the guard corrected: the configuration handed to
      the price chart, or None when a field does not read or the guard
      fails. Empty fields read as 0, the supply is the selected record's
      amount (0 without one), and an empty minimum bid reads as 1. */
  function PreviewConfig(form: FormState, n: Reading, selected: Option<TokenRecord>): (r: Option<AuctionConfig>)
    ensures r.Some? ==>
              && Decays(r.value) && r.value.startPrice > r.value.floorPrice
              && r.value.startBlock < r.value.endBlock && r.value.priceDecayAmount > 0
              && r.value.supply == (if selected.Some? then selected.value.amount else 0)
    ensures r.Some? <==>
              && n.startPrice.Returns? && n.floorPrice.Returns? && n.decayAmount.Returns?
              && n.startPrice.value > n.floorPrice.value && NumLess(n.startBlock, n.endBlock)
              && NumLess(Finite(0), n.decayBlocks) && n.decayAmount.value > 0
              && n.maxBid.Returns? && (form.minBidAmount == "" || n.minBid.Returns?)
  {
    var minBid := if form.minBidAmount == "" then Returns(1) else n.minBid;
    if n.startPrice.Throws? || n.floorPrice.Throws? || n.decayAmount.Throws? then None
    else if !(n.startPrice.value > n.floorPrice.value) || !NumLess(n.startBlock, n.endBlock)
            || !NumLess(Finite(0), n.decayBlocks) || n.decayAmount.value <= 0 then None
    else if n.maxBid.Throws? || minBid.Throws? then None
    else Some(AuctionConfig("preview", "", "", "",
                            if selected.Some? then selected.value.amount else 0,
                            n.startPrice.value, n.floorPrice.value, n.startBlock.v, n.endBlock.v,
                            n.decayBlocks.v, n.decayAmount.value, n.maxBid.value, minBid.value))
  }

  /** The corrected guard is the guard as written with NaN rejected. */
  lemma {:induction false} PreviewGuardCorrected(form: FormState, n: Reading, selected: Option<TokenRecord>)
    ensures PreviewConfig(form, n, selected).Some? ==> PreviewPassesAsWritten(n) == Returns(true)
    ensures n.startBlock.Finite? && n.endBlock.Finite? && n.decayBlocks.Finite?
              && n.maxBid.Returns? && (form.minBidAmount == "" || n.minBid.Returns?) ==>
              (PreviewConfig(form, n, selected).Some? <==> PreviewPassesAsWritten(n) == Returns(true))
  {
  }

  /** The preview feeds the curve sampler only configurations it can draw:
      a curve that starts at the start block, rises strictly and ends at
      the floor price at the end block. */
  lemma {:induction false} PreviewCurveDrawable(form: FormState, n: Reading, selected: Option<TokenRecord>)
    requires PreviewConfig(form, n, selected).Some?
    ensures var c := PreviewConfig(form, n, selected).value;
      && Curve(c).Returns? && |Curve(c).value| > 0
      && Curve(c).value[0].block == c.startBlock
      && Curve(c).value[|Curve(c).value| - 1] == PricePoint(c.endBlock, c.floorPrice)
  {
    var c := PreviewConfig(form, n, selected).value;
    CurveShape(c);
  }

  /** Whenever the corrected chain accepts the form and the maximum bid
      reads, the preview is drawn, with the numbers the chain accepted. */
  lemma {:induction false} ValidFormHasPreview(saleTokenTypeId: string, selected: Option<TokenRecord>, form: FormState, n: Reading)
    requires Validation(saleTokenTypeId, selected, form, n) == Returns(None)
    requires n.maxBid.Returns?
    ensures PreviewConfig(form, n, selected).Some?
    ensures var c := PreviewConfig(form, n, selected).value;
      && Returns(c.startPrice) == n.startPrice && Returns(c.floorPrice) == n.floorPrice
      && Finite(c.startBlock) == n.startBlock && Finite(c.endBlock) == n.endBlock
      && (form.minBidAmount != "" ==> Returns(c.minBidAmount) == n.minBid)
      && (form.minBidAmount == "" ==> c.minBidAmount == 1)
  {
  }

  // ---------------------------------------------------------------------------
  // The create_auction inputs

  /** The inputs of `create_auction`, after the sale record (the wallet's
      record object, represented here by its text): prices and amounts with
      a `u128` suffix, blocks and the interval with `u32`, and an empty
      maximum bid sent as `0u128`. */
  function CreateInputs(record: TokenRecord, form: FormState, startBlock: string): (r: seq<string>)
    ensures |r| == 10 && r[0] == record.raw && r[1] == form.paymentTokenId
    ensures forall i :: 2 <= i < 10 ==> EndsWith(r[i], if 4 <= i <= 6 then "u32" else "u128")
    ensures form.maxBidAmount == "" ==> r[8] == "0u128"
  {
    [record.raw, form.paymentTokenId,
     form.startPrice + "u128", form.floorPrice + "u128",
     startBlock + "u32", form.endBlock + "u32", form.priceDecayBlocks + "u32",
     form.priceDecayAmount + "u128", OrElse(form.maxBidAmount, "0") + "u128", form.minBidAmount + "u128"]
  }

  /** A text that `BigInt` reads is, once trimmed, a sign and digits. */
  lemma TrimmedChars(t: string)
    requires ParseInteger(t).Returns?
    ensures forall i :: 0 <= i < |Trim(t)| ==> IsDigit(Trim(t)[i]) || Trim(t)[i] == '-' || Trim(t)[i] == '+'
  {
    var b := Trim(t);
    if b != [] && (b[0] == '-' || b[0] == '+') && |b| > 1 && IsDigits(b[1..]) {
      forall i | 1 <= i < |b| ensures IsDigit(b[i]) { assert b[1..][i - 1] == b[i]; }
    }
  }

  /** ... so the whole text holds white space, a sign and digits only, and
      never a 'u'. */
  lemma NoTypeLetter(t: string)
    requires forall i :: 0 <= i < |Trim(t)| ==> IsDigit(Trim(t)[i]) || Trim(t)[i] == '-' || Trim(t)[i] == '+'
    ensures forall i :: 0 <= i < |t| ==> t[i] != 'u'
  {
    var a := TrimStart(t);
    var b := TrimEnd(a);
    assert b == Trim(t);
    var o := |t| - |a|;
    forall i | 0 <= i < |t| ensures t[i] != 'u' {
      if i < o {
        SpaceIsNotU(t[i]);
      } else if i - o < |b| {
        assert t[i] == a[i - o] == b[i - o];
      } else {
        assert t[i] == a[i - o];
        SpaceIsNotU(a[i - o]);
      }
    }
  }

  lemma SpaceIsNotU(c: char)
    requires IsSpace(c)
    ensures c != 'u'
  {
  }

  /** Removing the first occurrence of a suffix that starts with a letter
      the text does not hold gives the text back. */
  lemma StripTypeSuffix(t: string, suffix: string)
    requires |suffix| > 0 && forall i :: 0 <= i < |t| ==> t[i] != suffix[0]
    ensures ReplaceFirst(t + suffix, suffix, "") == t
  {
    var s := t + suffix;
    assert OccursAt(s, suffix, |t|) by { assert s[|t|..|t| + |suffix|] == suffix; }
    forall j | 0 <= j < |t| ensures !OccursAt(s, suffix, j) {
      if j + |suffix| <= |s| { assert s[j..j + |suffix|][0] == s[j] == t[j]; }
    }
    assert IndexOf(s, suffix) == Some(|t|);
    assert s[..|t|] + "" + s[|t| + |suffix|..] == t;
  }

  /** A field sent as `${field}u128` reads back as the number the page read
      from it, `BigInt(field || "0")`; an empty field is sent as "u128",
      which reads as 0 too. */
  lemma {:induction false} U128Reads(t: string)
    requires BigIntOrZero(t).Returns?
    ensures ParseU128(t + "u128") == BigIntOrZero(t)
    ensures ParseU128(OrElse(t, "0") + "u128") == BigIntOrZero(t)
  {
    if t == "" {
      EmptyU128(t, OrElse(t, "0"));
    } else {
      TrimmedChars(t);
      NoTypeLetter(t);
      StripTypeSuffix(t, "u128");
    }
  }

  /** An empty field and its fallback "0" read alike once suffixed. */
  lemma EmptyU128(t: string, zero: string)
    requires t == "" && zero == "0"
    ensures ParseU128(t + "u128") == ParseInteger(zero) == ParseU128(zero + "u128") == Returns(0)
  {
    EmptyReadsZero(t);
    ZeroReadsZero(zero);
    ZeroIsZero(zero);
  }

  lemma EmptyReadsZero(t: string)
    requires t == ""
    ensures ParseU128(t + "u128") == Returns(0)
  {
    ParseU128Digits(t);
  }

  lemma ZeroReadsZero(zero: string)
    requires zero == "0"
    ensures ParseU128(zero + "u128") == Returns(0)
  {
    ParseU128Digits(zero);
  }

  lemma ZeroIsZero(zero: string)
    requires zero == "0"
    ensures ParseInteger(zero) == Returns(0)
  {
    ParseDigits(zero);
  }

  lemma EmptyU32(t: string)
    requires t == ""
    ensures ParseU32(t + "u32") == Finite(0)
  {
    ParseU32Digits(t);
  }

  /** The same for a block number sent as `${field}u32`. */
  lemma {:induction false} U32Reads(t: string)
    requires NumberOrZero(t).Finite?
    ensures ParseU32(t + "u32") == NumberOrZero(t)
  {
    if t == "" {
      EmptyU32(t);
    } else {
      TrimmedChars(t);
      NoTypeLetter(t);
      StripTypeSuffix(t, "u32");
    }
  }

  lemma U128Input(inputs: seq<string>, k: nat, t: string)
    requires k < |inputs| && inputs[k] == t + "u128"
    ensures BigIntOrZero(t).Returns? ==> ParseU128(inputs[k]) == BigIntOrZero(t)
  {
    if BigIntOrZero(t).Returns? { U128Reads(t); }
  }

  lemma U32Input(inputs: seq<string>, k: nat, t: string)
    requires k < |inputs| && inputs[k] == t + "u32"
    ensures NumberOrZero(t).Finite? ==> ParseU32(inputs[k]) == NumberOrZero(t)
  {
    if NumberOrZero(t).Finite? { U32Reads(t); }
  }

  /** Round trip for the prices: each one the page read as a number reads
      back, on the program's side, as that same number. */
  lemma {:induction false} PriceInputsRoundTrip(record: TokenRecord, form: FormState, startBlock: string)
    ensures var inputs := CreateInputs(record, form, startBlock);
      && (BigIntOrZero(form.startPrice).Returns? ==> ParseU128(inputs[2]) == BigIntOrZero(form.startPrice))
      && (BigIntOrZero(form.floorPrice).Returns? ==> ParseU128(inputs[3]) == BigIntOrZero(form.floorPrice))
  {
    var inputs := CreateInputs(record, form, startBlock);
    U128Input(inputs, 2, form.startPrice);
    U128Input(inputs, 3, form.floorPrice);
  }

  /** Round trip for the decay amount and the minimum bid. For a form the
      corrected chain accepts, this and the price round trip cover every
      amount but the maximum bid, which no rule reads. */
  lemma {:induction false} AmountInputsRoundTrip(record: TokenRecord, form: FormState, startBlock: string)
    ensures var inputs := CreateInputs(record, form, startBlock);
      && (BigIntOrZero(form.priceDecayAmount).Returns? ==> ParseU128(inputs[7]) == BigIntOrZero(form.priceDecayAmount))
      && (BigIntOrZero(form.minBidAmount).Returns? ==> ParseU128(inputs[9]) == BigIntOrZero(form.minBidAmount))
  {
    var inputs := CreateInputs(record, form, startBlock);
    U128Input(inputs, 7, form.priceDecayAmount);
    U128Input(inputs, 9, form.minBidAmount);
  }

  /** The maximum bid is sent as `${maxBid || "0"}u128`: an empty one reads
      back as 0 (no cap), and any other reads back as the page reads it
      whenever it reads at all. */
  lemma {:induction false} MaxBidInputRoundTrip(record: TokenRecord, form: FormState, startBlock: string)
    ensures var inputs := CreateInputs(record, form, startBlock);
      && (form.maxBidAmount == "" ==> ParseU128(inputs[8]) == Returns(0))
      && (BigIntOrZero(form.maxBidAmount).Returns? ==> ParseU128(inputs[8]) == BigIntOrZero(form.maxBidAmount))
  {
    var inputs := CreateInputs(record, form, startBlock);
    assert inputs[8] == OrElse(form.maxBidAmount, "0") + "u128";
    if BigIntOrZero(form.maxBidAmount).Returns? { U128Reads(form.maxBidAmount); }
    if form.maxBidAmount == "" { EmptyU128(form.maxBidAmount, OrElse(form.maxBidAmount, "0")); }
  }

  /** Round trip for the blocks and the interval. */
  lemma {:induction false} BlockInputsRoundTrip(record: TokenRecord, form: FormState, startBlock: string)
    ensures var inputs := CreateInputs(record, form, startBlock);
      && (NumberOrZero(startBlock).Finite? ==> ParseU32(inputs[4]) == NumberOrZero(startBlock))
      && (NumberOrZero(form.endBlock).Finite? ==> ParseU32(inputs[5]) == NumberOrZero(form.endBlock))
      && (NumberOrZero(form.priceDecayBlocks).Finite? ==> ParseU32(inputs[6]) == NumberOrZero(form.priceDecayBlocks))
  {
    var inputs := CreateInputs(record, form, startBlock);
    U32Input(inputs, 4, startBlock);
    U32Input(inputs, 5, form.endBlock);
    U32Input(inputs, 6, form.priceDecayBlocks);
  }

  // ---------------------------------------------------------------------------
  // The page

  /** The page's state. `form` and `saleTokenTypeId` are the persisted
      draft; the start block is kept in memory only and holds digits. */
  class CreateAuctionPage {
    var form: FormState
    var saleTokenTypeId: string
    var startBlock: string
    var selectedToken: Option<TokenRecord>
    var submittedTxId: Option<string>

    predicate Valid()
      reads this
    {
      IsDigits(startBlock)
    }

    /** Mounting: the draft is restored from storage (the defaults when
        there is none), the start block is empty and nothing is selected. */
    constructor(savedForm: Option<FormState>, savedSaleTokenTypeId: Option<string>)
      ensures Valid()
      ensures form == (if savedForm.Some? then savedForm.value else DefaultForm())
      ensures saleTokenTypeId == (if savedSaleTokenTypeId.Some? then savedSaleTokenTypeId.value else "")
      ensures startBlock == "" && selectedToken.None? && submittedTxId.None?
    {
      form := if savedForm.Some? then savedForm.value else DefaultForm();
      saleTokenTypeId := if savedSaleTokenTypeId.Some? then savedSaleTokenTypeId.value else "";
      startBlock := "";
      selectedToken := None;
      submittedTxId := None;
    }

    /** The block-height effect: while the start block is empty and the
        height is known, it becomes the height plus 50; a value already
        there, typed or filled in, is kept. */
    method OnBlockHeight(blockHeight: int)
      requires Valid()
      modifies this
      ensures Valid()
      ensures startBlock == (if blockHeight > 0 && old(startBlock) == "" then IntToText(blockHeight + 50) else old(startBlock))
      ensures startBlock != old(startBlock) ==> ToNumber(startBlock) == Finite(blockHeight + 50)
      ensures form == old(form) && saleTokenTypeId == old(saleTokenTypeId)
      ensures selectedToken == old(selectedToken) && submittedTxId == old(submittedTxId)
    {
      if blockHeight > 0 && startBlock == "" {
        startBlock := IntToText(blockHeight + 50);
        IntToTextParses(blockHeight + 50);
      }
    }

    /** The start block input keeps the digits of what is typed. */
    method EditStartBlock(text: string)
      requires Valid()
      modifies this
      ensures Valid() && startBlock == KeepDigits(text)
      ensures form == old(form) && saleTokenTypeId == old(saleTokenTypeId)
      ensures selectedToken == old(selectedToken) && submittedTxId == old(submittedTxId)
    {
      startBlock := KeepDigits(text);
    }

    /** `update(key)(val)`: the other form fields are kept. */
    method Update(key: FormKey, val: string)
      requires Valid()
      modifies this
      ensures Valid() && form == SetField(old(form), key, val)
      ensures saleTokenTypeId == old(saleTokenTypeId) && startBlock == old(startBlock)
      ensures selectedToken == old(selectedToken) && submittedTxId == old(submittedTxId)
    {
      form := SetField(form, key, val);
    }

    /** `handleSaleTokenTypeChange`: a new type drops the selected record. */
    method SaleTokenTypeChange(tokenId: string)
      requires Valid()
      modifies this
      ensures Valid() && saleTokenTypeId == tokenId && selectedToken.None?
      ensures form == old(form) && startBlock == old(startBlock) && submittedTxId == old(submittedTxId)
    {
      saleTokenTypeId := tokenId;
      selectedToken := None;
    }

    method SelectToken(r: Option<TokenRecord>)
      requires Valid()
      modifies this
      ensures Valid() && selectedToken == r
      ensures form == old(form) && saleTokenTypeId == old(saleTokenTypeId)
      ensures startBlock == old(startBlock) && submittedTxId == old(submittedTxId)
    {
      selectedToken := r;
    }

    /** `handleClearDraft`: back to the defaults, with no draft left. */
    method ClearDraft()
      requires Valid()
      modifies this
      ensures Valid() && form == DefaultForm() && saleTokenTypeId == ""
      ensures selectedToken.None? && startBlock == "" && submittedTxId == old(submittedTxId)
      ensures !HasDraft(saleTokenTypeId, form)
    {
      form := DefaultForm();
      saleTokenTypeId := "";
      selectedToken := None;
      startBlock := "";
      HasDraftIffChanged("", DefaultForm());
    }

    /** `handleCreate`. Nothing is sent without a record or while the chain
        reports a problem. Otherwise the inputs are sent; when the wallet
        returns a non-empty transaction id the draft is cleared and the page switches
        to its success state. The start block and the selected record stay
        as they were until "Create Another". */
    method HandleCreate(txId: Option<string>) returns (sent: Option<seq<string>>)
      requires Valid()
      modifies this
      ensures Valid() && startBlock == old(startBlock) && selectedToken == old(selectedToken)
      ensures var accepted := old(selectedToken).Some? &&
                Validation(old(saleTokenTypeId), old(selectedToken), old(form), Read(old(form), old(startBlock))) == Returns(None);
        && (!accepted ==> sent.None? && form == old(form) && saleTokenTypeId == old(saleTokenTypeId)
                          && submittedTxId == old(submittedTxId))
        && (accepted ==> sent == Some(CreateInputs(old(selectedToken).value, old(form), old(startBlock))))
        && (accepted && Truthy(txId) ==> form == DefaultForm() && saleTokenTypeId == "" && submittedTxId == txId)
        && (accepted && !Truthy(txId) ==>
              form == old(form) && saleTokenTypeId == old(saleTokenTypeId) && submittedTxId == old(submittedTxId))
    {
      if selectedToken.None? || Validation(saleTokenTypeId, selectedToken, form, Read(form, startBlock)) != Returns(None) {
        return None;
      }
      sent := Some(CreateInputs(selectedToken.value, form, startBlock));
      if Truthy(txId) {
        Submitted(txId.value);
      }
    }

    /** What a returned transaction id does: the draft is cleared and the
        page shows its success state. */
    method Submitted(txId: string)
      requires Valid()
      modifies this
      ensures Valid() && form == DefaultForm() && saleTokenTypeId == "" && submittedTxId == Some(txId)
      ensures startBlock == old(startBlock) && selectedToken == old(selectedToken)
    {
      form := DefaultForm();
      saleTokenTypeId := "";
      submittedTxId := Some(txId);
    }

    /** "Create Another": leaves the success state with no record selected
        and an empty start block, to be refilled from the block height. */
    method CreateAnother()
      requires Valid()
      modifies this
      ensures Valid() && submittedTxId.None? && selectedToken.None? && startBlock == ""
      ensures form == old(form) && saleTokenTypeId == old(saleTokenTypeId)
    {
      submittedTxId := None;
      selectedToken := None;
      startBlock := "";
    }
  }
}
