# Fairdrop dashboard — a Dafny model

Fairdrop is a Dutch-auction launchpad on Aleo. Its dashboard is a React
application. Creators use it to auction a token supply, and bidders use it to
commit payment tokens while the price decays block by block. After the
auction is cleared, bidders claim their tokens and a refund, and creators
withdraw their revenue and the unsold supply. This project models the
logic of that dashboard, leaving the rendering aside:

- **Price.** The decaying price at a block and the sampled price curve
  (`price.dfy`, `use_current_price.dfy`).
- **On-chain text.** The parsing of on-chain struct text (`{ name: 12u128, ... }`)
  into configs, states, statistics and records. Round trips are proved for
  every field order (`auction_types.dfy`).
- **Formatting.** Display helpers for addresses, field ids and decimal
  amounts (`formatting.dfy`) and the test-token catalogue (`constants.dfy`).
- **Loading.** How the auction lists are loaded: the global index (newest
  first, capped) and a creator's linked list of auctions. Configs come from
  a write-once local cache (`auctions.dfy`, `user_auctions.dfy`,
  `config_cache.dfy`).
- **Records.** The wallet record store: classification into token and bid
  records, spent marks kept locally until the wallet stops returning a
  record (`records.dfy`), and the token picker grid (`token_grid.dfy`).
- **Pages.** Each page's form state and guards, as classes whose methods
  are the event handlers: create auction, bid, claim, creator dashboard,
  faucet, token join and split (`create_auction.dfy`, `bid_form.dfy`,
  `claim_page.dfy`, `creator_dashboard.dfy`, `faucet.dfy`,
  `token_manager.dfy`, `auction_detail.dfy`, `auction_info.dfy`).
- **Transaction tracker.** Tracked transactions are polled until the wallet
  reports them confirmed or failed. After 72 unanswered polls they are
  failed (`tx_tracker.dfy`).

JavaScript semantics are written out in module `Text`:
- `BigInt(text)` either returns an integer or throws: `Outcome<int>`.
- `Number(text)` may be `NaN`: `Num`.
- `BigInt` division and remainder truncate toward zero.
- `Math.floor` floors.
- `x || "0"` turns the empty text into 0.

Only decimal integer text is read as a number. The wallet, the RPC node,
local storage and the clock are parameters of the operations that use them.

## Model

| member | source | states |
|---|---|---|
| Formatting.TruncateAddress | src/shared/lib/formatting.ts:1-4 | an address is kept iff it is at most 2·chars+3 long; otherwise the result is its first and last `chars` characters around "...", and with `chars == 0` it is "..." before the whole address |
| Formatting.TruncateAddressIdempotent | src/shared/lib/formatting.ts:1-4 | truncating an already truncated address changes nothing |
| Formatting.StripField | src/shared/lib/formatting.ts:16 | one trailing "field" is removed, and the removed suffix rebuilds the input |
| Formatting.FormatField | src/shared/lib/formatting.ts:15-19 | the result is at most 17 characters: the stripped id when it is at most 16 long, otherwise its first 8 and last 6 characters around "..." |
| Formatting.FormatFieldOfId | src/shared/lib/formatting.ts:15-19 | a short numeric id printed with its `field` suffix displays as the number alone |
| Formatting.PadStart | src/shared/lib/formatting.ts:11 | the result is `width` long (or the text itself if longer), with zeros only in front |
| Formatting.StripTrailingZeros | src/shared/lib/formatting.ts:11 | a prefix of the text with no trailing zero; only zeros were removed |
| Formatting.FormatAmount | src/shared/lib/formatting.ts:6-13 | with no decimals the amount itself is shown; otherwise the whole part is the quotient by 10^decimals |
| Formatting.FractionTextValue | src/shared/lib/formatting.ts:11 | the fraction text of a remainder is at most `decimals` digits with no trailing zero, empty iff the remainder is 0, and read at its decimal position it is the remainder |
| Formatting.FormatAmountRoundTrip | src/shared/lib/formatting.ts:6-13 | the whole part and the fraction digits rebuild the amount exactly; the fraction is empty iff the amount is a whole number of units |
| Price.CurrentPrice | src/features/auction/utils/price.ts:3-18 | start price before the window; floor price from the end block on; inside the window the price decreases by the decay amount per completed interval and never goes below the floor; it throws iff the decay interval is 0 inside the window |
| Price.PriceInRange | src/features/auction/utils/price.ts:3-18 | for a well-formed auction the price always lies between the floor and the start price |
| Price.PriceMonotone | src/features/auction/utils/price.ts:3-18 | the price never rises as the block height grows |
| Price.PriceBySteps | src/features/auction/utils/price.ts:10-17 | blocks in the same decay interval have the same price; above the floor the price has dropped by steps × decay amount |
| Price.Stride | src/features/auction/utils/price.ts:24-26 | the sampling step is at least 1, and NaN exactly when the window is empty |
| Price.Visits | src/features/auction/utils/price.ts:28-30 | every sampled block is at most the end block |
| Price.PriceCurve | src/features/auction/utils/price.ts:20-36 | the loop builds exactly the specified curve |
| Price.Curve | src/features/auction/utils/price.ts:20-36 | the curve specification that PriceCurve is proved against and the curve lemmas are about |
| Price.VisitsShape | src/features/auction/utils/price.ts:28-30 | the sampled blocks start at the start block, increase strictly, and the last one is within one step of the end |
| Price.VisitsEvery | src/features/auction/utils/price.ts:28-30 | with step 1 every block of the window is sampled, in order |
| Price.CurveThrows | src/features/auction/utils/price.ts:20-36 | the curve throws iff the decay interval is 0 and the window is not empty |
| Price.CurveShape | src/features/auction/utils/price.ts:20-36 | the curve starts at the start block, ends at (end block, floor price), has strictly increasing blocks inside the window, and each point's price is the current price at its block |
| Price.CurveDense | src/features/auction/utils/price.ts:24-35 | a window of at most 200 blocks is sampled at every block |
| Price.CurveDegenerate | src/features/auction/utils/price.ts:24-35 | an empty or inverted window gives the single point (end block, floor price) |
| UseCurrentPrice.PriceView | src/features/auction/hooks/useCurrentPrice.ts:9-12 | no price without a config or before the height is known; otherwise the current price at that height |
| UseCurrentPrice.TimeStatus | src/features/auction/hooks/useCurrentPrice.ts:14-23 | upcoming before the start, ended from the end block on, ending in the last tenth of the window, active otherwise; never supply-met or cleared |
| UseCurrentPrice.TimeStatusMonotone | src/features/auction/hooks/useCurrentPrice.ts:14-23 | the phase only moves forward as the height grows |
| UseCurrentPrice.StatusMatchesPrice | src/features/auction/hooks/useCurrentPrice.ts:9-23 | an upcoming auction shows the start price, an ended one the floor price, and any shown price lies between the two |
| AuctionDetail.DetailStatus | src/features/auction/pages/AuctionDetailPage.tsx:22 | cleared and supply-met on-chain flags take precedence over the height-based status |
| AuctionDetail.IsActive | src/features/auction/pages/AuctionDetailPage.tsx:23 | the auction is open iff its status is active or ending (a definition) |
| AuctionDetail.IsEndingSoon | src/features/auction/pages/AuctionDetailPage.tsx:25 | the countdown shows for an open auction with 1 to 99 blocks left (a definition) |
| AuctionDetail.ShowBidForm | src/features/auction/pages/AuctionDetailPage.tsx:74 | the bid form shows for an open auction whose price is known (a definition) |
| AuctionDetail.PageStatus | src/features/auction/pages/AuctionDetailPage.tsx:19-22 | the status shown is the flag-based status over the height-based one; FlagsOverrideHeight states its properties |
| AuctionDetail.BlocksRemaining | src/features/auction/pages/AuctionDetailPage.tsx:24 | the height plus the remaining blocks is the end block; 0 without a config |
| AuctionDetail.FlagsOverrideHeight | src/features/auction/pages/AuctionDetailPage.tsx:22-23 | once cleared or supply met, the status no longer depends on the height and the auction is not open |
| AuctionDetail.OpenMeansInWindow | src/features/auction/pages/AuctionDetailPage.tsx:22-25 | an open auction is inside its window with neither flag set, and the countdown shows iff fewer than 100 blocks remain |
| AuctionDetail.BidFormPrice | src/features/auction/pages/AuctionDetailPage.tsx:74-77 | the bid form only appears inside the window, with the current price, which lies between floor and start price |
| AuctionInfo.DemandPercent | src/features/auction/components/AuctionInfo.tsx:15-17 | 0 without a state or with no supply |
| AuctionInfo.DemandPercentBounds | src/features/auction/components/AuctionInfo.tsx:15-17 | the percentage is the truncated ratio committed·100 / supply, and it reaches 100 iff the supply is fully committed |
| AuctionInfo.ShowEndedAtBlock | src/features/auction/components/AuctionInfo.tsx:62 | the ended-at row shows when supply is met and the block is positive (a definition) |
| AuctionInfo.DisplayedDemand | src/features/auction/components/AuctionInfo.tsx:67 | the bar never exceeds 100, and shows 100 iff the percentage is at least 100 |
| AuctionInfo.DisplayedDemandFull | src/features/auction/components/AuctionInfo.tsx:67 | the bar lies in 0..100 and is full iff the supply is fully committed |
| AuctionTypes.ExtractField | src/shared/types/auction.ts:88-92 | the value read is a run of value characters (no comma, brace or space) |
| AuctionTypes.ParseU128 | src/shared/types/auction.ts:68-70 | a text of bare digits reads as its value: the "u128" suffix is optional |
| AuctionTypes.ParseU32 | src/shared/types/auction.ts:73-75 | a text of bare digits reads as its (finite) value |
| AuctionTypes.ParseU64 | src/shared/types/auction.ts:78-80 | a text of bare digits reads as its (finite) value |
| AuctionTypes.ParseBool | src/shared/types/auction.ts:83-85 | on a text without spaces, such as an extracted value, true exactly when the text is "true" |
| AuctionTypes.ConfigFromFields | src/shared/types/auction.ts:94-110 | it throws iff one of the six u128 fields is not an integer or one of the three u32 fields reads as NaN; otherwise the four ids are the given texts and every number is its field's reading |
| AuctionTypes.ParseAuctionConfig | src/shared/types/auction.ts:94-110 | it throws iff a numeric field fails to read; the ids of a parsed config are the extracted field texts |
| AuctionTypes.StateFromFields | src/shared/types/auction.ts:112-122 | it throws iff one of the four u128 fields is not an integer or `ended_at_block` reads as NaN; the flags never fail, and every value is its field's reading |
| AuctionTypes.ParseAuctionState | src/shared/types/auction.ts:112-122 | it throws iff a numeric field fails to read; each flag is set iff its extracted field is exactly "true" |
| AuctionTypes.FirstMatch | src/shared/types/auction.ts:89-90 | the regular expression's leftmost match position, or none when no position matches |
| AuctionTypes.ExtractFieldFirstCapture | src/shared/types/auction.ts:88-92 | the value is "" iff the pattern matches nowhere; otherwise it is the capture at the leftmost match |
| AuctionTypes.ParseU128Digits | src/shared/types/auction.ts:68-70 | "<digits>u128" reads as the digits' value |
| AuctionTypes.ParseU128FirstOnly | src/shared/types/auction.ts:68-70 | only the first "u128" is removed, so anything after it is read as part of the number |
| AuctionTypes.ParseU32Digits | src/shared/types/auction.ts:73-75 | "<digits>u32" reads as the digits' value |
| AuctionTypes.ParseU64Digits | src/shared/types/auction.ts:78-80 | "<digits>u64" reads as the digits' value |
| AuctionTypes.MissingFieldDefaults | src/shared/types/auction.ts:67-92 | a missing field reads as "", 0 or false |
| AuctionTypes.ParseStats | src/shared/types/auction.ts:124-129 | each counter is the u64 reading of its own field |
| AuctionTypes.ParseTokenRecord | src/shared/types/auction.ts:131-140 | it returns iff the amount parses; the id is empty, the raw text is kept, and owner and token id are the extracted fields |
| AuctionTypes.ParseBidRecord | src/shared/types/auction.ts:142-152 | it returns iff quantity and payment amount parse; the id is empty, the raw text is kept, and owner and auction id are the extracted fields |
| AuctionTypes.ExtractEntry | src/shared/types/auction.ts:88-92 | in a printed struct, a field whose name ends no earlier field's name reads back as its value |
| AuctionTypes.ExtractAnyOrder | src/shared/types/auction.ts:88-92 | a field printed in any order reads back as its value, provided no other field name ends with its name |
| AuctionText.U128TextParses | src/shared/types/auction.ts:68-70 | a printed u128 parses back to the number |
| AuctionText.U32TextParses | src/shared/types/auction.ts:73-75 | a printed u32 parses back to the number |
| AuctionText.BoolTextParses | src/shared/types/auction.ts:83-85 | a printed bool parses back |
| AuctionText.PrintedStateFields | src/shared/types/auction.ts:112-122 | the state built from the printed field values is the original state |
| AuctionText.StateFieldsByName | src/shared/types/auction.ts:112-122 | every state field is extracted from the struct text by its name, in any order |
| AuctionText.ParseAuctionStateRoundTrip | src/shared/types/auction.ts:112-122 | the on-chain state text, with fields in any order, parses back to the state |
| AuctionText.PrintedConfigFields | src/shared/types/auction.ts:94-110 | the config built from the printed field values is the original config |
| AuctionText.ConfigFieldsByName | src/shared/types/auction.ts:94-110 | every config field is extracted from the struct text by its name, in any order |
| AuctionText.ParseAuctionConfigRoundTrip | src/shared/types/auction.ts:94-110 | the on-chain config text, with fields in any order, parses back to the config |
| Auctions.LimitOrDefault | src/features/auction/hooks/useAuctions.ts:41 | without a limit from the caller the limit is 50; otherwise it is the caller's |
| Auctions.IndexList | src/features/auction/hooks/useAuctions.ts:68-73 | the indices are newest first, strictly decreasing and in range; there are min(count, limit) of them, and none for a zero, negative or NaN count |
| Auctions.IndexLookups | src/features/auction/hooks/useAuctions.ts:76 | one lookup per index, present iff the index is mapped |
| Auctions.ValidIds | src/features/auction/hooks/useAuctions.ts:79 | exactly the non-empty ids that were found are kept |
| Auctions.FetchEntry | src/features/auction/hooks/useAuctions.ts:80-95 | there is an entry iff the config text is present, non-empty and parses, and the state text is missing, empty or parses; an entry's config and state are the parsed texts, and the state is present iff its text is non-empty |
| Auctions.FetchPrintedConfig | src/features/auction/hooks/useAuctions.ts:83-91 | an auction whose config is on chain and whose state is not yet published is listed with its exact config and no state |
| Auctions.FetchParsedConfig | src/features/auction/hooks/useAuctions.ts:87-91 | a non-empty config text that parses, with a missing or empty state, gives an entry with that config and no state |
| Auctions.FetchParsedAuction | src/features/auction/hooks/useAuctions.ts:87-91 | a non-empty config and a non-empty state that both parse give the entry holding both |
| Auctions.FetchPrintedAuction | src/features/auction/hooks/useAuctions.ts:83-91 | an auction whose config and state are printed on chain is listed with its exact config and state |
| Auctions.ValidIdsOrder | src/features/auction/hooks/useAuctions.ts:79 | the kept ids sit at strictly increasing positions of the lookups, and every non-empty id found is among them |
| Auctions.FetchAll | src/features/auction/hooks/useAuctions.ts:80-96 | one result per id, in order |
| Auctions.PresentOrder | src/features/auction/hooks/useAuctions.ts:98 | the kept entries sit at strictly increasing positions of the results, and every present result is among them |
| Auctions.PresentExactly | src/features/auction/hooks/useAuctions.ts:98 | an entry is kept iff it was fetched |
| Auctions.EntriesExactly | src/features/auction/hooks/useAuctions.ts:80-98 | the listed entries are exactly the successful fetches |
| Auctions.CreatedBy | src/features/auction/hooks/useAuctions.ts:101-103 | exactly the entries of that creator are kept |
| Auctions.CreatedBySubsequence | src/features/auction/hooks/useAuctions.ts:101-103 | the filter keeps the listing order |
| Auctions.ByCreator | src/features/auction/hooks/useAuctions.ts:101-103 | an empty filter keeps everything |
| Auctions.ListedBounded | src/features/auction/hooks/useAuctions.ts:59-103 | at most min(count, limit) auctions are listed, none for a NaN count, and all by the filtered creator |
| Auctions.ValidIdPositions | src/features/auction/hooks/useAuctions.ts:68-79 | each valid id is the index entry at a position below the count, and the positions strictly decrease |
| Auctions.EntryPositions | src/features/auction/hooks/useAuctions.ts:80-98 | each entry is the fetch result of an id, and those ids' positions strictly increase |
| Auctions.ByCreatorPositions | src/features/auction/hooks/useAuctions.ts:101-103 | each filtered entry sits at a strictly increasing position of the unfiltered list |
| Auctions.ListedNewestFirst | src/features/auction/hooks/useAuctions.ts:68-103 | every listed auction is the fetch result of the id at an index position below the count, and those positions strictly decrease down the list, with or without a creator filter |
| Auctions.DefaultListedAtMost50 | src/features/auction/hooks/useAuctions.ts:41 | without a limit from the caller at most 50 auctions are listed |
| Auctions.Listed | src/features/auction/hooks/useAuctions.ts:48-111 | the listing specification; ListedBounded states its bounds and filter |
| Auctions.AuctionList.Fetch | src/features/auction/hooks/useAuctions.ts:41-111 | with no stats the total is 0 and the list is empty; otherwise the total is the parsed count and the list is the specified listing, with limit 50 when the caller gives none |
| ConfigCache.Loaded | src/shared/lib/auctionConfigCache.ts:15-22 | an absent or unreadable store loads as the empty map |
| ConfigCache.Misses | src/shared/lib/auctionConfigCache.ts:48-54 | never more misses than ids |
| ConfigCache.MissesExactly | src/shared/lib/auctionConfigCache.ts:42-57 | an id is a miss iff it is asked for and not cached with a non-empty text |
| ConfigCache.CachedIdsHit | src/shared/lib/auctionConfigCache.ts:42-65 | after caching non-empty configs for some ids, those ids no longer miss |
| ConfigCache.ConfigCache.GetCachedConfig | src/shared/lib/auctionConfigCache.ts:33-35 | the cached text iff the id is stored, and nothing from an unreadable store |
| ConfigCache.ConfigCache.PartitionByCache | src/shared/lib/auctionConfigCache.ts:42-57 | hits are exactly the asked ids cached with non-empty text, with their cached texts; misses are the rest, in order |
| ConfigCache.ConfigCache.Save | src/shared/lib/auctionConfigCache.ts:24-30 | a write that does not fit is skipped |
| ConfigCache.ConfigCache.CacheConfigs | src/shared/lib/auctionConfigCache.ts:60-65 | no entries (or a refused write) leave the store untouched; otherwise new values win, and every other stored id keeps its value |
| UserAuctions.WalkShape | src/features/auction/hooks/useUserAuctions.ts:72-77 | the traversal yields at most k ids, none empty or the end marker, each followed by its predecessor |
| UserAuctions.Walk | src/features/auction/hooks/useUserAuctions.ts:72-77 | the traversal specification; WalkShape states its shape |
| UserAuctions.WalkRecoversChain | src/features/auction/hooks/useUserAuctions.ts:72-77 | a well-linked chain of k auctions is read back exactly |
| UserAuctions.TraverseCreatorList | src/features/auction/hooks/useUserAuctions.ts:72-77 | the loop yields exactly the specified walk |
| UserAuctions.Fetched | src/features/auction/hooks/useUserAuctions.ts:91-94 | exactly the misses that came back with a non-empty config are kept, with their texts |
| UserAuctions.CollectFetched | src/features/auction/hooks/useUserAuctions.ts:91-94 | the loop collects exactly those configs |
| UserAuctions.Hits | src/features/auction/hooks/useUserAuctions.ts:87 | exactly the ids cached with non-empty text, with their cached texts |
| UserAuctions.KnownConfigsPreferCache | src/features/auction/hooks/useUserAuctions.ts:87-96 | a cached config is used as is; a miss uses the fetched text when there is one; otherwise the auction has no config |
| UserAuctions.UserAuctions.CreatorIds | src/features/auction/hooks/useUserAuctions.ts:64-79 | the cached id list is reused iff it has exactly k ids; otherwise the list is walked and cached |
| UserAuctions.UserAuctions.Fetch | src/features/auction/hooks/useUserAuctions.ts:45-121 | no wallet clears the list; a zero count lists nothing; otherwise the ids come from CreatorIds, newly fetched configs are cached, and the list holds the entries built from cached-or-fetched configs |
| Records.StripSuffix | src/shared/hooks/useRecords.ts:31-33 | one trailing ".private" or ".public" is removed, and the suffix rebuilds the input |
| Records.ParseBigIntField | src/shared/hooks/useRecords.ts:35-37 | the u128 reading of the text without its visibility suffix |
| Records.ParseBigIntFieldDigits | src/shared/hooks/useRecords.ts:35-37 | "<digits>u128", private, public or bare, reads as the digits' value |
| Records.StripSuffixOnce | src/shared/hooks/useRecords.ts:31-33 | only one suffix is removed |
| Records.Classify | src/shared/hooks/useRecords.ts:58-99 | an entry is a token record iff it is a record with a token id, no auction id and a parsable amount; a bid iff it has an auction id and parsable quantity and payment; it is spent iff the wallet says so or it is marked locally |
| Records.IdField | src/shared/hooks/useRecords.ts:71-72 | an empty or missing id field reads as "", any other loses its visibility suffix (a definition) |
| Records.AmountField | src/shared/hooks/useRecords.ts:80 | only a missing amount field takes the default "0u128"; an empty one stays empty (a definition) |
| Records.Classifications | src/shared/hooks/useRecords.ts:58-100 | one classification per wallet entry, in order |
| Records.TokensClassified | src/shared/hooks/useRecords.ts:74-85 | the token list holds exactly the entries classified as tokens |
| Records.BidsClassified | src/shared/hooks/useRecords.ts:86-98 | the bid list holds exactly the entries classified as bids |
| Records.ClassifiedAtMostOnce | src/shared/hooks/useRecords.ts:74-99 | no entry becomes both a token and a bid |
| Records.ReturnedIdsExactly | src/shared/hooks/useRecords.ts:56-60 | the returned ids are exactly the ids of the record entries |
| Records.IdSet | src/shared/hooks/useRecords.ts:131 | the set holds exactly the listed ids |
| Records.MarkTokensExactly | src/shared/hooks/useRecords.ts:132 | a record becomes spent iff it was spent or its id is marked; nothing else changes |
| Records.MarkTokensTwice | src/shared/hooks/useRecords.ts:126-133 | marking twice is marking the union once |
| Records.MarkBidsTwice | src/shared/hooks/useRecords.ts:133 | marking bids twice is marking the union once |
| Records.RecordStore.FetchRecords | src/shared/hooks/useRecords.ts:47-114 | with no wallet nothing changes; otherwise the lists are the classified entries, and local spent marks survive only for ids the wallet still returns |
| Records.RecordStore.MarkSpent | src/shared/hooks/useRecords.ts:126-134 | the ids join the local spent set, and both lists are marked in place |
| TokenGrid.ExcludeSet | src/shared/components/TokenGrid.tsx:25 | exactly the raw texts of the excluded records |
| TokenGrid.Filtered | src/shared/components/TokenGrid.tsx:27-31 | exactly the records that are not excluded and match the token filter |
| TokenGrid.FilteredIsSubsequence | src/shared/components/TokenGrid.tsx:27-31 | the filter keeps the record order |
| TokenGrid.GridRecords | src/shared/components/TokenGrid.tsx:25-31 | no shown record shares a raw text with an excluded one, and all match the filter |
| TokenGrid.HasSpentIffShownSpent | src/shared/components/TokenGrid.tsx:33 | the spent notice shows iff some shown record is spent |
| TokenGrid.Cards | src/shared/components/TokenGrid.tsx:48-55 | one card per shown record; selected iff its raw text is the selection's; selectable iff not spent |
| Constants.Find | src/constants.ts:46 | the catalogue token with that id, or none iff no token has it |
| Constants.FindDistinct | src/constants.ts:46 | with distinct ids every catalogue token is found by its own id |
| Constants.CatalogueIds | src/constants.ts:28-42 | six tokens, the three sale tokens then the three payment tokens, with distinct ids |
| Constants.TokenLabel | src/constants.ts:45-48 | "Name (SYMBOL)" for a catalogue token, otherwise the id itself |
| Constants.TokenSymbol | src/constants.ts:51-53 | the symbol for a catalogue token, otherwise the id itself |
| Constants.LookupsOfCatalogue | src/constants.ts:44-53 | each catalogue token is labelled by its own name and symbol, and unknown ids are shown as themselves |
| ClaimPage.ClaimBreakdown | src/features/claim/pages/ClaimPage.tsx:23-33 | a breakdown exists iff a bid is selected and the auction is cleared; cost plus refund is the payment, and the tokens are the quantity |
| ClaimPage.RefundCovered | src/features/claim/pages/ClaimPage.tsx:23-33 | the cost is quantity × clearing price; the refund is non-negative iff the payment covers it, and a bid paid at a price at or above the clearing price is refunded the difference |
| ClaimPage.U128Literal | src/features/claim/pages/ClaimPage.tsx:40 | a non-negative clearing price is sent as a u128 literal that parses back to it |
| ClaimPage.IntToTextU128Parses | src/features/claim/pages/ClaimPage.tsx:40 | a printed non-negative integer with "u128" parses back to it |
| ClaimPage.ClaimPage.HandleClaim | src/features/claim/pages/ClaimPage.tsx:35-49 | nothing is sent without a selected bid, a config and a cleared state; otherwise the bid record's raw text, the clearing price and the token ids are sent; a non-empty returned id marks the bid spent, reports success and deselects it, while null or "" changes nothing |
| ClaimPage.ClaimPage.SelectBid | src/features/claim/pages/ClaimPage.tsx:63 | the selection becomes the chosen bid; success, config and state are unchanged |
| ClaimPage.ClaimPage.AuctionLoaded | src/features/claim/pages/ClaimPage.tsx:19 | the config and state become what the auction hook delivered; the selection and success flag are unchanged |
| BidForm.BidValidation | src/features/auction/components/BidForm.tsx:31-39 | each message appears iff its rule is the first one broken; a bid is accepted iff the quantity is positive, within min and max (0 = no cap), and a payment record covering quantity × price is selected |
| BidForm.NoCapWhenMaxZero | src/features/auction/components/BidForm.tsx:35 | a zero maximum imposes no cap |
| BidForm.AcceptedBidAffordable | src/features/auction/components/BidForm.tsx:26-39 | an accepted bid's cost is covered by the payment record, and the cost grows with the quantity |
| BidForm.BidForm.EditQuantity | src/features/auction/components/BidForm.tsx:62 | the quantity keeps only the typed digits |
| BidForm.BidForm.SelectPayment | src/features/auction/components/BidForm.tsx:69 | the selected payment record becomes the chosen one; the quantity is unchanged and stays digits only |
| BidForm.TotalCost | src/features/auction/components/BidForm.tsx:26-29 | the cost is the quantity times the current price (a definition; BidValidation and the accepted-bid lemma state its use) |
| BidForm.HasPaymentRecords | src/features/auction/components/BidForm.tsx:22-24 | some unspent record of the payment token exists (a definition) |
| BidForm.BidForm.Validation | src/features/auction/components/BidForm.tsx:31-39 | the page's message is the validation of its state, and no message means an affordable bid within bounds |
| BidForm.BidForm.HandleBid | src/features/auction/components/BidForm.tsx:41-52 | a rejected bid sends nothing; an accepted one sends the payment record's raw text, the auction id and a quantity literal that parses back to the quantity; a non-empty returned id clears the form, while null or "" keeps it |
| Faucet.EffectiveRecipient | src/features/faucet/pages/FaucetPage.tsx:28 | the typed recipient, else the wallet key; empty iff both are missing |
| Faucet.FaucetValidation | src/features/faucet/pages/FaucetPage.tsx:30-35 | each message iff its rule is the first one broken; no message iff there is a recipient, a token and a positive amount |
| Faucet.FieldTokenId | src/features/faucet/pages/FaucetPage.tsx:41 | the id contains "field"; an id already containing it is kept, otherwise the suffix is added |
| Faucet.FieldTokenIdIdempotent | src/features/faucet/pages/FaucetPage.tsx:41 | adding the suffix twice changes nothing, and a numeric id gets it once |
| Faucet.FaucetPage.EditRecipient | src/features/faucet/pages/FaucetPage.tsx:56 | only the recipient changes |
| Faucet.FaucetPage.SelectToken | src/features/faucet/pages/FaucetPage.tsx:64 | only the token changes |
| Faucet.FaucetPage.EditAmount | src/features/faucet/pages/FaucetPage.tsx:73 | the amount keeps only the typed digits |
| Faucet.FaucetPage.Validation | src/features/faucet/pages/FaucetPage.tsx:30-35 | no message iff there is a recipient, a token and a positive amount |
| Faucet.FaucetPage.HandleMint | src/features/faucet/pages/FaucetPage.tsx:37-45 | an invalid form sends nothing; a valid one sends the recipient, the field-typed token id and a positive amount literal that parses back; success is set iff the returned id is non-empty or it was already set |
| CreatorDashboard.CreatorStatus | src/features/creator/pages/CreatorDashboardPage.tsx:39-46 | cleared, then supply met, then ended from the end block on, then active from the start; never "ending" |
| CreatorDashboard.MaxWithdrawable | src/features/creator/pages/CreatorDashboardPage.tsx:60 | once cleared, withdrawable plus withdrawn is the revenue; 0 before |
| CreatorDashboard.UnsoldSupply | src/features/creator/pages/CreatorDashboardPage.tsx:61 | unsold plus committed is the supply |
| CreatorDashboard.MaxUnsold | src/features/creator/pages/CreatorDashboardPage.tsx:62 | once cleared, recoverable plus withdrawn is the unsold supply; 0 before |
| CreatorDashboard.WithdrawDisabled | src/features/creator/pages/CreatorDashboardPage.tsx:188 | an empty amount disables the button |
| CreatorDashboard.WithdrawEnabledIffPositive | src/features/creator/pages/CreatorDashboardPage.tsx:177-188 | a digit amount enables withdrawing iff it is positive |
| CreatorDashboard.FlagsOverrideHeight | src/features/creator/pages/CreatorDashboardPage.tsx:39-59 | a cleared auction is cleared at every height; supply met fixes the status; closing is offered iff not cleared and supply met or ended |
| CreatorDashboard.CanClose | src/features/creator/pages/CreatorDashboardPage.tsx:59 | closing is offered when supply is met or the auction ended, and it is not cleared (a definition; FlagsOverrideHeight states it over the page status) |
| CreatorDashboard.ClearedSettles | src/features/creator/pages/CreatorDashboardPage.tsx:59-62 | a cleared auction cannot be closed again, and withdrawing the maximum leaves nothing to withdraw |
| CreatorDashboard.CreatorDashboard.LoadWithdrawn | src/features/creator/pages/CreatorDashboardPage.tsx:49-57 | a fetched amount that parses replaces its own counter only; anything else leaves it |
| CreatorDashboard.CreatorDashboard.EditAmount | src/features/creator/pages/CreatorDashboardPage.tsx:177 | the edited amount keeps only the typed digits; the other one is unchanged |
| CreatorDashboard.CreatorDashboard.CanWithdraw | src/features/creator/pages/CreatorDashboardPage.tsx:188 | withdrawing is enabled iff the amount is non-empty and positive |
| TokenManager.JoinCandidatesExactly | src/features/tokens/pages/TokenManagerPage.tsx:75-83 | the second pick is offered exactly the other records of the first pick's token |
| TokenManager.Combined | src/features/tokens/pages/TokenManagerPage.tsx:119 | the merge preview loses and adds nothing |
| TokenManager.JoinLabel | src/features/tokens/pages/TokenManagerPage.tsx:135 | "Join Records" iff both picks are made; "Select first token" iff the first is missing |
| TokenManager.JoinTab.SelectA | src/features/tokens/pages/TokenManagerPage.tsx:30-33 | a new first pick drops a second pick of another token and keeps one of the same token |
| TokenManager.JoinTab.SelectB | src/features/tokens/pages/TokenManagerPage.tsx:75-83 | the second pick is an unspent, distinct record of the first pick's token |
| TokenManager.JoinTab.DeselectA | src/features/tokens/pages/TokenManagerPage.tsx:67 | deselecting the first pick clears both |
| TokenManager.JoinTab.DeselectB | src/features/tokens/pages/TokenManagerPage.tsx:89 | deselecting the second pick keeps the first |
| TokenManager.JoinTab.HandleJoin | src/features/tokens/pages/TokenManagerPage.tsx:35-43 | both records are sent iff both are picked; the picks clear iff the wallet returns a non-empty id |
| TokenManager.SplitParts | src/features/tokens/pages/TokenManagerPage.tsx:213-227 | a preview exists iff the split is valid, and its two positive parts add up to the record's amount |
| TokenManager.UseHalf | src/features/tokens/pages/TokenManagerPage.tsx:204 | half of an amount of at least 2 lies strictly inside it; 0 or 1 becomes 1 |
| TokenManager.UseHalfSplits | src/features/tokens/pages/TokenManagerPage.tsx:204 | "use half" gives a valid split iff the amount is at least 2 |
| TokenManager.SplitLabel | src/features/tokens/pages/TokenManagerPage.tsx:243-249 | each button text iff its condition; "Split Record" iff the split is valid |
| TokenManager.SplitTab.Amount | src/features/tokens/pages/TokenManagerPage.tsx:163 | the amount is the typed digits' value, 0 when empty |
| TokenManager.SplitTab.Label | src/features/tokens/pages/TokenManagerPage.tsx:164 | the button is enabled iff the split is valid |
| TokenManager.SplitTab.SelectToken | src/features/tokens/pages/TokenManagerPage.tsx:174-177 | an unspent record is picked with an empty amount |
| TokenManager.SplitTab.Deselect | src/features/tokens/pages/TokenManagerPage.tsx:189 | the pick and the amount are cleared |
| TokenManager.SplitTab.EditAmount | src/features/tokens/pages/TokenManagerPage.tsx:200 | the amount keeps only the typed digits |
| TokenManager.SplitTab.UseHalfClick | src/features/tokens/pages/TokenManagerPage.tsx:204 | the amount becomes half the record's amount, or 1 |
| TokenManager.SplitTab.HandleSplit | src/features/tokens/pages/TokenManagerPage.tsx:153-161 | with a picked record its raw text and an amount literal that parses back are sent; the form clears iff the wallet returns a non-empty id |
| CreateAuction.SetField | src/features/auction/pages/CreateAuctionPage.tsx:78-79 | only the edited field changes |
| CreateAuction.HasDraftIffChanged | src/features/auction/pages/CreateAuctionPage.tsx:206-210 | there is a draft iff a sale token type is chosen or the form differs from the defaults |
| CreateAuction.HasDraft | src/features/auction/pages/CreateAuctionPage.tsx:206-210 | a sale token type is chosen or some field differs from the default (a definition; HasDraftIffChanged states it as form inequality) |
| CreateAuction.DefaultForm | src/features/auction/pages/CreateAuctionPage.tsx:40-49 | every field empty except a maximum bid of "0" and a minimum bid of "1" (a definition) |
| CreateAuction.OrZeroReads | src/features/auction/pages/CreateAuctionPage.tsx:96-101 | `text \|\| "0"` reads the empty text as 0 and any other text as itself |
| CreateAuction.SelectionAndPriceRules | src/features/auction/pages/CreateAuctionPage.tsx:129-134 | they pass iff the token type, record and payment token are chosen and start price > floor price > 0; otherwise the first broken rule in the page's order gives its message (one iff per message), and a price `BigInt` cannot read throws exactly when its rule is reached |
| CreateAuction.BlockRules | src/features/auction/pages/CreateAuctionPage.tsx:135-141 | they pass iff 0 < start block < end block, the decay interval is positive and the amount rules pass, with NaN failing each comparison; one iff per block message, in order, and the amount rules decide once the block rules hold |
| CreateAuction.BlockRulesAsWritten | src/features/auction/pages/CreateAuctionPage.tsx:137-141 | they pass iff none of `sb <= 0`, `endBlock <= sb`, `decay <= 0` holds and the amount rules pass; a NaN side makes a comparison false, so the rule passes; one iff per block message, in order, and the amount rules decide after them |
| CreateAuction.ValidationAsWritten | src/features/auction/pages/CreateAuctionPage.tsx:128-144 | it accepts iff the selection and price rules hold, no block comparison that can be evaluated fails, and the decay amount and minimum bid are positive; a failing selection or price rule decides the message, otherwise the block rules as written do |
| CreateAuction.AmountRules | src/features/auction/pages/CreateAuctionPage.tsx:140-141 | they pass iff the decay amount and minimum bid parse and are positive; otherwise "Enter decay amount" before "Enter minimum bid amount", each iff its condition, and an unreadable amount throws when its rule is reached |
| CreateAuction.Validation | src/features/auction/pages/CreateAuctionPage.tsx:128-143 | the form passes iff every field is present and numeric, prices and blocks are ordered, and decay and minimum bid are positive; a failing selection or price rule decides the message, otherwise the corrected block rules do |
| CreateAuction.CorrectedIsStricter | src/features/auction/pages/CreateAuctionPage.tsx:135-139 | every form the corrected rules accept is accepted as written, and the two agree whenever the block fields are numbers |
| CreateAuction.NonNumericReading | src/features/auction/pages/CreateAuctionPage.tsx:96-101 | digit fields read as their values and letter fields as NaN |
| CreateAuction.NonNumericEndBlockPasses | src/features/auction/pages/CreateAuctionPage.tsx:137-139 | as written, an end block and decay interval of "abc" pass validation; the corrected rules reject them |
| CreateAuction.NonNumericPreviewPasses | src/features/auction/pages/CreateAuctionPage.tsx:102-107 | as written, the same form passes the preview guard; the corrected preview is absent |
| CreateAuction.PreviewConfig | src/features/auction/pages/CreateAuctionPage.tsx:94-126 | a preview exists iff the prices and decay amount parse, start > floor, start block < end block and the decay interval is positive; it then decays and carries the record's amount as supply |
| CreateAuction.PreviewGuardCorrected | src/features/auction/pages/CreateAuctionPage.tsx:102-107 | the corrected guard implies the written one, and they agree on numeric blocks |
| CreateAuction.PreviewPassesAsWritten | src/features/auction/pages/CreateAuctionPage.tsx:102-107 | it throws iff a price or the decay amount is not an integer; it passes iff start > floor, the amount is positive and no block comparison that can be evaluated fails |
| CreateAuction.PreviewCurveDrawable | src/features/auction/pages/CreateAuctionPage.tsx:94-126 | every preview has a curve from its start block to (end block, floor price) |
| CreateAuction.ValidFormHasPreview | src/features/auction/pages/CreateAuctionPage.tsx:94-143 | a valid form always has a preview carrying the form's prices and blocks |
| CreateAuction.U128Reads | src/features/auction/pages/CreateAuctionPage.tsx:150 | a field sent as "<text>u128" is read on chain as the page read it |
| CreateAuction.U32Reads | src/features/auction/pages/CreateAuctionPage.tsx:152 | a field sent as "<text>u32" is read on chain as the page read it |
| CreateAuction.PriceInputsRoundTrip | src/features/auction/pages/CreateAuctionPage.tsx:150-151 | the sent start and floor prices read back as validated |
| CreateAuction.BlockInputsRoundTrip | src/features/auction/pages/CreateAuctionPage.tsx:152-154 | the sent start block, end block and decay interval read back as validated |
| CreateAuction.AmountInputsRoundTrip | src/features/auction/pages/CreateAuctionPage.tsx:155-157 | the sent decay amount and minimum bid read back as validated |
| CreateAuction.MaxBidInputRoundTrip | src/features/auction/pages/CreateAuctionPage.tsx:156 | an empty maximum bid is sent as 0; any other reads back as typed |
| CreateAuction.CreateAuctionPage.constructor | src/features/auction/pages/CreateAuctionPage.tsx:55-61 | the saved draft or the defaults, with an empty start block and nothing selected |
| CreateAuction.CreateAuctionPage.OnBlockHeight | src/features/auction/pages/CreateAuctionPage.tsx:68-76 | an empty start block becomes height + 50 once the height is known; a typed one is kept |
| CreateAuction.CreateAuctionPage.EditStartBlock | src/features/auction/pages/CreateAuctionPage.tsx:278 | the start block keeps only the typed digits |
| CreateAuction.CreateAuctionPage.Update | src/features/auction/pages/CreateAuctionPage.tsx:78-79 | the form changes in the edited field only |
| CreateAuction.CreateAuctionPage.SaleTokenTypeChange | src/features/auction/pages/CreateAuctionPage.tsx:81-84 | a new sale token type drops the selected record |
| CreateAuction.CreateAuctionPage.SelectToken | src/features/auction/pages/CreateAuctionPage.tsx:245 | only the selected record changes |
| CreateAuction.CreateAuctionPage.ClearDraft | src/features/auction/pages/CreateAuctionPage.tsx:86-91 | the form returns to its defaults, and no draft remains |
| CreateAuction.CreateAuctionPage.HandleCreate | src/features/auction/pages/CreateAuctionPage.tsx:145-164 | an invalid form sends nothing; a valid one sends the ten inputs; a non-empty returned id clears the draft and records the id, while null or "" changes nothing |
| CreateAuction.CreateInputs | src/features/auction/pages/CreateAuctionPage.tsx:147-158 | ten inputs: the record's raw text, the payment token id, then each number with its u128 or u32 suffix; an empty maximum bid is sent as "0u128" |
| CreateAuction.CreateAuctionPage.Submitted | src/features/auction/pages/CreateAuctionPage.tsx:159-163 | the draft is cleared and the transaction id recorded |
| CreateAuction.CreateAuctionPage.CreateAnother | src/features/auction/pages/CreateAuctionPage.tsx:190-194 | the success state, the record and the start block are cleared, and the draft kept |
| TxTracker.MarkConfirmed | src/shared/context/TransactionTrackerContext.tsx:53-58 | entries of that transaction become confirmed, taking a non-empty on-chain id; all others are kept |
| TxTracker.MarkFailed | src/shared/context/TransactionTrackerContext.tsx:63-66 | entries of that transaction become failed; all others are kept |
| TxTracker.Pendings | src/shared/context/TransactionTrackerContext.tsx:139-141 | exactly the pending entries remain |
| TxTracker.PendingsOrderAndIdempotent | src/shared/context/TransactionTrackerContext.tsx:139-141 | clearing keeps the order, and clearing twice is clearing once |
| TxTracker.Classify | src/shared/context/TransactionTrackerContext.tsx:90-99 | a success word confirms; otherwise a failure word fails; otherwise nothing changes |
| TxTracker.PollVerdict | src/shared/context/TransactionTrackerContext.tsx:76-99 | past the attempt limit the transaction fails; without an answer nothing changes; otherwise the answer decides |
| TxTracker.AfterPoll | src/shared/context/TransactionTrackerContext.tsx:75-103 | one poll keeps the attempt counters bounded and the list length |
| TxTracker.AfterPollsBounded | src/shared/context/TransactionTrackerContext.tsx:70-105 | a round of polls keeps every counter within the limit and adds or removes no entry |
| TxTracker.AfterPollsOthersUnchanged | src/shared/context/TransactionTrackerContext.tsx:70-105 | entries not polled are left as they are |
| TxTracker.UnansweredPollsCount | src/shared/context/TransactionTrackerContext.tsx:76-85 | unanswered polls within the limit change no entry and count up by one each |
| TxTracker.NeverAnsweredFails | src/shared/context/TransactionTrackerContext.tsx:39 | a transaction the wallet never answers survives exactly up to the limit of 72 polls and fails on the next |
| TxTracker.TransactionTracker.AddTransaction | src/shared/context/TransactionTrackerContext.tsx:131-137 | a pending entry is appended and its counter reset |
| TxTracker.TransactionTracker.ConfirmTx | src/shared/context/TransactionTrackerContext.tsx:53-61 | the entries are confirmed and the counter dropped |
| TxTracker.TransactionTracker.FailTx | src/shared/context/TransactionTrackerContext.tsx:63-68 | the entries are failed and the counter dropped |
| TxTracker.TransactionTracker.ClearCompleted | src/shared/context/TransactionTrackerContext.tsx:139-141 | only pending entries remain |
| TxTracker.TransactionTracker.PollOne | src/shared/context/TransactionTrackerContext.tsx:75-103 | the state after one poll is the specified step |
| TxTracker.TransactionTracker.PollPending | src/shared/context/TransactionTrackerContext.tsx:70-105 | every transaction pending at the start of the round is polled once, in order |
| Text.TruncDiv | src/shared/lib/formatting.ts:9 | `BigInt` division truncates toward zero: the sign of the quotient follows the operands, and it is the usual quotient for non-negative operands |
| Text.TruncMod | src/shared/lib/formatting.ts:10 | quotient × divisor + remainder is the dividend, and a non-negative dividend leaves a remainder below the divisor |
| Text.FloorDiv | src/features/auction/utils/price.ts:12 | `Math.floor` of a quotient: the largest q with q·b ≤ a for positive b |
| Text.KeepDigits | src/features/auction/components/BidForm.tsx:62 | only digits are kept, and a digit text is kept whole |
| Text.IntToTextParses | src/features/auction/pages/CreateAuctionPage.tsx:72 | a printed integer reads back as itself |

## Left out

- Rendering: JSX, CSS, toasts, the price chart drawing and the token cards are not modelled. What they show is modelled: labels, flags, lists and cards.
- Locale formatting: `toLocaleString` is not modelled. An amount's text is modelled as its whole part (an integer) plus the fraction digits.
- Formatting.FormatAmount: nothing is proved for negative amounts. They are computed with truncating division, as `BigInt` does.
- Formatting.TruncateAddress: a negative `chars` is not modelled. Every caller passes a non-negative count.
- `Number` and `BigInt` parsing: only decimal integers are modelled. Decimal fractions, exponents, hexadecimal and `Infinity` read as NaN or throw.
- CreateAuction.ValidationAsWritten, CreateAuction.PreviewPassesAsWritten, CreateAuction.CreateAuctionPage.HandleCreate: the End Block and Decay Interval inputs (CreateAuctionPage.tsx:282, 286) do not filter their text, so they can hold "1.5" or "1e3". The page reads these with `Number` as 1.5 and 1000, while the model reads them as NaN. With start block "5" and end block "1.5", the page rejects the form, but ValidationAsWritten accepts it. With end block "1e3", the page accepts the form, but Validation and HandleCreate reject it. The preview guard diverges the same way.
- Float thresholds: the "ending" threshold `remaining < total × 0.1` is modelled exactly as `10 × remaining < total`.
- AuctionInfo's `timePercent` (a float used for a progress bar) is not modelled.
- Local storage and JSON: their encoding is not modelled. The stored config map is the `Stored` datatype, and the spent-id list is a set field.
- A corrupt stored spent list is not modelled.
- `isWalletRecord` is the entry's `isRecord` flag. The wallet entry's JSON text is the `json` field, and the record object passed to transitions is the raw text.
- Network and RPC: RPC calls and wallet calls are parameters of the operations that use them. Mappings are maps, and answers are options.
- Network errors, loading flags and error messages are not modelled. An RPC that throws behaves as an absent value.
- Concurrency: `Promise.all` is modelled as a sequential pass in list order. The results do not depend on the order, except in the tracker, where the order of polls within one round is fixed.
- Timers: the polling interval is not modelled. PollPending is one tick, and its wallet answers are a map from transaction id to status text.
- `crypto.randomUUID` and `Date.now` are parameters of AddTransaction.
- `refreshAll` after a confirmation is left out: RefreshContext is not part of this model.
- The on-chain id lookup before `confirmTx` is not modelled. The source never assigns it, so PollOne confirms with no on-chain id.
- The creator-id cache (`getCachedCreatorIds` / `cacheCreatorIds`) is imported by useUserAuctions but not defined in the config cache file. It is modelled as a map field of UserAuctions.
- `getCreatorAuctionCount` and the head of the creator's list are parameters of Fetch.
- AuctionTypes.ConfigFromFields, AuctionTypes.ParseAuctionConfig: a `start_block`, `end_block` or `price_decay_blocks` field that reads as NaN is modelled as a parse that throws. The program's `parseU32` never throws, so `parseAuctionConfig` returns a config holding NaN, and useAuctions lists that auction. In the model, Auctions.FetchEntry drops it.
- AuctionTypes.StateFromFields: a state whose `ended_at_block` reads as NaN is modelled as a parse that throws, so Auctions.FetchEntry drops that auction. The program lists it, with a NaN ended-at block that the page never shows.
- CreateAuction.CreateAuctionPage.HandleCreate: guards on the corrected `Validation` (see Findings). The page as written also sends a form whose end block or decay interval is not a number. That guard is modelled by ValidationAsWritten, and NonNumericEndBlockPasses exhibits such a form.
- AuctionText: the struct text of the round-trip lemmas ends every field with a comma, the last one included. Aleo prints no comma before the closing brace. The value pattern stops at a brace as it does at a comma, but the lemmas cover only the comma form.
- ClaimPage: the auction hook that loads the selected bid's configuration and state is not modelled. Its result arrives through AuctionLoaded.
- TokenManager page shell: tab switching and refreshing after `onDone` are not modelled.
- TokenManager.SplitTab.HandleSplit sends whenever a record is picked, as the source does. The button guard is modelled separately (Label).
- The `TX_LABELS` map and transaction button captions are not modelled.
- The TransactionTracker, RecordSelector and dashboard pages are not modelled. They are callers and views of the modelled state.

## Findings

| source | as written | input that shows it | evidently intended | confidence | as-written member | corrected member |
|---|---|---|---|---|---|---|
| src/features/auction/pages/CreateAuctionPage.tsx:137-139 | end block and decay interval are compared with `<=` after `Number(...)`; a non-numeric text reads as NaN, so every comparison is false and the rule passes | start block "5", end block "abc", decay interval "abc", other fields valid | a non-numeric end block or decay interval is rejected ("End block must exceed start block") | high, not executed | CreateAuction.NonNumericEndBlockPasses | CreateAuction.Validation |
| src/features/auction/pages/CreateAuctionPage.tsx:102-107 | the preview guard uses the same `<=` comparisons, so a NaN end block or interval lets a preview config with NaN blocks through | start block "5", end block "abc", decay interval "abc", prices "9" and "1", decay amount "1" | no preview is built from non-numeric blocks | medium, not executed | CreateAuction.NonNumericPreviewPasses | CreateAuction.PreviewConfig |
