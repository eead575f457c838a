/** The auction program's data as the dashboard reads it (src/shared/types/auction.ts).
 *
 *  Mapping values and wallet records reach the dashboard as the program's
 *  textual struct output, `{ name: value, ... }`, with numbers written as
 *  `<digits>u128`, `<digits>u32` or `<digits>u64`. The parsers pick each field
 *  out with a regular expression and strip the type suffix. */
module AuctionTypes {
  import opened Text

  datatype AuctionConfig = AuctionConfig(
    auctionId: string,
    creator: string,
    saleTokenId: string,
    paymentTokenId: string,
    supply: int,
    startPrice: int,
    floorPrice: int,
    startBlock: int,
    endBlock: int,
    priceDecayBlocks: int,
    priceDecayAmount: int,
    maxBidAmount: int,
    minBidAmount: int)

  datatype AuctionState = AuctionState(
    totalCommitted: int,
    totalPayments: int,
    supplyMet: bool,
    endedAtBlock: int,
    cleared: bool,
    clearingPrice: int,
    creatorRevenue: int)

  datatype Stats = Stats(totalAuctions: Num, totalBids: Num)

  /** A token record; `raw` is the identity text the UI compares records by,
      `spent` is the "locally marked as spent" flag (absent reads as false). */
  datatype TokenRecord = TokenRecord(
    id: string, owner: string, tokenId: string, amount: int, spent: bool, raw: string)

  datatype BidRecord = BidRecord(
    id: string, owner: string, auctionId: string, quantity: int, paymentAmount: int,
    spent: bool, raw: string)

  datatype AuctionStatus = Upcoming | Active | Ending | SupplyMet | Ended | Cleared

  // ---------------------------------------------------------------------------
  // extractField: the regular expression `name:\s*([^,}\s]+)`

  /** A character the capture group `[^,}\s]` accepts. */
  predicate IsValueChar(c: char)
  {
    c != ',' && c != '}' && !IsSpace(c)
  }

  /** Length of the longest prefix of `s` made of white space (`\s*`). */
  function SpaceRun(s: string): (n: nat)
    ensures n <= |s|
    ensures forall i :: 0 <= i < n ==> IsSpace(s[i])
    ensures n == |s| || !IsSpace(s[n])
  {
    if s != [] && IsSpace(s[0]) then 1 + SpaceRun(s[1..]) else 0
  }

  /** Length of the longest prefix of `s` made of value characters (`[^,}\s]+`, greedy). */
  function ValueRun(s: string): (n: nat)
    ensures n <= |s|
    ensures forall i :: 0 <= i < n ==> IsValueChar(s[i])
    ensures n == |s| || !IsValueChar(s[n])
  {
    if s != [] && IsValueChar(s[0]) then 1 + ValueRun(s[1..]) else 0
  }

  /** Does the pattern `name:\s*[^,}\s]+` match at the start of `s`? */
  predicate MatchesAt(s: string, name: string)
  {
    |name| < |s| && s[..|name|] == name && s[|name|] == ':' &&
    var rest := s[|name| + 1..];
    SpaceRun(rest) < |rest| && IsValueChar(rest[SpaceRun(rest)])
  }

  /** The text the capture group takes when the pattern matches at the start of `s`. */
  function Capture(s: string, name: string): (v: string)
    requires MatchesAt(s, name)
    ensures |v| > 0 && forall i :: 0 <= i < |v| ==> IsValueChar(v[i])
  {
    var rest := s[|name| + 1..];
    var tail := rest[SpaceRun(rest)..];
    tail[..ValueRun(tail)]
  }

  /** The leftmost position at or after `from` where the pattern matches: the
      regular expression search, which tries each start position in turn. */
  function FirstMatch(text: string, name: string, from: nat): (r: Option<nat>)
    requires from <= |text|
    ensures r.Some? ==> from <= r.value <= |text| && MatchesAt(text[r.value..], name)
    ensures r.Some? ==> forall j :: from <= j < r.value ==> !MatchesAt(text[j..], name)
    ensures r.None? ==> forall j :: from <= j <= |text| ==> !MatchesAt(text[j..], name)
    decreases |text| - from
  {
    if MatchesAt(text[from..], name) then Some(from)
    else if from == |text| then None
    else FirstMatch(text, name, from + 1)
  }

  /** extractField: the first captured value for `name`, trimmed, or "" when
      the pattern matches nowhere. */
  function ExtractField(text: string, name: string): (r: string)
    ensures forall i :: 0 <= i < |r| ==> IsValueChar(r[i])
  {
    match FirstMatch(text, name, 0)
    case None => ""
    case Some(i) =>
      var v := Capture(text[i..], name);
      TrimNoSpace(v);
      Trim(v)
  }

  /** extractField returns the capture of the leftmost match, and "" exactly
      when the pattern matches nowhere. */
  lemma ExtractFieldFirstCapture(text: string, name: string)
    ensures ExtractField(text, name) == "" <==> forall i :: 0 <= i <= |text| ==> !MatchesAt(text[i..], name)
    ensures ExtractField(text, name) != "" ==>
              exists i :: 0 <= i <= |text| && MatchesAt(text[i..], name) &&
                (forall j :: 0 <= j < i ==> !MatchesAt(text[j..], name)) &&
                ExtractField(text, name) == Capture(text[i..], name)
  {
    match FirstMatch(text, name, 0)
    case None =>
    case Some(i) =>
      TrimNoSpace(Capture(text[i..], name));
  }

  // ---------------------------------------------------------------------------
  // Typed value parsers

  /** A digit text holds no pattern that starts with something other than a
      digit, so removing such a pattern leaves it as it is. */
  lemma DigitsKeepValue(d: string, pat: string)
    requires |pat| > 0 && !IsDigit(pat[0])
    ensures IsDigits(d) ==> ParseInteger(ReplaceFirst(d, pat, "")) == Returns(DigitsValue(d))
  {
    if IsDigits(d) {
      forall j | 0 <= j <= |d| ensures !OccursAt(d, pat, j) {
        if j + |pat| <= |d| { assert d[j..j + |pat|][0] == d[j]; }
      }
      ParseDigits(d);
    }
  }

  /** parseU128: `BigInt` of the text with its first "u128" removed; the
      suffix is optional, so bare digits read as their value too. */
  function ParseU128(val: string): (r: Outcome<int>)
    ensures IsDigits(val) ==> r == Returns(DigitsValue(val))
  {
    DigitsKeepValue(val, "u128");
    ParseInteger(ReplaceFirst(val, "u128", ""))
  }

  /** parseU32: `Number` of the text with its first "u32" removed. */
  function ParseU32(val: string): (r: Num)
    ensures IsDigits(val) ==> r == Finite(DigitsValue(val))
  {
    DigitsKeepValue(val, "u32");
    ToNumber(ReplaceFirst(val, "u32", ""))
  }

  /** parseU64: `Number` of the text with its first "u64" removed. */
  function ParseU64(val: string): (r: Num)
    ensures IsDigits(val) ==> r == Finite(DigitsValue(val))
  {
    DigitsKeepValue(val, "u64");
    ToNumber(ReplaceFirst(val, "u64", ""))
  }

  /** parseBool: true exactly when the trimmed text is "true"; on a text
      without spaces, such as every extracted value, that is plain equality. */
  function ParseBool(val: string): (r: bool)
    ensures (forall i :: 0 <= i < |val| ==> !IsSpace(val[i])) ==> (r <==> val == "true")
  {
    NoSpaceUntrimmed(val);
    Trim(val) == "true"
  }

  lemma NoSpaceUntrimmed(val: string)
    ensures (forall i :: 0 <= i < |val| ==> !IsSpace(val[i])) ==> Trim(val) == val
  {
    if forall i :: 0 <= i < |val| ==> !IsSpace(val[i]) {
      TrimNoSpace(val);
    }
  }

  /** Removing the first occurrence of `suffix` from `digits + suffix + rest`
      when `digits` cannot contain it. */
  lemma ReplaceAfterDigits(d: string, suffix: string, rest: string)
    requires IsDigits(d) && |suffix| > 0 && !IsDigit(suffix[0])
    ensures ReplaceFirst(d + suffix + rest, suffix, "") == d + rest
  {
    var s := d + suffix + rest;
    assert OccursAt(s, suffix, |d|) by { assert s[|d|..|d| + |suffix|] == suffix; }
    forall j | 0 <= j < |d| ensures !OccursAt(s, suffix, j) {
      if j + |suffix| <= |s| { assert s[j..j + |suffix|][0] == s[j] == d[j]; }
    }
    assert IndexOf(s, suffix) == Some(|d|);
    assert s[..|d|] == d && s[|d| + |suffix|..] == rest;
  }

  /** `parseU128("<digits>u128")` is the value of the digits. */
  lemma {:induction false} ParseU128Digits(d: string)
    requires IsDigits(d)
    ensures ParseU128(d + "u128") == Returns(DigitsValue(d))
  {
    ReplaceAfterDigits(d, "u128", "");
    assert d + "u128" == d + "u128" + "" && d + "" == d;
    ParseDigits(d);
  }

  /** Only the first "u128" is removed, so text after it is parsed together
      with the digits. */
  lemma {:induction false} ParseU128FirstOnly(d: string, rest: string)
    requires IsDigits(d)
    ensures ParseU128(d + "u128" + rest) == ParseInteger(d + rest)
  {
    ReplaceAfterDigits(d, "u128", rest);
  }

  lemma {:induction false} ParseU32Digits(d: string)
    requires IsDigits(d)
    ensures ParseU32(d + "u32") == Finite(DigitsValue(d))
  {
    ReplaceAfterDigits(d, "u32", "");
    assert d + "u32" == d + "u32" + "" && d + "" == d;
    ParseDigits(d);
  }

  lemma {:induction false} ParseU64Digits(d: string)
    requires IsDigits(d)
    ensures ParseU64(d + "u64") == Finite(DigitsValue(d))
  {
    ReplaceAfterDigits(d, "u64", "");
    assert d + "u64" == d + "u64" + "" && d + "" == d;
    ParseDigits(d);
  }

  /** A field that is not in the text reads as "" and so as 0 or false, not as a failure. */
  lemma {:induction false} MissingFieldDefaults(text: string, name: string)
    requires forall i :: 0 <= i <= |text| ==> !MatchesAt(text[i..], name)
    ensures ExtractField(text, name) == ""
    ensures ParseU128(ExtractField(text, name)) == Returns(0)
    ensures ParseU32(ExtractField(text, name)) == Finite(0)
    ensures ParseU64(ExtractField(text, name)) == Finite(0)
    ensures !ParseBool(ExtractField(text, name))
  {
    assert IndexOf("", "u128") == None by { assert !OccursAt("", "u128", 0); }
    assert IndexOf("", "u32") == None by { assert !OccursAt("", "u32", 0); }
    assert IndexOf("", "u64") == None by { assert !OccursAt("", "u64", 0); }
    ParseDigits("");
  }

  // ---------------------------------------------------------------------------
  // Struct parsers

  /** The configuration built from the extracted field texts: it throws
      exactly when a u128 field is not an integer or a u32 field reads as
      NaN; otherwise the ids are the texts and every number its reading. */
  function ConfigFromFields(auctionId: string, creator: string, saleTokenId: string, paymentTokenId: string,
                            supply: string, startPrice: string, floorPrice: string,
                            startBlock: string, endBlock: string, decayBlocks: string,
                            decayAmount: string, maxBid: string, minBid: string): (r: Outcome<AuctionConfig>)
    ensures r.Returns? <==>
              && ParseU128(supply).Returns? && ParseU128(startPrice).Returns? && ParseU128(floorPrice).Returns?
              && ParseU32(startBlock).Finite? && ParseU32(endBlock).Finite? && ParseU32(decayBlocks).Finite?
              && ParseU128(decayAmount).Returns? && ParseU128(maxBid).Returns? && ParseU128(minBid).Returns?
    ensures r.Returns? ==>
              && r.value.auctionId == auctionId && r.value.creator == creator
              && r.value.saleTokenId == saleTokenId && r.value.paymentTokenId == paymentTokenId
    ensures r.Returns? ==>
              && Returns(r.value.supply) == ParseU128(supply) && Returns(r.value.startPrice) == ParseU128(startPrice)
              && Returns(r.value.floorPrice) == ParseU128(floorPrice)
              && Finite(r.value.startBlock) == ParseU32(startBlock) && Finite(r.value.endBlock) == ParseU32(endBlock)
              && Finite(r.value.priceDecayBlocks) == ParseU32(decayBlocks)
              && Returns(r.value.priceDecayAmount) == ParseU128(decayAmount)
              && Returns(r.value.maxBidAmount) == ParseU128(maxBid) && Returns(r.value.minBidAmount) == ParseU128(minBid)
  {
    var su := ParseU128(supply);
    var sp := ParseU128(startPrice);
    var fp := ParseU128(floorPrice);
    var sb := ParseU32(startBlock);
    var eb := ParseU32(endBlock);
    var db := ParseU32(decayBlocks);
    var da := ParseU128(decayAmount);
    var mx := ParseU128(maxBid);
    var mn := ParseU128(minBid);
    if su.Throws? || sp.Throws? || fp.Throws? || da.Throws? || mx.Throws? || mn.Throws?
       || sb.NaN? || eb.NaN? || db.NaN?
    then Throws
    else Returns(AuctionConfig(auctionId, creator, saleTokenId, paymentTokenId,
                               su.value, sp.value, fp.value, sb.v, eb.v, db.v, da.value, mx.value, mn.value))
  }

  /** parseAuctionConfig: a failed number throws; the ids are the
      extracted texts. */
  function ParseAuctionConfig(text: string): (r: Outcome<AuctionConfig>)
    ensures r.Returns? <==>
              && ParseU128(ExtractField(text, "supply")).Returns?
              && ParseU128(ExtractField(text, "start_price")).Returns?
              && ParseU128(ExtractField(text, "floor_price")).Returns?
              && ParseU32(ExtractField(text, "start_block")).Finite?
              && ParseU32(ExtractField(text, "end_block")).Finite?
              && ParseU32(ExtractField(text, "price_decay_blocks")).Finite?
              && ParseU128(ExtractField(text, "price_decay_amount")).Returns?
              && ParseU128(ExtractField(text, "max_bid_amount")).Returns?
              && ParseU128(ExtractField(text, "min_bid_amount")).Returns?
    ensures r.Returns? ==>
              && r.value.auctionId == ExtractField(text, "auction_id") && r.value.creator == ExtractField(text, "creator")
              && r.value.saleTokenId == ExtractField(text, "sale_token_id")
              && r.value.paymentTokenId == ExtractField(text, "payment_token_id")
  {
    ConfigFromFields(
      ExtractField(text, "auction_id"), ExtractField(text, "creator"),
      ExtractField(text, "sale_token_id"), ExtractField(text, "payment_token_id"),
      ExtractField(text, "supply"), ExtractField(text, "start_price"), ExtractField(text, "floor_price"),
      ExtractField(text, "start_block"), ExtractField(text, "end_block"),
      ExtractField(text, "price_decay_blocks"), ExtractField(text, "price_decay_amount"),
      ExtractField(text, "max_bid_amount"), ExtractField(text, "min_bid_amount"))
  }

  /** The state built from the seven extracted field texts: it throws
      exactly when a u128 field is not an integer or `ended_at_block` reads as
      NaN; the flags never fail. */
  function StateFromFields(committed: string, payments: string, supplyMet: string, endedAt: string,
                           cleared: string, clearingPrice: string, revenue: string): (r: Outcome<AuctionState>)
    ensures r.Returns? <==>
              && ParseU128(committed).Returns? && ParseU128(payments).Returns? && ParseU32(endedAt).Finite?
              && ParseU128(clearingPrice).Returns? && ParseU128(revenue).Returns?
    ensures r.Returns? ==>
              && Returns(r.value.totalCommitted) == ParseU128(committed)
              && Returns(r.value.totalPayments) == ParseU128(payments)
              && Finite(r.value.endedAtBlock) == ParseU32(endedAt)
              && Returns(r.value.clearingPrice) == ParseU128(clearingPrice)
              && Returns(r.value.creatorRevenue) == ParseU128(revenue)
              && r.value.supplyMet == ParseBool(supplyMet) && r.value.cleared == ParseBool(cleared)
  {
    var c := ParseU128(committed);
    var p := ParseU128(payments);
    var e := ParseU32(endedAt);
    var cp := ParseU128(clearingPrice);
    var r := ParseU128(revenue);
    if c.Throws? || p.Throws? || e.NaN? || cp.Throws? || r.Throws? then Throws
    else Returns(AuctionState(c.value, p.value, ParseBool(supplyMet), e.v, ParseBool(cleared), cp.value, r.value))
  }

  /** parseAuctionState: a failed number throws; a flag is set exactly when
      its field reads "true". */
  function ParseAuctionState(text: string): (r: Outcome<AuctionState>)
    ensures r.Returns? <==>
              && ParseU128(ExtractField(text, "total_committed")).Returns?
              && ParseU128(ExtractField(text, "total_payments")).Returns?
              && ParseU32(ExtractField(text, "ended_at_block")).Finite?
              && ParseU128(ExtractField(text, "clearing_price")).Returns?
              && ParseU128(ExtractField(text, "creator_revenue")).Returns?
    ensures r.Returns? ==>
              && (r.value.supplyMet <==> ExtractField(text, "supply_met") == "true")
              && (r.value.cleared <==> ExtractField(text, "cleared") == "true")
  {
    StateFromFields(
      ExtractField(text, "total_committed"), ExtractField(text, "total_payments"),
      ExtractField(text, "supply_met"), ExtractField(text, "ended_at_block"),
      ExtractField(text, "cleared"), ExtractField(text, "clearing_price"),
      ExtractField(text, "creator_revenue"))
  }

  /** parseStats: `Number` never throws, so the counts may be NaN. */
  function ParseStats(text: string): (r: Stats)
    ensures r.totalAuctions == ParseU64(ExtractField(text, "total_auctions"))
    ensures r.totalBids == ParseU64(ExtractField(text, "total_bids"))
  {
    Stats(ParseU64(ExtractField(text, "total_auctions")), ParseU64(ExtractField(text, "total_bids")))
  }

  /** parseTokenRecord: no id, not spent, and the text itself kept as the identity. */
  function ParseTokenRecord(raw: string): (r: Outcome<TokenRecord>)
    ensures r.Returns? <==> ParseU128(ExtractField(raw, "amount")).Returns?
    ensures r.Returns? ==> r.value.id == "" && r.value.raw == raw && !r.value.spent
    ensures r.Returns? ==>
              r.value.tokenId == ExtractField(raw, "token_id") && r.value.owner == ExtractField(raw, "owner")
  {
    match ParseU128(ExtractField(raw, "amount"))
    case Throws => Throws
    case Returns(amount) =>
      Returns(TokenRecord("", ExtractField(raw, "owner"), ExtractField(raw, "token_id"), amount, false, raw))
  }

  /** parseBidRecord: no id, not spent, and the text itself kept as the identity. */
  function ParseBidRecord(raw: string): (r: Outcome<BidRecord>)
    ensures r.Returns? <==> ParseU128(ExtractField(raw, "quantity")).Returns?
                            && ParseU128(ExtractField(raw, "payment_amount")).Returns?
    ensures r.Returns? ==> r.value.id == "" && r.value.raw == raw && !r.value.spent
    ensures r.Returns? ==>
              r.value.auctionId == ExtractField(raw, "auction_id") && r.value.owner == ExtractField(raw, "owner")
  {
    var quantity := ParseU128(ExtractField(raw, "quantity"));
    var payment := ParseU128(ExtractField(raw, "payment_amount"));
    if quantity.Throws? || payment.Throws? then Throws
    else Returns(BidRecord("", ExtractField(raw, "owner"), ExtractField(raw, "auction_id"),
                           quantity.value, payment.value, false, raw))
  }

  // ---------------------------------------------------------------------------
  // Round trip: the program's struct text parses back to the struct

  predicate IsNameChar(c: char) { ('a' <= c <= 'z') || c == '_' }

  predicate IsName(n: string) { |n| > 0 && forall i :: 0 <= i < |n| ==> IsNameChar(n[i]) }

  /** A field value as the program prints it: non-empty, no separator, no colon. */
  predicate IsPlainValue(v: string)
  {
    |v| > 0 && forall i :: 0 <= i < |v| ==> IsValueChar(v[i]) && v[i] != ':'
  }

  /** One `name: value,` line of the struct text. */
  function EntryText(name: string, value: string): string
  {
    "\n  " + name + ": " + value + ","
  }

  function EntriesText(entries: seq<(string, string)>): string
  {
    if entries == [] then ""
    else EntriesText(entries[..|entries| - 1]) + EntryText(entries[|entries| - 1].0, entries[|entries| - 1].1)
  }

  function StructText(entries: seq<(string, string)>): string
  {
    "{" + EntriesText(entries) + "\n}"
  }

  predicate WellFormedEntries(entries: seq<(string, string)>)
  {
    forall k :: 0 <= k < |entries| ==> IsName(entries[k].0) && IsPlainValue(entries[k].1)
  }

  /** `n:` followed by a colon at position i of s. */
  predicate NameColonAt(s: string, n: string, i: nat)
  {
    i + |n| < |s| && s[i..i + |n|] == n && s[i + |n|] == ':'
  }

  lemma {:induction false} EntriesTextSplit(entries: seq<(string, string)>, k: nat)
    requires k <= |entries|
    ensures EntriesText(entries) == EntriesText(entries[..k]) + EntriesText(entries[k..])
    decreases |entries|
  {
    var n := |entries|;
    if k == n {
      assert entries[..k] == entries;
      assert entries[k..] == [];
    } else {
      var init := entries[..n - 1];
      EntriesTextSplit(init, k);
      assert init[..k] == entries[..k];
      var tail := entries[k..];
      assert tail[..|tail| - 1] == init[k..];
      assert tail[|tail| - 1] == entries[n - 1];
    }
  }

  /** The only colon in an entry's text is the one after its name. */
  lemma EntryColon(m: string, v: string)
    requires IsName(m) && IsPlainValue(v)
    ensures forall o :: 0 <= o < |EntryText(m, v)| && o != 3 + |m| ==> EntryText(m, v)[o] != ':'
  {
    var e := EntryText(m, v);
    forall o | 0 <= o < |e| && o != 3 + |m| ensures e[o] != ':' {
      if o < 3 { assert e[o] == "\n  "[o]; }
      else if o < 3 + |m| { assert e[o] == m[o - 3]; }
      else if o == 4 + |m| { assert e[o] == ' '; }
      else if o < 5 + |m| + |v| { assert e[o] == v[o - 5 - |m|]; }
      else { assert e[o] == ','; }
    }
  }

  /** Before the first entry named `n`, the text has no `n:` anywhere. */
  lemma {:induction false} NoNameColonBefore(entries: seq<(string, string)>, k: nat, n: string)
    requires k <= |entries| && WellFormedEntries(entries) && IsName(n)
    requires forall j :: 0 <= j < k ==> !EndsWith(entries[j].0, n)
    ensures forall i :: 0 <= i ==> !NameColonAt("{" + EntriesText(entries[..k]), n, i)
    decreases k
  {
    var p := "{" + EntriesText(entries[..k]);
    if k == 0 {
      assert p == "{";
    } else {
      NoNameColonBefore(entries, k - 1, n);
      var q := "{" + EntriesText(entries[..k - 1]);
      var m := entries[k - 1].0;
      var v := entries[k - 1].1;
      var e := EntryText(m, v);
      assert entries[..k][..k - 1] == entries[..k - 1];
      assert p == q + e;
      EntryColon(m, v);
      forall i | 0 <= i ensures !NameColonAt(p, n, i) {
        var c := i + |n|;
        if c >= |p| {
        } else if c < |q| {
          assert p[..|q|] == q;
          assert p[i..c] == p[..|q|][i..c] == q[i..c];
          assert p[c] == q[c];
          assert !NameColonAt(q, n, i);
        } else if c != |q| + 3 + |m| {
          assert p[c] == e[c - |q|];
        } else if i >= |q| + 3 {
          assert p[i..c] == m[|m| - |n|..];
          assert !EndsWith(m, n);
        } else {
          var s := |q| + 2 - i;
          assert p[i..c][s] == e[2] == ' ';
          assert IsNameChar(n[s]);
        }
      }
    }
  }

  /** The pattern matches at the start of an entry's `name: value,` and captures the value. */
  lemma MatchEntryStart(n: string, v: string, rest: string)
    requires IsName(n) && IsPlainValue(v)
    ensures MatchesAt(n + ": " + v + "," + rest, n)
    ensures Capture(n + ": " + v + "," + rest, n) == v
  {
    var u := n + ": " + v + "," + rest;
    assert u[..|n|] == n;
    var after := u[|n| + 1..];
    assert after == " " + v + "," + rest;
    assert after[1..] == v + ("," + rest);
    assert !IsSpace(after[1]);
    assert SpaceRun(after) == 1;
    ValueRunStops(v, "," + rest);
    assert after[1..][..|v|] == v;
  }

  lemma {:induction false} ValueRunStops(v: string, rest: string)
    requires forall i :: 0 <= i < |v| ==> IsValueChar(v[i])
    requires rest != [] && !IsValueChar(rest[0])
    ensures ValueRun(v + rest) == |v|
    decreases |v|
  {
    if v != [] {
      assert (v + rest)[1..] == v[1..] + rest;
      ValueRunStops(v[1..], rest);
    } else {
      assert v + rest == rest;
    }
  }

  /** No match starts before the name of an entry that follows a text free of `n:`. */
  lemma NoMatchBeforeEntry(p: string, n: string, v: string, rest: string)
    requires IsName(n) && IsPlainValue(v)
    requires forall i :: 0 <= i ==> !NameColonAt(p, n, i)
    ensures forall j :: 0 <= j < |p| + 3 ==> !MatchesAt((p + EntryText(n, v) + rest)[j..], n)
  {
    var e := EntryText(n, v);
    var t := p + e + rest;
    forall j | 0 <= j < |p| + 3 ensures !MatchesAt(t[j..], n) {
      var c := j + |n|;
      if c < |t| {
        assert t[j..][..|n|] == t[j..c] && t[j..][|n|] == t[c];
        if c < |p| {
          assert t[j..c] == p[j..c] && t[c] == p[c];
          assert !NameColonAt(p, n, j);
        } else if c < |p| + 3 {
          assert t[c] == e[c - |p|];
        } else {
          var s := |p| + 2 - j;
          assert t[j..c][s] == e[2] == ' ';
          assert IsNameChar(n[s]);
        }
      }
    }
  }

  /** extractField finds the value of the first entry named `n`. */
  lemma ExtractAtEntry(p: string, n: string, v: string, rest: string)
    requires IsName(n) && IsPlainValue(v)
    requires forall i :: 0 <= i ==> !NameColonAt(p, n, i)
    ensures ExtractField(p + EntryText(n, v) + rest, n) == v
  {
    var t := p + EntryText(n, v) + rest;
    var at := |p| + 3;
    assert t[at..] == n + ": " + v + "," + rest;
    MatchEntryStart(n, v, rest);
    NoMatchBeforeEntry(p, n, v, rest);
    assert FirstMatch(t, n, 0) == Some(at);
    TrimNoSpace(v);
  }

  /** The value of an entry is what extractField finds for its name, provided
      no earlier entry has that name. */
  lemma {:induction false} ExtractEntry(entries: seq<(string, string)>, k: nat)
    requires k < |entries| && WellFormedEntries(entries)
    requires forall j :: 0 <= j < k ==> !EndsWith(entries[j].0, entries[k].0)
    ensures ExtractField(StructText(entries), entries[k].0) == entries[k].1
  {
    var n := entries[k].0;
    StructAround(entries, k);
    OneEntryText(entries[k]);
    NoNameColonBefore(entries, k, n);
    ExtractAtEntry("{" + EntriesText(entries[..k]), n, entries[k].1, EntriesText(entries[k + 1..]) + "\n}");
  }

  /** A printed struct is the text before entry k, entry k, and the text after it. */
  lemma StructAround(entries: seq<(string, string)>, k: nat)
    requires k < |entries|
    ensures StructText(entries)
            == ("{" + EntriesText(entries[..k])) + EntriesText([entries[k]])
               + (EntriesText(entries[k + 1..]) + "\n}")
  {
    EntriesAround(entries, k);
  }

  lemma EntriesAround(entries: seq<(string, string)>, k: nat)
    requires k < |entries|
    ensures EntriesText(entries)
            == EntriesText(entries[..k]) + EntriesText([entries[k]]) + EntriesText(entries[k + 1..])
  {
    EntriesTextSplit(entries, k);
    EntriesTextSplit(entries[k..], 1);
    assert entries[k..][..1] == [entries[k]];
    assert entries[k..][1..] == entries[k + 1..];
  }

  lemma OneEntryText(entry: (string, string))
    ensures EntriesText([entry]) == EntryText(entry.0, entry.1)
  {
    assert [entry][..0] == [];
  }

  /** The position of the first entry with a given name. */
  function FirstWithName(entries: seq<(string, string)>, n: string): (k: nat)
    requires exists i :: 0 <= i < |entries| && entries[i].0 == n
    ensures k < |entries| && entries[k].0 == n
    ensures forall j :: 0 <= j < k ==> entries[j].0 != n
  {
    if entries[0].0 == n then 0
    else
      assert exists i :: 0 <= i < |entries[1..]| && entries[1..][i].0 == n by {
        var i :| 0 <= i < |entries| && entries[i].0 == n;
        assert entries[1..][i - 1].0 == n;
      }
      1 + FirstWithName(entries[1..], n)
  }

  /** The entries of a struct printed in the given order: the k-th entry is
      field `order[k]`, named `names[order[k]]` with value `values[order[k]]`. */
  function Arrange(names: seq<string>, values: seq<string>, order: seq<nat>): (r: seq<(string, string)>)
    requires |names| == |values| && forall k :: 0 <= k < |order| ==> order[k] < |names|
    ensures |r| == |order|
    ensures forall k :: 0 <= k < |order| ==> r[k] == (names[order[k]], values[order[k]])
  {
    seq(|order|, k requires 0 <= k < |order| => (names[order[k]], values[order[k]]))
  }

  /** No other field name ends with field i's name. The pattern has no word
      boundary: in a struct holding both `cleared` and `is_cleared`, the field
      `cleared` could be read from the wrong entry. */
  predicate AloneAsSuffix(names: seq<string>, i: nat)
    requires i < |names|
  {
    forall j :: 0 <= j < |names| && EndsWith(names[j], names[i]) ==> j == i
  }

  /** Fields printed in any order, with any repetition, read back: every field
      whose name no other name ends with gets its value from extractField. */
  lemma {:induction false} ExtractAnyOrder(names: seq<string>, values: seq<string>, order: seq<nat>, i: nat)
    requires |names| == |values| && i < |names|
    requires forall j :: 0 <= j < |names| ==> IsName(names[j]) && IsPlainValue(values[j])
    requires AloneAsSuffix(names, i)
    requires forall k :: 0 <= k < |order| ==> order[k] < |names|
    requires i in order
    ensures ExtractField(StructText(Arrange(names, values, order)), names[i]) == values[i]
  {
    var entries := Arrange(names, values, order);
    assert WellFormedEntries(entries);
    var k0 :| 0 <= k0 < |order| && order[k0] == i;
    assert entries[k0].0 == names[i];
    var k := FirstWithName(entries, names[i]);
    forall j | 0 <= j < k ensures !EndsWith(entries[j].0, names[i]) {
      assert entries[j].0 == names[order[j]] != names[i];
    }
    assert EndsWith(names[order[k]], names[i]);
    ExtractEntry(entries, k);
  }
}

module AuctionText {
  import opened Text
  import opened AuctionTypes

  // ---------------------------------------------------------------------------
  // The program's own struct text

  function U128Text(x: nat): string { NatToDigits(x) + "u128" }

  function U32Text(x: nat): string { NatToDigits(x) + "u32" }

  function BoolText(b: bool): string { if b then "true" else "false" }

  lemma PlainValueTexts(x: nat, b: bool)
    ensures IsPlainValue(U128Text(x)) && IsPlainValue(U32Text(x)) && IsPlainValue(BoolText(b))
  {
  }

  lemma {:induction false} U128TextParses(x: nat)
    ensures ParseU128(U128Text(x)) == Returns(x)
  {
    ParseU128Digits(NatToDigits(x));
    NatToDigitsValue(x);
  }

  lemma {:induction false} U32TextParses(x: nat)
    ensures ParseU32(U32Text(x)) == Finite(x)
  {
    ParseU32Digits(NatToDigits(x));
    NatToDigitsValue(x);
  }

  lemma BoolTextParses(b: bool)
    ensures ParseBool(BoolText(b)) == b
  {
    var t := BoolText(b);
    assert forall i :: 0 <= i < |t| ==> 'a' <= t[i] <= 'z';
    TrimNoSpace(t);
  }

  /** An on-chain state: every counter is an unsigned integer. */
  predicate IsOnChainState(s: AuctionState)
  {
    s.totalCommitted >= 0 && s.totalPayments >= 0 && s.endedAtBlock >= 0
    && s.clearingPrice >= 0 && s.creatorRevenue >= 0
  }

  /** `order` lists field positions below n and names each of them at least once. */
  predicate CoversFields(order: seq<nat>, n: nat)
  {
    (forall k :: 0 <= k < |order| ==> order[k] < n) && forall i :: 0 <= i < n ==> i in order
  }

  const StateNames: seq<string> :=
    [ "total_committed", "total_payments", "supply_met", "ended_at_block", "cleared", "clearing_price",
      "creator_revenue" ]

  /** The printed values of an `AuctionState`, in the order of `StateNames`. */
  function StateValues(s: AuctionState): (r: seq<string>)
    requires IsOnChainState(s)
    ensures |r| == |StateNames|
  {
    [ U128Text(s.totalCommitted), U128Text(s.totalPayments), BoolText(s.supplyMet), U32Text(s.endedAtBlock),
      BoolText(s.cleared), U128Text(s.clearingPrice), U128Text(s.creatorRevenue) ]
  }

  /** The state as the program prints it, its fields in the given order. */
  function StateText(s: AuctionState, order: seq<nat>): string
    requires IsOnChainState(s) && CoversFields(order, |StateNames|)
  {
    StructText(Arrange(StateNames, StateValues(s), order))
  }

  lemma StateNamesAreNames()
    ensures forall j :: 0 <= j < |StateNames| ==> IsName(StateNames[j])
  {
  }

  lemma StateFieldsPrintable(s: AuctionState)
    requires IsOnChainState(s)
    ensures forall j :: 0 <= j < |StateNames| ==> IsName(StateNames[j]) && IsPlainValue(StateValues(s)[j])
  {
    StateNamesAreNames();
    PlainValueTexts(s.totalCommitted, s.supplyMet);
    PlainValueTexts(s.totalPayments, s.cleared);
    PlainValueTexts(s.endedAtBlock, false);
    PlainValueTexts(s.clearingPrice, false);
    PlainValueTexts(s.creatorRevenue, false);
  }

  /** No state field name ends with another one. */
  lemma StateNamesAlone()
    ensures forall i :: 0 <= i < |StateNames| ==> AloneAsSuffix(StateNames, i)
  {
  }

  lemma {:induction false} PrintedStateFields(s: AuctionState)
    requires IsOnChainState(s)
    ensures StateFromFields(U128Text(s.totalCommitted), U128Text(s.totalPayments), BoolText(s.supplyMet),
                            U32Text(s.endedAtBlock), BoolText(s.cleared), U128Text(s.clearingPrice),
                            U128Text(s.creatorRevenue)) == Returns(s)
  {
    U128TextParses(s.totalCommitted);
    U128TextParses(s.totalPayments);
    U32TextParses(s.endedAtBlock);
    U128TextParses(s.clearingPrice);
    U128TextParses(s.creatorRevenue);
    BoolTextParses(s.supplyMet);
    BoolTextParses(s.cleared);
  }

  /** Every field of a printed state is found again by extractField. */
  lemma {:induction false} StateFieldsByName(s: AuctionState, order: seq<nat>)
    requires IsOnChainState(s) && CoversFields(order, |StateNames|)
    ensures ExtractField(StateText(s, order), "total_committed") == U128Text(s.totalCommitted)
    ensures ExtractField(StateText(s, order), "total_payments") == U128Text(s.totalPayments)
    ensures ExtractField(StateText(s, order), "supply_met") == BoolText(s.supplyMet)
    ensures ExtractField(StateText(s, order), "ended_at_block") == U32Text(s.endedAtBlock)
    ensures ExtractField(StateText(s, order), "cleared") == BoolText(s.cleared)
    ensures ExtractField(StateText(s, order), "clearing_price") == U128Text(s.clearingPrice)
    ensures ExtractField(StateText(s, order), "creator_revenue") == U128Text(s.creatorRevenue)
  {
    StateFieldsPrintable(s);
    StateNamesAlone();
    ExtractAnyOrder(StateNames, StateValues(s), order, 0);
    ExtractAnyOrder(StateNames, StateValues(s), order, 1);
    ExtractAnyOrder(StateNames, StateValues(s), order, 2);
    ExtractAnyOrder(StateNames, StateValues(s), order, 3);
    ExtractAnyOrder(StateNames, StateValues(s), order, 4);
    ExtractAnyOrder(StateNames, StateValues(s), order, 5);
    ExtractAnyOrder(StateNames, StateValues(s), order, 6);
  }

  /** parseAuctionState reads back every field of a state the program printed,
      whatever order the fields come in. */
  lemma {:induction false} ParseAuctionStateRoundTrip(s: AuctionState, order: seq<nat>)
    requires IsOnChainState(s) && CoversFields(order, |StateNames|)
    ensures ParseAuctionState(StateText(s, order)) == Returns(s)
  {
    StateFieldsByName(s, order);
    PrintedStateFields(s);
  }

  /** An on-chain configuration: identifiers print as single values, numbers are unsigned. */
  predicate IsOnChainConfig(c: AuctionConfig)
  {
    IsPlainValue(c.auctionId) && IsPlainValue(c.creator) && IsPlainValue(c.saleTokenId)
    && IsPlainValue(c.paymentTokenId)
    && c.supply >= 0 && c.startPrice >= 0 && c.floorPrice >= 0 && c.startBlock >= 0 && c.endBlock >= 0
    && c.priceDecayBlocks >= 0 && c.priceDecayAmount >= 0 && c.maxBidAmount >= 0 && c.minBidAmount >= 0
  }

  const ConfigNames: seq<string> :=
    [ "auction_id", "creator", "sale_token_id", "payment_token_id", "supply", "start_price", "floor_price",
      "start_block", "end_block", "price_decay_blocks", "price_decay_amount", "max_bid_amount",
      "min_bid_amount" ]

  /** The printed values of an `AuctionConfig`, in the order of `ConfigNames`. */
  function ConfigValues(c: AuctionConfig): (r: seq<string>)
    requires IsOnChainConfig(c)
    ensures |r| == |ConfigNames|
  {
    [ c.auctionId, c.creator, c.saleTokenId, c.paymentTokenId, U128Text(c.supply), U128Text(c.startPrice),
      U128Text(c.floorPrice), U32Text(c.startBlock), U32Text(c.endBlock), U32Text(c.priceDecayBlocks),
      U128Text(c.priceDecayAmount), U128Text(c.maxBidAmount), U128Text(c.minBidAmount) ]
  }

  /** The configuration as the program prints it, its fields in the given order. */
  function ConfigText(c: AuctionConfig, order: seq<nat>): string
    requires IsOnChainConfig(c) && CoversFields(order, |ConfigNames|)
  {
    StructText(Arrange(ConfigNames, ConfigValues(c), order))
  }

  lemma ConfigNamesAreNames()
    ensures forall j :: 0 <= j < |ConfigNames| ==> IsName(ConfigNames[j])
  {
  }

  lemma ConfigFieldsPrintable(c: AuctionConfig)
    requires IsOnChainConfig(c)
    ensures forall j :: 0 <= j < |ConfigNames| ==> IsName(ConfigNames[j]) && IsPlainValue(ConfigValues(c)[j])
  {
    ConfigNamesAreNames();
    PlainValueTexts(c.supply, false);
    PlainValueTexts(c.startPrice, false);
    PlainValueTexts(c.floorPrice, false);
    PlainValueTexts(c.startBlock, false);
    PlainValueTexts(c.endBlock, false);
    PlainValueTexts(c.priceDecayBlocks, false);
    PlainValueTexts(c.priceDecayAmount, false);
    PlainValueTexts(c.maxBidAmount, false);
    PlainValueTexts(c.minBidAmount, false);
  }

  // No configuration field name ends with another one, shown name by name.

  lemma AuctionIdNameAlone()
    ensures AloneAsSuffix(ConfigNames, 0)
  {
  }

  lemma CreatorNameAlone()
    ensures AloneAsSuffix(ConfigNames, 1)
  {
  }

  lemma SaleTokenIdNameAlone()
    ensures AloneAsSuffix(ConfigNames, 2)
  {
  }

  lemma PaymentTokenIdNameAlone()
    ensures AloneAsSuffix(ConfigNames, 3)
  {
  }

  lemma SupplyNameAlone()
    ensures AloneAsSuffix(ConfigNames, 4)
  {
  }

  lemma StartPriceNameAlone()
    ensures AloneAsSuffix(ConfigNames, 5)
  {
  }

  lemma FloorPriceNameAlone()
    ensures AloneAsSuffix(ConfigNames, 6)
  {
  }

  lemma StartBlockNameAlone()
    ensures AloneAsSuffix(ConfigNames, 7)
  {
  }

  lemma EndBlockNameAlone()
    ensures AloneAsSuffix(ConfigNames, 8)
  {
  }

  lemma PriceDecayBlocksNameAlone()
    ensures AloneAsSuffix(ConfigNames, 9)
  {
  }

  lemma PriceDecayAmountNameAlone()
    ensures AloneAsSuffix(ConfigNames, 10)
  {
  }

  lemma MaxBidAmountNameAlone()
    ensures AloneAsSuffix(ConfigNames, 11)
  {
  }

  lemma MinBidAmountNameAlone()
    ensures AloneAsSuffix(ConfigNames, 12)
  {
  }

  lemma {:induction false} PrintedConfigFields(c: AuctionConfig)
    requires IsOnChainConfig(c)
    ensures ConfigFromFields(c.auctionId, c.creator, c.saleTokenId, c.paymentTokenId,
                             U128Text(c.supply), U128Text(c.startPrice), U128Text(c.floorPrice),
                             U32Text(c.startBlock), U32Text(c.endBlock), U32Text(c.priceDecayBlocks),
                             U128Text(c.priceDecayAmount), U128Text(c.maxBidAmount),
                             U128Text(c.minBidAmount)) == Returns(c)
  {
    U128TextParses(c.supply);
    U128TextParses(c.startPrice);
    U128TextParses(c.floorPrice);
    U32TextParses(c.startBlock);
    U32TextParses(c.endBlock);
    U32TextParses(c.priceDecayBlocks);
    U128TextParses(c.priceDecayAmount);
    U128TextParses(c.maxBidAmount);
    U128TextParses(c.minBidAmount);
  }

  /** Every field of a printed configuration is found again by extractField. */
  lemma {:induction false} ConfigFieldsByName(c: AuctionConfig, order: seq<nat>)
    requires IsOnChainConfig(c) && CoversFields(order, |ConfigNames|)
    ensures ExtractField(ConfigText(c, order), "auction_id") == c.auctionId
    ensures ExtractField(ConfigText(c, order), "creator") == c.creator
    ensures ExtractField(ConfigText(c, order), "sale_token_id") == c.saleTokenId
    ensures ExtractField(ConfigText(c, order), "payment_token_id") == c.paymentTokenId
    ensures ExtractField(ConfigText(c, order), "supply") == U128Text(c.supply)
    ensures ExtractField(ConfigText(c, order), "start_price") == U128Text(c.startPrice)
    ensures ExtractField(ConfigText(c, order), "floor_price") == U128Text(c.floorPrice)
    ensures ExtractField(ConfigText(c, order), "start_block") == U32Text(c.startBlock)
    ensures ExtractField(ConfigText(c, order), "end_block") == U32Text(c.endBlock)
    ensures ExtractField(ConfigText(c, order), "price_decay_blocks") == U32Text(c.priceDecayBlocks)
    ensures ExtractField(ConfigText(c, order), "price_decay_amount") == U128Text(c.priceDecayAmount)
    ensures ExtractField(ConfigText(c, order), "max_bid_amount") == U128Text(c.maxBidAmount)
    ensures ExtractField(ConfigText(c, order), "min_bid_amount") == U128Text(c.minBidAmount)
  {
    ConfigFieldsPrintable(c);
    AuctionIdNameAlone();
    ExtractAnyOrder(ConfigNames, ConfigValues(c), order, 0);
    CreatorNameAlone();
    ExtractAnyOrder(ConfigNames, ConfigValues(c), order, 1);
    SaleTokenIdNameAlone();
    ExtractAnyOrder(ConfigNames, ConfigValues(c), order, 2);
    PaymentTokenIdNameAlone();
    ExtractAnyOrder(ConfigNames, ConfigValues(c), order, 3);
    SupplyNameAlone();
    ExtractAnyOrder(ConfigNames, ConfigValues(c), order, 4);
    StartPriceNameAlone();
    ExtractAnyOrder(ConfigNames, ConfigValues(c), order, 5);
    FloorPriceNameAlone();
    ExtractAnyOrder(ConfigNames, ConfigValues(c), order, 6);
    StartBlockNameAlone();
    ExtractAnyOrder(ConfigNames, ConfigValues(c), order, 7);
    EndBlockNameAlone();
    ExtractAnyOrder(ConfigNames, ConfigValues(c), order, 8);
    PriceDecayBlocksNameAlone();
    ExtractAnyOrder(ConfigNames, ConfigValues(c), order, 9);
    PriceDecayAmountNameAlone();
    ExtractAnyOrder(ConfigNames, ConfigValues(c), order, 10);
    MaxBidAmountNameAlone();
    ExtractAnyOrder(ConfigNames, ConfigValues(c), order, 11);
    MinBidAmountNameAlone();
    ExtractAnyOrder(ConfigNames, ConfigValues(c), order, 12);
  }

  /** parseAuctionConfig reads back every field of a configuration the program
      printed, whatever order the fields come in. */
  lemma {:induction false} ParseAuctionConfigRoundTrip(c: AuctionConfig, order: seq<nat>)
    requires IsOnChainConfig(c) && CoversFields(order, |ConfigNames|)
    ensures ParseAuctionConfig(ConfigText(c, order)) == Returns(c)
  {
    ConfigFieldsByName(c, order);
    PrintedConfigFields(c);
  }
}
