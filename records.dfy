/** The wallet-record hook (src/shared/hooks/useRecords.ts): the program's
 *  records as the wallet returns them are sorted into token and bid records,
 *  and a persisted set of "locally spent" record ids bridges the wallet
 *  indexer's lag. The wallet call becomes a parameter and the persisted set
 *  a field. */
module Records {
  import opened Text
  import opened AuctionTypes

  /** One entry of the wallet's answer. `isRecord` is what the runtime shape
      check `isWalletRecord` decides, and `json` is the entry's
      `JSON.stringify` text. */
  datatype WalletEntry = WalletEntry(
    isRecord: bool, id: string, owner: string, spent: bool,
    data: map<string, string>, json: string)

  /** stripSuffix: one trailing ".private" or ".public" is removed. */
  function StripSuffix(value: string): (r: string)
    ensures EndsWith(value, ".private") ==> r + ".private" == value
    ensures EndsWith(value, ".public") ==> r + ".public" == value
    ensures !EndsWith(value, ".private") && !EndsWith(value, ".public") ==> r == value
  {
    if EndsWith(value, ".private") then
      assert value[|value| - 1] == ".private"[7];
      assert !EndsWith(value, ".public") by {
        if |value| >= 7 { assert value[|value| - 7..][6] == value[|value| - 1]; }
      }
      value[..|value| - 8]
    else if EndsWith(value, ".public") then value[..|value| - 7]
    else value
  }

  /** parseBigInt: the visibility suffix is stripped, then the text is read
      as a u128 literal. */
  function ParseBigIntField(value: string): (r: Outcome<int>)
    ensures r == ParseU128(StripSuffix(value))
  {
    ParseInteger(ReplaceFirst(StripSuffix(value), "u128", ""))
  }

  /** The wallet's visibility suffix comes off a u128 literal, and a bare
      literal is left alone. */
  lemma StripPrivate(d: string)
    ensures StripSuffix(d + "u128.private") == d + "u128"
  {
    var priv := d + "u128.private";
    assert priv[|priv| - 8..] == ".private";
    assert priv[..|priv| - 8] == d + "u128";
  }

  lemma StripPublic(d: string)
    ensures StripSuffix(d + "u128.public") == d + "u128"
  {
    var pub := d + "u128.public";
    assert pub[|pub| - 7..] == ".public";
    assert pub[|pub| - 8] == '8';
    assert !EndsWith(pub, ".private") by {
      assert pub[|pub| - 8..][0] == pub[|pub| - 8];
    }
    assert pub[..|pub| - 7] == d + "u128";
  }

  lemma StripBare(d: string)
    ensures StripSuffix(d + "u128") == d + "u128"
  {
    var plain := d + "u128";
    assert plain[|plain| - 1] == '8';
    assert !EndsWith(plain, ".private") by {
      if |plain| >= 8 { assert plain[|plain| - 8..][7] == plain[|plain| - 1]; }
    }
    assert !EndsWith(plain, ".public") by {
      if |plain| >= 7 { assert plain[|plain| - 7..][6] == plain[|plain| - 1]; }
    }
  }

  /** A u128 field as the wallet prints it, private, public or bare, reads as
      its value. */
  lemma ParseBigIntFieldDigits(d: string)
    requires IsDigits(d)
    ensures ParseBigIntField(d + "u128.private") == Returns(DigitsValue(d))
    ensures ParseBigIntField(d + "u128.public") == Returns(DigitsValue(d))
    ensures ParseBigIntField(d + "u128") == Returns(DigitsValue(d))
  {
    StripPrivate(d);
    StripPublic(d);
    StripBare(d);
    ParseU128Digits(d);
  }

  /** Only one suffix is removed: a doubled suffix keeps one copy. */
  lemma StripSuffixOnce(v: string)
    ensures StripSuffix(v + ".private.private") == v + ".private"
  {
    var s := v + ".private.private";
    assert s[..|s| - 8] == v + ".private";
  }

  /** `data[key] ? stripSuffix(data[key]) : ""`: a missing or empty field is "". */
  function IdField(data: map<string, string>, key: string): string
  {
    if key in data && data[key] != "" then StripSuffix(data[key]) else ""
  }

  /** `data[key] ?? "0u128"`: only a missing field takes the default. */
  function AmountField(data: map<string, string>, key: string): string
  {
    if key in data then data[key] else "0u128"
  }

  /** What one entry of the loop contributes. */
  datatype Classified = AsToken(token: TokenRecord) | AsBid(bid: BidRecord) | Skipped

  /** The loop body for one entry: a token record when it names a token and
      no auction, a bid record when it names an auction, nothing when the
      shape check fails or an amount does not parse. A record is spent when
      the wallet says so or its id was marked locally. */
  function Classify(e: WalletEntry, localSpent: set<string>): (r: Classified)
    ensures r.AsToken? <==>
              e.isRecord && IdField(e.data, "token_id") != "" && IdField(e.data, "auction_id") == ""
              && ParseBigIntField(AmountField(e.data, "amount")).Returns?
    ensures r.AsBid? <==>
              e.isRecord && IdField(e.data, "auction_id") != ""
              && ParseBigIntField(AmountField(e.data, "quantity")).Returns?
              && ParseBigIntField(AmountField(e.data, "payment_amount")).Returns?
    ensures r.AsToken? ==>
              r.token == TokenRecord(e.id, e.owner, IdField(e.data, "token_id"),
                                     ParseBigIntField(AmountField(e.data, "amount")).value,
                                     e.spent || e.id in localSpent, e.json)
    ensures r.AsBid? ==>
              r.bid == BidRecord(e.id, e.owner, IdField(e.data, "auction_id"),
                                 ParseBigIntField(AmountField(e.data, "quantity")).value,
                                 ParseBigIntField(AmountField(e.data, "payment_amount")).value,
                                 e.spent || e.id in localSpent, e.json)
  {
    if !e.isRecord then Skipped
    else
      var isSpent := e.spent || e.id in localSpent;
      var tokenId := IdField(e.data, "token_id");
      var auctionId := IdField(e.data, "auction_id");
      if tokenId != "" && auctionId == "" then
        match ParseBigIntField(AmountField(e.data, "amount"))
        case Throws => Skipped
        case Returns(amount) => AsToken(TokenRecord(e.id, e.owner, tokenId, amount, isSpent, e.json))
      else if auctionId != "" then
        match (ParseBigIntField(AmountField(e.data, "quantity")), ParseBigIntField(AmountField(e.data, "payment_amount")))
        case (Returns(q), Returns(p)) => AsBid(BidRecord(e.id, e.owner, auctionId, q, p, isSpent, e.json))
        case _ => Skipped
      else Skipped
  }

  /** Each entry's contribution, in entry order. */
  function Classifications(es: seq<WalletEntry>, localSpent: set<string>): (cs: seq<Classified>)
    ensures |cs| == |es| && forall i :: 0 <= i < |es| ==> cs[i] == Classify(es[i], localSpent)
  {
    seq(|es|, i requires 0 <= i < |es| => Classify(es[i], localSpent))
  }

  /** The token records among a list of contributions, in order. */
  function TokensIn(cs: seq<Classified>): seq<TokenRecord>
  {
    if cs == [] then []
    else TokensIn(cs[..|cs| - 1]) + (if cs[|cs| - 1].AsToken? then [cs[|cs| - 1].token] else [])
  }

  /** The bid records among a list of contributions, in order. */
  function BidsIn(cs: seq<Classified>): seq<BidRecord>
  {
    if cs == [] then []
    else BidsIn(cs[..|cs| - 1]) + (if cs[|cs| - 1].AsBid? then [cs[|cs| - 1].bid] else [])
  }

  /** The token records the loop collects. */
  function TokensOf(es: seq<WalletEntry>, localSpent: set<string>): seq<TokenRecord>
  {
    TokensIn(Classifications(es, localSpent))
  }

  /** The bid records the loop collects. */
  function BidsOf(es: seq<WalletEntry>, localSpent: set<string>): seq<BidRecord>
  {
    BidsIn(Classifications(es, localSpent))
  }

  /** The ids of the entries that pass the shape check. */
  function ReturnedIds(es: seq<WalletEntry>): set<string>
  {
    if es == [] then {}
    else ReturnedIds(es[..|es| - 1]) + (if es[|es| - 1].isRecord then {es[|es| - 1].id} else {})
  }

  /** `markSpent` on a record list: the records with one of the ids are
      flagged spent. */
  function MarkTokens(rs: seq<TokenRecord>, ids: set<string>): seq<TokenRecord>
  {
    seq(|rs|, i requires 0 <= i < |rs| => if rs[i].id in ids then rs[i].(spent := true) else rs[i])
  }

  function MarkBids(rs: seq<BidRecord>, ids: set<string>): seq<BidRecord>
  {
    seq(|rs|, i requires 0 <= i < |rs| => if rs[i].id in ids then rs[i].(spent := true) else rs[i])
  }

  // ---------------------------------------------------------------------------
  // Properties of the classification

  /** Every collected token record is some entry's contribution, and every
      entry that contributes a token record has it collected: a malformed
      entry drops only itself. */
  lemma {:induction false} TokensInSound(cs: seq<Classified>)
    ensures forall k :: 0 <= k < |TokensIn(cs)| ==> exists j :: 0 <= j < |cs| && cs[j] == AsToken(TokensIn(cs)[k])
  {
    if cs == [] {
      assert TokensIn(cs) == [];
    } else {
      var init := cs[..|cs| - 1];
      TokensInSound(init);
      var r := TokensIn(cs);
      forall k | 0 <= k < |r|
        ensures exists j :: 0 <= j < |cs| && cs[j] == AsToken(r[k])
      {
        if k < |TokensIn(init)| {
          var j :| 0 <= j < |init| && init[j] == AsToken(TokensIn(init)[k]);
          assert cs[j] == init[j];
        } else {
          assert cs[|cs| - 1] == AsToken(r[k]);
        }
      }
    }
  }

  lemma {:induction false} TokensInComplete(cs: seq<Classified>)
    ensures forall j :: 0 <= j < |cs| && cs[j].AsToken? ==> cs[j].token in TokensIn(cs)
  {
    if cs != [] {
      var init := cs[..|cs| - 1];
      TokensInComplete(init);
      forall j | 0 <= j < |cs| && cs[j].AsToken?
        ensures cs[j].token in TokensIn(cs)
      {
        if j < |init| {
          assert cs[j] == init[j];
        }
      }
    }
  }

  /** The same two facts for bid records. */
  lemma {:induction false} BidsInSound(cs: seq<Classified>)
    ensures forall k :: 0 <= k < |BidsIn(cs)| ==> exists j :: 0 <= j < |cs| && cs[j] == AsBid(BidsIn(cs)[k])
  {
    if cs == [] {
      assert BidsIn(cs) == [];
    } else {
      var init := cs[..|cs| - 1];
      BidsInSound(init);
      var r := BidsIn(cs);
      forall k | 0 <= k < |r|
        ensures exists j :: 0 <= j < |cs| && cs[j] == AsBid(r[k])
      {
        if k < |BidsIn(init)| {
          var j :| 0 <= j < |init| && init[j] == AsBid(BidsIn(init)[k]);
          assert cs[j] == init[j];
        } else {
          assert cs[|cs| - 1] == AsBid(r[k]);
        }
      }
    }
  }

  lemma {:induction false} BidsInComplete(cs: seq<Classified>)
    ensures forall j :: 0 <= j < |cs| && cs[j].AsBid? ==> cs[j].bid in BidsIn(cs)
  {
    if cs != [] {
      var init := cs[..|cs| - 1];
      BidsInComplete(init);
      forall j | 0 <= j < |cs| && cs[j].AsBid?
        ensures cs[j].bid in BidsIn(cs)
      {
        if j < |init| {
          assert cs[j] == init[j];
        }
      }
    }
  }

  /** The token list is exactly the entries classified as token records. */
  lemma {:induction false} TokensClassified(es: seq<WalletEntry>, ls: set<string>)
    ensures forall k :: 0 <= k < |TokensOf(es, ls)| ==>
              exists j :: 0 <= j < |es| && Classify(es[j], ls) == AsToken(TokensOf(es, ls)[k])
    ensures forall j :: 0 <= j < |es| && Classify(es[j], ls).AsToken? ==>
              Classify(es[j], ls).token in TokensOf(es, ls)
  {
    var cs := Classifications(es, ls);
    TokensInSound(cs);
    TokensInComplete(cs);
    forall k | 0 <= k < |TokensOf(es, ls)|
      ensures exists j :: 0 <= j < |es| && Classify(es[j], ls) == AsToken(TokensOf(es, ls)[k])
    {
      var j :| 0 <= j < |cs| && cs[j] == AsToken(TokensIn(cs)[k]);
      assert Classify(es[j], ls) == cs[j];
    }
    forall j | 0 <= j < |es| && Classify(es[j], ls).AsToken?
      ensures Classify(es[j], ls).token in TokensOf(es, ls)
    {
      assert cs[j] == Classify(es[j], ls);
      assert cs[j].token in TokensIn(cs);
    }
    assert forall j :: 0 <= j < |es| && Classify(es[j], ls).AsToken? ==>
              Classify(es[j], ls).token in TokensOf(es, ls);
  }

  /** The bid list is exactly the entries classified as bid records. */
  lemma {:induction false} BidsClassified(es: seq<WalletEntry>, ls: set<string>)
    ensures forall k :: 0 <= k < |BidsOf(es, ls)| ==>
              exists j :: 0 <= j < |es| && Classify(es[j], ls) == AsBid(BidsOf(es, ls)[k])
    ensures forall j :: 0 <= j < |es| && Classify(es[j], ls).AsBid? ==>
              Classify(es[j], ls).bid in BidsOf(es, ls)
  {
    var cs := Classifications(es, ls);
    BidsInSound(cs);
    BidsInComplete(cs);
    forall k | 0 <= k < |BidsOf(es, ls)|
      ensures exists j :: 0 <= j < |es| && Classify(es[j], ls) == AsBid(BidsOf(es, ls)[k])
    {
      var j :| 0 <= j < |cs| && cs[j] == AsBid(BidsIn(cs)[k]);
      assert Classify(es[j], ls) == cs[j];
    }
    forall j | 0 <= j < |es| && Classify(es[j], ls).AsBid?
      ensures Classify(es[j], ls).bid in BidsOf(es, ls)
    {
      assert cs[j] == Classify(es[j], ls);
      assert cs[j].bid in BidsIn(cs);
    }
    assert forall j :: 0 <= j < |es| && Classify(es[j], ls).AsBid? ==>
              Classify(es[j], ls).bid in BidsOf(es, ls);
  }

  /** No entry contributes both a token and a bid record, so the two lists
      together are never longer than the wallet's answer. */
  lemma {:induction false} ClassifiedAtMostOnce(cs: seq<Classified>)
    ensures |TokensIn(cs)| + |BidsIn(cs)| <= |cs|
  {
    if cs != [] {
      ClassifiedAtMostOnce(cs[..|cs| - 1]);
    }
  }

  /** An id was returned exactly when some entry passing the shape check has it. */
  lemma {:induction false} ReturnedIdsExactly(es: seq<WalletEntry>, id: string)
    ensures id in ReturnedIds(es) <==> exists j :: 0 <= j < |es| && es[j].isRecord && es[j].id == id
  {
    if es != [] {
      var init := es[..|es| - 1];
      ReturnedIdsExactly(init, id);
      if id in ReturnedIds(init) {
        var j :| 0 <= j < |init| && init[j].isRecord && init[j].id == id;
        assert es[j] == init[j];
      }
      if exists j :: 0 <= j < |es| && es[j].isRecord && es[j].id == id {
        var j :| 0 <= j < |es| && es[j].isRecord && es[j].id == id;
        if j < |init| { assert init[j] == es[j]; }
      }
    }
  }

  /** markSpent flags exactly the records with a given id; every other field
      and every other record, the order and the length are unchanged. */
  lemma MarkTokensExactly(rs: seq<TokenRecord>, ids: set<string>)
    ensures |MarkTokens(rs, ids)| == |rs|
    ensures forall i :: 0 <= i < |rs| ==>
              MarkTokens(rs, ids)[i].spent == (rs[i].spent || rs[i].id in ids)
              && MarkTokens(rs, ids)[i] == rs[i].(spent := MarkTokens(rs, ids)[i].spent)
  {
  }

  /** Marking twice is marking once with both id sets. */
  lemma MarkTokensTwice(rs: seq<TokenRecord>, a: set<string>, b: set<string>)
    ensures MarkTokens(MarkTokens(rs, a), b) == MarkTokens(rs, a + b)
  {
    var lhs, rhs := MarkTokens(MarkTokens(rs, a), b), MarkTokens(rs, a + b);
    assert forall i :: 0 <= i < |rs| ==> lhs[i] == rhs[i];
  }

  lemma MarkBidsTwice(rs: seq<BidRecord>, a: set<string>, b: set<string>)
    ensures MarkBids(MarkBids(rs, a), b) == MarkBids(rs, a + b)
  {
    var lhs, rhs := MarkBids(MarkBids(rs, a), b), MarkBids(rs, a + b);
    assert forall i :: 0 <= i < |rs| ==> lhs[i] == rhs[i];
  }

  /** One more entry of the loop: its contribution is appended. */
  lemma PrefixStep(es: seq<WalletEntry>, localSpent: set<string>, i: nat)
    requires i < |es|
    ensures var cs := Classifications(es, localSpent);
      && TokensIn(cs[..i + 1]) == TokensIn(cs[..i]) + (if cs[i].AsToken? then [cs[i].token] else [])
      && BidsIn(cs[..i + 1]) == BidsIn(cs[..i]) + (if cs[i].AsBid? then [cs[i].bid] else [])
      && ReturnedIds(es[..i + 1]) == ReturnedIds(es[..i]) + (if es[i].isRecord then {es[i].id} else {})
      && cs[i] == Classify(es[i], localSpent)
  {
    var cs := Classifications(es, localSpent);
    ClassifiedPrefixStep(cs, i);
    assert es[..i + 1][..i] == es[..i];
  }

  lemma ClassifiedPrefixStep(cs: seq<Classified>, i: nat)
    requires i < |cs|
    ensures TokensIn(cs[..i + 1]) == TokensIn(cs[..i]) + (if cs[i].AsToken? then [cs[i].token] else [])
    ensures BidsIn(cs[..i + 1]) == BidsIn(cs[..i]) + (if cs[i].AsBid? then [cs[i].bid] else [])
  {
    assert cs[..i + 1][..i] == cs[..i];
  }

  /** An entry failing the shape check contributes nothing. */
  lemma NonRecordSkipped(e: WalletEntry, localSpent: set<string>)
    requires !e.isRecord
    ensures Classify(e, localSpent).Skipped?
  {
  }

  /** The elements of a list of ids, as a set. */
  function IdSet(ids: seq<string>): (r: set<string>)
    ensures forall id :: id in r <==> id in ids
  {
    set id | id in ids
  }

  // ---------------------------------------------------------------------------
  // The hook's state

  class RecordStore {
    /** The persisted "fairdrop_spent" id set. */
    var localSpent: set<string>
    var tokenRecords: seq<TokenRecord>
    var bidRecords: seq<BidRecord>

    constructor(stored: set<string>)
      ensures localSpent == stored && tokenRecords == [] && bidRecords == []
    {
      localSpent := stored;
      tokenRecords := [];
      bidRecords := [];
    }

    /** fetchRecords. Without a connected wallet, or when the wallet's request
        fails (`response` is None), nothing changes. Otherwise the lists are
        rebuilt from the answer, and the local spent set keeps only the ids
        the wallet still returns. */
    method FetchRecords(connected: bool, response: Option<seq<WalletEntry>>)
      modifies this
      ensures !connected || response.None? ==>
                localSpent == old(localSpent) && tokenRecords == old(tokenRecords) && bidRecords == old(bidRecords)
      ensures connected && response.Some? ==>
                && tokenRecords == TokensOf(response.value, old(localSpent))
                && bidRecords == BidsOf(response.value, old(localSpent))
                && localSpent == old(localSpent) * ReturnedIds(response.value)
    {
      if !connected || response.None? {
        return;
      }
      var entries := response.value;
      var spentBefore := localSpent;
      ghost var cs := Classifications(entries, spentBefore);
      var tokens: seq<TokenRecord> := [];
      var bids: seq<BidRecord> := [];
      var returned: set<string> := {};
      for i := 0 to |entries|
        invariant tokens == TokensIn(cs[..i])
        invariant bids == BidsIn(cs[..i])
        invariant returned == ReturnedIds(entries[..i])
      {
        PrefixStep(entries, spentBefore, i);
        var entry := entries[i];
        if entry.isRecord {
          returned := returned + {entry.id};
          var c := Classify(entry, spentBefore);
          match c
          case AsToken(t) => tokens := tokens + [t];
          case AsBid(b) => bids := bids + [b];
          case Skipped =>
        } else {
          NonRecordSkipped(entry, spentBefore);
        }
      }
      assert entries[..|entries|] == entries;
      assert cs[..|cs|] == cs;
      localSpent := spentBefore * returned;
      tokenRecords := tokens;
      bidRecords := bids;
    }

    /** markSpent: every id joins the local set, and the records with those
        ids are flagged spent in place. */
    method MarkSpent(ids: seq<string>)
      modifies this
      ensures localSpent == old(localSpent) + IdSet(ids)
      ensures tokenRecords == MarkTokens(old(tokenRecords), IdSet(ids))
      ensures bidRecords == MarkBids(old(bidRecords), IdSet(ids))
    {
      var current := localSpent;
      for i := 0 to |ids|
        invariant current == localSpent + IdSet(ids[..i])
      {
        assert IdSet(ids[..i + 1]) == IdSet(ids[..i]) + {ids[i]} by {
          assert ids[..i + 1] == ids[..i] + [ids[i]];
        }
        current := current + {ids[i]};
      }
      assert ids[..|ids|] == ids;
      localSpent := current;
      tokenRecords := MarkTokens(tokenRecords, IdSet(ids));
      bidRecords := MarkBids(bidRecords, IdSet(ids));
    }
  }
}
