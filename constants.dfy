/** The test token catalogue (src/constants.ts): the auction (sale) tokens,
 *  the payment tokens, and the label and symbol lookups by token id. */
module Constants {
  import opened Text

  datatype TestToken = TestToken(name: string, symbol: string, tokenId: string)

  /** Sale tokens, deposited by auction creators. */
  const TestAuctionTokens: seq<TestToken> := [
    TestToken("Alpha Token", "ALPHA", "1field"),
    TestToken("Beta Token", "BETA", "2field"),
    TestToken("Gamma Token", "GAMMA", "3field")
  ]

  /** Payment tokens, used by bidders to pay. */
  const TestPaymentTokens: seq<TestToken> := [
    TestToken("USD Coin", "USDC", "4field"),
    TestToken("Test Bitcoin", "tBTC", "5field"),
    TestToken("Test Ether", "tETH", "6field")
  ]

  /** Every test token: the sale tokens, then the payment tokens. */
  const TestTokens: seq<TestToken> := TestAuctionTokens + TestPaymentTokens

  /** `find`: the first token with the id. */
  function Find(tokens: seq<TestToken>, tokenId: string): (r: Option<TestToken>)
    ensures r.Some? ==> r.value in tokens && r.value.tokenId == tokenId
    ensures r.None? <==> forall t :: t in tokens ==> t.tokenId != tokenId
  {
    if tokens == [] then None
    else if tokens[0].tokenId == tokenId then Some(tokens[0])
    else Find(tokens[1..], tokenId)
  }

  /** No two tokens of a table share an id. */
  predicate DistinctIds(tokens: seq<TestToken>)
  {
    forall i, j :: 0 <= i < j < |tokens| ==> tokens[i].tokenId != tokens[j].tokenId
  }

  /** With distinct ids, looking a token up by its id finds that token. */
  lemma {:induction false} FindDistinct(tokens: seq<TestToken>, i: nat)
    requires DistinctIds(tokens) && i < |tokens|
    ensures Find(tokens, tokens[i].tokenId) == Some(tokens[i])
  {
    if i > 0 {
      assert tokens[0].tokenId != tokens[i].tokenId;
      assert tokens[1..][i - 1] == tokens[i];
      FindDistinct(tokens[1..], i - 1);
    }
  }

  /** The catalogue's ids `1field` to `6field` are distinct, and the table
      holds the sale tokens followed by the payment tokens. */
  lemma CatalogueIds()
    ensures |TestTokens| == 6
    ensures TestTokens[..3] == TestAuctionTokens && TestTokens[3..] == TestPaymentTokens
    ensures DistinctIds(TestTokens)
  {
    var ids := ["1field", "2field", "3field", "4field", "5field", "6field"];
    assert forall i :: 0 <= i < 6 ==> TestTokens[i].tokenId == ids[i];
    assert forall i, j :: 0 <= i < j < 6 ==> ids[i][0] != ids[j][0];
  }

  /** `getTokenLabel`: "Name (SYMBOL)" for a catalogue id, the id otherwise. */
  function TokenLabel(tokenId: string): (r: string)
    ensures Find(TestTokens, tokenId).Some? ==>
              var t := Find(TestTokens, tokenId).value;
              r == t.name + " (" + t.symbol + ")"
    ensures Find(TestTokens, tokenId).None? ==> r == tokenId
  {
    match Find(TestTokens, tokenId)
    case Some(t) => t.name + " (" + t.symbol + ")"
    case None => tokenId
  }

  /** `getTokenSymbol`: the symbol for a catalogue id, the id otherwise. */
  function TokenSymbol(tokenId: string): (r: string)
    ensures Find(TestTokens, tokenId).Some? ==> r == Find(TestTokens, tokenId).value.symbol
    ensures Find(TestTokens, tokenId).None? ==> r == tokenId
  {
    match Find(TestTokens, tokenId)
    case Some(t) => t.symbol
    case None => tokenId
  }

  /** Every catalogue token is labelled with its own name and symbol, and an
      id outside the catalogue is shown as itself. */
  lemma LookupsOfCatalogue(i: nat, other: string)
    requires i < |TestTokens|
    requires forall t :: t in TestTokens ==> t.tokenId != other
    ensures TokenLabel(TestTokens[i].tokenId) == TestTokens[i].name + " (" + TestTokens[i].symbol + ")"
    ensures TokenSymbol(TestTokens[i].tokenId) == TestTokens[i].symbol
    ensures TokenLabel(other) == other && TokenSymbol(other) == other
  {
    CatalogueIds();
    FindDistinct(TestTokens, i);
  }
}
