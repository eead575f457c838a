/** The Dutch-auction price engine (src/features/auction/utils/price.ts).
 *
 *  The price starts at `start_price`, drops by `price_decay_amount` every
 *  `price_decay_blocks` blocks after `start_block`, never goes below
 *  `floor_price`, and is `floor_price` from `end_block` on. Block heights are
 *  JavaScript numbers and prices are BigInts; both are integers here. */
module Price {
  import opened Text
  import opened AuctionTypes

  /** Completed decay intervals at `block`: `Math.floor(elapsed / price_decay_blocks)`. */
  function DecaySteps(c: AuctionConfig, block: int): int
    requires c.priceDecayBlocks != 0
  {
    FloorDiv(block - c.startBlock, c.priceDecayBlocks)
  }

  /** computeCurrentPrice. With `price_decay_blocks == 0` inside the window the
      division gives Infinity or NaN, and `BigInt` of either throws. */
  function CurrentPrice(c: AuctionConfig, block: int): (r: Outcome<int>)
    ensures block < c.startBlock ==> r == Returns(c.startPrice)
    ensures c.startBlock <= block && c.endBlock <= block ==> r == Returns(c.floorPrice)
    ensures r.Throws? <==> c.startBlock <= block < c.endBlock && c.priceDecayBlocks == 0
    ensures c.startBlock <= block < c.endBlock && c.priceDecayBlocks != 0 ==>
              r == Returns(Max(c.floorPrice, c.startPrice - DecaySteps(c, block) * c.priceDecayAmount))
  {
    if block < c.startBlock then Returns(c.startPrice)
    else if block >= c.endBlock then Returns(c.floorPrice)
    else if c.priceDecayBlocks == 0 then Throws
    else
      var totalDecay := DecaySteps(c, block) * c.priceDecayAmount;
      var priceRange := c.startPrice - c.floorPrice;
      if totalDecay < priceRange then Returns(c.startPrice - totalDecay) else Returns(c.floorPrice)
  }

  /** A configuration the price engine is meant for: the price falls from
      `start_price` towards a lower floor in non-negative steps. */
  predicate Decays(c: AuctionConfig)
  {
    c.priceDecayBlocks > 0 && c.startPrice >= c.floorPrice && c.priceDecayAmount >= 0
  }

  lemma FloorDivMonotone(a1: int, a2: int, b: int)
    requires a1 <= a2 && b > 0
    ensures FloorDiv(a1, b) <= FloorDiv(a2, b)
  {
    var q1, q2 := FloorDiv(a1, b), FloorDiv(a2, b);
    // q1 * b <= a1 <= a2 < (q2 + 1) * b, so (q1 - q2 - 1) * b is negative.
    var k := q1 - q2 - 1;
    assert k * b == q1 * b - q2 * b - b;
    NonNegativeProduct(k, b);
  }

  lemma NonNegativeProduct(k: int, m: int)
    requires m > 0
    ensures k >= 0 ==> k * m >= 0
  {
    if k >= 0 {
      MulMonotone(0, k, m);
    }
  }

  lemma MulMonotone(x: int, y: int, m: int)
    requires x <= y && m >= 0
    ensures x * m <= y * m
  {
  }

  lemma DecayStepsNonNegative(c: AuctionConfig, block: int)
    requires c.priceDecayBlocks > 0 && block >= c.startBlock
    ensures DecaySteps(c, block) >= 0
  {
    FloorDivMonotone(0, block - c.startBlock, c.priceDecayBlocks);
  }

  /** The price never leaves `[floor_price, start_price]`. */
  lemma {:induction false} PriceInRange(c: AuctionConfig, block: int)
    requires Decays(c)
    ensures CurrentPrice(c, block).Returns?
    ensures c.floorPrice <= CurrentPrice(c, block).value <= c.startPrice
  {
    if c.startBlock <= block < c.endBlock {
      DecayStepsNonNegative(c, block);
      MulMonotone(0, DecaySteps(c, block), c.priceDecayAmount);
    }
  }

  /** The price never rises as the block height grows. */
  lemma {:induction false} PriceMonotone(c: AuctionConfig, b1: int, b2: int)
    requires Decays(c) && b1 <= b2
    ensures CurrentPrice(c, b2).value <= CurrentPrice(c, b1).value
  {
    PriceInRange(c, b1);
    PriceInRange(c, b2);
    if c.startBlock <= b1 && b2 < c.endBlock {
      FloorDivMonotone(b1 - c.startBlock, b2 - c.startBlock, c.priceDecayBlocks);
      MulMonotone(DecaySteps(c, b1), DecaySteps(c, b2), c.priceDecayAmount);
    }
  }

  /** Inside the window the price depends on the block only through the
      number of completed decay intervals, and above the floor it is
      `start_price` less that many decay amounts. */
  lemma PriceBySteps(c: AuctionConfig, b1: int, b2: int)
    requires c.priceDecayBlocks != 0
    requires c.startBlock <= b1 < c.endBlock && c.startBlock <= b2 < c.endBlock
    requires DecaySteps(c, b1) == DecaySteps(c, b2)
    ensures CurrentPrice(c, b1) == CurrentPrice(c, b2)
    ensures CurrentPrice(c, b1).value > c.floorPrice ==>
              c.startPrice - CurrentPrice(c, b1).value == DecaySteps(c, b1) * c.priceDecayAmount
  {
  }

  // ---------------------------------------------------------------------------
  // computePriceCurve

  datatype PricePoint = PricePoint(block: int, price: int)

  /** JavaScript `+` on numbers: NaN absorbs. */
  function NumAdd(a: Num, b: Num): Num
  {
    if a.NaN? || b.NaN? then NaN else Finite(a.v + b.v)
  }

  /** The loop's stride: `Math.max(1, Math.floor(total / Math.min(total, 200)))`.
      An empty window (`total == 0`) divides 0 by 0, and the stride is NaN. */
  function Stride(c: AuctionConfig): (s: Num)
    ensures s.NaN? <==> c.endBlock == c.startBlock
    ensures s.Finite? ==> s.v >= 1
  {
    var total := c.endBlock - c.startBlock;
    var steps := Min(total, 200);
    if steps == 0 then NaN else Finite(Max(1, FloorDiv(total, steps)))
  }

  /** The blocks `for (let b = from; b <= end; b += stride)` visits. */
  function Visits(b: Num, end: int, stride: Num): (r: seq<int>)
    requires stride.Finite? ==> stride.v >= 1
    ensures forall i :: 0 <= i < |r| ==> r[i] <= end
    decreases if b.Finite? && b.v <= end then end - b.v + 2 else 0
  {
    if b.NaN? || b.v > end then [] else [b.v] + Visits(NumAdd(b, stride), end, stride)
  }

  /** The loop's points, each priced by computeCurrentPrice; the first throw aborts. */
  function Priced(c: AuctionConfig, blocks: seq<int>): Outcome<seq<PricePoint>>
  {
    if exists i :: 0 <= i < |blocks| && CurrentPrice(c, blocks[i]).Throws? then Throws
    else Returns(seq(|blocks|, i requires 0 <= i < |blocks| => PricePoint(blocks[i], CurrentPrice(c, blocks[i]).value)))
  }

  lemma PricedSnoc(c: AuctionConfig, blocks: seq<int>, b: int)
    requires Priced(c, blocks).Returns? && CurrentPrice(c, b).Returns?
    ensures Priced(c, blocks + [b]) == Returns(Priced(c, blocks).value + [PricePoint(b, CurrentPrice(c, b).value)])
  {
    var bs := blocks + [b];
    forall i | 0 <= i < |bs| ensures CurrentPrice(c, bs[i]).Returns? {
      if i < |blocks| { assert bs[i] == blocks[i]; }
    }
    var lhs := Priced(c, bs).value;
    var rhs := Priced(c, blocks).value + [PricePoint(b, CurrentPrice(c, b).value)];
    assert |lhs| == |rhs|;
    forall i | 0 <= i < |lhs| ensures lhs[i] == rhs[i] {
      if i < |blocks| { assert bs[i] == blocks[i]; }
    }
    assert lhs == rhs;
  }

  lemma PricedThrows(c: AuctionConfig, blocks: seq<int>, i: nat)
    requires i < |blocks| && CurrentPrice(c, blocks[i]).Throws?
    ensures Priced(c, blocks) == Throws
  {
  }

  /** The end point is appended when the loop did not land on `end_block`. */
  function WithEnd(c: AuctionConfig, points: seq<PricePoint>): seq<PricePoint>
  {
    if |points| == 0 || points[|points| - 1].block != c.endBlock
    then points + [PricePoint(c.endBlock, c.floorPrice)]
    else points
  }

  /** What computePriceCurve returns. */
  function Curve(c: AuctionConfig): Outcome<seq<PricePoint>>
  {
    match Priced(c, Visits(Finite(c.startBlock), c.endBlock, Stride(c)))
    case Throws => Throws
    case Returns(points) => Returns(WithEnd(c, points))
  }

  /** computePriceCurve, as the loop that pushes one point per visited block. */
  method PriceCurve(c: AuctionConfig) returns (r: Outcome<seq<PricePoint>>)
    ensures r == Curve(c)
  {
    var step := Stride(c);
    ghost var all := Visits(Finite(c.startBlock), c.endBlock, step);
    var points: seq<PricePoint> := [];
    ghost var visited: seq<int> := [];
    var b := Finite(c.startBlock);
    assert Priced(c, visited).value == [];
    while b.Finite? && b.v <= c.endBlock
      invariant visited + Visits(b, c.endBlock, step) == all
      invariant Priced(c, visited) == Returns(points)
      decreases if b.Finite? && b.v <= c.endBlock then c.endBlock - b.v + 2 else 0
    {
      var p := CurrentPrice(c, b.v);
      ghost var next := Visits(NumAdd(b, step), c.endBlock, step);
      assert all == (visited + [b.v]) + next;
      if p.Throws? {
        PricedThrows(c, all, |visited|);
        return Throws;
      }
      PricedSnoc(c, visited, b.v);
      points := points + [PricePoint(b.v, p.value)];
      visited := visited + [b.v];
      b := NumAdd(b, step);
    }
    assert visited == all;
    if |points| == 0 || points[|points| - 1].block != c.endBlock {
      points := points + [PricePoint(c.endBlock, c.floorPrice)];
    }
    return Returns(points);
  }

  // ---------------------------------------------------------------------------
  // Properties of the curve

  /** The visited blocks start at `from`, rise strictly, and stay in `[from, end]`. */
  lemma {:induction false} VisitsShape(from: int, end: int, stride: int)
    requires stride >= 1
    ensures var r := Visits(Finite(from), end, Finite(stride));
      && (from <= end <==> |r| > 0)
      && (|r| > 0 ==> r[0] == from && r[|r| - 1] > end - stride)
      && (forall i :: 0 <= i < |r| ==> from <= r[i])
      && (forall i, j :: 0 <= i < j < |r| ==> r[i] < r[j])
    decreases end - from + 2
  {
    if from <= end {
      VisitsShape(from + stride, end, stride);
    }
  }

  /** With stride 1 every block from `from` to `end` is visited. */
  lemma {:induction false} VisitsEvery(from: int, end: int)
    requires from <= end + 1
    ensures var r := Visits(Finite(from), end, Finite(1));
      |r| == end - from + 1 && forall i :: 0 <= i < |r| ==> r[i] == from + i
    decreases end - from + 1
  {
    if from <= end {
      VisitsEvery(from + 1, end);
    }
  }

  /** computePriceCurve throws exactly when the decay interval is 0 and the window is not empty. */
  lemma {:induction false} CurveThrows(c: AuctionConfig)
    ensures Curve(c).Throws? <==> c.priceDecayBlocks == 0 && c.startBlock < c.endBlock
  {
    var s := Stride(c);
    var blocks := Visits(Finite(c.startBlock), c.endBlock, s);
    if c.startBlock < c.endBlock {
      VisitsShape(c.startBlock, c.endBlock, s.v);
      assert blocks[0] == c.startBlock;
    }
    if c.priceDecayBlocks != 0 || c.startBlock >= c.endBlock {
      forall i | 0 <= i < |blocks| ensures CurrentPrice(c, blocks[i]).Returns? {
        assert blocks[i] <= c.endBlock;
      }
    }
  }

  /** On a non-empty window the curve starts at `start_block`, rises strictly
      within the window, ends at `(end_block, floor_price)`, and every point
      is priced by computeCurrentPrice. */
  lemma {:induction false} CurveShape(c: AuctionConfig)
    requires c.priceDecayBlocks != 0 && c.startBlock < c.endBlock
    ensures Curve(c).Returns?
    ensures var pts := Curve(c).value;
      && |pts| > 0
      && pts[0].block == c.startBlock
      && pts[|pts| - 1] == PricePoint(c.endBlock, c.floorPrice)
      && (forall i :: 0 <= i < |pts| ==> c.startBlock <= pts[i].block <= c.endBlock)
      && (forall i, j :: 0 <= i < j < |pts| ==> pts[i].block < pts[j].block)
      && (forall i :: 0 <= i < |pts| ==> CurrentPrice(c, pts[i].block) == Returns(pts[i].price))
  {
    var s := Stride(c);
    var blocks := Visits(Finite(c.startBlock), c.endBlock, s);
    VisitsShape(c.startBlock, c.endBlock, s.v);
    CurveThrows(c);
    var points := Priced(c, blocks).value;
    assert |points| == |blocks|;
    assert forall i :: 0 <= i < |points| ==> points[i].block == blocks[i];
  }

  /** With at most 200 blocks in the window the stride is 1: every block
      appears once, in order, and nothing is appended. */
  lemma {:induction false} CurveDense(c: AuctionConfig)
    requires c.priceDecayBlocks != 0 && 0 < c.endBlock - c.startBlock <= 200
    ensures Stride(c) == Finite(1)
    ensures Curve(c).Returns?
    ensures var pts := Curve(c).value;
      |pts| == c.endBlock - c.startBlock + 1 && forall i :: 0 <= i < |pts| ==> pts[i].block == c.startBlock + i
  {
    var total := c.endBlock - c.startBlock;
    assert FloorDiv(total, total) == 1;
    VisitsEvery(c.startBlock, c.endBlock);
    CurveThrows(c);
  }

  /** An empty window yields its one block, and a reversed window (end before
      start) yields only the appended end point. */
  lemma {:induction false} CurveDegenerate(c: AuctionConfig)
    requires c.endBlock <= c.startBlock
    ensures c.endBlock == c.startBlock ==> Curve(c) == Returns([PricePoint(c.startBlock, c.floorPrice)])
    ensures c.endBlock < c.startBlock ==> Curve(c) == Returns([PricePoint(c.endBlock, c.floorPrice)])
  {
    var blocks := Visits(Finite(c.startBlock), c.endBlock, Stride(c));
    var none: seq<int> := [];
    assert Priced(c, none).value == [];
    if c.endBlock == c.startBlock {
      assert Visits(NaN, c.endBlock, NaN) == [];
      assert blocks == [c.startBlock];
      assert CurrentPrice(c, c.startBlock) == Returns(c.floorPrice);
      PricedSnoc(c, none, c.startBlock);
      assert none + [c.startBlock] == blocks;
      assert Priced(c, blocks) == Returns([] + [PricePoint(c.startBlock, c.floorPrice)]);
      var one := [PricePoint(c.startBlock, c.floorPrice)];
      assert [] + one == one;
      assert WithEnd(c, one) == one;
    } else {
      assert blocks == none;
      assert WithEnd(c, []) == [PricePoint(c.endBlock, c.floorPrice)];
    }
  }
}
