/** The crossing loop as a call auction: its volume clears the market and its gains from trade are maximal. */
module Clearing {
  import opened Orders
  import opened Crossing

  /** Shares on offer on one side at a single price p. */
  function VolumeAt(q: seq<Order>, side: OrderSide, p: real): int {
    if q == [] then 0
    else (if Willing(q[0], side, p) then q[0].Remaining() else 0) + VolumeAt(q[1..], side, p)
  }

  /** What could trade if everybody had to trade at p. */
  function TradableAt(b: Book, p: real): int {
    Min(VolumeAt(b.buys, BUY, p), VolumeAt(b.sells, SELL, p))
  }

  /** How far an order's limit is on the good side of p, or 0. */
  function Edge(o: Order, side: OrderSide, p: real): real {
    if !Willing(o, side, p) then 0.0 else if side == BUY then o.price - p else p - o.price
  }

  /** The dual objective: everybody's gain if all willing shares could trade at p. */
  function DualValue(q: seq<Order>, side: OrderSide, p: real): real {
    if q == [] then 0.0 else q[0].Remaining() as real * Edge(q[0], side, p) + DualValue(q[1..], side, p)
  }

  /** Gain of one trade: what its buyer bid less what its seller asked, over the shares traded. */
  function GainOf(t: TradeRecord, b: Book): real {
    t.quantity as real * (PriceOf(b.buys, t.buyOrderId) - PriceOf(b.sells, t.sellOrderId))
  }

  function TradeGain(ts: seq<TradeRecord>, b: Book): real {
    if ts == [] then 0.0 else GainOf(ts[0], b) + TradeGain(ts[1..], b)
  }

  // ---------------------------------------------------------------- one iteration

  lemma FillTopVolumeAt(q: seq<Order>, qty: int, e: real, side: OrderSide, p: real)
    requires q != [] && qty <= q[0].Remaining()
    ensures VolumeAt(FillTop(q, qty, e), side, p)
         == VolumeAt(q, side, p) - (if Willing(q[0], side, p) then qty else 0)
  {
    var r := FillTop(q, qty, e);
    if |r| == |q| {
      assert r[1..] == q[1..];
    }
  }

  lemma FillTopDual(q: seq<Order>, qty: int, e: real, side: OrderSide, p: real)
    requires q != [] && qty <= q[0].Remaining()
    ensures DualValue(FillTop(q, qty, e), side, p) == DualValue(q, side, p) - qty as real * Edge(q[0], side, p)
  {
    var r := FillTop(q, qty, e);
    SplitProduct(q[0].Remaining(), qty, Edge(q[0], side, p));
    if |r| == |q| {
      assert r[1..] == q[1..];
      assert Edge(r[0], side, p) == Edge(q[0], side, p) && r[0].Remaining() == q[0].Remaining() - qty;
    } else {
      assert q[0].Remaining() == qty;
    }
  }

  lemma SplitProduct(n: int, k: int, edge: real)
    ensures n as real * edge == k as real * edge + (n - k) as real * edge
  {
  }

  /** On an uncrossed book nothing can trade at any single price. */
  lemma UncrossedNothingTradable(b: Book, p: real)
    requires ValidBook(b) && !Crossed(b)
    ensures TradableAt(b, p) == 0
  {
    VolumeAtBounds(b.buys, BUY, p);
    VolumeAtBounds(b.sells, SELL, p);
  }

  /** Volume at p is never negative, and is nothing when the best order of the side is not willing. */
  lemma {:induction false} VolumeAtBounds(q: seq<Order>, side: OrderSide, p: real)
    requires ValidQueue(side, q)
    ensures VolumeAt(q, side, p) >= 0
    ensures q == [] || !Willing(q[0], side, p) ==> VolumeAt(q, side, p) == 0
  {
    if q != [] {
      VolumeAtBounds(q[1..], side, p);
    }
  }

  /** The same for the dual objective. */
  lemma {:induction false} DualBounds(q: seq<Order>, side: OrderSide, p: real)
    requires ValidQueue(side, q)
    requires q == [] || !Willing(q[0], side, p) || q[0].price == p
    ensures DualValue(q, side, p) == 0.0
  {
    if q != [] {
      DualBounds(q[1..], side, p);
    }
  }

  // ---------------------------------------------------------------- clearing volume

  /** No single price could trade more than the loop trades. */
  lemma {:induction false} VolumeIsAnUpperBound(symbol: string, b: Book, p: real)
    requires ValidBook(b)
    ensures TradableAt(b, p) <= Volume(Match(symbol, b).trades)
    decreases |b.buys| + |b.sells|
  {
    if Crossed(b) {
      ExecuteValid(b);
      var e := Execute(b);
      VolumeIsAnUpperBound(symbol, e, p);
      FillTopVolumeAt(b.buys, TradeQty(b), ExecPrice(b), BUY, p);
      FillTopVolumeAt(b.sells, TradeQty(b), ExecPrice(b), SELL, p);
      assert Match(symbol, b).trades == [TopTrade(symbol, b)] + Match(symbol, e).trades;
    } else {
      UncrossedNothingTradable(b, p);
    }
  }

  /** p trades the loop's whole volume and leaves no gain unrealised. */
  ghost predicate Clears(symbol: string, b: Book, p: real) {
    var ts := Match(symbol, b).trades;
    && Volume(ts) <= VolumeAt(b.buys, BUY, p)
    && Volume(ts) <= VolumeAt(b.sells, SELL, p)
    && TradeGain(ts, b) == DualValue(b.buys, BUY, p) + DualValue(b.sells, SELL, p)
  }

  ghost predicate SamePrices(t: TradeRecord, b: Book, e: Book) {
    && PriceOf(b.buys, t.buyOrderId) == PriceOf(e.buys, t.buyOrderId)
    && PriceOf(b.sells, t.sellOrderId) == PriceOf(e.sells, t.sellOrderId)
  }

  lemma SameGain(t: TradeRecord, b: Book, e: Book)
    requires SamePrices(t, b, e)
    ensures GainOf(t, b) == GainOf(t, e)
  {
  }

  /** Trades are worth the same in two books that agree on the limits of the orders they name. */
  lemma {:induction false} GainUnchanged(ts: seq<TradeRecord>, b: Book, e: Book)
    requires forall t :: t in ts ==> SamePrices(t, b, e)
    ensures TradeGain(ts, b) == TradeGain(ts, e)
  {
    if ts != [] {
      assert ts[0] in ts && forall u :: u in ts[1..] ==> u in ts;
      SameGain(ts[0], b, e);
      GainUnchanged(ts[1..], b, e);
    }
  }

  lemma PricesUnchanged(t: TradeRecord, b: Book)
    requires ValidBook(b) && Crossed(b)
    requires HasId(Execute(b).buys, t.buyOrderId) && HasId(Execute(b).sells, t.sellOrderId)
    ensures SamePrices(t, b, Execute(b))
  {
    FillTopPrice(b.buys, TradeQty(b), ExecPrice(b), t.buyOrderId);
    FillTopPrice(b.sells, TradeQty(b), ExecPrice(b), t.sellOrderId);
  }

  /** A price between the two best limits at which the uncrossed rest of the book has no willing trader. */
  lemma SeparatingPrice(b: Book, e: Book) returns (p: real)
    requires ValidBook(b) && Crossed(b) && e == Execute(b) && ValidBook(e) && !Crossed(e)
    ensures b.sells[0].price <= p <= b.buys[0].price
    ensures DualValue(e.buys, BUY, p) == 0.0 && DualValue(e.sells, SELL, p) == 0.0
    ensures VolumeAt(e.buys, BUY, p) >= 0 && VolumeAt(e.sells, SELL, p) >= 0
  {
    var ask := b.sells[0].price;
    p := if e.buys != [] && e.buys[0].price > ask then e.buys[0].price else ask;
    DualBounds(e.buys, BUY, p);
    DualBounds(e.sells, SELL, p);
    VolumeAtBounds(e.buys, BUY, p);
    VolumeAtBounds(e.sells, SELL, p);
  }

  /** If p clears what is left after an iteration and lies between the best limits, it clears the book. */
  lemma ClearsBefore(symbol: string, b: Book, p: real)
    requires ValidBook(b) && Crossed(b) && ValidBook(Execute(b)) && Clears(symbol, Execute(b), p)
    requires b.sells[0].price <= p <= b.buys[0].price
    ensures Clears(symbol, b, p)
  {
    var qty, rest := TradeQty(b), Match(symbol, Execute(b)).trades;
    FillTopVolumeAt(b.buys, qty, ExecPrice(b), BUY, p);
    FillTopVolumeAt(b.sells, qty, ExecPrice(b), SELL, p);
    DualBefore(symbol, b, p);
    GainBefore(symbol, b);
    assert Match(symbol, b).trades == [TopTrade(symbol, b)] + rest;
  }

  /** One iteration gains exactly what it takes off the dual objective at p. */
  lemma DualBefore(symbol: string, b: Book, p: real)
    requires Crossed(b) && b.sells[0].price <= p <= b.buys[0].price
    ensures DualValue(b.buys, BUY, p) + DualValue(b.sells, SELL, p)
         == GainOf(TopTrade(symbol, b), b) + DualValue(Execute(b).buys, BUY, p) + DualValue(Execute(b).sells, SELL, p)
  {
    FillTopDual(b.buys, TradeQty(b), ExecPrice(b), BUY, p);
    FillTopDual(b.sells, TradeQty(b), ExecPrice(b), SELL, p);
    HeadGain(symbol, b, p);
  }

  lemma GainBefore(symbol: string, b: Book)
    requires ValidBook(b) && Crossed(b)
    ensures TradeGain(Match(symbol, b).trades, b)
         == GainOf(TopTrade(symbol, b), b) + TradeGain(Match(symbol, Execute(b)).trades, Execute(b))
  {
    var rest := Match(symbol, Execute(b)).trades;
    ExecuteValid(b);
    TradeFacts(symbol, Execute(b));
    forall t | t in rest
      ensures SamePrices(t, b, Execute(b))
    {
      PricesUnchanged(t, b);
    }
    GainUnchanged(rest, b, Execute(b));
    assert Match(symbol, b).trades == [TopTrade(symbol, b)] + rest;
  }

  lemma HeadGain(symbol: string, b: Book, p: real)
    requires Crossed(b) && b.sells[0].price <= p <= b.buys[0].price
    ensures GainOf(TopTrade(symbol, b), b)
         == TradeQty(b) as real * Edge(b.buys[0], BUY, p) + TradeQty(b) as real * Edge(b.sells[0], SELL, p)
  {
    var qty, bid, ask := TradeQty(b) as real, b.buys[0].price, b.sells[0].price;
    assert qty * (bid - ask) == qty * (bid - p) + qty * (p - ask);
    assert PriceOf(b.buys, b.buys[0].orderId) == bid && PriceOf(b.sells, b.sells[0].orderId) == ask;
  }

  /** A clearing price exists, and lies between the best limits when the book is crossed. */
  lemma {:induction false} ClearingPrice(symbol: string, b: Book) returns (p: real)
    requires ValidBook(b)
    ensures Clears(symbol, b, p)
    ensures Crossed(b) ==> b.sells[0].price <= p <= b.buys[0].price
    decreases |b.buys| + |b.sells|
  {
    if !Crossed(b) {
      p := if b.buys != [] then b.buys[0].price else if b.sells != [] then b.sells[0].price else 0.0;
      DualBounds(b.buys, BUY, p);
      DualBounds(b.sells, SELL, p);
      VolumeAtBounds(b.buys, BUY, p);
      VolumeAtBounds(b.sells, SELL, p);
    } else {
      var e := Execute(b);
      ExecuteValid(b);
      if Crossed(e) {
        p := ClearingPrice(symbol, e);
      } else {
        p := SeparatingPrice(b, e);
        assert Match(symbol, e).trades == [];
      }
      ClearsBefore(symbol, b, p);
    }
  }

  /** The loop trades exactly the most that any single price could trade. */
  lemma ClearingVolume(symbol: string, b: Book)
    requires ValidBook(b)
    ensures forall p: real :: TradableAt(b, p) <= Volume(Match(symbol, b).trades)
    ensures exists p: real :: TradableAt(b, p) == Volume(Match(symbol, b).trades)
  {
    forall p: real
      ensures TradableAt(b, p) <= Volume(Match(symbol, b).trades)
    {
      VolumeIsAnUpperBound(symbol, b, p);
    }
    var p := ClearingPrice(symbol, b);
    assert TradableAt(b, p) == Volume(Match(symbol, b).trades);
  }

  // ---------------------------------------------------------------- maximal gains from trade

  /** An allocation: one row per buy, one column per sell. */
  type Allocation = seq<seq<real>>

  function Sum(row: seq<real>): real {
    if row == [] then 0.0 else row[0] + Sum(row[1..])
  }

  ghost predicate Shaped(x: Allocation, columns: nat) {
    forall i :: 0 <= i < |x| ==> |x[i]| == columns
  }

  ghost function Column(x: Allocation, columns: nat, j: nat): seq<real>
    requires Shaped(x, columns) && j < columns
  {
    if x == [] then [] else [x[0][j]] + Column(x[1..], columns, j)
  }

  ghost predicate NonNegative(row: seq<real>) {
    forall j :: 0 <= j < |row| ==> row[j] >= 0.0
  }

  /** Nothing negative, and nobody trades more than they have left. */
  ghost predicate Feasible(x: Allocation, b: Book) {
    && |x| == |b.buys| && Shaped(x, |b.sells|)
    && (forall i :: 0 <= i < |x| ==> NonNegative(x[i]) && Sum(x[i]) <= b.buys[i].Remaining() as real)
    && (forall j :: 0 <= j < |b.sells| ==> Sum(Column(x, |b.sells|, j)) <= b.sells[j].Remaining() as real)
  }

  function RowGain(row: seq<real>, bid: real, sells: seq<Order>): real
    requires |row| == |sells|
  {
    if row == [] then 0.0 else row[0] * (bid - sells[0].price) + RowGain(row[1..], bid, sells[1..])
  }

  ghost function Gain(x: Allocation, buys: seq<Order>, sells: seq<Order>): real
    requires |x| == |buys| && Shaped(x, |sells|)
  {
    if x == [] then 0.0 else RowGain(x[0], buys[0].price, sells) + Gain(x[1..], buys[1..], sells)
  }

  /** The sellers' edge at p weighted by the shares in a row. */
  function Weighted(row: seq<real>, sells: seq<Order>, p: real): real
    requires |row| == |sells|
  {
    if row == [] then 0.0 else row[0] * Edge(sells[0], SELL, p) + Weighted(row[1..], sells[1..], p)
  }

  function Scaled(row: seq<real>, k: real): real {
    if row == [] then 0.0 else row[0] * k + Scaled(row[1..], k)
  }

  lemma {:induction false} ScaledIsSum(row: seq<real>, k: real)
    ensures Scaled(row, k) == Sum(row) * k
  {
    if row != [] {
      ScaledIsSum(row[1..], k);
    }
  }

  lemma {:induction false} RowBound(row: seq<real>, bid: real, edge: real, sells: seq<Order>, p: real)
    requires |row| == |sells| && NonNegative(row) && bid - p <= edge && 0.0 <= edge
    ensures RowGain(row, bid, sells) <= Scaled(row, edge) + Weighted(row, sells, p)
  {
    if row != [] {
      RowBound(row[1..], bid, edge, sells[1..], p);
      SpreadBound(row[0], bid - sells[0].price, edge, Edge(sells[0], SELL, p));
    }
  }

  lemma SpreadBound(k: real, spread: real, u: real, v: real)
    requires k >= 0.0 && spread <= u + v
    ensures k * spread <= k * u + k * v
  {
    Scale(k, spread, u + v);
    assert k * (u + v) == k * u + k * v;
  }

  lemma Scale(k: real, a: real, b: real)
    requires k >= 0.0 && a <= b
    ensures k * a <= k * b && a * k <= b * k
  {
  }

  /** Totals of the columns, as one row. */
  ghost function Totals(x: Allocation, m: nat): (r: seq<real>)
    requires Shaped(x, m)
    ensures |r| == m
  {
    if x == [] then seq(m, _ => 0.0) else Add(x[0], Totals(x[1..], m))
  }

  function Add(a: seq<real>, b: seq<real>): (r: seq<real>)
    requires |a| == |b|
    ensures |r| == |a| && forall j :: 0 <= j < |a| ==> r[j] == a[j] + b[j]
  {
    if a == [] then [] else [a[0] + b[0]] + Add(a[1..], b[1..])
  }

  lemma {:induction false} TotalsAreColumnSums(x: Allocation, m: nat, j: nat)
    requires Shaped(x, m) && j < m
    ensures Totals(x, m)[j] == Sum(Column(x, m, j))
  {
    if x != [] {
      TotalsAreColumnSums(x[1..], m, j);
      assert Column(x, m, j)[1..] == Column(x[1..], m, j);
    }
  }

  lemma {:induction false} WeightedAdd(a: seq<real>, b: seq<real>, sells: seq<Order>, p: real)
    requires |a| == |b| == |sells|
    ensures Weighted(Add(a, b), sells, p) == Weighted(a, sells, p) + Weighted(b, sells, p)
  {
    if a != [] {
      WeightedAdd(a[1..], b[1..], sells[1..], p);
      assert Add(a, b)[1..] == Add(a[1..], b[1..]);
      var v := Edge(sells[0], SELL, p);
      assert (a[0] + b[0]) * v == a[0] * v + b[0] * v;
    }
  }

  lemma {:induction false} WeightedBound(row: seq<real>, sells: seq<Order>, p: real)
    requires |row| == |sells| && forall j :: 0 <= j < |row| ==> row[j] <= sells[j].Remaining() as real
    ensures Weighted(row, sells, p) <= DualValue(sells, SELL, p)
  {
    if row != [] {
      WeightedBound(row[1..], sells[1..], p);
      Scale(Edge(sells[0], SELL, p), row[0], sells[0].Remaining() as real);
    }
  }

  lemma {:induction false} WeightedZero(m: nat, sells: seq<Order>, p: real)
    requires m == |sells|
    ensures Weighted(seq(m, _ => 0.0), sells, p) == 0.0
  {
    if m > 0 {
      WeightedZero(m - 1, sells[1..], p);
      assert seq(m, _ => 0.0)[1..] == seq(m - 1, _ => 0.0);
    }
  }

  /** Row by row: the gain of an allocation is bounded by the buyers' edge and the column totals. */
  lemma {:induction false} GainBound(x: Allocation, buys: seq<Order>, sells: seq<Order>, p: real)
    requires |x| == |buys| && Shaped(x, |sells|)
    requires forall i :: 0 <= i < |x| ==> NonNegative(x[i]) && Sum(x[i]) <= buys[i].Remaining() as real
    ensures Gain(x, buys, sells) <= DualValue(buys, BUY, p) + Weighted(Totals(x, |sells|), sells, p)
  {
    if x == [] {
      WeightedZero(|sells|, sells, p);
    } else {
      GainBound(x[1..], buys[1..], sells, p);
      FirstRowBound(x[0], Totals(x[1..], |sells|), buys[0].price, Edge(buys[0], BUY, p),
                    buys[0].Remaining() as real, sells, p);
    }
  }

  lemma FirstRowBound(row: seq<real>, others: seq<real>, bid: real, edge: real, cap: real, sells: seq<Order>, p: real)
    requires |row| == |others| == |sells| && NonNegative(row) && Sum(row) <= cap
    requires bid - p <= edge && 0.0 <= edge
    ensures RowGain(row, bid, sells) + Weighted(others, sells, p) <= cap * edge + Weighted(Add(row, others), sells, p)
  {
    RowBound(row, bid, edge, sells, p);
    WeightedAdd(row, others, sells, p);
    ScaledBound(row, edge, cap);
  }

  lemma ScaledBound(row: seq<real>, k: real, cap: real)
    requires Sum(row) <= cap && k >= 0.0
    ensures Scaled(row, k) <= cap * k
  {
    ScaledIsSum(row, k);
    Scale(k, Sum(row), cap);
  }

  /** Weak duality: at any price, no feasible allocation gains more than the dual objective. */
  lemma WeakDuality(x: Allocation, b: Book, p: real)
    requires Feasible(x, b)
    ensures Gain(x, b.buys, b.sells) <= DualValue(b.buys, BUY, p) + DualValue(b.sells, SELL, p)
  {
    GainBound(x, b.buys, b.sells, p);
    forall j | 0 <= j < |b.sells|
      ensures Totals(x, |b.sells|)[j] <= b.sells[j].Remaining() as real
    {
      TotalsAreColumnSums(x, |b.sells|, j);
    }
    WeightedBound(Totals(x, |b.sells|), b.sells, p);
  }

  /** No way of pairing up the resting shares gains more than the loop's trades do. */
  lemma GainsAreMaximal(symbol: string, b: Book, x: Allocation)
    requires ValidBook(b) && Feasible(x, b)
    ensures forall t :: t in Match(symbol, b).trades ==> HasId(b.buys, t.buyOrderId) && HasId(b.sells, t.sellOrderId)
    ensures Gain(x, b.buys, b.sells) <= TradeGain(Match(symbol, b).trades, b)
  {
    TradeFacts(symbol, b);
    var p := ClearingPrice(symbol, b);
    WeakDuality(x, b, p);
  }
}
