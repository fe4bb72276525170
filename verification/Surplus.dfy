/** The loop's trades are themselves an allocation of the resting shares: the maximum of the gains is attained. */
module Surplus {
  import opened Orders
  import opened Crossing
  import opened Clearing
  import BookHistory

  /** Shares each buy exchanges with each sell. */
  ghost function Traded(ts: seq<TradeRecord>, b: Book): Allocation {
    seq(|b.buys|, i requires 0 <= i < |b.buys| => RowOf(ts, b.buys[i].orderId, b.sells))
  }

  ghost function RowOf(ts: seq<TradeRecord>, buyId: int, sells: seq<Order>): seq<real> {
    seq(|sells|, j requires 0 <= j < |sells| => Between(ts, buyId, sells[j].orderId) as real)
  }

  ghost predicate Named(ts: seq<TradeRecord>, b: Book) {
    forall t :: t in ts ==> HasId(b.buys, t.buyOrderId) && HasId(b.sells, t.sellOrderId)
  }

  ghost function Place(q: seq<Order>, id: int): (i: nat)
    requires HasId(q, id)
    ensures i < |q| && q[i].orderId == id
  {
    var i :| 0 <= i < |q| && q[i].orderId == id;
    i
  }

  // ---------------------------------------------------------------- one entry changes

  lemma {:induction false} SumSet(row: seq<real>, j: nat, v: real)
    requires j < |row|
    ensures Sum(row[j := v]) == Sum(row) - row[j] + v
  {
    if j > 0 {
      assert row[j := v][1..] == row[1..][j - 1 := v];
      SumSet(row[1..], j - 1, v);
    } else {
      assert row[j := v][1..] == row[1..];
    }
  }

  lemma {:induction false} RowGainSet(row: seq<real>, j: nat, q: real, bid: real, sells: seq<Order>)
    requires j < |row| == |sells|
    ensures RowGain(row[j := row[j] + q], bid, sells) == RowGain(row, bid, sells) + q * (bid - sells[j].price)
  {
    if j > 0 {
      assert row[j := row[j] + q][1..] == row[1..][j - 1 := row[j] + q];
      RowGainSet(row[1..], j - 1, q, bid, sells[1..]);
    } else {
      assert row[j := row[j] + q][1..] == row[1..];
      assert (row[0] + q) * (bid - sells[0].price) == row[0] * (bid - sells[0].price) + q * (bid - sells[0].price);
    }
  }

  lemma {:induction false} GainSet(x: Allocation, i: nat, row: seq<real>, buys: seq<Order>, sells: seq<Order>)
    requires i < |x| == |buys| && Shaped(x, |sells|) && |row| == |sells|
    ensures Gain(x[i := row], buys, sells)
         == Gain(x, buys, sells) - RowGain(x[i], buys[i].price, sells) + RowGain(row, buys[i].price, sells)
  {
    if i > 0 {
      assert x[i := row][1..] == x[1..][i - 1 := row];
      GainSet(x[1..], i - 1, row, buys[1..], sells);
    } else {
      assert x[i := row][1..] == x[1..];
    }
  }

  lemma {:induction false} ColumnAt(x: Allocation, m: nat, j: nat)
    requires Shaped(x, m) && j < m
    ensures |Column(x, m, j)| == |x| && forall i :: 0 <= i < |x| ==> Column(x, m, j)[i] == x[i][j]
  {
    if x != [] {
      ColumnAt(x[1..], m, j);
    }
  }

  // ---------------------------------------------------------------- one trade more

  /** In front of other trades, a trade adds its shares to the entry of its two orders. */
  lemma TradedCons(t: TradeRecord, ts: seq<TradeRecord>, b: Book)
    requires HasId(b.buys, t.buyOrderId) && HasId(b.sells, t.sellOrderId) && DistinctIds(b.buys) && DistinctIds(b.sells)
    ensures var i, j := Place(b.buys, t.buyOrderId), Place(b.sells, t.sellOrderId);
            var x := Traded(ts, b);
            Traded([t] + ts, b) == x[i := x[i][j := x[i][j] + t.quantity as real]]
  {
    var i, j := Place(b.buys, t.buyOrderId), Place(b.sells, t.sellOrderId);
    forall k | 0 <= k < |b.buys|
      ensures RowOf([t] + ts, b.buys[k].orderId, b.sells)
           == var row := RowOf(ts, b.buys[k].orderId, b.sells);
              if k == i then row[j := row[j] + t.quantity as real] else row
    {
      RowCons(t, ts, b.buys[k].orderId, b.sells);
    }
  }

  lemma RowCons(t: TradeRecord, ts: seq<TradeRecord>, buyId: int, sells: seq<Order>)
    requires HasId(sells, t.sellOrderId) && DistinctIds(sells)
    ensures var j, row := Place(sells, t.sellOrderId), RowOf(ts, buyId, sells);
            RowOf([t] + ts, buyId, sells)
            == if t.buyOrderId == buyId then row[j := row[j] + t.quantity as real] else row
  {
    assert ([t] + ts)[1..] == ts;
  }

  lemma {:induction false} PriceAt(q: seq<Order>, i: nat)
    requires i < |q| && DistinctIds(q)
    ensures PriceOf(q, q[i].orderId) == q[i].price
  {
    if i > 0 {
      PriceAt(q[1..], i - 1);
    }
  }

  // ---------------------------------------------------------------- totals of the allocation

  lemma {:induction false} Zeros(row: seq<real>, bid: real, sells: seq<Order>)
    requires |row| == |sells| && forall j :: 0 <= j < |row| ==> row[j] == 0.0
    ensures Sum(row) == 0.0 && RowGain(row, bid, sells) == 0.0
  {
    if row != [] {
      Zeros(row[1..], bid, sells[1..]);
    }
  }

  lemma {:induction false} ZeroGain(x: Allocation, buys: seq<Order>, sells: seq<Order>)
    requires |x| == |buys| && Shaped(x, |sells|)
    requires forall i, j :: 0 <= i < |x| && 0 <= j < |x[i]| ==> x[i][j] == 0.0
    ensures Gain(x, buys, sells) == 0.0
  {
    if x != [] {
      Zeros(x[0], buys[0].price, sells);
      ZeroGain(x[1..], buys[1..], sells);
    }
  }

  /** The allocation gains what the trades gain. */
  lemma {:induction false} TradedGain(ts: seq<TradeRecord>, b: Book)
    requires Named(ts, b) && DistinctIds(b.buys) && DistinctIds(b.sells)
    ensures Gain(Traded(ts, b), b.buys, b.sells) == TradeGain(ts, b)
  {
    if ts == [] {
      ZeroGain(Traded(ts, b), b.buys, b.sells);
    } else {
      var t, rest := ts[0], ts[1..];
      assert t in ts && forall u :: u in rest ==> u in ts;
      TradedGain(rest, b);
      assert ts == [t] + rest;
      TradedCons(t, rest, b);
      OneGain(t, Traded(rest, b), b);
    }
  }

  lemma OneGain(t: TradeRecord, x: Allocation, b: Book)
    requires HasId(b.buys, t.buyOrderId) && HasId(b.sells, t.sellOrderId) && DistinctIds(b.buys) && DistinctIds(b.sells)
    requires |x| == |b.buys| && Shaped(x, |b.sells|)
    ensures var i, j := Place(b.buys, t.buyOrderId), Place(b.sells, t.sellOrderId);
            Gain(x[i := x[i][j := x[i][j] + t.quantity as real]], b.buys, b.sells)
            == Gain(x, b.buys, b.sells) + GainOf(t, b)
  {
    var i, j := Place(b.buys, t.buyOrderId), Place(b.sells, t.sellOrderId);
    PriceAt(b.buys, i);
    PriceAt(b.sells, j);
    var q := t.quantity as real;
    var row := x[i][j := x[i][j] + q];
    assert GainOf(t, b) == q * (b.buys[i].price - b.sells[j].price);
    RowGainSet(x[i], j, q, b.buys[i].price, b.sells);
    assert RowGain(row, b.buys[i].price, b.sells) == RowGain(x[i], b.buys[i].price, b.sells) + GainOf(t, b);
    GainSet(x, i, row, b.buys, b.sells);
  }

  lemma RowSumCons(t: TradeRecord, ts: seq<TradeRecord>, buyId: int, sells: seq<Order>)
    requires HasId(sells, t.sellOrderId) && DistinctIds(sells)
    ensures Sum(RowOf([t] + ts, buyId, sells))
         == Sum(RowOf(ts, buyId, sells)) + (if t.buyOrderId == buyId then t.quantity as real else 0.0)
  {
    RowCons(t, ts, buyId, sells);
    var row, j := RowOf(ts, buyId, sells), Place(sells, t.sellOrderId);
    SumSet(row, j, row[j] + t.quantity as real);
  }

  /** A row adds up to the shares its buy was filled with. */
  lemma {:induction false} RowSum(ts: seq<TradeRecord>, b: Book, i: nat)
    requires Named(ts, b) && DistinctIds(b.sells) && i < |b.buys|
    ensures Sum(RowOf(ts, b.buys[i].orderId, b.sells)) == FilledBy(ts, BUY, b.buys[i].orderId) as real
  {
    var id := b.buys[i].orderId;
    if ts == [] {
      Zeros(RowOf(ts, id, b.sells), 0.0, b.sells);
    } else {
      var t, rest := ts[0], ts[1..];
      assert t in ts && forall u :: u in rest ==> u in ts;
      RowSum(rest, b, i);
      assert ts == [t] + rest;
      RowSumCons(t, rest, id, b.sells);
    }
  }

  ghost function ColumnOf(ts: seq<TradeRecord>, buys: seq<Order>, sellId: int): seq<real> {
    seq(|buys|, i requires 0 <= i < |buys| => Between(ts, buys[i].orderId, sellId) as real)
  }

  lemma ColumnCons(t: TradeRecord, ts: seq<TradeRecord>, buys: seq<Order>, sellId: int)
    requires HasId(buys, t.buyOrderId) && DistinctIds(buys)
    ensures var i, col := Place(buys, t.buyOrderId), ColumnOf(ts, buys, sellId);
            ColumnOf([t] + ts, buys, sellId)
            == if t.sellOrderId == sellId then col[i := col[i] + t.quantity as real] else col
  {
    assert ([t] + ts)[1..] == ts;
  }

  lemma ColumnSumCons(t: TradeRecord, ts: seq<TradeRecord>, buys: seq<Order>, sellId: int)
    requires HasId(buys, t.buyOrderId) && DistinctIds(buys)
    ensures Sum(ColumnOf([t] + ts, buys, sellId))
         == Sum(ColumnOf(ts, buys, sellId)) + (if t.sellOrderId == sellId then t.quantity as real else 0.0)
  {
    ColumnCons(t, ts, buys, sellId);
    var col, i := ColumnOf(ts, buys, sellId), Place(buys, t.buyOrderId);
    SumSet(col, i, col[i] + t.quantity as real);
  }

  /** A column adds up to the shares its sell was filled with. */
  lemma {:induction false} ColumnSum(ts: seq<TradeRecord>, b: Book, j: nat)
    requires Named(ts, b) && DistinctIds(b.buys) && j < |b.sells|
    ensures Sum(ColumnOf(ts, b.buys, b.sells[j].orderId)) == FilledBy(ts, SELL, b.sells[j].orderId) as real
  {
    var id := b.sells[j].orderId;
    if ts == [] {
      Zeros(ColumnOf(ts, b.buys, id), 0.0, b.buys);
    } else {
      var t, rest := ts[0], ts[1..];
      assert t in ts && forall u :: u in rest ==> u in ts;
      ColumnSum(rest, b, j);
      assert ts == [t] + rest;
      ColumnSumCons(t, rest, b.buys, id);
    }
  }

  // ---------------------------------------------------------------- no overfill

  lemma RemainingAfterFill(q: seq<Order>, qty: int, p: real, k: nat) returns (l: nat)
    requires q != [] && k < |q| && !(k == 0 && HeadErased(q, qty))
    ensures var r := FillTop(q, qty, p);
            && l < |r| && r[l].orderId == q[k].orderId
            && r[l].Remaining() == q[k].Remaining() - (if k == 0 then qty else 0)
  {
    l := k - (|q| - |FillTop(q, qty, p)|);
  }

  /** The loop never gives an order more shares than it had left. */
  lemma {:induction false} FillsFit(symbol: string, b: Book, side: OrderSide, k: nat)
    requires ValidBook(b) && k < |b.Side(side)|
    ensures FilledBy(Match(symbol, b).trades, side, b.Side(side)[k].orderId) <= b.Side(side)[k].Remaining()
    decreases |b.buys| + |b.sells|
  {
    if Crossed(b) {
      var q, qty, e := b.Side(side), TradeQty(b), Execute(b);
      var rest := Match(symbol, e).trades;
      ExecuteValid(b);
      assert Match(symbol, b).trades == [TopTrade(symbol, b)] + rest;
      if k == 0 && HeadErased(q, qty) {
        TradeFacts(symbol, e);
        ErasedIsGone(q, qty, ExecPrice(b));
        BookHistory.UnnamedUnfilled(rest, side, q[0].orderId, 0.0);
      } else {
        var l := RemainingAfterFill(q, qty, ExecPrice(b), k);
        FillsFit(symbol, e, side, l);
      }
    }
  }

  lemma BetweenNonNegative(ts: seq<TradeRecord>, buyId: int, sellId: int)
    requires forall t :: t in ts ==> t.quantity >= 0
    ensures Between(ts, buyId, sellId) >= 0
  {
    if ts != [] {
      assert ts[0] in ts && forall t :: t in ts[1..] ==> t in ts;
      BetweenNonNegative(ts[1..], buyId, sellId);
    }
  }

  // ---------------------------------------------------------------- the maximum

  lemma RowFits(symbol: string, b: Book, i: nat)
    requires ValidBook(b) && i < |b.buys|
    ensures var row := RowOf(Match(symbol, b).trades, b.buys[i].orderId, b.sells);
            NonNegative(row) && Sum(row) <= b.buys[i].Remaining() as real
  {
    var ts := Match(symbol, b).trades;
    TradeFacts(symbol, b);
    RowSum(ts, b, i);
    FillsFit(symbol, b, BUY, i);
    forall j | 0 <= j < |b.sells|
      ensures Between(ts, b.buys[i].orderId, b.sells[j].orderId) >= 0
    {
      BetweenNonNegative(ts, b.buys[i].orderId, b.sells[j].orderId);
    }
  }

  lemma ColumnFits(symbol: string, b: Book, j: nat)
    requires ValidBook(b) && j < |b.sells|
    ensures Sum(Column(Traded(Match(symbol, b).trades, b), |b.sells|, j)) <= b.sells[j].Remaining() as real
  {
    var ts := Match(symbol, b).trades;
    TradeFacts(symbol, b);
    ColumnSum(ts, b, j);
    FillsFit(symbol, b, SELL, j);
    ColumnAt(Traded(ts, b), |b.sells|, j);
    assert Column(Traded(ts, b), |b.sells|, j) == ColumnOf(ts, b.buys, b.sells[j].orderId);
  }

  /** The loop's trades are a feasible allocation, and no feasible allocation gains more. */
  lemma MaximumAttained(symbol: string, b: Book)
    requires ValidBook(b)
    ensures var x := Traded(Match(symbol, b).trades, b);
            && Feasible(x, b) && Gain(x, b.buys, b.sells) == TradeGain(Match(symbol, b).trades, b)
            && forall y :: Feasible(y, b) ==> Gain(y, b.buys, b.sells) <= Gain(x, b.buys, b.sells)
  {
    var ts := Match(symbol, b).trades;
    TradeFacts(symbol, b);
    TradedGain(ts, b);
    forall i | 0 <= i < |b.buys|
      ensures var row := Traded(ts, b)[i]; NonNegative(row) && Sum(row) <= b.buys[i].Remaining() as real
    {
      RowFits(symbol, b, i);
    }
    forall j | 0 <= j < |b.sells|
      ensures Sum(Column(Traded(ts, b), |b.sells|, j)) <= b.sells[j].Remaining() as real
    {
      ColumnFits(symbol, b, j);
    }
    forall y | Feasible(y, b)
      ensures Gain(y, b.buys, b.sells) <= TradeGain(ts, b)
    {
      GainsAreMaximal(symbol, b, y);
    }
  }
}
