/** Values shared by the order-book class and the threads: committing trades, and how orders are made. */
module Ledger {
  import opened Orders

  const MAX_HISTORY := 1000

  /** The last n elements, or all of them. */
  function LastN<T>(s: seq<T>, n: nat): seq<T> {
    if |s| <= n then s else s[|s| - n..]
  }

  /** It is the end of the sequence: as long as asked for, or all there is. */
  lemma LastNIs<T>(s: seq<T>, n: nat)
    ensures |LastN(s, n)| == Min(n, |s|)
    ensures forall k :: 0 <= k < |LastN(s, n)| ==> LastN(s, n)[k] == s[|s| - |LastN(s, n)| + k]
  {
  }

  lemma LastNConcat<T>(p: seq<T>, b: seq<T>, n: nat)
    ensures LastN(LastN(p, n) + b, n) == LastN(p + b, n)
  {
  }

  /** Stock after a batch of trades: only the last price counts for the range, every share for the volume. */
  function Commit(stock: Stock, trades: seq<TradeRecord>): Stock
    requires trades != []
  {
    var priced := stock.Priced(trades[|trades| - 1].price);
    priced.(volume := stock.volume + Volume(trades))
  }

  /** The last trade of the batch sets the price and alone stretches the range; every trade adds to the volume. */
  lemma CommitFields(stock: Stock, trades: seq<TradeRecord>)
    requires trades != []
    ensures var n, last := Commit(stock, trades), trades[|trades| - 1].price;
            && n.currentPrice == last && n.openPrice == stock.openPrice && n.volume == stock.volume + Volume(trades)
            && n.highPrice == (if stock.highPrice < last then last else stock.highPrice)
            && n.lowPrice == (if last < stock.lowPrice then last else stock.lowPrice)
  {
    PricedFields(stock, trades[|trades| - 1].price);
  }

  /** Trades of one symbol, in execution order. */
  function OfSymbol(ts: seq<TradeRecord>, symbol: string): seq<TradeRecord> {
    if ts == [] then []
    else
      var n := |ts| - 1;
      var rest := OfSymbol(ts[..n], symbol);
      if ts[n].symbol == symbol then rest + [ts[n]] else rest
  }

  lemma OfSymbolAppend(ts: seq<TradeRecord>, t: TradeRecord, symbol: string)
    ensures OfSymbol(ts + [t], symbol)
         == if t.symbol == symbol then OfSymbol(ts, symbol) + [t] else OfSymbol(ts, symbol)
  {
    assert (ts + [t])[..|ts|] == ts;
  }

  const FLOOR := 0.01

  /** std::round: to the nearest integer, halves away from zero. */
  function Round(x: real): int {
    if x >= 0.0 then (x + 0.5).Floor else -((0.5 - x).Floor)
  }

  function RoundToCents(x: real): real {
    Round(x * 100.0) as real / 100.0
  }

  /** The nearest integer, and of two equally near the one away from zero. */
  lemma RoundIs(x: real)
    ensures x >= 0.0 ==> Round(x) as real - 0.5 <= x < Round(x) as real + 0.5
    ensures x < 0.0 ==> Round(x) as real - 0.5 < x <= Round(x) as real + 0.5
  {
  }

  /** Within 5% of the market: `draw` is in 0..1000, in hundredths of a percent from the bottom. */
  function Factor(draw: int): real {
    1.0 + (draw - 500) as real / 10000.0
  }

  function Times(a: real, b: real): real {
    a * b
  }

  function Exact(market: real, draw: int): real {
    Times(market, Factor(draw))
  }

  function LimitPrice(market: real, draw: int): real {
    RoundToCents(Exact(market, draw))
  }

  /** What a trader draws at random for one order. */
  datatype Draw = Draw(symbol: string, limit: bool, buy: bool, lot: nat, offset: nat)

  predicate ValidDraw(symbols: seq<string>, d: Draw) {
    d.symbol in symbols && d.lot < 100 && d.offset < 1001
  }

  /** The price a trader goes by: the stock's, or 100 when it is not listed. */
  function Seen(stocks: map<string, Stock>, x: string): real {
    if x in stocks then stocks[x].currentPrice else 100.0
  }

  function NewOrder(orderId: int, traderId: int, d: Draw, market: real): Order {
    Order(orderId, traderId, d.symbol,
          if d.limit then LIMIT else MARKET, if d.buy then BUY else SELL,
          if d.limit then LimitPrice(market, d.offset) else 0.0,
          d.lot + 1, 0, 0.0)
  }

  /** The maker never publishes a price below the floor. */
  function Clamp(p: real): real {
    if p < FLOOR then FLOOR else p
  }

  /** A price of at least a cent is published as it is, any other as a cent. */
  lemma ClampIs(p: real)
    ensures Clamp(p) == if p >= 0.01 then p else 0.01
  {
  }

  /** The draw moves a limit evenly from 5% below the market to 5% above it; half way is the market itself. */
  lemma FactorIs(draw: int)
    ensures Factor(draw) == 0.95 + draw as real / 10000.0
    ensures Factor(0) == 0.95 && Factor(500) == 1.0 && Factor(1000) == 1.05
  {
  }

  lemma LimitIs(market: real, draw: int)
    ensures -0.005 <= LimitPrice(market, draw) - market * (0.95 + draw as real / 10000.0) <= 0.005
    ensures WholeCents(LimitPrice(market, draw))
  {
    FactorIs(draw);
    Rounded(Exact(market, draw));
    ExactIs(market, draw);
  }

  lemma ExactIs(market: real, draw: int)
    ensures Exact(market, draw) == market * (0.95 + draw as real / 10000.0)
  {
    FactorIs(draw);
    assert Exact(market, draw) == Times(market, 0.95 + draw as real / 10000.0);
  }

  /** At draw 500 a market price in whole cents is the limit itself. */
  lemma LimitAtMarket(market: real)
    requires WholeCents(market)
    ensures LimitPrice(market, 500) == market
  {
    FactorIs(500);
    TimesOne(market);
    RoundIs(market * 100.0);
    WholeIsRounded(market * 100.0);
  }

  lemma TimesOne(a: real)
    ensures Times(a, 1.0) == a
  {
  }

  lemma WholeIsRounded(x: real)
    requires x.Floor as real == x
    ensures Round(x) as real == x
  {
    RoundIs(x);
    SameInteger(Round(x), x.Floor);
  }

  lemma SameInteger(a: int, b: int)
    requires -0.5 <= a as real - b as real <= 0.5
    ensures a == b
  {
    assert (a - b) as real == a as real - b as real;
  }

  /** Field by field, the order that a draw makes. */
  lemma NewOrderFields(orderId: int, traderId: int, d: Draw, market: real)
    ensures var o := NewOrder(orderId, traderId, d, market);
            && o.orderId == orderId && o.traderId == traderId && o.symbol == d.symbol
            && (o.kind == LIMIT <==> d.limit) && (o.side == BUY <==> d.buy)
            && o.quantity == d.lot + 1 && o.filledQty == 0 && o.avgFillPrice == 0.0
            && (!d.limit ==> o.price == 0.0)
            && (d.limit ==> -0.005 <= o.price - market * (0.95 + d.offset as real / 10000.0) <= 0.005)
            && (d.limit ==> WholeCents(o.price))
  {
    LimitIs(market, d.offset);
  }

  /** Field by field: the draw's order, at the stock's price if it is a market order, else at most 5% from it. */
  ghost predicate HandsIn(o: Order, id: int, traderId: int, d: Draw, market: real) {
    && o.orderId == id && o.traderId == traderId && o.symbol == d.symbol
    && (o.kind == LIMIT <==> d.limit) && (o.side == BUY <==> d.buy)
    && o.quantity == d.lot + 1 && o.filledQty == 0
    && (!d.limit ==> o.price == market)
    && (d.limit ==> -0.005 <= o.price - market * (0.95 + d.offset as real / 10000.0) <= 0.005)
  }

  /** Rounding to cents cannot take a limit order below the floor. */
  lemma LimitAboveFloor(market: real, draw: int)
    requires market >= FLOOR && 0 <= draw <= 1000
    ensures LimitPrice(market, draw) >= FLOOR
  {
    assert Factor(draw) >= 0.95;
    Product(market, Factor(draw));
    assert Round(Exact(market, draw) * 100.0) >= 1;
  }

  lemma Rounded(x: real)
    ensures -0.005 <= RoundToCents(x) - x <= 0.005 && WholeCents(RoundToCents(x))
  {
    assert -0.5 <= Round(x * 100.0) as real - x * 100.0 <= 0.5;
    assert RoundToCents(x) * 100.0 == Round(x * 100.0) as real;
  }

  predicate WholeCents(p: real) {
    (p * 100.0).Floor as real == p * 100.0
  }

  lemma Squeeze(a: real, b: real, low: real, high: real)
    requires a >= 0.0 && low <= b <= high
    ensures a * low <= Times(a, b) <= a * high
  {
    assert a * (b - low) >= 0.0 && a * (high - b) >= 0.0;
  }

  lemma ExactNearMarket(market: real, draw: int)
    requires market >= 0.0 && 0 <= draw <= 1000
    ensures market * 0.95 <= Exact(market, draw) <= market * 1.05
  {
    Squeeze(market, Factor(draw), 0.95, 1.05);
  }

  lemma LimitNearMarket(market: real, draw: int)
    requires market >= 0.0 && 0 <= draw <= 1000
    ensures market * 0.95 - 0.005 <= LimitPrice(market, draw) <= market * 1.05 + 0.005
    ensures WholeCents(LimitPrice(market, draw))
  {
    ExactNearMarket(market, draw);
    Rounded(Exact(market, draw));
  }

  /** A limit order is within 5% of the market, to the cent, and for 1 to 100 shares. */
  lemma NewOrderInRange(symbols: seq<string>, orderId: int, traderId: int, d: Draw, market: real)
    requires ValidDraw(symbols, d) && market >= FLOOR
    ensures var o := NewOrder(orderId, traderId, d, market);
            && 1 <= o.Remaining() == o.quantity <= 100 && o.symbol in symbols
            && (o.kind == LIMIT ==> o.price >= FLOOR && market * 0.95 - 0.005 <= o.price <= market * 1.05 + 0.005)
            && (o.kind == LIMIT ==> WholeCents(o.price))
  {
    LimitAboveFloor(market, d.offset);
    LimitNearMarket(market, d.offset);
  }

  lemma Product(a: real, b: real)
    requires a >= 0.01 && b >= 0.95
    ensures a * b >= 0.0095
  {
    assert (a - 0.01) * b >= 0.0;
  }

  // ---------------------------------------------------------------- totals over symbols

  ghost predicate Distinct(symbols: seq<string>) {
    forall i, j :: 0 <= i < j < |symbols| ==> symbols[i] != symbols[j]
  }

  function Total(values: map<string, int>, symbols: seq<string>): int {
    if symbols == [] then 0
    else (if symbols[0] in values then values[symbols[0]] else 0) + Total(values, symbols[1..])
  }

  function ValueAt(values: map<string, int>, symbol: string): int {
    if symbol in values then values[symbol] else 0
  }

  /** When only one symbol's value changes, the total changes by as much. */
  lemma {:induction false} TotalChange(v: map<string, int>, w: map<string, int>, symbols: seq<string>, symbol: string)
    requires Distinct(symbols)
    requires forall x :: x in symbols && x != symbol ==> ValueAt(v, x) == ValueAt(w, x)
    ensures Total(w, symbols) == Total(v, symbols)
                                 + (if symbol in symbols then ValueAt(w, symbol) - ValueAt(v, symbol) else 0)
  {
    if symbols != [] {
      assert forall x :: x in symbols[1..] ==> x in symbols;
      TotalChange(v, w, symbols[1..], symbol);
      assert ValueAt(w, symbols[0]) - ValueAt(v, symbols[0]) == 0 || symbols[0] == symbol;
      assert symbol in symbols <==> symbol == symbols[0] || symbol in symbols[1..];
    }
  }

  lemma {:induction false} TotalNonNegative(values: map<string, int>, symbols: seq<string>)
    requires forall x :: x in values ==> values[x] >= 0
    ensures Total(values, symbols) >= 0
  {
    if symbols != [] {
      TotalNonNegative(values, symbols[1..]);
    }
  }

  lemma {:induction false} TotalAtLeast(values: map<string, int>, symbols: seq<string>, x: string)
    requires x in symbols && forall y :: y in symbols ==> ValueAt(values, y) >= 0
    ensures Total(values, symbols) >= ValueAt(values, x)
  {
    var rest := symbols[1..];
    assert symbols[0] in symbols && forall y :: y in rest ==> y in symbols;
    if x in rest {
      TotalAtLeast(values, rest, x);
    } else {
      TotalPositive(values, rest);
    }
  }

  lemma {:induction false} TotalPositive(values: map<string, int>, symbols: seq<string>)
    requires forall y :: y in symbols ==> ValueAt(values, y) >= 0
    ensures Total(values, symbols) >= 0
  {
    if symbols != [] {
      assert symbols[0] in symbols && forall y :: y in symbols[1..] ==> y in symbols;
      TotalPositive(values, symbols[1..]);
    }
  }
}
