/** Over every run, no price in the exchange falls below a cent, and every stock stays in its day's range. */
module Prices {
  import opened Orders
  import opened Crossing
  import opened BookHistory
  import opened Ledger
  import opened Exchange
  import opened Books

  predicate StockOk(stock: Stock) {
    stock.lowPrice >= FLOOR && stock.InRange()
  }

  /** A lot is at most 100 shares, some of it left, from one of the n traders. */
  predicate SizeOk(o: Order, n: nat) {
    1 <= o.Remaining() <= 100 && 1 <= o.traderId <= n
  }

  predicate OrderOk(o: Order, n: nat) {
    o.price >= FLOOR && SizeOk(o, n)
  }

  predicate TradeOk(t: TradeRecord, n: nat) {
    t.price >= FLOOR && 1 <= t.quantity <= 100 && 1 <= t.buyerTraderId <= n && 1 <= t.sellerTraderId <= n
  }

  ghost predicate OrdersOk(q: seq<Order>, n: nat) {
    forall o :: o in q ==> OrderOk(o, n)
  }

  ghost predicate BookOk(b: Book, n: nat) {
    OrdersOk(b.buys, n) && OrdersOk(b.sells, n)
  }

  ghost predicate TradesOk(ts: seq<TradeRecord>, n: nat) {
    forall t :: t in ts ==> TradeOk(t, n)
  }

  ghost predicate StocksOk(stocks: map<string, Stock>) {
    forall x :: x in stocks ==> StockOk(stocks[x])
  }

  ghost predicate BooksOk(books: map<string, Book>, n: nat) {
    forall x :: x in books ==> BookOk(books[x], n)
  }

  ghost predicate MarketOk(m: Market, n: nat) {
    StocksOk(m.stocks) && BooksOk(m.books, n) && TradesOk(m.tradeLog, n) && TradesOk(m.history, n)
  }

  /** Prices a trader carries; a MARKET order has none until it is priced. */
  predicate TraderOk(tr: Trader, n: nat) {
    match tr.phase
    case Generate(_, market) => market >= FLOOR
    case Price(o) => SizeOk(o, n)
    case Insert(o) => OrderOk(o, n)
    case _ => true
  }

  ghost predicate PricesOk(s: State) {
    && MarketOk(s.sh.market, s.cfg.traders)
    && TradesOk(s.matcher.trades, s.cfg.traders)
    && forall i :: 0 <= i < |s.traders| ==> TraderOk(s.traders[i], s.cfg.traders)
  }

  // ---------------------------------------------------------------- orders, trades and stocks

  lemma {:induction false} EnqueueOk(side: OrderSide, q: seq<Order>, o: Order, n: nat)
    requires OrdersOk(q, n) && OrderOk(o, n)
    ensures OrdersOk(Enqueue(side, q, o), n)
  {
    if q != [] && !Better(side, o.price, q[0].price) {
      assert q[0] in q && forall r :: r in q[1..] ==> r in q;
      EnqueueOk(side, q[1..], o, n);
    }
  }

  lemma AddOrderOk(m: Market, o: Order, n: nat)
    requires MarketOk(m, n) && OrderOk(o, n) && o.symbol in m.books && o.symbol in m.arrivals
    ensures MarketOk(AddOrder(m, o), n)
  {
    var b := m.books[o.symbol];
    assert BookOk(b, n);
    EnqueueOk(o.side, b.Side(o.side), o, n);
  }

  lemma FillTopOk(q: seq<Order>, qty: int, p: real, n: nat)
    requires q != [] && OrdersOk(q, n) && qty >= 0
    ensures OrdersOk(FillTop(q, qty, p), n)
  {
    assert q[0] in q;
  }

  /** The midpoint of two prices above the floor is above it, and so are both prices still in the book. */
  lemma ExecuteOk(symbol: string, b: Book, n: nat)
    requires Crossed(b) && BookOk(b, n)
    ensures BookOk(Execute(b), n) && TradeOk(TopTrade(symbol, b), n)
  {
    assert b.buys[0] in b.buys && b.sells[0] in b.sells;
    FillTopOk(b.buys, TradeQty(b), ExecPrice(b), n);
    FillTopOk(b.sells, TradeQty(b), ExecPrice(b), n);
  }

  lemma PricedOk(stock: Stock, p: real)
    requires StockOk(stock) && p >= FLOOR
    ensures StockOk(stock.Priced(p))
  {
  }

  // ---------------------------------------------------------------- steps

  lemma TraderNextOk(cfg: Config, sh: Shared, tr: Trader, i: nat, d: Draw)
    requires StocksOk(sh.market.stocks) && TraderOk(tr, cfg.traders) && i < cfg.traders
    requires TraderCanAct(sh, tr) && ValidDraw(cfg.symbols, d)
    ensures TraderOk(TraderNext(cfg, sh, tr, i, d), cfg.traders)
  {
    if tr.phase.Generate? {
      LimitAboveFloor(tr.phase.market, d.offset);
    }
  }

  lemma TraderKeepsPrices(s: State, i: nat, d: Draw)
    requires PricesOk(s) && |s.traders| == s.cfg.traders && Enabled(s, TraderStep(i, d))
    ensures PricesOk(Step(s, TraderStep(i, d)))
  {
    assert TraderOk(s.traders[i], s.cfg.traders);
    if s.traders[i].Wants().None? {
      TraderNextOk(s.cfg, s.sh, s.traders[i], i, d);
      if s.traders[i].phase.Insert? {
        AddOrderOk(s.sh.market, s.traders[i].phase.order, s.cfg.traders);
      } else {
        TraderQuiet(s.sh, s.traders[i]);
      }
    }
  }

  lemma LastNOk(ts: seq<TradeRecord>, k: nat, n: nat)
    requires TradesOk(ts, n)
    ensures TradesOk(LastN(ts, k), n)
  {
  }

  lemma TradeOnceOk(m: Market, x: string, n: nat)
    requires MarketOk(m, n) && IsCrossed(m, x)
    ensures MarketOk(TradeOnce(m, x), n) && TradeOk(TopTrade(x, m.books[x]), n)
  {
    ExecuteOk(x, m.books[x], n);
  }

  lemma MatcherMarketOk(cfg: Config, market: Market, m: Matcher)
    requires m.phase.Matching? || m.phase.CommitStock? ==> m.phase.k < |cfg.symbols|
    requires m.phase.LogTrade? || m.phase.CommitStock? ==> m.trades != []
    requires m.phase.CommitStock? ==> cfg.symbols[m.phase.k] in market.stocks
    requires MarketOk(market, cfg.traders) && TradesOk(m.trades, cfg.traders)
    ensures MarketOk(MatcherMarket(cfg, market, m), cfg.traders)
  {
    match m.phase
    case Matching(k) =>
      if IsCrossed(market, cfg.symbols[k]) {
        TradeOnceOk(market, cfg.symbols[k], cfg.traders);
      }
    case LogTrade(_) => assert m.trades[|m.trades| - 1] in m.trades;
    case Push(_) => LastNOk(market.history + m.trades, MAX_HISTORY, cfg.traders);
    case CommitStock(k) =>
      assert m.trades[|m.trades| - 1] in m.trades;
      PricedOk(market.stocks[cfg.symbols[k]], m.trades[|m.trades| - 1].price);
    case _ =>
  }

  lemma MatcherNextOk(cfg: Config, sh: Shared, m: Matcher)
    requires MarketOk(sh.market, cfg.traders) && TradesOk(m.trades, cfg.traders) && MatcherCanAct(cfg, sh, m)
    ensures TradesOk(MatcherNext(cfg, sh, m).trades, cfg.traders)
  {
    if m.phase.Matching? && IsCrossed(sh.market, cfg.symbols[m.phase.k]) {
      TradeOnceOk(sh.market, cfg.symbols[m.phase.k], cfg.traders);
    }
  }

  lemma MatcherKeepsPrices(s: State)
    requires PricesOk(s) && Enabled(s, MatcherStep)
    ensures PricesOk(Step(s, MatcherStep))
  {
    if s.matcher.Wants(s.cfg).None? {
      MatcherMarketOk(s.cfg, s.sh.market, s.matcher);
      MatcherNextOk(s.cfg, s.sh, s.matcher);
    }
  }

  lemma MakerKeepsPrices(s: State, price: real)
    requires PricesOk(s) && Enabled(s, MakerStep(price))
    ensures PricesOk(Step(s, MakerStep(price)))
  {
    if s.maker.Wants().None? && s.maker.phase.KUpdate? {
      var x := s.cfg.symbols[s.maker.phase.k];
      if x in s.sh.market.stocks {
        PricedOk(s.sh.market.stocks[x], Clamp(price));
      }
    }
  }

  lemma StepKeepsPrices(s: State, e: Event)
    requires PricesOk(s) && |s.traders| == s.cfg.traders && Enabled(s, e)
    ensures PricesOk(Step(s, e)) && |Step(s, e).traders| == s.cfg.traders
  {
    match e
    case TraderStep(i, d) => TraderKeepsPrices(s, i, d);
    case MatcherStep => MatcherKeepsPrices(s);
    case MakerStep(price) => MakerKeepsPrices(s, price);
    case _ =>
  }

  lemma InitPrices(cfg: Config)
    requires ValidConfig(cfg)
    ensures PricesOk(Init(cfg))
  {
  }

  lemma {:induction false} RunKeepsPrices(s1: State, es: seq<Event>, s2: State)
    requires PricesOk(s1) && |s1.traders| == s1.cfg.traders && Run(s1, es, s2)
    ensures PricesOk(s2)
    decreases |es|
  {
    if es != [] {
      StepKeepsPrices(s1, es[0]);
      RunKeepsPrices(Step(s1, es[0]), es[1..], s2);
    }
  }

  /** From opening prices of at least a cent, nothing is ever priced, resting or executed below one. */
  lemma PriceFloor(s: State)
    requires Reachable(s)
    ensures forall x :: x in s.sh.market.stocks ==>
                          var k := s.sh.market.stocks[x];
                          && k.currentPrice >= FLOOR
                          && k.lowPrice <= k.currentPrice <= k.highPrice && k.lowPrice <= k.openPrice <= k.highPrice
    ensures forall x :: x in s.sh.market.books ==> BookOk(s.sh.market.books[x], s.cfg.traders)
    ensures FLOOR == 0.01
    ensures TradesOk(Executed(s), s.cfg.traders) && TradesOk(s.sh.market.history, s.cfg.traders)
  {
    var es :| Run(Init(s.cfg), es, s);
    InitPrices(s.cfg);
    RunKeepsPrices(Init(s.cfg), es, s);
    forall x | x in s.sh.market.stocks
      ensures StockOk(s.sh.market.stocks[x])
    {
    }
  }
}
