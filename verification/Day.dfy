/** What a stock's record shows over a run: the last price committed or published, and the range of all of them. */
module Day {
  import opened Orders
  import opened Ledger
  import opened Exchange
  import opened Runs
  import opened Control
  import opened Books
  import opened Accounting
  import opened Independence

  /**
   * The price that a step shows for x, if any: a commit shows the price of its batch's last trade, the maker the
   * simulated price or, when that is less, a cent.
   */
  ghost function Shown(s: State, e: Event, x: string): seq<real> {
    if IsCommit(s, e) && s.cfg.symbols[s.matcher.phase.k] == x && s.matcher.trades != [] then
      [s.matcher.trades[|s.matcher.trades| - 1].price]
    else if IsPublish(s, e) && s.cfg.symbols[s.maker.phase.k] == x then
      [if e.price >= 0.01 then e.price else 0.01]
    else []
  }

  /** The prices that a run shows for x, in order. */
  ghost function PricesShown(s: State, es: seq<Event>, x: string): seq<real>
    decreases |es|
  {
    if es == [] || !Enabled(s, es[0]) then []
    else Shown(s, es[0], x) + PricesShown(Step(s, es[0]), es[1..], x)
  }

  /** The record after these prices: the first opened, the last is current, and high and low are their range. */
  ghost predicate Shows(k: Stock, ps: seq<real>) {
    && ps != [] && k.openPrice == ps[0] && k.currentPrice == ps[|ps| - 1]
    && k.highPrice in ps && k.lowPrice in ps
    && forall p :: p in ps ==> k.lowPrice <= p <= k.highPrice
  }

  lemma ShowsMore(k: Stock, n: Stock, ps: seq<real>, p: real)
    requires Shows(k, ps) && n.openPrice == k.openPrice && n.currentPrice == p
    requires n.highPrice == if k.highPrice < p then p else k.highPrice
    requires n.lowPrice == if p < k.lowPrice then p else k.lowPrice
    ensures Shows(n, ps + [p])
  {
    assert (ps + [p])[0] == ps[0] && (ps + [p])[|ps|] == p;
    assert p in ps + [p] && forall q :: q in ps ==> q in ps + [p];
  }

  lemma CommitShows(s: State, e: Event, x: string, ps: seq<real>)
    requires Listed(s.sh.market, x) && Enabled(s, e) && IsCommit(s, e) && Shows(s.sh.market.stocks[x], ps)
    ensures Shows(Step(s, e).sh.market.stocks[x], ps + Shown(s, e, x))
  {
    CommitEffect(s.cfg, s.sh, s.matcher);
    assert ps + [] == ps;
    if s.cfg.symbols[s.matcher.phase.k] == x {
      var k, ts := s.sh.market.stocks[x], s.matcher.trades;
      CommitFields(k, ts);
      ShowsMore(k, Commit(k, ts), ps, ts[|ts| - 1].price);
    }
  }

  lemma PublishShows(s: State, e: Event, x: string, ps: seq<real>)
    requires Listed(s.sh.market, x) && Enabled(s, e) && IsPublish(s, e) && Shows(s.sh.market.stocks[x], ps)
    ensures Shows(Step(s, e).sh.market.stocks[x], ps + Shown(s, e, x))
  {
    assert ps + [] == ps;
    if s.cfg.symbols[s.maker.phase.k] == x {
      var k := s.sh.market.stocks[x];
      ClampIs(e.price);
      PricedFields(k, Clamp(e.price));
      ShowsMore(k, k.Priced(Clamp(e.price)), ps, Clamp(e.price));
    }
  }

  lemma OthersShow(s: State, e: Event, x: string)
    requires Listed(s.sh.market, x) && Shape(s) && Enabled(s, e) && !IsCommit(s, e) && !IsPublish(s, e)
    ensures Listed(Step(s, e).sh.market, x) && Step(s, e).sh.market.stocks[x] == s.sh.market.stocks[x]
  {
    StepFollows(s, e, x);
  }

  lemma StepShows(s: State, e: Event, x: string, ps: seq<real>)
    requires Listed(s.sh.market, x) && Shape(s) && Enabled(s, e) && Shows(s.sh.market.stocks[x], ps)
    ensures Listed(Step(s, e).sh.market, x) && Shows(Step(s, e).sh.market.stocks[x], ps + Shown(s, e, x))
  {
    if IsCommit(s, e) {
      CommitShows(s, e, x, ps);
    } else if IsPublish(s, e) {
      PublishShows(s, e, x, ps);
    } else {
      OthersShow(s, e, x);
      assert ps + [] == ps;
    }
  }

  lemma ShownOn(ps: seq<real>, qs: seq<real>, rs: seq<real>)
    ensures ps + (qs + rs) == ps + qs + rs
  {
  }

  lemma {:induction false} RunShows(s1: State, es: seq<Event>, s2: State, x: string, ps: seq<real>)
    requires Listed(s1.sh.market, x) && Shape(s1) && Run(s1, es, s2) && Shows(s1.sh.market.stocks[x], ps)
    ensures Listed(s2.sh.market, x) && Shows(s2.sh.market.stocks[x], ps + PricesShown(s1, es, x))
    decreases |es|
  {
    if es == [] {
      assert ps + [] == ps;
    } else {
      var u := Step(s1, es[0]);
      StepShows(s1, es[0], x, ps);
      StepKeepsShape(s1, es[0]);
      RunShows(u, es[1..], s2, x, ps + Shown(s1, es[0], x));
      ShownOn(ps, Shown(s1, es[0], x), PricesShown(u, es[1..], x));
    }
  }

  /**
   * Over every run a stock's current price is the last one committed or published for it, or its opening price if
   * there was none; its high and low are the largest and the smallest of all of them and the opening price; and its
   * volume is that of its executed trades, but for a batch still to be committed.
   */
  lemma DayOfStock(cfg: Config, es: seq<Event>, s: State, x: string)
    requires ValidConfig(cfg) && Run(Init(cfg), es, s) && x in cfg.symbols
    ensures x in s.sh.market.stocks && Shows(s.sh.market.stocks[x], [cfg.opening[x]] + PricesShown(Init(cfg), es, x))
    ensures s.sh.market.stocks[x].volume + Volume(PendingOf(s.cfg, s.matcher, x)) == Volume(OfSymbol(Executed(s), x))
  {
    InitControl(cfg);
    RunShows(Init(cfg), es, s, x, [cfg.opening[x]]);
    RunKeepsConfig(Init(cfg), es, s);
    StockVolume(s, x);
  }

  lemma StockVolume(s: State, x: string)
    requires Reachable(s) && x in s.cfg.symbols
    ensures x in s.sh.market.stocks
    ensures s.sh.market.stocks[x].volume + Volume(PendingOf(s.cfg, s.matcher, x)) == Volume(OfSymbol(Executed(s), x))
  {
    ReachableAccounts(s);
    ReachableControl(s);
    BatchVolume(s.cfg, Executed(s), s.matcher, x);
  }

  lemma BatchVolume(cfg: Config, ex: seq<TradeRecord>, m: Matcher, x: string)
    requires BatchOk(cfg, ex, m) && MatcherShape(cfg, m)
    ensures Volume(OfSymbol(Without(ex, Batch(Uncommitted(m), m)), x)) + Volume(PendingOf(cfg, m, x))
         == Volume(OfSymbol(ex, x))
  {
    if Uncommitted(m) {
      OfSymbolBatch(Without(ex, |m.trades|), m.trades, cfg.symbols[m.phase.k], x);
      VolumeConcat(OfSymbol(Without(ex, |m.trades|), x), PendingOf(cfg, m, x));
    } else {
      assert Without(ex, 0) == ex;
    }
  }
}
