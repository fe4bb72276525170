/**
 * The books of the running exchange: under every interleaving each symbol's book is its history, ids are
 * unique, no order is lost, and the matcher's iterations under the mutex amount to one call of the loop.
 */
module Books {
  import opened Options
  import opened Orders
  import opened Crossing
  import opened BookHistory
  import opened Ledger
  import opened Exchange
  import opened Runs
  import opened Control

  /** The trade log, with the trade that is executed but still on its way to the log. */
  function WithUnlogged(log: seq<TradeRecord>, m: Matcher): seq<TradeRecord> {
    if m.phase.LogTrade? && m.trades != [] then log + [m.trades[|m.trades| - 1]] else log
  }

  /** Every trade executed so far. */
  function Executed(s: State): seq<TradeRecord> {
    WithUnlogged(s.sh.market.tradeLog, s.matcher)
  }

  // ---------------------------------------------------------------- the two kinds of step that matter

  predicate IsInsertion(s: State, e: Event) {
    e.TraderStep? && e.i < |s.traders| && s.traders[e.i].phase.Insert? && s.traders[e.i].holding
  }

  predicate IsTrade(s: State, e: Event) {
    && e.MatcherStep? && s.matcher.phase.Matching? && s.matcher.holding && s.matcher.phase.k < |s.cfg.symbols|
    && IsCrossed(s.sh.market, s.cfg.symbols[s.matcher.phase.k])
  }

  lemma InsertionEffect(s: State, e: Event)
    requires Enabled(s, e) && IsInsertion(s, e)
    ensures var o := s.traders[e.i].phase.order;
            && o.symbol in s.sh.market.books && o.symbol in s.sh.market.arrivals
            && Step(s, e).sh.market == AddOrder(s.sh.market, o)
            && Executed(Step(s, e)) == Executed(s)
  {
  }

  lemma TradeEffect(s: State, e: Event)
    requires Enabled(s, e) && IsTrade(s, e)
    ensures var symbol := s.cfg.symbols[s.matcher.phase.k];
            var t := TopTrade(symbol, s.sh.market.books[symbol]);
            && Step(s, e).sh.market == TradeOnce(s.sh.market, symbol)
            && Step(s, e).matcher.trades == s.matcher.trades + [t]
            && Executed(Step(s, e)) == Executed(s) + [t]
  {
  }

  lemma TraderQuiet(sh: Shared, tr: Trader)
    requires TraderCanAct(sh, tr) && !tr.phase.Insert?
    ensures var n := TraderMarket(sh.market, tr);
            n == sh.market.(lastId := n.lastId)
  {
  }

  lemma MatcherQuiet(cfg: Config, market: Market, m: Matcher)
    requires m.phase.Matching? || m.phase.CommitStock? ==> m.phase.k < |cfg.symbols|
    requires m.phase.LogTrade? || m.phase.CommitStock? ==> m.trades != []
    requires m.phase.CommitStock? ==> cfg.symbols[m.phase.k] in market.stocks
    requires m.phase.Matching? ==> !IsCrossed(market, cfg.symbols[m.phase.k])
    ensures var n := MatcherMarket(cfg, market, m);
            && n == market.(tradeLog := n.tradeLog, history := n.history, stocks := n.stocks)
            && n.tradeLog == WithUnlogged(market.tradeLog, m)
  {
  }

  lemma MatcherNextLogged(cfg: Config, sh: Shared, m: Matcher)
    requires MatcherCanAct(cfg, sh, m)
    requires m.phase.Matching? ==> !IsCrossed(sh.market, cfg.symbols[m.phase.k])
    ensures !MatcherNext(cfg, sh, m).phase.LogTrade?
  {
  }

  lemma MatcherStepQuiet(s: State)
    requires MatcherShape(s.cfg, s.matcher) && Enabled(s, MatcherStep) && !IsTrade(s, MatcherStep)
    ensures var m, n := s.sh.market, Step(s, MatcherStep).sh.market;
            && n == m.(tradeLog := n.tradeLog, history := n.history, stocks := n.stocks)
            && Executed(Step(s, MatcherStep)) == Executed(s)
  {
    if s.matcher.Wants(s.cfg).None? {
      MatcherQuiet(s.cfg, s.sh.market, s.matcher);
      MatcherNextLogged(s.cfg, s.sh, s.matcher);
    }
  }

  /** The market but for logs and stock records, and the executed trades. */
  ghost predicate SameTrading(s: State, t: State) {
    var m, n := s.sh.market, t.sh.market;
    && n.books == m.books && n.arrivals == m.arrivals
    && n.totalTrades == m.totalTrades && n.totalVolume == m.totalVolume
    && Executed(t) == Executed(s)
  }

  lemma TraderQuietEffect(s: State, i: nat, d: Draw)
    requires Enabled(s, TraderStep(i, d)) && !IsInsertion(s, TraderStep(i, d))
    ensures SameTrading(s, Step(s, TraderStep(i, d)))
  {
    if s.traders[i].Wants().None? {
      TraderQuiet(s.sh, s.traders[i]);
    }
  }

  lemma OthersQuietEffect(s: State, e: Event)
    requires Enabled(s, e) && !e.TraderStep? && !e.MatcherStep?
    ensures SameTrading(s, Step(s, e))
  {
  }

  /** Any other step leaves books, arrivals and executed trades alone. */
  lemma QuietEffect(s: State, e: Event)
    requires Shape(s) && Enabled(s, e) && !IsInsertion(s, e) && !IsTrade(s, e)
    ensures SameTrading(s, Step(s, e))
  {
    match e
    case TraderStep(i, d) => TraderQuietEffect(s, i, d);
    case MatcherStep => MatcherStepQuiet(s);
    case _ => OthersQuietEffect(s, e);
  }

  // ---------------------------------------------------------------- ids

  /** The order a trader has made and not yet inserted. */
  function Pending(tr: Trader): Option<Order> {
    match tr.phase
    case Price(o) => Some(o)
    case Insert(o) => Some(o)
    case _ => None
  }

  /** The id a trader carries to its counter once the order is in the book. */
  function Carried(tr: Trader): Option<int> {
    match tr.phase
    case Flag(_, id) => Some(id)
    case LogOrder(id) => Some(id)
    case CountOrder(id) => Some(id)
    case _ => None
  }

  ghost predicate PendingFresh(m: Market, tr: Trader) {
    Pending(tr).Some? ==>
      && 0 < Pending(tr).value.orderId <= m.lastId
      && forall x :: x in m.arrivals ==> Newcomer(Pending(tr).value, m.arrivals[x])
  }

  /** Ids of inserted orders are positive and already counted, and no id was inserted for two symbols. */
  ghost predicate ArrivalIds(m: Market) {
    && m.lastId >= 0
    && (forall x, id :: x in m.arrivals && HasId(m.arrivals[x], id) ==> 0 < id <= m.lastId)
    && (forall x, y, id :: x in m.arrivals && y in m.arrivals && x != y && HasId(m.arrivals[x], id)
          ==> !HasId(m.arrivals[y], id))
  }

  /** No two orders waiting to be inserted share an id. */
  ghost predicate PendingDistinct(traders: seq<Trader>) {
    forall i, j :: 0 <= i < j < |traders| && Pending(traders[i]).Some? && Pending(traders[j]).Some?
                   ==> Pending(traders[i]).value.orderId != Pending(traders[j]).value.orderId
  }

  /** Ids are positive, and none belongs to two orders, inserted or still to be inserted. */
  ghost predicate IdsUnique(s: State) {
    && ArrivalIds(s.sh.market)
    && PendingDistinct(s.traders)
    && (forall i :: 0 <= i < |s.traders| ==> PendingFresh(s.sh.market, s.traders[i]))
    && (forall i :: 0 <= i < |s.traders| && Carried(s.traders[i]).Some? ==> Carried(s.traders[i]).value > 0)
  }

  lemma HasIdSnoc(q: seq<Order>, o: Order, id: int)
    ensures HasId(q + [o], id) <==> HasId(q, id) || o.orderId == id
  {
    assert (q + [o])[|q|] == o;
    if HasId(q, id) {
      var i :| 0 <= i < |q| && q[i].orderId == id;
      assert (q + [o])[i] == q[i];
    }
    if HasId(q + [o], id) {
      var i :| 0 <= i < |q| + 1 && (q + [o])[i].orderId == id;
      assert i < |q| ==> q[i].orderId == id;
    }
  }

  lemma AddOrderArrivals(m: Market, o: Order, x: string, id: int)
    requires o.symbol in m.books && o.symbol in m.arrivals && x in m.arrivals
    ensures HasId(AddOrder(m, o).arrivals[x], id) <==> HasId(m.arrivals[x], id) || (x == o.symbol && id == o.orderId)
  {
    HasIdSnoc(m.arrivals[x], o, id);
  }

  lemma AddOrderKeepsIds(m: Market, o: Order)
    requires o.symbol in m.books && o.symbol in m.arrivals && ArrivalIds(m)
    requires 0 < o.orderId <= m.lastId && forall x :: x in m.arrivals ==> !HasId(m.arrivals[x], o.orderId)
    ensures ArrivalIds(AddOrder(m, o))
  {
    forall x, id | x in m.arrivals
      ensures HasId(AddOrder(m, o).arrivals[x], id) <==> HasId(m.arrivals[x], id) || (x == o.symbol && id == o.orderId)
    {
      AddOrderArrivals(m, o, x, id);
    }
  }

  lemma AddOrderKeepsPending(m: Market, o: Order, tr: Trader)
    requires o.symbol in m.books && o.symbol in m.arrivals && PendingFresh(m, tr)
    requires Pending(tr).Some? ==> Pending(tr).value.orderId != o.orderId
    ensures PendingFresh(AddOrder(m, o), tr)
  {
    if Pending(tr).Some? {
      forall x | x in m.arrivals
        ensures Newcomer(Pending(tr).value, AddOrder(m, o).arrivals[x])
      {
        AddOrderArrivals(m, o, x, Pending(tr).value.orderId);
      }
    }
  }

  lemma InsertionKeepsIds(s: State, e: Event)
    requires IdsUnique(s) && Enabled(s, e) && IsInsertion(s, e)
    ensures IdsUnique(Step(s, e))
  {
    InsertionEffect(s, e);
    var o, t := s.traders[e.i].phase.order, Step(s, e);
    assert PendingFresh(s.sh.market, s.traders[e.i]) && Pending(t.traders[e.i]).None?;
    AddOrderKeepsIds(s.sh.market, o);
    forall j | 0 <= j < |s.traders| && j != e.i
      ensures PendingFresh(t.sh.market, t.traders[j])
    {
      assert t.traders[j] == s.traders[j] && PendingFresh(s.sh.market, s.traders[j]);
      AddOrderKeepsPending(s.sh.market, o, s.traders[j]);
    }
  }

  /** Making an order draws the next id. */
  lemma GenerateKeepsIds(s: State, i: nat, d: Draw)
    requires IdsUnique(s) && Enabled(s, TraderStep(i, d)) && s.traders[i].phase.Generate?
    ensures IdsUnique(Step(s, TraderStep(i, d)))
  {
    var t := Step(s, TraderStep(i, d));
    assert t.sh.market == s.sh.market.(lastId := s.sh.market.lastId + 1);
    var o := Pending(t.traders[i]).value;
    assert o.orderId == s.sh.market.lastId + 1 && o.filledQty == 0 && o.quantity >= 1;
    forall j | 0 <= j < |s.traders|
      ensures PendingFresh(t.sh.market, t.traders[j])
    {
      assert j != i ==> t.traders[j] == s.traders[j] && PendingFresh(s.sh.market, s.traders[j]);
    }
  }

  /** Other steps of a trader keep the order it carries, but for the price, or carry none. */
  lemma TraderKeepsOrder(cfg: Config, sh: Shared, tr: Trader, i: nat, d: Draw)
    requires (tr.Wants().None? ==> TraderCanAct(sh, tr)) && !tr.phase.Generate? && !(tr.phase.Insert? && tr.holding)
    ensures var (sh', tr') := TraderMove(cfg, sh, tr, i, d);
            && sh'.market == sh.market
            && (Pending(tr').Some? ==>
                  Pending(tr).Some? && Pending(tr').value == Pending(tr).value.(price := Pending(tr').value.price))
            && (Carried(tr').Some? ==> Carried(tr') == Carried(tr))
  {
  }

  lemma TraderKeepsIds(s: State, i: nat, d: Draw)
    requires IdsUnique(s) && Enabled(s, TraderStep(i, d))
    requires !s.traders[i].phase.Generate? && !IsInsertion(s, TraderStep(i, d))
    ensures IdsUnique(Step(s, TraderStep(i, d)))
  {
    TraderKeepsOrder(s.cfg, s.sh, s.traders[i], i, d);
    var t := Step(s, TraderStep(i, d));
    forall j | 0 <= j < |s.traders|
      ensures PendingFresh(t.sh.market, t.traders[j])
    {
      assert PendingFresh(s.sh.market, s.traders[j]);
    }
  }

  lemma StepKeepsIds(s: State, e: Event)
    requires IdsUnique(s) && Shape(s) && Enabled(s, e)
    ensures IdsUnique(Step(s, e))
  {
    match e
    case TraderStep(i, d) =>
      if IsInsertion(s, e) {
        InsertionKeepsIds(s, e);
      } else if s.traders[i].phase.Generate? {
        GenerateKeepsIds(s, i, d);
      } else {
        TraderKeepsIds(s, i, d);
      }
    case _ => OtherKeepsIds(s, e);
  }

  lemma OtherKeepsIds(s: State, e: Event)
    requires IdsUnique(s) && Shape(s) && Enabled(s, e) && !e.TraderStep?
    ensures IdsUnique(Step(s, e))
  {
    var m, n := s.sh.market, Step(s, e).sh.market;
    assert n.arrivals == m.arrivals && n.lastId == m.lastId by {
      OthersMakeNoOrders(s, e);
    }
    assert forall i :: 0 <= i < |s.traders| ==> PendingFresh(m, s.traders[i]) ==> PendingFresh(n, s.traders[i]);
  }

  lemma OthersMakeNoOrders(s: State, e: Event)
    requires Shape(s) && Enabled(s, e) && !e.TraderStep?
    ensures var m, n := s.sh.market, Step(s, e).sh.market;
            n.arrivals == m.arrivals && n.lastId == m.lastId
  {
    if e.MatcherStep? {
      if IsTrade(s, e) {
        TradeEffect(s, e);
      } else {
        MatcherStepQuiet(s);
      }
    }
  }

  // ---------------------------------------------------------------- every book is its history

  ghost predicate BooksAreHistories(s: State) {
    forall x :: x in s.cfg.symbols ==>
                  && x in s.sh.market.books && x in s.sh.market.arrivals
                  && History(s.sh.market.books[x], s.sh.market.arrivals[x], OfSymbol(Executed(s), x))
  }

  lemma InsertionKeepsHistories(s: State, e: Event)
    requires BooksAreHistories(s) && Enabled(s, e) && IsInsertion(s, e)
    requires PendingFresh(s.sh.market, s.traders[e.i]) && TraderShape(s.cfg, s.traders[e.i])
    ensures BooksAreHistories(Step(s, e))
  {
    InsertionEffect(s, e);
    var o := s.traders[e.i].phase.order;
    var m := s.sh.market;
    SubmitKeepsHistory(m.books[o.symbol], o, m.arrivals[o.symbol], OfSymbol(Executed(s), o.symbol));
  }

  lemma TradeKeepsHistories(s: State, e: Event)
    requires BooksAreHistories(s) && Enabled(s, e) && IsTrade(s, e)
    ensures BooksAreHistories(Step(s, e))
  {
    TradeEffect(s, e);
    var m, symbol := s.sh.market, s.cfg.symbols[s.matcher.phase.k];
    var t := TopTrade(symbol, m.books[symbol]);
    ExecuteKeepsHistory(symbol, m.books[symbol], m.arrivals[symbol], OfSymbol(Executed(s), symbol));
    forall x | x in s.cfg.symbols
      ensures OfSymbol(Executed(s) + [t], x)
           == if symbol == x then OfSymbol(Executed(s), x) + [t] else OfSymbol(Executed(s), x)
    {
      OfSymbolAppend(Executed(s), t, x);
    }
  }

  lemma StepKeepsHistories(s: State, e: Event)
    requires BooksAreHistories(s) && IdsUnique(s) && Shape(s) && Enabled(s, e)
    ensures BooksAreHistories(Step(s, e))
  {
    if IsInsertion(s, e) {
      assert PendingFresh(s.sh.market, s.traders[e.i]);
      InsertionKeepsHistories(s, e);
    } else if IsTrade(s, e) {
      TradeKeepsHistories(s, e);
    } else {
      QuietEffect(s, e);
      StepKeepsConfig(s, e);
    }
  }

  // ---------------------------------------------------------------- counting orders

  function Placed(tr: Trader): int {
    tr.ordersPlaced
  }

  function Uncounted(tr: Trader): int {
    if tr.Uncounted() then 1 else 0
  }

  function ArrivalCounts(m: Market): map<string, int> {
    map x | x in m.arrivals :: |m.arrivals[x]|
  }

  function Inserted(s: State): int {
    Total(ArrivalCounts(s.sh.market), s.cfg.symbols)
  }

  /** Every insertion is on its trader's counter, or will be before the trader leaves the room. */
  ghost predicate OrdersCounted(s: State) {
    Inserted(s) == SumOver(s.traders, Placed) + SumOver(s.traders, Uncounted)
  }

  lemma TraderCounts(cfg: Config, sh: Shared, tr: Trader, i: nat, d: Draw)
    requires (tr.Wants().None? ==> TraderCanAct(sh, tr)) && (Carried(tr).Some? ==> Carried(tr).value > 0)
    ensures var tr' := TraderMove(cfg, sh, tr, i, d).1;
            Placed(tr') + Uncounted(tr')
            == Placed(tr) + Uncounted(tr) + (if tr.phase.Insert? && tr.holding then 1 else 0)
  {
  }

  lemma StepKeepsCounts(s: State, e: Event)
    requires OrdersCounted(s) && IdsUnique(s) && Shape(s) && Enabled(s, e)
    ensures OrdersCounted(Step(s, e))
  {
    StepKeepsConfig(s, e);
    InsertedChange(s, e);
    match e
    case TraderStep(i, d) =>
      var tr := TraderMove(s.cfg, s.sh, s.traders[i], i, d).1;
      TraderCounts(s.cfg, s.sh, s.traders[i], i, d);
      SumUpdate(s.traders, i, tr, Placed);
      SumUpdate(s.traders, i, tr, Uncounted);
    case _ =>
  }

  lemma InsertedChange(s: State, e: Event)
    requires Shape(s) && Enabled(s, e)
    ensures Inserted(Step(s, e)) == Inserted(s) + (if IsInsertion(s, e) then 1 else 0)
  {
    if IsInsertion(s, e) {
      InsertionEffect(s, e);
      var o := s.traders[e.i].phase.order;
      assert TraderShape(s.cfg, s.traders[e.i]);
      TotalChange(ArrivalCounts(s.sh.market), ArrivalCounts(AddOrder(s.sh.market, o)), s.cfg.symbols, o.symbol);
    } else if IsTrade(s, e) {
      TradeEffect(s, e);
    } else {
      QuietEffect(s, e);
    }
  }

  // ---------------------------------------------------------------- every run

  ghost predicate BooksInv(s: State) {
    IdsUnique(s) && BooksAreHistories(s) && OrdersCounted(s)
  }

  lemma {:induction false} NoArrivals(cfg: Config, symbols: seq<string>)
    requires forall x :: x in symbols ==> x in cfg.opening
    ensures Total(ArrivalCounts(Opening(cfg)), symbols) == 0
  {
    if symbols != [] {
      assert symbols[0] in symbols && forall x :: x in symbols[1..] ==> x in symbols;
      NoArrivals(cfg, symbols[1..]);
    }
  }

  lemma InitCounts(cfg: Config)
    requires ValidConfig(cfg)
    ensures OrdersCounted(Init(cfg))
  {
    NobodyIn(cfg.traders, Placed);
    NobodyIn(cfg.traders, Uncounted);
    NoArrivals(cfg, cfg.symbols);
  }

  lemma InitHistories(cfg: Config)
    requires ValidConfig(cfg)
    ensures BooksAreHistories(Init(cfg))
  {
    HistoryStarts();
  }

  lemma InitIds(cfg: Config)
    ensures IdsUnique(Init(cfg))
  {
  }

  lemma InitBooks(cfg: Config)
    requires ValidConfig(cfg)
    ensures BooksInv(Init(cfg))
  {
    InitIds(cfg);
    InitCounts(cfg);
    InitHistories(cfg);
  }

  lemma {:induction false} BooksAlong(cfg: Config, es: seq<Event>, s: State)
    requires ValidConfig(cfg) && Run(Init(cfg), es, s)
    ensures ControlInv(s) && BooksInv(s)
    decreases |es|
  {
    if es == [] {
      InitControl(cfg);
      InitBooks(cfg);
    } else {
      var n := |es| - 1;
      var u := LastStep(Init(cfg), es, s);
      BooksAlong(cfg, es[..n], u);
      StepKeepsControl(u, es[n]);
      StepKeepsIds(u, es[n]);
      StepKeepsHistories(u, es[n]);
      StepKeepsCounts(u, es[n]);
    }
  }

  lemma ReachableBooks(s: State)
    requires Reachable(s)
    ensures ControlInv(s) && BooksInv(s)
  {
    var es :| Run(Init(s.cfg), es, s);
    BooksAlong(s.cfg, es, s);
  }

  // ---------------------------------------------------------------- what this says about every run

  lemma OneMoreDoesNotFill(ts: seq<TradeRecord>, t: TradeRecord, x: string, side: OrderSide, id: int)
    requires FilledBy(ts, side, id) == FilledBy(OfSymbol(ts, x), side, id)
    requires t.symbol != x ==> Party(t, side) != id
    ensures FilledBy(ts + [t], side, id) == FilledBy(OfSymbol(ts + [t], x), side, id)
  {
    FilledByConcat(ts, [t], side, id);
    OfSymbolAppend(ts, t, x);
    if t.symbol == x {
      FilledByConcat(OfSymbol(ts, x), [t], side, id);
    }
  }

  /** Trades of other symbols do not touch an order, so the whole log fills it as its own symbol's trades do. */
  lemma {:induction false} OtherSymbolsDoNotFill(ts: seq<TradeRecord>, x: string, side: OrderSide, id: int)
    requires forall t :: t in ts && t.symbol != x ==> Party(t, side) != id
    ensures FilledBy(ts, side, id) == FilledBy(OfSymbol(ts, x), side, id)
  {
    if ts != [] {
      var n := |ts| - 1;
      assert ts[n] in ts && forall t :: t in ts[..n] ==> t in ts;
      OtherSymbolsDoNotFill(ts[..n], x, side, id);
      OneMoreDoesNotFill(ts[..n], ts[n], x, side, id);
      assert ts == ts[..n] + [ts[n]];
    }
  }

  lemma {:induction false} InOfSymbol(ts: seq<TradeRecord>, t: TradeRecord)
    requires t in ts
    ensures t in OfSymbol(ts, t.symbol)
  {
    var n := |ts| - 1;
    if t in ts[..n] {
      InOfSymbol(ts[..n], t);
    } else {
      assert t == ts[n];
    }
  }

  /** Every executed trade is of a traded symbol. */
  ghost predicate TradesOfSymbols(s: State) {
    forall t :: t in Executed(s) ==> t.symbol in s.cfg.symbols
  }

  lemma StepKeepsTradesOfSymbols(s: State, e: Event)
    requires TradesOfSymbols(s) && Shape(s) && Enabled(s, e)
    ensures TradesOfSymbols(Step(s, e))
  {
    StepKeepsConfig(s, e);
    if IsTrade(s, e) {
      TradeEffect(s, e);
    } else if IsInsertion(s, e) {
      InsertionEffect(s, e);
    } else {
      QuietEffect(s, e);
    }
  }

  lemma {:induction false} RunKeepsTradesOfSymbols(s1: State, es: seq<Event>, s2: State)
    requires ControlInv(s1) && TradesOfSymbols(s1) && Run(s1, es, s2)
    ensures TradesOfSymbols(s2)
    decreases |es|
  {
    if es != [] {
      StepKeepsControl(s1, es[0]);
      StepKeepsTradesOfSymbols(s1, es[0]);
      RunKeepsTradesOfSymbols(Step(s1, es[0]), es[1..], s2);
    }
  }

  lemma ReachableTradesOfSymbols(s: State)
    requires Reachable(s)
    ensures TradesOfSymbols(s)
  {
    var es :| Run(Init(s.cfg), es, s);
    InitControl(s.cfg);
    RunKeepsTradesOfSymbols(Init(s.cfg), es, s);
  }

  /** Shares the whole trade log gives the i-th order that arrived for symbol x. */
  ghost function SharesOf(s: State, x: string, i: nat): int
    requires x in s.sh.market.arrivals && i < |s.sh.market.arrivals[x]|
  {
    FilledOf(s.sh.market.arrivals[x][i], Executed(s))
  }

  lemma SharesAreLocal(s: State, x: string, i: nat)
    requires Reachable(s) && x in s.cfg.symbols
    requires x in s.sh.market.arrivals && i < |s.sh.market.arrivals[x]|
    ensures SharesOf(s, x, i) == FilledOf(s.sh.market.arrivals[x][i], OfSymbol(Executed(s), x))
  {
    ReachableBooks(s);
    ReachableTradesOfSymbols(s);
    var o := s.sh.market.arrivals[x][i];
    assert HasId(s.sh.market.arrivals[x], o.orderId);
    forall t | t in Executed(s) && t.symbol != x
      ensures Party(t, o.side) != o.orderId
    {
      ForeignTrade(s, x, o.orderId, t, o.side);
    }
    OtherSymbolsDoNotFill(Executed(s), x, o.side, o.orderId);
  }

  lemma ForeignTrade(s: State, x: string, id: int, t: TradeRecord, side: OrderSide)
    requires Reachable(s)
    requires x in s.sh.market.arrivals && HasId(s.sh.market.arrivals[x], id) && t in Executed(s) && t.symbol != x
    ensures Party(t, side) != id
  {
    ReachableBooks(s);
    ReachableTradesOfSymbols(s);
    var y := t.symbol;
    InOfSymbol(Executed(s), t);
    assert TradesNameArrivals(s.sh.market.arrivals[y], OfSymbol(Executed(s), y));
    assert Arrived(s.sh.market.arrivals[y], side, Party(t, side));
    assert HasId(s.sh.market.arrivals[y], Party(t, side));
  }

  /**
   * Price-time priority over whole runs: if order j, arriving after i on the same side at no better a price,
   * has got any share at all, then i has got every share it asked for.
   */
  lemma WholeRunPriority(s: State, x: string, i: nat, j: nat)
    requires Reachable(s) && x in s.cfg.symbols && x in s.sh.market.arrivals && i < j < |s.sh.market.arrivals[x]|
    requires var a := s.sh.market.arrivals[x];
             a[i].side == a[j].side && !Better(a[i].side, a[j].price, a[i].price)
    ensures SharesOf(s, x, j) > 0 ==> SharesOf(s, x, i) == s.sh.market.arrivals[x][i].quantity
  {
    ReachableBooks(s);
    SharesAreLocal(s, x, i);
    SharesAreLocal(s, x, j);
    assert PriceTimePriority(s.sh.market.arrivals[x], OfSymbol(Executed(s), x));
  }

  /** The log accounts for every order: a resting one shows its fills, one that is gone got exactly its quantity. */
  lemma WholeRunShares(s: State, x: string, i: nat)
    requires Reachable(s) && x in s.cfg.symbols && x in s.sh.market.arrivals && i < |s.sh.market.arrivals[x]|
    ensures x in s.sh.market.books
    ensures var o := s.sh.market.arrivals[x][i];
            var q := s.sh.market.books[x].Side(o.side);
            if HasId(q, o.orderId)
            then SharesOf(s, x, i) < o.quantity && RestsWith(q, o.orderId, SharesOf(s, x, i))
            else SharesOf(s, x, i) == o.quantity
  {
    ReachableBooks(s);
    SharesAreLocal(s, x, i);
    SharesConserved(s.sh.market.books[x], s.sh.market.arrivals[x], OfSymbol(Executed(s), x), i);
  }

  /** No order is lost or counted twice: inserted is resting plus filled, symbol by symbol. */
  lemma WholeRunOrders(s: State, x: string)
    requires Reachable(s) && x in s.cfg.symbols
    ensures x in s.sh.market.books && x in s.sh.market.arrivals
    ensures var b, a := s.sh.market.books[x], s.sh.market.arrivals[x];
            |a| == |b.buys| + |b.sells| + Completed(a, OfSymbol(Executed(s), x))
    ensures Inserted(s) == SumOver(s.traders, Placed) + SumOver(s.traders, Uncounted)
  {
    ReachableBooks(s);
    OrdersConserved(s.sh.market.books[x], s.sh.market.arrivals[x], OfSymbol(Executed(s), x));
  }

  /** Where an order that was made is: the i-th arrival for a symbol, or still in a trader's hands. */
  datatype Spot = InBook(symbol: string, i: nat) | WithTrader(t: nat)

  ghost predicate Occupied(s: State, p: Spot) {
    match p
    case InBook(x, i) => x in s.sh.market.arrivals && i < |s.sh.market.arrivals[x]|
    case WithTrader(t) => t < |s.traders| && Pending(s.traders[t]).Some?
  }

  ghost function OrderAt(s: State, p: Spot): Order
    requires Occupied(s, p)
  {
    match p
    case InBook(x, i) => s.sh.market.arrivals[x][i]
    case WithTrader(t) => Pending(s.traders[t]).value
  }

  lemma ArrivalIdsDiffer(s: State, x: string, y: string, i: nat, j: nat)
    requires Reachable(s) && InBook(x, i) != InBook(y, j)
    requires Occupied(s, InBook(x, i)) && Occupied(s, InBook(y, j))
    ensures s.sh.market.arrivals[x][i].orderId != s.sh.market.arrivals[y][j].orderId
  {
    ReachableBooks(s);
    var a, b := s.sh.market.arrivals[x], s.sh.market.arrivals[y];
    assert HasId(a, a[i].orderId) && HasId(b, b[j].orderId);
    assert FreshArrivals(a);
  }

  lemma PendingIdDiffers(s: State, t: nat, x: string, i: nat)
    requires Reachable(s) && Occupied(s, WithTrader(t)) && Occupied(s, InBook(x, i))
    ensures Pending(s.traders[t]).value.orderId != s.sh.market.arrivals[x][i].orderId
  {
    ReachableBooks(s);
    var a := s.sh.market.arrivals[x];
    assert PendingFresh(s.sh.market, s.traders[t]);
    assert HasId(a, a[i].orderId);
  }

  lemma IdDrawn(s: State, p: Spot)
    requires Reachable(s) && Occupied(s, p)
    ensures 0 < OrderAt(s, p).orderId <= s.sh.market.lastId
  {
    ReachableBooks(s);
    match p
    case InBook(x, i) => assert HasId(s.sh.market.arrivals[x], s.sh.market.arrivals[x][i].orderId);
    case WithTrader(t) => assert PendingFresh(s.sh.market, s.traders[t]);
  }

  lemma IdsDiffer(s: State, p: Spot, q: Spot)
    requires Reachable(s) && Occupied(s, p) && Occupied(s, q) && p != q
    ensures OrderAt(s, p).orderId != OrderAt(s, q).orderId
  {
    if p.InBook? && q.InBook? {
      ArrivalIdsDiffer(s, p.symbol, q.symbol, p.i, q.i);
    } else if p.WithTrader? && q.InBook? {
      PendingIdDiffers(s, p.t, q.symbol, q.i);
    } else if p.InBook? {
      PendingIdDiffers(s, q.t, p.symbol, p.i);
    } else {
      ReachableBooks(s);
    }
  }

  /** Ids of all orders made, inserted or still to be, are positive, drawn from the counter and never shared. */
  lemma WholeRunIds(s: State, p: Spot, q: Spot)
    requires Reachable(s) && Occupied(s, p) && Occupied(s, q)
    ensures 0 < OrderAt(s, p).orderId <= s.sh.market.lastId
    ensures OrderAt(s, p).orderId == OrderAt(s, q).orderId <==> p == q
  {
    IdDrawn(s, p);
    if p != q {
      IdsDiffer(s, p, q);
    }
  }

  /** Shares bought equal shares sold, for each symbol, whatever the interleaving. */
  lemma WholeRunBoughtIsSold(s: State, x: string)
    requires Reachable(s) && x in s.cfg.symbols && x in s.sh.market.arrivals
    ensures var a, ts := s.sh.market.arrivals[x], OfSymbol(Executed(s), x);
            TotalFilled(a, BUY, ts) == Volume(ts) == TotalFilled(a, SELL, ts)
  {
    ReachableBooks(s);
    BoughtEqualsSold(s.sh.market.arrivals[x], OfSymbol(Executed(s), x));
  }
}
