/** Whose orders they are: every arrival and every trade record names the trader that placed the order. */
module Attribution {
  import opened Orders
  import opened Crossing
  import opened BookHistory
  import opened Ledger
  import opened Exchange
  import opened Runs
  import opened Control
  import opened Books

  // ---------------------------------------------------------------- orders in their traders' hands

  /** A trader holds only orders of its own, made as its draws allow. */
  ghost predicate OwnOrders(s: State) {
    forall i :: 0 <= i < |s.traders| && Pending(s.traders[i]).Some? ==> Pending(s.traders[i]).value.traderId == i + 1
  }

  lemma TraderKeepsOwn(cfg: Config, sh: Shared, tr: Trader, i: nat, d: Draw)
    requires (tr.Wants().None? ==> TraderCanAct(sh, tr)) && (Pending(tr).Some? ==> Pending(tr).value.traderId == i + 1)
    ensures var p := Pending(TraderMove(cfg, sh, tr, i, d).1);
            p.Some? ==> p.value.traderId == i + 1
  {
  }

  lemma StepKeepsOwn(s: State, e: Event)
    requires OwnOrders(s) && Enabled(s, e)
    ensures OwnOrders(Step(s, e))
  {
    if e.TraderStep? {
      TraderKeepsOwn(s.cfg, s.sh, s.traders[e.i], e.i, e.draw);
    }
  }

  // ---------------------------------------------------------------- arrivals

  /** The thread that a step lets insert into the book of x, if any. */
  ghost function Inserter(s: State, e: Event, x: string): seq<nat> {
    if IsInsertion(s, e) && s.traders[e.i].phase.order.symbol == x then [e.i] else []
  }

  /** The threads whose insertions a run makes into the book of x, in order. */
  ghost function Inserters(s: State, es: seq<Event>, x: string): seq<nat>
    decreases |es|
  {
    if es == [] || !Enabled(s, es[0]) then []
    else Inserter(s, es[0], x) + Inserters(Step(s, es[0]), es[1..], x)
  }

  /** The arrivals of a run, behind those before it, are the insertions of these threads. */
  ghost predicate ArrivedFrom(before: seq<Order>, after: seq<Order>, threads: seq<nat>) {
    && |after| == |before| + |threads| && after[..|before|] == before
    && forall k :: 0 <= k < |threads| ==> after[|before| + k].traderId == threads[k] + 1
  }

  lemma StepArrivals(s: State, e: Event, x: string)
    requires Shape(s) && OwnOrders(s) && Enabled(s, e) && x in s.sh.market.arrivals
    ensures x in Step(s, e).sh.market.arrivals
    ensures ArrivedFrom(s.sh.market.arrivals[x], Step(s, e).sh.market.arrivals[x], Inserter(s, e, x))
  {
    if IsInsertion(s, e) {
      InsertionEffect(s, e);
    } else if IsTrade(s, e) {
      TradeEffect(s, e);
    } else {
      QuietEffect(s, e);
    }
  }

  lemma ArrivedOn(a: seq<Order>, b: seq<Order>, c: seq<Order>, ps: seq<nat>, qs: seq<nat>)
    requires ArrivedFrom(a, b, ps) && ArrivedFrom(b, c, qs)
    ensures ArrivedFrom(a, c, ps + qs)
  {
    forall k | 0 <= k < |ps + qs|
      ensures c[|a| + k].traderId == (ps + qs)[k] + 1
    {
      if k < |ps| {
        assert c[|a| + k] == c[..|b|][|a| + k];
      } else {
        assert c[|a| + k] == c[|b| + (k - |ps|)];
      }
    }
    assert c[..|a|] == c[..|b|][..|a|];
  }

  lemma {:induction false} RunArrivals(s1: State, es: seq<Event>, s2: State, x: string)
    requires Shape(s1) && OwnOrders(s1) && Run(s1, es, s2) && x in s1.sh.market.arrivals
    ensures x in s2.sh.market.arrivals
    ensures ArrivedFrom(s1.sh.market.arrivals[x], s2.sh.market.arrivals[x], Inserters(s1, es, x))
    decreases |es|
  {
    if es != [] {
      StepArrivals(s1, es[0], x);
      StepKeepsShape(s1, es[0]);
      StepKeepsOwn(s1, es[0]);
      var u := Step(s1, es[0]);
      RunArrivals(u, es[1..], s2, x);
      ArrivedOn(s1.sh.market.arrivals[x], u.sh.market.arrivals[x], s2.sh.market.arrivals[x],
                Inserter(s1, es[0], x), Inserters(u, es[1..], x));
    }
  }

  lemma NothingArrived(cfg: Config, x: string)
    requires ValidConfig(cfg) && x in cfg.symbols
    ensures Shape(Init(cfg)) && OwnOrders(Init(cfg))
    ensures x in Init(cfg).sh.market.arrivals && Init(cfg).sh.market.arrivals[x] == []
  {
    InitControl(cfg);
  }

  /** Over any run from the start, the k-th arrival for x is of the trader whose thread made the k-th insertion. */
  lemma ArrivalsNameInserters(cfg: Config, es: seq<Event>, s: State, x: string)
    requires ValidConfig(cfg) && Run(Init(cfg), es, s) && x in cfg.symbols
    ensures x in s.sh.market.arrivals && |s.sh.market.arrivals[x]| == |Inserters(Init(cfg), es, x)|
    ensures forall k :: 0 <= k < |s.sh.market.arrivals[x]| ==>
                          s.sh.market.arrivals[x][k].traderId == Inserters(Init(cfg), es, x)[k] + 1
  {
    NothingArrived(cfg, x);
    RunArrivals(Init(cfg), es, s, x);
  }

  // ---------------------------------------------------------------- trades

  ghost predicate ArrivedFor(a: seq<Order>, side: OrderSide, id: int, trader: int) {
    exists i :: 0 <= i < |a| && a[i].side == side && a[i].orderId == id && a[i].traderId == trader
  }

  /** The record's buyer placed its buy and its seller placed its sell, both for its symbol. */
  ghost predicate NamesTraders(arrivals: map<string, seq<Order>>, t: TradeRecord) {
    && t.symbol in arrivals
    && ArrivedFor(arrivals[t.symbol], BUY, t.buyOrderId, t.buyerTraderId)
    && ArrivedFor(arrivals[t.symbol], SELL, t.sellOrderId, t.sellerTraderId)
  }

  ghost predicate TradesAttributed(s: State) {
    forall t :: t in Executed(s) ==> NamesTraders(s.sh.market.arrivals, t)
  }

  lemma ArrivedForMore(a: seq<Order>, o: Order, side: OrderSide, id: int, trader: int)
    requires ArrivedFor(a, side, id, trader)
    ensures ArrivedFor(a + [o], side, id, trader)
  {
    var i :| 0 <= i < |a| && a[i].side == side && a[i].orderId == id && a[i].traderId == trader;
    assert (a + [o])[i] == a[i];
  }

  lemma InsertionKeepsAttributed(s: State, e: Event)
    requires TradesAttributed(s) && Enabled(s, e) && IsInsertion(s, e)
    ensures TradesAttributed(Step(s, e))
  {
    InsertionEffect(s, e);
    var o, a := s.traders[e.i].phase.order, s.sh.market.arrivals;
    forall t | t in Executed(s)
      ensures NamesTraders(Step(s, e).sh.market.arrivals, t)
    {
      assert NamesTraders(a, t);
      if t.symbol == o.symbol {
        ArrivedForMore(a[o.symbol], o, BUY, t.buyOrderId, t.buyerTraderId);
        ArrivedForMore(a[o.symbol], o, SELL, t.sellOrderId, t.sellerTraderId);
      }
    }
  }

  /** The heads of a book are arrivals, so the trade between them names their traders. */
  lemma TopTradeAttributed(x: string, b: Book, arrivals: seq<Order>, ts: seq<TradeRecord>)
    requires History(b, arrivals, ts) && Crossed(b)
    ensures var t := TopTrade(x, b);
            && t.symbol == x
            && ArrivedFor(arrivals, BUY, t.buyOrderId, t.buyerTraderId)
            && ArrivedFor(arrivals, SELL, t.sellOrderId, t.sellerTraderId)
  {
    var i, j := ExecuteFacts(x, b, arrivals, ts);
    HeadTraders(x, b);
    var t := TopTrade(x, b);
    assert arrivals[i].orderId == t.buyOrderId && arrivals[i].traderId == t.buyerTraderId;
    assert arrivals[j].orderId == t.sellOrderId && arrivals[j].traderId == t.sellerTraderId;
  }

  lemma TradeKeepsAttributed(s: State, e: Event)
    requires TradesAttributed(s) && BooksAreHistories(s) && Enabled(s, e) && IsTrade(s, e)
    ensures TradesAttributed(Step(s, e))
  {
    TradeEffect(s, e);
    var x, m := s.cfg.symbols[s.matcher.phase.k], s.sh.market;
    TopTradeAttributed(x, m.books[x], m.arrivals[x], OfSymbol(Executed(s), x));
  }

  lemma StepKeepsAttributed(s: State, e: Event)
    requires TradesAttributed(s) && BooksAreHistories(s) && Shape(s) && Enabled(s, e)
    ensures TradesAttributed(Step(s, e))
  {
    if IsInsertion(s, e) {
      InsertionKeepsAttributed(s, e);
    } else if IsTrade(s, e) {
      TradeKeepsAttributed(s, e);
    } else {
      QuietEffect(s, e);
    }
  }

  lemma {:induction false} AttributedAlong(cfg: Config, es: seq<Event>, s: State)
    requires ValidConfig(cfg) && Run(Init(cfg), es, s)
    ensures TradesAttributed(s)
    decreases |es|
  {
    if es != [] {
      var n := |es| - 1;
      var u := LastStep(Init(cfg), es, s);
      AttributedAlong(cfg, es[..n], u);
      BooksAlong(cfg, es[..n], u);
      StepKeepsAttributed(u, es[n]);
    }
  }

  /**
   * In every reachable state each executed trade names as buyer the trader whose buy it fills and as seller the
   * trader whose sell it fills; ids being unique, there is no other.
   */
  lemma TradesNameTraders(s: State, t: TradeRecord)
    requires Reachable(s) && t in Executed(s)
    ensures NamesTraders(s.sh.market.arrivals, t)
  {
    var es :| Run(Init(s.cfg), es, s);
    AttributedAlong(s.cfg, es, s);
  }
}
