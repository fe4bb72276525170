/** Two programs agree: what the monitor shows of a running exchange's trade file is what the exchange did. */
module Published {
  import opened Orders
  import opened Exchange
  import opened Books
  import opened Accounting
  import opened Prices
  import opened TradeLog
  import opened Loggers
  import opened LogMonitors

  /** The lines of a trade file: one for each logged trade, each with a moment and its price in cents. */
  ghost predicate LinesFor(logged: seq<Logged>, ts: seq<TradeRecord>) {
    && TradesOf(logged) == ts
    && forall l :: l in logged ==> PlainTime(l.time) && NearestCents(l.trade.price, l.cents)
  }

  /** Every trade an exchange with word-like symbols logs can be printed and parsed. */
  lemma LoggedIsPrintable(s: State, logged: seq<Logged>, l: Logged)
    requires Reachable(s) && s.cfg.traders <= INT_MAX && forall x :: x in s.cfg.symbols ==> PlainSymbol(x)
    requires LinesFor(logged, s.sh.market.tradeLog) && l in logged
    ensures Printable(l)
  {
    var i :| 0 <= i < |logged| && logged[i] == l;
    PriceFloor(s);
    ReachableTradesOfSymbols(s);
    assert s.sh.market.tradeLog <= Executed(s);
    assert l.trade == Executed(s)[i] && Executed(s)[i] in Executed(s);
  }

  lemma EntryIsTrade(logged: seq<Logged>, ts: seq<TradeRecord>, i: nat)
    requires LinesFor(logged, ts) && i < |ts|
    ensures |EntriesOf(logged)| == |ts| && Shows(EntriesOf(logged)[i], ts[i])
  {
    ReadTotals(logged);
    assert logged[i] in logged;
  }

  /** The entry of a trade: all of it but the order ids, and the price within half a cent. */
  predicate Shows(e: TradeEntry, t: TradeRecord) {
    && e.symbol == t.symbol && e.quantity == t.quantity
    && e.buyerId == t.buyerTraderId && e.sellerId == t.sellerTraderId
    && -0.005 <= e.price - t.price <= 0.005
  }

  /**
   * In every reachable state the monitor recovers from the file one entry for every trade logged, in order,
   * and its totals are the exchange's own, less the one trade that may still be on its way to the log.
   */
  lemma MonitorAgrees(s: State, start: string, logged: seq<Logged>)
    requires Reachable(s) && s.cfg.traders <= INT_MAX && forall x :: x in s.cfg.symbols ==> PlainSymbol(x)
    requires PlainTime(start) && LinesFor(logged, s.sh.market.tradeLog)
    ensures forall l :: l in logged ==> Printable(l)
    ensures var shown := Entries(Lines(FileText(start, logged)));
            var onTheWay := Executed(s)[|s.sh.market.tradeLog|..];
            && |shown| == |s.sh.market.tradeLog| == s.sh.market.totalTrades - |onTheWay| && |onTheWay| <= 1
            && EntryVolume(shown) == s.sh.market.totalVolume - Volume(onTheWay)
            && (forall i :: 0 <= i < |shown| ==> Shows(shown[i], s.sh.market.tradeLog[i]))
            && (s.matcher.phase.MFinished? ==> onTheWay == [])
  {
    forall l | l in logged
      ensures Printable(l)
    {
      LoggedIsPrintable(s, logged, l);
    }
    ReadBack(start, logged);
    ReadTotals(logged);
    Totals(s);
    forall i | 0 <= i < |s.sh.market.tradeLog|
      ensures Shows(EntriesOf(logged)[i], s.sh.market.tradeLog[i])
    {
      EntryIsTrade(logged, s.sh.market.tradeLog, i);
    }
  }

  lemma Totals(s: State)
    requires Reachable(s)
    ensures |s.sh.market.tradeLog| <= |Executed(s)| <= |s.sh.market.tradeLog| + 1
    ensures s.sh.market.totalTrades == |Executed(s)|
    ensures s.sh.market.totalVolume == Volume(s.sh.market.tradeLog) + Volume(Executed(s)[|s.sh.market.tradeLog|..])
  {
    ReachableAccounts(s);
    var log := s.sh.market.tradeLog;
    var rest := Executed(s)[|log|..];
    assert Executed(s) == log + rest;
    VolumeConcat(log, rest);
  }

  /**
   * The file keeps up with the run: a step either logs nothing, or logs one trade, whose line makes the file of the
   * trades before into the file of the trades after.
   */
  lemma FileFollows(s: State, e: Event, logged: seq<Logged>, time: string, cents: nat)
    requires Enabled(s, e) && LinesFor(logged, s.sh.market.tradeLog) && PlainTime(time)
    ensures var before, after := s.sh.market.tradeLog, Step(s, e).sh.market.tradeLog;
            if after == before then LinesFor(logged, after)
            else after != [] && after[..|after| - 1] == before
                 && (var t := after[|before|];
                     NearestCents(t.price, cents) ==> LinesFor(logged + [Logged(time, t, cents)], after))
  {
    if e.TraderStep? && s.traders[e.i].Wants().None? {
      TraderLogsNothing(s.sh.market, s.traders[e.i]);
    }
    var before, after := s.sh.market.tradeLog, Step(s, e).sh.market.tradeLog;
    if after != before {
      var l := Logged(time, after[|before|], cents);
      assert TradesOf(logged + [l]) == TradesOf(logged) + [l.trade];
    }
  }

  lemma TraderLogsNothing(m: Market, tr: Trader)
    requires tr.phase.Insert? ==> tr.phase.order.symbol in m.books && tr.phase.order.symbol in m.arrivals
    ensures TraderMarket(m, tr).tradeLog == m.tradeLog
  {
  }
}
