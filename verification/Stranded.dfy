/**
 * Not every crossed book gets matched: the matcher breaks off on shutdown before its round. Which books stay
 * crossed is settled at that moment, and it does happen.
 */
module Stranded {
  import opened Orders
  import opened Crossing
  import opened BookHistory
  import opened Ledger
  import opened Exchange
  import opened Runs
  import opened Control
  import opened Shutdown
  import opened Books
  import opened Matching
  import opened WindDown
  import opened Turns

  /** The matcher is not between starting a round and finishing its last symbol. */
  predicate OutOfRound(m: Matcher) {
    && !m.phase.Next? && !m.phase.Matching? && !m.phase.LogTrade?
    && !m.phase.Push? && !m.phase.CommitStock? && !m.phase.Tally?
  }

  lemma OutOfRoundKept(cfg: Config, sh: Shared, m: Matcher)
    requires sh.shutdown && OutOfRound(m) && (m.Wants(cfg).None? ==> MatcherCanAct(cfg, sh, m))
    ensures OutOfRound(MatcherMove(cfg, sh, m).1) && MatcherMove(cfg, sh, m).0.market == sh.market
  {
  }

  lemma EnqueueHead(side: OrderSide, q: seq<Order>, o: Order)
    requires q != []
    ensures Enqueue(side, q, o) != [] && !Better(side, q[0].price, Enqueue(side, q, o)[0].price)
  {
  }

  /** A new order never uncrosses a book. */
  lemma SubmitKeepsCrossed(b: Book, o: Order)
    requires Crossed(b)
    ensures Crossed(Submit(b, o))
  {
    EnqueueHead(o.side, b.Side(o.side), o);
  }

  ghost predicate Stuck(s: State, x: string) {
    s.sh.shutdown && OutOfRound(s.matcher) && IsCrossed(s.sh.market, x)
  }

  lemma StepStrands(s: State, e: Event, x: string)
    requires Stuck(s, x) && Shape(s) && Enabled(s, e)
    ensures Stuck(Step(s, e), x)
  {
    if e.MatcherStep? {
      OutOfRoundKept(s.cfg, s.sh, s.matcher);
    } else if IsInsertion(s, e) {
      InsertionEffect(s, e);
      SubmitKeepsCrossed(s.sh.market.books[x], s.traders[e.i].phase.order);
    } else {
      QuietEffect(s, e);
    }
  }

  /** Once shutdown finds the matcher outside a round, a crossed book stays crossed for ever. */
  lemma {:induction false} StrandedForever(s1: State, es: seq<Event>, s2: State, x: string)
    requires Reachable(s1) && Stuck(s1, x) && Run(s1, es, s2)
    ensures IsCrossed(s2.sh.market, x)
  {
    ReachableControl(s1);
    StrandedFrom(s1, es, s2, x);
  }

  lemma {:induction false} StrandedFrom(s1: State, es: seq<Event>, s2: State, x: string)
    requires ControlInv(s1) && Stuck(s1, x) && Run(s1, es, s2)
    ensures Stuck(s2, x)
    decreases |es|
  {
    if es != [] {
      StepKeepsControl(s1, es[0]);
      StepStrands(s1, es[0], x);
      StrandedFrom(Step(s1, es[0]), es[1..], s2, x);
    }
  }

  /** Shutdown is announced and no order is still to come. */
  ghost predicate Closing(s: State) {
    s.sh.shutdown && forall i :: 0 <= i < |s.traders| ==> s.traders[i].phase.TFinished?
  }

  /** A round that has started goes through all its symbols, shutdown or not; a new one will not start. */
  ghost predicate Visits(cfg: Config, m: Matcher, x: string) {
    !OutOfRound(m) && Owes(cfg, m, x)
  }

  /** The book is crossed and no round under way will come to it. */
  ghost predicate LeftBehind(s: State, x: string) {
    IsCrossed(s.sh.market, x) && !Visits(s.cfg, s.matcher, x)
  }

  lemma MatcherActLeaves(cfg: Config, sh: Shared, m: Matcher, x: string)
    requires sh.shutdown && MatcherCanAct(cfg, sh, m) && m.Wants(cfg).None?
    requires IsCrossed(sh.market, x) ==>
               IsCrossed(MatcherMarket(cfg, sh.market, m), x) || (m.phase.Matching? && cfg.symbols[m.phase.k] == x)
    requires IsCrossed(MatcherMarket(cfg, sh.market, m), x) ==> IsCrossed(sh.market, x)
    ensures IsCrossed(MatcherMarket(cfg, sh.market, m), x) && !Visits(cfg, MatcherNext(cfg, sh, m), x)
       <==> IsCrossed(sh.market, x) && !Visits(cfg, m, x)
  {
    var n := MatcherNext(cfg, sh, m);
    if m.phase.Matching? {
      UncrossedWhenLeft(cfg, sh, m);
      if OwesFrom(cfg, m.phase.k, x) {
        OwesNext(cfg, m.phase.k, x);
      }
      assert cfg.symbols[m.phase.k] == x ==> OwesFrom(cfg, m.phase.k, x);
      LaterOwed(cfg, m.phase.k, x);
    }
  }

  lemma LaterOwed(cfg: Config, k: nat, x: string)
    ensures OwesFrom(cfg, k + 1, x) ==> OwesFrom(cfg, k, x)
  {
  }

  /** The matcher leaves every book crossed but the one it is working on. */
  lemma CrossedAfter(s: State, x: string)
    requires Shape(s) && Enabled(s, MatcherStep) && IsCrossed(s.sh.market, x)
    ensures IsCrossed(Step(s, MatcherStep).sh.market, x)
         || (s.matcher.phase.Matching? && s.cfg.symbols[s.matcher.phase.k] == x)
  {
    if IsTrade(s, MatcherStep) {
      TradeEffect(s, MatcherStep);
    } else {
      MatcherStepQuiet(s);
    }
  }

  lemma MatcherLeaves(s: State, x: string)
    requires Closing(s) && Shape(s) && Enabled(s, MatcherStep)
    ensures LeftBehind(Step(s, MatcherStep), x) <==> LeftBehind(s, x)
  {
    if s.matcher.Wants(s.cfg).None? {
      if IsCrossed(s.sh.market, x) {
        CrossedAfter(s, x);
      }
      if IsCrossed(Step(s, MatcherStep).sh.market, x) {
        CrossedBefore(s, x);
      }
      MatcherActLeaves(s.cfg, s.sh, s.matcher, x);
    }
  }

  lemma StepLeaves(s: State, e: Event, x: string)
    requires Closing(s) && ControlInv(s) && Enabled(s, e)
    ensures Closing(Step(s, e)) && (LeftBehind(Step(s, e), x) <==> LeftBehind(s, x))
  {
    FinishedIsIdle(s, e);
    if e.MatcherStep? {
      MatcherLeaves(s, x);
    }
  }

  lemma {:induction false} LeftBehindFrom(s1: State, es: seq<Event>, s2: State, x: string)
    requires ControlInv(s1) && Closing(s1) && Run(s1, es, s2)
    ensures LeftBehind(s2, x) <==> LeftBehind(s1, x)
    decreases |es|
  {
    if es != [] {
      StepKeepsControl(s1, es[0]);
      StepLeaves(s1, es[0], x);
      LeftBehindFrom(Step(s1, es[0]), es[1..], s2, x);
    }
  }

  /**
   * Exactly which books end up crossed: once shutdown is announced and the traders are done, a book is crossed
   * when the matcher has finished if and only if it is crossed now and no round under way will come to it.
   */
  lemma CrossedAtExit(s1: State, es: seq<Event>, s2: State, x: string)
    requires Reachable(s1) && Closing(s1) && Run(s1, es, s2) && s2.matcher.phase.MFinished?
    ensures IsCrossed(s2.sh.market, x) <==> IsCrossed(s1.sh.market, x) && !Visits(s1.cfg, s1.matcher, x)
  {
    ReachableControl(s1);
    LeftBehindFrom(s1, es, s2, x);
  }

  // ---------------------------------------------------------------- which exchanges it happens to

  /** A turn with a limit order changes only its own book, and not the prices. */
  lemma OrderedEffect(sh: Shared, i: nat, d: Draw)
    requires Trades(sh.market, d.symbol) && sh.market.lastId >= 0 && d.limit
    ensures var n, o := Ordered(sh, i, d), NewOrder(sh.market.lastId + 1, i + 1, d, Seen(sh.market.stocks, d.symbol));
            && n.owner == sh.owner && n.room == sh.room && n.shutdown == sh.shutdown
            && n.market.stocks == sh.market.stocks && n.market.lastId >= 0 && Trades(n.market, d.symbol)
            && n.market.books[d.symbol] == Submit(sh.market.books[d.symbol], o)
  {
  }

  lemma BuyAndSellCross(buy: Order, sell: Order)
    requires buy.side == BUY && sell.side == SELL && buy.price == sell.price
    ensures Crossed(Submit(Submit(Book([], []), buy), sell))
  {
  }

  function AtMarket(x: string, buy: bool): Draw {
    Draw(x, true, buy, 0, 500)
  }

  /** After the first trader's buy. */
  function Bought(cfg: Config): Shared
    requires ValidConfig(cfg)
  {
    Ordered(Init(cfg).sh, 0, AtMarket(cfg.symbols[0], true))
  }

  lemma BoughtOnly(cfg: Config)
    requires ValidConfig(cfg)
    ensures var n, x, p := Bought(cfg), cfg.symbols[0], Seen(Opening(cfg).stocks, cfg.symbols[0]);
            && n.owner == map[] && n.room > 0 && !n.shutdown && n.market.lastId >= 0
            && Trades(n.market, x) && Seen(n.market.stocks, x) == p
            && n.market.books[x] == Submit(Book([], []), NewOrder(1, 1, AtMarket(x, true), p))
  {
    OrderedEffect(Init(cfg).sh, 0, AtMarket(cfg.symbols[0], true));
  }

  lemma BoughtAndSold(cfg: Config, seller: nat)
    requires ValidConfig(cfg)
    ensures var x := cfg.symbols[0];
            && Trades(Bought(cfg).market, x)
            && IsCrossed(Ordered(Bought(cfg), seller, AtMarket(x, false)).market, x)
  {
    var x, m := cfg.symbols[0], Bought(cfg).market;
    BoughtOnly(cfg);
    OrderedEffect(Bought(cfg), seller, AtMarket(x, false));
    BuyAndSellCross(NewOrder(1, 1, AtMarket(x, true), Seen(Opening(cfg).stocks, x)),
                    NewOrder(m.lastId + 1, seller + 1, AtMarket(x, false), Seen(m.stocks, x)));
  }

  lemma FirstBuys(cfg: Config) returns (es: seq<Event>)
    requires ValidConfig(cfg) && cfg.traders >= 1 && cfg.ordersPerTrader >= 1
    ensures Run(Init(cfg), es, At(Init(cfg), 0, Bought(cfg), Outside(Loop, 1, 1))) && ByTraders(es)
  {
    es := FirstTurn(Init(cfg), [], Init(cfg), 0, AtMarket(cfg.symbols[0], true));
  }

  lemma SecondSells(cfg: Config) returns (es: seq<Event>, s: State)
    requires ValidConfig(cfg) && cfg.traders >= 2 && cfg.ordersPerTrader >= 1
    ensures Run(Init(cfg), es, s) && ByTraders(es) && s.matcher == Init(cfg).matcher
    ensures IsCrossed(s.sh.market, cfg.symbols[0])
  {
    es := FirstBuys(cfg);
    BoughtOnly(cfg);
    var s1 := At(Init(cfg), 0, Bought(cfg), Outside(Loop, 1, 1));
    es := FirstTurn(Init(cfg), es, s1, 1, AtMarket(cfg.symbols[0], false));
    BoughtAndSold(cfg, 1);
    s := At(s1, 1, Ordered(Bought(cfg), 1, AtMarket(cfg.symbols[0], false)), Outside(Loop, 1, 1));
  }

  lemma FirstSells(cfg: Config) returns (es: seq<Event>, s: State)
    requires ValidConfig(cfg) && cfg.traders >= 1 && cfg.ordersPerTrader >= 2
    ensures Run(Init(cfg), es, s) && ByTraders(es) && s.matcher == Init(cfg).matcher
    ensures IsCrossed(s.sh.market, cfg.symbols[0])
  {
    es := FirstBuys(cfg);
    BoughtOnly(cfg);
    BoughtAndSold(cfg, 0);
    es, s := SellsNext(Init(cfg), es, Bought(cfg), AtMarket(cfg.symbols[0], false));
  }

  lemma SellsNext(s0: State, es: seq<Event>, sh: Shared, d: Draw) returns (fs: seq<Event>, s: State)
    requires s0.traders != [] && ValidDraw(s0.cfg.symbols, d) && d.limit
    requires Run(s0, es, At(s0, 0, sh, Outside(Loop, 1, 1))) && ByTraders(es)
    requires sh.owner == map[] && sh.room > 0 && !sh.shutdown && s0.cfg.ordersPerTrader > 1 && sh.market.lastId >= 0
    requires Trades(sh.market, d.symbol)
    ensures Run(s0, fs, s) && ByTraders(fs) && s.matcher == s0.matcher && s.sh == Ordered(sh, 0, d)
  {
    fs := Turn(s0, es, s0, 0, d, sh, 1, 1);
    s := At(s0, 0, Ordered(sh, 0, d), Outside(Loop, 2, 2));
  }

  /** A buy and a sell at the same limit, both inserted before the matcher first runs: by two traders, or by one. */
  lemma TwoOrdersCross(cfg: Config) returns (es: seq<Event>, s: State, x: string)
    requires ValidConfig(cfg) && cfg.traders * cfg.ordersPerTrader >= 2
    ensures Run(Init(cfg), es, s) && ByTraders(es)
    ensures s.matcher == Init(cfg).matcher && IsCrossed(s.sh.market, x)
  {
    x := cfg.symbols[0];
    if cfg.traders >= 2 {
      es, s := SecondSells(cfg);
    } else {
      es, s := FirstSells(cfg);
    }
  }

  lemma {:induction false} CrossedMeanwhile(s1: State, es: seq<Event>, s2: State, x: string)
    requires ControlInv(s1) && Run(s1, es, s2) && IsCrossed(s1.sh.market, x)
    requires forall e :: e in es ==> !e.MatcherStep?
    ensures IsCrossed(s2.sh.market, x)
    decreases |es|
  {
    if es != [] {
      assert es[0] in es && forall e :: e in es[1..] ==> e in es;
      StepKeepsControl(s1, es[0]);
      OthersKeepCrossed(s1, es[0], x);
      CrossedMeanwhile(Step(s1, es[0]), es[1..], s2, x);
    }
  }

  lemma OthersKeepCrossed(s: State, e: Event, x: string)
    requires Shape(s) && Enabled(s, e) && !e.MatcherStep? && IsCrossed(s.sh.market, x)
    ensures IsCrossed(Step(s, e).sh.market, x)
  {
    if IsInsertion(s, e) {
      InsertionEffect(s, e);
      SubmitKeepsCrossed(s.sh.market.books[x], s.traders[e.i].phase.order);
    } else {
      QuietEffect(s, e);
    }
  }

  /** A run of the exchange from its start to its end, without SIGINT, that leaves a book crossed. */
  ghost predicate EndsCrossed(cfg: Config, es: seq<Event>, t: State, x: string) {
    && Run(Init(cfg), es, t) && (forall e :: e in es ==> !e.Interrupt?)
    && AllFinished(t) && IsCrossed(t.sh.market, x)
  }

  /** Any exchange that takes two orders has such a run: main raises the flag before the matcher gets going. */
  lemma CrossedAtExitHappens(cfg: Config) returns (es: seq<Event>, t: State, x: string)
    requires ValidConfig(cfg) && cfg.traders * cfg.ordersPerTrader >= 2
    ensures EndsCrossed(cfg, es, t, x)
  {
    var fs, s;
    fs, s, x := TwoOrdersCross(cfg);
    RunKeepsConfig(Init(cfg), fs, s);
    var gs, u := RunsToShutdown(s);
    ReachableControl(s);
    CrossedMeanwhile(s, gs, u, x);
    var hs;
    hs, t := RunsToTheEnd(u);
    StrandedForever(u, hs, t, x);
    RunConcat(Init(cfg), fs, s, gs, u);
    RunConcat(Init(cfg), fs + gs, u, hs, t);
    es := fs + gs + hs;
  }

  /** With fewer orders than two no book is ever crossed. */
  lemma FewOrdersNeverCross(s: State, x: string)
    requires Reachable(s) && s.cfg.traders * s.cfg.ordersPerTrader < 2
    ensures !IsCrossed(s.sh.market, x)
  {
    ReachableBooks(s);
    if x in s.cfg.symbols {
      InsertedAtMost(s);
      WholeRunOrders(s, x);
      TotalAtLeast(ArrivalCounts(s.sh.market), s.cfg.symbols, x);
    }
  }

  /** Exactly which exchanges can end with a crossed book: those that take two orders at all. */
  lemma CrossedAtExitPossible(cfg: Config)
    requires ValidConfig(cfg)
    ensures (exists es, t, x :: EndsCrossed(cfg, es, t, x)) <==> cfg.traders * cfg.ordersPerTrader >= 2
  {
    if cfg.traders * cfg.ordersPerTrader >= 2 {
      var es, t, x := CrossedAtExitHappens(cfg);
    } else {
      forall es, t, x
        ensures !EndsCrossed(cfg, es, t, x)
      {
        if EndsCrossed(cfg, es, t, x) {
          RunKeepsConfig(Init(cfg), es, t);
          FewOrdersNeverCross(t, x);
        }
      }
    }
  }
}
