/** Counters, stock volumes and the bounded history agree with the trades executed, whatever is in flight. */
module Accounting {
  import opened Orders
  import opened Crossing
  import opened BookHistory
  import opened Ledger
  import opened Exchange
  import opened Runs
  import opened Control
  import opened Books

  /** The batch is executed but not yet in the history. */
  predicate Unpushed(m: Matcher) {
    m.phase.Matching? || m.phase.LogTrade? || m.phase.Push?
  }

  /** The batch is executed but not yet in the stock's record. */
  predicate Uncommitted(m: Matcher) {
    Unpushed(m) || m.phase.CommitStock?
  }

  /** Executed trades without the last n. */
  function Without(ex: seq<TradeRecord>, n: nat): seq<TradeRecord> {
    if n <= |ex| then ex[..|ex| - n] else []
  }

  function Batch(pending: bool, m: Matcher): nat {
    if pending then |m.trades| else 0
  }

  /** The batch is the end of what was executed, all of it for the symbol being worked on. */
  ghost predicate BatchOk(cfg: Config, ex: seq<TradeRecord>, m: Matcher) {
    && ex == Without(ex, |m.trades|) + m.trades
    && (Uncommitted(m) && m.phase.k < |cfg.symbols|
        ==> forall t :: t in m.trades ==> t.symbol == cfg.symbols[m.phase.k])
  }

  ghost predicate CountersOk(market: Market, ex: seq<TradeRecord>, m: Matcher) {
    market.totalTrades == |ex| == m.matches + |m.trades| && market.totalVolume == Volume(ex)
  }

  ghost predicate HistoryOk(market: Market, ex: seq<TradeRecord>, m: Matcher) {
    market.history == LastN(Without(ex, Batch(Unpushed(m), m)), MAX_HISTORY)
  }

  /** Every stock's volume is that of its own trades among ts. */
  ghost predicate VolumesAre(stocks: map<string, Stock>, ts: seq<TradeRecord>, symbols: seq<string>) {
    forall x :: x in symbols ==> x in stocks && stocks[x].volume == Volume(OfSymbol(ts, x))
  }

  ghost predicate VolumesOk(cfg: Config, market: Market, ex: seq<TradeRecord>, m: Matcher) {
    VolumesAre(market.stocks, Without(ex, Batch(Uncommitted(m), m)), cfg.symbols)
  }

  ghost predicate AccountsOk(cfg: Config, market: Market, ex: seq<TradeRecord>, m: Matcher) {
    BatchOk(cfg, ex, m) && CountersOk(market, ex, m) && HistoryOk(market, ex, m) && VolumesOk(cfg, market, ex, m)
  }

  ghost predicate Accounted(s: State) {
    AccountsOk(s.cfg, s.sh.market, Executed(s), s.matcher)
  }

  // ---------------------------------------------------------------- the matcher's steps

  lemma WithoutAppend(ex: seq<TradeRecord>, t: TradeRecord, n: nat)
    requires n <= |ex|
    ensures Without(ex + [t], n + 1) == Without(ex, n)
  {
  }

  lemma TradeKeepsBatch(cfg: Config, ex: seq<TradeRecord>, m: Matcher, n: Matcher, t: TradeRecord)
    requires BatchOk(cfg, ex, m) && m.phase.Matching? && m.phase.k < |cfg.symbols| && t.symbol == cfg.symbols[m.phase.k]
    requires n.phase == LogTrade(m.phase.k) && n.trades == m.trades + [t]
    ensures BatchOk(cfg, ex + [t], n)
  {
    WithoutAppend(ex, t, |m.trades|);
    var before := Without(ex, |m.trades|);
    assert before + m.trades + [t] == before + (m.trades + [t]);
  }

  lemma TradeKeepsCounters(market: Market, after: Market, ex: seq<TradeRecord>, m: Matcher, n: Matcher, t: TradeRecord)
    requires CountersOk(market, ex, m) && n.matches == m.matches && n.trades == m.trades + [t]
    requires after.totalTrades == market.totalTrades + 1 && after.totalVolume == market.totalVolume + t.quantity
    ensures CountersOk(after, ex + [t], n)
  {
    VolumeConcat(ex, [t]);
    assert Volume([t]) == t.quantity;
  }

  /** What is in the history and in the stocks does not count the batch, before and after. */
  lemma TradeKeepsRest(
    cfg: Config, market: Market, after: Market, ex: seq<TradeRecord>, m: Matcher, n: Matcher, t: TradeRecord)
    requires HistoryOk(market, ex, m) && VolumesOk(cfg, market, ex, m) && |m.trades| <= |ex|
    requires m.phase.Matching? && n.phase.LogTrade? && n.trades == m.trades + [t]
    requires after.history == market.history && after.stocks == market.stocks
    ensures HistoryOk(after, ex + [t], n) && VolumesOk(cfg, after, ex + [t], n)
  {
    WithoutAppend(ex, t, |m.trades|);
  }

  lemma TradeKeepsAccounts(s: State)
    requires Accounted(s) && Enabled(s, MatcherStep) && IsTrade(s, MatcherStep)
    ensures Accounted(Step(s, MatcherStep))
  {
    TradeEffect(s, MatcherStep);
    TradeMoves(s);
    var n := Step(s, MatcherStep);
    var x := s.cfg.symbols[s.matcher.phase.k];
    var t, ex := TopTrade(x, s.sh.market.books[x]), Executed(s);
    TradeKeepsBatch(s.cfg, ex, s.matcher, n.matcher, t);
    TradeKeepsCounters(s.sh.market, n.sh.market, ex, s.matcher, n.matcher, t);
    TradeKeepsRest(s.cfg, s.sh.market, n.sh.market, ex, s.matcher, n.matcher, t);
  }

  lemma TradeMoves(s: State)
    requires Enabled(s, MatcherStep) && IsTrade(s, MatcherStep)
    ensures var m, n := s.matcher, Step(s, MatcherStep).matcher;
            && n.phase == LogTrade(m.phase.k) && n.matches == m.matches
            && Step(s, MatcherStep).cfg == s.cfg
  {
  }

  lemma PushKeepsAccounts(cfg: Config, sh: Shared, m: Matcher, ex: seq<TradeRecord>)
    requires AccountsOk(cfg, sh.market, ex, m) && MatcherCanAct(cfg, sh, m) && m.phase.Push?
    ensures AccountsOk(cfg, MatcherMarket(cfg, sh.market, m), ex, MatcherNext(cfg, sh, m))
  {
    LastNConcat(Without(ex, |m.trades|), m.trades, MAX_HISTORY);
    assert Without(ex, 0) == ex;
  }

  lemma {:induction false} OfSymbolBatch(p: seq<TradeRecord>, b: seq<TradeRecord>, symbol: string, x: string)
    requires forall t :: t in b ==> t.symbol == symbol
    ensures OfSymbol(p + b, x) == if x == symbol then OfSymbol(p, x) + b else OfSymbol(p, x)
  {
    if b == [] {
      assert p + b == p;
    } else {
      var n := |b| - 1;
      OfSymbolBatch(p, b[..n], symbol, x);
      OfSymbolAppend(p + b[..n], b[n], x);
      Snoc(p, b);
      Snoc(OfSymbol(p, x), b);
      assert b[n] in b;
    }
  }

  lemma Snoc<T>(a: seq<T>, b: seq<T>)
    requires b != []
    ensures a + b == a + b[..|b| - 1] + [b[|b| - 1]]
  {
  }

  lemma CommitVolumes(
    stocks: map<string, Stock>, p: seq<TradeRecord>, b: seq<TradeRecord>, symbol: string, symbols: seq<string>)
    requires VolumesAre(stocks, p, symbols) && symbol in stocks && b != []
    requires forall t :: t in b ==> t.symbol == symbol
    ensures VolumesAre(stocks[symbol := Commit(stocks[symbol], b)], p + b, symbols)
  {
    forall x | x in symbols
      ensures Volume(OfSymbol(p + b, x)) == Volume(OfSymbol(p, x)) + (if x == symbol then Volume(b) else 0)
    {
      OfSymbolBatch(p, b, symbol, x);
      VolumeConcat(OfSymbol(p, x), b);
    }
  }

  lemma CommitEffect(cfg: Config, sh: Shared, m: Matcher)
    requires MatcherCanAct(cfg, sh, m) && m.phase.CommitStock?
    ensures MatcherNext(cfg, sh, m) == m.Goto(Tally(m.phase.k))
    ensures var x := cfg.symbols[m.phase.k];
            MatcherMarket(cfg, sh.market, m)
            == sh.market.(stocks := sh.market.stocks[x := Commit(sh.market.stocks[x], m.trades)])
  {
  }

  lemma CommitKeepsAccounts(cfg: Config, sh: Shared, m: Matcher, ex: seq<TradeRecord>)
    requires AccountsOk(cfg, sh.market, ex, m) && MatcherCanAct(cfg, sh, m) && m.phase.CommitStock?
    ensures AccountsOk(cfg, MatcherMarket(cfg, sh.market, m), ex, MatcherNext(cfg, sh, m))
  {
    CommitEffect(cfg, sh, m);
    CommitKept(cfg, sh.market, m, ex, cfg.symbols[m.phase.k]);
  }

  lemma CommitKept(cfg: Config, market: Market, m: Matcher, ex: seq<TradeRecord>, x: string)
    requires AccountsOk(cfg, market, ex, m) && m.phase.CommitStock? && m.phase.k < |cfg.symbols| && m.trades != []
    requires x == cfg.symbols[m.phase.k] && x in market.stocks
    ensures var after := market.(stocks := market.stocks[x := Commit(market.stocks[x], m.trades)]);
            AccountsOk(cfg, after, ex, m.Goto(Tally(m.phase.k)))
  {
    CommitVolumes(market.stocks, Without(ex, |m.trades|), m.trades, x, cfg.symbols);
    assert Without(ex, 0) == ex;
  }

  /** Phases that neither trade, push nor commit. */
  lemma QuietKeepsAccounts(cfg: Config, sh: Shared, m: Matcher, ex: seq<TradeRecord>)
    requires AccountsOk(cfg, sh.market, ex, m) && MatcherCanAct(cfg, sh, m) && MatcherShape(cfg, m)
    requires !m.phase.Push? && !m.phase.CommitStock?
    requires !(m.phase.Matching? && IsCrossed(sh.market, cfg.symbols[m.phase.k]))
    ensures AccountsOk(cfg, MatcherMarket(cfg, sh.market, m), ex, MatcherNext(cfg, sh, m))
  {
    assert Without(ex, 0) == ex;
  }

  lemma MatcherKeepsAccounts(s: State)
    requires Accounted(s) && Shape(s) && Enabled(s, MatcherStep)
    ensures Accounted(Step(s, MatcherStep))
  {
    if IsTrade(s, MatcherStep) {
      TradeKeepsAccounts(s);
    } else {
      MatcherStepQuiet(s);
      var cfg, sh, m, ex := s.cfg, s.sh, s.matcher, Executed(s);
      if m.Wants(cfg).None? {
        if m.phase.Push? {
          PushKeepsAccounts(cfg, sh, m, ex);
        } else if m.phase.CommitStock? {
          CommitKeepsAccounts(cfg, sh, m, ex);
        } else {
          QuietKeepsAccounts(cfg, sh, m, ex);
        }
      }
    }
  }

  // ---------------------------------------------------------------- everybody else's steps

  /** The fields that accounting reads. */
  ghost predicate SameAccounts(cfg: Config, m: Market, n: Market) {
    && n.totalTrades == m.totalTrades && n.totalVolume == m.totalVolume
    && n.history == m.history && n.tradeLog == m.tradeLog
    && forall x :: x in cfg.symbols && x in m.stocks ==> x in n.stocks && n.stocks[x].volume == m.stocks[x].volume
  }

  lemma OthersKeepAccounts(s: State, e: Event)
    requires Enabled(s, e) && !e.MatcherStep?
    ensures SameAccounts(s.cfg, s.sh.market, Step(s, e).sh.market) && Step(s, e).matcher == s.matcher
  {
    if e.TraderStep? {
      if IsInsertion(s, e) {
        InsertionEffect(s, e);
      } else if s.traders[e.i].Wants().None? {
        TraderQuiet(s.sh, s.traders[e.i]);
      }
    }
  }

  lemma StepKeepsAccounts(s: State, e: Event)
    requires Accounted(s) && Shape(s) && Enabled(s, e)
    ensures Accounted(Step(s, e))
  {
    if e.MatcherStep? {
      MatcherKeepsAccounts(s);
    } else {
      OthersKeepAccounts(s, e);
      StepKeepsConfig(s, e);
    }
  }

  lemma InitAccounts(cfg: Config)
    requires ValidConfig(cfg)
    ensures Accounted(Init(cfg))
  {
  }

  lemma {:induction false} RunKeepsAccounts(s1: State, es: seq<Event>, s2: State)
    requires ControlInv(s1) && Accounted(s1) && Run(s1, es, s2)
    ensures Accounted(s2)
    decreases |es|
  {
    if es != [] {
      StepKeepsControl(s1, es[0]);
      StepKeepsAccounts(s1, es[0]);
      RunKeepsAccounts(Step(s1, es[0]), es[1..], s2);
    }
  }

  lemma ReachableAccounts(s: State)
    requires Reachable(s)
    ensures Accounted(s)
  {
    var es :| Run(Init(s.cfg), es, s);
    InitControl(s.cfg);
    InitAccounts(s.cfg);
    RunKeepsAccounts(Init(s.cfg), es, s);
  }

  // ---------------------------------------------------------------- what this says about every run

  function VolumesOf(m: Market): map<string, int> {
    map x | x in m.stocks :: m.stocks[x].volume
  }

  ghost function SymbolVolumes(ts: seq<TradeRecord>, symbols: seq<string>): map<string, int> {
    map x | x in symbols :: Volume(OfSymbol(ts, x))
  }

  /** The symbols' volumes make up the whole volume. */
  lemma {:induction false} VolumeBySymbol(ts: seq<TradeRecord>, symbols: seq<string>)
    requires Distinct(symbols) && forall t :: t in ts ==> t.symbol in symbols
    ensures Total(SymbolVolumes(ts, symbols), symbols) == Volume(ts)
  {
    if ts == [] {
      NoVolume(symbols, symbols);
    } else {
      var n := |ts| - 1;
      var p, t := ts[..n], ts[n];
      assert ts == p + [t] && t in ts && forall u :: u in p ==> u in ts;
      VolumeBySymbol(p, symbols);
      VolumeConcat(p, [t]);
      assert Volume([t]) == t.quantity;
      forall x | x in symbols
        ensures ValueAt(SymbolVolumes(ts, symbols), x)
             == ValueAt(SymbolVolumes(p, symbols), x) + (if x == t.symbol then t.quantity else 0)
      {
        OneMoreVolume(p, t, x);
      }
      TotalChange(SymbolVolumes(p, symbols), SymbolVolumes(ts, symbols), symbols, t.symbol);
    }
  }

  lemma OneMoreVolume(p: seq<TradeRecord>, t: TradeRecord, x: string)
    ensures Volume(OfSymbol(p + [t], x)) == Volume(OfSymbol(p, x)) + (if x == t.symbol then t.quantity else 0)
  {
    OfSymbolAppend(p, t, x);
    VolumeConcat(OfSymbol(p, x), [t]);
    assert Volume([t]) == t.quantity;
  }

  lemma {:induction false} NoVolume(symbols: seq<string>, all: seq<string>)
    requires forall x :: x in symbols ==> x in all
    ensures Total(SymbolVolumes([], all), symbols) == 0
  {
    if symbols != [] {
      assert symbols[0] in symbols && forall x :: x in symbols[1..] ==> x in symbols;
      NoVolume(symbols[1..], all);
    }
  }

  lemma {:induction false} TotalSame(v: map<string, int>, w: map<string, int>, symbols: seq<string>)
    requires forall x :: x in symbols ==> ValueAt(v, x) == ValueAt(w, x)
    ensures Total(v, symbols) == Total(w, symbols)
  {
    if symbols != [] {
      assert symbols[0] in symbols && forall x :: x in symbols[1..] ==> x in symbols;
      assert ValueAt(v, symbols[0]) == ValueAt(w, symbols[0]);
      TotalSame(v, w, symbols[1..]);
    }
  }

  /**
   * In every reachable state the total volume is what the stocks show plus the batch not yet committed, and
   * the total of trades is what the matcher counted plus its batch: equal once the matcher has finished.
   */
  lemma InFlight(s: State)
    requires Reachable(s)
    ensures s.sh.market.totalVolume == Total(VolumesOf(s.sh.market), s.cfg.symbols)
                                       + (if Uncommitted(s.matcher) then Volume(s.matcher.trades) else 0)
    ensures s.sh.market.totalTrades == s.matcher.matches + |s.matcher.trades|
    ensures s.matcher.phase.MFinished? ==> s.matcher.trades == []
  {
    ReachableAccounts(s);
    ReachableControl(s);
    ReachableTradesOfSymbols(s);
    var ex := Executed(s);
    var committed := Without(ex, Batch(Uncommitted(s.matcher), s.matcher));
    assert ex == committed + if Uncommitted(s.matcher) then s.matcher.trades else [];
    VolumeConcat(committed, if Uncommitted(s.matcher) then s.matcher.trades else []);
    assert forall t :: t in committed ==> t in ex;
    VolumeBySymbol(committed, s.cfg.symbols);
    TotalSame(VolumesOf(s.sh.market), SymbolVolumes(committed, s.cfg.symbols), s.cfg.symbols);
  }

  /** The executed trades but for a batch that is not in the history yet. */
  function Pushed(s: State): seq<TradeRecord> {
    Without(Executed(s), Batch(Unpushed(s.matcher), s.matcher))
  }

  lemma PushedAndBatch(s: State)
    requires Reachable(s)
    ensures s.sh.market.history == LastN(Pushed(s), MAX_HISTORY)
    ensures Executed(s) == Pushed(s) + (if Unpushed(s.matcher) then s.matcher.trades else [])
  {
    ReachableAccounts(s);
    assert Executed(s) + [] == Executed(s);
  }

  /** The bounded history is always the last thousand of the pushed trades, or all of them, in execution order. */
  lemma HistoryIsSuffix(s: State)
    requires Reachable(s)
    ensures Executed(s) == Pushed(s) + (if Unpushed(s.matcher) then s.matcher.trades else [])
    ensures |s.sh.market.history| == Min(1000, |Pushed(s)|)
    ensures var h, p := s.sh.market.history, Pushed(s);
            forall k :: 0 <= k < |h| ==> h[k] == p[|p| - |h| + k]
  {
    PushedAndBatch(s);
    LastNIs(Pushed(s), MAX_HISTORY);
  }

  // ---------------------------------------------------------------- bought, sold and counted

  /** For each symbol, the shares that the whole log gives the orders of a side that arrived for it. */
  function FilledPerSymbol(s: State, side: OrderSide): map<string, int> {
    map x | x in s.sh.market.arrivals :: TotalFilled(s.sh.market.arrivals[x], side, Executed(s))
  }

  lemma {:induction false} TotalFilledSame(a: seq<Order>, side: OrderSide, ts: seq<TradeRecord>, us: seq<TradeRecord>)
    requires forall o :: o in a ==> FilledOf(o, ts) == FilledOf(o, us)
    ensures TotalFilled(a, side, ts) == TotalFilled(a, side, us)
  {
    if a != [] {
      assert a[0] in a && forall o :: o in a[1..] ==> o in a;
      assert FilledOf(a[0], ts) == FilledOf(a[0], us);
      TotalFilledSame(a[1..], side, ts, us);
    }
  }

  lemma FilledIsVolume(s: State, side: OrderSide, x: string)
    requires Reachable(s) && x in s.cfg.symbols
    ensures ValueAt(FilledPerSymbol(s, side), x) == Volume(OfSymbol(Executed(s), x))
  {
    ReachableBooks(s);
    var a, ts := s.sh.market.arrivals[x], Executed(s);
    forall o | o in a
      ensures FilledOf(o, ts) == FilledOf(o, OfSymbol(ts, x))
    {
      var i :| 0 <= i < |a| && a[i] == o;
      SharesAreLocal(s, x, i);
    }
    TotalFilledSame(a, side, ts, OfSymbol(ts, x));
    WholeRunBoughtIsSold(s, x);
  }

  /** Over all symbols and arrivals, shares bought are shares sold, and the exchange's counter shows just that. */
  lemma BoughtIsSoldIsCounted(s: State)
    requires Reachable(s)
    ensures Total(FilledPerSymbol(s, BUY), s.cfg.symbols) == s.sh.market.totalVolume
    ensures Total(FilledPerSymbol(s, SELL), s.cfg.symbols) == s.sh.market.totalVolume
  {
    ReachableAccounts(s);
    ReachableControl(s);
    ReachableTradesOfSymbols(s);
    var ex, symbols := Executed(s), s.cfg.symbols;
    VolumeBySymbol(ex, symbols);
    forall side, x | x in symbols
      ensures ValueAt(FilledPerSymbol(s, side), x) == ValueAt(SymbolVolumes(ex, symbols), x)
    {
      FilledIsVolume(s, side, x);
    }
    TotalSame(FilledPerSymbol(s, BUY), SymbolVolumes(ex, symbols), symbols);
    TotalSame(FilledPerSymbol(s, SELL), SymbolVolumes(ex, symbols), symbols);
  }

  // ---------------------------------------------------------------- the count of a round

  lemma MatcherRoundCount(cfg: Config, sh: Shared, m: Matcher)
    requires m.Wants(cfg).None? ==> MatcherCanAct(cfg, sh, m)
    ensures var n := MatcherMove(cfg, sh, m).1;
            || (n.rounds == m.rounds + 1 && n.round == 0 && n.matches == m.matches)
            || (n.rounds == m.rounds && n.round - m.round == n.matches - m.matches)
  {
  }

  lemma StepRoundCount(s: State, e: Event)
    requires Enabled(s, e)
    ensures var m, n := s.matcher, Step(s, e).matcher;
            || (n.rounds == m.rounds + 1 && n.round == 0 && n.matches == m.matches)
            || (n.rounds == m.rounds && n.round - m.round == n.matches - m.matches)
  {
    if e.MatcherStep? {
      MatcherRoundCount(s.cfg, s.sh, s.matcher);
    }
  }

  /** Within a round the round's count grows as the total does; a new round starts it at nothing. */
  lemma {:induction false} RoundCounted(s1: State, es: seq<Event>, s2: State)
    requires Run(s1, es, s2)
    ensures s1.matcher.rounds <= s2.matcher.rounds
    ensures s2.matcher.rounds == s1.matcher.rounds
        ==> s2.matcher.round - s1.matcher.round == s2.matcher.matches - s1.matcher.matches
    decreases |es|
  {
    if es != [] {
      StepRoundCount(s1, es[0]);
      RoundCounted(Step(s1, es[0]), es[1..], s2);
    }
  }
}
