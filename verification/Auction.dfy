/** The running exchange holds call auctions: every batch the matcher commits clears the book it found. */
module Auction {
  import opened Orders
  import opened Crossing
  import opened Clearing
  import opened Surplus
  import opened BookHistory
  import opened Ledger
  import opened Exchange
  import opened Runs
  import opened Control
  import opened Books
  import opened Matching

  lemma MatcherKeepsStart(cfg: Config, sh: Shared, m: Matcher)
    requires m.Wants(cfg).None? ==> MatcherCanAct(cfg, sh, m)
    ensures MatcherMove(cfg, sh, m).1.start == m.start
         || (m.phase.Matching? && m.phase.k < |cfg.symbols| && cfg.symbols[m.phase.k] in sh.market.books
             && MatcherMove(cfg, sh, m).1.start == sh.market.books[cfg.symbols[m.phase.k]])
  {
  }

  lemma OthersKeepMatcher(s: State, e: Event)
    requires Enabled(s, e) && !e.MatcherStep?
    ensures Step(s, e).matcher == s.matcher
  {
  }

  lemma BookValid(s: State, x: string)
    requires BooksAreHistories(s) && x in s.cfg.symbols
    ensures ValidBook(s.sh.market.books[x])
  {
    HistoryValid(s.sh.market.books[x], s.sh.market.arrivals[x], OfSymbol(Executed(s), x));
  }

  /** Taking a book's mutex finds a valid book, and nothing else changes what was found. */
  lemma StepKeepsStart(s: State, e: Event)
    requires ValidBook(s.matcher.start) && Shape(s) && BooksAreHistories(s) && Enabled(s, e)
    ensures ValidBook(Step(s, e).matcher.start)
  {
    if e.MatcherStep? {
      MatcherKeepsStart(s.cfg, s.sh, s.matcher);
      if s.matcher.phase.Matching? && s.matcher.phase.k < |s.cfg.symbols| {
        BookValid(s, s.cfg.symbols[s.matcher.phase.k]);
      }
    } else {
      OthersKeepMatcher(s, e);
    }
  }

  lemma {:induction false} StartAlong(cfg: Config, es: seq<Event>, s: State)
    requires ValidConfig(cfg) && Run(Init(cfg), es, s)
    ensures ValidBook(s.matcher.start)
    decreases |es|
  {
    if es != [] {
      var n := |es| - 1;
      var u := LastStep(Init(cfg), es, s);
      StartAlong(cfg, es[..n], u);
      BooksAlong(cfg, es[..n], u);
      StepKeepsStart(u, es[n]);
    }
  }

  lemma ReachableStart(s: State)
    requires Reachable(s)
    ensures ValidBook(s.matcher.start)
  {
    var es :| Run(Init(s.cfg), es, s);
    StartAlong(s.cfg, es, s);
  }

  /** The batch is on its way from the book to the history, the stock and the counters. */
  predicate HasBatch(m: Matcher) {
    m.phase.Push? || m.phase.CommitStock? || m.phase.Tally?
  }

  lemma BatchOfCall(cfg: Config, market: Market, m: Matcher)
    requires CallInv(cfg, market, m) && MatcherShape(cfg, m) && HasBatch(m)
    ensures m.phase.k < |cfg.symbols| && m.trades == Match(cfg.symbols[m.phase.k], m.start).trades
  {
  }

  lemma BatchIsOutcome(s: State)
    requires Reachable(s) && HasBatch(s.matcher)
    ensures s.matcher.phase.k < |s.cfg.symbols| && ValidBook(s.matcher.start)
    ensures s.matcher.trades == Match(s.cfg.symbols[s.matcher.phase.k], s.matcher.start).trades
  {
    ReachableStart(s);
    ReachableMatching(s);
    BatchOfCall(s.cfg, s.sh.market, s.matcher);
  }

  /**
   * In every reachable state with a finished batch: it is the outcome of the loop on the book found under the mutex,
   * its volume is the most that any single price could have traded there, and its trades are a feasible allocation
   * of the shares resting there, with the largest gains of all.
   */
  lemma BatchIsAuction(s: State)
    requires Reachable(s) && HasBatch(s.matcher)
    ensures s.matcher.phase.k < |s.cfg.symbols| && ValidBook(s.matcher.start)
    ensures var x, b, ts := s.cfg.symbols[s.matcher.phase.k], s.matcher.start, s.matcher.trades;
            && ts == Match(x, b).trades
            && (forall p: real :: TradableAt(b, p) <= Volume(ts)) && (exists p: real :: TradableAt(b, p) == Volume(ts))
            && Feasible(Traded(ts, b), b) && Gain(Traded(ts, b), b.buys, b.sells) == TradeGain(ts, b)
            && forall y :: Feasible(y, b) ==> Gain(y, b.buys, b.sells) <= TradeGain(ts, b)
  {
    BatchIsOutcome(s);
    var x, b := s.cfg.symbols[s.matcher.phase.k], s.matcher.start;
    ClearingVolume(x, b);
    MaximumAttained(x, b);
  }
}
