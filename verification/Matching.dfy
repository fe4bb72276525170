/**
 * What the matcher owes the books: while it runs no crossed book is ever forgotten, a round's work on a symbol
 * is one atomic call of the crossing loop, and there are no more rounds than submissions.
 */
module Matching {
  import opened Orders
  import opened Crossing
  import opened Ledger
  import opened Exchange
  import opened Runs
  import opened Control
  import opened Books

  // ---------------------------------------------------------------- no lost order

  ghost predicate OwesFrom(cfg: Config, k: nat, x: string) {
    exists j :: k <= j < |cfg.symbols| && cfg.symbols[j] == x
  }

  /** The matcher has cleared the flag and not yet finished with symbol x this round. */
  ghost predicate Owes(cfg: Config, m: Matcher, x: string) {
    match m.phase
    case Recheck => true
    case Next(k) => OwesFrom(cfg, k, x)
    case Matching(k) => OwesFrom(cfg, k, x)
    case LogTrade(k) => OwesFrom(cfg, k, x)
    case Push(k) => OwesFrom(cfg, k + 1, x)
    case CommitStock(k) => OwesFrom(cfg, k + 1, x)
    case Tally(k) => OwesFrom(cfg, k + 1, x)
    case _ => false
  }

  /** Some trader inserted for x and has not raised the flag yet. */
  ghost predicate MidSubmit(traders: seq<Trader>, x: string) {
    exists i :: 0 <= i < |traders| && traders[i].phase.Flag? && traders[i].phase.symbol == x
  }

  /** The matcher has seen the shutdown flag and broken out of its loop. */
  predicate Leaving(m: Matcher) {
    m.phase.MLogEnd? || m.phase.MFinished?
  }

  ghost predicate Known(s: State, x: string) {
    s.sh.hasNewOrders || MidSubmit(s.traders, x) || Owes(s.cfg, s.matcher, x) || Leaving(s.matcher)
  }

  ghost predicate NoOrderLost(s: State) {
    forall x :: x in s.cfg.symbols && IsCrossed(s.sh.market, x) ==> Known(s, x)
  }

  lemma MidSubmitKept(traders: seq<Trader>, i: nat, tr: Trader, x: string)
    requires i < |traders| && MidSubmit(traders, x)
    requires !traders[i].phase.Flag? || tr.phase == traders[i].phase
    ensures MidSubmit(traders[i := tr], x)
  {
    var j :| 0 <= j < |traders| && traders[j].phase.Flag? && traders[j].phase.symbol == x;
    assert traders[i := tr][j].phase == traders[j].phase;
  }

  lemma InsertionLosesNone(s: State, e: Event)
    requires NoOrderLost(s) && Enabled(s, e) && IsInsertion(s, e)
    ensures NoOrderLost(Step(s, e))
  {
    InsertionEffect(s, e);
    var t, o := Step(s, e), s.traders[e.i].phase.order;
    assert t.traders[e.i].phase.Flag? && t.traders[e.i].phase.symbol == o.symbol;
    forall x | x in s.cfg.symbols && IsCrossed(t.sh.market, x)
      ensures Known(t, x)
    {
      if x != o.symbol && MidSubmit(s.traders, x) {
        MidSubmitKept(s.traders, e.i, t.traders[e.i], x);
      }
    }
  }

  /** A trader's other steps keep the books, and lower nothing but by raising the flag. */
  lemma TraderKeepsKnown(s: State, i: nat, d: Draw, x: string)
    requires Enabled(s, TraderStep(i, d)) && !IsInsertion(s, TraderStep(i, d)) && Known(s, x)
    ensures Known(Step(s, TraderStep(i, d)), x)
  {
    var t := Step(s, TraderStep(i, d));
    if MidSubmit(s.traders, x) && !t.sh.hasNewOrders {
      MidSubmitKept(s.traders, i, t.traders[i], x);
    }
  }

  lemma TraderLosesNone(s: State, i: nat, d: Draw)
    requires NoOrderLost(s) && Enabled(s, TraderStep(i, d)) && !IsInsertion(s, TraderStep(i, d))
    ensures NoOrderLost(Step(s, TraderStep(i, d)))
  {
    if s.traders[i].Wants().None? {
      TraderQuiet(s.sh, s.traders[i]);
    }
    forall x | x in s.cfg.symbols && IsCrossed(s.sh.market, x)
      ensures Known(Step(s, TraderStep(i, d)), x)
    {
      TraderKeepsKnown(s, i, d, x);
    }
  }

  /** Moving on from a symbol that is no longer crossed. */
  lemma OwesNext(cfg: Config, k: nat, x: string)
    requires k < |cfg.symbols| && OwesFrom(cfg, k, x)
    ensures cfg.symbols[k] == x || OwesFrom(cfg, k + 1, x)
  {
    var j :| k <= j < |cfg.symbols| && cfg.symbols[j] == x;
    assert j == k || k + 1 <= j;
  }

  /** What the matcher knew it still knows, or the symbol is not crossed any more. */
  lemma MatcherKeepsOwing(cfg: Config, sh: Shared, m: Matcher, x: string)
    requires MatcherCanAct(cfg, sh, m) && x in cfg.symbols
    requires sh.hasNewOrders || Owes(cfg, m, x) || Leaving(m)
    ensures var (sh', m') := (MatcherBody(cfg, sh, m), MatcherNext(cfg, sh, m));
            || sh'.hasNewOrders || Owes(cfg, m', x) || Leaving(m')
            || (m.phase.Matching? && m'.phase != LogTrade(m.phase.k) && x == cfg.symbols[m.phase.k])
  {
    var j :| 0 <= j < |cfg.symbols| && cfg.symbols[j] == x;
    assert OwesFrom(cfg, 0, x);
    if m.phase.Matching? && !sh.hasNewOrders {
      OwesNext(cfg, m.phase.k, x);
    }
  }

  lemma MatcherKeepsKnown(s: State, x: string)
    requires Enabled(s, MatcherStep) && x in s.cfg.symbols && Known(s, x)
    requires IsCrossed(Step(s, MatcherStep).sh.market, x)
    ensures Known(Step(s, MatcherStep), x)
  {
    if s.matcher.Wants(s.cfg).None? && !MidSubmit(s.traders, x) {
      MatcherKeepsOwing(s.cfg, s.sh, s.matcher, x);
      if s.matcher.phase.Matching? {
        UncrossedWhenLeft(s.cfg, s.sh, s.matcher);
      }
    }
  }

  lemma MatcherLosesNone(s: State)
    requires NoOrderLost(s) && Shape(s) && Enabled(s, MatcherStep)
    ensures NoOrderLost(Step(s, MatcherStep))
  {
    forall x | x in s.cfg.symbols && IsCrossed(Step(s, MatcherStep).sh.market, x)
      ensures Known(Step(s, MatcherStep), x)
    {
      CrossedBefore(s, x);
      MatcherKeepsKnown(s, x);
    }
  }

  /** The matcher crosses nothing. */
  lemma CrossedBefore(s: State, x: string)
    requires Shape(s) && Enabled(s, MatcherStep) && IsCrossed(Step(s, MatcherStep).sh.market, x)
    ensures IsCrossed(s.sh.market, x)
  {
    if IsTrade(s, MatcherStep) {
      TradeEffect(s, MatcherStep);
    } else {
      MatcherStepQuiet(s);
    }
  }

  lemma UncrossedWhenLeft(cfg: Config, sh: Shared, m: Matcher)
    requires MatcherCanAct(cfg, sh, m) && m.phase.Matching?
    ensures MatcherNext(cfg, sh, m).phase != LogTrade(m.phase.k)
         ==> !IsCrossed(MatcherMarket(cfg, sh.market, m), cfg.symbols[m.phase.k])
  {
  }

  lemma StepLosesNone(s: State, e: Event)
    requires NoOrderLost(s) && Shape(s) && Enabled(s, e)
    ensures NoOrderLost(Step(s, e))
  {
    match e
    case TraderStep(i, d) =>
      if IsInsertion(s, e) {
        InsertionLosesNone(s, e);
      } else {
        TraderLosesNone(s, i, d);
      }
    case MatcherStep => MatcherLosesNone(s);
    case _ => OthersLoseNone(s, e);
  }

  lemma OthersLoseNone(s: State, e: Event)
    requires NoOrderLost(s) && Enabled(s, e) && !e.TraderStep? && !e.MatcherStep?
    ensures NoOrderLost(Step(s, e))
  {
    var t := Step(s, e);
    assert t.sh.market.books == s.sh.market.books && t.traders == s.traders && t.matcher == s.matcher && t.cfg == s.cfg;
    assert forall x :: Known(s, x) ==> Known(t, x);
  }

  // ---------------------------------------------------------------- one symbol of a round is atomic

  predicate InLoop(m: Matcher) {
    (m.phase.Matching? && m.holding) || m.phase.LogTrade?
  }

  /** Under the book's mutex the batch so far is a prefix of one call of the loop; after it, the whole of it. */
  ghost predicate CallInv(cfg: Config, market: Market, m: Matcher) {
    && (InLoop(m) && m.phase.k < |cfg.symbols| ==>
          cfg.symbols[m.phase.k] in market.books
          && Continues(cfg.symbols[m.phase.k], m.start, m.trades, market.books[cfg.symbols[m.phase.k]]))
    && (m.phase.Matching? && !m.holding ==> m.trades == [])
    && ((m.phase.Push? || m.phase.CommitStock? || m.phase.Tally?) && m.phase.k < |cfg.symbols| ==>
          m.trades == Match(cfg.symbols[m.phase.k], m.start).trades)
  }

  ghost predicate RoundIsAtomic(s: State) {
    CallInv(s.cfg, s.sh.market, s.matcher)
  }

  lemma MatcherActContinues(cfg: Config, sh: Shared, m: Matcher)
    requires CallInv(cfg, sh.market, m) && MatcherShape(cfg, m) && MatcherCanAct(cfg, sh, m) && m.Wants(cfg).None?
    ensures CallInv(cfg, MatcherMarket(cfg, sh.market, m), MatcherNext(cfg, sh, m))
  {
    if m.phase.Matching? {
      MatchingContinues(cfg, sh, m);
    }
  }

  lemma MatchingContinues(cfg: Config, sh: Shared, m: Matcher)
    requires CallInv(cfg, sh.market, m) && MatcherCanAct(cfg, sh, m) && m.phase.Matching? && m.Wants(cfg).None?
    ensures CallInv(cfg, MatcherMarket(cfg, sh.market, m), MatcherNext(cfg, sh, m))
  {
    var x := cfg.symbols[m.phase.k];
    if IsCrossed(sh.market, x) {
      OneMore(x, m.start, m.trades, sh.market.books[x]);
    } else {
      assert m.trades + [] == m.trades;
    }
  }

  lemma CallBegins(x: string, b: Book)
    ensures Continues(x, b, [], b)
  {
    assert [] + Match(x, b).trades == Match(x, b).trades;
  }

  lemma MatcherTakeContinues(cfg: Config, sh: Shared, m: Matcher)
    requires CallInv(cfg, sh.market, m) && MarketShape(cfg, sh.market) && m.Wants(cfg).Some?
    ensures CallInv(cfg, sh.market, MatcherTake(cfg, sh, m).1)
  {
    if m.phase.Matching? {
      CallBegins(cfg.symbols[m.phase.k], sh.market.books[cfg.symbols[m.phase.k]]);
    }
  }

  lemma MatcherContinues(s: State)
    requires RoundIsAtomic(s) && Shape(s) && Enabled(s, MatcherStep)
    ensures RoundIsAtomic(Step(s, MatcherStep))
  {
    if s.matcher.Wants(s.cfg).None? {
      MatcherActContinues(s.cfg, s.sh, s.matcher);
    } else {
      MatcherTakeContinues(s.cfg, s.sh, s.matcher);
    }
  }

  /** Nobody inserts into the book that the matcher is working on. */
  lemma BookIsGuarded(s: State, e: Event)
    requires LocksHeld(s) && Enabled(s, e) && IsInsertion(s, e)
    requires InLoop(s.matcher) && s.matcher.phase.k < |s.cfg.symbols|
    ensures s.traders[e.i].phase.order.symbol != s.cfg.symbols[s.matcher.phase.k]
  {
    var l := BookLock(s.traders[e.i].phase.order.symbol);
    assert l in Owned(s.sh.owner, TraderTid(e.i));
    assert BookLock(s.cfg.symbols[s.matcher.phase.k]) in Owned(s.sh.owner, MatcherTid);
  }

  lemma InsertionKeepsRoundAtomic(s: State, e: Event)
    requires RoundIsAtomic(s) && LocksHeld(s) && Enabled(s, e) && IsInsertion(s, e)
    ensures RoundIsAtomic(Step(s, e))
  {
    InsertionEffect(s, e);
    if InLoop(s.matcher) && s.matcher.phase.k < |s.cfg.symbols| {
      BookIsGuarded(s, e);
    }
  }

  lemma OthersKeepRoundAtomic(s: State, e: Event)
    requires RoundIsAtomic(s) && Shape(s) && Enabled(s, e) && !e.MatcherStep? && !IsInsertion(s, e)
    ensures RoundIsAtomic(Step(s, e))
  {
    QuietEffect(s, e);
    assert Step(s, e).matcher == s.matcher && Step(s, e).cfg == s.cfg;
  }

  lemma StepKeepsRoundAtomic(s: State, e: Event)
    requires RoundIsAtomic(s) && Shape(s) && LocksHeld(s) && Enabled(s, e)
    ensures RoundIsAtomic(Step(s, e))
  {
    if e.MatcherStep? {
      MatcherContinues(s);
    } else if IsInsertion(s, e) {
      InsertionKeepsRoundAtomic(s, e);
    } else {
      OthersKeepRoundAtomic(s, e);
    }
  }

  // ---------------------------------------------------------------- rounds

  function Bit(b: bool): int {
    if b then 1 else 0
  }

  function AtFlag(tr: Trader): int {
    Bit(tr.phase.Flag?)
  }

  /** A round uses up a raised flag, and only a submission or main's last signal raises it. */
  ghost predicate RoundsEarned(s: State) {
    && (s.matcher.phase.Clear? && !s.sh.hasNewOrders ==> s.sh.shutdown)
    && s.matcher.rounds + Bit(s.sh.hasNewOrders) + Bit(s.matcher.phase.Recheck? && !s.sh.shutdown)
       <= s.sh.submits + Bit(s.main.PastWake())
    && s.matcher.rounds <= s.sh.submits
    && Inserted(s) == s.sh.submits + SumOver(s.traders, AtFlag)
  }

  lemma TraderFlags(cfg: Config, sh: Shared, tr: Trader, i: nat, d: Draw)
    requires tr.Wants().None? ==> TraderCanAct(sh, tr)
    ensures var (sh', tr') := TraderMove(cfg, sh, tr, i, d);
            && sh'.submits + AtFlag(tr') == sh.submits + AtFlag(tr) + Bit(tr.phase.Insert? && tr.holding)
            && Bit(sh'.hasNewOrders) - Bit(sh.hasNewOrders) <= sh'.submits - sh.submits
            && sh'.submits >= sh.submits && (sh.hasNewOrders ==> sh'.hasNewOrders) && sh'.shutdown == sh.shutdown
  {
  }

  lemma TraderKeepsRounds(s: State, i: nat, d: Draw)
    requires RoundsEarned(s) && Shape(s) && Enabled(s, TraderStep(i, d))
    ensures RoundsEarned(Step(s, TraderStep(i, d)))
  {
    InsertedChange(s, TraderStep(i, d));
    TraderFlags(s.cfg, s.sh, s.traders[i], i, d);
    SumUpdate(s.traders, i, TraderMove(s.cfg, s.sh, s.traders[i], i, d).1, AtFlag);
  }

  lemma MatcherRounds(cfg: Config, sh: Shared, m: Matcher)
    requires m.Wants(cfg).None? ==> MatcherCanAct(cfg, sh, m)
    requires m.phase.Clear? && !sh.hasNewOrders ==> sh.shutdown
    ensures var (sh', m') := MatcherMove(cfg, sh, m);
            && m'.rounds + Bit(sh'.hasNewOrders) + Bit(m'.phase.Recheck? && !sh.shutdown)
               <= m.rounds + Bit(sh.hasNewOrders) + Bit(m.phase.Recheck? && !sh.shutdown)
            && (m'.phase.Clear? && !sh'.hasNewOrders ==> sh'.shutdown)
            && (m'.rounds > m.rounds ==> !sh.shutdown)
            && sh'.submits == sh.submits && sh'.shutdown == sh.shutdown
  {
  }

  lemma MatcherKeepsRounds(s: State)
    requires RoundsEarned(s) && NoLostWakeup(s) && Shape(s) && Enabled(s, MatcherStep)
    ensures RoundsEarned(Step(s, MatcherStep))
  {
    InsertedChange(s, MatcherStep);
    MatcherRounds(s.cfg, s.sh, s.matcher);
  }

  lemma StepKeepsRounds(s: State, e: Event)
    requires RoundsEarned(s) && NoLostWakeup(s) && Shape(s) && Enabled(s, e)
    ensures RoundsEarned(Step(s, e))
  {
    match e
    case TraderStep(i, d) => TraderKeepsRounds(s, i, d);
    case MatcherStep => MatcherKeepsRounds(s);
    case _ => InsertedChange(s, e); OthersKeepRounds(s, e);
  }

  lemma MainFlags(s: State)
    requires Enabled(s, MainStep)
    ensures var (sh, m) := MainMove(s);
            && sh.submits == s.sh.submits && (s.sh.shutdown ==> sh.shutdown)
            && Bit(sh.hasNewOrders) + Bit(s.main.PastWake()) <= Bit(s.sh.hasNewOrders) + Bit(m.PastWake())
            && (s.sh.hasNewOrders ==> sh.hasNewOrders)
  {
  }

  lemma OthersKeepRounds(s: State, e: Event)
    requires RoundsEarned(s) && Enabled(s, e) && !e.TraderStep? && !e.MatcherStep?
    requires Inserted(Step(s, e)) == Inserted(s)
    ensures RoundsEarned(Step(s, e))
  {
    if e.MainStep? {
      MainFlags(s);
    }
  }

  // ---------------------------------------------------------------- every run

  ghost predicate MatchingInv(s: State) {
    NoOrderLost(s) && RoundIsAtomic(s) && RoundsEarned(s)
  }

  lemma InitMatching(cfg: Config)
    requires ValidConfig(cfg)
    ensures MatchingInv(Init(cfg))
  {
    NobodyIn(cfg.traders, AtFlag);
    NoArrivals(cfg, cfg.symbols);
  }

  lemma {:induction false} MatchingAlong(cfg: Config, es: seq<Event>, s: State)
    requires ValidConfig(cfg) && Run(Init(cfg), es, s)
    ensures ControlInv(s) && MatchingInv(s)
    decreases |es|
  {
    if es == [] {
      InitControl(cfg);
      InitMatching(cfg);
    } else {
      var n := |es| - 1;
      var u := LastStep(Init(cfg), es, s);
      MatchingAlong(cfg, es[..n], u);
      StepKeepsControl(u, es[n]);
      StepLosesNone(u, es[n]);
      StepKeepsRoundAtomic(u, es[n]);
      StepKeepsRounds(u, es[n]);
    }
  }

  lemma ReachableMatching(s: State)
    requires Reachable(s)
    ensures ControlInv(s) && MatchingInv(s)
  {
    var es :| Run(Init(s.cfg), es, s);
    MatchingAlong(s.cfg, es, s);
  }

  /**
   * No order is forgotten: a crossed book is announced by the flag, or is about to be, or is still to be visited
   * in the current round, until the matcher breaks out of its loop; being shut down alone does not excuse it.
   */
  lemma CrossedIsKnown(s: State, x: string)
    requires Reachable(s) && x in s.cfg.symbols && IsCrossed(s.sh.market, x)
    ensures s.sh.hasNewOrders || MidSubmit(s.traders, x) || Owes(s.cfg, s.matcher, x) || Leaving(s.matcher)
    ensures Leaving(s.matcher) ==> s.sh.shutdown
  {
    ReachableMatching(s);
  }

  /** While the matcher sleeps and nobody is between inserting and signalling, no book is crossed. */
  lemma SleepingMeansUncrossed(s: State, x: string)
    requires Reachable(s) && s.sh.sleeping && x in s.cfg.symbols && !MidSubmit(s.traders, x)
    ensures !IsCrossed(s.sh.market, x)
  {
    ReachableMatching(s);
  }

  /**
   * The matcher's many steps under a book's mutex amount to one call of the loop on the book it found:
   * when it leaves, its batch and the book are that call's outcome.
   */
  lemma MatcherCallIsAtomic(s: State)
    requires Reachable(s) && s.matcher.phase.Matching? && s.matcher.holding
    ensures s.matcher.phase.k < |s.cfg.symbols| && s.cfg.symbols[s.matcher.phase.k] in s.sh.market.books
    ensures var x := s.cfg.symbols[s.matcher.phase.k];
            !IsCrossed(s.sh.market, x) ==> Match(x, s.matcher.start) == Outcome(s.matcher.trades, s.sh.market.books[x])
  {
    ReachableMatching(s);
    assert s.matcher.trades + [] == s.matcher.trades;
  }

  lemma TakesBook(cfg: Config, sh: Shared, m: Matcher)
    requires m.phase.Matching? && !m.holding && m.phase.k < |cfg.symbols| && cfg.symbols[m.phase.k] in sh.market.books
    ensures var (sh', m') := MatcherMove(cfg, sh, m);
            && sh'.market == sh.market && m'.phase == m.phase && m'.holding
            && m'.start == sh.market.books[cfg.symbols[m.phase.k]] && m'.trades == m.trades
  {
  }

  /** Such a call begins when the book's mutex is taken, with the book as it is and no trades. */
  lemma CallStarts(s: State)
    requires Reachable(s) && s.matcher.phase.Matching? && !s.matcher.holding && Enabled(s, MatcherStep)
    ensures s.matcher.phase.k < |s.cfg.symbols| && s.cfg.symbols[s.matcher.phase.k] in s.sh.market.books
    ensures var n := Step(s, MatcherStep);
            && n.sh.market == s.sh.market && n.matcher.phase == s.matcher.phase && n.matcher.holding
            && n.matcher.start == s.sh.market.books[s.cfg.symbols[s.matcher.phase.k]] && n.matcher.trades == []
  {
    ReachableMatching(s);
    TakesBook(s.cfg, s.sh, s.matcher);
  }

  /** The matcher never starts more rounds than orders were submitted, however often it wakes. */
  lemma RoundsBounded(s: State)
    requires Reachable(s)
    ensures s.matcher.rounds <= s.sh.submits <= Inserted(s)
  {
    ReachableMatching(s);
    SumBounds(s.traders, AtFlag);
  }
}
