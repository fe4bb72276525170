/** Shared data is written, and read where it decides a step, only inside the mutex that guards it. */
module Guards {
  import opened Options
  import opened Orders
  import opened Ledger
  import opened Exchange
  import opened Control

  /** Whose step it is; SIGINT and spurious wakeups are nobody's. */
  function Actor(e: Event): Option<Tid> {
    match e
    case TraderStep(i, _) => Some(TraderTid(i))
    case MatcherStep => Some(MatcherTid)
    case MakerStep(_) => Some(MakerTid)
    case DashStep => Some(DashTid)
    case MainStep => Some(MainTid)
    case _ => None
  }

  ghost predicate Inside(s: State, e: Event, l: Lock) {
    Actor(e).Some? && l in Owned(s.sh.owner, Actor(e).value)
  }

  /** What changed from m to n is guarded by mutexes among these. */
  ghost predicate GuardedBy(held: set<Lock>, m: Market, n: Market) {
    && n.books.Keys == m.books.Keys && n.arrivals.Keys == m.arrivals.Keys
    && (forall x :: x in m.books && n.books[x] != m.books[x] ==> BookLock(x) in held)
    && (forall x :: x in m.arrivals && n.arrivals[x] != m.arrivals[x] ==> BookLock(x) in held)
    && (n.stocks != m.stocks ==> StockLock in held)
    && (n.history != m.history ==> HistoryLock in held)
    && (n.tradeLog != m.tradeLog ==> LoggerLock in held)
  }

  /** The step's thread is inside the mutexes of all that it changes in the market. */
  ghost predicate Guarded(s: State, e: Event, m: Market, n: Market) {
    GuardedBy(if Actor(e).Some? then Owned(s.sh.owner, Actor(e).value) else {}, m, n)
  }

  lemma TraderWrites(sh: Shared, tr: Trader)
    requires TraderCanAct(sh, tr) && tr.Wants().None?
    ensures GuardedBy(tr.Holds(), sh.market, TraderBody(sh, tr).market)
    ensures TraderBody(sh, tr).hasNewOrders != sh.hasNewOrders ==> NewOrderLock in tr.Holds()
  {
  }

  lemma TraderGuarded(s: State, i: nat, d: Draw)
    requires LocksHeld(s) && Enabled(s, TraderStep(i, d))
    ensures var sh := TraderMove(s.cfg, s.sh, s.traders[i], i, d).0;
            && Guarded(s, TraderStep(i, d), s.sh.market, sh.market)
            && (sh.hasNewOrders != s.sh.hasNewOrders ==> Inside(s, TraderStep(i, d), NewOrderLock))
  {
    assert Owned(s.sh.owner, TraderTid(i)) == s.traders[i].Holds();
    if s.traders[i].Wants().None? {
      TraderWrites(s.sh, s.traders[i]);
    }
  }

  lemma MatcherWritesMarket(cfg: Config, sh: Shared, m: Matcher)
    requires MatcherCanAct(cfg, sh, m) && m.Wants(cfg).None?
    ensures GuardedBy(m.Holds(cfg), sh.market, MatcherMarket(cfg, sh.market, m))
  {
  }

  lemma MatcherWritesFlag(cfg: Config, sh: Shared, m: Matcher)
    requires MatcherCanAct(cfg, sh, m) && m.Wants(cfg).None?
    ensures MatcherBody(cfg, sh, m).hasNewOrders != sh.hasNewOrders ==> NewOrderLock in m.Holds(cfg)
    ensures MatcherBody(cfg, sh, m).sleeping != sh.sleeping ==> NewOrderLock in m.Holds(cfg)
  {
  }

  lemma MatcherGuarded(s: State)
    requires LocksHeld(s) && Enabled(s, MatcherStep)
    ensures var sh := MatcherMove(s.cfg, s.sh, s.matcher).0;
            && Guarded(s, MatcherStep, s.sh.market, sh.market)
            && (sh.hasNewOrders != s.sh.hasNewOrders ==> Inside(s, MatcherStep, NewOrderLock))
            && (sh.sleeping != s.sh.sleeping ==> Inside(s, MatcherStep, NewOrderLock))
  {
    assert Owned(s.sh.owner, MatcherTid) == s.matcher.Holds(s.cfg);
    if s.matcher.Wants(s.cfg).None? {
      MatcherWritesMarket(s.cfg, s.sh, s.matcher);
      MatcherWritesFlag(s.cfg, s.sh, s.matcher);
    }
  }

  lemma MakerGuarded(s: State, price: real)
    requires LocksHeld(s) && Enabled(s, MakerStep(price))
    ensures Guarded(s, MakerStep(price), s.sh.market, MakerMove(s.cfg, s.sh, s.maker, price).0.market)
  {
    assert Owned(s.sh.owner, MakerTid) == s.maker.Holds();
  }

  /** No step writes a book, the stocks, the history, the log or the flag from outside its mutex. */
  lemma WritesAreGuarded(s: State, e: Event)
    requires LocksHeld(s) && Enabled(s, e)
    ensures Guarded(s, e, s.sh.market, Step(s, e).sh.market)
    ensures Step(s, e).sh.hasNewOrders != s.sh.hasNewOrders ==> Inside(s, e, NewOrderLock)
  {
    match e
    case TraderStep(i, d) => TraderGuarded(s, i, d);
    case MatcherStep => MatcherGuarded(s);
    case MakerStep(price) => MakerGuarded(s, price);
    case _ =>
  }

  /** Outside the stock mutex a trader's next move does not depend on the stocks. */
  lemma TraderReadsGuarded(cfg: Config, sh: Shared, stocks: map<string, Stock>, tr: Trader, i: nat, d: Draw)
    requires StockLock !in tr.Holds() && tr.Wants().None?
    requires TraderCanAct(sh, tr) && TraderCanAct(sh.(market := sh.market.(stocks := stocks)), tr)
    ensures TraderNext(cfg, sh.(market := sh.market.(stocks := stocks)), tr, i, d) == TraderNext(cfg, sh, tr, i, d)
  {
  }

  /** Outside the new-order mutex the matcher's next move does not depend on the flag. */
  lemma FlagReadsGuarded(cfg: Config, sh: Shared, flag: bool, m: Matcher)
    requires NewOrderLock !in m.Holds(cfg) && m.Wants(cfg).None? && MatcherCanAct(cfg, sh, m)
    ensures MatcherNext(cfg, sh.(hasNewOrders := flag), m) == MatcherNext(cfg, sh, m)
  {
  }

  /** Outside a book's mutex the matcher's next move does not depend on the book. */
  lemma BookReadsGuarded(cfg: Config, sh: Shared, x: string, b: Book, m: Matcher)
    requires BookLock(x) !in m.Holds(cfg) && m.Wants(cfg).None? && MatcherCanAct(cfg, sh, m) && x in sh.market.books
    ensures MatcherNext(cfg, sh.(market := sh.market.(books := sh.market.books[x := b])), m) == MatcherNext(cfg, sh, m)
  {
  }
}
