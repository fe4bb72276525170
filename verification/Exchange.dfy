/**
 * The running exchange as a step system: traders, matcher, market maker, dashboard and main interleave
 * arbitrarily. Taking a mutex is a step; the critical section with its release is another. Shared state is
 * touched only as the source touches it: under the mutex that guards it, or by an atomic.
 */
module Exchange {
  import opened Options
  import opened Orders
  import opened Crossing
  import opened BookHistory
  import opened Ledger

  datatype Tid = TraderTid(i: nat) | MatcherTid | MakerTid | DashTid | MainTid

  datatype Lock = StockLock | HistoryLock | NewOrderLock | LoggerLock | BookLock(symbol: string)

  type Owners = map<Lock, Tid>

  datatype Config = Config(
    symbols: seq<string>, opening: map<string, real>, capacity: nat, traders: nat, ordersPerTrader: nat)

  /** Books, stocks, history and counters; `arrivals` only records what was inserted. */
  datatype Market = Market(
    books: map<string, Book>, stocks: map<string, Stock>, history: seq<TradeRecord>,
    totalTrades: int, totalVolume: int, tradeLog: seq<TradeRecord>, lastId: int,
    arrivals: map<string, seq<Order>>)

  /**
   * What the threads share. `sleeping` is the condition variable: somebody waits and was not woken.
   * `submits` only counts the times a trader raised the flag.
   */
  datatype Shared = Shared(
    owner: Owners, room: int, hasNewOrders: bool, sleeping: bool, shutdown: bool, market: Market, submits: nat)

  // ---------------------------------------------------------------- mutexes

  /** Locks that a thread owns. */
  ghost function Owned(owner: Owners, t: Tid): set<Lock> {
    set l | l in owner && owner[l] == t
  }

  function Take(sh: Shared, l: Lock, t: Tid): Shared {
    sh.(owner := sh.owner[l := t])
  }

  function Released(owner: Owners, l: Option<Lock>): Owners {
    if l.Some? then owner - {l.value} else owner
  }

  // ---------------------------------------------------------------- traders

  /** Where a trader is. A phase with a mutex is entered without it; `holding` says that it was taken. */
  datatype TraderPhase =
    | TLogStart | Loop | Enter | Snapshot
    | Generate(symbol: string, market: real)
    | Price(order: Order) | Insert(order: Order)
    | Flag(symbol: string, id: int) | LogOrder(id: int) | CountOrder(id: int)
    | Leave | TLogEnd | TFinished

  datatype Trader = Trader(phase: TraderPhase, holding: bool, loops: nat, ordersPlaced: int) {
    function Lock(): Option<Lock> {
      match phase
      case TLogStart => Some(LoggerLock)
      case Snapshot => Some(StockLock)
      case Price(_) => Some(StockLock)
      case Insert(o) => Some(BookLock(o.symbol))
      case Flag(_, _) => Some(NewOrderLock)
      case LogOrder(_) => Some(LoggerLock)
      case TLogEnd => Some(LoggerLock)
      case _ => None
    }

    function Wants(): Option<Lock> {
      if holding then None else Lock()
    }

    function Holds(): set<Lock> {
      if holding && Lock().Some? then {Lock().value} else {}
    }

    function Goto(p: TraderPhase): Trader {
      this.(phase := p, holding := false)
    }

    /** Between waiting on the semaphore and signalling it. */
    predicate InRoom() {
      !phase.TLogStart? && !phase.Loop? && !phase.Enter? && !phase.TLogEnd? && !phase.TFinished?
    }

    /** Inserted, but not yet counted. */
    predicate Uncounted() {
      phase.Flag? || phase.LogOrder? || phase.CountOrder?
    }
  }

  function AddOrder(m: Market, o: Order): Market
    requires o.symbol in m.books && o.symbol in m.arrivals
  {
    m.(books := m.books[o.symbol := Submit(m.books[o.symbol], o)],
    arrivals := m.arrivals[o.symbol := m.arrivals[o.symbol] + [o]])
  }

  predicate TraderCanAct(sh: Shared, tr: Trader) {
    && (tr.phase.Enter? ==> sh.room > 0)
    && (tr.phase.Price? ==> tr.phase.order.symbol in sh.market.stocks)
    && (tr.phase.Insert? ==> tr.phase.order.symbol in sh.market.books && tr.phase.order.symbol in sh.market.arrivals)
    && !tr.phase.TFinished?
  }

  /** What a phase does to the market. The atomic id counter is bumped before the order is filled in. */
  function TraderMarket(m: Market, tr: Trader): Market
    requires tr.phase.Insert? ==> tr.phase.order.symbol in m.books && tr.phase.order.symbol in m.arrivals
  {
    match tr.phase
    case Generate(_, _) => m.(lastId := m.lastId + 1)
    case Insert(o) => AddOrder(m, o)
    case _ => m
  }

  /** The body of a phase, run once its mutex (if any) is held, with the release at its end. */
  function TraderBody(sh: Shared, tr: Trader): Shared
    requires TraderCanAct(sh, tr)
  {
    sh.(owner := Released(sh.owner, tr.Lock()),
    room := if tr.phase.Enter? then sh.room - 1 else if tr.phase.Leave? then sh.room + 1 else sh.room,
    hasNewOrders := sh.hasNewOrders || tr.phase.Flag?,
    sleeping := sh.sleeping && !tr.phase.Flag?,
    submits := if tr.phase.Flag? then sh.submits + 1 else sh.submits,
    market := TraderMarket(sh.market, tr))
  }

  /** Where the trader goes from a phase. */
  function TraderNext(cfg: Config, sh: Shared, tr: Trader, i: nat, d: Draw): Trader
    requires TraderCanAct(sh, tr)
  {
    match tr.phase
    case TLogStart => tr.Goto(Loop)
    case Loop => tr.Goto(if tr.loops < cfg.ordersPerTrader && !sh.shutdown then Enter else TLogEnd)
    case Enter => tr.Goto(Snapshot)
    case Snapshot => tr.Goto(Generate(d.symbol, Seen(sh.market.stocks, d.symbol)))
    case Generate(symbol, market) =>
      var o := NewOrder(sh.market.lastId + 1, i + 1, d.(symbol := symbol), market);
      tr.Goto(if d.limit then Insert(o) else Price(o))
    case Price(o) => tr.Goto(Insert(o.(price := sh.market.stocks[o.symbol].currentPrice)))
    case Insert(o) => tr.Goto(Flag(o.symbol, o.orderId))
    case Flag(_, id) => tr.Goto(LogOrder(id))
    case LogOrder(id) => tr.Goto(CountOrder(id))
    case CountOrder(id) => tr.Goto(Leave).(ordersPlaced := if id > 0 then tr.ordersPlaced + 1 else tr.ordersPlaced)
    case Leave => tr.Goto(Loop).(loops := tr.loops + 1)
    case TLogEnd => tr.Goto(TFinished)
    case TFinished => tr
  }

  // ---------------------------------------------------------------- the matcher

  /**
   * Where the matcher is. TestFlag, TestShutdown, GoToSleep and Clear run under the new-order mutex taken
   * for TestFlag; LogTrade(k) runs under the book mutex taken for Matching(k) and takes the logger's too.
   */
  datatype MatcherPhase =
    | MLogStart | Check | TestFlag | TestShutdown | GoToSleep | Asleep | Clear | Recheck
    | Next(k: nat) | Matching(k: nat) | LogTrade(k: nat) | Push(k: nat) | CommitStock(k: nat) | Tally(k: nat)
    | LogRound | MLogEnd | MFinished

  /**
   * `trades` is the batch of the current symbol; `round` counts the trades of this round and `matches`
   * all of them. `start` (the book when its mutex was taken) and `rounds` only record.
   */
  datatype Matcher = Matcher(
    phase: MatcherPhase, holding: bool, trades: seq<TradeRecord>, round: int, matches: int, start: Book, rounds: nat)
  {
    function Lock(cfg: Config): Option<Lock> {
      match phase
      case MLogStart => Some(LoggerLock)
      case TestFlag => Some(NewOrderLock)
      case Matching(k) => if k < |cfg.symbols| then Some(BookLock(cfg.symbols[k])) else None
      case LogTrade(_) => Some(LoggerLock)
      case Push(_) => Some(HistoryLock)
      case CommitStock(_) => Some(StockLock)
      case LogRound => Some(LoggerLock)
      case MLogEnd => Some(LoggerLock)
      case _ => None
    }

    function Wants(cfg: Config): Option<Lock> {
      if holding then None else Lock(cfg)
    }

    /** Held on entry to the phase. */
    function Outer(cfg: Config): set<Lock> {
      match phase
      case TestShutdown => {NewOrderLock}
      case GoToSleep => {NewOrderLock}
      case Clear => {NewOrderLock}
      case LogTrade(k) => if k < |cfg.symbols| then {BookLock(cfg.symbols[k])} else {}
      case _ => {}
    }

    function Holds(cfg: Config): set<Lock> {
      Outer(cfg) + (if holding && Lock(cfg).Some? then {Lock(cfg).value} else {})
    }

    function Goto(p: MatcherPhase): Matcher {
      this.(phase := p, holding := false)
    }

    /** Goto a phase that keeps the mutex of TestFlag or Matching. */
    function Stay(p: MatcherPhase): Matcher {
      this.(phase := p, holding := true)
    }
  }

  predicate IsCrossed(m: Market, symbol: string) {
    symbol in m.books && Crossed(m.books[symbol])
  }

  /** One iteration of the crossing loop on a symbol's book. */
  function TradeOnce(m: Market, symbol: string): Market
    requires IsCrossed(m, symbol)
  {
    var b := m.books[symbol];
    m.(books := m.books[symbol := Execute(b)],
    totalTrades := m.totalTrades + 1, totalVolume := m.totalVolume + TradeQty(b))
  }

  predicate MatcherCanAct(cfg: Config, sh: Shared, m: Matcher) {
    && (m.phase.Asleep? ==> !sh.sleeping)
    && (m.phase.Next? ==> m.phase.k <= |cfg.symbols|)
    && (m.phase.Matching? || m.phase.LogTrade? || m.phase.Push? || m.phase.CommitStock? || m.phase.Tally?
        ==> m.phase.k < |cfg.symbols|)
    && (m.phase.LogTrade? || m.phase.CommitStock? ==> m.trades != [])
    && (m.phase.CommitStock? ==> cfg.symbols[m.phase.k] in sh.market.stocks)
    && !m.phase.MFinished?
  }

  /** The mutex that the end of a phase releases; the loop of a symbol keeps its book until uncrossed. */
  function MatcherReleases(cfg: Config, sh: Shared, m: Matcher): Option<Lock> {
    match m.phase
    case TestFlag => None
    case GoToSleep => Some(NewOrderLock)
    case Clear => Some(NewOrderLock)
    case Matching(k) => if k < |cfg.symbols| && IsCrossed(sh.market, cfg.symbols[k]) then None else m.Lock(cfg)
    case _ => m.Lock(cfg)
  }

  function MatcherMarket(cfg: Config, market: Market, m: Matcher): Market
    requires m.phase.Matching? || m.phase.CommitStock? ==> m.phase.k < |cfg.symbols|
    requires m.phase.LogTrade? || m.phase.CommitStock? ==> m.trades != []
    requires m.phase.CommitStock? ==> cfg.symbols[m.phase.k] in market.stocks
  {
    match m.phase
    case Matching(k) => if IsCrossed(market, cfg.symbols[k]) then TradeOnce(market, cfg.symbols[k]) else market
    case LogTrade(_) => market.(tradeLog := market.tradeLog + [m.trades[|m.trades| - 1]])
    case Push(_) => market.(history := LastN(market.history + m.trades, MAX_HISTORY))
    case CommitStock(k) =>
      var symbol := cfg.symbols[k];
      market.(stocks := market.stocks[symbol := Commit(market.stocks[symbol], m.trades)])
    case _ => market
  }

  function MatcherBody(cfg: Config, sh: Shared, m: Matcher): Shared
    requires MatcherCanAct(cfg, sh, m)
  {
    sh.(owner := Released(sh.owner, MatcherReleases(cfg, sh, m)),
    hasNewOrders := sh.hasNewOrders && !m.phase.Clear?,
    sleeping := sh.sleeping || m.phase.GoToSleep?,
    market := MatcherMarket(cfg, sh.market, m))
  }

  function MatcherNext(cfg: Config, sh: Shared, m: Matcher): Matcher
    requires MatcherCanAct(cfg, sh, m)
  {
    match m.phase
    case MLogStart => m.Goto(Check)
    case Check => m.Goto(if sh.shutdown then MLogEnd else TestFlag)
    case TestFlag => m.Goto(if sh.hasNewOrders then Clear else TestShutdown)
    case TestShutdown => m.Goto(if sh.shutdown then Clear else GoToSleep)
    case GoToSleep => m.Goto(Asleep)
    case Asleep => m.Goto(TestFlag)
    case Clear => m.Goto(Recheck)
    case Recheck => if sh.shutdown then m.Goto(MLogEnd) else m.Goto(Next(0)).(round := 0, rounds := m.rounds + 1)
    case Next(k) => m.Goto(if k < |cfg.symbols| then Matching(k) else if m.round > 0 then LogRound else Check)
    case Matching(k) =>
      if IsCrossed(sh.market, cfg.symbols[k]) then
        m.Goto(LogTrade(k)).(trades := m.trades + [TopTrade(cfg.symbols[k], sh.market.books[cfg.symbols[k]])])
      else m.Goto(if m.trades == [] then Tally(k) else Push(k))
    case LogTrade(k) => m.Stay(Matching(k))
    case Push(k) => m.Goto(CommitStock(k))
    case CommitStock(k) => m.Goto(Tally(k))
    case Tally(k) =>
      m.Goto(Next(k + 1)).(trades := [], round := m.round + |m.trades|, matches := m.matches + |m.trades|)
    case LogRound => m.Goto(Check)
    case MLogEnd => m.Goto(MFinished)
    case MFinished => m
  }

  /** Taking the mutex of a phase; the loop of a symbol remembers the book it starts from. */
  function MatcherTake(cfg: Config, sh: Shared, m: Matcher): (Shared, Matcher)
    requires m.Wants(cfg).Some?
  {
    var started := if m.phase.Matching? && m.Wants(cfg).value.symbol in sh.market.books
                   then m.(start := sh.market.books[m.Wants(cfg).value.symbol]) else m;
    (Take(sh, m.Wants(cfg).value, MatcherTid), started.(holding := true))
  }

  // ---------------------------------------------------------------- market maker, dashboard, main

  datatype MakerPhase = KLogStart | KCheck | KRecheck | KSnapshot | KUpdate(k: nat) | KLogEnd | KFinished

  datatype Maker = Maker(phase: MakerPhase, holding: bool) {
    function Lock(): Option<Lock> {
      match phase
      case KLogStart => Some(LoggerLock)
      case KSnapshot => Some(StockLock)
      case KUpdate(_) => Some(StockLock)
      case KLogEnd => Some(LoggerLock)
      case _ => None
    }

    function Wants(): Option<Lock> {
      if holding then None else Lock()
    }

    function Holds(): set<Lock> {
      if holding && Lock().Some? then {Lock().value} else {}
    }
  }

  /** After a symbol the maker goes to the next, or back to its loop test. */
  function MakerAfter(cfg: Config, k: nat): MakerPhase {
    if k < |cfg.symbols| then KUpdate(k) else KCheck
  }

  /** Publish a price for a symbol; unknown symbols are ignored. */
  function Publish(stocks: map<string, Stock>, symbol: string, price: real): map<string, Stock> {
    if symbol in stocks then stocks[symbol := stocks[symbol].Priced(price)] else stocks
  }

  predicate MakerCanAct(cfg: Config, m: Maker) {
    && (m.phase.KUpdate? ==> m.phase.k < |cfg.symbols|)
    && !m.phase.KFinished?
  }

  function MakerBody(cfg: Config, sh: Shared, m: Maker, price: real): Shared
    requires MakerCanAct(cfg, m)
  {
    sh.(owner := Released(sh.owner, m.Lock()),
    market := if m.phase.KUpdate?
              then sh.market.(stocks := Publish(sh.market.stocks, cfg.symbols[m.phase.k], Clamp(price)))
              else sh.market)
  }

  function MakerNext(cfg: Config, sh: Shared, m: Maker): Maker {
    match m.phase
    case KLogStart => Maker(KCheck, false)
    case KCheck => Maker(if sh.shutdown then KLogEnd else KRecheck, false)
    case KRecheck => Maker(if sh.shutdown then KLogEnd else KSnapshot, false)
    case KSnapshot => Maker(MakerAfter(cfg, 0), false)
    case KUpdate(k) => Maker(MakerAfter(cfg, k + 1), false)
    case KLogEnd => Maker(KFinished, false)
    case KFinished => m
  }

  datatype DashPhase = DCheck | DRecheck | DStocks | DDepth(k: nat) | DFinished

  datatype Dash = Dash(phase: DashPhase, holding: bool) {
    function Lock(cfg: Config): Option<Lock> {
      match phase
      case DStocks => Some(StockLock)
      case DDepth(k) => if k < |cfg.symbols| then Some(BookLock(cfg.symbols[k])) else None
      case _ => None
    }

    function Wants(cfg: Config): Option<Lock> {
      if holding then None else Lock(cfg)
    }

    function Holds(cfg: Config): set<Lock> {
      if holding && Lock(cfg).Some? then {Lock(cfg).value} else {}
    }
  }

  function DashAfter(cfg: Config, k: nat): DashPhase {
    if k < |cfg.symbols| then DDepth(k) else DCheck
  }

  predicate DashCanAct(cfg: Config, d: Dash) {
    && (d.phase.DDepth? ==> d.phase.k < |cfg.symbols|)
    && !d.phase.DFinished?
  }

  function DashNext(cfg: Config, sh: Shared, d: Dash): Dash {
    match d.phase
    case DCheck => Dash(if sh.shutdown then DFinished else DRecheck, false)
    case DRecheck => Dash(if sh.shutdown then DFinished else DStocks, false)
    case DStocks => Dash(DashAfter(cfg, 0), false)
    case DDepth(k) => Dash(DashAfter(cfg, k + 1), false)
    case DFinished => d
  }

  datatype MainPhase =
    | Launched | JoinTrader(k: nat) | SetShutdown | Wake | JoinMatcher | JoinMaker | JoinDash | LogDone | Exited

  datatype MainThread = MainThread(phase: MainPhase, holding: bool) {
    function Lock(): Option<Lock> {
      match phase
      case Launched => Some(LoggerLock)
      case Wake => Some(NewOrderLock)
      case LogDone => Some(LoggerLock)
      case _ => None
    }

    function Wants(): Option<Lock> {
      if holding then None else Lock()
    }

    function Holds(): set<Lock> {
      if holding && Lock().Some? then {Lock().value} else {}
    }

    /** The final flag-and-signal was sent. */
    predicate PastWake() {
      phase.JoinMatcher? || phase.JoinMaker? || phase.JoinDash? || phase.LogDone? || phase.Exited?
    }

    /** Every trader was joined. */
    predicate PastTraders() {
      PastWake() || phase.SetShutdown? || phase.Wake?
    }
  }

  // ---------------------------------------------------------------- the system

  datatype State = State(
    cfg: Config, sh: Shared, traders: seq<Trader>, matcher: Matcher, maker: Maker, dash: Dash, main: MainThread)

  /** pthread_join blocks main until the thread it names has finished. */
  predicate MainCanAct(s: State) {
    match s.main.phase
    case JoinTrader(k) => k >= |s.traders| || s.traders[k].phase.TFinished?
    case JoinMatcher => s.matcher.phase.MFinished?
    case JoinMaker => s.maker.phase.KFinished?
    case JoinDash => s.dash.phase.DFinished?
    case Exited => false
    case _ => true
  }

  function MainBody(s: State): Shared {
    s.sh.(owner := Released(s.sh.owner, s.main.Lock()),
    shutdown := s.sh.shutdown || s.main.phase.SetShutdown?,
    hasNewOrders := s.sh.hasNewOrders || s.main.phase.Wake?,
    sleeping := s.sh.sleeping && !s.main.phase.Wake?)
  }

  function MainNext(s: State): MainThread {
    match s.main.phase
    case Launched => MainThread(JoinTrader(0), false)
    case JoinTrader(k) => MainThread(if k < |s.traders| then JoinTrader(k + 1) else SetShutdown, false)
    case SetShutdown => MainThread(Wake, false)
    case Wake => MainThread(JoinMatcher, false)
    case JoinMatcher => MainThread(JoinMaker, false)
    case JoinMaker => MainThread(JoinDash, false)
    case JoinDash => MainThread(LogDone, false)
    case LogDone => MainThread(Exited, false)
    case Exited => s.main
  }

  /** Who steps, with what it drew. A spurious wakeup and SIGINT come from outside. */
  datatype Event =
    | TraderStep(i: nat, draw: Draw) | MatcherStep | MakerStep(price: real) | DashStep | MainStep
    | SpuriousWakeup | Interrupt

  predicate Free(sh: Shared, want: Option<Lock>) {
    want.Some? ==> want.value !in sh.owner
  }

  predicate Enabled(s: State, e: Event) {
    match e
    case TraderStep(i, d) =>
      && i < |s.traders| && ValidDraw(s.cfg.symbols, d)
      && Free(s.sh, s.traders[i].Wants())
      && (s.traders[i].Wants().None? ==> TraderCanAct(s.sh, s.traders[i]))
    case MatcherStep =>
      && Free(s.sh, s.matcher.Wants(s.cfg))
      && (s.matcher.Wants(s.cfg).None? ==> MatcherCanAct(s.cfg, s.sh, s.matcher))
    case MakerStep(_) => Free(s.sh, s.maker.Wants()) && (s.maker.Wants().None? ==> MakerCanAct(s.cfg, s.maker))
    case DashStep => Free(s.sh, s.dash.Wants(s.cfg)) && (s.dash.Wants(s.cfg).None? ==> DashCanAct(s.cfg, s.dash))
    case MainStep => Free(s.sh, s.main.Wants()) && (s.main.Wants().None? ==> MainCanAct(s))
    case SpuriousWakeup => s.sh.sleeping
    case Interrupt => true
  }

  function TraderMove(cfg: Config, sh: Shared, tr: Trader, i: nat, d: Draw): (Shared, Trader)
    requires tr.Wants().None? ==> TraderCanAct(sh, tr)
  {
    if tr.Wants().Some? then (Take(sh, tr.Wants().value, TraderTid(i)), tr.(holding := true))
    else (TraderBody(sh, tr), TraderNext(cfg, sh, tr, i, d))
  }

  function MatcherMove(cfg: Config, sh: Shared, m: Matcher): (Shared, Matcher)
    requires m.Wants(cfg).None? ==> MatcherCanAct(cfg, sh, m)
  {
    if m.Wants(cfg).Some? then MatcherTake(cfg, sh, m)
    else (MatcherBody(cfg, sh, m), MatcherNext(cfg, sh, m))
  }

  function MakerMove(cfg: Config, sh: Shared, m: Maker, price: real): (Shared, Maker)
    requires m.Wants().None? ==> MakerCanAct(cfg, m)
  {
    if m.Wants().Some? then (Take(sh, m.Wants().value, MakerTid), m.(holding := true))
    else (MakerBody(cfg, sh, m, price), MakerNext(cfg, sh, m))
  }

  function DashMove(cfg: Config, sh: Shared, d: Dash): (Shared, Dash)
    requires d.Wants(cfg).None? ==> DashCanAct(cfg, d)
  {
    if d.Wants(cfg).Some? then (Take(sh, d.Wants(cfg).value, DashTid), d.(holding := true))
    else (sh.(owner := Released(sh.owner, d.Lock(cfg))), DashNext(cfg, sh, d))
  }

  function MainMove(s: State): (Shared, MainThread)
    requires s.main.Wants().None? ==> MainCanAct(s)
  {
    if s.main.Wants().Some? then (Take(s.sh, s.main.Wants().value, MainTid), s.main.(holding := true))
    else (MainBody(s), MainNext(s))
  }

  function Step(s: State, e: Event): State
    requires Enabled(s, e)
  {
    match e
    case TraderStep(i, d) =>
      var (sh, tr) := TraderMove(s.cfg, s.sh, s.traders[i], i, d);
      s.(sh := sh, traders := s.traders[i := tr])
    case MatcherStep =>
      var (sh, m) := MatcherMove(s.cfg, s.sh, s.matcher);
      s.(sh := sh, matcher := m)
    case MakerStep(price) =>
      var (sh, m) := MakerMove(s.cfg, s.sh, s.maker, price);
      s.(sh := sh, maker := m)
    case DashStep =>
      var (sh, d) := DashMove(s.cfg, s.sh, s.dash);
      s.(sh := sh, dash := d)
    case MainStep =>
      var (sh, m) := MainMove(s);
      s.(sh := sh, main := m)
    case SpuriousWakeup => s.(sh := s.sh.(sleeping := false))
    case Interrupt => s.(sh := s.sh.(shutdown := true))
  }

  // ---------------------------------------------------------------- runs

  ghost predicate ValidConfig(cfg: Config) {
    && cfg.symbols != []
    && Distinct(cfg.symbols)
    && (forall symbol :: symbol in cfg.symbols <==> symbol in cfg.opening)
    && (forall symbol :: symbol in cfg.opening ==> cfg.opening[symbol] >= FLOOR)
    && cfg.capacity >= 1
  }

  function Opening(cfg: Config): Market {
    Market(map x | x in cfg.opening :: Book([], []),
           map x | x in cfg.opening :: Stock(cfg.opening[x], cfg.opening[x], cfg.opening[x], cfg.opening[x], 0),
           [], 0, 0, [], 0,
           map x | x in cfg.opening :: [])
  }

  function Init(cfg: Config): State {
    State(cfg,
          Shared(map[], cfg.capacity, false, false, false, Opening(cfg), 0),
          seq(cfg.traders, _ => Trader(TLogStart, false, 0, 0)),
          Matcher(MLogStart, false, [], 0, 0, Book([], []), 0),
          Maker(KLogStart, false), Dash(DCheck, false), MainThread(Launched, false))
  }

  /** s2 is reached from s1 by these events in this order. */
  ghost predicate Run(s1: State, es: seq<Event>, s2: State)
    decreases |es|
  {
    if es == [] then s1 == s2
    else Enabled(s1, es[0]) && Run(Step(s1, es[0]), es[1..], s2)
  }

  ghost predicate Reachable(s: State) {
    ValidConfig(s.cfg) && exists es :: Run(Init(s.cfg), es, s)
  }
}
