/** Shutdown completes: once the flag is set, every step, even a spurious wakeup, uses up some of finitely much work. */
module Shutdown {
  import opened Orders
  import opened BookHistory
  import opened Ledger
  import opened Exchange
  import opened Runs
  import opened Control
  import opened Progress

  // ---------------------------------------------------------------- orders left in the books

  function BookSize(b: Book): nat {
    |b.buys| + |b.sells|
  }

  function Sizes(m: Market): map<string, int> {
    map x | x in m.books :: BookSize(m.books[x])
  }

  function OrdersIn(m: Market, symbols: seq<string>): int {
    Total(Sizes(m), symbols)
  }

  lemma {:induction false} EnqueueLength(side: OrderSide, q: seq<Order>, o: Order)
    ensures |Enqueue(side, q, o)| == |q| + 1
  {
    if q != [] && !Better(side, o.price, q[0].price) {
      EnqueueLength(side, q[1..], o);
    }
  }

  /** An insertion adds one order to the books. */
  lemma AddOrderSize(cfg: Config, m: Market, o: Order)
    requires Distinct(cfg.symbols) && o.symbol in cfg.symbols && o.symbol in m.books && o.symbol in m.arrivals
    ensures OrdersIn(AddOrder(m, o), cfg.symbols) == OrdersIn(m, cfg.symbols) + 1
  {
    var b := m.books[o.symbol];
    EnqueueLength(o.side, b.Side(o.side), o);
    TotalChange(Sizes(m), Sizes(AddOrder(m, o)), cfg.symbols, o.symbol);
  }

  /** An iteration of the crossing loop erases at least one. */
  lemma TradeOnceSize(cfg: Config, m: Market, symbol: string)
    requires Distinct(cfg.symbols) && symbol in cfg.symbols && IsCrossed(m, symbol)
    ensures OrdersIn(TradeOnce(m, symbol), cfg.symbols) <= OrdersIn(m, cfg.symbols) - 1
  {
    TotalChange(Sizes(m), Sizes(TradeOnce(m, symbol)), cfg.symbols, symbol);
  }

  // ---------------------------------------------------------------- work left once the flag is set

  function Half(holding: bool): nat {
    if holding then 0 else 1
  }

  function TraderWork(tr: Trader): int {
    Half(tr.holding) +
    2 * match tr.phase
        case TFinished => 0
        case TLogEnd => 1
        case Loop => 2
        case TLogStart => 3
        case Leave => 3
        case CountOrder(_) => 4
        case LogOrder(_) => 5
        case Flag(_, _) => 6
        case Insert(_) => 7
        case Price(_) => 8
        case Generate(_, _) => 9
        case Snapshot => 10
        case Enter => 11
  }

  /** From symbol k on: eight steps a symbol, besides the trades. */
  function RoundWork(cfg: Config, k: nat): int {
    6 + 10 * (|cfg.symbols| - k)
  }

  function MatcherWork(cfg: Config, m: Matcher): int {
    match m.phase
    case MFinished => 0
    case MLogEnd => 1 + Half(m.holding)
    case Check => 3
    case Recheck => 3
    case LogRound => 4 + Half(m.holding)
    case MLogStart => 4 + Half(m.holding)
    case Clear => 4
    case TestShutdown => 5
    case TestFlag => 6 + Half(m.holding)
    case Asleep => 8
    case GoToSleep => 10
    case Next(k) => RoundWork(cfg, k)
    case Matching(k) => RoundWork(cfg, k) - 2 + Half(m.holding)
    case LogTrade(k) => RoundWork(cfg, k) - 1 + Half(m.holding)
    case Push(k) => RoundWork(cfg, k) - 4 + Half(m.holding)
    case CommitStock(k) => RoundWork(cfg, k) - 6 + Half(m.holding)
    case Tally(k) => RoundWork(cfg, k) - 7
  }

  function MakerWork(cfg: Config, m: Maker): int {
    match m.phase
    case KFinished => 0
    case KLogEnd => 1 + Half(m.holding)
    case KCheck => 3
    case KRecheck => 3
    case KLogStart => 4 + Half(m.holding)
    case KUpdate(k) => 4 + 2 * (|cfg.symbols| - k) + Half(m.holding)
    case KSnapshot => 6 + 2 * |cfg.symbols| + Half(m.holding)
  }

  function DashWork(cfg: Config, d: Dash): int {
    match d.phase
    case DFinished => 0
    case DCheck => 1
    case DRecheck => 1
    case DDepth(k) => 2 + 2 * (|cfg.symbols| - k) + Half(d.holding)
    case DStocks => 4 + 2 * |cfg.symbols| + Half(d.holding)
  }

  function MainWork(m: MainThread, traders: nat): int {
    match m.phase
    case Exited => 0
    case LogDone => 1 + Half(m.holding)
    case JoinDash => 3
    case JoinMaker => 4
    case JoinMatcher => 5
    case Wake => 6 + Half(m.holding)
    case SetShutdown => 8
    case JoinTrader(k) => 9 + traders - k
    case Launched => 11 + traders + Half(m.holding)
  }

  /** A trader's remaining step may add an order, so it weighs more than the matcher's work on one order. */
  function Work(s: State): int {
    SharedWork(s.cfg, s.sh, SumOver(s.traders, TraderWork))
    + MatcherWork(s.cfg, s.matcher) + MakerWork(s.cfg, s.maker) + DashWork(s.cfg, s.dash)
    + MainWork(s.main, |s.traders|)
  }

  function SharedWork(cfg: Config, sh: Shared, traders: int): int {
    5 * traders + 4 * OrdersIn(sh.market, cfg.symbols) + (if sh.sleeping then 1 else 0)
  }

  lemma TraderWorkNonNegative(tr: Trader)
    ensures TraderWork(tr) >= 0
  {
  }

  lemma MatcherWorkNonNegative(cfg: Config, m: Matcher)
    requires MatcherShape(cfg, m)
    ensures MatcherWork(cfg, m) >= 0
  {
  }

  lemma WorkNonNegative(s: State)
    requires ControlInv(s)
    ensures Work(s) >= 0
  {
    forall i | 0 <= i < |s.traders|
      ensures TraderWork(s.traders[i]) >= 0
    {
      TraderWorkNonNegative(s.traders[i]);
    }
    SumBounds(s.traders, TraderWork);
    TotalNonNegative(Sizes(s.sh.market), s.cfg.symbols);
    MatcherWorkNonNegative(s.cfg, s.matcher);
    OtherWorkNonNegative(s);
  }

  lemma OtherWorkNonNegative(s: State)
    requires Shape(s) && JoinsInOrder(s)
    ensures MakerWork(s.cfg, s.maker) >= 0 && DashWork(s.cfg, s.dash) >= 0 && MainWork(s.main, |s.traders|) >= 0
  {
  }

  lemma TraderWorkShrinks(cfg: Config, sh: Shared, tr: Trader, i: nat, d: Draw)
    requires sh.shutdown && (tr.Wants().None? ==> TraderCanAct(sh, tr))
    ensures TraderWork(TraderMove(cfg, sh, tr, i, d).1) < TraderWork(tr)
  {
  }

  lemma TraderMarketSize(cfg: Config, sh: Shared, tr: Trader)
    requires TraderCanAct(sh, tr) && TraderShape(cfg, tr) && Distinct(cfg.symbols) && cfg.symbols != []
    ensures OrdersIn(TraderMarket(sh.market, tr), cfg.symbols) <= OrdersIn(sh.market, cfg.symbols) + 1
  {
    match tr.phase
    case Insert(o) => AddOrderSize(cfg, sh.market, o);
    case _ =>
  }

  lemma TraderShrinks(s: State, i: nat, d: Draw)
    requires ControlInv(s) && s.sh.shutdown && Enabled(s, TraderStep(i, d))
    ensures Work(Step(s, TraderStep(i, d))) < Work(s)
  {
    var (sh, tr) := TraderMove(s.cfg, s.sh, s.traders[i], i, d);
    TraderWorkShrinks(s.cfg, s.sh, s.traders[i], i, d);
    SumUpdate(s.traders, i, tr, TraderWork);
    TraderSharedWork(s.cfg, s.sh, s.traders[i], i, d, SumOver(s.traders, TraderWork));
  }

  lemma TraderSharedWork(cfg: Config, sh: Shared, tr: Trader, i: nat, d: Draw, traders: int)
    requires TraderShape(cfg, tr) && Distinct(cfg.symbols) && cfg.symbols != []
    requires tr.Wants().None? ==> TraderCanAct(sh, tr)
    ensures SharedWork(cfg, TraderMove(cfg, sh, tr, i, d).0, traders) <= SharedWork(cfg, sh, traders) + 4
  {
    if tr.Wants().None? {
      TraderMarketSize(cfg, sh, tr);
    }
  }

  lemma MatcherWorkShrinks(cfg: Config, sh: Shared, m: Matcher)
    requires sh.shutdown && MatcherShape(cfg, m) && (m.Wants(cfg).None? ==> MatcherCanAct(cfg, sh, m))
    ensures var (sh', m') := MatcherMove(cfg, sh, m);
            var slept := if m.phase.GoToSleep? then 1 else 0;
            var crossed := m.phase.Matching? && m.holding && IsCrossed(sh.market, cfg.symbols[m.phase.k]);
            var traded := if crossed then 2 else -1;
            MatcherWork(cfg, m') + slept <= MatcherWork(cfg, m) + traded
  {
  }

  lemma MatcherMarketSize(cfg: Config, sh: Shared, m: Matcher)
    requires MatcherCanAct(cfg, sh, m) && Distinct(cfg.symbols) && cfg.symbols != []
    ensures OrdersIn(MatcherMarket(cfg, sh.market, m), cfg.symbols)
         <= OrdersIn(sh.market, cfg.symbols)
            - (if m.phase.Matching? && IsCrossed(sh.market, cfg.symbols[m.phase.k]) then 1 else 0)
  {
    if m.phase.Matching? && IsCrossed(sh.market, cfg.symbols[m.phase.k]) {
      TradeOnceSize(cfg, sh.market, cfg.symbols[m.phase.k]);
    }
  }

  /** Going to sleep costs a unit and a trade saves four. */
  lemma MatcherSharedWork(cfg: Config, sh: Shared, m: Matcher, traders: int)
    requires Distinct(cfg.symbols) && cfg.symbols != [] && (m.Wants(cfg).None? ==> MatcherCanAct(cfg, sh, m))
    ensures var slept := if m.phase.GoToSleep? then 1 else 0;
            var crossed := m.phase.Matching? && m.holding && IsCrossed(sh.market, cfg.symbols[m.phase.k]);
            var traded := if crossed then 4 else 0;
            SharedWork(cfg, MatcherMove(cfg, sh, m).0, traders) <= SharedWork(cfg, sh, traders) + slept - traded
  {
    if m.Wants(cfg).None? {
      MatcherMarketSize(cfg, sh, m);
    }
  }

  lemma MatcherShrinks(s: State)
    requires ControlInv(s) && s.sh.shutdown && Enabled(s, MatcherStep)
    ensures Work(Step(s, MatcherStep)) < Work(s)
  {
    MatcherWorkShrinks(s.cfg, s.sh, s.matcher);
    MatcherSharedWork(s.cfg, s.sh, s.matcher, SumOver(s.traders, TraderWork));
  }

  lemma MakerWorkShrinks(cfg: Config, sh: Shared, m: Maker, price: real)
    requires sh.shutdown && (m.Wants().None? ==> MakerCanAct(cfg, m)) && cfg.symbols != [] && Distinct(cfg.symbols)
    ensures MakerWork(cfg, MakerMove(cfg, sh, m, price).1) < MakerWork(cfg, m)
    ensures OrdersIn(MakerMove(cfg, sh, m, price).0.market, cfg.symbols) == OrdersIn(sh.market, cfg.symbols)
  {
  }

  lemma MakerShrinks(s: State, price: real)
    requires ControlInv(s) && s.sh.shutdown && Enabled(s, MakerStep(price))
    ensures Work(Step(s, MakerStep(price))) < Work(s)
  {
    MakerWorkShrinks(s.cfg, s.sh, s.maker, price);
  }

  lemma DashShrinks(s: State)
    requires s.sh.shutdown && Enabled(s, DashStep)
    ensures Work(Step(s, DashStep)) < Work(s)
  {
  }

  lemma MainWorkShrinks(s: State)
    requires JoinsInOrder(s) && Enabled(s, MainStep)
    ensures MainWork(MainMove(s).1, |s.traders|) < MainWork(s.main, |s.traders|)
  {
  }

  lemma MainShrinks(s: State)
    requires JoinsInOrder(s) && s.sh.shutdown && Enabled(s, MainStep)
    ensures Work(Step(s, MainStep)) < Work(s)
  {
    MainWorkShrinks(s);
  }

  /** After shutdown every step but another SIGINT leaves strictly less work. */
  lemma StepShrinksWork(s: State, e: Event)
    requires ControlInv(s) && s.sh.shutdown && Enabled(s, e) && !e.Interrupt?
    ensures Work(Step(s, e)) < Work(s) && Step(s, e).sh.shutdown
  {
    match e
    case TraderStep(i, d) => TraderShrinks(s, i, d);
    case MatcherStep => MatcherShrinks(s);
    case MakerStep(price) => MakerShrinks(s, price);
    case DashStep => DashShrinks(s);
    case MainStep => MainShrinks(s);
    case SpuriousWakeup =>
  }

  /** However the threads interleave, no run from a reachable state after shutdown is longer than its work. */
  lemma {:induction false} ShutdownBounded(s1: State, es: seq<Event>, s2: State)
    requires Reachable(s1) && s1.sh.shutdown && Run(s1, es, s2)
    requires forall e :: e in es ==> !e.Interrupt?
    ensures |es| + Work(s2) <= Work(s1) && 0 <= Work(s2)
  {
    ReachableControl(s1);
    BoundedFrom(s1, es, s2);
    RunKeepsControl(s1, es, s2);
    WorkNonNegative(s2);
  }

  lemma {:induction false} BoundedFrom(s1: State, es: seq<Event>, s2: State)
    requires ControlInv(s1) && s1.sh.shutdown && Run(s1, es, s2)
    requires forall e :: e in es ==> !e.Interrupt?
    ensures |es| + Work(s2) <= Work(s1)
    decreases |es|
  {
    if es != [] {
      assert es[0] in es && forall e :: e in es[1..] ==> e in es;
      StepShrinksWork(s1, es[0]);
      StepKeepsControl(s1, es[0]);
      BoundedFrom(Step(s1, es[0]), es[1..], s2);
    }
  }

  lemma StepStartsNoRound(s: State, e: Event)
    requires s.sh.shutdown && Enabled(s, e)
    ensures Step(s, e).sh.shutdown && Step(s, e).matcher.rounds == s.matcher.rounds
    ensures s.main.PastWake() ==> Step(s, e).main.PastWake()
  {
  }

  /** After shutdown the matcher starts no round, and after main's last signal it sleeps no more. */
  lemma {:induction false} NoNewRound(s1: State, es: seq<Event>, s2: State)
    requires ControlInv(s1) && s1.sh.shutdown && Run(s1, es, s2)
    ensures s2.matcher.rounds == s1.matcher.rounds
    ensures s1.main.PastWake() ==> !s2.sh.sleeping
    decreases |es|
  {
    if es != [] {
      StepStartsNoRound(s1, es[0]);
      StepKeepsControl(s1, es[0]);
      NoNewRound(Step(s1, es[0]), es[1..], s2);
    }
  }

  /** Main's last signal raises the flag and wakes whoever sleeps. */
  lemma LastSignal(s: State)
    requires Enabled(s, MainStep) && s.main.phase.Wake? && s.main.holding
    ensures var t := Step(s, MainStep);
            t.sh.hasNewOrders && !t.sh.sleeping && t.main.PastWake() && t.sh.market == s.sh.market
  {
  }

  /** Main exits last: when it has, every other thread has finished. */
  lemma MainExitsLast(s: State)
    requires Reachable(s) && s.main.phase.Exited?
    ensures s.sh.shutdown && forall t :: IsThread(s, t) ==> Finished(s, t)
  {
    ReachableControl(s);
  }

  /** A run that cannot go on has shut everything down: all threads have finished. */
  lemma StuckMeansDone(s: State)
    requires Reachable(s) && forall t :: !CanRun(s, t)
    ensures forall t :: IsThread(s, t) ==> Finished(s, t)
    ensures s.sh.shutdown
  {
    ReachableControl(s);
    forall t | IsThread(s, t)
      ensures Finished(s, t)
    {
      if !Finished(s, t) {
        DeadlockFree(s, t);
        var u := SomebodyRuns(s, t, 5);
      }
    }
    assert IsThread(s, MainTid);
  }

  // ---------------------------------------------------------------- runs that finish

  ghost predicate AllFinished(s: State) {
    forall t :: IsThread(s, t) ==> Finished(s, t)
  }

  /** A step of a thread's own after shutdown, and what it leaves. */
  lemma OwnStepShrinks(s: State, u: Tid) returns (e: Event)
    requires Reachable(s) && s.sh.shutdown && CanRun(s, u)
    ensures !e.Interrupt? && Enabled(s, e) && Run(s, [e], Step(s, e)) && Reachable(Step(s, e))
    ensures Step(s, e).sh.shutdown && 0 <= Work(Step(s, e)) < Work(s)
  {
    e := OwnStep(s, u);
    ReachableControl(s);
    StepShrinksWork(s, e);
    RunOne(s, e);
    ReachableRun(s, [e], Step(s, e));
    ReachableControl(Step(s, e));
    WorkNonNegative(Step(s, e));
  }

  /** From any state after shutdown the exchange can run to the end, each thread by its own steps. */
  lemma {:induction false} RunsToTheEnd(s: State) returns (es: seq<Event>, t: State)
    requires Reachable(s) && s.sh.shutdown
    ensures Run(s, es, t) && AllFinished(t) && forall e :: e in es ==> !e.Interrupt?
    decreases Work(s)
  {
    if forall u :: !CanRun(s, u) {
      StuckMeansDone(s);
      es, t := [], s;
    } else {
      var u :| CanRun(s, u);
      var e := OwnStepShrinks(s, u);
      var fs;
      fs, t := RunsToTheEnd(Step(s, e));
      RunConcat(s, [e], Step(s, e), fs, t);
      es := [e] + fs;
    }
  }
}
