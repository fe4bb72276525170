/**
 * The exchange winds down by itself: the traders and main have a bounded number of steps in any run at all, and
 * from every reachable state it can run to its end without SIGINT.
 */
module WindDown {
  import opened Ledger
  import opened Exchange
  import opened Runs
  import opened Control
  import opened Progress
  import opened Shutdown
  import opened Books

  // ---------------------------------------------------------------- a trader's turns

  /** From the loop test that starts a turn to the one after it. */
  predicate InTurn(tr: Trader) {
    tr.phase.Enter? || tr.InRoom()
  }

  function TurnsLeft(orders: nat, tr: Trader): int {
    var left := orders - tr.loops - (if InTurn(tr) then 1 else 0);
    if left < 0 then 0 else left
  }

  /** The steps a trader may still make: those of the current turn and 24 for each turn left. */
  function Steps(orders: nat, tr: Trader): int {
    TraderWork(tr) + 24 * TurnsLeft(orders, tr)
  }

  ghost function StepsOf(orders: nat): Trader -> int {
    (tr: Trader) => Steps(orders, tr)
  }

  lemma TraderStepsShrink(cfg: Config, sh: Shared, tr: Trader, i: nat, d: Draw)
    requires tr.Wants().None? ==> TraderCanAct(sh, tr)
    ensures Steps(cfg.ordersPerTrader, TraderMove(cfg, sh, tr, i, d).1) < Steps(cfg.ordersPerTrader, tr)
  {
  }

  lemma StepsNonNegative(orders: nat, tr: Trader)
    ensures Steps(orders, tr) >= 0
  {
  }

  // ---------------------------------------------------------------- the traders and main together

  ghost function StepsLeft(s: State): int {
    SumOver(s.traders, StepsOf(s.cfg.ordersPerTrader)) + MainWork(s.main, |s.traders|)
  }

  lemma StepsLeftNonNegative(s: State)
    requires ControlInv(s)
    ensures StepsLeft(s) >= 0
  {
    forall i | 0 <= i < |s.traders|
      ensures StepsOf(s.cfg.ordersPerTrader)(s.traders[i]) >= 0
    {
      StepsNonNegative(s.cfg.ordersPerTrader, s.traders[i]);
    }
    SumBounds(s.traders, StepsOf(s.cfg.ordersPerTrader));
    OtherWorkNonNegative(s);
  }

  /** A step of a trader or of main. */
  predicate IsOwn(e: Event) {
    e.TraderStep? || e.MainStep?
  }

  lemma TraderStepsLeft(s: State, i: nat, d: Draw)
    requires Enabled(s, TraderStep(i, d))
    ensures StepsLeft(Step(s, TraderStep(i, d))) < StepsLeft(s)
  {
    var tr := TraderMove(s.cfg, s.sh, s.traders[i], i, d).1;
    TraderStepsShrink(s.cfg, s.sh, s.traders[i], i, d);
    SumUpdate(s.traders, i, tr, StepsOf(s.cfg.ordersPerTrader));
  }

  lemma StepLeavesSteps(s: State, e: Event)
    requires JoinsInOrder(s) && Enabled(s, e)
    ensures StepsLeft(Step(s, e)) <= StepsLeft(s) - (if IsOwn(e) then 1 else 0)
  {
    match e
    case TraderStep(i, d) => TraderStepsLeft(s, i, d);
    case MainStep => MainWorkShrinks(s);
    case _ =>
  }

  function OwnSteps(es: seq<Event>): nat
    decreases |es|
  {
    if es == [] then 0 else (if IsOwn(es[0]) then 1 else 0) + OwnSteps(es[1..])
  }

  lemma {:induction false} RunLeavesSteps(s1: State, es: seq<Event>, s2: State)
    requires ControlInv(s1) && Run(s1, es, s2)
    ensures OwnSteps(es) + StepsLeft(s2) <= StepsLeft(s1)
    decreases |es|
  {
    if es != [] {
      StepLeavesSteps(s1, es[0]);
      StepKeepsControl(s1, es[0]);
      RunLeavesSteps(Step(s1, es[0]), es[1..], s2);
    }
  }

  lemma {:induction false} SumOfSame(n: nat, tr: Trader, f: Trader -> int)
    ensures SumOver(seq(n, _ => tr), f) == n * f(tr)
  {
    if n > 0 {
      assert seq(n, _ => tr)[1..] == seq(n - 1, _ => tr);
      SumOfSame(n - 1, tr, f);
    }
  }

  lemma StepsAtFirst(cfg: Config)
    ensures StepsLeft(Init(cfg)) == cfg.traders * (7 + 24 * cfg.ordersPerTrader) + cfg.traders + 12
  {
    SumOfSame(cfg.traders, Trader(TLogStart, false, 0, 0), StepsOf(cfg.ordersPerTrader));
  }

  /** In any run, interrupted or not, the traders and main make only so many steps. */
  lemma TradersWindDown(cfg: Config, es: seq<Event>, s: State)
    requires ValidConfig(cfg) && Run(Init(cfg), es, s)
    ensures OwnSteps(es) <= cfg.traders * (7 + 24 * cfg.ordersPerTrader) + cfg.traders + 12
  {
    InitControl(cfg);
    RunLeavesSteps(Init(cfg), es, s);
    RunKeepsControl(Init(cfg), es, s);
    StepsLeftNonNegative(s);
    StepsAtFirst(cfg);
  }

  // ---------------------------------------------------------------- an order a turn

  /**
   * A trader inserts an order each turn, no more and no less, and starts no turn beyond its last: counted and
   * uncounted orders are the turns behind it, and the one it is in once the order is in the book.
   */
  predicate TurnsCounted(orders: nat, tr: Trader) {
    && tr.ordersPlaced + Uncounted(tr) == tr.loops + (if tr.Uncounted() || tr.phase.Leave? then 1 else 0)
    && tr.loops + (if InTurn(tr) then 1 else 0) <= orders
  }

  lemma TurnCounted(cfg: Config, sh: Shared, tr: Trader, i: nat, d: Draw)
    requires TurnsCounted(cfg.ordersPerTrader, tr) && (tr.Wants().None? ==> TraderCanAct(sh, tr))
    requires Carried(tr).Some? ==> Carried(tr).value > 0
    ensures TurnsCounted(cfg.ordersPerTrader, TraderMove(cfg, sh, tr, i, d).1)
  {
  }

  ghost predicate AllCounted(s: State) {
    forall i :: 0 <= i < |s.traders| ==> TurnsCounted(s.cfg.ordersPerTrader, s.traders[i])
  }

  lemma StepKeepsCounted(s: State, e: Event)
    requires AllCounted(s) && IdsUnique(s) && Enabled(s, e)
    ensures AllCounted(Step(s, e))
  {
    StepKeepsConfig(s, e);
    if e.TraderStep? {
      TurnCounted(s.cfg, s.sh, s.traders[e.i], e.i, e.draw);
    }
  }

  lemma {:induction false} CountedAlong(cfg: Config, es: seq<Event>, s: State)
    requires ValidConfig(cfg) && Run(Init(cfg), es, s)
    ensures AllCounted(s)
    decreases |es|
  {
    if es != [] {
      var n := |es| - 1;
      var u := LastStep(Init(cfg), es, s);
      CountedAlong(cfg, es[..n], u);
      BooksAlong(cfg, es[..n], u);
      StepKeepsCounted(u, es[n]);
    }
  }

  lemma {:induction false} OrdersAtMost(traders: seq<Trader>, orders: nat)
    requires forall i :: 0 <= i < |traders| ==> TurnsCounted(orders, traders[i])
    ensures SumOver(traders, Placed) + SumOver(traders, Uncounted) <= |traders| * orders
  {
    if traders != [] {
      assert TurnsCounted(orders, traders[0]);
      OrdersAtMost(traders[1..], orders);
      OnceMore(|traders| - 1, orders);
    }
  }

  lemma OnceMore(n: nat, k: nat)
    ensures n * k + k == (n + 1) * k
  {
  }

  /** No more orders are ever inserted than the traders were told to place. */
  lemma InsertedAtMost(s: State)
    requires Reachable(s)
    ensures Inserted(s) <= s.cfg.traders * s.cfg.ordersPerTrader
  {
    var es :| Run(Init(s.cfg), es, s);
    CountedAlong(s.cfg, es, s);
    ReachableBooks(s);
    OrdersAtMost(s.traders, s.cfg.ordersPerTrader);
  }

  /** At its loop test a trader has placed an order for every turn behind it. */
  lemma OrderEachTurn(s: State, i: nat)
    requires Reachable(s) && i < |s.traders| && s.traders[i].phase.Loop?
    ensures s.traders[i].ordersPlaced == s.traders[i].loops <= s.cfg.ordersPerTrader
  {
    var es :| Run(Init(s.cfg), es, s);
    CountedAlong(s.cfg, es, s);
    assert TurnsCounted(s.cfg.ordersPerTrader, s.traders[i]);
  }

  // ---------------------------------------------------------------- nobody stops early

  predicate Done(tr: Trader) {
    tr.phase.TLogEnd? || tr.phase.TFinished?
  }

  /** Without an interrupt only main raises the flag, after the traders; so they stop after their last turn. */
  ghost predicate NobodyStopped(s: State) {
    && (s.sh.shutdown ==> s.main.PastTraders())
    && forall i :: 0 <= i < |s.traders| && Done(s.traders[i]) ==> s.traders[i].loops >= s.cfg.ordersPerTrader
  }

  lemma TraderStops(cfg: Config, sh: Shared, tr: Trader, i: nat, d: Draw)
    requires (tr.Wants().None? ==> TraderCanAct(sh, tr)) && (sh.shutdown ==> Done(tr))
    requires Done(tr) ==> tr.loops >= cfg.ordersPerTrader
    ensures var tr' := TraderMove(cfg, sh, tr, i, d).1;
            Done(tr') ==> tr'.loops >= cfg.ordersPerTrader
  {
  }

  lemma StepStopsNobody(s: State, e: Event)
    requires NobodyStopped(s) && JoinsInOrder(s) && Enabled(s, e) && !e.Interrupt?
    ensures NobodyStopped(Step(s, e))
  {
    StepKeepsConfig(s, e);
    if e.TraderStep? {
      TraderStops(s.cfg, s.sh, s.traders[e.i], e.i, e.draw);
    }
  }

  lemma {:induction false} RunStopsNobody(s1: State, es: seq<Event>, s2: State)
    requires NobodyStopped(s1) && ControlInv(s1) && Run(s1, es, s2) && forall e :: e in es ==> !e.Interrupt?
    ensures NobodyStopped(s2) && ControlInv(s2)
    decreases |es|
  {
    if es != [] {
      assert es[0] in es && forall e :: e in es[1..] ==> e in es;
      StepStopsNobody(s1, es[0]);
      StepKeepsControl(s1, es[0]);
      RunStopsNobody(Step(s1, es[0]), es[1..], s2);
    }
  }

  lemma {:induction false} SumOfEqual(traders: seq<Trader>, f: Trader -> int, k: nat)
    requires forall i :: 0 <= i < |traders| ==> f(traders[i]) == k
    ensures SumOver(traders, f) == |traders| * k
  {
    if traders != [] {
      SumOfEqual(traders[1..], f, k);
      OnceMore(|traders| - 1, k);
    }
  }

  lemma FinishedPlacedAll(s: State, i: nat)
    requires NobodyStopped(s) && AllCounted(s) && JoinsInOrder(s) && s.main.PastTraders() && i < |s.traders|
    ensures s.traders[i].ordersPlaced == s.cfg.ordersPerTrader && Uncounted(s.traders[i]) == 0
  {
    assert TurnsCounted(s.cfg.ordersPerTrader, s.traders[i]);
  }

  /**
   * Without an interrupt, once main has joined the traders each of them has placed all its orders, market orders and
   * limit orders alike, and that many orders were inserted into the books.
   */
  lemma AllOrdersPlaced(cfg: Config, es: seq<Event>, s: State)
    requires ValidConfig(cfg) && Run(Init(cfg), es, s) && s.main.PastTraders() && forall e :: e in es ==> !e.Interrupt?
    ensures Inserted(s) == cfg.traders * cfg.ordersPerTrader
    ensures |s.traders| == cfg.traders
    ensures forall i :: 0 <= i < |s.traders| ==> s.traders[i].ordersPlaced == cfg.ordersPerTrader
  {
    InitControl(cfg);
    RunStopsNobody(Init(cfg), es, s);
    CountedAlong(cfg, es, s);
    BooksAlong(cfg, es, s);
    RunKeepsConfig(Init(cfg), es, s);
    forall i | 0 <= i < |s.traders|
      ensures Placed(s.traders[i]) == cfg.ordersPerTrader && Uncounted(s.traders[i]) == 0
    {
      FinishedPlacedAll(s, i);
    }
    SumOfEqual(s.traders, Placed, cfg.ordersPerTrader);
    SumOfEqual(s.traders, Uncounted, 0);
  }

  // ---------------------------------------------------------------- who moves next

  /** A trader, main, or somebody in their way with a mutex. */
  ghost predicate Matters(s: State, t: Tid) {
    t.TraderTid? || t.MainTid? || Owned(s.sh.owner, t) != {}
  }

  lemma WaitMatters(s: State, t: Tid, u: Tid)
    requires NoLostWakeup(s) && !s.sh.shutdown && Matters(s, t) && WaitsFor(s, t, u)
    ensures Matters(s, u)
  {
  }

  lemma {:induction false} MoverAlong(s: State, t: Tid, n: nat) returns (u: Tid)
    requires NoLostWakeup(s) && !s.sh.shutdown && Matters(s, t) && Unblocks(s, t, n)
    ensures CanRun(s, u) && Matters(s, u)
    decreases n
  {
    if CanRun(s, t) {
      u := t;
    } else {
      var v :| WaitsFor(s, t, v) && Unblocks(s, v, n - 1);
      WaitMatters(s, t, v);
      u := MoverAlong(s, v, n - 1);
    }
  }

  /** Before shutdown a trader, main or the holder of a mutex can step. */
  lemma NextMover(s: State) returns (u: Tid)
    requires Reachable(s) && !s.sh.shutdown
    ensures CanRun(s, u) && Matters(s, u)
  {
    ReachableControl(s);
    DeadlockFree(s, MainTid);
    u := MoverAlong(s, MainTid, 5);
  }

  // ---------------------------------------------------------------- getting out of the way

  /** Steps the matcher needs until it holds no mutex; a trade takes it three. */
  function MatcherHold(cfg: Config, market: Market, m: Matcher): int {
    match m.phase
    case LogTrade(_) => 3 * OrdersIn(market, cfg.symbols) + 2 + Half(m.holding)
    case Matching(_) => if m.holding then 3 * OrdersIn(market, cfg.symbols) + 1 else 0
    case TestFlag => if m.holding then 3 else 0
    case TestShutdown => 2
    case GoToSleep => 1
    case Clear => 1
    case _ => if m.holding then 1 else 0
  }

  function Hold(holding: bool): int {
    if holding then 1 else 0
  }

  function HoldLeft(s: State): int {
    MatcherHold(s.cfg, s.sh.market, s.matcher) + Hold(s.maker.holding) + Hold(s.dash.holding)
  }

  lemma HoldNonNegative(s: State)
    ensures HoldLeft(s) >= 0
  {
    TotalNonNegative(Sizes(s.sh.market), s.cfg.symbols);
  }

  lemma MatcherHoldShrinks(cfg: Config, sh: Shared, m: Matcher)
    requires m.Holds(cfg) != {} && MatcherShape(cfg, m) && Distinct(cfg.symbols) && cfg.symbols != []
    requires m.Wants(cfg).None? ==> MatcherCanAct(cfg, sh, m)
    ensures var (sh', m') := MatcherMove(cfg, sh, m);
            MatcherHold(cfg, sh'.market, m') < MatcherHold(cfg, sh.market, m)
  {
    TotalNonNegative(Sizes(sh.market), cfg.symbols);
    if m.Wants(cfg).None? {
      MatcherMarketSize(cfg, sh, m);
    }
  }

  lemma MatcherGetsOut(s: State)
    requires ControlInv(s) && Owned(s.sh.owner, MatcherTid) != {} && Enabled(s, MatcherStep)
    ensures HoldLeft(Step(s, MatcherStep)) < HoldLeft(s) && StepsLeft(Step(s, MatcherStep)) == StepsLeft(s)
  {
    MatcherHoldShrinks(s.cfg, s.sh, s.matcher);
  }

  lemma MakerLetsGo(cfg: Config, sh: Shared, m: Maker, price: real)
    requires m.Holds() != {} && MakerCanAct(cfg, m)
    ensures m.holding && !MakerMove(cfg, sh, m, price).1.holding
    ensures MakerMove(cfg, sh, m, price).0.market.books == sh.market.books
  {
  }

  lemma SameBooksSameHold(m: Market, n: Market, cfg: Config, matcher: Matcher)
    requires n.books == m.books
    ensures MatcherHold(cfg, n, matcher) == MatcherHold(cfg, m, matcher)
  {
    assert Sizes(n) == Sizes(m);
  }

  lemma MakerGetsOut(s: State, price: real)
    requires LocksHeld(s) && Owned(s.sh.owner, MakerTid) != {} && Enabled(s, MakerStep(price))
    ensures HoldLeft(Step(s, MakerStep(price))) < HoldLeft(s)
    ensures StepsLeft(Step(s, MakerStep(price))) == StepsLeft(s)
  {
    MakerLetsGo(s.cfg, s.sh, s.maker, price);
    SameBooksSameHold(s.sh.market, MakerMove(s.cfg, s.sh, s.maker, price).0.market, s.cfg, s.matcher);
  }

  lemma DashGetsOut(s: State)
    requires ControlInv(s) && Owned(s.sh.owner, DashTid) != {} && Enabled(s, DashStep)
    ensures HoldLeft(Step(s, DashStep)) < HoldLeft(s) && StepsLeft(Step(s, DashStep)) == StepsLeft(s)
  {
    assert s.dash.Holds(s.cfg) != {};
  }

  /** Whoever matters brings the end nearer: by a step of its own, or on its way out of a mutex. */
  lemma MoverAdvances(s: State, u: Tid)
    requires ControlInv(s) && CanRun(s, u) && Matters(s, u)
    ensures var t := Step(s, OwnStep(s, u));
            StepsLeft(t) < StepsLeft(s) || (StepsLeft(t) == StepsLeft(s) && HoldLeft(t) < HoldLeft(s))
  {
    match u
    case TraderTid(i) => StepLeavesSteps(s, OwnStep(s, u));
    case MainTid => StepLeavesSteps(s, OwnStep(s, u));
    case MatcherTid => MatcherGetsOut(s);
    case MakerTid => MakerGetsOut(s, FLOOR);
    case DashTid => DashGetsOut(s);
  }

  // ---------------------------------------------------------------- the run to the end

  lemma StepReaches(s: State, e: Event)
    requires Reachable(s) && Enabled(s, e)
    ensures Run(s, [e], Step(s, e)) && Reachable(Step(s, e))
    ensures 0 <= StepsLeft(Step(s, e)) && 0 <= HoldLeft(Step(s, e))
  {
    RunOne(s, e);
    ReachableRun(s, [e], Step(s, e));
    ReachableControl(Step(s, e));
    StepsLeftNonNegative(Step(s, e));
    HoldNonNegative(Step(s, e));
  }

  lemma MatcherMovesOut(s: State, u: Tid)
    requires LocksHeld(s) && CanRun(s, u) && Matters(s, u)
    ensures OwnStep(s, u).MatcherStep? ==> s.matcher.Holds(s.cfg) != {}
    ensures !OwnStep(s, u).Interrupt?
  {
  }

  /** One step of the next mover: no interrupt, and the matcher moves only out of a mutex. */
  lemma MoveOn(s: State) returns (e: Event)
    requires Reachable(s) && !s.sh.shutdown
    ensures !e.Interrupt? && Enabled(s, e) && Run(s, [e], Step(s, e)) && Reachable(Step(s, e))
    ensures e.MatcherStep? ==> s.matcher.Holds(s.cfg) != {}
    ensures var t := Step(s, e);
            && 0 <= StepsLeft(t) && 0 <= HoldLeft(t)
            && (StepsLeft(t) < StepsLeft(s) || (StepsLeft(t) == StepsLeft(s) && HoldLeft(t) < HoldLeft(s)))
  {
    ReachableControl(s);
    var u := NextMover(s);
    e := OwnStep(s, u);
    MoverAdvances(s, u);
    MatcherMovesOut(s, u);
    StepReaches(s, e);
  }

  lemma OthersLeaveMatcher(s: State, e: Event)
    requires Enabled(s, e) && !e.MatcherStep?
    ensures Step(s, e).matcher == s.matcher && Step(s, e).cfg == s.cfg
  {
  }

  /** Left to itself the exchange reaches the point where main raises the shutdown flag. */
  lemma {:induction false} RunsToShutdown(s: State) returns (es: seq<Event>, t: State)
    requires Reachable(s)
    ensures Run(s, es, t) && Reachable(t) && t.sh.shutdown && (forall e :: e in es ==> !e.Interrupt?)
    ensures s.matcher.Holds(s.cfg) == {} ==> t.matcher == s.matcher && (forall e :: e in es ==> !e.MatcherStep?)
    decreases StepsLeft(s), HoldLeft(s)
  {
    if s.sh.shutdown {
      es, t := [], s;
    } else {
      var e := MoveOn(s);
      if !e.MatcherStep? {
        OthersLeaveMatcher(s, e);
      }
      var fs;
      fs, t := RunsToShutdown(Step(s, e));
      RunConcat(s, [e], Step(s, e), fs, t);
      es := [e] + fs;
    }
  }

  /** From every reachable state the exchange can run to its end, without any SIGINT. */
  lemma EndsByItself(s: State) returns (es: seq<Event>, t: State)
    requires Reachable(s)
    ensures Run(s, es, t) && AllFinished(t) && forall e :: e in es ==> !e.Interrupt?
  {
    var fs, u := RunsToShutdown(s);
    var gs;
    gs, t := RunsToTheEnd(u);
    RunConcat(s, fs, u, gs, t);
    es := fs + gs;
  }
}
