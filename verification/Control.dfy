/** Locks, the trading room, sleeping and joining: what every run of the exchange keeps about its threads. */
module Control {
  import opened Options
  import opened Ledger
  import opened Exchange

  // ---------------------------------------------------------------- shape

  ghost predicate MarketShape(cfg: Config, m: Market) {
    forall x ::
      && (x in cfg.symbols <==> x in m.books)
      && (x in cfg.symbols <==> x in m.stocks)
      && (x in cfg.symbols <==> x in m.arrivals)
  }

  /** The symbol a trader is dealing in, if any, exists. */
  predicate TraderShape(cfg: Config, tr: Trader) {
    match tr.phase
    case Generate(symbol, _) => symbol in cfg.symbols
    case Price(o) => o.symbol in cfg.symbols
    case Insert(o) => o.symbol in cfg.symbols
    case Flag(symbol, _) => symbol in cfg.symbols
    case _ => true
  }

  /** Indexes stay in range, and a batch is empty exactly outside the phases that work on it. */
  predicate MatcherShape(cfg: Config, m: Matcher) {
    match m.phase
    case Next(k) => k <= |cfg.symbols| && m.trades == []
    case Matching(k) => k < |cfg.symbols|
    case LogTrade(k) => k < |cfg.symbols| && m.trades != []
    case Push(k) => k < |cfg.symbols| && m.trades != []
    case CommitStock(k) => k < |cfg.symbols| && m.trades != []
    case Tally(k) => k < |cfg.symbols|
    case _ => m.trades == []
  }

  ghost predicate Shape(s: State) {
    && ValidConfig(s.cfg) && |s.traders| == s.cfg.traders
    && MarketShape(s.cfg, s.sh.market)
    && (forall i :: 0 <= i < |s.traders| ==> TraderShape(s.cfg, s.traders[i]))
    && MatcherShape(s.cfg, s.matcher)
    && (s.maker.phase.KUpdate? ==> s.maker.phase.k < |s.cfg.symbols|)
    && (s.dash.phase.DDepth? ==> s.dash.phase.k < |s.cfg.symbols|)
  }

  lemma TraderNextShape(cfg: Config, sh: Shared, tr: Trader, i: nat, d: Draw)
    requires TraderShape(cfg, tr) && ValidDraw(cfg.symbols, d) && TraderCanAct(sh, tr)
    ensures TraderShape(cfg, TraderNext(cfg, sh, tr, i, d))
  {
  }

  lemma TraderMarketShape(cfg: Config, sh: Shared, tr: Trader)
    requires MarketShape(cfg, sh.market) && TraderShape(cfg, tr) && TraderCanAct(sh, tr)
    ensures MarketShape(cfg, TraderMarket(sh.market, tr))
  {
  }

  lemma TraderKeepsShape(cfg: Config, sh: Shared, tr: Trader, i: nat, d: Draw)
    requires MarketShape(cfg, sh.market) && TraderShape(cfg, tr) && ValidDraw(cfg.symbols, d)
    requires tr.Wants().None? ==> TraderCanAct(sh, tr)
    ensures MarketShape(cfg, TraderMove(cfg, sh, tr, i, d).0.market)
    ensures TraderShape(cfg, TraderMove(cfg, sh, tr, i, d).1)
  {
    if tr.Wants().None? {
      TraderNextShape(cfg, sh, tr, i, d);
      TraderMarketShape(cfg, sh, tr);
    }
  }

  lemma MatcherMarketShape(cfg: Config, sh: Shared, m: Matcher)
    requires MarketShape(cfg, sh.market) && MatcherCanAct(cfg, sh, m)
    ensures MarketShape(cfg, MatcherMarket(cfg, sh.market, m))
  {
  }

  lemma MatcherNextShape(cfg: Config, sh: Shared, m: Matcher)
    requires MatcherShape(cfg, m) && MatcherCanAct(cfg, sh, m)
    ensures MatcherShape(cfg, MatcherNext(cfg, sh, m))
  {
  }

  lemma MatcherKeepsShape(cfg: Config, sh: Shared, m: Matcher)
    requires MarketShape(cfg, sh.market) && MatcherShape(cfg, m)
    requires m.Wants(cfg).None? ==> MatcherCanAct(cfg, sh, m)
    ensures MarketShape(cfg, MatcherMove(cfg, sh, m).0.market)
    ensures MatcherShape(cfg, MatcherMove(cfg, sh, m).1)
  {
    if m.Wants(cfg).None? {
      MatcherMarketShape(cfg, sh, m);
      MatcherNextShape(cfg, sh, m);
    }
  }

  lemma StepKeepsShape(s: State, e: Event)
    requires Shape(s) && Enabled(s, e)
    ensures Shape(Step(s, e))
  {
    match e
    case TraderStep(i, d) => TraderKeepsShape(s.cfg, s.sh, s.traders[i], i, d);
    case MatcherStep => MatcherKeepsShape(s.cfg, s.sh, s.matcher);
    case _ =>
  }

  // ---------------------------------------------------------------- locks

  /** A mutex is owned by exactly the thread that is inside it. */
  ghost predicate LocksHeld(s: State) {
    && (forall i: nat :: Owned(s.sh.owner, TraderTid(i)) == if i < |s.traders| then s.traders[i].Holds() else {})
    && Owned(s.sh.owner, MatcherTid) == s.matcher.Holds(s.cfg)
    && Owned(s.sh.owner, MakerTid) == s.maker.Holds()
    && Owned(s.sh.owner, DashTid) == s.dash.Holds(s.cfg)
    && Owned(s.sh.owner, MainTid) == s.main.Holds()
  }

  /** Thread t's move changes nobody else's locks and leaves it with `after`. */
  ghost predicate OwnsAfter(before: Owners, after: Owners, t: Tid, held: set<Lock>) {
    && Owned(after, t) == held
    && forall u: Tid :: u != t ==> Owned(after, u) == Owned(before, u)
  }

  lemma TakeOwns(owner: Owners, l: Lock, t: Tid)
    requires l !in owner
    ensures OwnsAfter(owner, owner[l := t], t, Owned(owner, t) + {l})
  {
    assert Owned(owner[l := t], t) == Owned(owner, t) + {l};
    forall u: Tid | u != t
      ensures Owned(owner[l := t], u) == Owned(owner, u)
    {
    }
  }

  lemma DropOwns(owner: Owners, l: Lock, t: Tid)
    requires l in Owned(owner, t)
    ensures OwnsAfter(owner, owner - {l}, t, Owned(owner, t) - {l})
  {
    assert Owned(owner - {l}, t) == Owned(owner, t) - {l};
    forall u: Tid | u != t
      ensures Owned(owner - {l}, u) == Owned(owner, u)
    {
    }
  }

  lemma ReleasedOwns(owner: Owners, l: Option<Lock>, t: Tid)
    requires Owned(owner, t) == if l.Some? then {l.value} else {}
    ensures OwnsAfter(owner, Released(owner, l), t, {})
  {
    if l.Some? {
      DropOwns(owner, l.value, t);
    }
  }

  lemma TraderNextHolds(cfg: Config, sh: Shared, tr: Trader, i: nat, d: Draw)
    requires TraderCanAct(sh, tr)
    ensures TraderNext(cfg, sh, tr, i, d).Holds() == {}
  {
  }

  lemma TraderLocks(cfg: Config, sh: Shared, tr: Trader, i: nat, d: Draw)
    requires tr.Wants().None? ==> TraderCanAct(sh, tr)
    requires Free(sh, tr.Wants()) && Owned(sh.owner, TraderTid(i)) == tr.Holds()
    ensures var (sh', tr') := TraderMove(cfg, sh, tr, i, d);
            OwnsAfter(sh.owner, sh'.owner, TraderTid(i), tr'.Holds())
  {
    if tr.Wants().Some? {
      TakeOwns(sh.owner, tr.Wants().value, TraderTid(i));
    } else {
      TraderNextHolds(cfg, sh, tr, i, d);
      ReleasedOwns(sh.owner, tr.Lock(), TraderTid(i));
    }
  }

  lemma MatcherNextHolds(cfg: Config, sh: Shared, m: Matcher)
    requires MatcherCanAct(cfg, sh, m) && m.Wants(cfg).None?
    ensures var r := MatcherReleases(cfg, sh, m);
            && (r.Some? ==> r.value in m.Holds(cfg))
            && MatcherNext(cfg, sh, m).Holds(cfg) == m.Holds(cfg) - if r.Some? then {r.value} else {}
  {
  }

  lemma MatcherLocks(cfg: Config, sh: Shared, m: Matcher)
    requires m.Wants(cfg).None? ==> MatcherCanAct(cfg, sh, m)
    requires Free(sh, m.Wants(cfg)) && Owned(sh.owner, MatcherTid) == m.Holds(cfg)
    ensures var (sh', m') := MatcherMove(cfg, sh, m);
            OwnsAfter(sh.owner, sh'.owner, MatcherTid, m'.Holds(cfg))
  {
    if m.Wants(cfg).Some? {
      TakeOwns(sh.owner, m.Wants(cfg).value, MatcherTid);
      assert MatcherTake(cfg, sh, m).1.Holds(cfg) == m.Holds(cfg) + {m.Wants(cfg).value};
    } else {
      MatcherNextHolds(cfg, sh, m);
      var r := MatcherReleases(cfg, sh, m);
      if r.Some? {
        DropOwns(sh.owner, r.value, MatcherTid);
      }
    }
  }

  lemma MakerLocks(cfg: Config, sh: Shared, m: Maker, price: real)
    requires m.Wants().None? ==> MakerCanAct(cfg, m)
    requires Free(sh, m.Wants()) && Owned(sh.owner, MakerTid) == m.Holds()
    ensures var (sh', m') := MakerMove(cfg, sh, m, price);
            OwnsAfter(sh.owner, sh'.owner, MakerTid, m'.Holds())
  {
    if m.Wants().Some? {
      TakeOwns(sh.owner, m.Wants().value, MakerTid);
    } else {
      ReleasedOwns(sh.owner, m.Lock(), MakerTid);
    }
  }

  lemma DashLocks(cfg: Config, sh: Shared, d: Dash)
    requires d.Wants(cfg).None? ==> DashCanAct(cfg, d)
    requires Free(sh, d.Wants(cfg)) && Owned(sh.owner, DashTid) == d.Holds(cfg)
    ensures var (sh', d') := DashMove(cfg, sh, d);
            OwnsAfter(sh.owner, sh'.owner, DashTid, d'.Holds(cfg))
  {
    if d.Wants(cfg).Some? {
      TakeOwns(sh.owner, d.Wants(cfg).value, DashTid);
    } else {
      ReleasedOwns(sh.owner, d.Lock(cfg), DashTid);
    }
  }

  lemma MainLocks(s: State)
    requires s.main.Wants().None? ==> MainCanAct(s)
    requires Free(s.sh, s.main.Wants()) && Owned(s.sh.owner, MainTid) == s.main.Holds()
    ensures var (sh', m') := MainMove(s);
            OwnsAfter(s.sh.owner, sh'.owner, MainTid, m'.Holds())
  {
    if s.main.Wants().Some? {
      TakeOwns(s.sh.owner, s.main.Wants().value, MainTid);
    } else {
      ReleasedOwns(s.sh.owner, s.main.Lock(), MainTid);
    }
  }

  lemma StepKeepsLocks(s: State, e: Event)
    requires LocksHeld(s) && Enabled(s, e)
    ensures LocksHeld(Step(s, e))
  {
    match e
    case TraderStep(i, d) => TraderLocks(s.cfg, s.sh, s.traders[i], i, d);
    case MatcherStep => MatcherLocks(s.cfg, s.sh, s.matcher);
    case MakerStep(price) => MakerLocks(s.cfg, s.sh, s.maker, price);
    case DashStep => DashLocks(s.cfg, s.sh, s.dash);
    case MainStep => MainLocks(s);
    case SpuriousWakeup =>
    case Interrupt =>
  }

  // ---------------------------------------------------------------- the trading room

  function SumOver(traders: seq<Trader>, f: Trader -> int): int {
    if traders == [] then 0 else f(traders[0]) + SumOver(traders[1..], f)
  }

  lemma {:induction false} SumUpdate(traders: seq<Trader>, i: nat, tr: Trader, f: Trader -> int)
    requires i < |traders|
    ensures SumOver(traders[i := tr], f) == SumOver(traders, f) - f(traders[i]) + f(tr)
  {
    if i == 0 {
      assert traders[0 := tr][1..] == traders[1..];
    } else {
      assert traders[i := tr][1..] == traders[1..][i - 1 := tr];
      SumUpdate(traders[1..], i - 1, tr, f);
    }
  }

  lemma {:induction false} SumBounds(traders: seq<Trader>, f: Trader -> int)
    requires forall i :: 0 <= i < |traders| ==> f(traders[i]) >= 0
    ensures SumOver(traders, f) >= 0
    ensures forall i :: 0 <= i < |traders| ==> f(traders[i]) <= SumOver(traders, f)
  {
    if traders != [] {
      SumBounds(traders[1..], f);
      assert forall i :: 1 <= i < |traders| ==> traders[i] == traders[1..][i - 1];
    }
  }

  /** If a sum is positive, somebody contributes to it. */
  lemma {:induction false} SumWitness(traders: seq<Trader>, f: Trader -> int) returns (i: nat)
    requires SumOver(traders, f) > 0
    ensures i < |traders| && f(traders[i]) > 0
  {
    if f(traders[0]) > 0 {
      i := 0;
    } else {
      i := SumWitness(traders[1..], f);
      i := i + 1;
    }
  }

  function Present(tr: Trader): int {
    if tr.InRoom() then 1 else 0
  }

  /** The semaphore's value and the traders inside make up the capacity. */
  ghost predicate RoomFits(s: State) {
    s.sh.room >= 0 && s.sh.room + SumOver(s.traders, Present) == s.cfg.capacity
  }

  lemma TraderKeepsRoom(cfg: Config, sh: Shared, tr: Trader, i: nat, d: Draw)
    requires tr.Wants().None? ==> TraderCanAct(sh, tr)
    ensures var (sh', tr') := TraderMove(cfg, sh, tr, i, d);
            sh'.room + Present(tr') == sh.room + Present(tr) && (sh.room >= 0 ==> sh'.room >= 0)
  {
  }

  lemma StepKeepsRoom(s: State, e: Event)
    requires RoomFits(s) && Enabled(s, e)
    ensures RoomFits(Step(s, e))
  {
    match e
    case TraderStep(i, d) =>
      TraderKeepsRoom(s.cfg, s.sh, s.traders[i], i, d);
      SumUpdate(s.traders, i, TraderMove(s.cfg, s.sh, s.traders[i], i, d).1, Present);
    case _ =>
  }

  // ---------------------------------------------------------------- joining, sleeping, waking

  /** Main has only gone past traders that had finished, and finished threads stay finished. */
  ghost predicate JoinsInOrder(s: State) {
    && (s.main.phase.JoinTrader? ==>
          s.main.phase.k <= |s.traders| && forall i :: 0 <= i < s.main.phase.k ==> s.traders[i].phase.TFinished?)
    && (s.main.PastTraders() ==> forall i :: 0 <= i < |s.traders| ==> s.traders[i].phase.TFinished?)
    && (s.main.phase.JoinMaker? || s.main.phase.JoinDash? || s.main.phase.LogDone? || s.main.phase.Exited?
        ==> s.matcher.phase.MFinished?)
    && (s.main.phase.JoinDash? || s.main.phase.LogDone? || s.main.phase.Exited? ==> s.maker.phase.KFinished?)
    && (s.main.phase.LogDone? || s.main.phase.Exited? ==> s.dash.phase.DFinished?)
  }

  /** A finished thread has no step left. */
  lemma FinishedIsIdle(s: State, e: Event)
    requires Enabled(s, e) && LocksHeld(s)
    ensures e.TraderStep? ==> !s.traders[e.i].phase.TFinished?
    ensures e.MatcherStep? ==> !s.matcher.phase.MFinished?
    ensures e.MakerStep? ==> !s.maker.phase.KFinished?
    ensures e.DashStep? ==> !s.dash.phase.DFinished?
  {
  }

  lemma StepKeepsJoins(s: State, e: Event)
    requires JoinsInOrder(s) && LocksHeld(s) && Enabled(s, e)
    ensures JoinsInOrder(Step(s, e))
  {
    FinishedIsIdle(s, e);
    match e
    case MainStep => MainKeepsJoins(s);
    case _ =>
  }

  lemma MainKeepsJoins(s: State)
    requires JoinsInOrder(s) && Enabled(s, MainStep)
    ensures JoinsInOrder(Step(s, MainStep))
  {
  }

  /**
   * A thread asleep on the condition variable is the matcher, with the flag down; the flag cannot rise
   * between its test and the sleep; and once main has sent the final signal there is no sleep left.
   */
  ghost predicate NoLostWakeup(s: State) {
    && (s.sh.sleeping ==> s.matcher.phase.Asleep? && !s.sh.hasNewOrders)
    && (s.matcher.phase.TestShutdown? || s.matcher.phase.GoToSleep? ==> !s.sh.hasNewOrders)
    && (s.main.phase.Wake? ==> s.sh.shutdown)
    && (s.main.PastWake() ==> s.sh.shutdown && !s.sh.sleeping && !s.matcher.phase.GoToSleep?)
    && (s.matcher.phase.MLogEnd? || s.matcher.phase.MFinished? ==> s.sh.shutdown)
  }

  /** Nobody raises the flag while the matcher is between testing it and going to sleep. */
  lemma FlagIsGuarded(s: State)
    requires LocksHeld(s) && (s.matcher.phase.TestShutdown? || s.matcher.phase.GoToSleep?)
    ensures forall i :: 0 <= i < |s.traders| ==> !(s.traders[i].phase.Flag? && s.traders[i].holding)
    ensures !(s.main.phase.Wake? && s.main.holding)
  {
    assert NewOrderLock in Owned(s.sh.owner, MatcherTid);
    assert NewOrderLock !in Owned(s.sh.owner, MainTid);
    forall i | 0 <= i < |s.traders|
      ensures !(s.traders[i].phase.Flag? && s.traders[i].holding)
    {
      assert NewOrderLock !in Owned(s.sh.owner, TraderTid(i));
    }
  }

  lemma MatcherKeepsWakeup(s: State)
    requires NoLostWakeup(s) && Enabled(s, MatcherStep)
    ensures NoLostWakeup(Step(s, MatcherStep))
  {
  }

  lemma TraderKeepsWakeup(s: State, i: nat, d: Draw)
    requires NoLostWakeup(s) && LocksHeld(s) && Enabled(s, TraderStep(i, d))
    ensures NoLostWakeup(Step(s, TraderStep(i, d)))
  {
    var testing := s.matcher.phase.TestShutdown? || s.matcher.phase.GoToSleep?;
    if s.traders[i].phase.Flag? && s.traders[i].holding && testing {
      FlagIsGuarded(s);
    }
  }

  lemma MainKeepsWakeup(s: State)
    requires NoLostWakeup(s) && LocksHeld(s) && Enabled(s, MainStep)
    ensures NoLostWakeup(Step(s, MainStep))
  {
    if s.main.phase.Wake? && s.main.holding && (s.matcher.phase.TestShutdown? || s.matcher.phase.GoToSleep?) {
      FlagIsGuarded(s);
    }
  }

  lemma StepKeepsWakeup(s: State, e: Event)
    requires NoLostWakeup(s) && LocksHeld(s) && Enabled(s, e)
    ensures NoLostWakeup(Step(s, e))
  {
    match e
    case TraderStep(i, d) => TraderKeepsWakeup(s, i, d);
    case MatcherStep => MatcherKeepsWakeup(s);
    case MainStep => MainKeepsWakeup(s);
    case _ =>
  }

  // ---------------------------------------------------------------- every run

  ghost predicate ControlInv(s: State) {
    Shape(s) && LocksHeld(s) && RoomFits(s) && JoinsInOrder(s) && NoLostWakeup(s)
  }

  lemma {:induction false} NobodyIn(n: nat, f: Trader -> int)
    requires f(Trader(TLogStart, false, 0, 0)) == 0
    ensures SumOver(seq(n, _ => Trader(TLogStart, false, 0, 0)), f) == 0
  {
    if n > 0 {
      assert seq(n, _ => Trader(TLogStart, false, 0, 0))[1..] == seq(n - 1, _ => Trader(TLogStart, false, 0, 0));
      NobodyIn(n - 1, f);
    }
  }

  lemma InitControl(cfg: Config)
    requires ValidConfig(cfg)
    ensures ControlInv(Init(cfg))
  {
    NobodyIn(cfg.traders, Present);
  }

  lemma StepKeepsControl(s: State, e: Event)
    requires ControlInv(s) && Enabled(s, e)
    ensures ControlInv(Step(s, e))
  {
    StepKeepsShape(s, e);
    StepKeepsLocks(s, e);
    StepKeepsRoom(s, e);
    StepKeepsJoins(s, e);
    StepKeepsWakeup(s, e);
  }

  lemma {:induction false} RunKeepsControl(s1: State, es: seq<Event>, s2: State)
    requires ControlInv(s1) && Run(s1, es, s2)
    ensures ControlInv(s2)
    decreases |es|
  {
    if es != [] {
      StepKeepsControl(s1, es[0]);
      RunKeepsControl(Step(s1, es[0]), es[1..], s2);
    }
  }

  lemma ReachableControl(s: State)
    requires Reachable(s)
    ensures ControlInv(s)
  {
    var es :| Run(Init(s.cfg), es, s);
    InitControl(s.cfg);
    RunKeepsControl(Init(s.cfg), es, s);
  }
}
