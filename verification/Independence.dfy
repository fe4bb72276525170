/** Symbols do not interfere: a symbol's book and stock depend only on the steps that touch it. */
module Independence {
  import opened Options
  import opened Orders
  import opened Crossing
  import opened BookHistory
  import opened Ledger
  import opened Exchange
  import opened Runs
  import opened Control
  import opened Books
  import opened Accounting

  /** What the exchange keeps about one symbol; `pending` is its batch, executed but not committed. */
  datatype Slot = Slot(book: Book, stock: Stock, pending: seq<TradeRecord>)

  /** The critical sections that can change it. */
  datatype SymbolOp = AddOp(order: Order) | TradeOp | PublishOp(price: real) | CommitOp

  /** What a section does to the slot of symbol x: nothing but the slot and the section decide it. */
  function Apply(x: string, slot: Slot, op: SymbolOp): Slot {
    match op
    case AddOp(o) => slot.(book := Submit(slot.book, o))
    case TradeOp =>
      if Crossed(slot.book) then slot.(book := Execute(slot.book), pending := slot.pending + [TopTrade(x, slot.book)])
      else slot
    case PublishOp(p) => slot.(stock := slot.stock.Priced(p))
    case CommitOp =>
      if slot.pending == [] then slot else slot.(stock := Commit(slot.stock, slot.pending), pending := [])
  }

  function Replay(x: string, slot: Slot, ops: seq<SymbolOp>): Slot
    decreases |ops|
  {
    if ops == [] then slot else Replay(x, Apply(x, slot, ops[0]), ops[1..])
  }

  predicate IsCommit(s: State, e: Event) {
    && e.MatcherStep? && s.matcher.phase.CommitStock? && s.matcher.holding && s.matcher.phase.k < |s.cfg.symbols|
  }

  predicate IsPublish(s: State, e: Event) {
    && e.MakerStep? && s.maker.phase.KUpdate? && s.maker.holding && s.maker.phase.k < |s.cfg.symbols|
  }

  /** The section on x that a step runs, if it runs one. */
  function OpOf(s: State, e: Event, x: string): Option<SymbolOp> {
    if IsInsertion(s, e) then
      if s.traders[e.i].phase.order.symbol == x then Some(AddOp(s.traders[e.i].phase.order)) else None
    else if IsTrade(s, e) then
      if s.cfg.symbols[s.matcher.phase.k] == x then Some(TradeOp) else None
    else if IsCommit(s, e) then
      if s.cfg.symbols[s.matcher.phase.k] == x then Some(CommitOp) else None
    else if IsPublish(s, e) then
      if s.cfg.symbols[s.maker.phase.k] == x then Some(PublishOp(Clamp(e.price))) else None
    else None
  }

  /** The sections on x of a run, in order. */
  ghost function OpsOf(s: State, es: seq<Event>, x: string): seq<SymbolOp>
    decreases |es|
  {
    if es == [] || !Enabled(s, es[0]) then []
    else
      var rest := OpsOf(Step(s, es[0]), es[1..], x);
      match OpOf(s, es[0], x)
      case Some(op) => [op] + rest
      case None => rest
  }

  /** The batch in flight, if it is one of x. */
  function PendingOf(cfg: Config, m: Matcher, x: string): seq<TradeRecord> {
    if Uncommitted(m) && m.phase.k < |cfg.symbols| && cfg.symbols[m.phase.k] == x then m.trades else []
  }

  ghost predicate Listed(m: Market, x: string) {
    x in m.books && x in m.stocks
  }

  ghost function SlotOf(s: State, x: string): Slot
    requires Listed(s.sh.market, x)
  {
    Slot(s.sh.market.books[x], s.sh.market.stocks[x], PendingOf(s.cfg, s.matcher, x))
  }

  /** What a step does to x is its section on x. */
  ghost predicate Follows(s: State, t: State, x: string, op: Option<SymbolOp>)
    requires Listed(s.sh.market, x)
  {
    && Listed(t.sh.market, x)
    && SlotOf(t, x) == match op case Some(o) => Apply(x, SlotOf(s, x), o) case None => SlotOf(s, x)
  }

  // ---------------------------------------------------------------- steps

  lemma InsertionFollows(s: State, e: Event, x: string)
    requires Listed(s.sh.market, x) && Enabled(s, e) && IsInsertion(s, e)
    ensures Follows(s, Step(s, e), x, OpOf(s, e, x))
  {
    InsertionEffect(s, e);
  }

  lemma TradeFollows(s: State, e: Event, x: string)
    requires Listed(s.sh.market, x) && Enabled(s, e) && IsTrade(s, e)
    ensures Follows(s, Step(s, e), x, OpOf(s, e, x))
  {
    TradeEffect(s, e);
    TradeMoves(s);
  }

  lemma CommitFollows(s: State, e: Event, x: string)
    requires Listed(s.sh.market, x) && Enabled(s, e) && IsCommit(s, e)
    ensures Follows(s, Step(s, e), x, OpOf(s, e, x))
  {
    CommitEffect(s.cfg, s.sh, s.matcher);
  }

  lemma PublishFollows(s: State, e: Event, x: string)
    requires Listed(s.sh.market, x) && Enabled(s, e) && IsPublish(s, e)
    ensures Follows(s, Step(s, e), x, OpOf(s, e, x))
  {
  }

  lemma MatcherLeavesStocks(cfg: Config, market: Market, m: Matcher)
    requires m.phase.Matching? || m.phase.CommitStock? ==> m.phase.k < |cfg.symbols|
    requires m.phase.LogTrade? ==> m.trades != []
    requires !m.phase.CommitStock?
    ensures MatcherMarket(cfg, market, m).stocks == market.stocks
  {
  }

  lemma MatcherKeepsPending(cfg: Config, sh: Shared, m: Matcher, x: string)
    requires MatcherShape(cfg, m) && (m.Wants(cfg).None? ==> MatcherCanAct(cfg, sh, m))
    requires !(m.phase.CommitStock? && m.holding)
    requires !(m.phase.Matching? && m.holding && IsCrossed(sh.market, cfg.symbols[m.phase.k]))
    ensures PendingOf(cfg, MatcherMove(cfg, sh, m).1, x) == PendingOf(cfg, m, x)
  {
  }

  lemma OtherMatcherStepsFollow(s: State, x: string)
    requires Listed(s.sh.market, x) && Shape(s) && Enabled(s, MatcherStep)
    requires !IsTrade(s, MatcherStep) && !IsCommit(s, MatcherStep)
    ensures Follows(s, Step(s, MatcherStep), x, None)
  {
    MatcherStepQuiet(s);
    MatcherKeepsPending(s.cfg, s.sh, s.matcher, x);
    if s.matcher.Wants(s.cfg).None? {
      MatcherLeavesStocks(s.cfg, s.sh.market, s.matcher);
    }
  }

  lemma OthersFollow(s: State, e: Event, x: string)
    requires Listed(s.sh.market, x) && Enabled(s, e) && !e.MatcherStep? && !IsInsertion(s, e) && !IsPublish(s, e)
    ensures Follows(s, Step(s, e), x, None)
  {
    if e.TraderStep? && s.traders[e.i].Wants().None? {
      TraderQuiet(s.sh, s.traders[e.i]);
    }
  }

  lemma StepFollows(s: State, e: Event, x: string)
    requires Listed(s.sh.market, x) && Shape(s) && Enabled(s, e)
    ensures Follows(s, Step(s, e), x, OpOf(s, e, x))
  {
    if IsInsertion(s, e) {
      InsertionFollows(s, e, x);
    } else if IsTrade(s, e) {
      TradeFollows(s, e, x);
    } else if IsCommit(s, e) {
      CommitFollows(s, e, x);
    } else if IsPublish(s, e) {
      PublishFollows(s, e, x);
    } else if e.MatcherStep? {
      OtherMatcherStepsFollow(s, x);
    } else {
      OthersFollow(s, e, x);
    }
  }

  // ---------------------------------------------------------------- runs

  /** Over any run, the book, the stock and the batch of a symbol are the replay of the sections on it. */
  lemma {:induction false} RunFollows(s1: State, es: seq<Event>, s2: State, x: string)
    requires Listed(s1.sh.market, x) && ControlInv(s1) && Run(s1, es, s2)
    ensures Listed(s2.sh.market, x)
    ensures SlotOf(s2, x) == Replay(x, SlotOf(s1, x), OpsOf(s1, es, x))
    decreases |es|
  {
    if es != [] {
      StepFollows(s1, es[0], x);
      StepKeepsControl(s1, es[0]);
      RunFollows(Step(s1, es[0]), es[1..], s2, x);
      var rest := OpsOf(Step(s1, es[0]), es[1..], x);
      if OpOf(s1, es[0], x).Some? {
        assert ([OpOf(s1, es[0], x).value] + rest)[1..] == rest;
      }
    }
  }

  /**
   * Two exchanges, run however you like, that open x at the same price and go through the same sections on x,
   * end with the same book, stock record and uncommitted batch for x: nothing else reaches it. A commit carries
   * no data of its own, so what it adds to the stock is decided by the insertions and iterations before it.
   */
  lemma SymbolIndependence(c1: Config, es: seq<Event>, s: State, c2: Config, fs: seq<Event>, t: State, x: string)
    requires ValidConfig(c1) && ValidConfig(c2) && Run(Init(c1), es, s) && Run(Init(c2), fs, t)
    requires x in c1.opening && x in c2.opening && c1.opening[x] == c2.opening[x]
    requires OpsOf(Init(c1), es, x) == OpsOf(Init(c2), fs, x)
    ensures Listed(s.sh.market, x) && Listed(t.sh.market, x)
    ensures SlotOf(s, x) == SlotOf(t, x)
  {
    InitControl(c1);
    InitControl(c2);
    RunFollows(Init(c1), es, s, x);
    RunFollows(Init(c2), fs, t, x);
  }

  // ---------------------------------------------------------------- commuting

  /** Both orders are possible and end in the same state. */
  ghost predicate Commute(s: State, e: Event, f: Event)
    requires Enabled(s, e) && Enabled(s, f)
  {
    && Enabled(Step(s, e), f) && Enabled(Step(s, f), e)
    && Step(Step(s, e), f) == Step(Step(s, f), e)
  }

  /** The whole state after an insertion. */
  function AfterInsertion(s: State, i: nat, d: Draw): State
    requires i < |s.traders| && s.traders[i].phase.Insert?
    requires s.traders[i].phase.order.symbol in s.sh.market.books
    requires s.traders[i].phase.order.symbol in s.sh.market.arrivals
  {
    var tr := s.traders[i];
    var o := tr.phase.order;
    s.(sh := s.sh.(owner := s.sh.owner - {BookLock(o.symbol)}, market := AddOrder(s.sh.market, o)),
    traders := s.traders[i := tr.Goto(Flag(o.symbol, o.orderId))])
  }

  lemma InsertionStep(s: State, e: Event)
    requires Enabled(s, e) && IsInsertion(s, e)
    ensures var x := s.traders[e.i].phase.order.symbol; x in s.sh.market.books && x in s.sh.market.arrivals
    ensures Step(s, e) == AfterInsertion(s, e.i, e.draw)
  {
  }

  /** The whole state after an iteration of the loop. */
  function AfterTrade(s: State): State
    requires s.matcher.phase.Matching? && s.matcher.phase.k < |s.cfg.symbols|
    requires IsCrossed(s.sh.market, s.cfg.symbols[s.matcher.phase.k])
  {
    var m, x := s.matcher, s.cfg.symbols[s.matcher.phase.k];
    s.(sh := s.sh.(market := TradeOnce(s.sh.market, x)),
    matcher := m.Goto(LogTrade(m.phase.k)).(trades := m.trades + [TopTrade(x, s.sh.market.books[x])]))
  }

  lemma TradeStep(s: State)
    requires Enabled(s, MatcherStep) && IsTrade(s, MatcherStep)
    ensures Step(s, MatcherStep) == AfterTrade(s)
  {
  }

  lemma InsertTrade(s: State, e: Event)
    requires Enabled(s, e) && IsInsertion(s, e) && Enabled(s, MatcherStep) && IsTrade(s, MatcherStep)
    requires s.traders[e.i].phase.order.symbol != s.cfg.symbols[s.matcher.phase.k]
    ensures Commute(s, e, MatcherStep)
  {
    InsertionStep(s, e);
    TradeStep(s);
    InsertTradeMarkets(s.sh.market, s.traders[e.i].phase.order, s.cfg.symbols[s.matcher.phase.k]);
    TradeStep(AfterInsertion(s, e.i, e.draw));
    InsertionStep(AfterTrade(s), e);
  }

  lemma InsertTradeMarkets(m: Market, o: Order, x: string)
    requires o.symbol in m.books && o.symbol in m.arrivals && o.symbol != x && IsCrossed(m, x)
    ensures IsCrossed(AddOrder(m, o), x) && AddOrder(m, o).books[x] == m.books[x]
    ensures AddOrder(TradeOnce(m, x), o) == TradeOnce(AddOrder(m, o), x)
  {
    assert m.books[x := Execute(m.books[x])][o.symbol := Submit(m.books[o.symbol], o)]
        == m.books[o.symbol := Submit(m.books[o.symbol], o)][x := Execute(m.books[x])];
  }

  lemma InsertInsert(s: State, e: Event, f: Event)
    requires Enabled(s, e) && IsInsertion(s, e) && Enabled(s, f) && IsInsertion(s, f)
    requires s.traders[e.i].phase.order.symbol != s.traders[f.i].phase.order.symbol
    ensures Commute(s, e, f)
  {
    InsertionStep(s, e);
    InsertionStep(s, f);
    AddOrdersCommute(s.sh.market, s.traders[e.i].phase.order, s.traders[f.i].phase.order);
    InsertionStep(Step(s, e), f);
    InsertionStep(Step(s, f), e);
  }

  lemma AddOrdersCommute(m: Market, o: Order, p: Order)
    requires o.symbol in m.books && o.symbol in m.arrivals && p.symbol in m.books && p.symbol in m.arrivals
    requires o.symbol != p.symbol
    ensures AddOrder(AddOrder(m, o), p) == AddOrder(AddOrder(m, p), o)
  {
    var x, y := o.symbol, p.symbol;
    assert m.books[x := Submit(m.books[x], o)][y := Submit(m.books[y], p)]
        == m.books[y := Submit(m.books[y], p)][x := Submit(m.books[x], o)];
    assert m.arrivals[x := m.arrivals[x] + [o]][y := m.arrivals[y] + [p]]
        == m.arrivals[y := m.arrivals[y] + [p]][x := m.arrivals[x] + [o]];
  }

  lemma InsertPublish(s: State, e: Event, f: Event)
    requires Enabled(s, e) && IsInsertion(s, e) && Enabled(s, f) && IsPublish(s, f)
    ensures Commute(s, e, f)
  {
    InsertionStep(s, e);
    InsertionStep(Step(s, f), e);
  }

  lemma InsertCommit(s: State, e: Event)
    requires Enabled(s, e) && IsInsertion(s, e) && Enabled(s, MatcherStep) && IsCommit(s, MatcherStep)
    ensures Commute(s, e, MatcherStep)
  {
    InsertionStep(s, e);
    CommitEffect(s.cfg, s.sh, s.matcher);
    CommitEffect(s.cfg, AfterInsertion(s, e.i, e.draw).sh, s.matcher);
    InsertionStep(Step(s, MatcherStep), e);
  }

  lemma TradePublish(s: State, f: Event)
    requires Enabled(s, MatcherStep) && IsTrade(s, MatcherStep) && Enabled(s, f) && IsPublish(s, f)
    ensures Commute(s, MatcherStep, f)
  {
    TradeStep(s);
    TradeStep(Step(s, f));
  }

  /** The matcher and the maker are never both inside the stock mutex. */
  lemma CommitExcludesPublish(s: State, f: Event)
    requires LocksHeld(s) && IsCommit(s, MatcherStep)
    ensures !IsPublish(s, f)
  {
    assert StockLock in Owned(s.sh.owner, MatcherTid);
    assert IsPublish(s, f) ==> StockLock in s.maker.Holds();
  }

  lemma CommuteSwap(s: State, e: Event, f: Event)
    requires Enabled(s, e) && Enabled(s, f) && Commute(s, e, f)
    ensures Commute(s, f, e)
  {
  }

  /** Insertions against everything. */
  lemma InsertionCommutes(s: State, e: Event, f: Event, x: string, y: string)
    requires Enabled(s, e) && Enabled(s, f) && OpOf(s, e, x).Some? && OpOf(s, f, y).Some? && x != y
    requires IsInsertion(s, e)
    ensures Commute(s, e, f)
  {
    if IsInsertion(s, f) {
      InsertInsert(s, e, f);
    } else if IsTrade(s, f) {
      InsertTrade(s, e);
    } else if IsCommit(s, f) {
      InsertCommit(s, e);
    } else {
      InsertPublish(s, e, f);
    }
  }

  /** Any two sections that are ready to run, on different symbols, commute. */
  lemma SectionsCommute(s: State, e: Event, f: Event, x: string, y: string)
    requires LocksHeld(s) && Enabled(s, e) && Enabled(s, f)
    requires OpOf(s, e, x).Some? && OpOf(s, f, y).Some? && x != y
    ensures Commute(s, e, f)
  {
    if IsInsertion(s, e) {
      InsertionCommutes(s, e, f, x, y);
    } else if IsInsertion(s, f) {
      InsertionCommutes(s, f, e, y, x);
      CommuteSwap(s, f, e);
    } else if IsPublish(s, f) && e.MatcherStep? {
      MatcherPublishCommute(s, f);
    } else if IsPublish(s, e) && f.MatcherStep? {
      MatcherPublishCommute(s, e);
      CommuteSwap(s, f, e);
    }
  }

  lemma MatcherPublishCommute(s: State, f: Event)
    requires LocksHeld(s) && Enabled(s, MatcherStep) && (IsTrade(s, MatcherStep) || IsCommit(s, MatcherStep))
    requires Enabled(s, f) && IsPublish(s, f)
    ensures Commute(s, MatcherStep, f)
  {
    if IsTrade(s, MatcherStep) {
      TradePublish(s, f);
    } else {
      CommitExcludesPublish(s, f);
    }
  }

  // ---------------------------------------------------------------- the two sections under the stock mutex

  /** The matcher is about to commit a batch, and the maker to publish a price; both want the stock mutex. */
  predicate CommitWaits(s: State) {
    && s.matcher.phase.CommitStock? && !s.matcher.holding && s.matcher.phase.k < |s.cfg.symbols|
    && s.matcher.trades != [] && s.cfg.symbols[s.matcher.phase.k] in s.sh.market.stocks
  }

  predicate PublishWaits(s: State) {
    s.maker.phase.KUpdate? && !s.maker.holding && s.maker.phase.k < |s.cfg.symbols|
  }

  function Committed(s: State): State
    requires CommitWaits(s)
  {
    var stocks, x := s.sh.market.stocks, s.cfg.symbols[s.matcher.phase.k];
    s.(sh := s.sh.(market := s.sh.market.(stocks := stocks[x := Commit(stocks[x], s.matcher.trades)])),
    matcher := s.matcher.Goto(Tally(s.matcher.phase.k)))
  }

  function Published(s: State, price: real): State
    requires PublishWaits(s)
  {
    var stocks, y := s.sh.market.stocks, s.cfg.symbols[s.maker.phase.k];
    s.(sh := s.sh.(market := s.sh.market.(stocks := Publish(stocks, y, Clamp(price)))),
    maker := Maker(MakerAfter(s.cfg, s.maker.phase.k + 1), false))
  }

  lemma TakeAndRelease(owner: Owners, l: Lock, t: Tid)
    requires l !in owner
    ensures owner[l := t] - {l} == owner
  {
  }

  lemma TwoSteps(s: State, e: Event, t: State)
    requires Enabled(s, e) && Enabled(Step(s, e), e) && Step(Step(s, e), e) == t
    ensures Run(s, [e, e], t)
  {
    assert [e, e][1..] == [e] && [e][1..] == [];
    assert Run(Step(s, e), [e], t);
  }

  lemma CommitSection(s: State)
    requires CommitWaits(s) && StockLock !in s.sh.owner
    ensures Run(s, [MatcherStep, MatcherStep], Committed(s))
  {
    TakeAndRelease(s.sh.owner, StockLock, MatcherTid);
    var held := Step(s, MatcherStep);
    CommitEffect(held.cfg, held.sh, held.matcher);
    TwoSteps(s, MatcherStep, Committed(s));
  }

  lemma PublishMoves(cfg: Config, sh: Shared, m: Maker, price: real)
    requires m.phase.KUpdate? && !m.holding && m.phase.k < |cfg.symbols| && StockLock !in sh.owner
    ensures var (held, inside) := MakerMove(cfg, sh, m, price);
            && MakerCanAct(cfg, inside) && inside.Wants().None?
            && MakerMove(cfg, held, inside, price).1 == Maker(MakerAfter(cfg, m.phase.k + 1), false)
            && MakerMove(cfg, held, inside, price).0 == sh.(market := sh.market.(stocks :=
                 Publish(sh.market.stocks, cfg.symbols[m.phase.k], Clamp(price))))
  {
    TakeAndRelease(sh.owner, StockLock, MakerTid);
  }

  lemma PublishSection(s: State, price: real)
    requires PublishWaits(s) && StockLock !in s.sh.owner
    ensures Run(s, [MakerStep(price), MakerStep(price)], Published(s, price))
  {
    PublishMoves(s.cfg, s.sh, s.maker, price);
    var (held, inside) := MakerMove(s.cfg, s.sh, s.maker, price);
    assert Step(s, MakerStep(price)) == s.(sh := held, maker := inside);
    TwoSteps(s, MakerStep(price), Published(s, price));
  }

  lemma PublishElsewhere(stocks: map<string, Stock>, x: string, y: string, ts: seq<TradeRecord>, p: real)
    requires x in stocks && x != y && ts != []
    ensures x in Publish(stocks, y, p) && Publish(stocks, y, p)[x] == stocks[x]
    ensures Publish(stocks[x := Commit(stocks[x], ts)], y, p) == Publish(stocks, y, p)[x := Commit(stocks[x], ts)]
  {
  }

  /**
   * A commit and a published price for different symbols, each with the taking of the one stock mutex they share,
   * may come in either order: both are possible and end in the same state.
   */
  lemma StockSectionsCommute(s: State, price: real) returns (t: State)
    requires CommitWaits(s) && PublishWaits(s) && StockLock !in s.sh.owner
    requires s.cfg.symbols[s.matcher.phase.k] != s.cfg.symbols[s.maker.phase.k]
    ensures Run(s, [MatcherStep, MatcherStep] + [MakerStep(price), MakerStep(price)], t)
    ensures Run(s, [MakerStep(price), MakerStep(price)] + [MatcherStep, MatcherStep], t)
  {
    var x, y := s.cfg.symbols[s.matcher.phase.k], s.cfg.symbols[s.maker.phase.k];
    PublishElsewhere(s.sh.market.stocks, x, y, s.matcher.trades, Clamp(price));
    var c, p := Committed(s), Published(s, price);
    t := Published(c, price);
    assert t == Committed(p);
    CommitSection(s);
    PublishSection(c, price);
    PublishSection(s, price);
    CommitSection(p);
    RunConcat(s, [MatcherStep, MatcherStep], c, [MakerStep(price), MakerStep(price)], t);
    RunConcat(s, [MakerStep(price), MakerStep(price)], p, [MatcherStep, MatcherStep], t);
  }
}
