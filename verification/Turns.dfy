/** A trader's turn, run by itself while nobody holds a mutex: its order, of either kind, reaches its book. */
module Turns {
  import opened Options
  import opened Orders
  import opened BookHistory
  import opened Ledger
  import opened Exchange
  import opened Runs

  /** Nobody but traders steps. */
  ghost predicate ByTraders(es: seq<Event>) {
    forall e :: e in es ==> e.TraderStep?
  }

  /** The state with trader i and the shared part replaced. */
  function At(s: State, i: nat, sh: Shared, tr: Trader): State
    requires i < |s.traders|
  {
    s.(sh := sh, traders := s.traders[i := tr])
  }

  /** Append one step of trader i to a run. */
  lemma Hop(s0: State, es: seq<Event>, s: State, i: nat, d: Draw, sh: Shared, tr: Trader) returns (fs: seq<Event>)
    requires i < |s.traders| && ValidDraw(s.cfg.symbols, d) && Run(s0, es, At(s, i, sh, tr))
    requires Free(sh, tr.Wants()) && (tr.Wants().None? ==> TraderCanAct(sh, tr))
    ensures var (sh', tr') := TraderMove(s.cfg, sh, tr, i, d);
            Run(s0, fs, At(s, i, sh', tr'))
    ensures ByTraders(es) ==> ByTraders(fs)
  {
    var t := At(s, i, sh, tr);
    var (sh', tr') := TraderMove(s.cfg, sh, tr, i, d);
    assert Step(t, TraderStep(i, d)) == At(s, i, sh', tr') by {
      assert s.traders[i := tr][i := tr'] == s.traders[i := tr'];
    }
    RunOne(t, TraderStep(i, d));
    RunConcat(s0, es, t, [TraderStep(i, d)], At(s, i, sh', tr'));
    fs := es + [TraderStep(i, d)];
  }

  /** A step under a mutex that is free: take it, and run the section that releases it. */
  lemma Section(s0: State, es: seq<Event>, s: State, i: nat, d: Draw, sh: Shared, tr: Trader) returns (fs: seq<Event>)
    requires i < |s.traders| && ValidDraw(s.cfg.symbols, d) && Run(s0, es, At(s, i, sh, tr))
    requires sh.owner == map[] && tr.Wants().Some? && TraderCanAct(sh, tr)
    ensures Run(s0, fs, At(s, i, TraderBody(sh, tr), TraderNext(s.cfg, sh, tr, i, d)))
    ensures ByTraders(es) ==> ByTraders(fs)
  {
    var l := tr.Lock().value;
    var locked, inside := sh.(owner := map[l := TraderTid(i)]), tr.(holding := true);
    assert map[][l := TraderTid(i)] == map[l := TraderTid(i)];
    fs := Hop(s0, es, s, i, d, sh, tr);
    fs := Hop(s0, fs, s, i, d, locked, inside);
    assert map[l := TraderTid(i)] - {l} == map[];
    SectionBody(s.cfg, sh, tr, i, d, l);
  }

  lemma SectionBody(cfg: Config, sh: Shared, tr: Trader, i: nat, d: Draw, l: Lock)
    requires sh.owner == map[] && !tr.holding && tr.Lock() == Some(l) && TraderCanAct(sh, tr)
    ensures var locked, inside := sh.(owner := map[l := TraderTid(i)]), tr.(holding := true);
            && TraderCanAct(locked, inside)
            && TraderBody(locked, inside) == TraderBody(sh, tr)
            && TraderNext(cfg, locked, inside, i, d) == TraderNext(cfg, sh, tr, i, d)
  {
    assert map[l := TraderTid(i)] - {l} == map[];
  }

  // ---------------------------------------------------------------- a turn

  function Outside(phase: TraderPhase, loops: nat, placed: int): Trader {
    Trader(phase, false, loops, placed)
  }

  /** Loop test, semaphore, and a look at the market. */
  lemma Begins(s0: State, es: seq<Event>, s: State, i: nat, d: Draw, sh: Shared, l: nat, p: int)
    returns (fs: seq<Event>)
    requires i < |s.traders| && ValidDraw(s.cfg.symbols, d) && Run(s0, es, At(s, i, sh, Outside(Loop, l, p)))
    requires sh.owner == map[] && sh.room > 0 && !sh.shutdown && l < s.cfg.ordersPerTrader
    ensures var seen := Generate(d.symbol, Seen(sh.market.stocks, d.symbol));
            Run(s0, fs, At(s, i, sh.(room := sh.room - 1), Outside(seen, l, p)))
    ensures ByTraders(es) ==> ByTraders(fs)
  {
    fs := Hop(s0, es, s, i, d, sh, Outside(Loop, l, p));
    fs := Hop(s0, fs, s, i, d, sh, Outside(Enter, l, p));
    fs := Section(s0, fs, s, i, d, sh.(room := sh.room - 1), Outside(Snapshot, l, p));
  }

  /** The order of a turn: as the draw makes it, a market order at the price of the stock. */
  function OrderOf(m: Market, i: nat, d: Draw, price: real): Order
    requires d.symbol in m.stocks
  {
    var o := NewOrder(m.lastId + 1, i + 1, d, price);
    if d.limit then o else o.(price := m.stocks[d.symbol].currentPrice)
  }

  function WithOrder(m: Market, o: Order): Market
    requires o.symbol in m.books && o.symbol in m.arrivals
  {
    AddOrder(m.(lastId := m.lastId + 1), o)
  }

  /** The order is made, and a market order priced. */
  lemma Makes(s0: State, es: seq<Event>, s: State, i: nat, d: Draw, sh: Shared, l: nat, p: int, price: real)
    returns (fs: seq<Event>)
    requires i < |s.traders| && ValidDraw(s.cfg.symbols, d)
    requires Run(s0, es, At(s, i, sh, Outside(Generate(d.symbol, price), l, p)))
    requires sh.owner == map[] && d.symbol in sh.market.stocks
    ensures var m := sh.market.(lastId := sh.market.lastId + 1);
            Run(s0, fs, At(s, i, sh.(market := m), Outside(Insert(OrderOf(sh.market, i, d, price)), l, p)))
    ensures ByTraders(es) ==> ByTraders(fs)
  {
    var m := sh.market.(lastId := sh.market.lastId + 1);
    var o := NewOrder(m.lastId, i + 1, d, price);
    assert d.(symbol := d.symbol) == d;
    fs := Hop(s0, es, s, i, d, sh, Outside(Generate(d.symbol, price), l, p));
    if !d.limit {
      fs := Section(s0, fs, s, i, d, sh.(market := m), Outside(Price(o), l, p));
    }
  }

  /** The order is made and inserted. */
  lemma Inserts(s0: State, es: seq<Event>, s: State, i: nat, d: Draw, sh: Shared, l: nat, p: int, price: real)
    returns (fs: seq<Event>)
    requires i < |s.traders| && ValidDraw(s.cfg.symbols, d)
    requires Run(s0, es, At(s, i, sh, Outside(Generate(d.symbol, price), l, p)))
    requires sh.owner == map[] && Trades(sh.market, d.symbol)
    ensures var o := OrderOf(sh.market, i, d, price);
            Run(s0, fs, At(s, i, sh.(market := WithOrder(sh.market, o)), Outside(Flag(d.symbol, o.orderId), l, p)))
    ensures ByTraders(es) ==> ByTraders(fs)
  {
    var m := sh.market.(lastId := sh.market.lastId + 1);
    fs := Makes(s0, es, s, i, d, sh, l, p, price);
    fs := Section(s0, fs, s, i, d, sh.(market := m), Outside(Insert(OrderOf(sh.market, i, d, price)), l, p));
  }

  predicate Trades(m: Market, x: string) {
    x in m.books && x in m.arrivals && x in m.stocks
  }

  /** It counts the order and leaves the room. */
  lemma Leaves(s0: State, es: seq<Event>, s: State, i: nat, d: Draw, sh: Shared, l: nat, p: int, id: int)
    returns (fs: seq<Event>)
    requires i < |s.traders| && ValidDraw(s.cfg.symbols, d) && id > 0
    requires Run(s0, es, At(s, i, sh, Outside(CountOrder(id), l, p))) && sh.owner == map[]
    ensures Run(s0, fs, At(s, i, sh.(room := sh.room + 1), Outside(Loop, l + 1, p + 1)))
    ensures ByTraders(es) ==> ByTraders(fs)
  {
    fs := Hop(s0, es, s, i, d, sh, Outside(CountOrder(id), l, p));
    fs := Hop(s0, fs, s, i, d, sh, Outside(Leave, l, p + 1));
  }

  /** It raises the flag, logs the order, and then the rest. */
  lemma Closes(s0: State, es: seq<Event>, s: State, i: nat, d: Draw, sh: Shared, l: nat, p: int, id: int)
    returns (fs: seq<Event>)
    requires i < |s.traders| && ValidDraw(s.cfg.symbols, d) && id > 0
    requires Run(s0, es, At(s, i, sh, Outside(Flag(d.symbol, id), l, p))) && sh.owner == map[]
    ensures Run(s0, fs, At(s, i, Raised(sh).(room := sh.room + 1), Outside(Loop, l + 1, p + 1)))
    ensures ByTraders(es) ==> ByTraders(fs)
  {
    fs := Section(s0, es, s, i, d, sh, Outside(Flag(d.symbol, id), l, p));
    fs := Section(s0, fs, s, i, d, Raised(sh), Outside(LogOrder(id), l, p));
    fs := Leaves(s0, fs, s, i, d, Raised(sh), l, p, id);
  }

  function Raised(sh: Shared): Shared {
    sh.(hasNewOrders := true, sleeping := false, submits := sh.submits + 1)
  }

  /** The order that trader i's turn hands in with this draw. */
  function Placed(sh: Shared, i: nat, d: Draw): Order
    requires d.symbol in sh.market.stocks
  {
    OrderOf(sh.market, i, d, Seen(sh.market.stocks, d.symbol))
  }

  /** The exchange after the turn. */
  function Ordered(sh: Shared, i: nat, d: Draw): Shared
    requires Trades(sh.market, d.symbol)
  {
    Raised(sh).(market := WithOrder(sh.market, Placed(sh, i, d)))
  }

  /** Inside the room, with the order in its book. */
  function Inserted(sh: Shared, i: nat, d: Draw): Shared
    requires Trades(sh.market, d.symbol)
  {
    sh.(room := sh.room - 1, market := WithOrder(sh.market, Placed(sh, i, d)))
  }

  /** From the loop test to the order in its book. */
  lemma Places(s0: State, es: seq<Event>, s: State, i: nat, d: Draw, sh: Shared, l: nat, p: int)
    returns (fs: seq<Event>)
    requires i < |s.traders| && ValidDraw(s.cfg.symbols, d) && Run(s0, es, At(s, i, sh, Outside(Loop, l, p)))
    requires sh.owner == map[] && sh.room > 0 && !sh.shutdown && l < s.cfg.ordersPerTrader
    requires Trades(sh.market, d.symbol)
    ensures Run(s0, fs, At(s, i, Inserted(sh, i, d), Outside(Flag(d.symbol, sh.market.lastId + 1), l, p)))
    ensures ByTraders(es) ==> ByTraders(fs)
  {
    fs := Begins(s0, es, s, i, d, sh, l, p);
    fs := Inserts(s0, fs, s, i, d, sh.(room := sh.room - 1), l, p, Seen(sh.market.stocks, d.symbol));
  }

  lemma Turn(s0: State, es: seq<Event>, s: State, i: nat, d: Draw, sh: Shared, l: nat, p: int) returns (fs: seq<Event>)
    requires i < |s.traders| && ValidDraw(s.cfg.symbols, d) && Run(s0, es, At(s, i, sh, Outside(Loop, l, p)))
    requires sh.owner == map[] && sh.room > 0 && !sh.shutdown && l < s.cfg.ordersPerTrader && sh.market.lastId >= 0
    requires Trades(sh.market, d.symbol)
    ensures Run(s0, fs, At(s, i, Ordered(sh, i, d), Outside(Loop, l + 1, p + 1)))
    ensures ByTraders(es) ==> ByTraders(fs)
  {
    fs := Places(s0, es, s, i, d, sh, l, p);
    fs := Closes(s0, fs, s, i, d, Inserted(sh, i, d), l, p, sh.market.lastId + 1);
    OrderedFrom(sh, i, d);
  }

  lemma OrderedFrom(sh: Shared, i: nat, d: Draw)
    requires Trades(sh.market, d.symbol)
    ensures Ordered(sh, i, d) == Raised(Inserted(sh, i, d)).(room := sh.room)
  {
  }

  /** A trader that has not started yet logs its start and takes a turn. */
  lemma FirstTurn(s0: State, es: seq<Event>, s: State, i: nat, d: Draw) returns (fs: seq<Event>)
    requires i < |s.traders| && ValidDraw(s.cfg.symbols, d) && Run(s0, es, s)
    requires s.traders[i] == Outside(TLogStart, 0, 0) && s.sh.owner == map[] && s.sh.room > 0 && !s.sh.shutdown
    requires s.cfg.ordersPerTrader > 0 && s.sh.market.lastId >= 0
    requires Trades(s.sh.market, d.symbol)
    ensures Run(s0, fs, At(s, i, Ordered(s.sh, i, d), Outside(Loop, 1, 1)))
    ensures ByTraders(es) ==> ByTraders(fs)
  {
    assert At(s, i, s.sh, s.traders[i]) == s;
    fs := Section(s0, es, s, i, d, s.sh, Outside(TLogStart, 0, 0));
    assert TraderBody(s.sh, Outside(TLogStart, 0, 0)) == s.sh;
    fs := Turn(s0, fs, s, i, d, s.sh, 0, 0);
  }

  // ---------------------------------------------------------------- what a turn does

  lemma PlacedIs(sh: Shared, i: nat, d: Draw)
    requires d.symbol in sh.market.stocks
    ensures HandsIn(Placed(sh, i, d), sh.market.lastId + 1, i + 1, d, sh.market.stocks[d.symbol].currentPrice)
  {
    NewOrderFields(sh.market.lastId + 1, i + 1, d, sh.market.stocks[d.symbol].currentPrice);
  }

  /** Other books, stocks and counts of trades stay; the flag is up, the matcher signalled, the room as before. */
  ghost predicate OnlyOneOrder(before: Shared, after: Shared, o: Order)
    requires o.symbol in before.market.books && o.symbol in before.market.arrivals
  {
    && after.market.books == before.market.books[o.symbol := Submit(before.market.books[o.symbol], o)]
    && after.market.arrivals == before.market.arrivals[o.symbol := before.market.arrivals[o.symbol] + [o]]
    && after.market.lastId == before.market.lastId + 1
    && after.market.stocks == before.market.stocks && after.market.history == before.market.history
    && after.market.totalTrades == before.market.totalTrades && after.market.totalVolume == before.market.totalVolume
    && after.hasNewOrders && !after.sleeping && after.room == before.room && after.owner == before.owner
  }

  /**
   * A trader at its loop test with turns left can take one by itself while nobody holds a mutex, with any draw.
   * Afterwards the order the draw says rests on its side of its book, and the trader has counted an order and a turn.
   */
  lemma TurnPlacesOrder(s: State, i: nat, d: Draw) returns (es: seq<Event>, t: State, o: Order)
    requires i < |s.traders| && ValidDraw(s.cfg.symbols, d) && Trades(s.sh.market, d.symbol)
    requires s.traders[i] == Outside(Loop, s.traders[i].loops, s.traders[i].ordersPlaced)
    requires s.sh.owner == map[] && s.sh.room > 0 && !s.sh.shutdown && s.sh.market.lastId >= 0
    requires s.traders[i].loops < s.cfg.ordersPerTrader
    ensures Run(s, es, t) && ByTraders(es)
    ensures HandsIn(o, s.sh.market.lastId + 1, i + 1, d, s.sh.market.stocks[d.symbol].currentPrice)
    ensures OnlyOneOrder(s.sh, t.sh, o) && o in t.sh.market.books[d.symbol].Side(o.side)
    ensures t.traders == s.traders[i := Outside(Loop, s.traders[i].loops + 1, s.traders[i].ordersPlaced + 1)]
  {
    var tr := s.traders[i];
    assert At(s, i, s.sh, tr) == s;
    es := Turn(s, [], s, i, d, s.sh, tr.loops, tr.ordersPlaced);
    o := Placed(s.sh, i, d);
    t := At(s, i, Ordered(s.sh, i, d), Outside(Loop, tr.loops + 1, tr.ordersPlaced + 1));
    PlacedIs(s.sh, i, d);
    var k := SubmitRests(s.sh.market.books[d.symbol], o);
  }
}
