/**
 * A turn of the market maker and one of the dashboard, each run by itself while nobody holds a mutex: every symbol
 * gets its simulated price, and the dashboard looks at the stocks and at every book.
 */
module Quotes {
  import opened Orders
  import opened Ledger
  import opened Exchange
  import opened Runs
  import opened Control
  import opened Independence

  ghost predicate ByMaker(es: seq<Event>) {
    forall e :: e in es ==> e.MakerStep?
  }

  /** The maker is at phase p and holds nothing; the stocks are these; all else is as in s. */
  function AtMaker(s: State, stocks: map<string, Stock>, p: MakerPhase): State {
    s.(sh := s.sh.(market := s.sh.market.(stocks := stocks)), maker := Maker(p, false))
  }

  lemma OneQuote(was: Stock, simulated: real)
    ensures Quoted(was, was.Priced(Clamp(simulated)), simulated)
  {
    ClampIs(simulated);
    PricedFields(was, Clamp(simulated));
  }

  /** Publishing one price. */
  lemma Quote(s: State, stocks: map<string, Stock>, k: nat, price: real) returns (es: seq<Event>)
    requires s.sh.owner == map[] && k < |s.cfg.symbols| && s.cfg.symbols[k] in stocks
    ensures Run(AtMaker(s, stocks, KUpdate(k)), es,
                AtMaker(s, Publish(stocks, s.cfg.symbols[k], Clamp(price)), MakerAfter(s.cfg, k + 1))) && ByMaker(es)
  {
    var u := AtMaker(s, stocks, KUpdate(k));
    PublishSection(u, price);
    es := [MakerStep(price), MakerStep(price)];
  }

  /** From symbol k on: each gets its price, those before keep what they have. */
  lemma {:induction false} QuotesFrom(s: State, stocks: map<string, Stock>, k: nat, prices: seq<real>)
    returns (es: seq<Event>, after: map<string, Stock>)
    requires s.sh.owner == map[] && k <= |s.cfg.symbols| == |prices| && Distinct(s.cfg.symbols)
    requires forall x :: x in s.cfg.symbols ==> x in stocks
    ensures Run(AtMaker(s, stocks, MakerAfter(s.cfg, k)), es, AtMaker(s, after, KCheck)) && ByMaker(es)
    ensures after.Keys == stocks.Keys
    ensures forall j :: k <= j < |prices| ==> Quoted(stocks[s.cfg.symbols[j]], after[s.cfg.symbols[j]], prices[j])
    ensures forall x :: x in stocks && x !in s.cfg.symbols[k..] ==> after[x] == stocks[x]
    decreases |prices| - k
  {
    if k == |prices| {
      es, after := [], stocks;
    } else {
      var x := s.cfg.symbols[k];
      var next := Publish(stocks, x, Clamp(prices[k]));
      var fs := Quote(s, stocks, k, prices[k]);
      OneQuote(stocks[x], prices[k]);
      var gs;
      gs, after := QuotesFrom(s, next, k + 1, prices);
      var mid := AtMaker(s, next, MakerAfter(s.cfg, k + 1));
      RunConcat(AtMaker(s, stocks, KUpdate(k)), fs, mid, gs, AtMaker(s, after, KCheck));
      es := fs + gs;
      assert x !in s.cfg.symbols[k + 1..];
      assert s.cfg.symbols[k..] == [x] + s.cfg.symbols[k + 1..];
    }
  }

  /** The loop test, the second look at the flag, and the snapshot under the stock mutex. */
  lemma Looks(s: State) returns (es: seq<Event>)
    requires s.sh.owner == map[] && !s.sh.shutdown && s.maker == Maker(KCheck, false)
    ensures Run(s, es, AtMaker(s, s.sh.market.stocks, MakerAfter(s.cfg, 0))) && ByMaker(es)
  {
    var e := MakerStep(0.0);
    var s1 := s.(maker := Maker(KRecheck, false));
    var s2 := s.(maker := Maker(KSnapshot, false));
    var s3 := s.(maker := Maker(KSnapshot, true), sh := s.sh.(owner := map[StockLock := MakerTid]));
    assert map[StockLock := MakerTid] - {StockLock} == map[];
    var t := AtMaker(s, s.sh.market.stocks, MakerAfter(s.cfg, 0));
    assert s.sh.(owner := map[]) == s.sh;
    LooksTwice(s, e, s1, s2);
    RunOne(s2, e);
    RunOne(s3, e);
    RunConcat(s2, [e], s3, [e], t);
    RunConcat(s, [e, e], s2, [e] + [e], t);
    es := [e, e] + ([e] + [e]);
  }

  lemma LooksTwice(s: State, e: Event, s1: State, s2: State)
    requires Enabled(s, e) && Step(s, e) == s1 && Enabled(s1, e) && Step(s1, e) == s2
    ensures Run(s, [e, e], s2)
  {
    RunOne(s, e);
    RunOne(s1, e);
    RunConcat(s, [e], s1, [e], s2);
    assert [e] + [e] == [e, e];
  }

  lemma SymbolsListed(s: State)
    requires Reachable(s)
    ensures Distinct(s.cfg.symbols) && forall x :: x in s.cfg.symbols ==> x in s.sh.market.stocks
  {
    ReachableControl(s);
  }

  /**
   * A maker at its loop test can take a turn by itself while nobody holds a mutex, whatever prices are simulated.
   * Afterwards every symbol is quoted at its own price, at least a cent, and nothing but the stocks has changed.
   */
  lemma MakerTurn(s: State, prices: seq<real>) returns (es: seq<Event>, t: State)
    requires Reachable(s) && s.sh.owner == map[] && !s.sh.shutdown && s.maker == Maker(KCheck, false)
    requires |prices| == |s.cfg.symbols|
    ensures Run(s, es, t) && ByMaker(es)
    ensures forall k :: 0 <= k < |prices| ==>
                          var x := s.cfg.symbols[k];
                          && x in s.sh.market.stocks && x in t.sh.market.stocks
                          && Quoted(s.sh.market.stocks[x], t.sh.market.stocks[x], prices[k])
    ensures t == s.(sh := s.sh.(market := s.sh.market.(stocks := t.sh.market.stocks)))
  {
    var fs := Looks(s);
    SymbolsListed(s);
    var gs, after := QuotesFrom(s, s.sh.market.stocks, 0, prices);
    t := AtMaker(s, after, KCheck);
    RunConcat(s, fs, AtMaker(s, s.sh.market.stocks, MakerAfter(s.cfg, 0)), gs, t);
    es := fs + gs;
  }

  // ---------------------------------------------------------------- the dashboard

  ghost predicate ByDash(es: seq<Event>) {
    forall e :: e in es ==> e.DashStep?
  }

  /** Take the phase's mutex, look, and let go. */
  lemma Look(s: State)
    requires s.sh.owner == map[] && !s.dash.holding && s.dash.Lock(s.cfg).Some? && DashCanAct(s.cfg, s.dash)
    ensures Run(s, [DashStep, DashStep], s.(dash := DashNext(s.cfg, s.sh, s.dash)))
  {
    var l := s.dash.Lock(s.cfg).value;
    TakeAndRelease(s.sh.owner, l, DashTid);
    var inside := s.(sh := s.sh.(owner := s.sh.owner[l := DashTid]), dash := s.dash.(holding := true));
    assert s.sh.(owner := s.sh.owner[l := DashTid] - {l}) == s.sh;
    assert Step(s, DashStep) == inside;
    TwoSteps(s, DashStep, s.(dash := DashNext(s.cfg, s.sh, s.dash)));
  }

  /** From symbol k on: two steps a book. */
  lemma {:induction false} LooksFrom(s: State, k: nat) returns (es: seq<Event>)
    requires s.sh.owner == map[] && k <= |s.cfg.symbols| && s.dash == Dash(DashAfter(s.cfg, k), false)
    ensures Run(s, es, s.(dash := Dash(DCheck, false))) && ByDash(es) && |es| == 2 * (|s.cfg.symbols| - k)
    decreases |s.cfg.symbols| - k
  {
    if k == |s.cfg.symbols| {
      es := [];
    } else {
      Look(s);
      var u := s.(dash := Dash(DashAfter(s.cfg, k + 1), false));
      var fs := LooksFrom(u, k + 1);
      RunConcat(s, [DashStep, DashStep], u, fs, s.(dash := Dash(DCheck, false)));
      es := [DashStep, DashStep] + fs;
    }
  }

  /** A dashboard at its loop test can take a turn by itself: the stocks, then every book, and nothing has changed. */
  lemma DashTurn(s: State) returns (es: seq<Event>)
    requires s.sh.owner == map[] && !s.sh.shutdown && s.dash == Dash(DCheck, false)
    ensures Run(s, es, s) && ByDash(es) && |es| == 4 + 2 * |s.cfg.symbols|
  {
    var s1, s2 := s.(dash := Dash(DRecheck, false)), s.(dash := Dash(DStocks, false));
    var s3 := s.(dash := Dash(DashAfter(s.cfg, 0), false));
    assert s.sh.(owner := s.sh.owner) == s.sh;
    LooksTwice(s, DashStep, s1, s2);
    Look(s2);
    RunConcat(s, [DashStep, DashStep], s2, [DashStep, DashStep], s3);
    var fs := LooksFrom(s3, 0);
    assert s3.(dash := Dash(DCheck, false)) == s;
    RunConcat(s, [DashStep, DashStep] + [DashStep, DashStep], s3, fs, s);
    es := [DashStep, DashStep] + [DashStep, DashStep] + fs;
  }
}
