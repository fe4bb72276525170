/** One symbol's crossing loop as a function on books, and what it computes. */
module Crossing {
  import opened Orders

  predicate Crossed(b: Book) {
    b.buys != [] && b.sells != [] && b.buys[0].price >= b.sells[0].price
  }

  function TradeQty(b: Book): int
    requires Crossed(b)
  {
    Min(b.buys[0].Remaining(), b.sells[0].Remaining())
  }

  function ExecPrice(b: Book): real
    requires Crossed(b)
  {
    (b.buys[0].price + b.sells[0].price) / 2.0
  }

  function TopTrade(symbol: string, b: Book): TradeRecord
    requires Crossed(b)
  {
    TradeRecord(b.buys[0].orderId, b.sells[0].orderId, b.buys[0].traderId, b.sells[0].traderId,
                symbol, TradeQty(b), ExecPrice(b))
  }

  /** Fill the head of a queue, erasing it when that completes it. */
  function FillTop(q: seq<Order>, qty: int, execPrice: real): seq<Order>
    requires q != []
  {
    var o := q[0].Filled(qty, execPrice);
    if o.IsComplete() then q[1..] else [o] + q[1..]
  }

  /** The book after one iteration of the loop. */
  function Execute(b: Book): Book
    requires Crossed(b)
  {
    Book(FillTop(b.buys, TradeQty(b), ExecPrice(b)), FillTop(b.sells, TradeQty(b), ExecPrice(b)))
  }

  datatype Outcome = Outcome(trades: seq<TradeRecord>, book: Book)

  /** The whole loop. It terminates on any integer quantities: an iteration erases an order or two. */
  function Match(symbol: string, b: Book): Outcome
    decreases |b.buys| + |b.sells|
  {
    if !Crossed(b) then Outcome([], b)
    else
      var rest := Match(symbol, Execute(b));
      Outcome([TopTrade(symbol, b)] + rest.trades, rest.book)
  }

  // ---------------------------------------------------------------- one iteration

  lemma FillTopValid(side: OrderSide, q: seq<Order>, qty: int, p: real)
    requires q != [] && ValidQueue(side, q)
    ensures ValidQueue(side, FillTop(q, qty, p))
  {
  }

  lemma ExecuteValid(b: Book)
    requires Crossed(b) && ValidBook(b)
    ensures ValidBook(Execute(b)) && TradeQty(b) >= 1
  {
    FillTopValid(BUY, b.buys, TradeQty(b), ExecPrice(b));
    FillTopValid(SELL, b.sells, TradeQty(b), ExecPrice(b));
  }

  lemma FillTopIds(q: seq<Order>, qty: int, p: real, id: int)
    requires q != [] && HasId(FillTop(q, qty, p), id)
    ensures HasId(q, id)
  {
    var r := FillTop(q, qty, p);
    var i :| 0 <= i < |r| && r[i].orderId == id;
    assert q[if |r| == |q| then i else i + 1].orderId == id;
  }

  // ---------------------------------------------------------------- a call under way

  /** The trades so far, and the loop on the book as it is, make up the call that began with `start`. */
  ghost predicate Continues(symbol: string, start: Book, trades: seq<TradeRecord>, b: Book) {
    Match(symbol, start) == Outcome(trades + Match(symbol, b).trades, Match(symbol, b).book)
  }

  lemma OneMore(symbol: string, start: Book, trades: seq<TradeRecord>, b: Book)
    requires Continues(symbol, start, trades, b) && Crossed(b)
    ensures Continues(symbol, start, trades + [TopTrade(symbol, b)], Execute(b))
    ensures Volume(trades + [TopTrade(symbol, b)]) == Volume(trades) + TradeQty(b)
  {
    var t, rest := TopTrade(symbol, b), Match(symbol, Execute(b)).trades;
    assert trades + ([t] + rest) == trades + [t] + rest;
    VolumeConcat(trades, [t]);
    assert Volume([t]) == t.quantity;
  }

  // ---------------------------------------------------------------- work and idempotence

  /** Trades made are bounded by orders erased, with no assumption on quantities. */
  lemma {:induction false} WorkBound(symbol: string, b: Book)
    ensures var r := Match(symbol, b);
            var erased := |b.buys| + |b.sells| - |r.book.buys| - |r.book.sells|;
            |r.trades| <= erased <= 2 * |r.trades|
    decreases |b.buys| + |b.sells|
  {
    if Crossed(b) {
      WorkBound(symbol, Execute(b));
    }
  }

  /** The loop leaves a valid, uncrossed book, on which a second call does nothing. */
  lemma {:induction false} MatchSettles(symbol: string, other: string, b: Book)
    ensures var r := Match(symbol, b);
            !Crossed(r.book) && Match(other, r.book) == Outcome([], r.book)
    ensures ValidBook(b) ==> ValidBook(Match(symbol, b).book)
    decreases |b.buys| + |b.sells|
  {
    if Crossed(b) {
      if ValidBook(b) {
        ExecuteValid(b);
      }
      MatchSettles(symbol, other, Execute(b));
    }
  }

  lemma {:induction false} TradeFacts(symbol: string, b: Book)
    requires ValidBook(b)
    ensures forall t :: t in Match(symbol, b).trades ==>
                          HasId(b.buys, t.buyOrderId) && HasId(b.sells, t.sellOrderId)
                          && t.quantity >= 1 && t.symbol == symbol
    decreases |b.buys| + |b.sells|
  {
    if Crossed(b) {
      ExecuteValid(b);
      TradeFacts(symbol, Execute(b));
      var rest := Match(symbol, Execute(b)).trades;
      forall t | t in rest
        ensures HasId(b.buys, t.buyOrderId) && HasId(b.sells, t.sellOrderId)
      {
        FillTopIds(b.buys, TradeQty(b), ExecPrice(b), t.buyOrderId);
        FillTopIds(b.sells, TradeQty(b), ExecPrice(b), t.sellOrderId);
      }
      assert b.buys[0].orderId == TopTrade(symbol, b).buyOrderId;
      assert b.sells[0].orderId == TopTrade(symbol, b).sellOrderId;
    }
  }

  lemma {:induction false} VolumeNonNegative(ts: seq<TradeRecord>)
    requires forall t :: t in ts ==> t.quantity >= 0
    ensures Volume(ts) >= 0
  {
    if ts != [] {
      assert ts[0] in ts;
      assert forall t :: t in ts[1..] ==> t in ts;
      VolumeNonNegative(ts[1..]);
    }
  }

  // ---------------------------------------------------------------- limits are respected

  /** The limit of the order with that id (0 when there is none). */
  function PriceOf(q: seq<Order>, id: int): real {
    if q == [] then 0.0 else if q[0].orderId == id then q[0].price else PriceOf(q[1..], id)
  }

  lemma FillTopPrice(q: seq<Order>, qty: int, p: real, id: int)
    requires q != [] && DistinctIds(q) && HasId(FillTop(q, qty, p), id)
    ensures HasId(q, id) && PriceOf(q, id) == PriceOf(FillTop(q, qty, p), id)
  {
    FillTopIds(q, qty, p, id);
    var r := FillTop(q, qty, p);
    var i :| 0 <= i < |r| && r[i].orderId == id;
    if |r| == |q| {
      assert r[1..] == q[1..];
    } else {
      assert q[i + 1].orderId == id && q[0].orderId != id;
    }
  }

  /** Nobody trades through their own limit, and the price splits the difference. */
  lemma {:induction false} LimitsRespected(symbol: string, b: Book, t: TradeRecord)
    requires ValidBook(b) && t in Match(symbol, b).trades
    ensures HasId(b.buys, t.buyOrderId) && HasId(b.sells, t.sellOrderId)
    ensures var bid := PriceOf(b.buys, t.buyOrderId);
            var ask := PriceOf(b.sells, t.sellOrderId);
            ask <= t.price <= bid && t.price - ask == bid - t.price
    decreases |b.buys| + |b.sells|
  {
    TradeFacts(symbol, b);
    var e := Execute(b);
    if t in Match(symbol, e).trades {
      ExecuteValid(b);
      LimitsRespected(symbol, e, t);
      FillTopPrice(b.buys, TradeQty(b), ExecPrice(b), t.buyOrderId);
      FillTopPrice(b.sells, TradeQty(b), ExecPrice(b), t.sellOrderId);
    } else {
      assert t == TopTrade(symbol, b);
    }
  }

  // ---------------------------------------------------------------- closed form

  /** Shares still wanted by the first i orders: where order i's interval starts. */
  function Before(q: seq<Order>, i: nat): int
    requires i <= |q|
  {
    if i == 0 then 0 else q[0].Remaining() + Before(q[1..], i - 1)
  }

  /** Length of the intersection of [a0, a1), [b0, b1) and [0, cut). */
  function Overlap(a0: int, a1: int, b0: int, b1: int, cut: int): int {
    Max(0, Min(Min(a1, b1), cut) - Max(a0, b0))
  }

  function Between(ts: seq<TradeRecord>, buyId: int, sellId: int): int {
    if ts == [] then 0
    else (if ts[0].buyOrderId == buyId && ts[0].sellOrderId == sellId then ts[0].quantity else 0)
         + Between(ts[1..], buyId, sellId)
  }

  lemma {:induction false} NoneBetween(ts: seq<TradeRecord>, buyId: int, sellId: int)
    requires forall t :: t in ts ==> t.buyOrderId != buyId || t.sellOrderId != sellId
    ensures Between(ts, buyId, sellId) == 0
  {
    if ts != [] {
      assert ts[0] in ts;
      assert forall t :: t in ts[1..] ==> t in ts;
      NoneBetween(ts[1..], buyId, sellId);
    }
  }

  lemma {:induction false} BeforeGrows(q: seq<Order>, i: nat, j: nat)
    requires i <= j <= |q| && Open(q)
    ensures Before(q, i) <= Before(q, j)
  {
    if i > 0 {
      BeforeGrows(q[1..], i - 1, j - 1);
    } else if j > 0 {
      BeforeGrows(q[1..], 0, j - 1);
    }
  }

  /** An order behind the filled head keeps its interval, shifted by what was filled. */
  lemma BeforeAfterFill(q: seq<Order>, qty: int, p: real, i: nat)
    requires q != [] && 1 <= i <= |q| && qty <= q[0].Remaining()
    ensures var r := FillTop(q, qty, p);
            var shift := |q| - |r|;
            Before(r, i - shift) == Before(q, i) - qty
  {
    var r := FillTop(q, qty, p);
    if |r| == |q| {
      assert r[1..] == q[1..];
    }
  }

  ghost predicate HeadErased(q: seq<Order>, qty: int) {
    q != [] && q[0].Remaining() <= qty
  }

  /** No later trade names an order that the first iteration erased. */
  lemma ErasedIsGone(q: seq<Order>, qty: int, p: real)
    requires HeadErased(q, qty) && DistinctIds(q)
    ensures !HasId(FillTop(q, qty, p), q[0].orderId)
  {
  }

  lemma FilledHead(q: seq<Order>, qty: int, p: real, i: nat)
    requires q != [] && i < |q| && !(i == 0 && HeadErased(q, qty))
    ensures var r := FillTop(q, qty, p);
            var k := i - (|q| - |r|);
            0 <= k < |r| && r[k].orderId == q[i].orderId
  {
  }

  /** The interval of order i after the head was filled, when order i is still in the queue. */
  lemma IntervalAfterFill(q: seq<Order>, qty: int, p: real, i: nat)
    requires q != [] && i < |q| && !(i == 0 && HeadErased(q, qty)) && Open(q)
    requires 1 <= qty <= q[0].Remaining()
    ensures var r := FillTop(q, qty, p);
            var k := i - (|q| - |r|);
            && 0 <= k < |r|
            && Before(r, k) == Max(0, Before(q, i) - qty)
            && Before(r, k + 1) == Before(q, i + 1) - qty
            && (i >= 1 ==> Before(q, i) >= qty)
  {
    FilledHead(q, qty, p, i);
    BeforeAfterFill(q, qty, p, i + 1);
    if i >= 1 {
      BeforeAfterFill(q, qty, p, i);
      BeforeGrows(q, 1, i);
      assert Before(q, 1) == q[0].Remaining() + Before(q[1..], 0);
    }
  }

  /**
   * Lay the bids and the asks end to end in queue order: the shares that buy i and sell j exchange
   * are the overlap of their intervals, cut at the total volume.
   */
  lemma {:induction false} ClosedForm(symbol: string, b: Book, i: nat, j: nat)
    requires ValidBook(b) && i < |b.buys| && j < |b.sells|
    ensures var ts := Match(symbol, b).trades;
            Between(ts, b.buys[i].orderId, b.sells[j].orderId)
            == Overlap(Before(b.buys, i), Before(b.buys, i + 1), Before(b.sells, j), Before(b.sells, j + 1), Volume(ts))
    decreases |b.buys| + |b.sells|
  {
    BeforeGrows(b.buys, 0, i);
    BeforeGrows(b.sells, 0, j);
    if Crossed(b) {
      ClosedFormStep(symbol, b, i, j);
    }
  }

  /** When the head buy is used up it exchanges qty shares with the head sell and nothing more. */
  lemma ClosedFormBuyErased(symbol: string, b: Book, j: nat)
    requires ValidBook(b) && Crossed(b) && j < |b.sells| && HeadErased(b.buys, TradeQty(b))
    ensures var ts := Match(symbol, b).trades;
            Between(ts, b.buys[0].orderId, b.sells[j].orderId)
            == Overlap(0, Before(b.buys, 1), Before(b.sells, j), Before(b.sells, j + 1), Volume(ts))
  {
    ExecuteValid(b);
    var qty, rest := TradeQty(b), Match(symbol, Execute(b)).trades;
    TradeFacts(symbol, Execute(b));
    VolumeNonNegative(rest);
    ErasedIsGone(b.buys, qty, ExecPrice(b));
    NoneBetween(rest, b.buys[0].orderId, b.sells[j].orderId);
    HeadInterval(b.buys);
    HeadInterval(b.sells);
    if j > 0 {
      BeforeGrows(b.sells, 1, j);
    }
    assert Match(symbol, b).trades == [TopTrade(symbol, b)] + rest;
  }

  lemma ClosedFormSellErased(symbol: string, b: Book, i: nat)
    requires ValidBook(b) && Crossed(b) && i < |b.buys| && HeadErased(b.sells, TradeQty(b))
    ensures var ts := Match(symbol, b).trades;
            Between(ts, b.buys[i].orderId, b.sells[0].orderId)
            == Overlap(Before(b.buys, i), Before(b.buys, i + 1), 0, Before(b.sells, 1), Volume(ts))
  {
    ExecuteValid(b);
    var qty, rest := TradeQty(b), Match(symbol, Execute(b)).trades;
    TradeFacts(symbol, Execute(b));
    VolumeNonNegative(rest);
    ErasedIsGone(b.sells, qty, ExecPrice(b));
    NoneBetween(rest, b.buys[i].orderId, b.sells[0].orderId);
    HeadInterval(b.buys);
    HeadInterval(b.sells);
    if i > 0 {
      BeforeGrows(b.buys, 1, i);
    }
    assert Match(symbol, b).trades == [TopTrade(symbol, b)] + rest;
  }

  lemma HeadInterval(q: seq<Order>)
    requires q != []
    ensures Before(q, 1) == q[0].Remaining()
  {
    assert Before(q[1..], 0) == 0;
  }

  lemma {:induction false} ClosedFormStep(symbol: string, b: Book, i: nat, j: nat)
    requires ValidBook(b) && Crossed(b) && i < |b.buys| && j < |b.sells|
    ensures var ts := Match(symbol, b).trades;
            Between(ts, b.buys[i].orderId, b.sells[j].orderId)
            == Overlap(Before(b.buys, i), Before(b.buys, i + 1), Before(b.sells, j), Before(b.sells, j + 1), Volume(ts))
    decreases |b.buys| + |b.sells|, 1
  {
    var qty := TradeQty(b);
    if i == 0 && HeadErased(b.buys, qty) {
      ClosedFormBuyErased(symbol, b, j);
    } else if j == 0 && HeadErased(b.sells, qty) {
      ClosedFormSellErased(symbol, b, i);
    } else {
      ClosedFormBehind(symbol, b, i, j);
    }
  }

  lemma {:induction false} ClosedFormBehind(symbol: string, b: Book, i: nat, j: nat)
    requires ValidBook(b) && Crossed(b) && i < |b.buys| && j < |b.sells|
    requires !(i == 0 && HeadErased(b.buys, TradeQty(b))) && !(j == 0 && HeadErased(b.sells, TradeQty(b)))
    ensures var ts := Match(symbol, b).trades;
            Between(ts, b.buys[i].orderId, b.sells[j].orderId)
            == Overlap(Before(b.buys, i), Before(b.buys, i + 1), Before(b.sells, j), Before(b.sells, j + 1), Volume(ts))
    decreases |b.buys| + |b.sells|, 0
  {
    var rest := Match(symbol, Execute(b)).trades;
    LaterPair(symbol, b, i, j);
    ExecuteValid(b);
    var k, l := ShiftedOverlap(b, i, j, Volume(rest));
    ClosedForm(symbol, Execute(b), k, l);
  }

  /** The pair (i, j) and its overlap before and after one iteration. */
  lemma ShiftedOverlap(b: Book, i: nat, j: nat, cut: int) returns (k: nat, l: nat)
    requires ValidBook(b) && Crossed(b) && i < |b.buys| && j < |b.sells|
    requires !(i == 0 && HeadErased(b.buys, TradeQty(b))) && !(j == 0 && HeadErased(b.sells, TradeQty(b)))
    ensures var e := Execute(b);
            && k < |e.buys| && e.buys[k].orderId == b.buys[i].orderId
            && l < |e.sells| && e.sells[l].orderId == b.sells[j].orderId
            && Overlap(Before(e.buys, k), Before(e.buys, k + 1), Before(e.sells, l), Before(e.sells, l + 1), cut)
               == Overlap(Before(b.buys, i), Before(b.buys, i + 1), Before(b.sells, j), Before(b.sells, j + 1),
                          cut + TradeQty(b))
  {
    var qty := TradeQty(b);
    k := ShiftedInterval(b.buys, qty, ExecPrice(b), i);
    l := ShiftedInterval(b.sells, qty, ExecPrice(b), j);
    OverlapShift(Before(b.buys, i), Before(b.buys, i + 1), Before(b.sells, j), Before(b.sells, j + 1), cut + qty, qty);
  }

  /** Where order i sits after the head was filled, and its interval there. */
  lemma ShiftedInterval(q: seq<Order>, qty: int, p: real, i: nat) returns (k: nat)
    requires q != [] && i < |q| && !(i == 0 && HeadErased(q, qty)) && Open(q)
    requires 1 <= qty <= q[0].Remaining()
    ensures var r := FillTop(q, qty, p);
            && k < |r| && r[k].orderId == q[i].orderId
            && Before(r, k) == Max(0, Before(q, i) - qty)
            && Before(r, k + 1) == Before(q, i + 1) - qty
    ensures Before(q, i) >= (if i >= 1 then qty else 0)
  {
    FilledHead(q, qty, p, i);
    IntervalAfterFill(q, qty, p, i);
    k := i - (|q| - |FillTop(q, qty, p)|);
  }

  lemma OverlapShift(a0: int, a1: int, b0: int, b1: int, cut: int, d: int)
    requires 0 <= a0 && 0 <= b0 && (d <= a0 || d <= b0) && 0 <= d
    ensures Overlap(Max(0, a0 - d), a1 - d, Max(0, b0 - d), b1 - d, cut - d) == Overlap(a0, a1, b0, b1, cut)
  {
  }

  /** Only the head pair trades in the first iteration. */
  lemma LaterPair(symbol: string, b: Book, i: nat, j: nat)
    requires ValidBook(b) && Crossed(b) && i < |b.buys| && j < |b.sells| && (i > 0 || j > 0)
    ensures var ts, rest := Match(symbol, b).trades, Match(symbol, Execute(b)).trades;
            && Between(ts, b.buys[i].orderId, b.sells[j].orderId)
               == Between(rest, b.buys[i].orderId, b.sells[j].orderId)
            && Volume(ts) == TradeQty(b) + Volume(rest)
  {
    var rest := Match(symbol, Execute(b)).trades;
    assert Match(symbol, b).trades == [TopTrade(symbol, b)] + rest;
  }

  /** A buy and a sell meet in at most one trade record. */
  lemma {:induction false} OneRecordPerPair(symbol: string, b: Book, x: nat, y: nat)
    requires ValidBook(b) && x < y < |Match(symbol, b).trades|
    ensures var ts := Match(symbol, b).trades;
            ts[x].buyOrderId != ts[y].buyOrderId || ts[x].sellOrderId != ts[y].sellOrderId
    decreases |b.buys| + |b.sells|
  {
    ExecuteValid(b);
    var e := Execute(b);
    var ts, rest := Match(symbol, b).trades, Match(symbol, e).trades;
    if x == 0 {
      TradeFacts(symbol, e);
      assert ts[y] == rest[y - 1] && rest[y - 1] in rest;
      if HeadErased(b.buys, TradeQty(b)) {
        ErasedIsGone(b.buys, TradeQty(b), ExecPrice(b));
      } else {
        ErasedIsGone(b.sells, TradeQty(b), ExecPrice(b));
      }
    } else {
      OneRecordPerPair(symbol, e, x - 1, y - 1);
    }
  }

  // ---------------------------------------------------------------- who trades, and in which order

  /** In the queue, order `id` is one of that trader's. */
  ghost predicate HasOrder(q: seq<Order>, id: int, trader: int) {
    exists i :: 0 <= i < |q| && q[i].orderId == id && q[i].traderId == trader
  }

  /** Each of the trades names the trader of a buy there as its buyer, and the trader of a sell there as its seller. */
  ghost predicate NameTraders(ts: seq<TradeRecord>, b: Book) {
    forall t :: t in ts ==>
                  && HasOrder(b.buys, t.buyOrderId, t.buyerTraderId)
                  && HasOrder(b.sells, t.sellOrderId, t.sellerTraderId)
  }

  lemma FillTopOrders(q: seq<Order>, qty: int, p: real, id: int, trader: int)
    requires q != [] && HasOrder(FillTop(q, qty, p), id, trader)
    ensures HasOrder(q, id, trader)
  {
    var r := FillTop(q, qty, p);
    var i :| 0 <= i < |r| && r[i].orderId == id && r[i].traderId == trader;
    var j := if |r| == |q| then i else i + 1;
    assert q[j].orderId == id && q[j].traderId == trader;
  }

  /** A record names the trader of the buy it fills as the buyer, and the trader of the sell as the seller. */
  lemma {:induction false} TradersNamed(symbol: string, b: Book)
    ensures NameTraders(Match(symbol, b).trades, b)
    decreases |b.buys| + |b.sells|
  {
    if Crossed(b) {
      TradersNamed(symbol, Execute(b));
      var rest := Match(symbol, Execute(b)).trades;
      forall t | t in rest
        ensures HasOrder(b.buys, t.buyOrderId, t.buyerTraderId) && HasOrder(b.sells, t.sellOrderId, t.sellerTraderId)
      {
        FillTopOrders(b.buys, TradeQty(b), ExecPrice(b), t.buyOrderId, t.buyerTraderId);
        FillTopOrders(b.sells, TradeQty(b), ExecPrice(b), t.sellOrderId, t.sellerTraderId);
      }
      HeadTraders(symbol, b);
    }
  }

  lemma HeadTraders(symbol: string, b: Book)
    requires Crossed(b)
    ensures var t := TopTrade(symbol, b);
            && HasOrder(b.buys, t.buyOrderId, t.buyerTraderId)
            && HasOrder(b.sells, t.sellOrderId, t.sellerTraderId)
  {
    var t := TopTrade(symbol, b);
    assert b.buys[0].orderId == t.buyOrderId && b.buys[0].traderId == t.buyerTraderId;
    assert b.sells[0].orderId == t.sellOrderId && b.sells[0].traderId == t.sellerTraderId;
  }

  /** Records come in the order in which the orders are served: no later one goes back to an order further in front. */
  lemma {:induction false} TradesInOrder(symbol: string, b: Book, x: nat, y: nat)
    returns (i: nat, j: nat, k: nat, l: nat)
    requires ValidBook(b) && x <= y < |Match(symbol, b).trades|
    ensures var ts := Match(symbol, b).trades;
            && i <= j < |b.buys| && b.buys[i].orderId == ts[x].buyOrderId && b.buys[j].orderId == ts[y].buyOrderId
            && k <= l < |b.sells| && b.sells[k].orderId == ts[x].sellOrderId && b.sells[l].orderId == ts[y].sellOrderId
    decreases |b.buys| + |b.sells|
  {
    ExecuteValid(b);
    var e := Execute(b);
    if x == 0 {
      i, k := 0, 0;
      j, l := RecordPlaces(symbol, b, y);
    } else {
      i, j, k, l := TradesInOrder(symbol, e, x - 1, y - 1);
      LaterRecord(symbol, b, x);
      LaterRecord(symbol, b, y);
      i, j := PlacesBefore(b.buys, TradeQty(b), ExecPrice(b), i, j);
      k, l := PlacesBefore(b.sells, TradeQty(b), ExecPrice(b), k, l);
    }
  }

  lemma LaterRecord(symbol: string, b: Book, x: nat)
    requires Crossed(b) && 1 <= x < |Match(symbol, b).trades|
    ensures Match(symbol, b).trades[x] == Match(symbol, Execute(b)).trades[x - 1]
  {
  }

  /** Where two orders of the queue after an iteration were before it. */
  lemma PlacesBefore(q: seq<Order>, qty: int, p: real, i: nat, j: nat) returns (k: nat, l: nat)
    requires q != [] && i <= j < |FillTop(q, qty, p)|
    ensures k <= l < |q|
    ensures q[k].orderId == FillTop(q, qty, p)[i].orderId && q[l].orderId == FillTop(q, qty, p)[j].orderId
  {
    var shift := |q| - |FillTop(q, qty, p)|;
    k, l := i + shift, j + shift;
  }

  lemma RecordPlaces(symbol: string, b: Book, y: nat) returns (j: nat, l: nat)
    requires ValidBook(b) && y < |Match(symbol, b).trades|
    ensures j < |b.buys| && b.buys[j].orderId == Match(symbol, b).trades[y].buyOrderId
    ensures l < |b.sells| && b.sells[l].orderId == Match(symbol, b).trades[y].sellOrderId
  {
    TradeFacts(symbol, b);
    var t := Match(symbol, b).trades[y];
    j :| 0 <= j < |b.buys| && b.buys[j].orderId == t.buyOrderId;
    l :| 0 <= l < |b.sells| && b.sells[l].orderId == t.sellOrderId;
  }
}
