/** The order book as the threads call it: objects updated in place, each call proved against its specification. */
module OrderBooks {
  import opened Orders
  import opened Crossing
  import opened BookHistory
  import opened Ledger

  /** Both queues of a symbol; the maps' iteration order is the sequences' order. */
  class StockOrderBook {
    var buyOrders: seq<Order>
    var sellOrders: seq<Order>

    ghost function Contents(): Book
      reads this
    {
      Book(buyOrders, sellOrders)
    }

    constructor ()
      ensures Contents() == Book([], [])
    {
      buyOrders, sellOrders := [], [];
    }

    /** Emplace the order behind all that are as good. */
    method Insert(order: Order)
      modifies this
      ensures Contents() == Submit(old(Contents()), order)
    {
      if order.side == BUY {
        buyOrders := Enqueue(BUY, buyOrders, order);
      } else {
        sellOrders := Enqueue(SELL, sellOrders, order);
      }
    }

    /** Fill both best orders in place and erase those that this completes. */
    method Fill(qty: int, execPrice: real)
      requires buyOrders != [] && sellOrders != []
      modifies this
      ensures buyOrders == FillTop(old(buyOrders), qty, execPrice)
      ensures sellOrders == FillTop(old(sellOrders), qty, execPrice)
    {
      buyOrders := buyOrders[0 := buyOrders[0].Filled(qty, execPrice)];
      sellOrders := sellOrders[0 := sellOrders[0].Filled(qty, execPrice)];
      if buyOrders[0].IsComplete() {
        buyOrders := buyOrders[1..];
      }
      if sellOrders[0].IsComplete() {
        sellOrders := sellOrders[1..];
      }
    }
  }

  /** Stocks after listing more of them; the last listing of a symbol wins. */
  ghost function Listing(stocks: map<string, Stock>, listings: seq<(string, real)>): map<string, Stock> {
    if listings == [] then stocks
    else
      var n := |listings| - 1;
      var p := listings[n].1;
      Listing(stocks, listings[..n])[listings[n].0 := Stock(p, p, p, p, 0)]
  }

  /** Books after it: each listed symbol starts afresh, the others stay. */
  ghost function Emptied(books: map<string, Book>, listings: seq<(string, real)>): map<string, Book> {
    if listings == [] then books
    else
      var n := |listings| - 1;
      Emptied(books, listings[..n])[listings[n].0 := Book([], [])]
  }

  /** The n-th listing is the last one of x. */
  ghost predicate LastListing(listings: seq<(string, real)>, x: string, n: int) {
    0 <= n < |listings| && listings[n].0 == x && forall m :: n < m < |listings| ==> listings[m].0 != x
  }

  lemma LastListingMore(listings: seq<(string, real)>, x: string, n: int)
    requires LastListing(listings, x, n) && n < |listings| - 1
    ensures LastListing(listings[..|listings| - 1], x, n)
  {
    assert forall m :: 0 <= m < |listings| - 1 ==> listings[..|listings| - 1][m] == listings[m];
  }

  /** A listed symbol opens, stands and ranges at the price of its last listing, with no volume and nothing resting. */
  lemma {:induction false} ListedFresh(
    stocks: map<string, Stock>, books: map<string, Book>, listings: seq<(string, real)>, x: string, n: int)
    requires LastListing(listings, x, n)
    ensures x in Listing(stocks, listings)
    ensures x in Emptied(books, listings) && Emptied(books, listings)[x] == Book([], [])
    ensures var k, p := Listing(stocks, listings)[x], listings[n].1;
            && k.currentPrice == p && k.openPrice == p && k.highPrice == p && k.lowPrice == p && k.volume == 0
  {
    if n < |listings| - 1 {
      LastListingMore(listings, x, n);
      ListedFresh(stocks, books, listings[..|listings| - 1], x, n);
    }
  }

  /** A symbol that is not listed keeps its stock and its book, or has none. */
  lemma {:induction false} UnlistedKept(
    stocks: map<string, Stock>, books: map<string, Book>, listings: seq<(string, real)>, x: string)
    requires forall n :: 0 <= n < |listings| ==> listings[n].0 != x
    ensures x in Listing(stocks, listings) <==> x in stocks
    ensures x in Emptied(books, listings) <==> x in books
    ensures x in stocks ==> Listing(stocks, listings)[x] == stocks[x]
    ensures x in books ==> Emptied(books, listings)[x] == books[x]
  {
    if listings != [] {
      UnlistedKept(stocks, books, listings[..|listings| - 1], x);
    }
  }

  /** Books after one call of the loop on a symbol's book, if it is listed. */
  ghost function MatchedAt(books: map<string, Book>, x: string): map<string, Book> {
    if x in books then books[x := Match(x, books[x]).book] else books
  }

  ghost function TradesAt(books: map<string, Book>, x: string): seq<TradeRecord> {
    if x in books then Match(x, books[x]).trades else []
  }

  lemma OneBookChanged(before: map<string, Book>, after: map<string, Book>, x: string)
    requires after.Keys == before.Keys + {x}
    requires forall y :: y in before && y != x ==> after[y] == before[y]
    ensures after == before[x := after[x]]
  {
  }

  class OrderBook {
    var books: map<string, StockOrderBook>
    var stocks: map<string, Stock>
    var tradeHistory: seq<TradeRecord>
    var totalTrades: int
    var totalVolume: int
    var hasNewOrders: bool
    /** What was handed to the trade logger. */
    var tradeLog: seq<TradeRecord>

    ghost predicate Valid()
      reads this
    {
      && books.Keys == stocks.Keys
      && (forall x, y :: x in books && y in books && x != y ==> books[x] != books[y])
      && |tradeHistory| <= MAX_HISTORY
    }

    ghost function Contents(): map<string, Book>
      reads `books, books.Values
    {
      map x | x in books :: books[x].Contents()
    }

    /** All of it but the flag, as values. */
    ghost function Snapshot(): Record
      reads this, books.Values
    {
      Record(Contents(), stocks, tradeHistory, tradeLog, totalTrades, totalVolume)
    }

    constructor ()
      ensures Valid() && books == map[] && stocks == map[] && tradeHistory == [] && tradeLog == []
      ensures totalTrades == 0 && totalVolume == 0 && !hasNewOrders
    {
      books, stocks, tradeHistory, tradeLog := map[], map[], [], [];
      totalTrades, totalVolume, hasNewOrders := 0, 0, false;
    }

    method ListStock(sym: string, price: real)
      requires Valid()
      modifies `stocks, `books
      ensures Valid() && stocks == old(stocks)[sym := Stock(price, price, price, price, 0)]
      ensures Contents() == old(Contents())[sym := Book([], [])] && fresh(books.Values - old(books).Values)
    {
      stocks := stocks[sym := Stock(price, price, price, price, 0)];
      var book := new StockOrderBook();
      books := books[sym := book];
      OneBookChanged(old(Contents()), Contents(), sym);
    }

    /** List symbols with their opening prices; one listed before, here or earlier, starts afresh with an empty book. */
    method InitStocks(listings: seq<(string, real)>)
      requires Valid()
      modifies `stocks, `books
      ensures Valid() && fresh(books.Values - old(books).Values)
      ensures stocks == Listing(old(stocks), listings) && Contents() == Emptied(old(Contents()), listings)
    {
      for n := 0 to |listings|
        invariant Valid() && fresh(books.Values - old(books).Values)
        invariant stocks == Listing(old(stocks), listings[..n]) && Contents() == Emptied(old(Contents()), listings[..n])
      {
        assert listings[..n + 1][..n] == listings[..n];
        ListStock(listings[n].0, listings[n].1);
      }
      assert listings[..|listings|] == listings;
    }

    /** The critical section of an insertion: one book gains the order, the others stay. */
    method InsertOrder(order: Order)
      requires Valid() && order.symbol in books
      modifies books[order.symbol]
      ensures Contents() == old(Contents())[order.symbol := Submit(old(Contents())[order.symbol], order)]
    {
      books[order.symbol].Insert(order);
      OneBookChanged(old(Contents()), Contents(), order.symbol);
    }

    /** Price a MARKET order, queue the order and raise the flag; -1 and no effect for an unknown symbol. */
    method SubmitOrder(order: Order) returns (id: int, priced: Order)
      requires Valid()
      modifies this`hasNewOrders, if order.symbol in books then {books[order.symbol]} else {}
      ensures Valid()
      ensures order.symbol !in books ==> id == -1 && priced == order && hasNewOrders == old(hasNewOrders)
      ensures order.symbol in books ==>
                && id == order.orderId && hasNewOrders
                && priced == (if order.kind == MARKET then order.(price := stocks[order.symbol].currentPrice)
                              else order)
                && Contents() == old(Contents())[order.symbol := Submit(old(Contents())[order.symbol], priced)]
    {
      if order.symbol !in books {
        return -1, order;
      }
      priced := order;
      if order.kind == MARKET {
        priced := priced.(price := stocks[order.symbol].currentPrice);
      }
      InsertOrder(priced);
      hasNewOrders := true;
      id := order.orderId;
    }

    /** The crossing loop on one book, in place. */
    method MatchSymbol(symbol: string, book: StockOrderBook) returns (trades: seq<TradeRecord>)
      modifies `totalTrades, `totalVolume, `tradeLog, book
      ensures Outcome(trades, book.Contents()) == Match(symbol, old(book.Contents()))
      ensures totalTrades == old(totalTrades) + |trades| && totalVolume == old(totalVolume) + Volume(trades)
      ensures tradeLog == old(tradeLog) + trades
      ensures NameTraders(trades, old(book.Contents()))
    {
      TradersNamed(symbol, book.Contents());
      trades := [];
      ghost var start := book.Contents();
      while book.buyOrders != [] && book.sellOrders != []
        invariant Continues(symbol, start, trades, book.Contents())
        invariant totalTrades == old(totalTrades) + |trades| && totalVolume == old(totalVolume) + Volume(trades)
        invariant tradeLog == old(tradeLog) + trades
        decreases |book.buyOrders| + |book.sellOrders|
      {
        var buyOrder, sellOrder := book.buyOrders[0], book.sellOrders[0];
        var bidPrice, askPrice := buyOrder.price, sellOrder.price;
        if bidPrice < askPrice {
          break;
        }
        ghost var b := book.Contents();
        var qty := Min(buyOrder.Remaining(), sellOrder.Remaining());
        var execPrice := (bidPrice + askPrice) / 2.0;
        var trade := TradeRecord(buyOrder.orderId, sellOrder.orderId, buyOrder.traderId, sellOrder.traderId,
                                 symbol, qty, execPrice);
        assert trade == TopTrade(symbol, b);
        OneMore(symbol, start, trades, b);
        trades := trades + [trade];
        totalTrades := totalTrades + 1;
        totalVolume := totalVolume + qty;
        tradeLog := tradeLog + [trade];
        book.Fill(qty, execPrice);
        assert book.Contents() == Execute(b);
      }
      assert trades + [] == trades;
    }

    /** The critical section on one listed book. */
    method MatchBook(symbol: string) returns (trades: seq<TradeRecord>)
      requires Valid() && symbol in books
      modifies `totalTrades, `totalVolume, `tradeLog, books[symbol]
      ensures trades == TradesAt(old(Contents()), symbol) && Contents() == MatchedAt(old(Contents()), symbol)
      ensures totalTrades == old(totalTrades) + |trades| && totalVolume == old(totalVolume) + Volume(trades)
      ensures tradeLog == old(tradeLog) + trades
    {
      trades := MatchSymbol(symbol, books[symbol]);
      OneBookChanged(old(Contents()), Contents(), symbol);
    }

    /** Cross a symbol's book, then commit the batch to the history and to the stock. */
    method MatchOrders(symbol: string) returns (trades: seq<TradeRecord>)
      requires Valid()
      modifies this, if symbol in books then {books[symbol]} else {}
      ensures Valid() && books == old(books) && hasNewOrders == old(hasNewOrders)
      ensures trades == TradesAt(old(Contents()), symbol) && Contents() == MatchedAt(old(Contents()), symbol)
      ensures totalTrades == old(totalTrades) + |trades| && totalVolume == old(totalVolume) + Volume(trades)
      ensures tradeLog == old(tradeLog) + trades
      ensures tradeHistory == LastN(old(tradeHistory) + trades, MAX_HISTORY)
      ensures stocks == if trades == [] then old(stocks) else old(stocks)[symbol := Commit(old(stocks)[symbol], trades)]
    {
      if symbol !in books {
        assert tradeHistory + [] == tradeHistory;
        return [];
      }
      trades := MatchBook(symbol);
      CommitTrades(symbol, trades);
    }

    /** The same, on the whole record. */
    method MatchRecorded(symbol: string) returns (trades: seq<TradeRecord>)
      requires Valid()
      modifies this, if symbol in books then {books[symbol]} else {}
      ensures Valid() && books == old(books) && |trades| == totalTrades - old(totalTrades)
      ensures AfterCall(old(Snapshot()), Snapshot(), symbol)
    {
      trades := MatchOrders(symbol);
    }

    /** Nothing to commit for an empty batch. */
    method CommitTrades(symbol: string, trades: seq<TradeRecord>)
      requires |tradeHistory| <= MAX_HISTORY && symbol in stocks
      modifies `tradeHistory, `stocks
      ensures tradeHistory == LastN(old(tradeHistory) + trades, MAX_HISTORY)
      ensures stocks == if trades == [] then old(stocks) else old(stocks)[symbol := Commit(old(stocks)[symbol], trades)]
    {
      assert tradeHistory + [] == tradeHistory;
      if trades != [] {
        PushAll(trades);
        CommitBatch(symbol, trades);
      }
    }

    /** Append to the bounded history, dropping the oldest trade whenever it overflows. */
    method PushAll(trades: seq<TradeRecord>)
      requires |tradeHistory| <= MAX_HISTORY
      modifies `tradeHistory
      ensures tradeHistory == LastN(old(tradeHistory) + trades, MAX_HISTORY)
      ensures |tradeHistory| == Min(1000, |old(tradeHistory) + trades|)
      ensures var all, n := old(tradeHistory) + trades, |tradeHistory|;
              forall k :: 0 <= k < n ==> tradeHistory[k] == all[|all| - n + k]
    {
      ghost var start := tradeHistory;
      assert start + trades[..0] == start;
      for i := 0 to |trades|
        invariant tradeHistory == LastN(start + trades[..i], MAX_HISTORY)
      {
        assert start + trades[..i + 1] == (start + trades[..i]) + [trades[i]];
        tradeHistory := tradeHistory + [trades[i]];
        if |tradeHistory| > MAX_HISTORY {
          tradeHistory := tradeHistory[1..];
        }
      }
      assert trades[..|trades|] == trades;
    }

    /** The last trade sets the price, every trade adds to the volume. */
    method CommitBatch(symbol: string, trades: seq<TradeRecord>)
      requires trades != [] && symbol in stocks
      modifies `stocks
      ensures stocks == old(stocks)[symbol := Commit(old(stocks)[symbol], trades)]
      ensures var k, was, last := stocks[symbol], old(stocks)[symbol], trades[|trades| - 1].price;
              && k.currentPrice == last && k.openPrice == was.openPrice && k.volume == was.volume + Volume(trades)
              && k.highPrice == (if was.highPrice < last then last else was.highPrice)
              && k.lowPrice == (if last < was.lowPrice then last else was.lowPrice)
    {
      var lastPrice := trades[|trades| - 1].price;
      var stock := stocks[symbol];
      stock := stock.(currentPrice := lastPrice);
      if lastPrice > stock.highPrice {
        stock := stock.(highPrice := lastPrice);
      }
      if lastPrice < stock.lowPrice {
        stock := stock.(lowPrice := lastPrice);
      }
      ghost var priced := stocks[symbol].Priced(lastPrice);
      assert trades[..0] == [];
      for i := 0 to |trades|
        invariant stocks == old(stocks)
        invariant stock == priced.(volume := priced.volume + Volume(trades[..i]))
      {
        assert trades[..i + 1] == trades[..i] + [trades[i]];
        VolumeConcat(trades[..i], [trades[i]]);
        assert Volume([trades[i]]) == trades[i].quantity;
        stock := stock.(volume := stock.volume + trades[i].quantity);
      }
      assert trades[..|trades|] == trades;
      stocks := stocks[symbol := stock];
    }

    /** The market maker's price; an unknown symbol is ignored. */
    method UpdatePrice(symbol: string, newPrice: real)
      modifies `stocks
      ensures symbol !in old(stocks) ==> stocks == old(stocks)
      ensures symbol in old(stocks) ==> stocks == old(stocks)[symbol := old(stocks)[symbol].Priced(newPrice)]
      ensures symbol in stocks ==>
                var k, was := stocks[symbol], old(stocks)[symbol];
                && k.currentPrice == newPrice && k.openPrice == was.openPrice && k.volume == was.volume
                && k.highPrice == (if was.highPrice < newPrice then newPrice else was.highPrice)
                && k.lowPrice == (if newPrice < was.lowPrice then newPrice else was.lowPrice)
    {
      if symbol in stocks {
        var stock := stocks[symbol].(currentPrice := newPrice);
        if newPrice > stock.highPrice {
          stock := stock.(highPrice := newPrice);
        }
        if newPrice < stock.lowPrice {
          stock := stock.(lowPrice := newPrice);
        }
        stocks := stocks[symbol := stock];
      }
    }

    /** The n most recent trades, oldest first; nothing for a negative n. */
    method GetRecentTrades(n: int) returns (result: seq<TradeRecord>)
      ensures n >= 0 ==> result == LastN(tradeHistory, n) && |result| == Min(n, |tradeHistory|)
      ensures |result| <= |tradeHistory|
      ensures forall k :: 0 <= k < |result| ==> result[k] == tradeHistory[|tradeHistory| - |result| + k]
      ensures n < 0 ==> result == []
    {
      var start := Max(0, |tradeHistory| - n);
      result := [];
      var i := start;
      while i < |tradeHistory|
        invariant start <= i <= Max(start, |tradeHistory|) && (i > |tradeHistory| ==> result == [])
        invariant i <= |tradeHistory| ==> result == tradeHistory[start..i]
        decreases |tradeHistory| - i
      {
        result := result + [tradeHistory[i]];
        i := i + 1;
      }
      assert tradeHistory[0..|tradeHistory|] == tradeHistory;
    }

    /** How many buys and sells rest for each symbol. */
    method GetOrderDepth() returns (depth: map<string, (int, int)>)
      ensures depth.Keys == books.Keys
      ensures forall x :: x in books ==> depth[x] == (|Contents()[x].buys|, |Contents()[x].sells|)
    {
      depth := map[];
      var todo := books.Keys;
      while todo != {}
        invariant todo <= books.Keys && depth.Keys == books.Keys - todo
        invariant forall x :: x in depth ==> depth[x] == (|Contents()[x].buys|, |Contents()[x].sells|)
      {
        var x :| x in todo;
        depth := depth[x := (|books[x].buyOrders|, |books[x].sellOrders|)];
        todo := todo - {x};
      }
    }
  }

  /** Books after the loop ran once on each of the symbols that are listed. */
  ghost function After(books: map<string, Book>, symbols: seq<string>): map<string, Book> {
    map x | x in books :: if x in symbols then Match(x, books[x]).book else books[x]
  }

  /** Running it again on a symbol already done changes nothing, so each symbol may be taken in turn. */
  lemma AfterOneMore(books: map<string, Book>, symbols: seq<string>, x: string)
    ensures After(books, symbols + [x]) == MatchedAt(After(books, symbols), x)
  {
    if x in books {
      MatchSettles(x, x, books[x]);
    }
  }

  /** The trades of a round, symbol by symbol in the order given. */
  ghost function RoundTrades(books: map<string, Book>, symbols: seq<string>): seq<TradeRecord> {
    if symbols == [] then []
    else
      var n := |symbols| - 1;
      RoundTrades(books, symbols[..n]) + TradesAt(After(books, symbols[..n]), symbols[n])
  }

  lemma RoundTradesMore(books: map<string, Book>, symbols: seq<string>, x: string)
    ensures RoundTrades(books, symbols + [x]) == RoundTrades(books, symbols) + TradesAt(After(books, symbols), x)
  {
    assert (symbols + [x])[..|symbols|] == symbols;
  }

  /** Each stock after a round has its own symbol's trades committed, if there were any. */
  ghost predicate RoundCommitted(
    was: map<string, Stock>, now: map<string, Stock>, books: map<string, Book>, symbols: seq<string>)
  {
    && now.Keys == was.Keys
    && forall x :: x in was ==>
                     var ts := if x in symbols then TradesAt(books, x) else [];
                     now[x] == if ts == [] then was[x] else Commit(was[x], ts)
  }

  /** A symbol that comes up again has nothing left to trade. */
  lemma AgainNothing(books: map<string, Book>, symbols: seq<string>, x: string)
    ensures TradesAt(After(books, symbols), x) == if x in symbols then [] else TradesAt(books, x)
  {
    if x in books {
      MatchSettles(x, x, books[x]);
    }
  }

  lemma CommittedMore(
    was: map<string, Stock>, now: map<string, Stock>, books: map<string, Book>, symbols: seq<string>, x: string)
    requires RoundCommitted(was, now, books, symbols) && books.Keys == was.Keys
    ensures var ts := TradesAt(After(books, symbols), x);
            && (ts != [] ==> x in now)
            && RoundCommitted(was, if ts == [] then now else now[x := Commit(now[x], ts)], books, symbols + [x])
  {
    AgainNothing(books, symbols, x);
  }

  /** What an order book holds, as values. */
  datatype Record = Record(
    books: map<string, Book>, stocks: map<string, Stock>, history: seq<TradeRecord>, log: seq<TradeRecord>,
    trades: int, volume: int)

  /** From one record to another by calling the matcher on these symbols in turn. */
  ghost predicate AfterRound(was: Record, now: Record, symbols: seq<string>) {
    var ts := RoundTrades(was.books, symbols);
    && now.books == After(was.books, symbols) && RoundCommitted(was.stocks, now.stocks, was.books, symbols)
    && now.history == LastN(was.history + ts, MAX_HISTORY) && now.log == was.log + ts
    && now.trades == was.trades + |ts| && now.volume == was.volume + Volume(ts)
  }

  /** From one record to another by calling it on x. */
  ghost predicate AfterCall(was: Record, now: Record, x: string) {
    var ts := TradesAt(was.books, x);
    && now.books == MatchedAt(was.books, x) && (ts != [] ==> x in was.stocks)
    && now.stocks == (if ts == [] then was.stocks else was.stocks[x := Commit(was.stocks[x], ts)])
    && now.history == LastN(was.history + ts, MAX_HISTORY) && now.log == was.log + ts
    && now.trades == was.trades + |ts| && now.volume == was.volume + Volume(ts)
  }

  lemma AfterNone(was: Record)
    requires |was.history| <= MAX_HISTORY
    ensures AfterRound(was, was, [])
  {
    assert was.log + [] == was.log && was.history + [] == was.history;
  }

  lemma AfterMore(was: Record, now: Record, next: Record, symbols: seq<string>, x: string, all: seq<string>)
    requires AfterRound(was, now, symbols) && AfterCall(now, next, x) && was.books.Keys == was.stocks.Keys
    requires all == symbols + [x]
    ensures AfterRound(was, next, all)
  {
    var ts, us := RoundTrades(was.books, symbols), TradesAt(After(was.books, symbols), x);
    AfterOneMore(was.books, symbols, x);
    RoundTradesMore(was.books, symbols, x);
    CommittedMore(was.stocks, now.stocks, was.books, symbols, x);
    RecordedMore(was.log, was.history, ts, us);
  }

  lemma RecordedMore(log: seq<TradeRecord>, history: seq<TradeRecord>, ts: seq<TradeRecord>, us: seq<TradeRecord>)
    ensures log + ts + us == log + (ts + us) && Volume(ts + us) == Volume(ts) + Volume(us)
    ensures LastN(LastN(history + ts, MAX_HISTORY) + us, MAX_HISTORY) == LastN(history + (ts + us), MAX_HISTORY)
  {
    LastNConcat(history + ts, us, MAX_HISTORY);
    assert history + ts + us == history + (ts + us);
    VolumeConcat(ts, us);
  }

  /** From one record to another by one call after the other. */
  ghost predicate AfterCalls(was: Record, now: Record, symbols: seq<string>)
    decreases |symbols|
  {
    if symbols == [] then now == was
    else
      var n := |symbols| - 1;
      exists mid :: AfterCalls(was, mid, symbols[..n]) && AfterCall(mid, now, symbols[n])
  }

  lemma AnotherCall(was: Record, mid: Record, now: Record, symbols: seq<string>, i: nat)
    requires i < |symbols| && AfterCalls(was, mid, symbols[..i]) && AfterCall(mid, now, symbols[i])
    ensures AfterCalls(was, now, symbols[..i + 1])
  {
    assert symbols[..i + 1][..i] == symbols[..i];
  }

  lemma {:induction false} CallsAreRound(was: Record, now: Record, symbols: seq<string>)
    requires AfterCalls(was, now, symbols) && |was.history| <= MAX_HISTORY && was.books.Keys == was.stocks.Keys
    ensures AfterRound(was, now, symbols)
    decreases |symbols|
  {
    if symbols == [] {
      AfterNone(was);
    } else {
      var n := |symbols| - 1;
      var mid :| AfterCalls(was, mid, symbols[..n]) && AfterCall(mid, now, symbols[n]);
      CallsAreRound(was, mid, symbols[..n]);
      assert symbols == symbols[..n] + [symbols[n]];
      AfterMore(was, mid, now, symbols[..n], symbols[n], symbols);
    }
  }

  lemma AfterUncrossed(books: map<string, Book>, symbols: seq<string>)
    ensures forall x :: x in books && x in symbols ==> !Crossed(After(books, symbols)[x])
  {
    forall x | x in books && x in symbols
      ensures !Crossed(Match(x, books[x]).book)
    {
      MatchSettles(x, x, books[x]);
    }
  }

  /** One turn of the matcher: every symbol in order. */
  class MatchingEngine {
    var matchesPerformed: int

    constructor ()
      ensures matchesPerformed == 0
    {
      matchesPerformed := 0;
    }

    /**
     * Alone, a round leaves every listed book as the loop leaves it, so none of them is crossed; logs, history and
     * counters have its trades, symbol by symbol, and each stock has its own committed.
     */
    method Round(book: OrderBook, symbols: seq<string>) returns (matchRound: int)
      requires book.Valid()
      modifies this, book, book.books.Values
      ensures book.Valid() && AfterRound(old(book.Snapshot()), book.Snapshot(), symbols)
      ensures forall x :: x in book.books && x in symbols ==> !Crossed(book.Contents()[x])
      ensures matchRound == book.totalTrades - old(book.totalTrades)
      ensures matchesPerformed == old(matchesPerformed) + matchRound
    {
      matchRound := 0;
      ghost var was, owned := book.Snapshot(), book.books;
      for i := 0 to |symbols|
        invariant book.Valid() && book.books == owned && AfterCalls(was, book.Snapshot(), symbols[..i])
        invariant matchRound == book.totalTrades - old(book.totalTrades)
        invariant matchesPerformed == old(matchesPerformed) + matchRound
      {
        ghost var before := book.Snapshot();
        var trades := book.MatchRecorded(symbols[i]);
        AnotherCall(was, before, book.Snapshot(), symbols, i);
        matchRound := matchRound + |trades|;
        matchesPerformed := matchesPerformed + |trades|;
      }
      assert symbols[..|symbols|] == symbols;
      CallsAreRound(was, book.Snapshot(), symbols);
      AfterUncrossed(was.books, symbols);
    }
  }

  /** The global counter that numbers orders. */
  class OrderIds {
    var last: int

    constructor ()
      ensures last == 0
    {
      last := 0;
    }
  }

  /** A trader's next order from its draws and the market it sees. */
  method GenerateRandomOrder(ids: OrderIds, traderId: int, d: Draw, book: OrderBook) returns (order: Order)
    modifies ids
    ensures ids.last == old(ids.last) + 1
    ensures order == NewOrder(ids.last, traderId, d, Seen(book.stocks, d.symbol))
    ensures order.orderId == ids.last && order.traderId == traderId && order.symbol == d.symbol
    ensures (order.kind == LIMIT <==> d.limit) && (order.side == BUY <==> d.buy)
    ensures order.quantity == d.lot + 1 && order.filledQty == 0
    ensures d.symbol in book.stocks && d.limit ==>
              -0.005 <= order.price - book.stocks[d.symbol].currentPrice * (0.95 + d.offset as real / 10000.0) <= 0.005
    ensures d.symbol !in book.stocks && d.limit ==>
              -0.005 <= order.price - 100.0 * (0.95 + d.offset as real / 10000.0) <= 0.005
  {
    var currentPrice := 100.0;
    if d.symbol in book.stocks {
      currentPrice := book.stocks[d.symbol].currentPrice;
    }
    var kind := if d.limit then LIMIT else MARKET;
    var side := if d.buy then BUY else SELL;
    var qty := d.lot + 1;
    var price := 0.0;
    if kind == LIMIT {
      price := LimitPrice(currentPrice, d.offset);
    }
    ids.last := ids.last + 1;
    order := Order(ids.last, traderId, d.symbol, kind, side, price, qty, 0, 0.0);
    NewOrderFields(ids.last, traderId, d, currentPrice);
  }

  lemma MadeIsHandedIn(id: int, traderId: int, d: Draw, stock: Stock)
    ensures var o := NewOrder(id, traderId, d, stock.currentPrice);
            var priced := if o.kind == MARKET then o.(price := stock.currentPrice) else o;
            HandsIn(priced, id, traderId, d, stock.currentPrice)
  {
    NewOrderFields(id, traderId, d, stock.currentPrice);
  }

  lemma SubmittedRests(b: Book, o: Order)
    ensures o in Submit(b, o).Side(o.side)
  {
    var k := SubmitRests(b, o);
  }

  /**
   * A trader's turn: make an order, submit it and count it. Its order then rests on its side of its symbol's book,
   * a limit order at its limit and a market order at the current price; nothing else of any book changes.
   */
  method PlaceOrder(ids: OrderIds, traderId: int, d: Draw, book: OrderBook, ordersPlaced: int)
    returns (placed: int, order: Order)
    requires book.Valid() && ids.last >= 0
    modifies ids, book`hasNewOrders, if d.symbol in book.books then {book.books[d.symbol]} else {}
    ensures book.Valid() && ids.last == old(ids.last) + 1
    ensures d.symbol !in book.books ==> placed == ordersPlaced && book.hasNewOrders == old(book.hasNewOrders)
    ensures d.symbol in book.books ==>
              && placed == ordersPlaced + 1 && book.hasNewOrders
              && HandsIn(order, ids.last, traderId, d, book.stocks[d.symbol].currentPrice)
              && book.Contents() == old(book.Contents())[d.symbol := Submit(old(book.Contents())[d.symbol], order)]
              && order in book.Contents()[d.symbol].Side(order.side)
  {
    order := GenerateRandomOrder(ids, traderId, d, book);
    ghost var was := book.Contents();
    if d.symbol in book.books {
      MadeIsHandedIn(ids.last, traderId, d, book.stocks[d.symbol]);
    }
    var id;
    id, order := book.SubmitOrder(order);
    placed := if id > 0 then ordersPlaced + 1 else ordersPlaced;
    if d.symbol in book.books {
      SubmittedRests(was[d.symbol], order);
    }
  }

  /** One turn of the market maker over its snapshot: clamp each simulated price and publish it. */
  method UpdateAll(book: OrderBook, symbols: seq<string>, simulated: seq<real>)
    requires |symbols| == |simulated| && Distinct(symbols)
    modifies book`stocks
    ensures book.stocks.Keys == old(book.stocks).Keys
    ensures forall k :: 0 <= k < |symbols| && symbols[k] in book.stocks ==>
                          Quoted(old(book.stocks)[symbols[k]], book.stocks[symbols[k]], simulated[k])
    ensures forall x :: x in book.stocks && x !in symbols ==> book.stocks[x] == old(book.stocks)[x]
  {
    for i := 0 to |symbols|
      invariant book.stocks.Keys == old(book.stocks).Keys
      invariant forall k :: 0 <= k < i && symbols[k] in book.stocks ==>
                              Quoted(old(book.stocks)[symbols[k]], book.stocks[symbols[k]], simulated[k])
      invariant forall x :: x in book.stocks && x !in symbols[..i] ==> book.stocks[x] == old(book.stocks)[x]
    {
      var newPrice := simulated[i];
      if newPrice < FLOOR {
        newPrice := FLOOR;
      }
      assert symbols[i] !in symbols[..i];
      book.UpdatePrice(symbols[i], newPrice);
      assert symbols[..i + 1] == symbols[..i] + [symbols[i]];
    }
    assert symbols[..|symbols|] == symbols;
  }
}
