/** The records the exchange trades in: orders, the two queues of one symbol, trade records and stocks. */
module Orders {

  datatype OrderType = MARKET | LIMIT

  datatype OrderSide = BUY | SELL

  /** One order. The books hold orders by value, so a fill replaces the entry in its queue. */
  datatype Order = Order(
    orderId: int, traderId: int, symbol: string, kind: OrderType, side: OrderSide,
    price: real, quantity: int, filledQty: int, avgFillPrice: real)
  {
    predicate IsComplete() {
      filledQty >= quantity
    }

    function Remaining(): int {
      quantity - filledQty
    }

    /** The entry after `qty` more shares execute at `execPrice`; the average is only the last price. */
    function Filled(qty: int, execPrice: real): Order {
      this.(filledQty := filledQty + qty, avgFillPrice := execPrice)
    }
  }

  /** An executed trade; the wall-clock timestamp is not part of the model. */
  datatype TradeRecord = TradeRecord(
    buyOrderId: int, sellOrderId: int, buyerTraderId: int, sellerTraderId: int,
    symbol: string, quantity: int, price: real)

  /** Both queues of one symbol in multimap iteration order, best price first. */
  datatype Book = Book(buys: seq<Order>, sells: seq<Order>) {
    function Side(side: OrderSide): seq<Order> {
      if side == BUY then buys else sells
    }
  }

  datatype Stock = Stock(currentPrice: real, openPrice: real, highPrice: real, lowPrice: real, volume: int) {
    /** A new current price, stretching the day's range when it falls outside. */
    function Priced(p: real): Stock {
      this.(currentPrice := p,
      highPrice := if p > highPrice then p else highPrice,
      lowPrice := if p < lowPrice then p else lowPrice)
    }

    predicate InRange() {
      lowPrice <= currentPrice <= highPrice && lowPrice <= openPrice <= highPrice
    }
  }

  /** Would an order on `side` at `mine` be placed ahead of one already resting at `theirs`? */
  predicate Better(side: OrderSide, mine: real, theirs: real) {
    if side == BUY then mine > theirs else mine < theirs
  }

  /** Is the order willing to trade at price p? */
  predicate Willing(o: Order, side: OrderSide, p: real) {
    if side == BUY then o.price >= p else o.price <= p
  }

  ghost predicate Sorted(side: OrderSide, q: seq<Order>) {
    forall i, j :: 0 <= i < j < |q| ==> !Better(side, q[j].price, q[i].price)
  }

  ghost predicate DistinctIds(q: seq<Order>) {
    forall i, j :: 0 <= i < j < |q| ==> q[i].orderId != q[j].orderId
  }

  ghost predicate Open(q: seq<Order>) {
    forall i :: 0 <= i < |q| ==> q[i].Remaining() >= 1
  }

  ghost predicate HasId(q: seq<Order>, id: int) {
    exists i :: 0 <= i < |q| && q[i].orderId == id
  }

  /** What the multimaps and the order constructor guarantee about one symbol's queues. */
  ghost predicate ValidQueue(side: OrderSide, q: seq<Order>) {
    Sorted(side, q) && Open(q) && DistinctIds(q)
  }

  ghost predicate ValidBook(b: Book) {
    ValidQueue(BUY, b.buys) && ValidQueue(SELL, b.sells)
  }

  function Min(a: int, b: int): int {
    if a < b then a else b
  }

  function Max(a: int, b: int): int {
    if a < b then b else a
  }

  /** Shares changing hands over a list of trades. */
  function Volume(ts: seq<TradeRecord>): int {
    if ts == [] then 0 else ts[0].quantity + Volume(ts[1..])
  }

  /** The order of that side a trade fills. */
  function Party(t: TradeRecord, side: OrderSide): int {
    if side == BUY then t.buyOrderId else t.sellOrderId
  }

  /** Shares of order `id` filled by a list of trades. */
  function FilledBy(ts: seq<TradeRecord>, side: OrderSide, id: int): int {
    if ts == [] then 0
    else (if Party(ts[0], side) == id then ts[0].quantity else 0) + FilledBy(ts[1..], side, id)
  }

  lemma {:induction false} VolumeConcat(a: seq<TradeRecord>, b: seq<TradeRecord>)
    ensures Volume(a + b) == Volume(a) + Volume(b)
  {
    if a == [] {
      assert a + b == b;
    } else {
      assert (a + b)[1..] == a[1..] + b;
      VolumeConcat(a[1..], b);
    }
  }

  lemma {:induction false} FilledByConcat(a: seq<TradeRecord>, b: seq<TradeRecord>, side: OrderSide, id: int)
    ensures FilledBy(a + b, side, id) == FilledBy(a, side, id) + FilledBy(b, side, id)
  {
    if a == [] {
      assert a + b == b;
    } else {
      assert (a + b)[1..] == a[1..] + b;
      FilledByConcat(a[1..], b, side, id);
    }
  }

  /** Repricing moves the price, stretches the range by that price alone and leaves the rest. */
  lemma PricedFields(stock: Stock, p: real)
    ensures stock.Priced(p).currentPrice == p
    ensures stock.Priced(p).highPrice == if stock.highPrice < p then p else stock.highPrice
    ensures stock.Priced(p).lowPrice == if p < stock.lowPrice then p else stock.lowPrice
    ensures stock.Priced(p).openPrice == stock.openPrice && stock.Priced(p).volume == stock.volume
  {
  }

  /**
   * The record after a simulated price was quoted for it: the price itself when it is at least a cent and a cent
   * otherwise, the range stretched by that price alone, opening price and volume as before.
   */
  predicate Quoted(was: Stock, k: Stock, simulated: real) {
    && k.currentPrice == (if simulated >= 0.01 then simulated else 0.01)
    && k.highPrice == (if was.highPrice < k.currentPrice then k.currentPrice else was.highPrice)
    && k.lowPrice == (if k.currentPrice < was.lowPrice then k.currentPrice else was.lowPrice)
    && k.openPrice == was.openPrice && k.volume == was.volume
  }
}
