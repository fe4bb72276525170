# SentinelTrade, verified

A Dafny model of a multi-threaded exchange simulator and of the monitor that reads its trade log. Prices are
`real`, counters and quantities unbounded integers, symbols and log text sequences of characters.

* **One book.** `Orders`, `Crossing`, `Clearing`, `Surplus` and `BookHistory` treat the crossing loop of one symbol as a
  function on two price-sorted queues. The loop is shown to compute the call-auction outcome: laid end to end in
  queue order, a buy and a sell exchange the overlap of their intervals; the volume is the most any single price
  could trade; and no allocation of the resting shares, fractional ones included, has larger gains from trade.
  `BookHistory` says what a book *is* after any mixture of insertions and trades: its arrivals, queued by price and then
  time, settled against the trades.
* **The objects.** `OrderBooks`, `Loggers` and `LogMonitors` are the classes with their fields, loops and updates in place.
  Each method is proved against the functions above (`Match`, `Submit`, `Commit`, `LastN`, `Lines`, `Entries`).
* **The threads.** `Exchange` is a step system of N traders, the matcher, the market maker, the dashboard and main. A
  thread has a program counter and the mutexes it owns; taking a mutex is one step, a critical section with its release
  another; the matcher makes a step for each iteration of the crossing loop and takes the logger's mutex inside it.
  `pthread_cond_wait` releases, sleeps and takes again, and may wake without reason. SIGINT may come at any time. Every
  choice that the program leaves to `rand` or to the scheduler is arbitrary. `Control`, `Progress`, `Shutdown`, `Books`, `Accounting`,
  `Matching`, `Auction`, `Attribution`, `Prices`, `Day`, `WindDown`, `Stranded`, `Guards` and `Independence` prove what holds
  in every reachable state or over every run. `Turns` and `Quotes` run one turn of a trader and of the maker and say, field
  by field, what it does. `Simulation` is the exchange as `Backend/main.cpp` sets it up.
* **The log.** `Regex` is a backtracking matcher for the constructs of the monitor's pattern, with greedy repetition.
  `TradeLog` prints and parses a line, `Published` joins the two programs: what the monitor shows is what the exchange did.

Where code and comments disagree, the model follows the code:

* `avgFillPrice` is the price of the last execution (`Backend/OrderBook.cpp:167-169`), not the weighted average its comment names.
* The day's high and low see the last trade of a batch only (`Backend/OrderBook.cpp:117-121`).
* The matcher leaves on shutdown before it matches (`Backend/MatchingEngine.cpp:43`), so a book may stay crossed for
  ever. "Every book is uncrossed at exit" is therefore false, and no interrupt is needed: in `CrossedAtExitHappens` the
  traders place all their orders and main raises the flag before the matcher first gets going. `CrossedAtExitPossible`
  says for which exchanges such a run exists, namely those that take two orders, and `CrossedAtExit` says at which
  point of a run and for which books the outcome is settled.
* `Backend/QUICKSTART.md:112` names an alphabetical lock order. There is none: no thread holds two books' mutexes
  (`Backend/main.cpp:28-31`), and only the logger's mutex is ever taken inside another. Deadlock freedom is proved from that.

## Model

| member | source | states |
|---|---|---|
| Crossing.WorkBound | Backend/OrderBook.cpp:135-191 | for any integer quantities at all the loop ends, and erases at least one and at most two orders a trade |
| Crossing.MatchSettles | Backend/OrderBook.cpp:135-143 | the loop leaves the book uncrossed, a second call trades nothing and changes nothing, and the queues stay sorted, open and free of duplicates |
| Crossing.TradeFacts | Backend/OrderBook.cpp:148-161 | every trade is for at least one share, of this symbol, and between a buy and a sell that were resting |
| Crossing.LimitsRespected | Backend/OrderBook.cpp:143-159 | nobody trades through their own limit, and the price is as far from the bid as from the ask |
| Crossing.ClosedForm | Backend/OrderBook.cpp:135-191 | the shares buy i and sell j exchange are the overlap of their intervals when both queues are laid end to end, cut at the total volume |
| Crossing.OneRecordPerPair | Backend/OrderBook.cpp:152-161 | a buy and a sell share at most one trade record in a call |
| Crossing.TradersNamed | Backend/OrderBook.cpp:153-156 | every record names as buyer the trader of the buy it fills and as seller the trader of the sell, on any book at all |
| Crossing.TradesInOrder | Backend/OrderBook.cpp:135-161 | of two records of a call the later never goes back to an order further in front, on either side |
| Clearing.ClearingVolume | Backend/OrderBook.cpp:135-191 | the volume traded is the maximum over prices p of the smaller of bid volume willing at p and ask volume willing at p; both that bound and a price reaching it |
| Clearing.ClearingPrice | Backend/OrderBook.cpp:135-191 | some price between the best limits supports the whole volume on both sides, and at it the traders' edges add up to exactly the loop's gains |
| Clearing.WeakDuality | Backend/OrderBook.cpp:135-191 | at any price, no feasible allocation gains more than all willing shares' edges together |
| Clearing.GainsAreMaximal | Backend/OrderBook.cpp:135-191 | no allocation of real, non-negative amounts within what each order has left gains more than the loop's trades |
| Surplus.FillsFit | Backend/OrderBook.cpp:148-190 | a call never fills an order beyond what it had left |
| Surplus.MaximumAttained | Backend/OrderBook.cpp:135-191 | the trades of a call form a feasible allocation with the trades' own gains, and it is a maximum among all feasible ones |
| BookHistory.InsertPlace | Backend/OrderBook.cpp:69-73 | an insertion puts the order behind everything as good as it and in front of everything worse, and moves nothing else |
| BookHistory.SubmitRests | Backend/OrderBook.cpp:69-73 | an insertion makes its own side one longer, with the order as it is in it, and leaves the other side alone |
| BookHistory.QueueOrder | Backend/OrderBook.h:32-37 | of two same-side arrivals the later is ahead if and only if its price is strictly better, and otherwise the earlier is |
| BookHistory.SettleExecute | Backend/OrderBook.cpp:145-190 | one iteration on a queue settled against past trades is that queue settled against the trades with the new one |
| BookHistory.SubmitKeepsHistory | Backend/OrderBook.cpp:67-75 | inserting a fresh order keeps the book equal to its arrivals settled against its trades, with priority and no overfill |
| BookHistory.ExecuteKeepsHistory | Backend/OrderBook.cpp:135-191 | so does an iteration of the loop |
| BookHistory.SharesConserved | Backend/OrderBook.cpp:148-190 | an order still resting shows as filled exactly its log quantities; one that is gone got exactly what it asked for |
| BookHistory.AverageIsLastPrice | Backend/OrderBook.cpp:167-169 | the average fill price of a resting order is the price of the last trade that names it, and as it arrived if no trade does |
| BookHistory.BoughtEqualsSold | Backend/OrderBook.cpp:158-165 | shares bought over all arrivals equal shares sold and the volume |
| BookHistory.OrdersConserved | Backend/OrderBook.cpp:185-190 | arrivals are the resting orders and the completed ones |
| Ledger.NewOrderInRange | Backend/Trader.cpp:85-101 | an order is for 1 to 100 shares of a known symbol; a limit is whole cents, at least one, and within 5% of the market up to half a cent |
| Ledger.NewOrderFields | Backend/Trader.cpp:76-101 | the order of a draw field by field: a limit order exactly when drawn, a buy exactly when drawn, the lot plus one, the caller as trader, nothing filled, no price for a market order, and a limit within half a cent of the market moved by the draw, in whole cents |
| Ledger.FactorIs | Backend/Trader.cpp:95-96 | the draw moves a limit evenly from 5% below to 5% above the market, which is itself at draw 500 |
| Ledger.LimitAtMarket | Backend/Trader.cpp:95-98 | half way, a market price in whole cents is the limit |
| Ledger.RoundIs | Backend/Trader.cpp:98 | rounding gives the nearest integer, and of two the one away from zero |
| Ledger.CommitFields | Backend/OrderBook.cpp:117-122 | a batch leaves the price of its last trade as current, stretches high and low by that price alone, adds all its shares to the volume and keeps the opening price |
| Ledger.ClampIs | Backend/MarketMaker.cpp:39-40 | a simulated price of at least a cent is published as it is, and any other as a cent |
| Ledger.LastNIs | Backend/OrderBook.cpp:215-223 | the end of a sequence has as many elements as asked for or all there are, and they are its last ones |
| Orders.PricedFields | Backend/OrderBook.cpp:200-202 | a new price is current, high and low are the larger and the smaller of the old one and it, and opening price and volume stay |
| OrderBooks.StockOrderBook.Fill | Backend/OrderBook.cpp:163-190 | both best orders are filled in place and erased exactly when that completes them |
| OrderBooks.OrderBook.InitStocks | Backend/OrderBook.cpp:33-47 | whatever was listed before, afterwards every symbol named has a new empty book and a stock at its last price named; all others keep theirs |
| OrderBooks.ListedFresh | Backend/OrderBook.cpp:37-44 | a symbol listed opens, stands and ranges at the price of its last listing, with no volume and an empty book |
| OrderBooks.UnlistedKept | Backend/OrderBook.cpp:37-44 | a symbol that is not listed keeps the stock and the book it had, or has none |
| OrderBooks.OrderBook.InsertOrder | Backend/OrderBook.cpp:66-76 | the book of the order's symbol gains it in its place, and no other book changes |
| OrderBooks.OrderBook.SubmitOrder | Backend/OrderBook.cpp:49-93 | an unknown symbol returns -1 and changes nothing; otherwise a market order takes the current price, the one book gains the order in its place, the flag goes up and the order's id is returned |
| OrderBooks.OrderBook.MatchSymbol | Backend/OrderBook.cpp:130-194 | the loop in place yields the trades and the book of the specification, counts and logs exactly those trades, and each record names the traders of the buy and the sell that rested before |
| OrderBooks.OrderBook.MatchOrders | Backend/OrderBook.cpp:95-127 | one book is crossed, no other book or stock changes, the history becomes the last thousand of the history with the batch, and the stock has the batch's last price and all its volume |
| OrderBooks.OrderBook.PushAll | Backend/OrderBook.cpp:107-113 | pushing one by one and dropping from the front leaves the last thousand, or all there are, in order |
| OrderBooks.OrderBook.CommitBatch | Backend/OrderBook.cpp:115-123 | the last price alone is current and moves high and low, opening price stays, and the volume grows by the batch |
| OrderBooks.OrderBook.UpdatePrice | Backend/OrderBook.cpp:196-205 | a known symbol has the new price as current, its range stretched by it and the rest of its record unchanged; an unknown one is ignored |
| OrderBooks.OrderBook.GetRecentTrades | Backend/OrderBook.cpp:215-223 | the last n trades of the history element by element, all of them if fewer, none for a negative n |
| OrderBooks.OrderBook.GetOrderDepth | Backend/OrderBook.cpp:225-236 | the number of resting buys and sells of every symbol |
| OrderBooks.MatchingEngine.Round | Backend/MatchingEngine.cpp:45-51 | an undisturbed round leaves every listed book as the loop would, uncrossed; log, history, volume and counts have its trades, symbol by symbol in the order given, and each stock has its own symbol's trades committed |
| OrderBooks.GenerateRandomOrder | Backend/Trader.cpp:71-102 | each order takes the next id and is the draw's: its kind, side, symbol and lot, its trader, and a limit within half a cent of the price seen, moved by the draw, where an unlisted symbol is seen at 100 |
| OrderBooks.PlaceOrder | Backend/Trader.cpp:42-49 | a turn for a listed symbol counts one order, raises the flag, and leaves the draw's order resting in its book, a market order at the current price and a limit order at its limit; one for an unlisted symbol counts and submits nothing |
| OrderBooks.UpdateAll | Backend/MarketMaker.cpp:32-43 | every listed symbol is quoted at its own simulated price, or at a cent if that is less, with its range stretched by that price alone; all other records stay |
| Control.StepKeepsLocks | Backend/OrderBook.cpp:59-82 | every step keeps each mutex owned by exactly the thread that is inside it |
| Control.StepKeepsRoom | Backend/Semaphore.h:27-37 | every step keeps the semaphore's value plus the traders between wait and signal at the capacity |
| Control.StepKeepsWakeup | Backend/MatchingEngine.cpp:30-40 | no signal is lost: the flag cannot rise between the matcher's test and its sleep, it sleeps only with the flag down, and not after main's last signal |
| Control.ReachableControl | Backend/main.cpp:156-229 | index ranges, mutex ownership, room, join order and the wakeup invariant hold in every reachable state |
| Progress.DeadlockFree | Backend/main.cpp:28-31 | in every reachable state each unfinished thread can step, or waits along a chain of at most five for one that can |
| Progress.SomeoneCanStep | Backend/main.cpp:212-229 | until main has exited some thread has a step of its own, without a spurious wakeup |
| Progress.MutualExclusion | Backend/OrderBook.cpp:66-76 | two threads are never inside the same mutex |
| Progress.RoomCapacity | Backend/Semaphore.h:27-37 | the room never holds more than its capacity and is empty once main has joined the traders |
| Shutdown.StepShrinksWork | Backend/MatchingEngine.cpp:25-59 | after shutdown every step of anybody, a spurious wakeup included, uses up remaining work |
| Shutdown.ShutdownBounded | Backend/main.cpp:217-229 | no run from a reachable state after shutdown is longer than the work it starts with |
| Shutdown.NoNewRound | Backend/MatchingEngine.cpp:25-43 | after shutdown the matcher starts no further round, and once main has sent its last signal it never sleeps again |
| WindDown.TradersWindDown | Backend/Trader.cpp:33-59 | in any run whatever, the traders and main together make at most 7 steps and 24 more per order for each trader, and one per trader and 12 for main |
| WindDown.InsertedAtMost | Backend/Trader.cpp:33-49 | no more orders are ever inserted than the traders were told to place |
| WindDown.OrderEachTurn | Backend/Trader.cpp:33-49 | at its loop test a trader has placed exactly one order for every turn behind it |
| WindDown.AllOrdersPlaced | Backend/Trader.cpp:33-49 | in a run without SIGINT, once main has joined the traders, each has placed all its orders, and traders times orders were inserted |
| WindDown.EndsByItself | Backend/main.cpp:212-229 | from every reachable state there is a run to the end of all threads without any SIGINT |
| Shutdown.RunsToTheEnd | Backend/main.cpp:217-229 | from every reachable state after shutdown there is a run to the end of all threads |
| Shutdown.StuckMeansDone | Backend/main.cpp:217-229 | a state in which nobody can step has shutdown set and every thread finished |
| Shutdown.LastSignal | Backend/main.cpp:220-224 | main's last signal raises the flag and wakes whoever sleeps |
| Shutdown.MainExitsLast | Backend/main.cpp:213-229 | when main has exited every other thread has finished |
| Books.WholeRunPriority | Backend/OrderBook.cpp:69-73 | over every run: if an order has got a share, each earlier arrival of its symbol and side at an equal or better price has got all of its own |
| Books.WholeRunShares | Backend/OrderBook.cpp:148-190 | over every run: the whole log fills a resting order by its filled quantity, which is short of its quantity, and one that is gone by exactly its quantity |
| Books.WholeRunOrders | Backend/Trader.cpp:42-49 | arrivals of a symbol are its resting and its completed orders; all arrivals are the orders the traders counted and those not yet counted |
| Attribution.ArrivalsNameInserters | Backend/main.cpp:186-197 | over any run the k-th arrival of a symbol carries the number of the trader thread that made the k-th insertion into its book |
| Attribution.TradesNameTraders | Backend/OrderBook.cpp:153-156 | in every reachable state each executed trade names as buyer the trader that placed the buy it fills, and as seller the one that placed the sell |
| Turns.TurnPlacesOrder | Backend/Trader.cpp:33-53 | a trader with turns left can take one alone with any draw; then the draw's order, market or limit, rests in its book and nowhere else, the flag is up and the trader has counted one order |
| Books.WholeRunIds | Backend/Order.h:44-51 | ids of all orders constructed, inserted or still in a trader's hands, are positive and drawn from the counter, and two are equal only if the orders are the same |
| Books.WholeRunBoughtIsSold | Backend/OrderBook.cpp:164-172 | for each symbol the shares bought, the shares sold and the volume of its trades agree, under every interleaving |
| Accounting.BoughtIsSoldIsCounted | Backend/OrderBook.cpp:164-172 | over all symbols and arrivals, the shares bought, the shares sold and the total-volume counter are one number in every reachable state |
| Accounting.InFlight | Backend/OrderBook.cpp:102-124 | the total volume is what the stocks show plus the batch not yet committed; the total of trades is the matcher's count plus its batch, which is empty at its end |
| Accounting.HistoryIsSuffix | Backend/OrderBook.cpp:105-113 | the history is always, element by element, the last thousand of the executed trades but the batch not yet pushed, or all of them |
| Accounting.RoundCounted | Backend/MatchingEngine.cpp:46-51 | over any run within one round the round's count grows exactly as the total of matches, and a new round starts it at nothing |
| Matching.CrossedIsKnown | Backend/MatchingEngine.cpp:30-51 | a crossed book is announced by the flag, or by a trader between insertion and flag, or lies ahead in the matcher's round, unless the matcher has already broken out of its loop on shutdown |
| Matching.SleepingMeansUncrossed | Backend/MatchingEngine.cpp:32-37 | while the matcher sleeps, shutdown or not, and no trader on x is between insertion and flag, the book of x is uncrossed |
| Matching.CallStarts | Backend/OrderBook.cpp:101-102 | the matcher begins with no trades and the book as it finds it under the mutex |
| Matching.MatcherCallIsAtomic | Backend/OrderBook.cpp:101-103 | when it leaves the mutex, its trades and the book are those of one call of the loop on the book it found, whatever the others did meanwhile |
| Matching.RoundsBounded | Backend/MatchingEngine.cpp:32-43 | the matcher starts no more rounds than the traders submitted orders, however often it wakes |
| Auction.BatchIsAuction | Backend/OrderBook.cpp:101-126 | in every reachable state with a finished batch, it is the outcome of the loop on the valid book found under the mutex, trades the most that any single price could there, and is a feasible allocation with maximal gains |
| Prices.PriceFloor | Backend/MarketMaker.cpp:35-42 | from opening prices of a cent or more, no current, resting or executed price falls below a cent; low and high enclose the current and the opening price; orders and trades are for 1 to 100 shares by existing traders |
| Day.DayOfStock | Backend/OrderBook.cpp:115-123 | over every run a stock's current price is the last one committed or published for it, or its opening price if there was none; high and low are the extremes of all of them; its volume is that of its executed trades but for a batch in flight |
| Quotes.MakerTurn | Backend/MarketMaker.cpp:27-43 | the maker can take a turn alone with any simulated prices; then every symbol is quoted at its own, at least a cent, and nothing but the stock records has changed |
| Quotes.DashTurn | Backend/main.cpp:51-86 | the dashboard can take a turn alone, through the stock mutex and then every book's, and has changed nothing |
| Guards.WritesAreGuarded | Backend/OrderBook.cpp:59-124 | no step changes a book, the stocks, the history, the log or the flag unless its thread is inside the mutex that guards it |
| Guards.TraderReadsGuarded | Backend/OrderBook.cpp:60-64 | outside the stock mutex no move of a trader depends on the stocks |
| Guards.FlagReadsGuarded | Backend/MatchingEngine.cpp:30-40 | outside the new-order mutex no move of the matcher depends on the flag |
| Guards.BookReadsGuarded | Backend/OrderBook.cpp:101-103 | outside a book's mutex no move of the matcher depends on the book |
| Simulation.SetupIsValid | Backend/main.cpp:110-130 | the ten symbols, prices, capacity and counts the program starts with are a configuration that all these results are about, with a thousand orders in all |
| Stranded.StrandedForever | Backend/MatchingEngine.cpp:39-43 | a book crossed when shutdown finds the matcher outside a round stays crossed, whatever arrives later |
| Stranded.CrossedAtExit | Backend/MatchingEngine.cpp:43-51 | with shutdown announced and the traders finished, a book is crossed at the matcher's end if and only if it is crossed now and no round under way will come to it |
| Stranded.CrossedAtExitHappens | Backend/main.cpp:212-224 | any exchange that takes two orders, by two traders or by one, has a run from its start to the end of all threads, without SIGINT, that leaves a book crossed |
| Stranded.CrossedAtExitPossible | Backend/MatchingEngine.cpp:39-43 | an exchange has such a run if and only if its traders place at least two orders between them |
| Independence.RunFollows | Backend/OrderBook.cpp:57-124 | over any run the book, the stock and the uncommitted batch of a symbol are the replay of the critical sections on that symbol alone; a commit carries no data of its own |
| Independence.SymbolIndependence | Backend/OrderBook.cpp:57-124 | two runs of any two exchanges that open a symbol alike and go through the same sections on it end with the same book, stock and uncommitted batch for it |
| Independence.SectionsCommute | Backend/OrderBook.cpp:66-124 | any two sections ready to run on different symbols, whether insertion, iteration of the loop, commit or published price, can be swapped with the same final state |
| Independence.StockSectionsCommute | Backend/OrderBook.cpp:115-124 | a commit and a published price for different symbols, each with taking the stock mutex they share, can come in either order with the same final state |
| Regex.LastPlace | GUI/logmonitor.cpp:55-59 | a greedy wildcard settles on the last place from which the rest of the pattern matches |
| Regex.ClassesAre | GUI/logmonitor.cpp:55 | the character classes of the pattern, character by character |
| Regex.FrontSkipped | GUI/logmonitor.cpp:59 | a match is looked for everywhere: text in front without the pattern's first character makes no difference |
| TradeLog.ToDoubleOfCents | Backend/OrderBook.cpp:176-179 | a price printed with two decimals is read back as exactly that many cents |
| TradeLog.PlainSymbolIs | GUI/logmonitor.cpp:55 | the symbols that the round trip covers are the non-empty words of letters, digits and underscores |
| TradeLog.TimeIsPlain | Backend/Logger.cpp:113-119 | moments in digits, dashes, colons and blanks are among those it covers |
| TradeLog.PrintedText | Backend/OrderBook.cpp:175-182 | the message and its line are the printed pieces in their order |
| TradeLog.ValueOfDec | Backend/OrderBook.cpp:178-181 | a printed number denotes the number printed |
| TradeLog.DecPlain | Backend/OrderBook.cpp:178-181 | printed numbers carry no leading zero |
| TradeLog.TooLargeIsZero | GUI/logmonitor.cpp:64-67 | a number that does not fit is read as 0 |
| TradeLog.TwoPointsIsZero | GUI/logmonitor.cpp:65 | a price with two points is read as 0 |
| TradeLog.NoLaterMatch | GUI/logmonitor.cpp:55 | in a printed line nothing after its own MATCH can be taken for one, even when the symbol ends in those letters |
| TradeLog.CapturedBack | Backend/Logger.cpp:75 | the pattern's first match in a printed line captures the moment, symbol, quantity, price, buyer and seller as printed |
| TradeLog.ParsePrinted | GUI/logmonitor.cpp:59-67 | a printed line is read back as the same moment, symbol, quantity, buyer and seller, and the price within half a cent |
| Loggers.AcceptedAll | Backend/Logger.cpp:65-70 | however writes are cut short, everything gets written unless a call fails |
| Loggers.Logger.WriteToFd | Backend/Logger.cpp:56-71 | the file grows by the prefix of the message that the calls accepted, and not at all when it is not open |
| Loggers.Logger.LogTrade | Backend/Logger.cpp:73-80 | without failing writes the file grows by exactly one whole line; with them it only grows |
| Loggers.Logger.Init | Backend/Logger.cpp:31-54 | the trade file starts over with a header line alone when both files open; with only the trade file open it stays empty, and unopened it is untouched |
| Loggers.LogMatch | Backend/OrderBook.cpp:174-182 | a file of trades becomes the file with one trade more when no write fails, and otherwise the part of it that was accepted |
| LogMonitors.ReadConcat | GUI/logmonitor.cpp:57-73 | reading is a homomorphism at line boundaries: what was read before a file grew is read again, followed by what is new |
| LogMonitors.ReturnIgnored | GUI/logmonitor.cpp:51-58 | a carriage return before the newline makes no difference |
| LogMonitors.LastLineCounts | GUI/logmonitor.cpp:57-58 | a last line without its newline is a line |
| LogMonitors.ReadBack | GUI/logmonitor.cpp:57-73 | from a header and printed trades the monitor recovers exactly those trades in their order |
| LogMonitors.ReadTotals | GUI/logmonitor.cpp:70-71 | the count and volume over the recovered entries are those of the trades printed |
| LogMonitors.LogMonitor.ParseTradeLogs | GUI/logmonitor.cpp:44-75 | the line loop yields the entries of the whole file afresh with their count and volume, and nothing without a file |
| LogMonitors.LogMonitor.GetRecentTrades | GUI/logmonitor.cpp:102-106 | the last `count` entries, none for a negative count |
| Published.FileFollows | Backend/Logger.cpp:73-80 | a step of the exchange either logs nothing or logs one trade, whose line turns the file of the trades before it into the file of the trades after it |
| Published.MonitorAgrees | GUI/logmonitor.cpp:44-75 | in every reachable state of an exchange with word-like symbols, the monitor reads the trade file as one entry for every logged trade, in order, price within half a cent; its totals are the exchange's own, less at most one trade on its way to the log and none once the matcher has finished |

## Left out

- The graphical interface, file watching and the dashboard's printing; the dashboard only takes the locks it takes.
- System calls, clocks and sleeping: the moment in a log line is arbitrary text without brackets or line breaks, trade and order timestamps are absent, and `write` returns whatever it likes up to what it was asked for.
- `rand` and the price simulation of `Backend/MarketMaker.cpp:50-64`: the next price is any real before it is clamped, and a trader's draws are any in their stated ranges.
- Rounding of IEEE doubles and overflow of machine integers: prices are reals and counters unbounded. A printed price is a nearest number of cents, ties either way.
- `OrderStatus`, profit and loss in `TraderStats`, company names and the percentage change: the program never updates or only displays them.
- Text of the system log, its parsing, and the warning for an unknown symbol. Taking and leaving the logger's mutex for it is modelled.
- `Semaphore::tryWait`, `getValue` and `Guard`: nothing calls them. `wait` and `signal` are steps of the traders.
- The thread functions as methods: being concurrent, their loops are the program counters of `Exchange`, one transition for each statement that another thread could notice. The classes give the sequential calls, proved against the same functions that the steps use.
- Orders as updated objects: the multimaps hold orders by value and nothing else refers to them, so a queue is a sequence field and a fill replaces its first element.
- Thread creation: all threads are there from the start, which allows more interleavings than creating them one by one.
- The atomic counters: they are bumped in the same step as the fill, under the book's mutex.
- The visiting order of the market maker and the dashboard is the listing order, not the key order of the map; their prices are arbitrary either way.
- A last line that is only half written: claims about the file are made at line boundaries.
- Batch matching equal to continuous matching, and maximal volume over arbitrary pairings: false of a call auction, and not promised.
- Mutexes in the classes: a method is one call running alone. The mutexes, and what other threads may do between them, are in the step system.
