/** The exchange as it is set up to run: the results about all exchanges and all logs are about this one too. */
module Simulation {
  import opened Ledger
  import opened TradeLog
  import opened Exchange

  function Symbols(): seq<string> {
    ["AAPL", "GOOG", "MSFT", "AMZN", "TSLA", "NVDA", "META", "JPM", "BRK", "V"]
  }

  function OpeningPrices(): map<string, real> {
    map["AAPL" := 182.50, "GOOG" := 141.20, "MSFT" := 378.00, "AMZN" := 185.60, "TSLA" := 177.80,
        "NVDA" := 875.40, "META" := 470.10, "JPM" := 196.30, "BRK" := 355.20, "V" := 270.50]
  }

  /** Twenty traders with fifty orders each, ten of them in the room at a time. */
  function Setup(): Config {
    Config(Symbols(), OpeningPrices(), 10, 20, 50)
  }

  lemma SymbolsDistinct()
    ensures Distinct(Symbols())
  {
  }

  lemma SymbolsOpen()
    ensures forall x :: x in Symbols() <==> x in OpeningPrices()
    ensures forall x :: x in OpeningPrices() ==> OpeningPrices()[x] >= FLOOR
  {
  }

  lemma SymbolsPlain()
    ensures forall x :: x in Symbols() ==> PlainSymbol(x)
  {
  }

  /** It is a valid configuration whose trades can all be printed and read back, and it takes a thousand orders. */
  lemma SetupIsValid()
    ensures ValidConfig(Setup())
    ensures Setup().traders <= INT_MAX && forall x :: x in Setup().symbols ==> PlainSymbol(x)
    ensures Setup().traders * Setup().ordersPerTrader == 1000
  {
    SymbolsDistinct();
    SymbolsOpen();
    SymbolsPlain();
  }
}
