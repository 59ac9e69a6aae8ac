/** The two ledger collections in local storage. Every operation reads a
    whole collection, rewrites it and stores it back, so the model keeps
    each collection as one sequence field. */
module Storage {
  import opened Ledger

  class Store {
    var coins: seq<Coin>          // `autorug_coins`, all users interleaved
    var transactions: seq<Tx>     // `autorug_transactions`, all users interleaved

    /** Coin ids are unique and every coin has positive investment and
        liquidity; the ledger operations keep this. */
    ghost predicate Valid()
      reads this
    {
      WellFormed(coins)
    }

    /** An empty store, as on first use of the application. */
    constructor ()
      ensures coins == [] && transactions == [] && Valid()
    {
      coins, transactions := [], [];
    }
  }
}
