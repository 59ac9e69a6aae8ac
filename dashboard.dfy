/** The dashboard page of the signed-in user: the exposed coin and
    transaction lists, the analytics, and the ledger operations it runs on
    the store (liquidity removal, transaction log and delete, simulated PNL).
    Each operation is one atomic step; the timers, mount guards and the
    `storage` broadcast around them are not modelled. */
module Dashboard {
  import opened Wrappers
  import opened Ledger
  import opened Accounting
  import opened Storage
  import Auth

  /** What `updateCoinLiquidity` returns: whether the coin was deleted and
      how much liquidity was taken out. */
  datatype Outcome = Outcome(deleted: bool, amount: real)

  class Page {
    const store: Store
    const user: Option<Auth.User>          // the auth context's current user
    var coins: seq<Coin>                   // the `coins` state
    var transactions: seq<Tx>              // the `transactions` state
    var analytics: Analytics               // the `analytics` state

    /** `user?.id`: whose records the views show. */
    function Viewer(): Option<string> {
      if user.Some? then Some(user.value.id) else None
    }

    /** `user?.id || ""`: the owner written into logged transactions. */
    function Actor(): string {
      if user.Some? then user.value.id else ""
    }

    constructor (store: Store, user: Option<Auth.User>)
      ensures this.store == store && this.user == user
      ensures coins == [] && transactions == [] && analytics == InitialAnalytics
    {
      this.store, this.user := store, user;
      coins, transactions, analytics := [], [], InitialAnalytics;
    }

    /** The loading effects: with a user signed in, the coin and transaction
        views are read from the store and the analytics computed over the
        transaction view at time `now`; with nobody signed in nothing loads. */
    method Load(now: int)
      modifies this`coins, this`transactions, this`analytics
      ensures user.None? ==> coins == old(coins) && transactions == old(transactions) && analytics == old(analytics)
      ensures user.Some? ==> coins == CoinView(store.coins, Viewer())
      ensures user.Some? ==> transactions == TxView(store.transactions, Viewer())
      ensures user.Some? ==> analytics == ComputeAnalytics(transactions, now)
    {
      if user.None? {
        return;
      }
      coins := CoinView(store.coins, Viewer());
      transactions := TxView(store.transactions, Viewer());
      analytics := ComputeAnalytics(transactions, now);
    }

    /** `logTransaction`: one stamped record goes in front of the full stored
        list; the view is re-derived; the analytics are not refreshed. */
    method LogTransaction(draft: TxDraft, txId: string, now: int)
      modifies store`transactions, this`transactions
      ensures store.transactions == [draft.Stamp(txId, now)] + old(store.transactions)
      ensures transactions == TxView(store.transactions, Viewer())
    {
      store.transactions := [draft.Stamp(txId, now)] + store.transactions;
      transactions := TxView(store.transactions, Viewer());
    }

    /** `deleteTransaction`: every record with the id leaves the stored list,
        the rest keep their order; coins are not touched. */
    method DeleteTransaction(txId: string)
      modifies store`transactions, this`transactions
      ensures store.transactions == DeleteTx(old(store.transactions), txId)
      ensures transactions == TxView(store.transactions, Viewer())
    {
      store.transactions := DeleteTx(store.transactions, txId);
      transactions := TxView(store.transactions, Viewer());
    }

    /** `updateCoinLiquidity`. An unknown id changes nothing. A new liquidity
        below `Epsilon` deletes the coin and logs its whole liquidity as
        removed; any other scales investment and profit to the new liquidity
        and logs the difference. */
    method UpdateCoinLiquidity(coinId: string, newLiquidity: real, txId: string, now: int)
      returns (r: Outcome)
      requires store.Valid()
      modifies store, this`coins, this`transactions
      ensures store.Valid()
      ensures FindCoin(old(store.coins), coinId).None? ==>
                && r == Outcome(false, 0.0)
                && store.coins == old(store.coins) && store.transactions == old(store.transactions)
                && coins == old(coins) && transactions == old(transactions)
      ensures FindCoin(old(store.coins), coinId).Some? ==>
                var c := old(store.coins)[FindCoin(old(store.coins), coinId).value];
                r == Outcome(newLiquidity < Epsilon, RemovedAmount(c, newLiquidity))
      ensures FindCoin(old(store.coins), coinId).Some? ==>
                var k := FindCoin(old(store.coins), coinId).value;
                store.coins == Withdrawn(old(store.coins), k, newLiquidity)
      ensures FindCoin(old(store.coins), coinId).Some? ==>
                var c := old(store.coins)[FindCoin(old(store.coins), coinId).value];
                store.transactions
                == [Tx(txId, Actor(), coinId, c.name, Removal, RemovedAmount(c, newLiquidity), now)] + old(store.transactions)
      ensures FindCoin(old(store.coins), coinId).Some? ==>
                coins == CoinView(store.coins, Viewer()) && transactions == TxView(store.transactions, Viewer())
    {
      var found := FindCoin(store.coins, coinId);
      if found.None? {
        return Outcome(false, 0.0);
      }
      var k := found.value;
      var coin := store.coins[k];
      var current := Liquidity(coin);
      if newLiquidity < Epsilon {
        // full withdrawal: log everything, then drop the coin
        LogTransaction(TxDraft(Actor(), coinId, coin.name, Removal, RemovedAmount(coin, newLiquidity)), txId, now);
        RemoveFoundCoin(store.coins, coinId, k);
        WellFormedWithout(store.coins, k);
        store.coins := RemoveCoin(store.coins, coinId);
        coins := CoinView(store.coins, Viewer());
        return Outcome(true, current);
      }
      // partial withdrawal: shrink investment and profit proportionally
      LogTransaction(TxDraft(Actor(), coinId, coin.name, Removal, RemovedAmount(coin, newLiquidity)), txId, now);
      var ratio := newLiquidity / current;
      ScaleFoundCoin(store.coins, coinId, k, newLiquidity);
      store.coins := ScaleMatching(store.coins, coinId, ratio);
      coins := CoinView(store.coins, Viewer());
      r := Outcome(false, current - newLiquidity);
    }

    /** The coin card's `handleRemoveLiquidity` for the card's `coin` and the
        parsed amount (`None` for NaN). An invalid amount changes nothing;
        a valid one is clamped by `WithdrawTarget` and passed on. When the
        card shows the stored coin, a deletion reports the whole liquidity
        and leaves no coin with that id, and a partial withdrawal takes out
        exactly the requested amount; either way the other coins keep their
        places, one removal record is logged in front and the page's views
        are re-derived from the store. A card whose coin id is no longer
        stored reports nothing deleted and changes nothing. */
    method RemoveLiquidity(coin: Coin, amount: Option<real>, txId: string, now: int)
      returns (r: Option<Outcome>)
      requires store.Valid()
      modifies store, this`coins, this`transactions
      ensures store.Valid()
      ensures WithdrawTarget(Liquidity(coin), amount).None? ==>
                && r.None?
                && store.coins == old(store.coins) && store.transactions == old(store.transactions)
                && coins == old(coins) && transactions == old(transactions)
      ensures WithdrawTarget(Liquidity(coin), amount).Some? ==> r.Some?
      ensures WithdrawTarget(Liquidity(coin), amount).Some? && coin in old(store.coins) ==>
                var target := WithdrawTarget(Liquidity(coin), amount).value;
                && (target == 0.0 ==> r == Some(Outcome(true, Liquidity(coin))) && FindCoin(store.coins, coin.id).None?)
                && (target != 0.0 ==> r == Some(Outcome(false, amount.value))
                                      && FindCoin(store.coins, coin.id).Some?
                                      && Liquidity(store.coins[FindCoin(store.coins, coin.id).value]) == target)
      ensures WithdrawTarget(Liquidity(coin), amount).Some? && coin in old(store.coins) ==>
                var k := FindCoin(old(store.coins), coin.id).value;
                var target := WithdrawTarget(Liquidity(coin), amount).value;
                && store.coins == Withdrawn(old(store.coins), k, target)
                && store.transactions
                   == [Tx(txId, Actor(), coin.id, coin.name, Removal, RemovedAmount(coin, target), now)] + old(store.transactions)
      ensures WithdrawTarget(Liquidity(coin), amount).Some? && FindCoin(old(store.coins), coin.id).Some? ==>
                coins == CoinView(store.coins, Viewer()) && transactions == TxView(store.transactions, Viewer())
      ensures WithdrawTarget(Liquidity(coin), amount).Some? && FindCoin(old(store.coins), coin.id).None? ==>
                && r == Some(Outcome(false, 0.0))
                && store.coins == old(store.coins) && store.transactions == old(store.transactions)
                && coins == old(coins) && transactions == old(transactions)
    {
      var target := WithdrawTarget(Liquidity(coin), amount);
      if target.None? {
        return None;  // "Invalid amount"
      }
      ghost var before := store.coins;
      ghost var k: nat;
      if coin in before {
        k :| k < |before| && before[k] == coin;
        FindCoinUnique(before, k);
        if target.value != 0.0 {
          ScaleToTarget(coin, target.value);
        }
      }
      var outcome := UpdateCoinLiquidity(coin.id, target.value, txId, now);
      r := Some(outcome);
      if coin in before {
        if target.value == 0.0 {
          forall i | 0 <= i < |store.coins| ensures store.coins[i].id != coin.id {
            assert store.coins[i] == before[if i < k then i else i + 1];
          }
        } else {
          FindCoinUnique(store.coins, k);
        }
      }
    }

    /** `generateRandomPNL` with the multiplier drawn for each stored coin.
        With nobody signed in or no coins on display nothing changes;
        otherwise each of the user's coins gets its multiplier. */
    method GenerateRandomPnl(multipliers: seq<real>)
      requires store.Valid()
      requires |multipliers| == |store.coins|
      requires forall i :: 0 <= i < |store.coins| && Some(store.coins[i].userId) == Viewer() ==> PnlMultiplier(multipliers[i])
      modifies store`coins, this`coins
      ensures store.Valid()
      ensures user.None? || |old(coins)| == 0 ==> store.coins == old(store.coins) && coins == old(coins)
      ensures user.Some? && |old(coins)| > 0 ==>
                && store.coins == PnlAll(old(store.coins), user.value.id, multipliers)
                && coins == CoinView(store.coins, Viewer())
    {
      if user.None? || |coins| == 0 {
        return;  // "No coins found"
      }
      PnlAllWellFormed(store.coins, user.value.id, multipliers);
      store.coins := PnlAll(store.coins, user.value.id, multipliers);
      coins := CoinView(store.coins, Viewer());
    }
  }
}
