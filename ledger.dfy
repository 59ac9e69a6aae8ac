/** The records of the local ledger (the `autorug_coins` and
    `autorug_transactions` collections), the per-user views the dashboard
    exposes, and the analytics reductions over transactions.
    Amounts are SOL as reals; times are milliseconds since the epoch. */
module Ledger {
  import opened Wrappers
  import opened Seqs

  datatype SocialLinks = SocialLinks(
    website: Option<string>, telegram: Option<string>, discord: Option<string>,
    reddit: Option<string>, twitter: Option<string>, tiktok: Option<string>)

  const NoSocialLinks := SocialLinks(None, None, None, None, None, None)

  datatype Coin = Coin(
    id: string, userId: string, name: string, image: string,
    investment: real, profit: real, platform: string,
    createdAt: int, pnl: real, socialLinks: SocialLinks)

  datatype TxKind = Creation | Removal

  datatype Tx = Tx(
    id: string, userId: string, coinId: string, coinName: string,
    kind: TxKind, amount: real, timestamp: int)

  /** A transaction before `logTransaction` gives it an id and a timestamp. */
  datatype TxDraft = TxDraft(userId: string, coinId: string, coinName: string, kind: TxKind, amount: real)
  {
    function Stamp(id: string, timestamp: int): Tx {
      Tx(id, userId, coinId, coinName, kind, amount, timestamp)
    }
  }

  /** A coin's liquidity is never stored: it is always investment + profit. */
  function Liquidity(c: Coin): real {
    c.investment + c.profit
  }

  // ---------------------------------------------------------------------
  // Coins

  function IdIs(id: string): Coin -> bool { (c: Coin) => c.id == id }
  function IdIsNot(id: string): Coin -> bool { (c: Coin) => c.id != id }
  function OwnedBy(userId: string): Coin -> bool { (c: Coin) => c.userId == userId }

  predicate UniqueIds(coins: seq<Coin>) {
    forall i, j :: 0 <= i < j < |coins| ==> coins[i].id != coins[j].id
  }

  /** Every coin the ledger operations produce has a positive investment
      and a positive liquidity. */
  predicate Healthy(c: Coin) {
    c.investment > 0.0 && Liquidity(c) > 0.0
  }

  /** What the stored coin collection keeps between operations. */
  predicate WellFormed(coins: seq<Coin>) {
    UniqueIds(coins) && forall i :: 0 <= i < |coins| ==> Healthy(coins[i])
  }

  /** `allCoins.find(c => c.id === coinId)`, as the index of the match. */
  function FindCoin(coins: seq<Coin>, id: string): (r: Option<nat>)
    ensures r.None? <==> forall i :: 0 <= i < |coins| ==> coins[i].id != id
    ensures r.Some? ==> r.value < |coins| && coins[r.value].id == id
    ensures r.Some? ==> forall i :: 0 <= i < r.value ==> coins[i].id != id
  {
    FirstIndex(IdIs(id), coins)
  }

  /** With unique ids, the coin found for an id is the only one carrying it. */
  lemma FindCoinUnique(coins: seq<Coin>, k: nat)
    requires UniqueIds(coins) && k < |coins|
    ensures FindCoin(coins, coins[k].id) == Some(k)
  {
  }

  /** `allCoins.filter(coin => coin.id !== coinId)` */
  function RemoveCoin(coins: seq<Coin>, id: string): (r: seq<Coin>)
    ensures forall i :: 0 <= i < |r| ==> r[i].id != id && r[i] in coins
    ensures forall i :: 0 <= i < |coins| && coins[i].id != id ==> coins[i] in r
  {
    FilterMembers(IdIsNot(id), coins);
    Filter(IdIsNot(id), coins)
  }

  /** Removing the coin found at k drops exactly that coin and keeps every
      other coin in its order. */
  lemma RemoveFoundCoin(coins: seq<Coin>, id: string, k: nat)
    requires UniqueIds(coins) && FindCoin(coins, id) == Some(k)
    ensures RemoveCoin(coins, id) == coins[..k] + coins[k + 1..]
  {
    FilterDropsOne(IdIsNot(id), coins, k);
  }

  /** Removing an id that is not stored changes nothing. */
  lemma RemoveAbsentCoin(coins: seq<Coin>, id: string)
    requires FindCoin(coins, id).None?
    ensures RemoveCoin(coins, id) == coins
  {
    FilterKeepsAll(IdIsNot(id), coins);
  }

  lemma {:induction false} WellFormedWithout(coins: seq<Coin>, k: nat)
    requires WellFormed(coins) && k < |coins|
    ensures WellFormed(coins[..k] + coins[k + 1..])
  {
    var r := coins[..k] + coins[k + 1..];
    forall i | 0 <= i < |r| ensures r[i] == coins[if i < k then i else i + 1] {
    }
  }

  /** The coins a signed-in user sees: `allCoins.filter(coin => coin.userId === user?.id)`;
      with nobody signed in, no record matches. */
  function CoinView(coins: seq<Coin>, userId: Option<string>): (r: seq<Coin>)
    ensures forall i :: 0 <= i < |r| ==> userId.Some? && r[i].userId == userId.value && r[i] in coins
    ensures userId.Some? ==> forall i :: 0 <= i < |coins| && coins[i].userId == userId.value ==> coins[i] in r
  {
    if userId.Some? then
      FilterMembers(OwnedBy(userId.value), coins);
      Filter(OwnedBy(userId.value), coins)
    else []
  }

  // ---------------------------------------------------------------------
  // Transactions

  function TxIdIsNot(id: string): Tx -> bool { (t: Tx) => t.id != id }
  function TxOwnedBy(userId: string): Tx -> bool { (t: Tx) => t.userId == userId }

  /** `allTransactions.filter(tx => tx.id !== transactionId)` */
  function DeleteTx(txs: seq<Tx>, id: string): (r: seq<Tx>)
    ensures forall i :: 0 <= i < |r| ==> r[i].id != id && r[i] in txs
    ensures forall i :: 0 <= i < |txs| && txs[i].id != id ==> txs[i] in r
  {
    FilterMembers(TxIdIsNot(id), txs);
    Filter(TxIdIsNot(id), txs)
  }

  /** Deleting an id that is not logged changes nothing. */
  lemma DeleteAbsentTx(txs: seq<Tx>, id: string)
    requires forall i :: 0 <= i < |txs| ==> txs[i].id != id
    ensures DeleteTx(txs, id) == txs
  {
    FilterKeepsAll(TxIdIsNot(id), txs);
  }

  /** Deleting the one record that carries an id keeps the others in order. */
  lemma DeleteOnlyTx(txs: seq<Tx>, k: nat)
    requires k < |txs|
    requires forall i :: 0 <= i < |txs| && i != k ==> txs[i].id != txs[k].id
    ensures DeleteTx(txs, txs[k].id) == txs[..k] + txs[k + 1..]
  {
    FilterDropsOne(TxIdIsNot(txs[k].id), txs, k);
  }

  /** The records of one user, in stored order. */
  function TxsOf(txs: seq<Tx>, userId: string): seq<Tx> {
    Filter(TxOwnedBy(userId), txs)
  }

  predicate NewestFirst(s: seq<Tx>) {
    forall i, j :: 0 <= i < j < |s| ==> s[i].timestamp >= s[j].timestamp
  }

  /** Insertion step of a stable newest-first sort: `t` goes before the first
      record that is not newer than it. */
  function Insert(t: Tx, s: seq<Tx>): (r: seq<Tx>)
    ensures multiset(r) == multiset(s) + multiset{t}
    ensures |r| == |s| + 1
    decreases |s|
  {
    if |s| == 0 || s[0].timestamp <= t.timestamp then
      [t] + s
    else
      assert s == [s[0]] + s[1..];
      [s[0]] + Insert(t, s[1..])
  }

  lemma {:induction false} InsertNewestFirst(t: Tx, s: seq<Tx>)
    requires NewestFirst(s)
    ensures NewestFirst(Insert(t, s))
    decreases |s|
  {
    if |s| > 0 && s[0].timestamp > t.timestamp {
      var rest := Insert(t, s[1..]);
      InsertNewestFirst(t, s[1..]);
      assert Insert(t, s) == [s[0]] + rest;
      forall j | 0 <= j < |rest| ensures s[0].timestamp >= rest[j].timestamp {
        assert rest[j] in multiset(rest);
        assert rest[j] == t || rest[j] in s[1..];
      }
    }
  }

  /** `sort((a, b) => b.timestamp - a.timestamp)`: a permutation, newest first. */
  function SortNewestFirst(s: seq<Tx>): (r: seq<Tx>)
    ensures NewestFirst(r)
    ensures multiset(r) == multiset(s)
    ensures |r| == |s|
    decreases |s|
  {
    if |s| == 0 then []
    else
      assert s == [s[0]] + s[1..];
      InsertNewestFirst(s[0], SortNewestFirst(s[1..]));
      Insert(s[0], SortNewestFirst(s[1..]))
  }

  /** The transaction list the dashboard exposes: only the signed-in user's
      records, newest first; nothing when nobody is signed in. */
  function TxView(txs: seq<Tx>, userId: Option<string>): (r: seq<Tx>)
    ensures NewestFirst(r)
    ensures forall i :: 0 <= i < |r| ==> userId.Some? && r[i].userId == userId.value && r[i] in txs
    ensures userId.Some? ==> multiset(r) == multiset(TxsOf(txs, userId.value))
  {
    if userId.Some? then
      var mine := TxsOf(txs, userId.value);
      FilterMembers(TxOwnedBy(userId.value), txs);
      var r := SortNewestFirst(mine);
      assert forall i :: 0 <= i < |r| ==> r[i] in mine by {
        forall i | 0 <= i < |r| ensures r[i] in mine {
          assert r[i] in multiset(r);
        }
      }
      r
    else []
  }

  // ---------------------------------------------------------------------
  // Analytics

  const ThirtyDaysMs: int := 30 * 24 * 60 * 60 * 1000

  /** `filter(tx => tx.type === kind).reduce((sum, tx) => sum + tx.amount, 0)` */
  function SumOfKind(txs: seq<Tx>, kind: TxKind): real
    decreases |txs|
  {
    if |txs| == 0 then 0.0
    else (if txs[0].kind == kind then txs[0].amount else 0.0) + SumOfKind(txs[1..], kind)
  }

  /** Number of creation records strictly newer than `cutoff`. */
  function CountCreationsAfter(txs: seq<Tx>, cutoff: int): nat
    decreases |txs|
  {
    if |txs| == 0 then 0
    else (if txs[0].kind == Creation && txs[0].timestamp > cutoff then 1 else 0)
         + CountCreationsAfter(txs[1..], cutoff)
  }

  datatype Analytics = Analytics(
    totalLiquidityRemoved: real, totalLiquidityAdded: real,
    coinsCreatedLast30Days: nat, liquidityRemovedChangePercent: int)

  /** The dashboard's starting analytics, before transactions are loaded. */
  const InitialAnalytics := Analytics(0.0, 0.0, 0, 15)

  /** The analytics block over the user's transaction view at time `now`;
      the change percentage is a fixed 15. */
  function ComputeAnalytics(view: seq<Tx>, now: int): Analytics {
    Analytics(SumOfKind(view, Removal), SumOfKind(view, Creation),
              CountCreationsAfter(view, now - ThirtyDaysMs), 15)
  }

  /** A total over a kind whose amounts are all non-negative is non-negative. */
  lemma {:induction false} SumOfKindNonNegative(txs: seq<Tx>, kind: TxKind)
    requires forall i :: 0 <= i < |txs| && txs[i].kind == kind ==> txs[i].amount >= 0.0
    ensures SumOfKind(txs, kind) >= 0.0
    decreases |txs|
  {
    if |txs| > 0 {
      SumOfKindNonNegative(txs[1..], kind);
    }
  }

  /** The recent-creations count never exceeds the number of records. */
  lemma {:induction false} CountBounded(txs: seq<Tx>, cutoff: int)
    ensures CountCreationsAfter(txs, cutoff) <= |txs|
    decreases |txs|
  {
    if |txs| > 0 {
      CountBounded(txs[1..], cutoff);
    }
  }

  lemma {:induction false} InsertKeepsSum(t: Tx, s: seq<Tx>, kind: TxKind)
    ensures SumOfKind(Insert(t, s), kind) == SumOfKind([t], kind) + SumOfKind(s, kind)
    decreases |s|
  {
    var r := Insert(t, s);
    if |s| == 0 || s[0].timestamp <= t.timestamp {
      assert r[1..] == s;
    } else {
      InsertKeepsSum(t, s[1..], kind);
      assert r[1..] == Insert(t, s[1..]);
    }
  }

  lemma {:induction false} InsertKeepsCount(t: Tx, s: seq<Tx>, cutoff: int)
    ensures CountCreationsAfter(Insert(t, s), cutoff) == CountCreationsAfter([t], cutoff) + CountCreationsAfter(s, cutoff)
    decreases |s|
  {
    var r := Insert(t, s);
    if |s| == 0 || s[0].timestamp <= t.timestamp {
      assert r[1..] == s;
    } else {
      InsertKeepsCount(t, s[1..], cutoff);
      assert r[1..] == Insert(t, s[1..]);
    }
  }

  /** Sorting does not change a total: the sums are order-independent. */
  lemma {:induction false} SortKeepsSum(s: seq<Tx>, kind: TxKind)
    ensures SumOfKind(SortNewestFirst(s), kind) == SumOfKind(s, kind)
    decreases |s|
  {
    if |s| > 0 {
      SortKeepsSum(s[1..], kind);
      InsertKeepsSum(s[0], SortNewestFirst(s[1..]), kind);
    }
  }

  /** Sorting does not change the recent-creations count. */
  lemma {:induction false} SortKeepsCount(s: seq<Tx>, cutoff: int)
    ensures CountCreationsAfter(SortNewestFirst(s), cutoff) == CountCreationsAfter(s, cutoff)
    decreases |s|
  {
    if |s| > 0 {
      SortKeepsCount(s[1..], cutoff);
      InsertKeepsCount(s[0], SortNewestFirst(s[1..]), cutoff);
    }
  }

  /** The analytics of the sorted view equal those of the user's records in
      stored order. */
  lemma AnalyticsIgnoreOrder(txs: seq<Tx>, userId: string, now: int)
    ensures ComputeAnalytics(TxView(txs, Some(userId)), now) == ComputeAnalytics(TxsOf(txs, userId), now)
  {
    var mine := TxsOf(txs, userId);
    SortKeepsSum(mine, Removal);
    SortKeepsSum(mine, Creation);
    SortKeepsCount(mine, now - ThirtyDaysMs);
  }

  /** Logging a record for the user raises the matching total by its amount,
      leaves the other total alone, and counts one more recent creation when
      it is a creation newer than thirty days. */
  lemma LogRaisesTotals(t: Tx, txs: seq<Tx>, now: int)
    ensures var before := ComputeAnalytics(TxView(txs, Some(t.userId)), now);
            var after := ComputeAnalytics(TxView([t] + txs, Some(t.userId)), now);
            && after.totalLiquidityRemoved == before.totalLiquidityRemoved + (if t.kind == Removal then t.amount else 0.0)
            && after.totalLiquidityAdded == before.totalLiquidityAdded + (if t.kind == Creation then t.amount else 0.0)
            && after.coinsCreatedLast30Days
               == before.coinsCreatedLast30Days + (if t.kind == Creation && t.timestamp > now - ThirtyDaysMs then 1 else 0)
  {
    AnalyticsIgnoreOrder(txs, t.userId, now);
    AnalyticsIgnoreOrder([t] + txs, t.userId, now);
    assert ([t] + txs)[1..] == txs;
    var mine := TxsOf([t] + txs, t.userId);
    assert mine == [t] + TxsOf(txs, t.userId);
    assert mine[1..] == TxsOf(txs, t.userId);
  }
}
