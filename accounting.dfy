/** Liquidity accounting of one coin: the withdraw guard and clamp of the
    coin card, the 25% / 50% / MAX shortcuts, the proportional shrink of a
    partial withdrawal, and the simulated profit-and-loss update. */
module Accounting {
  import opened Wrappers
  import opened Ledger

  /** Below this much liquidity a coin is deleted rather than kept. */
  const Epsilon: real := 0.001

  /** A whole number of cents. */
  function Cents(n: int): real {
    n as real / 100.0
  }

  /** `Number.parseFloat(x.toFixed(2))` on exact reals: the nearest multiple
      of 0.01, halves rounded away from zero. */
  function Round2(x: real): (r: real)
    ensures exists n :: r == Cents(n)
    ensures -0.005 <= r - x <= 0.005
    ensures x >= 0.0 ==> r >= 0.0
    ensures x <= 0.0 ==> r <= 0.0
  {
    if x >= 0.0 then
      var n := (x * 100.0 + 0.5).Floor;
      assert n as real / 100.0 == Cents(n);
      n as real / 100.0
    else
      var n := ((-x) * 100.0 + 0.5).Floor;
      assert -(n as real / 100.0) == Cents(-n);
      -(n as real / 100.0)
  }

  /** Rounding to cents is monotone. */
  lemma Round2Monotone(x: real, y: real)
    requires x <= y
    ensures Round2(x) <= Round2(y)
  {
    if x >= 0.0 {
      assert (x * 100.0 + 0.5).Floor <= (y * 100.0 + 0.5).Floor;
    } else if y < 0.0 {
      assert ((-y) * 100.0 + 0.5).Floor <= ((-x) * 100.0 + 0.5).Floor;
    }
  }

  /** Rounding to cents keeps a value that is already a whole number of cents. */
  lemma Round2Cents(n: int)
    ensures Round2(n as real / 100.0) == n as real / 100.0
  {
    var x := n as real / 100.0;
    if n >= 0 {
      assert x * 100.0 + 0.5 == n as real + 0.5;
      assert (x * 100.0 + 0.5).Floor == n;
    } else {
      assert (-x) * 100.0 + 0.5 == (-n) as real + 0.5;
      assert ((-x) * 100.0 + 0.5).Floor == -n;
    }
  }

  /** `handleSetPercentage`: MAX (percentage 1) copies the exact liquidity so
      that withdrawing it reaches the deletion path; the other shortcuts are
      rounded to cents. */
  function ShortcutAmount(percentage: real, liquidity: real): (amount: real)
    ensures percentage == 1.0 ==> amount == liquidity
    ensures percentage != 1.0 ==> -0.005 <= amount - percentage * liquidity <= 0.005
    ensures percentage != 1.0 ==> exists n :: amount == Cents(n)
  {
    if percentage == 1.0 then liquidity else Round2(percentage * liquidity)
  }

  /** The guard and clamp of `handleRemoveLiquidity`. The parsed amount is
      `None` when `parseFloat` gives NaN. A request that is not a number, not
      positive or above the liquidity is rejected; otherwise the target
      liquidity is what remains, set to exactly 0 when below `Epsilon`. */
  function WithdrawTarget(liquidity: real, amount: Option<real>): (target: Option<real>)
    ensures target.None? <==> amount.None? || amount.value <= 0.0 || amount.value > liquidity
    ensures target.Some? ==> 0.0 <= target.value < liquidity
    ensures target.Some? ==> (target.value == 0.0 <==> liquidity - amount.value < Epsilon)
    ensures target.Some? && target.value != 0.0 ==> target.value == liquidity - amount.value >= Epsilon
  {
    if amount.None? || amount.value <= 0.0 || amount.value > liquidity then None
    else
      var remaining := liquidity - amount.value;
      Some(if remaining < Epsilon then 0.0 else remaining)
  }

  /** The MAX shortcut always withdraws everything: its target is 0, which
      sends the coin down the deletion path. */
  lemma MaxShortcutEmptiesCoin(liquidity: real)
    requires liquidity > 0.0
    ensures WithdrawTarget(liquidity, Some(ShortcutAmount(1.0, liquidity))) == Some(0.0)
  {
  }

  /** The 25% and 50% shortcuts are accepted whenever the rounded amount is
      positive: rounding never pushes them above the liquidity. */
  lemma HalfShortcutAccepted(percentage: real, liquidity: real)
    requires percentage == 0.25 || percentage == 0.5
    requires liquidity > 0.0
    requires ShortcutAmount(percentage, liquidity) > 0.0
    ensures WithdrawTarget(liquidity, Some(ShortcutAmount(percentage, liquidity))).Some?
  {
    var x := percentage * liquidity;
    var a := ShortcutAmount(percentage, liquidity);
    assert a == ((x * 100.0 + 0.5).Floor as real) / 100.0;
    // a positive rounded amount means x reached half a cent, hence liquidity a cent
    assert (x * 100.0 + 0.5).Floor >= 1;
    assert x >= 0.005;
    assert liquidity >= 0.01;
    assert a <= liquidity;
  }

  /** A partial withdrawal multiplies investment and profit by the same
      ratio: liquidity scales by it and the investment : profit split is kept;
      every other field is unchanged. */
  function ScaleCoin(c: Coin, ratio: real): (d: Coin)
    ensures Liquidity(d) == Liquidity(c) * ratio
    ensures d.investment * c.profit == d.profit * c.investment
    ensures d.(investment := c.investment, profit := c.profit) == c
  {
    c.(investment := c.investment * ratio, profit := c.profit * ratio)
  }

  /** Scaling by `newLiquidity / currentLiquidity` lands exactly on the new
      liquidity, and a positive ratio keeps a healthy coin healthy. */
  lemma ScaleToTarget(c: Coin, newLiquidity: real)
    requires Healthy(c)
    requires newLiquidity > 0.0
    ensures Liquidity(ScaleCoin(c, newLiquidity / Liquidity(c))) == newLiquidity
    ensures Healthy(ScaleCoin(c, newLiquidity / Liquidity(c)))
  {
    var cur := Liquidity(c);
    var ratio := newLiquidity / cur;
    assert ratio > 0.0;
    assert cur * ratio == newLiquidity;
    assert c.investment * ratio > 0.0;
  }

  /** The map of `updateCoinLiquidity`: every coin with the id is scaled. */
  function ScaleMatching(coins: seq<Coin>, id: string, ratio: real): (r: seq<Coin>)
    ensures |r| == |coins|
    ensures forall i :: 0 <= i < |coins| ==>
              r[i] == if coins[i].id == id then ScaleCoin(coins[i], ratio) else coins[i]
  {
    seq(|coins|, i requires 0 <= i < |coins| =>
      if coins[i].id == id then ScaleCoin(coins[i], ratio) else coins[i])
  }

  /** With unique ids the map rewrites exactly the found coin; scaling it to a
      positive liquidity keeps the collection well formed. */
  lemma ScaleFoundCoin(coins: seq<Coin>, id: string, k: nat, newLiquidity: real)
    requires WellFormed(coins) && FindCoin(coins, id) == Some(k)
    requires newLiquidity > 0.0
    ensures var ratio := newLiquidity / Liquidity(coins[k]);
            ScaleMatching(coins, id, ratio) == coins[k := ScaleCoin(coins[k], ratio)]
    ensures WellFormed(ScaleMatching(coins, id, newLiquidity / Liquidity(coins[k])))
  {
    ScaleToTarget(coins[k], newLiquidity);
    var r := ScaleMatching(coins, id, newLiquidity / Liquidity(coins[k]));
    assert forall i :: 0 <= i < |coins| ==> r[i].id == coins[i].id;
  }

  /** How much liquidity leaves a coin asked to go down to `newLiquidity`:
      all of it on the deletion path, the difference otherwise. */
  function RemovedAmount(c: Coin, newLiquidity: real): (amount: real)
    ensures newLiquidity < Epsilon ==> amount == Liquidity(c)
    ensures newLiquidity >= Epsilon ==> amount + newLiquidity == Liquidity(c)
  {
    if newLiquidity < Epsilon then Liquidity(c) else Liquidity(c) - newLiquidity
  }

  /** The stored coins after `updateCoinLiquidity` on the coin at `k`: that coin
      dropped when the new liquidity is below `Epsilon`, scaled otherwise. */
  function Withdrawn(coins: seq<Coin>, k: nat, newLiquidity: real): (r: seq<Coin>)
    requires k < |coins| && Liquidity(coins[k]) != 0.0
  {
    if newLiquidity < Epsilon then coins[..k] + coins[k + 1..]
    else coins[k := ScaleCoin(coins[k], newLiquidity / Liquidity(coins[k]))]
  }

  // ---------------------------------------------------------------------
  // Simulated profit and loss

  /** The multipliers `generateRandomPNL` draws: `2 + 8 * random` for a profit,
      `-0.1 - 0.8 * random` for a loss, with `random` in [0, 1). */
  predicate PnlMultiplier(m: real) {
    (2.0 <= m < 10.0) || (-0.9 < m <= -0.1)
  }

  /** Profit becomes investment times the multiplier and pnl the rounded
      percentage `profit / investment * 100`, which is the multiplier in
      percent; the investment and every other field stay. */
  function ApplyPnl(c: Coin, m: real): (d: Coin)
    requires c.investment != 0.0
    ensures d.profit == c.investment * m
    ensures d.pnl == Round2(100.0 * m)
    ensures d.(profit := c.profit, pnl := c.pnl) == c
  {
    var profit := c.investment * m;
    assert profit / c.investment == m;
    c.(profit := profit, pnl := Round2(profit / c.investment * 100.0))
  }

  /** A drawn multiplier is above -1, so the coin keeps positive liquidity,
      and its pnl lies in [200, 1000] for a profit or [-90, -10] for a loss. */
  lemma PnlKeepsHealthy(c: Coin, m: real)
    requires Healthy(c)
    requires PnlMultiplier(m)
    ensures Healthy(ApplyPnl(c, m))
    ensures (200.0 <= ApplyPnl(c, m).pnl <= 1000.0) || (-90.0 <= ApplyPnl(c, m).pnl <= -10.0)
  {
    assert c.investment * (1.0 + m) > 0.0;
    if m >= 2.0 {
      Round2Cents(20000);
      Round2Cents(100000);
      Round2Monotone(200.0, 100.0 * m);
      Round2Monotone(100.0 * m, 1000.0);
    } else {
      Round2Cents(-9000);
      Round2Cents(-1000);
      Round2Monotone(-90.0, 100.0 * m);
      Round2Monotone(100.0 * m, -10.0);
    }
  }

  /** The map of `generateRandomPNL`: the acting user's coins get the
      multiplier drawn for their position, all other coins are kept. */
  function PnlAll(coins: seq<Coin>, userId: string, multipliers: seq<real>): (r: seq<Coin>)
    requires |multipliers| == |coins|
    requires forall i :: 0 <= i < |coins| && coins[i].userId == userId ==> coins[i].investment != 0.0
    ensures |r| == |coins|
    ensures forall i :: 0 <= i < |coins| ==>
              r[i] == if coins[i].userId == userId then ApplyPnl(coins[i], multipliers[i]) else coins[i]
  {
    seq(|coins|, i requires 0 <= i < |coins| =>
      if coins[i].userId == userId then ApplyPnl(coins[i], multipliers[i]) else coins[i])
  }

  /** The PNL batch keeps the coin collection well formed. */
  lemma PnlAllWellFormed(coins: seq<Coin>, userId: string, multipliers: seq<real>)
    requires WellFormed(coins) && |multipliers| == |coins|
    requires forall i :: 0 <= i < |coins| && coins[i].userId == userId ==> PnlMultiplier(multipliers[i])
    ensures WellFormed(PnlAll(coins, userId, multipliers))
  {
    var r := PnlAll(coins, userId, multipliers);
    forall i | 0 <= i < |coins| ensures Healthy(r[i]) && r[i].id == coins[i].id {
      if coins[i].userId == userId {
        PnlKeepsHealthy(coins[i], multipliers[i]);
      }
    }
  }
}
