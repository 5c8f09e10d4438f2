/**
 * The older engine's `ResourceManager`: the money counter, the periodic
 * income and the spend/add operations the game loop calls.  The counter is an
 * `AtomicInteger` updated by the income thread and the game thread; here each
 * update is one atomic step, so the compare-and-set retry of `spendMoney` is
 * a single test-and-subtract.  Whether an `onMoneyChanged` callback was given
 * is a flag, and each operation returns whether it posted that callback.
 * Sprite loading is not modelled.
 */
module LegacyResources {
  import opened Numerics
  import opened LegacyConfig
  import opened Economy

  /** The income period in milliseconds, `(long) (MONEY_TICK_SEC * 1000)`: 500. */
  const TICK_PERIOD_MS: int := TruncateToInt(MONEY_TICK_SEC * 1000.0)

  /** The money one income tick adds, `(int) MONEY_PER_TICK`: 5. */
  const TICK_INCOME: int := TruncateToInt(MONEY_PER_TICK)

  /**
   * The number of income ticks a `scheduleAtFixedRate(task, period, period)`
   * has run `elapsed` milliseconds after it was started: the first runs one
   * period in.
   */
  function TicksBy(elapsed: nat): (n: nat)
    ensures n * TICK_PERIOD_MS <= elapsed < (n + 1) * TICK_PERIOD_MS
  {
    elapsed / TICK_PERIOD_MS
  }

  /** One change to the counter: an income tick, a spend attempt or an addition. */
  datatype MoneyOp = IncomeTick | Spend(cost: int) | Add(amount: int)

  /** The counter after one operation. */
  function Apply(money: int, op: MoneyOp): int
  {
    match op
    case IncomeTick => money + TICK_INCOME
    case Spend(cost) => if money < cost then money else money - cost
    case Add(amount) => if amount > 0 then money + amount else money
  }

  /** The counter after a run of operations. */
  function ApplyAll(money: int, ops: seq<MoneyOp>): int
    decreases |ops|
  {
    if ops == [] then money else ApplyAll(Apply(money, ops[0]), ops[1..])
  }

  /**
   * No operation takes the counter below zero, whatever its argument: a spend
   * is refused unless the balance covers it, and only positive additions are
   * made.
   */
  lemma {:induction false} NeverNegative(money: int, ops: seq<MoneyOp>)
    requires money >= 0
    ensures ApplyAll(money, ops) >= 0
    decreases |ops|
  {
    if ops != [] {
      var next := Apply(money, ops[0]);
      assert next >= 0;
      NeverNegative(next, ops[1..]);
    }
  }

  /** The spends alone: the counter follows the economy's spend ledger. */
  function SpendOps(costs: seq<int>): (ops: seq<MoneyOp>)
    ensures |ops| == |costs|
    ensures forall i :: 0 <= i < |costs| ==> ops[i] == Spend(costs[i])
  {
    if costs == [] then [] else [Spend(costs[0])] + SpendOps(costs[1..])
  }

  /** A run of spend attempts leaves the counter where the spend ledger says. */
  lemma {:induction false} SpendsFollowLedger(money: int, costs: seq<int>)
    ensures ApplyAll(money, SpendOps(costs)) == Spends(money, costs).balance
    decreases |costs|
  {
    if costs != [] {
      var next := Apply(money, Spend(costs[0]));
      assert SpendOps(costs)[1..] == SpendOps(costs[1..]);
      SpendsFollowLedger(next, costs[1..]);
    }
  }

  /** `n` income ticks in a row add `n` times the tick income. */
  function Ticks(n: nat): (ops: seq<MoneyOp>)
    ensures |ops| == n && forall i :: 0 <= i < n ==> ops[i] == IncomeTick
  {
    if n == 0 then [] else [IncomeTick] + Ticks(n - 1)
  }

  lemma {:induction false} TicksAddIncome(money: int, n: nat)
    ensures ApplyAll(money, Ticks(n)) == money + n * TICK_INCOME
    decreases n
  {
    if n > 0 {
      assert Ticks(n)[1..] == Ticks(n - 1);
      TicksAddIncome(money + TICK_INCOME, n - 1);
    }
  }

  class ResourceManager {
    var money: int
    /** The income scheduler has not been shut down. */
    var generating: bool
    /** An `onMoneyChanged` callback was passed to the constructor. */
    const hasListener: bool

    /** The counter is never negative. */
    predicate Valid()
      reads this`money
    {
      money >= 0
    }

    /** Starting money, and the income schedule started. */
    constructor (hasListener: bool)
      ensures money == STARTING_MONEY && generating && this.hasListener == hasListener
      ensures Valid()
    {
      money := STARTING_MONEY;
      generating := true;
      this.hasListener := hasListener;
    }

    /**
     * One firing of the income task: the tick income is added and the
     * callback posted.  A shut-down scheduler fires no more.
     */
    method IncomeTick() returns (notified: bool)
      modifies this`money
      ensures generating ==> money == Apply(old(money), MoneyOp.IncomeTick) && notified == hasListener
      ensures !generating ==> money == old(money) && !notified
      ensures old(Valid()) ==> Valid()
    {
      if !generating {
        return false;
      }
      money := money + TICK_INCOME;
      notified := hasListener;
    }

    function GetMoney(): (r: int)
      reads this`money
      ensures Valid() ==> r >= 0
    {
      money
    }

    /** `canAfford`: exactly when a spend of `cost` would succeed now. */
    function CanAfford(cost: int): (r: bool)
      reads this`money
      ensures r <==> Spends(money, [cost]).succeeded == [true]
    {
      SpendOnce(money, cost);
      money >= cost
    }

    /**
     * `spendMoney`: refused, with the counter untouched, when it does not
     * cover the cost; otherwise the cost is taken and the callback posted.
     */
    method SpendMoney(cost: int) returns (ok: bool, notified: bool)
      modifies this`money
      ensures ok <==> old(money) >= cost
      ensures money == Apply(old(money), Spend(cost))
      ensures Spends(old(money), [cost]) == SpendOutcome(money, [ok])
      ensures notified <==> ok && hasListener
      ensures old(Valid()) ==> Valid()
    {
      SpendOnce(money, cost);
      var currentMoney := money;
      if currentMoney < cost {
        return false, false;
      }
      money := currentMoney - cost;
      ok := true;
      notified := hasListener;
    }

    /** `addMoney`: only a positive amount is added and announced. */
    method AddMoney(amount: int) returns (notified: bool)
      modifies this`money
      ensures money == Apply(old(money), Add(amount))
      ensures amount > 0 ==> money == old(money) + amount && notified == hasListener
      ensures amount <= 0 ==> money == old(money) && !notified
      ensures old(Valid()) ==> Valid()
    {
      notified := false;
      if amount > 0 {
        money := money + amount;
        notified := hasListener;
      }
    }

    /** `shutdown`: the income task fires no more. */
    method Shutdown()
      modifies this`generating
      ensures !generating
    {
      generating := false;
    }
  }
}
