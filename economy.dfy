/**
 * The money ledger of the FX engine.  Spending succeeds only with sufficient
 * funds; adding is unconditional; income is credited only while the economy
 * is running.  The compare-and-set retry loop is one atomic step here (a
 * sequential model has no competing writer), and the scheduler thread that
 * calls GenerateIncome once a second is not modelled.
 */
module Economy {
  import opened Numerics
  import opened Wrappers
  import opened Events

  /** The balance after a run of spend attempts, and which of them succeeded. */
  datatype SpendOutcome = SpendOutcome(balance: int, succeeded: seq<bool>)

  /** Spend attempts made one after another, each against the balance the previous ones left. */
  function Spends(balance: int, amounts: seq<int>): (r: SpendOutcome)
    ensures |r.succeeded| == |amounts|
    decreases amounts
  {
    if amounts == [] then SpendOutcome(balance, [])
    else
      var ok := balance >= amounts[0];
      var rest := Spends(if ok then balance - amounts[0] else balance, amounts[1..]);
      SpendOutcome(rest.balance, [ok] + rest.succeeded)
  }

  /** The sum of the amounts whose attempt succeeded. */
  function SucceededTotal(amounts: seq<int>, succeeded: seq<bool>): int
    requires |succeeded| == |amounts|
  {
    if amounts == [] then 0
    else (if succeeded[0] then amounts[0] else 0) + SucceededTotal(amounts[1..], succeeded[1..])
  }

  /** The number of `true` entries. */
  function CountTrue(bs: seq<bool>): (n: nat)
    ensures n <= |bs|
  {
    if bs == [] then 0 else (if bs[0] then 1 else 0) + CountTrue(bs[1..])
  }

  /** `n` copies of one amount. */
  function Repeat(amount: int, n: nat): (r: seq<int>)
    ensures |r| == n
    ensures forall i :: 0 <= i < n ==> r[i] == amount
  {
    if n == 0 then [] else [amount] + Repeat(amount, n - 1)
  }

  /** The ledger balances: the final balance is the initial one less the successful spends. */
  lemma {:induction false} SpendsLedger(balance: int, amounts: seq<int>)
    ensures Spends(balance, amounts).balance == balance - SucceededTotal(amounts, Spends(balance, amounts).succeeded)
    decreases amounts
  {
    if amounts != [] {
      var ok := balance >= amounts[0];
      var next := if ok then balance - amounts[0] else balance;
      SpendsLedger(next, amounts[1..]);
      assert Spends(balance, amounts).succeeded[1..] == Spends(next, amounts[1..]).succeeded;
    }
  }

  /** With non-negative amounts, no run of spends takes a non-negative balance below zero. */
  lemma {:induction false} SpendsNeverOverdraw(balance: int, amounts: seq<int>)
    requires balance >= 0
    requires forall i :: 0 <= i < |amounts| ==> amounts[i] >= 0
    ensures 0 <= Spends(balance, amounts).balance <= balance
    decreases amounts
  {
    if amounts != [] {
      var next := if balance >= amounts[0] then balance - amounts[0] else balance;
      SpendsNeverOverdraw(next, amounts[1..]);
    }
  }

  /**
   * `n` attempts to spend the same positive amount: the successes are as many
   * as the balance covers (all `n`, or fewer when the next one would
   * overdraw), and the balance drops by that many times the amount.
   */
  lemma {:induction false} UniformSpends(balance: int, amount: int, n: nat)
    requires balance >= 0 && amount > 0
    ensures var r := Spends(balance, Repeat(amount, n));
      && r.balance == balance - CountTrue(r.succeeded) * amount
      && 0 <= r.balance
      && (CountTrue(r.succeeded) == n || r.balance < amount)
  {
    if n == 0 {
      assert Repeat(amount, n) == [];
    } else {
      var ok := balance >= amount;
      var next := if ok then balance - amount else balance;
      UniformSpends(next, amount, n - 1);
      var rest := Spends(next, Repeat(amount, n - 1));
      assert Repeat(amount, n) == [amount] + Repeat(amount, n - 1);
      SpendsStep(balance, amount, Repeat(amount, n - 1));
      var r := Spends(balance, Repeat(amount, n));
      assert r == SpendOutcome(rest.balance, [ok] + rest.succeeded);
      var c := CountTrue(rest.succeeded);
      CountTrueCons(ok, rest.succeeded);
      if ok {
        assert CountTrue(r.succeeded) == c + 1;
        assert rest.balance == balance - amount - c * amount;
        MulSucc(c, amount);
      } else {
        NoSpendBelowAmount(balance, amount, n - 1);
        assert c == 0 by {
          CountFalse(n - 1);
        }
      }
    }
  }

  lemma MulSucc(c: int, amount: int)
    ensures (c + 1) * amount == c * amount + amount
  {
  }

  lemma {:induction false} CountFalse(n: nat)
    ensures CountTrue(seq(n, _ => false)) == 0
  {
    if n > 0 {
      assert seq(n, _ => false)[1..] == seq(n - 1, _ => false);
      CountFalse(n - 1);
    }
  }

  /** A balance below the amount stays put: every attempt fails. */
  lemma {:induction false} NoSpendBelowAmount(balance: int, amount: int, n: nat)
    requires balance < amount
    ensures Spends(balance, Repeat(amount, n)) == SpendOutcome(balance, seq(n, _ => false))
  {
    if n > 0 {
      NoSpendBelowAmount(balance, amount, n - 1);
      assert Repeat(amount, n) == [amount] + Repeat(amount, n - 1);
      SpendsStep(balance, amount, Repeat(amount, n - 1));
      assert [false] + seq(n - 1, _ => false) == seq(n, _ => false);
    }
  }

  lemma CountTrueCons(b: bool, bs: seq<bool>)
    ensures CountTrue([b] + bs) == (if b then 1 else 0) + CountTrue(bs)
  {
    assert ([b] + bs)[1..] == bs;
  }

  /** Spending from a list is spending its head and then the rest. */
  lemma SpendsStep(balance: int, amount: int, more: seq<int>)
    ensures Spends(balance, [amount] + more)
         == var rest := Spends(if balance >= amount then balance - amount else balance, more);
            SpendOutcome(rest.balance, [balance >= amount] + rest.succeeded)
  {
    assert ([amount] + more)[1..] == more;
  }

  /** A single attempt. */
  lemma SpendOnce(balance: int, amount: int)
    ensures Spends(balance, [amount])
         == SpendOutcome(if balance >= amount then balance - amount else balance, [balance >= amount])
  {
    assert [amount][1..] == [];
  }

  class EconomyManager {
    var money: int
    const incomePerSecond: int
    var running: bool

    /** Starts with the configured money and income, not yet running. */
    constructor (startingMoney: int, incomePerSecond: int)
      ensures money == startingMoney && this.incomePerSecond == incomePerSecond && !running
    {
      money := startingMoney;
      this.incomePerSecond := incomePerSecond;
      running := false;
    }

    /**
     * Starts the income and returns the notification of the current balance;
     * a no-op with no notification when already running.
     */
    method Start() returns (notice: Option<Event>)
      modifies this`running
      ensures running
      ensures old(running) ==> notice == None
      ensures !old(running) ==> notice == Some(MoneyChanged(money))
    {
      if running {
        return None;
      }
      running := true;
      notice := Some(MoneyChanged(money));
    }

    method Pause()
      modifies this`running
      ensures !running
    {
      running := false;
    }

    /** Starts the income only when it is not running. */
    method Resume() returns (notice: Option<Event>)
      modifies this`running
      ensures running
      ensures old(running) ==> notice == None
      ensures !old(running) ==> notice == Some(MoneyChanged(money))
    {
      notice := None;
      if !running {
        notice := Start();
      }
    }

    method Stop()
      modifies this`running
      ensures !running
    {
      running := false;
    }

    /**
     * One income tick: credits `incomePerSecond` only while running, and then
     * returns the money notification the user interface is sent.
     */
    method GenerateIncome() returns (notice: Option<Event>)
      modifies this`money
      ensures !running ==> money == old(money) && notice == None
      ensures running ==> money == old(money) + incomePerSecond && notice == Some(MoneyChanged(money))
    {
      notice := None;
      if !running {
        return;
      }
      money := money + incomePerSecond;
      notice := Some(MoneyChanged(money));
    }

    /**
     * Spends `amount` if the balance covers it.  The method is one step of
     * `Spends`, so the ledger lemmas above apply to any run of calls.
     */
    method SpendMoney(amount: int) returns (ok: bool, notice: Option<Event>)
      modifies this`money
      ensures ok <==> old(money) >= amount
      ensures money == if ok then old(money) - amount else old(money)
      ensures Spends(old(money), [amount]) == SpendOutcome(money, [ok])
      ensures notice == if ok then Some(MoneyChanged(money)) else None
    {
      SpendOnce(money, amount);
      var currentMoney := money;
      if currentMoney < amount {
        return false, None;
      }
      money := currentMoney - amount;
      ok := true;
      notice := Some(MoneyChanged(money));
    }

    /** Adds `amount` with no sign check and returns the notification. */
    method AddMoney(amount: int) returns (notice: Event)
      modifies this`money
      ensures money == old(money) + amount
      ensures notice == MoneyChanged(money)
    {
      money := money + amount;
      notice := MoneyChanged(money);
    }

    function CanAfford(cost: int): (r: bool)
      reads this
      ensures r <==> Spends(money, [cost]).succeeded == [true]
    {
      SpendOnce(money, cost);
      money >= cost
    }
  }
}
