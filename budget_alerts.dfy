/**
 * The budget-alert sweep (`checkBudgetAlert` in lib/inngest/functions.js)
 * over an in-memory copy of the budget, account and transaction tables.
 *
 * Amounts are integers in one fixed unit, so the percentage gate is decided
 * exactly. Each budget's sweep step reads one clock value `now`, and the
 * store errors that the step's `catch` swallows are given as `faults`:
 * the ids of the budgets whose step throws.
 */
module BudgetAlerts {
  import opened Wrappers
  import opened Calendar

  datatype TransactionType = Income | Expense

  datatype Account = Account(id: string, userId: string, isDefault: bool)

  datatype Transaction = Transaction(
    userId: string, accountId: string, kind: TransactionType, amount: int, date: Date)

  datatype Budget = Budget(id: string, userId: string, amount: int, lastAlertSent: Option<Date>)

  /** A row of the sweep's snapshot: a budget joined with its user's default account. */
  datatype BudgetRow = BudgetRow(budget: Budget, defaultAccount: Option<Account>)

  /** Every budget id occurs once (the table's primary key). */
  ghost predicate DistinctIds(budgets: seq<Budget>)
  {
    forall i, j :: 0 <= i < j < |budgets| ==> budgets[i].id != budgets[j].id
  }

  predicate IsDefaultOf(a: Account, userId: string)
  {
    a.userId == userId && a.isDefault
  }

  /**
   * `budget.user.accounts[0]` where the user's accounts are filtered by
   * `isDefault: true`: the first default account of the user, in table order.
   */
  function DefaultAccount(accounts: seq<Account>, userId: string): (r: Option<Account>)
    ensures r.None? <==> forall k :: 0 <= k < |accounts| ==> !IsDefaultOf(accounts[k], userId)
    ensures r.Some? ==>
              exists k :: 0 <= k < |accounts| && accounts[k] == r.value
                && IsDefaultOf(r.value, userId)
                && forall j :: 0 <= j < k ==> !IsDefaultOf(accounts[j], userId)
  {
    if accounts == [] then None
    else if IsDefaultOf(accounts[0], userId) then
      Some(accounts[0])
    else
      var r := DefaultAccount(accounts[1..], userId);
      assert forall k :: 1 <= k < |accounts| ==> accounts[k] == accounts[1..][k - 1];
      r
  }

  /** `db.budget.findMany` with each user's default accounts: the snapshot the sweep walks. */
  function FetchBudgets(budgets: seq<Budget>, accounts: seq<Account>): (rows: seq<BudgetRow>)
    ensures |rows| == |budgets|
    ensures forall k :: 0 <= k < |rows| ==> rows[k].budget == budgets[k]
    ensures forall k :: 0 <= k < |rows| ==>
      rows[k].defaultAccount == DefaultAccount(accounts, budgets[k].userId)
  {
    seq(|budgets|, k requires 0 <= k < |budgets| =>
      BudgetRow(budgets[k], DefaultAccount(accounts, budgets[k].userId)))
  }

  /** `startDate`: `now` with the day of the month set to 1 and the time of day kept. */
  function StartDate(now: Date): (r: Date)
    ensures r.year == now.year && r.month == now.month && r.day == 1 && r.time == now.time
  {
    now.(day := 1)
  }

  /**
   * The four conditions of the aggregate's `where` clause. A selected
   * transaction is an expense dated no earlier than the start's month.
   */
  predicate Counted(t: Transaction, userId: string, accountId: string, startDate: Date)
    ensures Counted(t, userId, accountId, startDate) ==>
              t.kind == Expense && MonthIndex(startDate) <= MonthIndex(t.date)
  {
    t.userId == userId && t.accountId == accountId && t.kind == Expense && AtOrBefore(startDate, t.date)
  }

  /** The transactions the aggregate's `where` clause selects, in table order. */
  function CountedOnly(txs: seq<Transaction>, userId: string, accountId: string, startDate: Date)
    : (r: seq<Transaction>)
    ensures forall t :: t in r ==> t in txs && Counted(t, userId, accountId, startDate)
    ensures forall t :: t in txs && Counted(t, userId, accountId, startDate) ==> t in r
    ensures forall t :: multiset(r)[t] == if Counted(t, userId, accountId, startDate) then multiset(txs)[t] else 0
  {
    assert txs != [] ==> txs == [txs[0]] + txs[1..];
    if txs == [] then []
    else
      var rest := CountedOnly(txs[1..], userId, accountId, startDate);
      if Counted(txs[0], userId, accountId, startDate) then [txs[0]] + rest else rest
  }

  function SumAmounts(txs: seq<Transaction>): int
  {
    if txs == [] then 0 else txs[0].amount + SumAmounts(txs[1..])
  }

  /**
   * `totalExpenses`: the `_sum` of `amount` over the transactions the
   * aggregate selects, or 0 when it selects none.
   */
  function TotalExpenses(txs: seq<Transaction>, userId: string, accountId: string, startDate: Date): (r: int)
    ensures (forall k :: 0 <= k < |txs| ==> !Counted(txs[k], userId, accountId, startDate)) ==> r == 0
  {
    if txs == [] then 0
    else
      var head := if Counted(txs[0], userId, accountId, startDate) then txs[0].amount else 0;
      head + TotalExpenses(txs[1..], userId, accountId, startDate)
  }

  /**
   * `percentageUsed >= 80` with `percentageUsed = totalExpenses / budgetAmount * 100`,
   * decided exactly. A zero budget divides by zero: a positive total gives
   * Infinity (which passes), a zero total NaN and a negative one -Infinity
   * (which both fail).
   */
  function ReachesThreshold(totalExpenses: int, budgetAmount: int): (r: bool)
    ensures budgetAmount != 0 ==>
              (r <==> (totalExpenses as real / budgetAmount as real) * 100.0 >= 80.0)
    ensures budgetAmount == 0 ==> (r <==> totalExpenses > 0)
  {
    if budgetAmount > 0 then 5 * totalExpenses >= 4 * budgetAmount
    else if budgetAmount < 0 then 5 * totalExpenses <= 4 * budgetAmount
    else totalExpenses > 0
  }

  /** `isNewMonth`: the two instants fall in different calendar months. */
  function IsNewMonth(lastAlertDate: Date, currentDate: Date): (r: bool)
    ensures r <==> MonthIndex(lastAlertDate) != MonthIndex(currentDate)
  {
    MonthIndexInjective(lastAlertDate, currentDate);
    lastAlertDate.month != currentDate.month || lastAlertDate.year != currentDate.year
  }

  /** `shouldAlert`. */
  predicate ShouldAlert(totalExpenses: int, budgetAmount: int, lastAlertSent: Option<Date>, now: Date)
    ensures ShouldAlert(totalExpenses, budgetAmount, lastAlertSent, now) <==>
              && ReachesThreshold(totalExpenses, budgetAmount)
              && (lastAlertSent.None? || MonthIndex(lastAlertSent.value) != MonthIndex(now))
  {
    && ReachesThreshold(totalExpenses, budgetAmount)
    && (lastAlertSent.None? || IsNewMonth(lastAlertSent.value, now))
  }

  /** The gate for one snapshot row whose default account is `account`. */
  predicate GateOpen(budget: Budget, account: Account, txs: seq<Transaction>, now: Date)
    ensures GateOpen(budget, account, txs, now) ==>
              budget.lastAlertSent.None? || MonthIndex(budget.lastAlertSent.value) != MonthIndex(now)
  {
    ShouldAlert(TotalExpenses(txs, budget.userId, account.id, StartDate(now)),
                budget.amount, budget.lastAlertSent, now)
  }

  /** What one iteration of the sweep leaves in the budget's row. */
  function SweepStep(budget: Budget, accounts: seq<Account>, txs: seq<Transaction>,
                     now: Date, faults: set<string>): (r: Budget)
    ensures r == budget || r == budget.(lastAlertSent := Some(now))
    ensures r != budget <==>
              && DefaultAccount(accounts, budget.userId).Some?
              && budget.id !in faults
              && GateOpen(budget, DefaultAccount(accounts, budget.userId).value, txs, now)
  {
    match DefaultAccount(accounts, budget.userId)
    case None => budget
    case Some(account) =>
      if budget.id !in faults && GateOpen(budget, account, txs, now)
      then budget.(lastAlertSent := Some(now))
      else budget
  }

  /**
   * The budget table after one sweep. Every row keeps its id, owner and
   * amount; its `lastAlertSent` either stays or becomes `now`.
   */
  function SweepSpec(budgets: seq<Budget>, accounts: seq<Account>, txs: seq<Transaction>,
                     now: Date, faults: set<string>): (r: seq<Budget>)
    ensures |r| == |budgets|
    ensures forall k :: 0 <= k < |r| ==>
      r[k].(lastAlertSent := budgets[k].lastAlertSent) == budgets[k]
    ensures forall k :: 0 <= k < |r| ==>
      r[k].lastAlertSent == budgets[k].lastAlertSent || r[k].lastAlertSent == Some(now)
  {
    seq(|budgets|, k requires 0 <= k < |budgets| => SweepStep(budgets[k], accounts, txs, now, faults))
  }

  /** `db.budget.update({ where: { id }, data: { lastAlertSent: date } })` on a table. */
  function Stamp(budgets: seq<Budget>, id: string, date: Date): (r: seq<Budget>)
    ensures |r| == |budgets|
    ensures forall k :: 0 <= k < |r| ==>
      r[k] == if budgets[k].id == id then budgets[k].(lastAlertSent := Some(date)) else budgets[k]
  {
    seq(|budgets|, k requires 0 <= k < |budgets| =>
      if budgets[k].id == id then budgets[k].(lastAlertSent := Some(date)) else budgets[k])
  }

  /** The tables the sweep reads and writes. */
  class Ledger {
    var budgets: seq<Budget>
    var accounts: seq<Account>
    var transactions: seq<Transaction>

    ghost predicate Valid()
      reads this
    {
      DistinctIds(budgets)
    }

    constructor (budgets: seq<Budget>, accounts: seq<Account>, transactions: seq<Transaction>)
      requires DistinctIds(budgets)
      ensures Valid()
      ensures this.budgets == budgets && this.accounts == accounts && this.transactions == transactions
    {
      this.budgets := budgets;
      this.accounts := accounts;
      this.transactions := transactions;
    }

    /** The store's budget update: sets `lastAlertSent` of the budget with this id. */
    method UpdateLastAlertSent(id: string, date: Date)
      requires Valid()
      modifies this
      ensures Valid()
      ensures budgets == Stamp(old(budgets), id, date)
      ensures accounts == old(accounts) && transactions == old(transactions)
    {
      budgets := Stamp(budgets, id, date);
    }

    /**
     * The body of `step.run("check-budget-<id>")` for a budget whose default
     * account is `account`: sum this month's expenses, apply the gate and
     * stamp the budget when it opens. `throws` says that a store call of the
     * step fails; the `catch` then swallows it before anything is written.
     */
    method CheckBudget(budget: Budget, account: Account, now: Date, throws: bool)
      returns (alerted: bool)
      requires Valid()
      modifies this
      ensures Valid()
      ensures alerted <==> !throws && GateOpen(budget, account, old(transactions), now)
      ensures budgets == if alerted then Stamp(old(budgets), budget.id, now) else old(budgets)
      ensures accounts == old(accounts) && transactions == old(transactions)
    {
      alerted := false;
      if throws {
        return;
      }
      var startDate := StartDate(now);
      var totalExpenses := TotalExpenses(transactions, budget.userId, account.id, startDate);
      var shouldAlert := ShouldAlert(totalExpenses, budget.amount, budget.lastAlertSent, now);
      if shouldAlert {
        UpdateLastAlertSent(budget.id, now);
        alerted := true;
      }
    }

    /**
     * `checkBudgetAlert`: fetch the snapshot once, then check every budget
     * that has a default account, in snapshot order.
     */
    method Sweep(now: Date, faults: set<string>)
      requires Valid()
      modifies this
      ensures Valid()
      ensures budgets == SweepSpec(old(budgets), old(accounts), old(transactions), now, faults)
      ensures accounts == old(accounts) && transactions == old(transactions)
    {
      var snapshot := FetchBudgets(budgets, accounts);
      var i := 0;
      while i < |snapshot|
        invariant 0 <= i <= |snapshot|
        invariant accounts == old(accounts) && transactions == old(transactions)
        invariant |budgets| == |snapshot|
        invariant forall k :: 0 <= k < |budgets| ==> budgets[k].id == snapshot[k].budget.id
        invariant forall k :: 0 <= k < i ==>
          budgets[k] == SweepStep(snapshot[k].budget, accounts, transactions, now, faults)
        invariant forall k :: i <= k < |budgets| ==> budgets[k] == snapshot[k].budget
        invariant Valid()
      {
        var budget := snapshot[i].budget;
        var defaultAccount := snapshot[i].defaultAccount;
        if defaultAccount.None? {
          i := i + 1;
          continue;
        }
        var _ := CheckBudget(budget, defaultAccount.value, now, budget.id in faults);
        i := i + 1;
      }
    }
  }
}
