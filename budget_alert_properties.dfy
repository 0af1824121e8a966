/** What the budget-alert sweep guarantees, stated over its specification functions. */
module BudgetAlertProperties {
  import opened Wrappers
  import opened Calendar
  import opened BudgetAlerts

  // ---------------------------------------------------------------- the gate

  /**
   * `isNewMonth` is symmetric and irreflexive, is false for any two instants
   * of one calendar month, and is true for the same month of another year.
   */
  lemma IsNewMonthProperties(a: Date, b: Date)
    ensures IsNewMonth(a, b) == IsNewMonth(b, a)
    ensures !IsNewMonth(a, a)
    ensures a.year == b.year && a.month == b.month ==> !IsNewMonth(a, b)
    ensures a.month == b.month && a.year != b.year ==> IsNewMonth(a, b)
  {
  }

  /** A budget alerted earlier in this calendar month does not pass the gate again. */
  lemma GateClosedWithinMonth(budget: Budget, account: Account, txs: seq<Transaction>, now: Date)
    requires budget.lastAlertSent.Some?
    requires MonthIndex(budget.lastAlertSent.value) == MonthIndex(now)
    ensures !GateOpen(budget, account, txs, now)
  {
  }

  // ------------------------------------------------------- the month window

  /**
   * `startDate` opens a window inside the current month: it is not after
   * `now`, every instant between it and `now` lies in `now`'s month, and
   * nothing of an earlier month is counted.
   */
  lemma StartDateWindow(now: Date, d: Date)
    ensures AtOrBefore(StartDate(now), now)
    ensures AtOrBefore(StartDate(now), d) && AtOrBefore(d, now) ==> MonthIndex(d) == MonthIndex(now)
    ensures MonthIndex(d) < MonthIndex(now) ==> !AtOrBefore(StartDate(now), d)
  {
    if AtOrBefore(StartDate(now), d) {
      MonthIndexMonotone(StartDate(now), d);
      if AtOrBefore(d, now) {
        MonthIndexMonotone(d, now);
      }
    }
  }

  /**
   * Because the time of day is kept, an expense on the first of the month
   * at an earlier time of day than `now` falls outside the window.
   */
  lemma StartDateKeepsTimeOfDay(now: Date, t: Transaction, userId: string, accountId: string)
    requires t.date.year == now.year && t.date.month == now.month && t.date.day == 1
    requires t.date.time < now.time
    ensures !Counted(t, userId, accountId, StartDate(now))
  {
  }

  // ------------------------------------------------------------ the aggregate

  /** `totalExpenses` is the plain sum of the amounts of exactly the selected transactions. */
  lemma {:induction false} TotalExpensesIsSumOfCounted(
    txs: seq<Transaction>, userId: string, accountId: string, startDate: Date)
    ensures TotalExpenses(txs, userId, accountId, startDate)
         == SumAmounts(CountedOnly(txs, userId, accountId, startDate))
  {
    if txs != [] {
      TotalExpensesIsSumOfCounted(txs[1..], userId, accountId, startDate);
      var rest := CountedOnly(txs[1..], userId, accountId, startDate);
      if Counted(txs[0], userId, accountId, startDate) {
        assert ([txs[0]] + rest)[1..] == rest;
      }
    }
  }

  /** The aggregate adds up over a table split in two. */
  lemma {:induction false} TotalExpensesAppend(
    a: seq<Transaction>, b: seq<Transaction>, userId: string, accountId: string, startDate: Date)
    ensures TotalExpenses(a + b, userId, accountId, startDate)
         == TotalExpenses(a, userId, accountId, startDate) + TotalExpenses(b, userId, accountId, startDate)
  {
    if a != [] {
      assert (a + b)[1..] == a[1..] + b;
      TotalExpensesAppend(a[1..], b, userId, accountId, startDate);
    } else {
      assert a + b == b;
    }
  }

  /** With positive amounts the sum is never negative. */
  lemma {:induction false} TotalExpensesBounds(
    txs: seq<Transaction>, userId: string, accountId: string, startDate: Date)
    ensures (forall k :: 0 <= k < |txs| ==> txs[k].amount > 0)
            ==> TotalExpenses(txs, userId, accountId, startDate) >= 0
  {
    if txs != [] {
      TotalExpensesBounds(txs[1..], userId, accountId, startDate);
      assert forall k :: 1 <= k < |txs| ==> txs[1..][k - 1] == txs[k];
    }
  }

  // -------------------------------------------------------------- one sweep

  /**
   * A row changes in a sweep exactly when its user has a default account,
   * its step does not fail and the gate is open; it then holds `now`.
   */
  lemma SweepStampsIff(budgets: seq<Budget>, accounts: seq<Account>, txs: seq<Transaction>,
                       now: Date, faults: set<string>, k: int)
    requires 0 <= k < |budgets|
    ensures SweepSpec(budgets, accounts, txs, now, faults)[k] != budgets[k]
        <==> (&& DefaultAccount(accounts, budgets[k].userId).Some?
              && budgets[k].id !in faults
              && GateOpen(budgets[k], DefaultAccount(accounts, budgets[k].userId).value, txs, now))
    ensures SweepSpec(budgets, accounts, txs, now, faults)[k] != budgets[k]
        ==> SweepSpec(budgets, accounts, txs, now, faults)[k].lastAlertSent == Some(now)
  {
    var b, da := budgets[k], DefaultAccount(accounts, budgets[k].userId);
    if da.Some? && b.id !in faults && GateOpen(b, da.value, txs, now) {
      assert b.lastAlertSent != Some(now);
    }
  }

  /** A budget whose user has no default account is left as it was. */
  lemma SkippedBudgetUnchanged(budgets: seq<Budget>, accounts: seq<Account>, txs: seq<Transaction>,
                               now: Date, faults: set<string>, k: int)
    requires 0 <= k < |budgets|
    requires forall j :: 0 <= j < |accounts| ==> !IsDefaultOf(accounts[j], budgets[k].userId)
    ensures SweepSpec(budgets, accounts, txs, now, faults)[k] == budgets[k]
  {
  }

  /**
   * A budget whose step fails is left as it was, and a failure changes
   * nothing for any other budget.
   */
  lemma FaultsAreIsolated(budgets: seq<Budget>, accounts: seq<Account>, txs: seq<Transaction>,
                          now: Date, faults: set<string>, k: int)
    requires 0 <= k < |budgets|
    ensures budgets[k].id in faults ==> SweepSpec(budgets, accounts, txs, now, faults)[k] == budgets[k]
    ensures budgets[k].id !in faults ==>
      SweepSpec(budgets, accounts, txs, now, faults)[k] == SweepSpec(budgets, accounts, txs, now, {})[k]
  {
  }

  /**
   * A row's outcome depends on that row alone: the same budget yields the
   * same row whatever other budgets the table holds and in whatever order.
   */
  lemma SweepIsolation(b1: seq<Budget>, b2: seq<Budget>, accounts: seq<Account>, txs: seq<Transaction>,
                       now: Date, faults: set<string>, k: int, j: int)
    requires 0 <= k < |b1| && 0 <= j < |b2| && b1[k] == b2[j]
    ensures SweepSpec(b1, accounts, txs, now, faults)[k] == SweepSpec(b2, accounts, txs, now, faults)[j]
  {
  }

  /**
   * A second sweep in the same calendar month leaves every budget that the
   * first sweep stamped as it is, whatever happened to the tables meanwhile.
   */
  lemma NoRestampWithinMonth(budgets: seq<Budget>, accounts: seq<Account>, txs: seq<Transaction>,
                             faults: set<string>, now: Date,
                             accounts': seq<Account>, txs': seq<Transaction>,
                             faults': set<string>, now': Date, k: int)
    requires 0 <= k < |budgets|
    requires MonthIndex(now) == MonthIndex(now')
    ensures SweepSpec(budgets, accounts, txs, now, faults)[k] != budgets[k] ==>
              SweepSpec(SweepSpec(budgets, accounts, txs, now, faults), accounts', txs', now', faults')[k]
              == SweepSpec(budgets, accounts, txs, now, faults)[k]
  {
    var r := SweepSpec(budgets, accounts, txs, now, faults);
    if r[k] != budgets[k] {
      SweepStampsIff(budgets, accounts, txs, now, faults, k);
      var da := DefaultAccount(accounts', r[k].userId);
      if da.Some? {
        GateClosedWithinMonth(r[k], da.value, txs', now');
      }
    }
  }

  // ------------------------------------------------------ sweeps over time

  /** What one sweep sees: its clock value and the tables as they are at that time. */
  datatype Tick = Tick(now: Date, accounts: seq<Account>, transactions: seq<Transaction>, faults: set<string>)

  ghost predicate Chronological(ticks: seq<Tick>)
  {
    forall i, j :: 0 <= i < j < |ticks| ==> AtOrBefore(ticks[i].now, ticks[j].now)
  }

  /** The successive values that `lastAlertSent` of one budget receives over a series of sweeps. */
  function AlertTimes(budget: Budget, ticks: seq<Tick>): seq<Date>
    decreases |ticks|
  {
    if ticks == [] then []
    else
      var t := ticks[0];
      var next := SweepStep(budget, t.accounts, t.transactions, t.now, t.faults);
      (if next != budget then [t.now] else []) + AlertTimes(next, ticks[1..])
  }

  /** One sweep either leaves the budget alone or stamps it with a clock value of a new month. */
  lemma SweepStepShape(budget: Budget, t: Tick)
    ensures SweepStep(budget, t.accounts, t.transactions, t.now, t.faults) != budget ==>
              (&& SweepStep(budget, t.accounts, t.transactions, t.now, t.faults).lastAlertSent == Some(t.now)
               && (budget.lastAlertSent.Some? ==> IsNewMonth(budget.lastAlertSent.value, t.now)))
  {
  }

  lemma ChronologicalTail(ticks: seq<Tick>)
    requires Chronological(ticks) && ticks != []
    ensures Chronological(ticks[1..])
    ensures |ticks| > 1 ==> AtOrBefore(ticks[0].now, ticks[1..][0].now)
  {
    var rest := ticks[1..];
    forall i, j | 0 <= i < j < |rest| ensures AtOrBefore(rest[i].now, rest[j].now) {
      assert rest[i] == ticks[i + 1] && rest[j] == ticks[j + 1];
    }
  }

  /** Every instant of `ts` lies in a later month than `d`. */
  ghost predicate LaterMonths(d: Date, ts: seq<Date>)
  {
    forall i :: 0 <= i < |ts| ==> MonthIndex(d) < MonthIndex(ts[i])
  }

  /** The instants of `ts` lie in strictly increasing months. */
  ghost predicate IncreasingMonths(ts: seq<Date>)
  {
    forall i, j :: 0 <= i < j < |ts| ==> MonthIndex(ts[i]) < MonthIndex(ts[j])
  }

  lemma {:induction false} AlertTimesOrdered(budget: Budget, ticks: seq<Tick>)
    requires Chronological(ticks)
    requires budget.lastAlertSent.Some? && ticks != [] ==> AtOrBefore(budget.lastAlertSent.value, ticks[0].now)
    ensures budget.lastAlertSent.Some? ==> LaterMonths(budget.lastAlertSent.value, AlertTimes(budget, ticks))
    ensures IncreasingMonths(AlertTimes(budget, ticks))
    decreases |ticks|
  {
    if ticks != [] {
      var t, rest := ticks[0], ticks[1..];
      var next := SweepStep(budget, t.accounts, t.transactions, t.now, t.faults);
      var tail := AlertTimes(next, rest);
      ChronologicalTail(ticks);
      SweepStepShape(budget, t);
      if next != budget {
        if budget.lastAlertSent.Some? {
          MonthIndexMonotone(budget.lastAlertSent.value, t.now);
        }
        AlertTimesOrdered(next, rest);
        assert next.lastAlertSent.value == t.now;
        var ts := AlertTimes(budget, ticks);
        assert ts == [t.now] + tail;
        forall i | 0 < i < |ts| ensures MonthIndex(t.now) < MonthIndex(ts[i]) {
          assert ts[i] == tail[i - 1];
        }
        forall i, j | 0 <= i < j < |ts| ensures MonthIndex(ts[i]) < MonthIndex(ts[j]) {
          if i > 0 {
            assert ts[i] == tail[i - 1] && ts[j] == tail[j - 1];
          }
        }
      } else {
        if budget.lastAlertSent.Some? && rest != [] {
          AtOrBeforeIsTotalOrder(budget.lastAlertSent.value, t.now, rest[0].now);
        }
        AlertTimesOrdered(budget, rest);
        assert AlertTimes(budget, ticks) == tail;
      }
    }
  }

  /**
   * Over any series of sweeps with a clock that never runs backwards, a
   * budget is stamped at most once per calendar month: the stamps fall in
   * strictly increasing months.
   */
  lemma {:induction false} AtMostOneAlertPerMonth(budget: Budget, ticks: seq<Tick>)
    requires Chronological(ticks)
    ensures forall i, j :: 0 <= i < j < |AlertTimes(budget, ticks)| ==>
              MonthIndex(AlertTimes(budget, ticks)[i]) != MonthIndex(AlertTimes(budget, ticks)[j])
    ensures IncreasingMonths(AlertTimes(budget, ticks))
    decreases |ticks|
  {
    if ticks != [] {
      var t, rest := ticks[0], ticks[1..];
      var next := SweepStep(budget, t.accounts, t.transactions, t.now, t.faults);
      var tail := AlertTimes(next, rest);
      ChronologicalTail(ticks);
      SweepStepShape(budget, t);
      if next != budget {
        // From here on the stamp is this sweep's clock value, which is not after the next sweep's.
        AlertTimesOrdered(next, rest);
        var ts := AlertTimes(budget, ticks);
        assert ts == [t.now] + tail;
        forall i, j | 0 <= i < j < |ts| ensures MonthIndex(ts[i]) < MonthIndex(ts[j]) {
          assert ts[j] == tail[j - 1];
          if i > 0 {
            assert ts[i] == tail[i - 1];
          }
        }
      } else {
        AtMostOneAlertPerMonth(budget, rest);
        assert AlertTimes(budget, ticks) == tail;
      }
    }
  }

}
