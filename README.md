# WalletWatch budget alerts and user sync, modelled in Dafny

This project models two pieces of the WalletWatch personal-finance app:

- The **budget-alert sweep** (`checkBudgetAlert` in `walletwatch/lib/inngest/functions.js`).
  1. It takes one snapshot of every budget, joined with the default account of the budget's user.
  2. It walks the snapshot in order and skips any budget whose user has no default account.
  3. For every other budget it sums this month's EXPENSE transactions on that account.
  4. It then applies the alert gate: at least 80% of the budget is used, and no alert has been stamped yet this calendar month.
  5. When the gate opens it stamps the budget's `lastAlertSent` with the current time.
- **`checkUser`** (`walletwatch/lib/checkUser.js`): it gets or creates the user record of the signed-in identity, keyed by `clerkUserId`.

Modules:

- `Wrappers`: `Option`, for JavaScript's `null`/`undefined`.
- `Calendar`: the local calendar fields of a `Date`, their chronological order and the month index.
- `JsStrings`: `String.prototype.trim`, using ECMAScript's white-space and line-terminator characters.
- `BudgetAlerts`: the tables, the aggregate, the gate and the sweep. The budget, account and transaction tables are fields of the class `Ledger`. `Ledger.Sweep` loops over the snapshot and updates `lastAlertSent` in place through `Ledger.CheckBudget` and `Ledger.UpdateLastAlertSent`. `Sweep` is proved against the specification function `SweepSpec`.
- `BudgetAlertProperties`: what the sweep guarantees, as lemmas about `SweepSpec` and its parts. This includes a series of sweeps over time.
- `UserSync`: `checkUser` as the method `UserTable.CheckUser`, which is proved against the function `CheckUserSpec`. The lemmas about that function sit beside it.

Inputs the model takes as parameters:

- The clock: `now` is one `Date` per sweep.
- Store errors inside a budget's step: the set `faults` of budget ids whose step throws.
- The identity provider's answer: an `Identity`, which is signed in, signed out or a thrown error.
- Store errors of `checkUser`: a `StoreFault`.

Amounts are integers in one fixed currency unit. The 80% test is decided exactly: `5 * total >= 4 * amount` for a positive budget. The contract of `ReachesThreshold` states it as the percentage test over the reals. The code does not guard against a zero budget, so the model spells out JavaScript's outcome. For a zero budget, a positive total divides to Infinity and alerts. A zero total gives NaN and a negative total gives -Infinity; neither alerts. For a negative budget the inequality flips.

Points where the model follows the code closely:

- **Start of the window.** The code sets only the day of the month to 1 and keeps the time of day (`functions.js:33-34`), although its comment calls the result the "start of current month". `StartDateKeepsTimeOfDay` shows the effect: an expense on the 1st at an earlier time of day than `now` is not counted.
- **End of the window.** The aggregate has no upper bound (`functions.js:41-43`), so a transaction dated after `now` is counted too.
- **Zero or negative budgets.** The code divides without a guard (`functions.js:52`); the model gives JavaScript's outcome, as described above.
- **No email is sent.** The code has a TODO where the email would go (`functions.js:66`).
- **Re-alert gate.** The only rule is "a different calendar month". There is no 24-hour rule.

## Model

| member | source | states |
|---|---|---|
| `Calendar.MonthIndexInjective` | walletwatch/lib/inngest/functions.js:87-92 | two instants have the same month index exactly when they have the same year and the same month |
| `Calendar.MonthIndexMonotone` | walletwatch/lib/inngest/functions.js:87-92 | the month index never decreases as time goes forward |
| `Calendar.AtOrBefore` | walletwatch/lib/inngest/functions.js:41-43 | the chronological order used by the `gte` filter; a date at or before another is never in a later month |
| `Calendar.AtOrBeforeIsTotalOrder` | walletwatch/lib/inngest/functions.js:41-43 | the order on dates used by the `gte` filter is reflexive, total, antisymmetric and transitive |
| `BudgetAlerts.IsNewMonth` | walletwatch/lib/inngest/functions.js:87-92 | true exactly when the two instants fall in different calendar months (different month indices) |
| `BudgetAlertProperties.IsNewMonthProperties` | walletwatch/lib/inngest/functions.js:87-92 | `isNewMonth` is symmetric and irreflexive; it is false within one calendar month and true for the same month of another year |
| `BudgetAlerts.DefaultAccount` | walletwatch/lib/inngest/functions.js:13-25 | None exactly when the user has no default account; otherwise the first account in table order that belongs to the user and is flagged default |
| `BudgetAlerts.FetchBudgets` | walletwatch/lib/inngest/functions.js:8-22 | the snapshot has one row per budget, in table order, and each row carries its user's default account |
| `BudgetAlerts.StartDate` | walletwatch/lib/inngest/functions.js:33-34 | `now` with the day set to 1; year, month and time of day are kept |
| `BudgetAlertProperties.StartDateWindow` | walletwatch/lib/inngest/functions.js:33-43 | the start date is not after `now`; every instant between it and `now` is in `now`'s month; no earlier month is counted |
| `BudgetAlertProperties.StartDateKeepsTimeOfDay` | walletwatch/lib/inngest/functions.js:33-34 | an expense on the 1st at an earlier time of day than `now` is outside the summed window |
| `BudgetAlerts.Counted` | walletwatch/lib/inngest/functions.js:37-44 | the `where` clause: a selected transaction is an EXPENSE dated in the start's month or later |
| `BudgetAlerts.CountedOnly` | walletwatch/lib/inngest/functions.js:37-44 | holds exactly the table's transactions that meet the four conditions (user, default account, EXPENSE, dated at or after the start), each as many times as the table holds it, and no other |
| `BudgetAlerts.TotalExpenses` | walletwatch/lib/inngest/functions.js:36-50 | an aggregate that selects nothing yields 0 (the `\|\| 0` fallback) |
| `BudgetAlertProperties.TotalExpensesIsSumOfCounted` | walletwatch/lib/inngest/functions.js:36-50 | `totalExpenses` equals `SumAmounts(CountedOnly(..))`, the sum of the amounts of exactly the selected transactions |
| `BudgetAlertProperties.TotalExpensesAppend` | walletwatch/lib/inngest/functions.js:36-48 | the sum over a table split in two parts is the sum of the parts |
| `BudgetAlertProperties.TotalExpensesBounds` | walletwatch/lib/inngest/functions.js:50 | with positive amounts the total is never negative |
| `BudgetAlerts.ReachesThreshold` | walletwatch/lib/inngest/functions.js:52-58 | for a non-zero budget it is the real-valued test `totalExpenses / budgetAmount * 100 >= 80`; for a zero budget it is JavaScript's Infinity/NaN outcome: true exactly when the total is positive |
| `BudgetAlerts.ShouldAlert` | walletwatch/lib/inngest/functions.js:56-59 | the threshold is reached and either no alert was ever stamped or the last one is in another calendar month |
| `BudgetAlerts.GateOpen` | walletwatch/lib/inngest/functions.js:33-59 | `shouldAlert` on this month's expenses; an open gate means the budget was never stamped or was last stamped in another calendar month |
| `BudgetAlertProperties.GateClosedWithinMonth` | walletwatch/lib/inngest/functions.js:56-59 | a budget already alerted in the current calendar month never passes the gate |
| `BudgetAlerts.SweepStep` | walletwatch/lib/inngest/functions.js:25-81 | one budget's step leaves it as it was or stamps `now`; it changes the budget exactly when the user has a default account, the step does not throw and the gate opens |
| `BudgetAlerts.SweepSpec` | walletwatch/lib/inngest/functions.js:24-82 | one sweep keeps every row's id, owner and amount; each `lastAlertSent` either stays as it was or becomes `now` (so at most one stamp per budget per sweep) |
| `BudgetAlerts.Stamp` | walletwatch/lib/inngest/functions.js:69-72 | the update sets `lastAlertSent` of the rows with the given id and leaves every other row as it was |
| `BudgetAlerts.Ledger.UpdateLastAlertSent` | walletwatch/lib/inngest/functions.js:69-72 | the budget table becomes `Stamp` of the old table; accounts and transactions are unchanged |
| `BudgetAlerts.Ledger.CheckBudget` | walletwatch/lib/inngest/functions.js:31-81 | the budget is stamped with `now` exactly when the step does not throw and the gate opens on this month's expenses; otherwise no table changes |
| `BudgetAlerts.Ledger.Sweep` | walletwatch/lib/inngest/functions.js:8-83 | after the loop over the snapshot, the budget table is `SweepSpec` of the old tables; accounts and transactions are unchanged and budget ids stay distinct |
| `BudgetAlertProperties.SweepStampsIff` | walletwatch/lib/inngest/functions.js:52-72 | a row changes exactly when its user has a default account, its step does not fail and the gate opens; a changed row holds `now` |
| `BudgetAlertProperties.SkippedBudgetUnchanged` | walletwatch/lib/inngest/functions.js:25-29 | a budget whose user has no default account leaves the sweep unchanged |
| `BudgetAlertProperties.FaultsAreIsolated` | walletwatch/lib/inngest/functions.js:78-80 | a budget whose step throws is unchanged, and the failure does not change the outcome for any other budget |
| `BudgetAlertProperties.SweepIsolation` | walletwatch/lib/inngest/functions.js:24-31 | a row's outcome depends only on that row, whatever other budgets the table holds and in whatever order |
| `BudgetAlertProperties.NoRestampWithinMonth` | walletwatch/lib/inngest/functions.js:56-72 | a second sweep in the same calendar month leaves every budget stamped by the first sweep as it is, even if the tables changed in between |
| `BudgetAlertProperties.SweepStepShape` | walletwatch/lib/inngest/functions.js:56-72 | a sweep step that changes a budget stamps it with a clock value in a new month |
| `BudgetAlertProperties.AlertTimesOrdered` | walletwatch/lib/inngest/functions.js:56-72 | over sweeps with a clock that never runs backwards, successive stamps fall in strictly increasing months, all after the month of the previous stamp |
| `BudgetAlertProperties.AtMostOneAlertPerMonth` | walletwatch/lib/inngest/functions.js:56-72 | over any series of sweeps with a clock that never runs backwards, whatever the budget's earlier stamp, no two stamps of one budget fall in the same calendar month, and the stamps fall in strictly increasing months |
| `JsStrings.LeadingCount` | walletwatch/lib/checkUser.js:18 | the length of the longest all-white-space prefix |
| `JsStrings.TrailingCount` | walletwatch/lib/checkUser.js:18 | the length of the longest all-white-space suffix |
| `JsStrings.Trim` | walletwatch/lib/checkUser.js:18 | `trim` returns a string no longer than its input, with no white space at either end |
| `JsStrings.TrimUnique` | walletwatch/lib/checkUser.js:18 | trimming a trimmed string padded with any white space returns exactly that string |
| `JsStrings.TrimSplits` | walletwatch/lib/checkUser.js:18 | every string is its trimmed form between two runs of white space |
| `JsStrings.TrimIgnoresPadding` | walletwatch/lib/checkUser.js:18 | extra white space around a string does not change what `trim` returns |
| `JsStrings.TrimIdempotent` | walletwatch/lib/checkUser.js:18 | trimming twice gives the same as trimming once |
| `UserSync.NameOfNobody` | walletwatch/lib/checkUser.js:18 | with first and last name both missing the stored name is "" |
| `UserSync.NameOfBothParts` | walletwatch/lib/checkUser.js:18 | two non-empty, already trimmed parts give first name, one space, last name |
| `UserSync.NameOfOnePart` | walletwatch/lib/checkUser.js:18 | with one part missing the name is the other part trimmed, with no stray space |
| `UserSync.PrimaryEmail` | walletwatch/lib/checkUser.js:25 | the first email address, or "" when the list is missing or empty |
| `UserSync.NewUser` | walletwatch/lib/checkUser.js:20-27 | the created record carries the identity's id and image URL, the derived name and the primary email |
| `UserSync.CheckUserSpec` | walletwatch/lib/checkUser.js:4-35 | a null result comes with no write; a returned record is the stored record of the signed-in identity; existing records never change; only that identity's record can be added |
| `UserSync.UserTable.FindUnique` | walletwatch/lib/checkUser.js:10-14 | finds a record exactly when one is stored under the `clerkUserId`, and it is that record |
| `UserSync.DisplayName` | walletwatch/lib/checkUser.js:18 | the stored name has no white space at either end and is no longer than the two parts joined by one space |
| `UserSync.UserTable.Create` | walletwatch/lib/checkUser.js:20-27 | for a `clerkUserId` not yet stored, inserts the record under that id, keeps every other record and returns it |
| `UserSync.UserTable.CheckUser` | walletwatch/lib/checkUser.js:4-35 | the returned value and the new table are those of `CheckUserSpec` on the old table |
| `UserSync.NullResultIffSignedOutOrError` | walletwatch/lib/checkUser.js:4-35 | the result is null exactly when nobody is signed in or `currentUser`, the lookup or the create throws; a null result leaves the table unchanged |
| `UserSync.ExistingUserReturned` | walletwatch/lib/checkUser.js:10-16 | a known identity gets its stored record back and the table is unchanged |
| `UserSync.NewUserInserted` | walletwatch/lib/checkUser.js:20-29 | a new identity gets exactly one new record, built from its profile, which is also returned |
| `UserSync.CheckUserIdempotent` | walletwatch/lib/checkUser.js:10-27 | a second call for the same identity returns the same record and changes nothing, so one identity never has two records |

## Left out

- Job-runner semantics are not modelled: durability, step memoisation and retries, and the six-hourly cron trigger of `checkBudgetAlert`. One sweep is a single sequential method. Two overlapping sweeps are not modelled.
- Floating point is not modelled. The percentage is decided in exact arithmetic, so rounding of `totalExpenses / budgetAmount * 100` at the 80% boundary is not captured. The `toFixed` logging is also left out.
- The clock is one `now` per sweep. The code reads the clock three times per budget: for the start date, for the gate and for the stamp. A month boundary crossed between those reads is not captured.
- Decimal amounts are integers in one fixed unit. Prisma's `Decimal` conversion with `toNumber` is not modelled.
- Dates are local calendar fields. Time zones are not modelled, and neither is checking whether a day exists in its month.
- The order of a user's accounts is taken to be table order. The query has no `orderBy`, so the database's real order is unspecified.
- A store error in a budget's step is the input `faults`. Its only write is its last store call, so a failing step has committed nothing. An update of a missing id throws in Prisma; in the model it leaves the table unchanged, which has the same net effect under the `catch`.
- Sending the alert email is not modelled: the source has only a TODO at `functions.js:66`. `walletwatch/actions/send-email.js` and `walletwatch/emails/template.jsx` (network call and email rendering) are not part of this model.
- The recurring-transaction scheduler and processor are registered in `walletwatch/app/api/inngest/route.js`, but their code is not part of this model.
- `walletwatch/app/api/debug/route.js` is not modelled. It is an HTTP debug endpoint that repeats the sweep with the gate `percentageUsed >= 0` and no `lastAlertSent` test, so it stamps every budget with a default account whose percentage is a non-negative number.
- Also not modelled: `walletwatch/middleware.js` (its decisions depend on the identity provider's route matcher), the pages, the components and the configuration.
- In `checkUser`, a user record holds only `clerkUserId`, name, image URL and email. The database's generated id and timestamps are not modelled. The identity provider is an input value.
- Console output is not modelled.
