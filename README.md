# budgetGuide ledger core in Dafny

This project models the query and aggregation engine of budgetGuide, a
command-line personal-finance ledger. It covers:

- an **Item**: a name, a day of the month and a signed amount;
- a **Month**: a map from category name to a list of Items, with
  per-category totals, the month total and the derived losses
  `-(total - total("Income"))`;
- a **Budget**: the ordered list of loaded Months, with add, remove,
  lookup by name, a grand total and a per-category total that skips
  months lacking the category;
- the **selection language**: six comparison operators, conditions, the
  conjunctive filter that keeps months in budget order and records the
  `(key, value)` pairs it evaluated, and the token-level parser of
  `cat op value (and cat op value)*`;
- the **session state** of the command interpreter (the budget, the known
  categories, the loaded month names) with `clear`, `remove`, category
  collection and month admission;
- the **sums behind the category and income reports**: overall spending,
  income and the guards that decide whether a percentage is shown.

Amounts are `real`, so sums are exact (no IEEE rounding). Number parsing
(`Double.parseDouble`) is a parameter `parse: string -> Option<real>`.

Files: `wrappers.dfy` (Option), `item.dfy` (Items), `month.dfy` (Months),
`budget.dfy` (Budgets), `comparator.dfy` (Comparators), `condition.dfy`
(Conditions), `interpreter.dfy` (Interpreter).

Month and Budget totals are specified by ghost functions. These are
`Months.CatsTotal`, `Month.Total`, `Month.CatTotal` and `Month.Losses`,
plus `Budgets.MonthsTotal` and `Budgets.CatAcross`. Every method that
computes a total is proved equal to them. The month total sums the
category map in an arbitrary order, and `Months.CatsTotalPick` proves
that the order does not matter. This matches the unspecified iteration
order of the source's HashMap.

Points where the model's choices need stating:

- The doc-comments at bg/Month.java:86-87 and 97-98 mention caches, but
  none exist; every total is recomputed. The model recomputes every
  total as well. That removing a month leaves no stale total behind is
  `Budgets.RemoveFirstTotal`.
- `Month.getTotal(cat)` guards the lookup with only a Java `assert`
  (bg/Month.java:89), which is disabled by default, so on a month
  without the category the lookup ends in a NullPointerException.
  `Conditions.Filter` therefore requires that no reached condition names
  a missing category. A month that lacks a queried category is meant to
  fail that condition; `Conditions.FilterExcluding` does that, and the
  finding below records the gap.
- Budget removal compares months by identity (`ArrayList.remove`). The
  lookup by name happens in the `remove` command.

Item's constructor and its getters `getName`, `getDate` and `getAmount`
(bg/Item.java:17-33) are the datatype constructor `Items.Item` and its
destructors `name`, `date` and `amount`. A datatype value cannot change,
so no accessor can alter a field, and the amount keeps its sign.
`Month.getName`/`getDays` are the constant fields `name` and `days`.
`Month.containsCat` is the predicate `Months.Month.ContainsCat`.
`Budget.getMonths` is the field `months`. `Condition`'s constructor and
getters are the datatype `Conditions.Condition`. These datatypes and
`ContainsCat` carry no contract of their own, so the table below, which
lists only members with contracts, has no rows for them.

## Model

| member | source | states |
|---|---|---|
| `Months.CatsTotalPick` | bg/Month.java:99-105 | the month total can take any category first: summing over the key set does not depend on iteration order |
| `Months.CatsTotalReplace` | bg/Month.java:56-66 | replacing one category's item list changes the sum by the difference of that category's old and new totals |
| `Months.Month.Named` | bg/Month.java:21-25 | a month built from a name alone has that name, 30 days and no categories |
| `Months.Month.constructor` | bg/Month.java:28-32 | a month built from a name and a day count has exactly those and no categories |
| `Months.Month.AddCat` | bg/Month.java:45-47 | the category exists afterwards with an empty list; re-adding one discards its items, and the month total drops by their total |
| `Months.Month.AddItem` | bg/Month.java:56-59 | requires the category; appends the item at the end of that category only; category and month totals grow by its amount |
| `Months.Month.AddNewItem` | bg/Month.java:63-66 | requires the category; appends an Item built from the name, date and amount, and the month total grows by the amount |
| `Months.Month.GetCats` | bg/Month.java:69-75 | the list holds each category name exactly once and no other name |
| `Months.Month.GetCatTotal` | bg/Month.java:88-95 | requires the category; returns the sum of its item amounts (0 for an empty list) |
| `Months.Month.GetTotal` | bg/Month.java:99-105 | returns the sum of all category totals, whatever order the keys are visited in |
| `Months.Month.GetLosses` | bg/Month.java:108-110 | requires "Income"; returns `-(total - income)`, which is the negated sum of every non-Income category |
| `Months.EmptyMonthTotal` | bg/Month.java:99-105 | a month with no categories totals 0 |
| `Months.LossesExcludeIncome` | bg/Month.java:108-110 | month total = income - losses, and losses = minus the sum of the non-Income categories |
| `Budgets.FirstIndex` | bg/Budget.java:27-29 | the position found holds the month and no earlier position does |
| `Budgets.RemoveFirst` | bg/Budget.java:27-29 | an absent month leaves the list unchanged; a present one loses its first occurrence only, the rest keeping their order (length drops by one, multiset loses one copy) |
| `Budgets.MonthNamed` | bg/Budget.java:47-54 | null iff no month has the name; otherwise the month at the first position carrying that name |
| `Budgets.MonthsTotalConcat` | bg/Budget.java:37-43 | the grand total of a concatenation is the sum of the grand totals |
| `Budgets.RemoveFirstTotal` | bg/Budget.java:27-43 | after removing a present month, the grand total is the old total minus that month's total; removing an absent one changes nothing |
| `Budgets.CatAcrossSkip` | bg/Budget.java:57-65 | a month without the category, wherever it stands in the list, contributes nothing to the category's budget-wide total |
| `Budgets.CatAcrossAbsent` | bg/Budget.java:57-65 | when no month has the category, its budget-wide total is 0 |
| `Budgets.Budget.constructor` | bg/Budget.java:17-19 | a new budget has no months and grand total 0 |
| `Budgets.Budget.AddMonth` | bg/Budget.java:22-24 | appends the month after the existing ones, in order; the grand total grows by its total |
| `Budgets.Budget.RemoveMonth` | bg/Budget.java:27-29 | removes the first occurrence only (a no-op when absent or null); the grand total drops by that month's total |
| `Budgets.Budget.GetTotal` | bg/Budget.java:37-43 | returns the sum of the month totals |
| `Budgets.Budget.GetMonth` | bg/Budget.java:47-54 | returns the first month with the name, or null |
| `Budgets.Budget.GetCatTotal` | bg/Budget.java:57-65 | returns the sum of the category's totals over the months that have it, never looking the category up in the others |
| `Comparators.Comparator.Compare` | bg/DoubleComparator.java:16-33 | false for every pair when the operator is not one of the six; otherwise true exactly on the orderings the operator admits |
| `Comparators.ComplementaryOperators` | bg/DoubleComparator.java:16-29 | "!=" negates "==", "<" negates ">=", ">" negates "<=", and "==" is exact equality |
| `Conditions.Test` | bg/Condition.java:48-63 | a month passes iff every condition is evaluable and holds; then it records exactly one (key, value) pair per condition, in condition order |
| `Conditions.GetValue` | bg/Condition.java:49-56 | "Total" reads the month total, "Expenditures" the losses, any other key that category's total |
| `Conditions.TestMonth` | bg/Condition.java:45-63 | tests conditions in order and stops at the first failure; passes iff Test succeeds, with Test's pairs |
| `Conditions.Filter` | bg/Condition.java:40-69 | requires that no reached condition names a missing category; returns, in budget order, each passing month with its pairs |
| `Conditions.SelectionMembership` | bg/Condition.java:44-67 | a (month, pairs) entry is in the result iff the month is in the budget and passes with exactly those pairs |
| `Conditions.SelectionIsSubsequence` | bg/Condition.java:44-67 | the selected months are a subsequence of the budget (order kept), so there are at most as many as months |
| `Conditions.NoConditionsSelectAll` | bg/Condition.java:44-67 | an empty condition list selects every month, each with an empty pair list |
| `Conditions.TestConcat` | bg/Condition.java:48-63 | testing c1 ++ c2 succeeds iff testing c1 and testing c2 both do, with c1's pairs followed by c2's |
| `Conditions.FilterConjunction` | bg/Condition.java:44-67 | filtering by c1 ++ c2 selects exactly the months selected by both c1 and c2 |
| `Conditions.TestMonthExcluding` | bg/Condition.java:45-63 | as TestMonth, but a condition on a missing category fails instead of being looked up |
| `Conditions.FilterExcluding` | bg/Condition.java:40-69 | with no precondition, returns in budget order each month that passes every condition, with its pairs |
| `Conditions.AbsentCategoryExcludes` | bg/Condition.java:48-63 | a month lacking a category named by some condition is never selected by the corrected filter |
| `Interpreter.ParseQuery` | bg/CommandInterpreter.java:611-643 | None iff the token count is not 4n+3, or some group is not (known key, one of the six operators, number), or groups are not joined by "and"; otherwise (len+1)/4 conditions built from the groups in token order |
| `Interpreter.AllCats` | bg/CommandInterpreter.java:69-75 | a name is collected iff some month of the budget has that category |
| `Interpreter.RemoveNamed` | bg/CommandInterpreter.java:151-163 | removing the month found by name from a list with distinct names keeps names distinct and drops exactly that name |
| `Interpreter.SpentOn` | bg/CommandInterpreter.java:435-451 | the category report's overall amount spent is never negative |
| `Interpreter.SpentOnBounds` | bg/CommandInterpreter.java:435-451 | overall spending is at least the size of the category's budget total, and equals its negation when no month's category total is positive |
| `Interpreter.IncomeWhereEverywhere` | bg/CommandInterpreter.java:437-442 | the category report's income equals the whole budget's income when every month has the category |
| `Interpreter.IncomeMinusLosses` | bg/CommandInterpreter.java:477-483 | overall income minus overall losses equals the budget's grand total |
| `Interpreter.AbsentCategoryAccepted` | bg/CommandInterpreter.java:617-621 | a query on a category that one month has and another lacks parses, yet Filter's precondition fails for the month that lacks it |
| `Interpreter.Session.constructor` | bg/CommandInterpreter.java:43-50 | a new session has an empty budget and no known categories or month names |
| `Interpreter.Session.CollectCats` | bg/CommandInterpreter.java:69-75 | adds every category of every month to the known set and removes nothing |
| `Interpreter.Session.ParseConditions` | bg/CommandInterpreter.java:609-644 | collects the categories first, then parses against them, with ParseQuery's guarantees |
| `Interpreter.Session.ClearCommand` | bg/CommandInterpreter.java:143-148 | the budget, the known categories and the month names are all empty afterwards |
| `Interpreter.Session.RemoveCommand` | bg/CommandInterpreter.java:151-163 | without exactly two tokens naming a loaded month nothing changes; otherwise the month and its name go, the grand total drops by its total, and the known categories stay |
| `Interpreter.Session.AdmitMonth` | bg/CommandInterpreter.java:194-236 | a month is added iff its name is not loaded and it has "Income"; the session invariant (names match, names distinct, every month has "Income") is kept |
| `Interpreter.Session.ReportCat` | bg/CommandInterpreter.java:429-472 | "Income" gives the income report; any other category gives the category report's sums |
| `Interpreter.Session.SumCategory` | bg/CommandInterpreter.java:434-471 | over the months having the category: spending is the sum of absolute totals, income sums only those months, and the overall percentage is shown iff that income > 0 |
| `Interpreter.Session.ReportIncome` | bg/CommandInterpreter.java:475-504 | income and losses are summed over all months; the overall percentage is shown iff both sums are > 0 |

## Findings

| source | as written | input that shows it | evidently intended | confidence | as-written member | corrected member |
|---|---|---|---|---|---|---|
| bg/CommandInterpreter.java:617-621 | a query's category is checked against the union of all loaded months' categories, and filter then reads that category's total on every month it reaches | months Jan {Income, Rent} and Feb {Income}; `select months where Rent < 0` parses, then `getTotal("Rent")` runs on Feb, whose category is missing (assertion failure or NullPointerException) | a month that lacks the category fails the condition and is left out of the result | high; not executed | `Interpreter.AbsentCategoryAccepted` (against `Conditions.Filter`) | `Conditions.FilterExcluding` |

## Left out

- Conditions.Filter: as the source is written, looking up a missing category fails. The model therefore requires `Reaches` (no reached condition names a missing category) rather than modelling the crash. The corrected `FilterExcluding` needs no such precondition.
- Interpreter.Session.ReportCat, Interpreter.Session.SumCategory, Interpreter.Session.ReportIncome: these require every month to have "Income" (`Valid`). The source would fail on a month without it, and month admission never lets one in.
- The printed text of every command: `printf` formatting, rounding, the sign display and the percentage values themselves. Only the sums and the guards deciding whether a percentage is shown are modelled.
- `reportBudget`, `reportMonth` and `reportMonthlyTotals`: their daily rates and percentages are floating-point divisions and text.
- Command reading and dispatch (`statement`), `quitCommand`, `helpCommand`, `printCommand`, `selectCommand`'s printing, and `saveCommand`/`saveSelectCommand`: these are I/O.
- Month file parsing in `loadCommand`/`processFile` (Scanner reads): left out as I/O. Interpreter.Session.AdmitMonth models only what admitting an already-read month does to the session.
- `Month.printCats`: it only writes to standard output.
- IEEE double behaviour (NaN, infinity, rounding): amounts are exact reals.
- `Double.parseDouble`: a library call. It is the `parse` parameter of the parser.
- The iteration order of HashMap and HashSet: categories are a map and a set, and nothing is stated about the order of `GetCats` beyond its contents.
- `bg/Main.java` (the read loop) and `bg/Pair.java` (a tuple): Dafny tuples replace Pair.
