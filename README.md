# Personal-finance insight and notification engine, in Dafny

This project models the financial insight and notification engine of a
personal-finance desktop application, together with the small bookkeeping
operations around it. In the application these functions read and write a
SQLite database. Here the tables the engine touches are fields of one
`Tables.Store` object:

- categories (user, id, name, budget)
- transactions (user, account, category or NULL, amount, type, description, recurring flag)
- commitments (id, user, category, amount, due day, paid flag, last paid date)
- the notification table `ai_suggestions` (user, content, creation date, read flag)
- the notification setting per user
- the expected salary day per user
- the savings goal per user

Each Python function that writes becomes a method `M(db: Store, ...)`. Its
frame names only the fields it may change (`modifies db`notifications`), so
"nothing else changes" is checked by Dafny. Each query becomes a function on
the table values, and the methods are proved against those functions.

Money is held in integer cents. "Today" is a `Date` parameter, and the
service that writes tips is a function parameter `ai`.

Modules, one per source file:

- `Tables`: rows, the store, and the queries shared by several files (the category join, the expense sum, the per-type totals).
- `Text`: number rendering, `str.strip()`, `str.isdigit()` and `int()`.
- `Budget` (core/budget.py): set or read a budget, spend per category, and all budgets of a user.
- `AiSuggestions` (core/ai_suggestions.py): the rule evaluator. It produces budget tips, then the recurring tip, then the income tip, and stores each one.
- `CommitmentManager` (core/commitment_manager.py): due-day classification, the same-day duplicate guard, and the paid/unpaid cycle.
- `SalaryChecker` (core/salary_checker.py): the salary-day reminder.
- `Transfer` (core/transfer.py): transfers to a category and to savings. core/salary_checker.py:7-29 holds an identical copy of both functions, and this one model covers both copies.
- `SavingsGoals` (ui/savings_goal_manager.py): the savings-goal ledger, without the widgets.

Points where the code's behaviour is easy to misread:

- A failed service call returns an error string, and that string is stored like any other tip.
- `generate_suggestions` does not deduplicate its tips. Only `check_commitments` uses the same-day guard.
- Only the exceeded-budget summary goes to the service. The near-limit, recurring and income tips are fixed text.
- The SQL leaves the tie-break among equally frequent recurring categories open. `TopRecurring` therefore promises only some category of maximal count.

## Model

| member | source | states |
|---|---|---|
| `Tables.CategoryRow` | core/commitment_manager.py:12-17 | The inner join on `category_id` finds a row exactly when some category has that id, and the row it finds has that id. |
| `Tables.ExpenseSum` | core/budget.py:22-27 | The SQL sum of a user's expenses in a category is NULL exactly when no transaction is an expense of that user in that category. |
| `Tables.TotalOfStranger` | core/ai_suggestions.py:64-73 | A user with no transactions has every per-type total equal to 0, because a missing group reads as 0. |
| `Tables.TotalAppend` | core/ai_suggestions.py:64-73 | Appending a row changes a per-type total only by that row's amount, and only for the row's own user and type. |
| `Text.NatToString` | core/commitment_manager.py:28 | Rendering a number gives a non-empty string of ASCII digits with no leading zero. |
| `Text.IntToString` | core/commitment_manager.py:28 | Rendering an integer gives a non-empty string. It starts with '-' exactly when the integer is negative, and the digits after the sign read back as the absolute value. |
| `Text.FormatCents` | core/ai_suggestions.py:44 | `:.2f` rendering: the decimal point is third from the end, and a leading '-' appears exactly for negative amounts. |
| `Text.FormatCentsValue` | core/ai_suggestions.py:44 | The digits of a `:.2f` rendering encode the amount. After the sign, the whole part reads back as the absolute amount divided by 100, and the two digits after the point read back as its remainder modulo 100. |
| `Text.DecimalValue` | ui/savings_goal_manager.py:62 | On ASCII text, `int()` on digit text succeeds exactly when the text is non-empty decimal digits, and yields their decimal value. |
| `Text.DigitsOfNatToString` | ui/savings_goal_manager.py:62 | Reading back the digits of a rendered number gives the number. |
| `Text.NatToStringRoundTrip` | ui/savings_goal_manager.py:62 | `int(str(n)) == n` for every natural number n. |
| `Text.NatToStringInjective` | core/commitment_manager.py:28 | Different numbers never render alike, so reminders with different day counts have different text. |
| `Text.IsDigitAdmitsUnparsable` | ui/savings_goal_manager.py:45 | "²" passes `str.isdigit()`, yet `int()` rejects it. |
| `Text.PyIsDigit` | ui/savings_goal_manager.py:45 | `str.isdigit()` holds only for non-empty text. It admits every ASCII decimal string, and "²" shows that it also admits strings that are not decimal. |
| `Text.DecimalGuardConverts` | ui/savings_goal_manager.py:45 | Every string the decimal-digit test admits converts, and also passes `isdigit()`. |
| `Text.Strip` | core/ai_suggestions.py:16 | `strip()` returns a middle slice of its input that neither starts nor ends with whitespace. Everything it removes before and after that slice is whitespace. |
| `Text.StripIdempotent` | core/ai_suggestions.py:16 | Stripping twice gives the same result as stripping once. |
| `Budget.SetBudget` | core/budget.py:3-9 | `set_budget` gives exactly the rows that match both user and category the new budget. Every other row and every other table stays unchanged. |
| `Budget.WithBudget` | core/budget.py:5-9 | The `UPDATE` keeps the table's length. It gives the new budget to every row matching both user and category, and leaves every other row as it was. |
| `Budget.GetBudget` | core/budget.py:11-18 | `get_budget` reads the budget of the first row matching user and category, and 0 when no row matches. |
| `Budget.GetBudgetMissing` | core/budget.py:11-18 | `get_budget` reads 0 when no category row matches the user and id. |
| `Budget.GetAfterSet` | core/budget.py:3-18 | After `set_budget(u, c, a)`, `get_budget(u, c)` reads `a` whenever a matching row exists. |
| `Budget.GetAfterSetElsewhere` | core/budget.py:5-9 | `set_budget` on one (user, category) pair leaves `get_budget` unchanged for every other pair. |
| `Budget.SetBudgetWithoutRow` | core/budget.py:5-9 | `set_budget` changes nothing when no row matches. |
| `Budget.SpentAppend` | core/budget.py:20-27 | Adding a transaction raises `get_spent` by its amount exactly when it is an expense of that user in that category. Income, other types, other users and other categories leave the spend unchanged. |
| `Budget.Spent` | core/budget.py:20-27 | `get_spent` is the expense sum when there is one, and 0 when the category has no expense (the NULL sum). |
| `Budget.SpentNothing` | core/budget.py:26-27 | `get_spent` is 0 when the category has no expense. |
| `Budget.AllBudgets` | core/budget.py:29-39 | `get_all_budgets` returns as many rows as the user has categories, zero-budget ones included. There is a row for every such category, and every row comes from one of them and carries that category's expense sum. |
| `AiSuggestions.AiFailureIsTagged` | core/ai_suggestions.py:6-18 | A failed service call still returns a string: the error prefix followed by the reason. |
| `AiSuggestions.OpenAiTip` | core/ai_suggestions.py:6-18 | On an answer, the tip is a slice of the reply that begins where its leading whitespace ends. On a failure, the tip starts with the error prefix. |
| `AiSuggestions.AiAnswerIsStripped` | core/ai_suggestions.py:16 | A successful call returns exactly `strip()` of the service's reply, so the tip has no leading or trailing whitespace. |
| `AiSuggestions.BudgetRule` | core/ai_suggestions.py:41-48 | Exactly one status applies. Exceeded holds iff `used > budget`, with overage `used - budget > 0`. Near-limit holds iff `0.8*budget < used <= budget`. Otherwise the category is within budget. |
| `AiSuggestions.FlaggedIffOverEightyPercent` | core/ai_suggestions.py:43-48 | With a positive budget, a category gets a tip exactly when spend passes 80% of the budget. |
| `AiSuggestions.BudgetTip` | core/ai_suggestions.py:41-48 | A row yields a tip exactly when spend exceeds the budget or passes 80% of it. A row over 80% but not over budget gets the fixed near-limit text. |
| `AiSuggestions.NoSpendNoTip` | core/ai_suggestions.py:42 | A category with a positive budget and no spend (NULL read as 0) gets no tip. |
| `AiSuggestions.ExceededTipStatesOverage` | core/ai_suggestions.py:43-46 | The exceeded tip is the service's answer to a summary naming the overage `used - budget`. |
| `AiSuggestions.Evaluated` | core/ai_suggestions.py:38 | The `budget_amount > 0` filter keeps exactly the rows with a positive budget. |
| `AiSuggestions.EvaluatedMultiplicity` | core/ai_suggestions.py:38 | The filter keeps each positive-budget row as often as it occurs in the input (equal multiplicities) and drops every other row. |
| `AiSuggestions.BudgetUsage` | core/ai_suggestions.py:32-40 | The budget query returns rows only for the user's categories with a positive budget, and returns one for each of them with its expense sum. The number of rows equals the number of such categories (`PositiveOwnedCount`). Zero-budget categories are never evaluated. |
| `AiSuggestions.BudgetTips` | core/ai_suggestions.py:41-48 | Each evaluated category yields at most one budget tip. |
| `AiSuggestions.BudgetTipsFromRows` | core/ai_suggestions.py:41-48 | Every budget tip is the tip of one of the evaluated rows. |
| `AiSuggestions.BudgetTipsCoverRows` | core/ai_suggestions.py:41-48 | Every evaluated row that has a tip contributes it to the list. |
| `AiSuggestions.QuietBudgetsNoTips` | core/ai_suggestions.py:41-48 | Categories whose spend stays at or below 80% of a positive budget yield no budget tip. |
| `AiSuggestions.RecurringCountPositive` | core/ai_suggestions.py:51-58 | A category holding a recurring transaction of the user has a recurring count of at least 1. |
| `AiSuggestions.MostFrequent` | core/ai_suggestions.py:51-59 | The search finds nothing exactly when no candidate exists. Otherwise it picks a candidate's category whose count is at least every other candidate's. |
| `AiSuggestions.TopRecurring` | core/ai_suggestions.py:51-61 | There is a result iff the user has a recurring transaction in an existing category. The result names an existing category of maximal recurring count (at least 1, with no other threshold) and that category's name. |
| `AiSuggestions.RecurringTip` | core/ai_suggestions.py:59-61 | There is a recurring tip exactly when the user has a recurring transaction in an existing category. It names the category the recurring query picks. |
| `AiSuggestions.NoTransactionsNoIncomeTip` | core/ai_suggestions.py:71-75 | A user with no transactions never gets the spending-exceeds-income tip. |
| `AiSuggestions.OtherTypesIgnored` | core/ai_suggestions.py:71-75 | A transaction of any type other than income or expense never changes whether the income tip fires. `Other` never carries the labels 'income' or 'expense' (its label type `OtherLabel` excludes them). |
| `AiSuggestions.IncomeTip` | core/ai_suggestions.py:71-75 | The income tip fires exactly when the user's income total is below the expense total, and it is the fixed spending-over-income text. |
| `Tables.Total` | core/ai_suggestions.py:64-73 | A per-type total is 0 when the user has no transaction of that type. It is non-negative when all those amounts are. |
| `AiSuggestions.SuggestionTips` | core/ai_suggestions.py:28-75 | The list starts with the budget tips. After them come at most one recurring tip and at most one income tip, so it is never longer than the evaluated rows plus two. When income is below expense, the last tip is the income tip. |
| `AiSuggestions.EvaluateRow` | core/ai_suggestions.py:42-48 | The if/elif chain on one row gives that row's budget tip: the service's answer when over budget, the near-limit text above 80%, nothing otherwise. |
| `AiSuggestions.EvaluateBudgets` | core/ai_suggestions.py:41-48 | The budget loop appends exactly the per-category tips, in row order. |
| `AiSuggestions.CollectTips` | core/ai_suggestions.py:28-75 | The tips list is the budget tips, then the recurring tip, then the income tip, in that order. |
| `AiSuggestions.TipRows` | core/ai_suggestions.py:77-88 | One notification per tip, in list order: the tip's text, the user, today's date, unread. |
| `AiSuggestions.InsertTip` | core/ai_suggestions.py:83-88 | `insert_tip` appends one unread row and changes nothing else. |
| `AiSuggestions.InsertTips` | core/ai_suggestions.py:77-79 | The insertion loop appends one unread row per tip, in list order, and changes nothing else. |
| `AiSuggestions.GenerateSuggestions` | core/ai_suggestions.py:28-81 | `generate_suggestions` returns the collected tips and appends one unread row per tip, in order, without looking for earlier copies. Only the notification table changes, so a second run appends the same rows again. |
| `CommitmentManager.AddNotification` | core/commitment_manager.py:44-48 | `add_notification` appends one unread row dated today, with no duplicate check. |
| `CommitmentManager.AlreadyNotified` | core/commitment_manager.py:50-55 | `already_notified` holds exactly when a row of the user with that content and today's date exists, whether read or unread. |
| `CommitmentManager.DedupAppend` | core/commitment_manager.py:19-33 | Offering messages through the guard keeps every existing row in place. It adds at most one row per offered message. |
| `CommitmentManager.DedupAppendExtends` | core/commitment_manager.py:32-33 | Every row the guard adds is an unread row of the user dated today. It carries one of the offered messages, and that message was not yet on record for the user that day among the rows before it. |
| `CommitmentManager.DedupAppendNotifiesAll` | core/commitment_manager.py:32-33 | After the guard has run, every offered message is recorded for the user with today's date. |
| `CommitmentManager.DedupAppendSkipsNotified` | core/commitment_manager.py:50-55 | Messages already recorded for the user today add nothing. |
| `CommitmentManager.DedupAppendIdempotent` | core/commitment_manager.py:32-33 | Offering the same messages twice on the same day adds nothing the second time. |
| `CommitmentManager.DedupAppendKeepsUnique` | core/commitment_manager.py:50-55 | If no two rows share user, content and date before the guard runs, none do afterwards. |
| `CommitmentManager.GuardIsPerDate` | core/commitment_manager.py:53 | The guard compares calendar dates: the same message offered on two different dates is stored twice. |
| `CommitmentManager.Classify` | core/commitment_manager.py:20-30 | Exactly one holds: overdue iff `due < today`, due today iff `due == today`, upcoming iff `0 < due - today <= 7` (carrying `days_until`), nothing iff `due - today > 7`. |
| `CommitmentManager.Joined` | core/commitment_manager.py:12-17 | The commitment query returns exactly the user's commitments whose category row exists, each with that category's name. |
| `CommitmentManager.CommitmentMessage` | core/commitment_manager.py:19-30 | A row gets a message exactly when the commitment is unpaid and its due day is past, today, or at most seven days ahead. |
| `CommitmentManager.MessagesPerRow` | core/commitment_manager.py:19-30 | Every message comes from an unpaid row, and every row that has a message contributes it. So a paid commitment adds nothing even among unpaid ones. |
| `CommitmentManager.AllPaidNoMessages` | core/commitment_manager.py:23-30 | Paid commitments never produce a message. |
| `CommitmentManager.CheckCommitmentsIdempotent` | core/commitment_manager.py:4-33 | Running `check_commitments` twice on the same day adds nothing the second time. |
| `CommitmentManager.DisabledWritesNothing` | core/commitment_manager.py:5-7 | With no settings row, or the flag at 0, `check_commitments` writes nothing. |
| `CommitmentManager.CommitmentNotifications` | core/commitment_manager.py:4-33 | The table only grows, and not at all when notifications are off. When they are on, every joined message is afterwards on record for the user today. |
| `CommitmentManager.RowMessage` | core/commitment_manager.py:19-30 | The if/elif chain of the loop emits a message exactly when the row has one, and the message it emits is that row's message. |
| `CommitmentManager.NotifyRows` | core/commitment_manager.py:19-33 | The loop offers each row's message, in order, to `already_notified`, and adds exactly the messages not yet recorded today. |
| `CommitmentManager.CheckCommitments` | core/commitment_manager.py:4-33 | `check_commitments` leaves the notification table as `CommitmentManager.CommitmentNotifications` prescribes: unchanged when notifications are off, otherwise every joined message goes through the guard. No other table changes. |
| `CommitmentManager.MarkCommitmentPaid` | core/commitment_manager.py:35-39 | Only the commitments with that id change: they become paid with `last_paid_date` set to now. All other commitments stay unchanged. |
| `CommitmentManager.MarkPaid` | core/commitment_manager.py:35-39 | The `UPDATE` keeps the table's length. Every row with that id becomes paid with `last_paid_date` now, and every other row stays as it was. |
| `CommitmentManager.ResetAll` | core/commitment_manager.py:41-42 | The reset keeps the table's length, makes every row unpaid, and changes nothing else in any row. |
| `CommitmentManager.ResetCommitmentsMonthly` | core/commitment_manager.py:41-42 | Every commitment of every user becomes unpaid, and nothing else about it changes. |
| `CommitmentManager.MaybeResetCommitments` | core/commitment_manager.py:57-60 | On day 1 of the month this is the monthly reset. On any other day nothing changes. |
| `CommitmentManager.ResetIdempotent` | core/commitment_manager.py:41-42 | Resetting twice gives the same table as resetting once. |
| `CommitmentManager.ResetRowsUnpaid` | core/commitment_manager.py:41-42 | After a reset every joined commitment is unpaid, so the due-day classifier alone decides its message. |
| `CommitmentManager.MarkedPaidIsSilent` | core/commitment_manager.py:35-39 | Once a commitment is marked paid, the scheduler produces no message for it. |
| `SalaryChecker.SalaryMessage` | core/salary_checker.py:38-44 | There is a salary message iff the expected day is today or at most 7 days ahead. |
| `SalaryChecker.SalaryFollowsClassifier` | core/salary_checker.py:39-44 | The salary test agrees with the commitment classifier. Upcoming gives the reminder carrying the day count, and today gives the salary-day message. A past day, or one more than a week away, gives nothing. |
| `SalaryChecker.SalaryRows` | core/salary_checker.py:34-44 | There are no rows without a salary-expectation row for the user, and never more than one. When the expected day is today or within the week, the result is exactly one unread row with that message, dated today. |
| `SalaryChecker.CheckSalaryReminder` | core/salary_checker.py:31-44 | `check_salary_reminder` appends exactly the salary rows, with no duplicate check, so repeated calls append repeated rows. No other table changes. |
| `Transfer.CategoryTransferRow` | core/transfer.py:7-11 | The inserted row is an expense of that user in that category, with the given account and amount. Its description is the note, or "Transfer to category" when the note is empty. |
| `Transfer.TransferToCategory` | core/transfer.py:5-13 | `transfer_to_category` appends exactly that expense row and then one notification naming the amount and category id. It does not touch commitments, categories or budgets. |
| `Transfer.TransferRaisesSpent` | core/transfer.py:7-11 | After a transfer to a category, that category's `get_spent` grows by exactly the amount, and every other spend is unchanged. |
| `Transfer.SavingsRows` | core/transfer.py:19-27 | Exactly two non-recurring rows of the user, with no category, equal amounts and the note as description: an expense on the source account and an income on the savings account. |
| `Transfer.TransferToSavings` | core/transfer.py:15-27 | `transfer_to_savings` appends exactly those two rows and changes nothing else. |
| `Transfer.SavingsKeepsBalance` | core/transfer.py:15-27 | For every user, total income minus total expense is unchanged by a transfer to savings. |
| `Transfer.SavingsKeepsIncomeTip` | core/transfer.py:15-27 | A transfer to savings never switches the spending-exceeds-income tip on or off. |
| `Transfer.SavingsKeepsSpent` | core/transfer.py:15-27 | A transfer to savings changes no category's spend. |
| `SavingsGoals.SaveGoalAsWritten` | ui/savings_goal_manager.py:41-62 | As written, the handler rejects input exactly when a stripped input fails `isdigit()`. It raises exactly when both pass `isdigit()` but one is not decimal. When it stores, it stores the two decimal values. |
| `SavingsGoals.AsWrittenRaisesOnSuperscript` | ui/savings_goal_manager.py:45-62 | As written, goal "²" passes the digit test and then `int()` raises. |
| `SavingsGoals.SaveGoalOutcome` | ui/savings_goal_manager.py:41-62 | The corrected handler never raises. It stores exactly when both stripped inputs are non-empty decimal digit strings, and it stores their values. |
| `SavingsGoals.CorrectedAgreesOnDecimalText` | ui/savings_goal_manager.py:45-62 | On decimal-digit input the corrected handler and the written one agree. |
| `SavingsGoals.SaveGoalRoundTrip` | ui/savings_goal_manager.py:42-62 | Typing in the rendered numbers, with surrounding blanks, stores exactly those numbers. |
| `SavingsGoals.StripDigits` | ui/savings_goal_manager.py:42-43 | Stripping whitespace around a digit string gives the digit string. |
| `SavingsGoals.SaveGoal` | ui/savings_goal_manager.py:41-67 | Invalid input leaves the ledger unchanged. Valid input replaces only this user's row with the new goal and commitment and total saved 0 (the `REPLACE` reset). |
| `SavingsGoals.TransferCommitment` | ui/savings_goal_manager.py:69-86 | With a row, only this user's `totalSaved` grows by `monthlyCommit` and nothing else changes. Without a row, nothing changes. |
| `SavingsGoals.Progress` | ui/savings_goal_manager.py:95 | Progress is 0 for a zero goal. Otherwise it is the truncated percentage p with `p*goal <= saved*100 < (p+1)*goal`. |
| `SavingsGoals.ProgressAtMostFull` | ui/savings_goal_manager.py:95 | Saving no more than the goal keeps progress at or below 100. |
| `SavingsGoals.TransferNeverLowersProgress` | ui/savings_goal_manager.py:78-95 | Adding the monthly commitment never lowers the progress shown. |
| `SavingsGoals.LoadProgress` | ui/savings_goal_manager.py:88-98 | Only the current user's row is read. Progress is shown exactly when that row exists. |

## Findings

| source | as written | input that shows it | evidently intended | confidence | as-written member | corrected member |
|---|---|---|---|---|---|---|
| ui/savings_goal_manager.py:45-62 | the guard `goal.isdigit()` admits superscript and subscript digits, which `int(goal)` then rejects with ValueError; the exception escapes the button handler | goal "²", commitment "300" | reject any input `int()` cannot convert (a decimal-digit test such as `str.isdecimal()`), so the warning box is shown | high; not executed | `SavingsGoals.AsWrittenRaisesOnSuperscript` (with `SavingsGoals.SaveGoalAsWritten`) | `SavingsGoals.SaveGoalOutcome` (used by `SavingsGoals.SaveGoal`; see `SavingsGoals.SaveGoalRoundTrip`) |

## Left out

- Widgets, message boxes, window layout and the other windows are not modelled. `get_recent_suggestions` (a read ordered by `generated_at` for display) is not modelled either.
- SQLite plumbing and storage errors are not modelled: every query is assumed to succeed. The `SavingsGoal` table is assumed to exist, although `save_goal` creates it only on first use.
- The service call inside `generate_openai_tip` is the parameter `ai`, a function from prompt text to reply. The model name, system prompt and token limit are not modelled. The reply depends only on the prompt, so the model cannot express two different replies to the same summary.
- Amounts are integer cents, not floats. The 0.8 threshold is the exact `5*used > 4*budget`.
- Messages that print an amount (the commitment reminders and the transfer notification) use `FormatCents` (two decimals). Python prints the float's own repr, such as `100.0`. The text differs only in how the amount is written.
- `SavingsGoals.Progress`: computed exactly as `saved*100/goal`. Python's `int(saved/goal*100)` can come out one lower through float rounding (for example 29/100).
- NULL columns are not modelled. A NULL `budget_amount` is read as a value. A NULL `notifications_enabled` fails the `== 0` test and so counts as enabled in Python. Transaction amounts are never NULL here.
- Dates are one `Date` parameter. Python's local `datetime.now()` and SQLite's UTC `DATE('now')` / `CURRENT_TIMESTAMP` can disagree around midnight. `last_paid_date` keeps the date but not the time of day. The transaction `date` column is not modelled.
- Category ids are taken as unique, as their primary key makes them. A duplicated id would multiply rows in the SQL joins; the model uses the first row with that id.
- The `is_read` default of rows written by `add_notification`, and the `is_recurring` default of transfer rows, are taken as 0. The schema file is not part of this model.
- `Text.Strip`: strips the ASCII characters Python treats as whitespace: space, U+0009 to U+000D, and U+001C to U+001F. Python also strips non-ASCII whitespace, such as U+0085, U+00A0 and U+3000; the model does not.
- `Text.DecimalValue`: stands for `int()` on ASCII text only. Python's `int()` also accepts non-ASCII decimal digits (such as Arabic-Indic digits). Since Python 3.11 it raises ValueError on strings of more than 4300 digits. Python's sqlite3 module raises OverflowError when it binds an integer at or above 2^63. None of these is modelled.
- `SavingsGoals.SaveGoalAsWritten`: "raises exactly when" holds only for inputs within the limits named on the `Text.DecimalValue` line. Longer digit strings, or values at or above 2^63, also raise in Python.
- `SavingsGoals.SaveGoalOutcome`: "never raises" holds only within the same limits.
- `Text.PyIsDigit`: covers the ASCII digits and the superscript and subscript digits, which is part of what Python accepts. Other Unicode digits, and `int()` on non-ASCII decimal digits, are not modelled.
- Default arguments are not modelled; every note is passed explicitly. For `transfer_to_category`, an empty note stands for the default `""` and becomes "Transfer to category". `note=None` is not modelled. For `transfer_to_savings`, a caller that omits the note passes "Transfer to savings". The unused `expected_amount` of the salary row is not modelled either.
- `settings` and `salary_expectations` are maps from user to value, so they hold one row per user. The source's `fetch_one` would take the first of several rows; the model cannot express several.
