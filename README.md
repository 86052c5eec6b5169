# gelir-gider, modelled in Dafny

gelir-gider is a personal-finance web app. A FastAPI/SQLAlchemy backend
stores transactions, budgets and debts, and plain JavaScript pages show:

- a dashboard;
- expense and income ledgers;
- a budget page;
- a debt page;
- a payment calendar.

This project models the rules that turn the stored rows into what the pages
show and send, and proves what those rules promise.

- **Debts** (`js/debts.js`):
  - Paid installments are the whole months since the start date, plus one once today's day reaches the due day, clamped to `[0, total_installments]`.
  - Remaining installments, remaining balance and progress follow from that count.
  - The form body is built by the debt type.
- **Calendar** (`js/calendar.js`): a method with the page's loops builds the event list, proved equal to a specification function.
  - Each transaction becomes one coloured event.
  - A loan becomes `total_installments` events as exact copies, moved on month by month with `setMonth`.
  - A credit card becomes six monthly statements on its due day, built with `new Date(y, m, d)`. That constructor rolls an overflowing day into the next month; nothing clamps it.
  - The modal's title and sign rules are modelled too.
- **Dashboard** (`js/app.js`):
  - The bills, then one virtual "debt-{id}" item per owing debt, with no sort.
  - The action each entry gets.
  - The trend sign.
- **Expense ledger** (`js/expenses.js`):
  - The URL built from the chip filter.
  - The merge with the virtual debt items, modelled with `Array.prototype.sort` as a stable sort by date, descending.
  - The 'Tekrarlanan' (recurring) filter.
  - The chip state and the form body.
- **Budget page** (`js/budget.js`): the bar width clamped at 100, the three colour tiers, the raw label, and the form body.
- **Income page** (`js/income.js`): the total shown and the form body.
- **Edit mode**: the `editingId` state machine that the debt, expense and income pages share.
  - Opening the modal on a record holds the record's id.
  - Opening it empty, or closing it, clears the id.
  - Delete does nothing without an id. Submit sends PUT when an id is held and POST otherwise.
  - `closeModal()` runs before the toast's `editingId ? … : …` is evaluated, so a successful submit always shows the "created" text. The model keeps this behaviour and `EditMode.EditThenSubmit` exhibits it.
- **Backend** (`main.py`):
  - the dashboard totals and truncated category percentages;
  - the recurring bills;
  - the filtered, date-ordered, paged transaction query;
  - this month's budget statuses;
  - the budget upsert;
  - the creates, the field-replacing updates (each raising 404 for a missing id) and the deletes;
  - the start-up seed.

  The three tables are sequences held by a `Database` class whose methods change them.
- **Database URL** (`database.py`):
  - the SQLite default;
  - the rewrite of the `postgres://` scheme to `postgresql://`;
  - the `check_same_thread` connect argument, passed to SQLite only.
- **Version bump** (`scripts/increment_version.py`):
  - The regular expression `const APP_VERSION = "(\d+)\.(\d+)\.(\d+)";` is modelled as a matcher.
  - `re.search` and `re.sub` are modelled over it.
  - The script rewrites the file only when it exists and holds a version line.

Shared leaf modules:

- `Wrappers`: the `Option` type.
- `Text`: digits, number rendering, `trim()`, `split(c)[0]`, prefixes and containment.
- `Dates`: JavaScript calendar dates with 0-based months, the rolling `Date` constructor and `setMonth`.
- `Records`: the SQLAlchemy models, the pydantic schemas and the JSON bodies, with JavaScript's null-as-0 reading of the nullable debt columns.
- `Seqs`:
  - map and filter;
  - the flat map;
  - sums, as Python's `sum` and JavaScript's `reduce` fold from the left;
  - offset and limit;
  - the stable descending insertion sort, with its correctness lemma.

Where this differs from a prose reading of the system, the code is followed:

- The card projection does not clamp an overflowing due day.
- A budget whose limit is 0 or less reads 100%, not an error, so it shows as the error tier.
- `mergeBillsAndDebts` does not sort, despite its comment.

Money is `real`. Python's `int()` on a float is truncation toward zero (`Api.Trunc`).

## Model

| member | source | states |
|---|---|---|
| Debts.PaidInstallments | js/debts.js:55-66 | the count is never negative and never above a non-negative total; it is 0 while the month count is not positive, equals the month count between 0 and the total, and equals the total beyond it |
| Debts.RemainingInstallments | js/debts.js:67 | remaining plus paid is the total, and remaining lies in [0, total] for a non-negative total |
| Debts.FutureStartPaysNothing | js/debts.js:65-67 | a start month after today's month gives 0 paid and all installments remaining |
| Debts.BalanceBounds | js/debts.js:67-68 | with a non-negative count and payment, the balance lies between 0 and total × monthly payment |
| Debts.ProgressBounds | js/debts.js:71 | with at least one installment, progress is defined and lies in [0, 100] |
| Debts.MonthsElapsedMonotone | js/debts.js:55-63 | the month count, including the due-day step, never decreases as today advances |
| Debts.PaidMonotone | js/debts.js:55-68 | for a fixed loan, paid never decreases and, for a non-negative payment, the balance never increases as today advances |
| Debts.PaidIgnoresRemainingColumn | js/debts.js:55-68 | the stored remaining_installments plays no part in the paid count |
| Debts.WorkedExample | js/debts.js:55-68 | start 15 Jan 2024, due 15th, 12 installments of 1000: on 15 Jul 2024 7 paid and 5000 left; on 14 Jul 2024 6 paid and 6000 left |
| Debts.DebtPayloadOf | js/debts.js:270-296 | a loan body has remaining = total installments and is due on its start day; with no start date it starts now and is due on the 1st; a card body takes its due day from the form, has no loan fields and starts now |
| EditMode.EditSession.constructor | js/debts.js:25 | a loaded page holds no id (also js/expenses.js:99 and js/income.js:61) |
| EditMode.EditSession.OpenModal | js/debts.js:160-201 | opening on a record holds that record's id; opening empty clears it |
| EditMode.EditSession.CloseModal | js/debts.js:203-208 | closing always clears the held id |
| EditMode.EditSession.HandleDelete | js/debts.js:210-225 | a request is made exactly when a truthy id is held and the user confirms; it is a DELETE of the held record; the modal closes and "Silindi" shows only on success; a thrown fetch shows "Hata" |
| EditMode.EditSession.HandleSubmit | js/debts.js:298-326 | PUT to the held record exactly when a truthy id is held, otherwise POST to the collection, with the given body; on success the id is cleared and the toast is the page's "created" text; otherwise the id is kept and the page's error toast (if any) shows |
| EditMode.EditThenSubmit | js/debts.js:316-319 | editing a record and submitting it successfully sends a PUT to that record yet shows the "created" text, never "Güncellendi!" |
| Calendar.TransactionColor | js/calendar.js:17-19 | orange iff recurring; green iff income and not recurring; red iff neither |
| Calendar.TransactionEvents | js/calendar.js:16-35 | one event per transaction |
| Calendar.InstallmentCount | js/calendar.js:44 | the installment loop runs total_installments times, and not at all for a count below 0 |
| Calendar.LoanEventsUpTo | js/calendar.js:44-60 | the first n installments, n of them, installment k being the k-th event of the loan |
| Calendar.CardEventsUpTo | js/calendar.js:67-85 | the first n statements, n of them, statement k being the k-th event of the card |
| Calendar.BuildEvents | js/calendar.js:16-88 | the loop over the debts produces exactly the specified event list: the transaction events, then each debt's events in the debts' order |
| Calendar.PushDebtEvents | js/calendar.js:39-88 | the forEach callback appends the debt's events and nothing else |
| Calendar.PushInstallments | js/calendar.js:44-61 | the installment loop appends exactly the loan's installments in order |
| Calendar.PushStatements | js/calendar.js:67-86 | the statement loop appends exactly the card's six statements in order |
| Calendar.EventsLayout | js/calendar.js:16-88 | the transaction events come first and unchanged; debt j's events sit, whole, right after those of the debts before it |
| Calendar.AllDebtEventsSplit | js/calendar.js:39-88 | a debt's events lie between those of the debts before it and those of the debts after it |
| Calendar.DebtEventCounts | js/calendar.js:39-88 | a loan gives exactly total_installments events (none for a count below 1), a card exactly 6, any other type none |
| Calendar.LoanTitlesDistinct | js/calendar.js:50 | two installments of a loan never share a title: each "name (k/N)" names its position |
| Calendar.LoanEventDate | js/calendar.js:46-59 | installment i is the start date moved i months on by setMonth; when the start day exists in the target month, it falls on that day, i months on; it carries monthly_payment, 'Kredi Taksiti' and 'loan_payment' |
| Calendar.LoanEventsIgnoreDueDay | js/calendar.js:42-50 | the due day plays no part in a loan's events |
| Calendar.CardTargetsConsecutive | js/calendar.js:64-70 | statement i targets today's month plus i, a valid month of this year or the next |
| Calendar.CardEventDate | js/calendar.js:72-83 | a statement falls on the due day when its month has that day; a due day past the month's end (up to 31) rolls into the next month with no clamp; it carries total_amount, 'Kredi Kartı' and 'card_payment' |
| Calendar.DetailPrefix | js/calendar.js:127 | the sign is '+' iff the type is 'income', otherwise '-' |
| Calendar.TransactionDetailTitle | js/calendar.js:119 | with no '(' in the title, a transaction event's detail title is the trimmed title: the amount is dropped |
| Calendar.InstallmentDetailTitle | js/calendar.js:119 | with no '(' in the loan's name, an installment's detail title is the trimmed name: the counter is dropped |
| Dates.MakeDate | js/calendar.js:72 | `new Date(y, m, d)` always gives a valid calendar date |
| Dates.AddMonths | js/calendar.js:46-47 | `setMonth` on a copy always gives a valid calendar date |
| Dates.MakeDateInRange | js/calendar.js:72 | an in-range day and month are kept as they are |
| Dates.MakeDateRollsOver | js/calendar.js:72 | a day past the month's end rolls into the first days of the next month |
| Dates.AddMonthsSameDay | js/calendar.js:46-47 | when the day exists in the target month, adding k months keeps the day and moves the month number by k |
| Dates.AtOrAfterStartOfMonth | main.py:137-147 | a date-time is at or after the first of now's month iff its month is now's month or later |
| Dates.InstantMonotone | js/expenses.js:77 | the sort key orders date-times as time does |
| Text.TrimProperties | js/calendar.js:119 | `trim()` gives a piece of its input with no whitespace at either end |
| Text.BeforeFirst | js/calendar.js:119 | `split('(')[0]` is a prefix without '(' that stops at the first '(' |
| Seqs.SortDescCorrect | js/expenses.js:77 | the sort is by descending key, a permutation, and stable: the items sharing a key keep their order |
| Records.ItemIdString | js/app.js:84 | an id renders with the "debt-" prefix exactly when it is a virtual debt id |
| Dashboard.DueDateText | js/app.js:75-81 | the text ends with "{due day} {month}" and starts with "Gecikti: " exactly when today's day is past the due day |
| Dashboard.DebtBill | js/app.js:51-92 | a debt yields an item exactly when it is not a loan with at most 0 remaining installments |
| Dashboard.MergeLayout | js/app.js:44-95 | the result is every bill, unchanged and in order, then one virtual item per owing debt, in the debts' order, and nothing else |
| Dashboard.DebtBillsOfOwing | js/app.js:51-92 | the filtered map gives exactly the owing debts' items, in order |
| Dashboard.VirtualBillFields | js/app.js:57-91 | a virtual item has id "debt-{id}", a "(Taksit)" or "(Ekstre)" title, the monthly payment of a loan or the total of anything else, the status 'unpaid' and an icon chosen by type; it is marked overdue exactly when today's day is past the due day |
| Dashboard.MergeCounts | js/app.js:64-92 | an owing debt appears as often as among the debts; a loan with nothing remaining never appears |
| Dashboard.ActionFor | js/app.js:166-183 | a virtual item gets the 'Detay' link; otherwise 'unpaid' gets the pay button for its id, 'completed' gets 'Ödendi' and any other status gets 'Otomatik', exactly one of them |
| Dashboard.VirtualItemsNotPayable | js/app.js:166-175 | an entry after the bills is virtual and 'unpaid', yet never gets a pay button |
| Dashboard.TrendSign | js/app.js:129 | '+' iff the trend is positive, otherwise empty |
| Expenses.TransactionsUrl | js/expenses.js:39-45 | the base URL, with "&category=C" appended exactly when C is non-empty and not 'Tekrarlanan' |
| Expenses.DebtEntry | js/expenses.js:57-71 | a debt yields an item exactly when it is not a loan with at most 0 remaining installments |
| Expenses.AllItemsLayout | js/expenses.js:57-74 | before sorting: the transactions in order, then one virtual item per owing debt, in order |
| Expenses.DebtItemFields | js/expenses.js:62-70 | a virtual item has id "debt-{id}", category 'Borç/Kredi', the date now, the monthly payment of a loan or the total of anything else, and counts as virtual |
| Expenses.LedgerSpec | js/expenses.js:74-83 | the ledger is newest first; without 'Tekrarlanan' it is a permutation of the merged list keeping same-date order; with it, it holds exactly the recurring and virtual items, same-date order kept |
| Expenses.ChipFilter.constructor | js/expenses.js:6 | no chip is selected at first |
| Expenses.ChipFilter.Select | js/expenses.js:23 | a click selects that chip's category |
| Expenses.ChipFilter.Url | js/expenses.js:39-45 | under 'Tekrarlanan' the server is asked for all expenses |
| Expenses.ExpensePayload | js/expenses.js:213-220 | the body is an expense with the form's fields, the checkbox's state and the submission time |
| BudgetView.BarWidth | js/budget.js:40 | the width is min(percentage, 100): never above 100, and equal to the percentage up to 100 |
| BudgetView.TierOf | js/budget.js:44-50 | error iff ≥ 100, warning iff in [80, 100), success iff < 80 |
| BudgetView.LabelUnclamped | js/budget.js:56-60 | past 100% the label shows the real figure, unlike the bar |
| BudgetView.TierOfStatus | js/budget.js:44-50 | on the backend's percentage, the error tier shows iff the limit is not positive or spending has reached it; a non-positive limit fills the bar |
| BudgetView.BudgetPayload | js/budget.js:101-104 | the body is exactly the category and the amount |
| Income.IncomeTotalAdditive | js/income.js:51 | the total of no items is 0, and totals add over concatenation |
| Income.IncomeTotalBounds | js/income.js:51 | with non-negative amounts the total is at least each amount |
| Income.IncomePayload | js/income.js:132-138 | the body is an income with the form's fields, no is_recurring and the submission time |
| Api.Trunc | main.py:70 | `int()` truncates toward zero: within one below a non-negative value and within one above a negative one |
| Api.ChartEntries | main.py:65-72 | one entry per chart category |
| Api.ChartData | main.py:65-72 | the loop fills exactly the specified chart: Mutfak, Sağlık, Ulaşım, Diğer, each the truncated share, or 0 without a positive total |
| Api.CategoriesWithinTotal | main.py:68 | with non-negative amounts, each category total is non-negative and the four add up to at most the total |
| Api.ChartBounds | main.py:65-72 | with non-negative amounts, each chart value lies in [0, 100] and the four add up to at most 100 |
| Api.ValuesWithinHundred | main.py:69-70 | four non-negative parts of a total give percentages in [0, 100] adding up to at most 100 |
| Api.DashboardStatsOf | main.py:58-79 | the income and expense totals sum their rows, the balance is their difference, and the chart is built from the expense total |
| Api.Bills | main.py:83 | only recurring rows of the table are returned, and every recurring row is returned as often as it occurs in the table |
| Api.FilteredRows | main.py:97-100 | the two optional filters together keep exactly the matching rows, in table order; an empty filter is no filter |
| Api.QuerySpec | main.py:95-102 | the page holds only matching rows, newest first, with length min(limit, matching − skip) or 0; it is exactly rows skip to skip + limit of the matching rows in the stable newest-first order; with no skip and a limit covering them, it is all of them |
| Api.CountsTowardMonth | main.py:137-148 | an expense of the category counts iff it is dated in now's month or later |
| Api.PercentSpec | main.py:151 | a non-positive limit gives 100; otherwise the percent reaches 100 iff spending reaches the limit, and for non-negative spending it is the whole part of the share |
| Api.BudgetStatuses | main.py:140-160 | one status per budget, in order, each with this month's spending and its percent |
| Api.UpsertBudgetSpec | main.py:165-171 | categories stay unique; one budget has the category with the new amount; the other budgets are unchanged; no id is lost |
| Api.ApplyTransactionSpec | main.py:228-229 | an update leaves exactly the submitted schema fields and keeps the id and date |
| Api.ApplyDebtSpec | main.py:205-206 | an update leaves exactly the submitted schema fields and keeps the id and start_date |
| Api.TransactionCreateOf | schemas.py:5-16 | the body's fields are kept; is_recurring defaults to false, status to 'completed', icon to 'payments'; the date is not read |
| Api.DebtCreateOf | schemas.py:53-63 | the body's schema fields are kept; start_date is not read |
| Api.EditResetsBillFields | main.py:222-233 | saving a bill from the expense form resets it to 'completed', the default icon and no due text |
| Api.EditKeepsStartDate | main.py:199-210 | saving a debt never moves its start date |
| Api.MaxId | models.py:8 | at least 0 and at least every id |
| Api.NextId | models.py:8 | a new row's id is positive and above every existing id |
| Api.SeededRows | main.py:27-45 | the eight seed rows inserted in order get ids 1, 2, … |
| Api.SeededNextId | main.py:43-45 | after k seed rows the largest id is k |
| Api.Database.constructor | main.py:9 | the tables start empty and valid |
| Api.Database.SeedData | main.py:22-45 | nothing is added when any transaction exists; into an empty table the eight seed rows go in order; ids stay unique |
| Api.Database.CreateTransaction | main.py:104-111 | the row gets the next id and the insertion time, is appended, and keeps ids unique |
| Api.Database.CreateDebt | main.py:182-188 | the row gets the next id and the insertion time, is appended, and keeps ids unique |
| Api.Database.UpdateTransactionStatus | main.py:113-122 | a missing id raises 404 with nothing changed; otherwise only that row's status changes; ids stay unique |
| Api.Database.UpdateTransaction | main.py:222-233 | a missing id raises 404 with nothing changed; otherwise that row gets the schema fields, keeping its id; ids stay unique |
| Api.Database.DeleteTransaction | main.py:213-220 | a missing id raises 404 with nothing changed; otherwise that row is removed and "Deleted" returned; afterwards no row has the id, every row with another id is kept, and ids stay unique |
| Api.Database.UpdateDebt | main.py:199-210 | a missing id raises 404 with nothing changed; otherwise that row gets the schema fields, keeping id and start_date; ids stay unique |
| Api.Database.DeleteDebt | main.py:190-197 | a missing id raises 404 with nothing changed; otherwise that row is removed and "Deleted" returned; afterwards no row has the id, every row with another id is kept, and ids stay unique |
| Api.Database.CreateOrUpdateBudget | main.py:162-175 | the table becomes the upsert of the body, and the returned row is in the table with the category and amount; budget ids and categories stay unique |
| Api.AppendFreshId | main.py:104-111 | appending a row with the next id keeps ids unique |
| Api.DeleteRemovesId | main.py:213-220 | with unique keys, deleting the row at i removes every row with its key, keeps every other row, and keeps the keys unique |
| Api.UpsertKeepsUnique | main.py:165-171 | an upsert whose new row takes the next id keeps budget ids unique |
| DatabaseConfig.WithDefault | database.py:8-12 | an unset or empty DATABASE_URL gives "sqlite:///./finance.db"; any other value is kept |
| DatabaseConfig.ReplaceFirst | database.py:16 | a string without the target is unchanged |
| DatabaseConfig.ReplaceFirstLeftmost | database.py:16 | when the target first occurs at k, the result is the text before k, the replacement, and the text after that occurrence |
| DatabaseConfig.FixScheme | database.py:15-16 | a "postgres://" URL becomes "postgresql://" followed by the same rest; any other URL is unchanged |
| DatabaseConfig.Engine | database.py:18-24 | check_same_thread=False is passed iff the final URL contains "sqlite" |
| DatabaseConfig.NewSchemeIsNotLegacy | database.py:15-16 | a "postgresql://" URL never starts with "postgres://" |
| DatabaseConfig.NoLegacyScheme | database.py:8-16 | the final URL never starts with "postgres://" |
| DatabaseConfig.NormaliseIdempotent | database.py:8-16 | normalising the normalised URL changes nothing |
| DatabaseConfig.OtherUrlsUnchanged | database.py:15 | a non-empty "postgresql://" URL, or any URL not starting with "postgres://", is passed through unchanged |
| DatabaseConfig.DefaultEngine | database.py:11-24 | with no DATABASE_URL, the engine is the local SQLite file with the same-thread check off |
| VersionBump.MatchAt | scripts/increment_version.py:15 | a match found at i starts at i and ends inside the string |
| VersionBump.SearchFrom | scripts/increment_version.py:15 | `re.search` gives the leftmost match: none before it, or none at all |
| VersionBump.MatchDigits | scripts/increment_version.py:15 | each of a match's three groups is a non-empty run of digits inside the string |
| VersionBump.MatchSound | scripts/increment_version.py:15 | whatever matches is the version line made of the match's groups |
| VersionBump.MatchComplete | scripts/increment_version.py:15 | every version line with non-empty digit groups is matched, and its groups read back as those digits |
| VersionBump.SearchFinds | scripts/increment_version.py:15 | the search returns the first position that holds a match |
| VersionBump.SubSkip | scripts/increment_version.py:22-26 | `re.sub` copies text that holds no match unchanged |
| VersionBump.NoMatchUnchanged | scripts/increment_version.py:22-26 | without a version line, substitution changes nothing |
| VersionBump.BumpLayout | scripts/increment_version.py:22-26 | the new content keeps the text before the first match and holds the new line there |
| VersionBump.BumpWithReparses | scripts/increment_version.py:15-26 | the rewritten content is found again by the same search and reads as the new version |
| VersionBump.BumpReparses | scripts/increment_version.py:15-26 | after a bump the file parses as (major, minor, patch + 1), so a second bump gives patch + 2 |
| VersionBump.BumpSpec | scripts/increment_version.py:15-26 | a bump happens iff a version line is found; it keeps major and minor and adds one to patch; with no line, substitution leaves the content alone |
| VersionBump.VersionFile.constructor | scripts/increment_version.py:7-12 | the file as found: whether it exists, and its content |
| VersionBump.VersionFile.Increment | scripts/increment_version.py:6-33 | a missing file or a file with no version line is left as it is, with the script's error message; otherwise the file becomes the bumped content and the message names the new version |

## Left out

- DOM plumbing is left out: HTML strings, `innerHTML`, class toggles, event listeners, `confirm()` and widget configuration. `confirm()`'s answer is a parameter of `HandleDelete`.
- The network is left out (`fetch`, `Promise.all`). The fetched arrays and each fetch's outcome (ok, not ok, thrown) are parameters.
- The clock is a parameter (`today`, `now`).
- Locale formatting (`toLocaleString`, `Intl.NumberFormat`, Turkish month names) is a parameter or left out.
- Timezones and UTC conversion (`toISOString`) are left out. Dates are local calendar dates.
- Floating point, `parseFloat`, `parseInt` and `toFixed` are not modelled. Amounts are exact reals and forms arrive parsed.
- FastAPI routing, SQLAlchemy sessions and engine creation are not modelled. The tables are sequences in table order. `ORDER BY date DESC` breaks ties in table order, which a real engine does not promise.
- File I/O is not modelled. The version file is a class whose fields stand for its existence and content. scripts/install_hook.py is not part of this model: it only writes a fixed file.
- js/notifications.js, js/ui.js and js/data.js are not part of this model. Neither are the dashboard chart (js/app.js:226-330) and the calendar widget set-up (js/calendar.js:95-115).
- `payBill` (js/app.js:203-224) and the dashboard's quick-add form (js/app.js:332-400) are not modelled. Neither are the welcome text and the static stat values of js/app.js:102-118.
- main.py:234-251 is not part of this model: it is a stray duplicate of the budget and debt endpoints after `update_transaction`. Python would reject its indentation. Only the first definitions are modelled.
- `updateTotal` is not modelled (js/expenses.js:86): it is called, but not defined in the page.
- Dates.MakeDate: follows JavaScript for years and days of any size, except that `new Date(y, m, d)` maps years 0 to 99 to 1900 to 1999, which is not modelled.
- A null loan column is read as 0 wherever the pages compute with it. A virtual item copying a null amount carries 0 rather than null.
- Api.NextId: a new row takes the largest id plus one, which is SQLite's rowid rule. On PostgreSQL ids come from a sequence and are not reused after the highest row is deleted; that rule is not modelled.
- Calendar.LoanEvent: a null monthly_payment is carried as 0. On the page the event holds null, and the detail modal's `amount.toLocaleString` (js/calendar.js:130) then throws; that failure is not modelled.
- Seqs.Drop: `skip` and `limit` are natural numbers. A negative OFFSET or LIMIT, an error or "no limit" depending on the engine, is not modelled.
- Seqs.SortDescCorrect: the in-place `allItems.sort` is modelled as a function on the list's value. Sharing of the array is not modelled.
- The `setattr` loops of main.py:205-206 and main.py:228-229 are modelled as one record update over every schema field, with the same assignments and no intermediate states.
- VersionBump.MatchAt: `\d` is modelled as the ASCII digits only; Python's `re` also accepts other Unicode decimal digits.
- VersionBump.VersionFile.Increment: a read or write error of the file is not modelled.
- Expenses.ChipFilter.Url: only the 'Tekrarlanan' case is stated here. The other cases are the contract of `Expenses.TransactionsUrl`.
