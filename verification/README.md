# Daily expense tracker: a Dafny model of the in-memory ledger

The tracker keeps an ordered table of expenses, one `(Amount, Category, Date)` row each.
It only ever appends to that table. It answers three queries over it: a case-insensitive
category filter, totals per calendar month in chronological order, and totals per category.
An interactive menu feeds it. The menu re-prompts until the amount is acceptable and the
date is a real `YYYY-MM-DD` date, and it trims and title-cases the category text. The
program's amount check lets NaN and +infinity through (see Findings). The model's menu uses
the intended check instead: a finite amount greater than zero.

The model is split into modules that follow `expenses.py`:

- `Calendar`: dates, leap years and days per month. `ParseDate` reads text the way
  `strptime(..., '%Y-%m-%d')` does, with the same digit alternatives for month and day.
  `FormatDate` writes a date back as `YYYY-MM-DD`.
- `Text`: `str.strip()`, `str.title()` and `str.lower()`, the normalisation
  `Normalize = title ∘ strip`, and Python's code-point order on strings.
- `GroupBy`: a generic group-by-and-sum. It produces one row per distinct key, keys in
  ascending order, as `groupby(...)['Amount'].sum()` does with its default sort.
- `Amounts`: what `float()` can return (finite, infinite, NaN). It holds the positive-amount
  check as written and as intended (see Findings).
- `Ledger`: the `Expense` row and the queries as functions with their lemmas. The
  `ExpenseTracker` class holds the table in a `seq` field that `AddExpense` reassigns.
- `Shell`: the re-prompting input loops, one menu round, and the menu loop. Input is a
  sequence of typed lines.

Amounts are exact `real`s. Dates are `(year, month, day)` values with a validity predicate.
The four queries are methods without a `modifies` clause. So they leave the table as it is,
and asking the same query twice without an addition in between gives the same report.

Behaviours of the code that are easy to miss, and that the model keeps:

- The category totals come out sorted by category, because pandas' `groupby` sorts keys by
  default.
- Besides `YYYY-MM-DD`, the date check accepts one-digit months and days (`2024-1-5`) and a
  space-padded day (`2024-01- 5`), as `strptime` does.
- An empty category (a blank line) is accepted. The code never checks for it.
- A menu choice with spaces around it is read as the number (`int()` skips them). The ASCII
  separator characters U+001C to U+001F are the exception: `int()` refuses a line holding one.

## Model

| member | source | states |
|---|---|---|
| `Calendar.DaysInMonth` | expenses.py:136 | February has 29 days in leap years and 28 otherwise; April, June, September and November have 30; every other month has 31 |
| `Calendar.ParseDate` | expenses.py:131-139 | an accepted text gives a valid date of years 1 to 9999, is 8 to 10 characters long with a dash after four year digits, and its year is the number those digits write |
| `Calendar.ParseCanonical` | expenses.py:131-139 | on every `YYYY-MM-DD` text the check gives exactly the year, month and day written, and refuses the text exactly when they do not name a calendar date |
| `Calendar.FormatDate` | expenses.py:61 | a valid date is written as ten characters `YYYY-MM-DD`, zero-padded, whose digit groups write its year, month and day |
| `Calendar.ParseFormatRoundTrip` | expenses.py:136 | reading the `YYYY-MM-DD` text of any valid date gives that date back |
| `Calendar.ParsedDateFormats` | expenses.py:136 | every date the validator accepts can be written as `YYYY-MM-DD` and read back unchanged |
| `Calendar.ParseDateExamples` | expenses.py:131-139 | `2024-13-40`, `not-a-date`, `2023-02-29`, year 0 and trailing digits are refused; `2024-02-29` and `2024-1-5` are accepted |
| `Text.Strip` | expenses.py:164 | the result neither starts nor ends with whitespace; only whitespace was removed on either side |
| `Text.StripPadded` | expenses.py:164 | strip() removes exactly the whitespace around a text that has none at its own ends |
| `Text.TitleShape` | expenses.py:164 | `Title`/`TitleFrom` (`str.title()`) upper-case a cased character exactly when no cased character precedes it, lower-case the other cased ones and leave every other character as it is |
| `Text.TitleKeepsLower` | expenses.py:164 | title() returns a text of the same length, equal to the input once both are lower-cased, with whitespace at the same positions |
| `Text.TitleDependsOnLower` | expenses.py:164 | title() of two texts that are equal ignoring case is the same |
| `Text.TitleIdempotent` | expenses.py:164 | title() applied twice equals title() applied once |
| `Text.NormalizeIdempotent` | expenses.py:164 | `Normalize` (`.strip().title()`) is idempotent: a category that has been stripped and title-cased is left unchanged by doing it again |
| `Text.NormalizedCaseInsensitive` | expenses.py:70 | two normalised categories are equal ignoring case exactly when they are equal |
| `GroupBy.Insert` | expenses.py:89 | adding an amount under a key adds it to that key's total only, adds the key, and adds it to the grand total |
| `GroupBy.GroupSum` | expenses.py:89 | the grouped result has the keys of its input, each key's total equals the input's, and the grand total is preserved |
| `GroupBy.GroupSumAscending` | expenses.py:89 | the grouped result's keys are strictly ascending, so no key occurs twice |
| `GroupBy.GroupSumCorrect` | expenses.py:108 | ascending distinct keys, exactly the input's keys, each row holding its group's sum, grand total preserved |
| `Amounts.AcceptAmount` | expenses.py:124-127 | an amount is accepted exactly when it is a finite number greater than zero, and it is returned unchanged |
| `Amounts.NaNPassesAsWritten` | expenses.py:123-127 | the check as written (`AcceptedAsWritten`) accepts NaN and +infinity; the intended check refuses both |
| `Amounts.AcceptAmountRefinesAsWritten` | expenses.py:124-127 | the intended check accepts nothing the written one refuses and agrees with it on every finite amount |
| `Ledger.ToTimestamp` | expenses.py:43 | converting a date text succeeds exactly when it names a valid date within the timestamp range, and gives that date |
| `Ledger.FilterCategory` | expenses.py:70 | every row the filter returns matches the query ignoring case, and there are no more of them than rows |
| `Ledger.FilterIsSubsequence` | expenses.py:70 | the filtered rows keep their original relative order |
| `Ledger.FilterKeepsExactlyMatches` | expenses.py:70 | every matching row occurs in the result as often as in the table; no other row occurs |
| `Ledger.MonthOrder` | expenses.py:89 | months are strictly and totally ordered chronologically |
| `Ledger.ByMonthAgrees` | expenses.py:88 | the (month, amount) column pairs carry the same per-month sums, grand total and set of months as the rows |
| `Ledger.MonthlyTotalsCorrect` | expenses.py:87-89 | `MonthlyTotals` has one row per month present in the table, in chronological order, each holding what was spent that month |
| `Ledger.MonthlyConservation` | expenses.py:89 | the monthly totals sum to the total of all amounts |
| `Ledger.TextOrder` | expenses.py:108 | Python's string order is a strict total order |
| `Ledger.ByCategoryAgrees` | expenses.py:108 | the (category, amount) column pairs carry the same per-category sums, grand total and set of categories as the rows |
| `Ledger.CategoryTotalsCorrect` | expenses.py:108 | `CategoryTotals` has one row per distinct category string, in ascending order, each holding what was spent under it |
| `Ledger.CategoryConservation` | expenses.py:108 | the category totals sum to the total of all amounts |
| `Ledger.SummariesAgree` | expenses.py:89 | the monthly and the category summaries account for the same money |
| `Ledger.MonthlyExample` | expenses.py:87-89 | 10 and 20 spent in January 2024 and 5 in February give the rows `2024-01: 30` then `2024-02: 5` |
| `Ledger.CategoryExample` | expenses.py:108 | 10 and 5 under "Food" and 7 under "Transport" give `Food: 15`, `Transport: 7` |
| `Ledger.FilterExample` | expenses.py:70 | filtering with "food" or "FOOD" finds a row of category "Food" |
| `Ledger.FilterIsCategoryGroup` | expenses.py:70 | with normalised categories, filtering by a normalised query selects exactly that category's rows, whose total is the category's total |
| `Ledger.ExpenseTracker.constructor` | expenses.py:8-11 | the tracker starts with the rows loaded at start-up |
| `Ledger.ExpenseTracker.AddExpense` | expenses.py:32-50 | for a date text the date check accepted: on a successful conversion the table gains the new row at its end, earlier rows unchanged; on a failed one the table is unchanged |
| `Ledger.ViewReport` | expenses.py:52-62 | an empty table is reported as "no expenses"; otherwise every row is listed, in order |
| `Ledger.FilterReport` | expenses.py:64-78 | "no expenses" exactly for an empty table, "no match" exactly when no row matches the query ignoring case, otherwise the non-empty filtered rows |
| `Ledger.MonthlyReport` | expenses.py:80-92 | "no expenses" exactly for an empty table, otherwise the non-empty monthly totals |
| `Ledger.CategoryReport` | expenses.py:101-111 | "no expenses" exactly for an empty table, otherwise the non-empty category totals |
| `Ledger.ExpenseTracker.ViewAll` | expenses.py:52-62 | gives the "view all" report of the current table, which it leaves unchanged |
| `Ledger.ExpenseTracker.FilterByCategory` | expenses.py:64-78 | gives the filter report of the current table for the query, which it leaves unchanged |
| `Ledger.ExpenseTracker.MonthlySummary` | expenses.py:80-92 | gives the monthly-summary report of the current table, which it leaves unchanged |
| `Ledger.ExpenseTracker.CategoryAnalysis` | expenses.py:101-111 | gives the category-analysis report of the current table, which it leaves unchanged |
| `Shell.ParseInt` | expenses.py:156 | a line reads as a number exactly when, without its surrounding whitespace, it is digits with an optional sign, and it holds no U+001C to U+001F separator; a negative number needs a minus sign |
| `Shell.ParseIntDigits` | expenses.py:156 | a line holding digits with an optional sign and whitespace around them reads as the digits' value, leading zeros included, negated after a minus sign |
| `Shell.Dispatch` | expenses.py:161-186 | numbers 1 to 6 select the menu entries in order, 1 being "add" and 6 "exit"; every other number selects none |
| `Shell.ReadAmount` | expenses.py:123-127 | a typed line gives an amount exactly when `float()` reads it as a finite number above zero, and the amount is that number |
| `Shell.DecimalText` | expenses.py:156 | the decimal text of a number is a non-empty string of digits denoting that number |
| `Shell.ParseIntDecimal` | expenses.py:156 | a line holding a number's digits, with surrounding whitespace other than U+001C to U+001F, reads as that number |
| `Shell.GetValidAmount` | expenses.py:119-129 | returns the first acceptable amount (greater than zero) and its position; every line before it was refused; nothing if the input ends |
| `Shell.GetValidDate` | expenses.py:131-139 | returns the first line that is a valid date, unchanged, and its position; every line before it was refused; nothing if the input ends |
| `Shell.ExtendsWithTransitive` | expenses.py:144-188 | appending well-formed rows twice is appending well-formed rows once |
| `Shell.EntryExtends` | expenses.py:161-166 | a choice-1 entry adds at most one row to the table, and that row is well-formed |
| `Shell.AddFromInput` | expenses.py:161-166 | choice 1 reads the first acceptable amount, the next line as category, and the first valid date after it, and appends the row of that amount, normalised category and converted date; it fails, adding nothing, only when the input holds no complete entry |
| `Shell.Round` | expenses.py:155-188 | choice 6 exits; a non-number goes straight back to the menu; choice 1 appends the row its entry describes, and shows nothing only when the input holds no complete entry; choices 2 to 5 show the view, filter (for the normalised next line), monthly and category reports of the table and leave it unchanged; any other number shows nothing; every round except exit goes back to the menu after its "press enter" line unless the input ends first |
| `Shell.RunSession` | expenses.py:144-188 | the loop ends on choice 6 or at the end of the input; the table only gains well-formed rows at its end |
| `Shell.Run` | expenses.py:141-188 | the program's final table is the loaded table followed by well-formed rows only |

## Left out

- Persistence: `load_expenses` and `save_expenses` (expenses.py:13-30) are CSV file I/O. The constructor takes the loaded rows as a parameter instead. The load's partial-failure quirk is not modelled: a failed date conversion at line 19 leaves the raw table assigned by line 17.
- Charts (expenses.py:95-99, 114-117) and all printed text: they are display side effects. Of the rendering, only the `YYYY-MM-DD` date text is modelled, as `FormatDate`.
- `float()` parsing of the amount text: a parameter of the shell methods, from text to an optional `Float`.
- `int()` is modelled for ASCII digits and an optional sign. Underscore separators and non-ASCII digits are not modelled.
- Letter case: `lower()` and `title()` change only ASCII letters, and other characters count as uncased. Whitespace uses Python's full `isspace()` set.
- `strptime` digits: only ASCII digits are modelled (Python's `\d` also accepts other Unicode decimal digits).
- Ledger.ToTimestamp: pandas' conversion is not modelled in general. It is modelled only for texts the date check accepted, which is all `add_expense` is ever given: it assumes pandas reads such a text as the same calendar date and fails exactly outside the nanosecond timestamp range (1677-09-22 to 2262-04-11 at midnight). `AddExpense` requires an accepted date text.
- Floating-point sums: amounts and totals are exact reals, so rounding in pandas' sums is not modelled.
- The "Press Enter to continue" line: it is read but its content is ignored.
- The end of input: it ends the session (`InputEnded`); the program itself would stop on an end-of-file error.
- Shell.RunSession: states how the session ended and that the table only gains well-formed rows at its end. `Shell.Round` states, for a single round, which row it adds, what it shows and where the next round starts; `RunSession` does not compose those statements into a description of the whole session.
- Shell.Run: states the same as `Shell.RunSession`, for a tracker over the loaded rows; it does not list the rows added.
- Shell.GetValidAmount: uses the intended amount check (a finite number greater than zero), through `Shell.ReadAmount`. The program as written also accepts NaN and +infinity, so it can add rows with such amounts; the model's menu does not. `Amounts.NaNPassesAsWritten` states the written check's behaviour.
- Shell.ReadAmount: refuses a line that `float()` reads as NaN or +infinity, where the program as written returns it as the amount; it applies the intended check `Amounts.AcceptAmount` (see Findings).

## Findings

| source | as written | input that shows it | evidently intended | confidence | as-written member | corrected member |
|---|---|---|---|---|---|---|
| expenses.py:124 | the amount is refused only when `amount <= 0` | the line `nan`: `float` gives NaN and `nan <= 0` is false, so NaN is returned as an amount; `inf` passes too | accept only a finite number greater than zero | high; not executed | `Amounts.NaNPassesAsWritten` | `Amounts.AcceptAmount` |
