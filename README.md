# Expense tracker: validation and the expense manager

This project models the core of a small personal expense tracker. Expenses are records of a
date, a description and an amount. `ExpenseManager` adds expenses through a validation rule,
lists them, deletes them and totals them. The model is in six modules:

- `Records` (records.dfy): the `Expense` record and the errors the core raises
  (`FieldsRequired`, `InvalidDateFormat`, `NegativeAmount`, and the store's `NotFound` and
  `IndexOutOfRange`).
- `Dates` (dates.dfy): the date check `datetime.strptime(date, "%Y-%m-%d")`. It follows the
  directives as CPython's `strptime` matches them. The year is four digits. The month may be one
  digit. The day may be one digit or a space followed by one digit. Nothing may follow the day.
  The parsed date must exist: year 0, and February 29 outside leap years, are refused.
- `Validation` (validation.dfy): the `validate_expense` decorator as a plain function. Its three
  checks run in order, and the first one that fails decides the error.
- `FakeStore` (fake_store.dfy): the in-memory store of the test fixture `manager_mock`. It is a
  class holding the list `fake_db` as a `seq<Expense>`. `Add` appends to it. `Delete` follows
  Python's `list.pop`, including negative indices.
- `Expenses` (expenses.dfy): `ExpenseManager` as a class that holds a reference to the store
  and changes it only through the store's methods. `Sum` is the total of the stored amounts,
  with lemmas for appending, concatenating and removing records.
- `ExpenseTests` (expense_tests.dfy): each pytest case as a method on a fresh fixture. Each
  method returns what its test asserts about and states it in its `ensures`.

The module holding the exception classes (`errors`) and the storage module the manager
imports are not part of this model. The store's behaviour comes from the test fixture, which
is the only concrete store the core is exercised against.

Points of the source's behaviour that the model keeps:

- A falsy amount, including 0, raises `FieldsRequiredError`, before the date is looked at.
- A bad date raises a plain `ValueError("Invalid date format. Use YYYY-MM-DD")`.
- `strptime` accepts one-digit months and days, and a space before a one-digit day.
- `fake_delete` accepts negative indices. They pass its "not found" guard, and `list.pop` counts
  them from the end of the list.

## Model

| member | source | states |
|---|---|---|
| `Dates.DaysInMonth` | expenses.py:17 | The month lengths `datetime.date` enforces: 29 days exactly for February of a leap year, 28 for February otherwise, 31 for the seven long months, 30 for the rest. |
| `Dates.ParseYear` | expenses.py:17 | `%Y` accepts exactly the four-digit tokens, and the value is the number they spell: the token is that number written with four digits. |
| `Dates.ParseMonth` | expenses.py:17 | `%m` accepts only a month from 1 to 12, written as two digits with a leading zero or, below 10, as one digit; the token is that spelling of the value. |
| `Dates.ParseDay` | expenses.py:17 | `%d` accepts only a value from 1 to 31, written as two digits with a leading zero or, below 10, as one digit alone or after a space; the token is that spelling of the value. |
| `Dates.ParseYearComplete` | expenses.py:17 | Every year from 0 to 9999 written with four digits is read back as itself. |
| `Dates.ParseMonthComplete` | expenses.py:17 | Every allowed spelling of every month from 1 to 12 is accepted as that month. |
| `Dates.ParseDayComplete` | expenses.py:17 | Every allowed spelling of every day number from 1 to 31 is accepted as that number. |
| `Dates.ParseDate` | expenses.py:16-19 | A string that `strptime` accepts denotes a real calendar date: year 1 to 9999, month 1 to 12, a day that exists in that month. It is 8 to 10 characters long, with `-` after the four-digit year. |
| `Dates.ParseSpelledDate` | expenses.py:16-19 | Every spelling of every calendar date (four-digit year, month in either form, day in any of its three forms, separated by `-`) is accepted and parses to that date. |
| `Dates.ParsedDateIsSpelling` | expenses.py:16-19 | Every accepted string is one of those spellings of the date it parses to, so together with `ParseSpelledDate` the accepted strings are exactly the spellings of calendar dates. |
| `Dates.ParseFormatRoundTrip` | expenses.py:16-19 | Every calendar date written as `YYYY-MM-DD` is accepted and parses back to the same date. |
| `Dates.FormatParseRoundTrip` | expenses.py:16-19 | An accepted ten-character string without a space-padded day is exactly the canonical `YYYY-MM-DD` text of its date. |
| `Dates.ShortFieldsAccepted` | expenses.py:17 | `2026-1-5` and `2026-12- 5` are accepted, because `strptime` takes a one-digit month and a space-padded day. |
| `Dates.LeapDayAccepted` | expenses.py:17 | February 29 is accepted in 2024 and in 2000, a century year divisible by 400. |
| `Dates.LeapDayRefused` | expenses.py:16-19 | February 29 is refused in 2026 and in 1900, a century year not divisible by 400. |
| `Dates.OutOfRangeExamples` | expenses.py:16-19 | Year 0, a leftover character after the day, and month 13 are refused. |
| `Validation.Validate` | expenses.py:14-21 | Each outcome, both directions. It passes iff both strings are non-empty, the amount is positive and the date parses. It gives `FieldsRequired` iff a string is empty or the amount is 0, whatever else holds. It gives `InvalidDateFormat` iff the fields are present and the date does not parse, even for a negative amount. It gives `NegativeAmount` iff the fields are present, the date parses and the amount is below 0, so `<= 0` is reachable only for negative amounts. |
| `Validation.FirstFailure` | expenses.py:14-21 | The outcome of an ordered list of checks passes iff every check passes. Otherwise it is the failure of some check all of whose predecessors pass, so no later failure is accumulated. |
| `Validation.ValidateIsFirstFailure` | expenses.py:14-22 | The rule reports exactly the first failing one of the three independent checks (fields, date, amount), in that order. |
| `FakeStore.RemoveAt` | test_expenses.py:17 | Popping position `i` shortens the list by one. It keeps the records before `i`, shifts those after it down by one, and removes exactly one copy of `s[i]`. |
| `FakeStore.PopPosition` | test_expenses.py:14-17 | `fake_delete` reports not found iff the index is at or past the end or the list is empty. It removes a record iff `-len <= id < len`, at `id` or at `len + id` for a negative index. It raises `IndexError` iff the list is non-empty and `id < -len`. |
| `FakeStore.MemoryStore.constructor` | test_expenses.py:9 | A fresh fixture store is empty. |
| `FakeStore.MemoryStore.Add` | test_expenses.py:11-12 | `fake_add` appends exactly one record with the given date, description and amount at the end. |
| `FakeStore.MemoryStore.Delete` | test_expenses.py:14-17 | On success the list is the old list without the record at the popped position. On either error the list is unchanged and the error is reported. |
| `Expenses.SumAppend` | expenses.py:40-42 | Appending a record raises the total by its amount. |
| `Expenses.SumConcat` | expenses.py:40-42 | The total is additive over concatenation. |
| `Expenses.SumRemoveAt` | expenses.py:40-42 | Removing the record at `i` lowers the total by exactly that record's amount. |
| `Expenses.SumOfAccepted` | expenses.py:40-42 | A store holding only validated records totals at least 0, and totals 0 exactly when it is empty. |
| `Expenses.ExpenseManager.constructor` | test_expenses.py:19-22 | The manager works on the store it is given, as the fixture patches it in. |
| `Expenses.ExpenseManager.AddExpense` | expenses.py:29-31 | The outcome is the validation rule's. On success exactly one record with the same three fields is appended. On failure the store is unchanged. A store of validated records stays one. The total rises by the amount exactly on success. |
| `Expenses.ExpenseManager.ShowExpenses` | expenses.py:33-34 | Returns the stored records unchanged and modifies nothing. |
| `Expenses.ExpenseManager.DeleteExpense` | expenses.py:37-38 | The store's delete, with its errors propagated. On success the total falls by the removed amount. On failure nothing changes. A store of validated records stays one. |
| `Expenses.ExpenseManager.Summary` | expenses.py:40-42 | The result is the total of the stored amounts, accumulated left to right. For a store of validated records it is 0 exactly when the store is empty. |
| `ExpenseTests.CoffeeDateParses` | test_expenses.py:30 | The date used by every test, `2026-01-27`, parses to 27 January 2026. |
| `ExpenseTests.Fixture` | test_expenses.py:8-23 | The fixture is a fresh manager over a fresh, empty store. |
| `ExpenseTests.AddExpenseFixture` | test_expenses.py:27-34 | After adding Coffee, the listing is one longer and its last record has description `Coffee` and amount 3.5. |
| `ExpenseTests.AddExpenseAmountNegative` | test_expenses.py:36-38 | A negative amount with a valid date gives `NegativeAmount`, and the store stays empty. |
| `ExpenseTests.AddExpenseAmountZero` | test_expenses.py:40-42 | Amount 0 gives `FieldsRequired`, and the store stays empty. |
| `ExpenseTests.AddExpenseEmptyFields` | test_expenses.py:44-46 | `("", "", 0)` gives `FieldsRequired`, and the store stays empty. |
| `ExpenseTests.ShowExpensesFixture` | test_expenses.py:49-51 | After one add to an empty store, the listing is exactly that one record. |
| `ExpenseTests.ShowExpensesEmpty` | test_expenses.py:53-54 | A fresh store lists as empty. |
| `ExpenseTests.DeleteExpenseFixture` | test_expenses.py:57-60 | Deleting index 0 after one add succeeds and leaves the store empty. |
| `ExpenseTests.DeleteExpenseNoExpenses` | test_expenses.py:62-68 | Deleting index 0 from an empty store fails with "not found" and leaves it empty. This covers both identical tests. |
| `ExpenseTests.SummaryFixture` | test_expenses.py:71-73 | After adding 3.5 to an empty store, the summary is 3.5. |

## Left out

- The file-backed store (`load_expenses`/`save_expenses` in storage.py) and the database store:
  CSV and database I/O through libraries that are not modelled. storage.py does
  not define the `add_expense`/`delete_expense` the manager imports, so the store is the test
  fixture's in-memory list. The I/O-error logging and swallowing of the real backends is not
  modelled.
- The terminal menu (cli.py), the HTTP routes (main.py), logging setup (logging_logic.py) and
  the CSV backup (backup.py): these are I/O and clock glue around the manager.
- `ExpenseManager.ShowExpenses` returns the stored sequence as a value. The patched
  `load_expenses` returns the live list itself, so a caller mutating the result would change the
  store. That aliasing is not modelled.
- Amounts are exact `real` numbers. Floating-point rounding in `sum` is not modelled. NaN is not
  modelled either: it passes both `not amount` and `amount <= 0`. Parsing text into a float is
  not modelled.
- Arguments are modelled as strings and a real only. A non-string date is not modelled: `None`
  is falsy and would give `FieldsRequired`, and another type makes `strptime` raise `TypeError`.
- `Dates.ParseDate`: only ASCII digits are modelled. The `\d` of Python's regular expressions
  also matches other Unicode decimal digits, which `strptime` would accept.
- The decorator's reading of the first three positional arguments is modelled as an explicit
  call of `Validate` at the start of `AddExpense`. Keyword-argument calls, where `args[0..2]`
  would fail, are not modelled.
- `ExpenseManager` takes its store as a constructor argument. In the source, the store is the
  module-level functions that the fixture patches.
