/** The pytest cases of test_expenses.py, each run against a fresh `manager_mock` fixture
    (an empty MemoryStore behind an ExpenseManager) and returning what the test asserts on. */
module ExpenseTests {
  import opened Records
  import opened Dates
  import opened Validation
  import opened FakeStore
  import opened Expenses

  const Coffee := Expense("2026-01-27", "Coffee", 3.5)

  /** The date every test uses parses. */
  lemma CoffeeDateParses()
    ensures ParseDate("2026-01-27") == Some(Date(2026, 1, 27))
  {
  }

  method Fixture() returns (manager: ExpenseManager)
    ensures fresh(manager) && fresh(manager.store) && manager.store.rows == []
  {
    var store := new MemoryStore();
    manager := new ExpenseManager(store);
  }

  /** test_add_expense_fixture */
  method AddExpenseFixture() returns (before: seq<Expense>, after: seq<Expense>)
    ensures |after| == |before| + 1
    ensures after[|after| - 1].description == "Coffee" && after[|after| - 1].amount == 3.5
  {
    var manager := Fixture();
    before := manager.ShowExpenses();
    CoffeeDateParses();
    var _ := manager.AddExpense("2026-01-27", "Coffee", 3.5);
    after := manager.ShowExpenses();
  }

  /** test_add_expense_amount_negative: the error, and the store left as it was. */
  method AddExpenseAmountNegative() returns (r: Outcome, listed: seq<Expense>)
    ensures r == Fail(NegativeAmount) && listed == []
  {
    var manager := Fixture();
    CoffeeDateParses();
    r := manager.AddExpense("2026-01-27", "Coffee", -3.5);
    listed := manager.ShowExpenses();
  }

  /** test_add_expense_amount_zero */
  method AddExpenseAmountZero() returns (r: Outcome, listed: seq<Expense>)
    ensures r == Fail(FieldsRequired) && listed == []
  {
    var manager := Fixture();
    r := manager.AddExpense("2026-01-27", "Coffee", 0.0);
    listed := manager.ShowExpenses();
  }

  /** test_add_expense_empty_fields */
  method AddExpenseEmptyFields() returns (r: Outcome, listed: seq<Expense>)
    ensures r == Fail(FieldsRequired) && listed == []
  {
    var manager := Fixture();
    r := manager.AddExpense("", "", 0.0);
    listed := manager.ShowExpenses();
  }

  /** test_show_expenses_fixture */
  method ShowExpensesFixture() returns (listed: seq<Expense>)
    ensures listed == [Coffee]
  {
    var manager := Fixture();
    CoffeeDateParses();
    var _ := manager.AddExpense("2026-01-27", "Coffee", 3.5);
    listed := manager.ShowExpenses();
  }

  /** test_show_expenses_empty */
  method ShowExpensesEmpty() returns (listed: seq<Expense>)
    ensures listed == []
  {
    var manager := Fixture();
    listed := manager.ShowExpenses();
  }

  /** test_delete_expense_fixture */
  method DeleteExpenseFixture() returns (r: Outcome, listed: seq<Expense>)
    ensures r == Pass && listed == []
  {
    var manager := Fixture();
    CoffeeDateParses();
    var _ := manager.AddExpense("2026-01-27", "Coffee", 3.5);
    r := manager.DeleteExpense(0);
    listed := manager.ShowExpenses();
  }

  /** test_delete_expense_invalid_index and test_delete_expense_no_expenses (the same case). */
  method DeleteExpenseNoExpenses() returns (r: Outcome, listed: seq<Expense>)
    ensures r == Fail(NotFound) && listed == []
  {
    var manager := Fixture();
    r := manager.DeleteExpense(0);
    listed := manager.ShowExpenses();
  }

  /** test_summary_fixture */
  method SummaryFixture() returns (total: real)
    ensures total == 3.5
  {
    var manager := Fixture();
    CoffeeDateParses();
    var _ := manager.AddExpense("2026-01-27", "Coffee", 3.5);
    total := manager.Summary();
  }
}
