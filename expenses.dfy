/** `ExpenseManager` (expenses.py): adds go through the validation rule to the store,
    listing and deleting go straight to it, and the summary totals the stored amounts. */
module Expenses {
  import opened Records
  import opened Validation
  import opened FakeStore

  /** The total of the amounts, accumulated from the first record to the last as `sum` does. */
  function Sum(s: seq<Expense>): real {
    if s == [] then 0.0 else Sum(s[..|s| - 1]) + s[|s| - 1].amount
  }

  lemma SumAppend(s: seq<Expense>, e: Expense)
    ensures Sum(s + [e]) == Sum(s) + e.amount
  {
  }

  lemma {:induction false} SumConcat(a: seq<Expense>, b: seq<Expense>)
    ensures Sum(a + b) == Sum(a) + Sum(b)
  {
    if b != [] {
      var b', e := b[..|b| - 1], b[|b| - 1];
      assert b == b' + [e];
      assert a + b == (a + b') + [e];
      SumConcat(a, b');
      SumAppend(a + b', e);
      SumAppend(b', e);
    } else {
      assert a + b == a;
    }
  }

  /** Removing one record lowers the total by exactly its amount. */
  lemma {:induction false} SumRemoveAt(s: seq<Expense>, i: nat)
    requires i < |s|
    ensures Sum(RemoveAt(s, i)) == Sum(s) - s[i].amount
  {
    var init, last := s[..|s| - 1], s[|s| - 1];
    if i == |s| - 1 {
      assert RemoveAt(s, i) == init;
    } else {
      var r := RemoveAt(init, i);
      assert RemoveAt(s, i) == r + [last];
      SumRemoveAt(init, i);
      SumAppend(r, last);
    }
  }

  /** Every stored record passed the validation rule. */
  predicate AllAccepted(s: seq<Expense>) {
    forall k :: 0 <= k < |s| ==> Accepted(s[k])
  }

  /** A store holding only accepted records totals zero exactly when it is empty, and more
      than zero otherwise. */
  lemma {:induction false} SumOfAccepted(s: seq<Expense>)
    requires AllAccepted(s)
    ensures Sum(s) >= 0.0
    ensures Sum(s) == 0.0 <==> s == []
  {
    if s != [] {
      SumOfAccepted(s[..|s| - 1]);
      assert Accepted(s[|s| - 1]);
    }
  }

  class ExpenseManager {
    /** The store the manager delegates to (the patched storage functions). */
    const store: MemoryStore

    constructor (store: MemoryStore)
      ensures this.store == store
    {
      this.store := store;
    }

    /** `add_expense`: run the rule; only on success send the record to the store. */
    method AddExpense(date: string, description: string, amount: real) returns (r: Outcome)
      modifies store
      ensures r == Validate(date, description, amount)
      ensures r == Pass ==> store.rows == old(store.rows) + [Expense(date, description, amount)]
      ensures r != Pass ==> store.rows == old(store.rows)
      ensures AllAccepted(old(store.rows)) ==> AllAccepted(store.rows)
      ensures Sum(store.rows) == Sum(old(store.rows)) + (if r == Pass then amount else 0.0)
    {
      r := Validate(date, description, amount);
      if r == Pass {
        SumAppend(store.rows, Expense(date, description, amount));
        store.Add(date, description, amount);
      }
    }

    /** `show_expenses`: the stored records as they are, changing nothing. */
    method ShowExpenses() returns (expenses: seq<Expense>)
      ensures expenses == store.rows
    {
      expenses := store.rows;
    }

    /** `delete_expense`: the store's delete, whose errors propagate unchanged. */
    method DeleteExpense(id: int) returns (r: Outcome)
      modifies store
      ensures var p := PopPosition(|old(store.rows)|, id);
        if p.Ok? then r == Pass && store.rows == RemoveAt(old(store.rows), p.value)
          && Sum(store.rows) == Sum(old(store.rows)) - old(store.rows)[p.value].amount
        else r == Fail(p.error) && store.rows == old(store.rows)
      ensures AllAccepted(old(store.rows)) ==> AllAccepted(store.rows)
    {
      ghost var before := store.rows;
      r := store.Delete(id);
      var p := PopPosition(|before|, id);
      if p.Ok? {
        SumRemoveAt(before, p.value);
      }
    }

    /** `summary`: the total of the stored amounts, 0 for an empty store. */
    method Summary() returns (total: real)
      ensures total == Sum(store.rows)
      ensures AllAccepted(store.rows) ==> (total == 0.0 <==> store.rows == [])
    {
      var rows := store.rows;
      total := 0.0;
      var i := 0;
      while i < |rows|
        invariant 0 <= i <= |rows|
        invariant total == Sum(rows[..i])
      {
        assert rows[..i + 1][..i] == rows[..i];
        total := total + rows[i].amount;
        i := i + 1;
      }
      assert rows[..i] == rows;
      if AllAccepted(rows) {
        SumOfAccepted(rows);
      }
    }
  }
}
