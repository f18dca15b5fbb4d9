/** The in-memory store of the test fixture `manager_mock` (test_expenses.py): the list
    `fake_db`, which `fake_add` appends to and `fake_delete` pops from. */
module FakeStore {
  import opened Records

  /** `s` without its element at position `i`, as `list.pop(i)` leaves it. */
  function RemoveAt<T>(s: seq<T>, i: nat): (r: seq<T>)
    requires i < |s|
    ensures |r| == |s| - 1
    ensures forall k :: 0 <= k < i ==> r[k] == s[k]
    ensures forall k :: i <= k < |r| ==> r[k] == s[k + 1]
    ensures multiset(r) + multiset{s[i]} == multiset(s)
  {
    assert s == s[..i] + [s[i]] + s[i + 1..];
    s[..i] + s[i + 1..]
  }

  /** The position `fake_delete(id)` removes, or the error it raises: its guard rejects
      `id >= len(fake_db)` and an empty list with "Expense not found"; `list.pop` then counts
      a negative index from the end and raises IndexError for one before the start. */
  function PopPosition(n: nat, id: int): (r: Result<nat>)
    ensures r == Err(NotFound) <==> id >= n || n == 0
    ensures r.Ok? <==> 0 <= n + id && id < n
    ensures r == Err(IndexOutOfRange) <==> n > 0 && n + id < 0
    ensures r.Ok? ==> r.value < n && (r.value == id || r.value == n + id)
  {
    if id >= n || n == 0 then Err(NotFound)
    else if id >= 0 then Ok(id)
    else if n + id >= 0 then Ok(n + id)
    else Err(IndexOutOfRange)
  }

  class MemoryStore {
    /** `fake_db`, in insertion order. */
    var rows: seq<Expense>

    /** A fresh fixture starts from an empty list. */
    constructor ()
      ensures rows == []
    {
      rows := [];
    }

    /** `fake_add`: append one record built from the three arguments. */
    method Add(date: string, description: string, amount: real)
      modifies this
      ensures rows == old(rows) + [Expense(date, description, amount)]
    {
      rows := rows + [Expense(date, description, amount)];
    }

    /** `fake_delete`: remove the record at `id` (negative counts from the end), or raise
        before changing anything. */
    method Delete(id: int) returns (r: Outcome)
      modifies this
      ensures var p := PopPosition(|old(rows)|, id);
        if p.Ok? then r == Pass && rows == RemoveAt(old(rows), p.value)
        else r == Fail(p.error) && rows == old(rows)
    {
      if id >= |rows| || rows == [] {
        return Fail(NotFound);
      }
      var i := if id >= 0 then id else |rows| + id;
      if i < 0 {
        return Fail(IndexOutOfRange);
      }
      rows := rows[..i] + rows[i + 1..];
      r := Pass;
    }
  }
}
