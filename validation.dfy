/** The validation rule `validate_expense` wrapped around `ExpenseManager.add_expense`
    (expenses.py): three checks run in order, and the first that fails raises its error. */
module Validation {
  import opened Records
  import opened Dates

  /** Python truthiness of the three arguments: an empty string, or an amount of 0, is "missing". */
  predicate FieldsPresent(date: string, description: string, amount: real) {
    date != [] && description != [] && amount != 0.0
  }

  /** The rule as written: fields first, then the date format, then the sign of the amount. */
  function Validate(date: string, description: string, amount: real): (r: Outcome)
    ensures r == Pass <==> date != [] && description != [] && amount > 0.0 && IsValidDate(date)
    ensures r == Fail(FieldsRequired) <==> date == [] || description == [] || amount == 0.0
    ensures r == Fail(InvalidDateFormat) <==> FieldsPresent(date, description, amount) && !IsValidDate(date)
    ensures r == Fail(NegativeAmount) <==> FieldsPresent(date, description, amount) && IsValidDate(date) && amount < 0.0
  {
    if !FieldsPresent(date, description, amount) then Fail(FieldsRequired)
    else if !IsValidDate(date) then Fail(InvalidDateFormat)
    else if amount <= 0.0 then Fail(NegativeAmount)
    else Pass
  }

  /** A record the rule lets through. */
  predicate Accepted(e: Expense) {
    Validate(e.date, e.description, e.amount) == Pass
  }

  /** The three checks taken one at a time, each on its own, in the order the rule runs them. */
  function Checks(date: string, description: string, amount: real): (cs: seq<Outcome>)
    ensures |cs| == 3
  {
    [ if FieldsPresent(date, description, amount) then Pass else Fail(FieldsRequired),
      if IsValidDate(date) then Pass else Fail(InvalidDateFormat),
      if amount > 0.0 then Pass else Fail(NegativeAmount) ]
  }

  /** The first failing outcome of a list of checks, with no accumulation of later ones. */
  function FirstFailure(cs: seq<Outcome>): (r: Outcome)
    ensures r == Pass <==> forall i :: 0 <= i < |cs| ==> cs[i] == Pass
    ensures r.Fail? ==> exists i :: 0 <= i < |cs| && cs[i] == r && forall j :: 0 <= j < i ==> cs[j] == Pass
  {
    if cs == [] then Pass
    else if cs[0].Fail? then cs[0]
    else
      var r := FirstFailure(cs[1..]);
      assert forall i :: 1 <= i < |cs| ==> cs[i] == cs[1..][i - 1];
      r
  }

  /** The rule reports exactly the first of the independent checks that fails. */
  lemma ValidateIsFirstFailure(date: string, description: string, amount: real)
    ensures Validate(date, description, amount) == FirstFailure(Checks(date, description, amount))
  {
    var cs := Checks(date, description, amount);
    assert cs[1..][1..] == [cs[2]];
    assert cs[1..][1..][1..] == [];
  }
}
