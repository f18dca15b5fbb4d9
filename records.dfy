/** The values the expense tracker passes around: one stored expense record and the
    errors its operations raise, with the wrappers the model uses for them. */
module Records {

  /** One stored expense, the dictionary `{"date", "description", "amount"}` kept by the store. */
  datatype Expense = Expense(date: string, description: string, amount: real)

  /** The exceptions the core raises. */
  datatype Error =
    | FieldsRequired      // FieldsRequiredError("All fields are required")
    | InvalidDateFormat   // ValueError("Invalid date format. Use YYYY-MM-DD")
    | NegativeAmount      // NegativeAmountError("Amount must be greater than 0")
    | NotFound            // ValueError("Expense not found") from the store's delete
    | IndexOutOfRange     // IndexError("pop index out of range") from list.pop

  /** An operation that returns nothing on success, or raises one error. */
  datatype Outcome = Pass | Fail(error: Error)

  /** An operation that returns a value on success, or raises one error. */
  datatype Result<+T> = Ok(value: T) | Err(error: Error)

  datatype Option<+T> = None | Some(value: T)
}
