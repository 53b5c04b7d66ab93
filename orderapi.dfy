/**
 * The record system (orders, expenses, transfers) as the handlers see it:
 * the calls they make, with the arguments they pass, and the answers they
 * can get back. The HTTP client itself is not part of this model; an answer
 * is a parameter, either a record (or list of records) or a thrown error
 * with its message.
 */
module OrderSystemApi {
  import opened Js

  /** One call to the record-system client. */
  datatype Request =
    | CreateOrder(order: Data)
    | GetOrder(orderId: Value)
    | CompleteOrder(orderId: Value)
    | ListOrders(limit: int, filters: Data)
    | CreateExpense(expense: Data)
    | GetExpense(expenseId: Value)
    | ListExpenses(limit: int, filters: Data)
    | CreateTransfer(transfer: Data)
    | GetTransfer(transferId: Value)
    | ListTransfers(limit: int, filters: Data)
  {
    /** Calls that create a record. */
    predicate IsCreate()
    {
      CreateOrder? || CreateExpense? || CreateTransfer?
    }

    predicate IsOrderCall()
    {
      CreateOrder? || GetOrder? || CompleteOrder? || ListOrders?
    }

    predicate IsExpenseCall()
    {
      CreateExpense? || GetExpense? || ListExpenses?
    }

    predicate IsTransferCall()
    {
      CreateTransfer? || GetTransfer? || ListTransfers?
    }
  }

  /**
   * The answer to whichever call a turn makes: `record` for a create, get
   * or complete call, `records` for a list call. A `null` list answer is
   * handled like an empty one by every handler, so it is the empty list here.
   */
  datatype Answers = Answers(record: Outcome<Data>, records: Outcome<seq<Data>>)

  /** Every list handler asks for at most one hundred records. */
  const FetchLimit: int := 100
}
