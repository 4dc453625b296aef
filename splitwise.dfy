/**
 * The values the bot exchanges with the Splitwise ledger. The ledger itself
 * is an oracle: friend lists come in as parameters, and the expenses the bot
 * asks it to create are recorded as a log of calls.
 */
module Splitwise {

  /**
   * A friend as the ledger reports it. `balances` holds the friend's balance
   * in each currency, in whole rupees; a positive amount means the friend owes
   * the user, a negative one means the user owes the friend.
   */
  datatype Friend = Friend(id: int, firstName: string, lastName: string, balances: seq<int>)

  /** One participant of an expense: what they paid and what their share is. */
  datatype ExpenseUser = ExpenseUser(id: int, paidShare: int, owedShare: int)

  datatype Expense = Expense(cost: int, description: string, users: seq<ExpenseUser>)

  /** A request the bot made to the ledger. */
  datatype LedgerCall =
    | CreateExpense(expense: Expense)
    | CreateExpenseObject(payerId: int, payeeId: int, amount: int, description: string)

  function TotalPaid(users: seq<ExpenseUser>): int
  {
    if users == [] then 0 else users[0].paidShare + TotalPaid(users[1..])
  }

  function TotalOwed(users: seq<ExpenseUser>): int
  {
    if users == [] then 0 else users[0].owedShare + TotalOwed(users[1..])
  }

  /**
   * What the expense credits the user `id` with: paid minus owed over all of
   * that user's entries. Between two people, the credit of one is the amount
   * the other now owes them.
   */
  function Net(users: seq<ExpenseUser>, id: int): int
  {
    if users == [] then 0
    else (if users[0].id == id then users[0].paidShare - users[0].owedShare else 0) + Net(users[1..], id)
  }
}
