/** The records the screens read from and write to the hosted database. */
module Types {
  import opened Wrappers

  /** The 50/30/20 bucket a category belongs to. */
  datatype Group = Needs | Wants | Savings

  datatype Category = Category(id: string, name: string, group: Group)

  /** A budget row; `amountLimit` is the monthly limit. */
  datatype Budget = Budget(id: string, name: string, category: string, amountLimit: real, period: string, month: string)

  /**
   * A transaction row as the screens see it: `description`, `category` and
   * `status` may be missing; `kind` is the `type` column ('income' or 'expense'
   * in practice, but stored as free text).
   */
  datatype Transaction = Transaction(
    id: string,
    amount: real,
    description: Option<string>,
    category: Option<string>,
    kind: string,
    date: string,
    status: Option<string>)

  /** The `id, name, balance` projection of an account. */
  datatype AccountRef = AccountRef(id: string, name: string, balance: real)

  /** The `id, name, category` projection of a budget. */
  datatype BudgetRef = BudgetRef(id: string, name: string, category: string)

  /** A budget with the month's spending against it and the colour of its group. */
  datatype BudgetWithStats = BudgetWithStats(budget: Budget, spent: real, color: string)
}
