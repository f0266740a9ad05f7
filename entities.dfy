/** Shapes of the backend's persisted records (the JPA entities). A stored
    row is its generated id, the id of the owning user and the remaining
    columns. Amounts (`double`) are reals; `LocalDate`/`LocalDateTime` values
    that the core only copies are kept as their text. */
module Entities {

  datatype Role = USER | ADMIN

  datatype User = User(id: int, name: string, email: string, password: string, role: Role)

  /** A row of an owned table. */
  datatype Row<T> = Row(id: int, owner: int, data: T)

  datatype TransactionData = TransactionData(
    kind: string, amount: real, category: string, description: string, date: string)

  datatype BudgetData = BudgetData(category: string, amount: real, startDate: string, endDate: string)

  datatype SavingsData = SavingsData(goalName: string, targetAmt: real, currAmt: real, deadline: string)

  datatype PostData = PostData(title: string, content: string, created: string)

  type Transaction = Row<TransactionData>
  type Budget = Row<BudgetData>
  type Savings = Row<SavingsData>
  type ForumPost = Row<PostData>
}
