/** The records the pages exchange with the REST collaborator
    (src/types/transactions.ts, src/types/category.ts). The TypeScript field
    `type` is called `kind` here, `type` being a Dafny keyword. Amounts are
    exact `real`s; dates are kept as the strings the API sends. */
module Types {
  import opened Collections

  datatype TransactionType = Expense | Income

  datatype Category = Category(id: Option<string>, name: string, color: string, kind: TransactionType)

  datatype Transaction = Transaction(
    id: string,
    userId: string,
    description: string,
    amount: real,
    date: string,
    categoryId: string,
    category: Category,
    kind: TransactionType,
    updateAt: string,
    createdAt: string)

  datatype CreateTransactionDTO = CreateTransactionDTO(
    description: string,
    amount: real,
    date: string,
    categoryId: string,
    kind: TransactionType)

  /** The outcome of an HTTP call whose body is a `T`: the awaited value, or a rejected promise. */
  datatype Response<+T> = Ok(value: T) | Failed
}
