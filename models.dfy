/** The rows of the ledger database: users, accounts and transactions, with the
    column defaults of the ORM schema. Amounts are whole minor units (paise) and
    dates are opaque, totally ordered instants. */
module Models {

  datatype Option<+T> = None | Some(value: T)

  /** An instant; only its order matters to the ledger. */
  type Date = int

  /** The transaction type enumeration: exactly two members. */
  datatype TransactionType = Income | Expense

  /** The string value each member of the enumeration carries. */
  function TypeName(t: TransactionType): string {
    match t
    case Income => "income"
    case Expense => "expense"
  }

  /** The member whose value is `s`, if any. */
  function TypeOf(s: string): (r: Option<TransactionType>)
    ensures r.Some? ==> TypeName(r.value) == s
    ensures r.None? <==> s != "income" && s != "expense"
  {
    if s == "income" then Some(Income)
    else if s == "expense" then Some(Expense)
    else None
  }

  lemma TypeNameRoundTrip(t: TransactionType)
    ensures TypeOf(TypeName(t)) == Some(t)
    ensures TypeName(t) == "income" || TypeName(t) == "expense"
  {
  }

  /** Value a numeric column takes when the insert does not set it. */
  const ColumnDefault: int := 0

  /** A row of `users`; `telegramId` is unique across rows. */
  datatype User = User(id: nat, telegramId: string, name: string)

  /** A row of `accounts`. `name` is `None` when the row was written with a NULL name. */
  datatype Account = Account(id: nat, name: Option<string>, initialBalance: int, balance: int, userId: nat)

  /** A row of `transactions`. `txnType` is the string that was passed in;
      `date` always holds an instant, because the column's server default
      dates any insert that leaves it out; `userId` is `None` when the insert
      did not set the column. */
  datatype Transaction = Transaction(
    id: nat,
    amount: int,
    description: string,
    txnType: string,
    date: Date,
    userId: Option<nat>,
    accountId: nat)
}
