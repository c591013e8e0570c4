/** The structured record the message interpreter produces from free text.
    The interpreter itself is an external language model; the handler only
    sees its output, and this module fixes the shape of that output. */
module Intents {
  import opened Models

  datatype Kind = Income | Expense | Transfer | Balance | BalanceAdjustment | TransactionHistory | Unknown

  datatype Action = Create | Update | Delete | Read

  /** A key of the output dictionary: missing, present with a null value, or
      present with a value. */
  datatype Field<+T> = Absent | Null | Given(value: T)

  datatype Intent = Intent(
    kind: Kind,
    action: Action,
    amount: int,
    account: Field<string>,
    description: string,
    date: Option<Date>,
    fromAccount: Field<string>,
    limit: Option<int>)

  const DefaultAccount: string := "Cash"
  const DefaultDescription: string := "Miscellaneous"

  /** What the interpreter returns when the model call fails: every field at
      its default and the kind `unknown`. */
  function FallbackIntent(): (i: Intent)
    ensures i.kind == Unknown && i.amount == 0
    ensures i.account == Given(DefaultAccount) && i.description == DefaultDescription
    ensures i.date.None? && i.fromAccount == Null && i.limit.None?
  {
    Intent(Unknown, Create, 0, Given(DefaultAccount), DefaultDescription, None, Null, None)
  }

  /** The value a lookup with a default yields: the default when the key is
      missing, nothing when it holds null, else its value. */
  function GetOr(f: Field<string>, default: string): (r: Option<string>)
    ensures f.Absent? ==> r == Some(default)
    ensures f.Null? ==> r.None?
    ensures f.Given? ==> r == Some(f.value)
  {
    match f
    case Absent => Some(default)
    case Null => None
    case Given(v) => Some(v)
  }
}
