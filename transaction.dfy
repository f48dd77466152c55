/**
 * A financial transaction of the tracker: a plain record built once and never
 * changed afterwards (assets/js/models/Transaction.js).
 */
module Transactions {

  /** The `type` field. The source stores any string here; `Other` carries a
      type string that is neither 'income' nor 'expense'. */
  datatype TypeName = Income | Expense | Other(name: string)

  /** A type string has exactly one representation: 'income' and 'expense'
      are never spelled as `Other`, as the source compares the strings. */
  type TxType = k: TypeName | !(k.Other? && (k.name == "income" || k.name == "expense")) witness Income

  /** One ledger entry. `amount` is already numeric; `date` is a day number
      (the ISO calendar date the source compares through `new Date`). */
  datatype Transaction = Transaction(
    id: int,
    amount: real,
    kind: TxType,
    category: string,
    date: int,
    description: string)

  /** `new Transaction(id, amount, type, category, date, description)`:
      every argument is stored as given; nothing is validated, so a negative
      amount or an unknown type is kept unchanged. */
  function NewTransaction(id: int, amount: real, kind: TxType, category: string,
                          date: int, description: string): (t: Transaction)
    ensures t.id == id && t.amount == amount && t.kind == kind
    ensures t.category == category && t.date == date && t.description == description
  {
    Transaction(id, amount, kind, category, date, description)
  }

  /** `Transaction.fromData(d)`: rebuilds a transaction from a stored record
      with the same six fields. A record that already is a transaction comes
      back field for field. */
  function FromData(d: Transaction): (t: Transaction)
    ensures t == d
  {
    NewTransaction(d.id, d.amount, d.kind, d.category, d.date, d.description)
  }

  /** Rehydrating twice gives what rehydrating once gives. */
  lemma FromDataIdempotent(d: Transaction)
    ensures FromData(FromData(d)) == FromData(d)
  {
  }
}
