/**
 * A user of the tracker and the ledger arithmetic on its transaction history
 * (assets/js/models/User.js).
 */
module Users {
  import opened Wrappers
  import opened Transactions

  /** The `role` field: 'user', 'admin', or any other string stored as is. */
  datatype RoleName = RegularUser | Admin | OtherRole(name: string)

  /** A role string has exactly one representation: 'user' and 'admin' are
      never spelled as `OtherRole`, as the source compares the strings. */
  type Role = r: RoleName | !(r.OtherRole? && (r.name == "user" || r.name == "admin")) witness RegularUser

  /** The field values a `User` object holds: its abstract state. */
  datatype UserData = UserData(
    id: int,
    name: string,
    email: string,
    password: string,
    role: Role,
    budget: real,
    transactions: seq<Transaction>)

  /** A user as a plain stored record. `role`, `budget` and `transactions`
      may be absent; the constructor's defaults then apply. */
  datatype UserRecord = UserRecord(
    id: int,
    name: string,
    email: string,
    password: string,
    role: Option<Role>,
    budget: Option<real>,
    transactions: Option<seq<Transaction>>)

  /** One step of the `reduce` in `getBalance`: add an income, subtract
      anything else. */
  function BalanceStep(acc: real, t: Transaction): real {
    if t.kind == Income then acc + t.amount else acc - t.amount
  }

  /** `getBalance`: the left fold of `BalanceStep` over the history, from 0. */
  function Balance(s: seq<Transaction>): real
    decreases |s|
  {
    if s == [] then 0.0 else BalanceStep(Balance(s[..|s| - 1]), s[|s| - 1])
  }

  /** The balance of an empty history is 0, and appending one entry moves it
      by exactly that entry's amount, up for an income and down otherwise. */
  lemma BalanceAppend(s: seq<Transaction>, t: Transaction)
    ensures Balance([]) == 0.0
    ensures Balance(s + [t]) == if t.kind == Income then Balance(s) + t.amount
                                 else Balance(s) - t.amount
  {
    assert (s + [t])[..|s + [t]| - 1] == s;
  }

  /** What `new User(id, name, email, password, role, budget, transactions)`
      holds when some of the last three arguments are undefined: role 'user',
      budget 0 and no transactions. The transaction list is taken as given. */
  function Rehydrate(d: UserRecord): (u: UserData)
    ensures u.id == d.id && u.name == d.name && u.email == d.email && u.password == d.password
    ensures u.role == (if d.role.Some? then d.role.value else RegularUser)
    ensures u.budget == (if d.budget.Some? then d.budget.value else 0.0)
    ensures u.transactions == (if d.transactions.Some? then d.transactions.value else [])
  {
    UserData(d.id, d.name, d.email, d.password,
             d.role.GetOr(RegularUser), d.budget.GetOr(0.0), d.transactions.GetOr([]))
  }

  /** The record a saved `User` becomes: every field present. */
  function Serialize(u: UserData): (d: UserRecord)
    ensures d.role == Some(u.role) && d.budget == Some(u.budget) && d.transactions == Some(u.transactions)
    ensures d.id == u.id && d.name == u.name && d.email == u.email && d.password == u.password
  {
    UserRecord(u.id, u.name, u.email, u.password, Some(u.role), Some(u.budget), Some(u.transactions))
  }

  /** Saving a user and rehydrating the record gives back the same field values. */
  lemma RoundTrip(u: UserData)
    ensures Rehydrate(Serialize(u)) == u
  {
  }

  /** Rehydration is idempotent once the defaults are filled in. */
  lemma RehydrateIdempotent(d: UserRecord)
    ensures Rehydrate(Serialize(Rehydrate(d))) == Rehydrate(d)
  {
  }

  /** A user object; `addTransaction` and `setBudget` change it in place. */
  class User {
    var id: int
    var name: string
    var email: string
    var password: string
    var role: Role
    var budget: real
    var transactions: seq<Transaction>

    /** The constructor, with `None` for an argument left undefined. */
    constructor (id: int, name: string, email: string, password: string,
                 role: Option<Role>, budget: Option<real>, transactions: Option<seq<Transaction>>)
      ensures Data() == Rehydrate(UserRecord(id, name, email, password, role, budget, transactions))
    {
      this.id := id;
      this.name := name;
      this.email := email;
      this.password := password;
      this.role := role.GetOr(RegularUser);
      this.budget := budget.GetOr(0.0);
      this.transactions := transactions.GetOr([]);
    }

    /** The object's field values. */
    function Data(): UserData
      reads this
    {
      UserData(id, name, email, password, role, budget, transactions)
    }

    /** The record that saving this object writes. */
    function ToRecord(): UserRecord
      reads this
    {
      Serialize(Data())
    }

    /** `getBalance()`. */
    function GetBalance(): real
      reads this
    {
      Balance(transactions)
    }

    /** `addTransaction(t)`: appends `t`; every other field stays. */
    method AddTransaction(t: Transaction)
      modifies this`transactions
      ensures transactions == old(transactions) + [t]
      ensures Data() == old(Data()).(transactions := old(transactions) + [t])
    {
      transactions := transactions + [t];
    }

    /** `setBudget(a)`: sets the budget to exactly `a`, unvalidated; every
        other field stays. */
    method SetBudget(a: real)
      modifies this`budget
      ensures budget == a
      ensures Data() == old(Data()).(budget := a)
    {
      budget := a;
    }

    /** `User.fromData(d)`: a fresh object built by the constructor from the
        record's fields, so absent fields take the defaults. */
    static method FromData(d: UserRecord) returns (u: User)
      ensures fresh(u)
      ensures u.Data() == Rehydrate(d)
    {
      u := new User(d.id, d.name, d.email, d.password, d.role, d.budget, d.transactions);
    }
  }
}
