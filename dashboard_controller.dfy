/**
 * The dashboard controller's state and handlers
 * (assets/js/controllers/DashboardController.js): the signed-in user it
 * edits in place, and what each view computes from the user or the store.
 */
module Dashboard {
  import opened Wrappers
  import opened Transactions
  import opened Users
  import opened Authentication
  import opened DashboardRules

  /** The figures of the user dashboard: the three cards, the budget gauge
      and the filtered, sorted table. */
  datatype UserView = UserView(balance: real, income: real, expense: real, gauge: BudgetGauge, table: seq<Transaction>)

  /** `storage.get(auth.usersKey) || []`. */
  function StoredRoster(store: map<string, StoredValue>): (rs: seq<UserRecord>)
    requires Shaped(store)
    ensures UsersKey !in store ==> rs == []
    ensures UsersKey in store ==> UserList(rs) == store[UsersKey]
  {
    if UsersKey in store then store[UsersKey].records else []
  }

  /** The sum of the users' balances, in memory. */
  function RosterBalance(us: seq<User>): real
    reads us
    decreases |us|
  {
    if us == [] then 0.0 else RosterBalance(us[..|us| - 1]) + us[|us| - 1].GetBalance()
  }

  /** Right after the roster is saved, the administrator's system balance,
      read back from the store, is the sum of the users' own balances. */
  lemma {:induction false} SavedRosterBalance(us: seq<User>)
    decreases |us|
    ensures SystemBalance(Records(us)) == RosterBalance(us)
  {
    if us != [] {
      var init := us[..|us| - 1];
      assert Records(us)[..|us| - 1] == Records(init);
      SavedRosterBalance(init);
      RoundTrip(us[|us| - 1].Data());
    }
  }

  class DashboardController {
    const auth: Auth
    var user: User

    /** The controller edits the very object that is the session user. */
    ghost predicate Valid()
      reads this, auth
    {
      auth.Valid() && auth.currentUser == Some(user)
    }

    /** `init()` for a signed-in session: `this.user = auth.currentUser`. */
    constructor (auth: Auth)
      requires auth.Valid() && auth.currentUser.Some?
      ensures this.auth == auth && user == auth.currentUser.value
      ensures Valid()
    {
      this.auth := auth;
      user := auth.currentUser.value;
    }

    /** `loadUserDashboard()`: the balance, the income and expense cards over
        all transactions, the gauge for the all-time expense, and the table
        for filter `f`. */
    method LoadUserDashboard(f: TableFilter) returns (v: UserView)
      ensures v.balance == IncomeTotal(user.transactions) - ExpenseTotal(user.transactions) - OtherTotal(user.transactions)
      ensures v.income == IncomeTotal(user.transactions) && v.expense == ExpenseTotal(user.transactions)
      ensures v.gauge == GaugeFor(user.budget, v.expense)
      ensures multiset(v.table) == multiset(Keep(user.transactions, (t: Transaction) => Matches(f, t)))
      ensures DateDescending(v.table)
    {
      var balance := user.GetBalance();
      BalanceFromCards(user.transactions);
      var income := IncomeTotal(user.transactions);
      var expense := ExpenseTotal(user.transactions);
      var gauge := GaugeFor(user.budget, expense);
      FilterTableExact(user.transactions, f);
      var sorted := SortByDateDesc(FilterTable(user.transactions, f));
      v := UserView(balance, income, expense, gauge, sorted);
    }

    /** `handleTransactionSubmit`: builds the transaction, appends it to the
        session user in place, then `auth.updateUser(this.user)`. When the
        roster holds the user's id, the roster entry and the session are both
        this object and both saved records carry the new transaction; when it
        does not, the object still gains it but nothing is saved. */
    method HandleTransactionSubmit(id: int, amount: real, kind: TxType, category: string,
                                   date: int, description: string)
      requires Valid()
      modifies user, auth
      ensures Valid() && user == old(user)
      ensures user.Data() == old(user.Data()).(transactions := old(user.transactions) + [NewTransaction(id, amount, kind, category, date, description)])
      ensures old(FindId(auth.users, user.id)).None? ==>
        auth.users == old(auth.users) && auth.store == old(auth.store)
      ensures old(FindId(auth.users, user.id)).Some? ==>
        var k := old(FindId(auth.users, user.id)).value;
        && auth.users == old(auth.users)[k := user]
        && auth.store == old(auth.store)[UsersKey := UserList(Records(auth.users))][SessionKey := UserObject(user.ToRecord())]
        && auth.store[UsersKey].records[k] == user.ToRecord()
    {
      var t := NewTransaction(id, amount, kind, category, date, description);
      ghost var k := FindId(auth.users, user.id);
      user.AddTransaction(t);
      assert FindId(auth.users, user.id) == k;
      auth.UpdateUser(user);
    }

    /** `handleBudgetSubmit`: only a number (not NaN, here `Some`) that is at
        least 0 is set as the budget and passed to `auth.updateUser`;
        anything else changes nothing. */
    method HandleBudgetSubmit(amount: Option<real>)
      requires Valid()
      modifies user, auth
      ensures Valid() && user == old(user)
      ensures !(amount.Some? && amount.value >= 0.0) ==>
        user.Data() == old(user.Data()) && auth.users == old(auth.users) && auth.store == old(auth.store)
      ensures amount.Some? && amount.value >= 0.0 ==>
        user.Data() == old(user.Data()).(budget := amount.value)
      ensures amount.Some? && amount.value >= 0.0 && old(FindId(auth.users, user.id)).None? ==>
        auth.users == old(auth.users) && auth.store == old(auth.store)
      ensures amount.Some? && amount.value >= 0.0 && old(FindId(auth.users, user.id)).Some? ==>
        var k := old(FindId(auth.users, user.id)).value;
        && auth.users == old(auth.users)[k := user]
        && auth.store == old(auth.store)[UsersKey := UserList(Records(auth.users))][SessionKey := UserObject(user.ToRecord())]
        && auth.store[UsersKey].records[k] == user.ToRecord()
    {
      if amount.Some? && amount.value >= 0.0 {
        ghost var k := FindId(auth.users, user.id);
        user.SetBudget(amount.value);
        assert FindId(auth.users, user.id) == k;
        auth.UpdateUser(user);
      }
    }

    /** `loadAdminDashboard()`: the statistics over the roster as stored, not
        the in-memory one. */
    method LoadAdminDashboard() returns (stats: AdminStats)
      requires Valid()
      ensures stats.totalUsers == |StoredRoster(auth.store)|
      ensures stats.systemBalance == SystemBalance(StoredRoster(auth.store))
      ensures stats.budgetAlerts == BudgetAlerts(StoredRoster(auth.store))
    {
      var allUsersData := StoredRoster(auth.store);
      stats := AdminStatistics(allUsersData);
    }

    /** `generateAdminReport()`: nothing unless the session is an
        administrator; otherwise the header and one row per stored record. */
    method GenerateAdminReport() returns (report: Option<seq<ReportRow>>)
      requires Valid()
      ensures report.Some? <==> auth.IsAdmin()
      ensures report.Some? ==>
        var rs := StoredRoster(auth.store);
        && |report.value| == |rs| + 1 && report.value[0] == HeaderRow
        && forall i :: 0 <= i < |rs| ==> report.value[i + 1] == RowFor(rs[i])
    {
      if !auth.IsAdmin() {
        return None;
      }
      var rows := ReportRows(StoredRoster(auth.store));
      report := Some(rows);
    }
  }
}
