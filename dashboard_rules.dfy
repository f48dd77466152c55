/**
 * The aggregation rules of the dashboard (assets/js/controllers/DashboardController.js):
 * the income and expense totals, the three-tier budget gauge, the
 * transaction table's filter and sort, and the administrator's statistics
 * and report. Everything that draws on the page is left out.
 */
module DashboardRules {
  import opened Wrappers
  import opened Transactions
  import opened Users

  // ---------------------------------------------------------------------
  // Filtering and totals

  /** `s.filter(p)`: the entries of `s` that satisfy `p`, in their order. */
  function Keep(s: seq<Transaction>, p: Transaction -> bool): (r: seq<Transaction>)
    decreases |s|
    ensures |r| <= |s|
  {
    if s == [] then [] else Keep(s[..|s| - 1], p) + (if p(s[|s| - 1]) then [s[|s| - 1]] else [])
  }

  /** What the filter keeps: only entries satisfying `p`, and each of those as
      often as it occurs in `s`. */
  lemma {:induction false} KeepExactly(s: seq<Transaction>, p: Transaction -> bool)
    decreases |s|
    ensures forall i :: 0 <= i < |Keep(s, p)| ==> p(Keep(s, p)[i])
    ensures forall t :: multiset(Keep(s, p))[t] == if p(t) then multiset(s)[t] else 0
  {
    if s != [] {
      var init, last := s[..|s| - 1], s[|s| - 1];
      assert s == init + [last];
      KeepExactly(init, p);
      var r := Keep(s, p);
      assert r == Keep(init, p) + (if p(last) then [last] else []);
    }
  }

  /** `reduce((acc, t) => acc + t.amount, 0)`. */
  function Total(s: seq<Transaction>): real
    decreases |s|
  {
    if s == [] then 0.0 else Total(s[..|s| - 1]) + s[|s| - 1].amount
  }

  predicate IsIncome(t: Transaction) { t.kind == Income }
  predicate IsExpense(t: Transaction) { t.kind == Expense }
  predicate IsOther(t: Transaction) { t.kind.Other? }
  predicate IsNotIncome(t: Transaction) { t.kind != Income }

  /** The income card: the amounts of type 'income'. */
  function IncomeTotal(s: seq<Transaction>): real { Total(Keep(s, IsIncome)) }

  /** The expense card: the amounts of type 'expense'. */
  function ExpenseTotal(s: seq<Transaction>): real { Total(Keep(s, IsExpense)) }

  /** The amounts of any other type: counted in neither card. */
  function OtherTotal(s: seq<Transaction>): real { Total(Keep(s, IsOther)) }

  lemma TotalAppend(s: seq<Transaction>, t: Transaction)
    ensures Total(s + [t]) == Total(s) + t.amount
  {
    assert (s + [t])[..|s|] == s;
  }

  lemma KeepAppend(s: seq<Transaction>, t: Transaction, p: Transaction -> bool)
    ensures Keep(s + [t], p) == Keep(s, p) + (if p(t) then [t] else [])
  {
    assert (s + [t])[..|s|] == s;
  }

  /** Appending one entry adds its amount to a filtered total exactly when
      the filter keeps it. */
  lemma KeepTotalAppend(s: seq<Transaction>, t: Transaction, p: Transaction -> bool)
    ensures Total(Keep(s + [t], p)) == Total(Keep(s, p)) + (if p(t) then t.amount else 0.0)
  {
    KeepAppend(s, t, p);
    if p(t) {
      TotalAppend(Keep(s, p), t);
    } else {
      assert Keep(s + [t], p) == Keep(s, p);
    }
  }

  /** The balance is the income total minus the total of every entry that is
      not an income. */
  lemma {:induction false} BalanceSplit(s: seq<Transaction>)
    decreases |s|
    ensures Balance(s) == IncomeTotal(s) - Total(Keep(s, IsNotIncome))
  {
    if s != [] {
      var init, last := s[..|s| - 1], s[|s| - 1];
      assert s == init + [last];
      BalanceSplit(init);
      BalanceAppend(init, last);
      KeepTotalAppend(init, last, IsIncome);
      KeepTotalAppend(init, last, IsNotIncome);
    }
  }

  /** What is not an income is an expense or of another type. */
  lemma {:induction false} NotIncomeSplit(s: seq<Transaction>)
    decreases |s|
    ensures Total(Keep(s, IsNotIncome)) == ExpenseTotal(s) + OtherTotal(s)
  {
    if s != [] {
      var init, last := s[..|s| - 1], s[|s| - 1];
      assert s == init + [last];
      NotIncomeSplit(init);
      KeepTotalAppend(init, last, IsNotIncome);
      KeepTotalAppend(init, last, IsExpense);
      KeepTotalAppend(init, last, IsOther);
    }
  }

  /** The balance is income minus expense minus the entries of other types;
      when every entry is an income or an expense, it is the income card
      minus the expense card. */
  lemma {:induction false} BalanceFromCards(s: seq<Transaction>)
    ensures Balance(s) == IncomeTotal(s) - ExpenseTotal(s) - OtherTotal(s)
    ensures (forall i :: 0 <= i < |s| ==> s[i].kind == Income || s[i].kind == Expense) ==>
      Balance(s) == IncomeTotal(s) - ExpenseTotal(s)
  {
    BalanceSplit(s);
    NotIncomeSplit(s);
    if forall i :: 0 <= i < |s| ==> s[i].kind == Income || s[i].kind == Expense {
      NoOthers(s);
    }
  }

  lemma {:induction false} NoOthers(s: seq<Transaction>)
    requires forall i :: 0 <= i < |s| ==> s[i].kind == Income || s[i].kind == Expense
    decreases |s|
    ensures Keep(s, IsOther) == []
  {
    if s != [] {
      NoOthers(s[..|s| - 1]);
    }
  }

  /** The balance of two histories one after the other is the sum of theirs. */
  lemma {:induction false} BalanceConcat(a: seq<Transaction>, b: seq<Transaction>)
    decreases |b|
    ensures Balance(a + b) == Balance(a) + Balance(b)
  {
    if b == [] {
      assert a + b == a;
    } else {
      var init, last := b[..|b| - 1], b[|b| - 1];
      assert b == init + [last];
      assert a + b == (a + init) + [last];
      BalanceConcat(a, init);
      BalanceAppend(a + init, last);
      BalanceAppend(init, last);
    }
  }

  /** Taking one entry out of the middle of a history takes its own balance
      out of the total. */
  lemma BalanceExtract(before: seq<Transaction>, x: Transaction, after: seq<Transaction>)
    ensures Balance(before + [x] + after) == Balance(before + after) + Balance([x])
  {
    BalanceConcat(before + [x], after);
    BalanceConcat(before, [x]);
    BalanceConcat(before, after);
  }

  /** The entries left after taking one out of the middle. */
  lemma MultisetExtract(before: seq<Transaction>, x: Transaction, after: seq<Transaction>)
    ensures multiset(before + after) == multiset(before + [x] + after) - multiset{x}
  {
    assert multiset(before + [x] + after) == multiset(before) + multiset{x} + multiset(after);
    assert multiset(before + after) == multiset(before) + multiset(after);
  }

  /** The balance does not depend on the order of the history. */
  lemma {:induction false} BalancePermutation(s: seq<Transaction>, s': seq<Transaction>)
    requires multiset(s) == multiset(s')
    decreases |s|
    ensures Balance(s) == Balance(s')
  {
    if s == [] {
      assert |s'| == |multiset(s')| == 0;
    } else {
      var init, last := s[..|s| - 1], s[|s| - 1];
      assert s == init + [last];
      assert last in multiset(s');
      var k :| 0 <= k < |s'| && s'[k] == last;
      var before, after := s'[..k], s'[k + 1..];
      assert s' == before + [last] + after;
      MultisetExtract(before, last, after);
      assert multiset(init) == multiset(s) - multiset{last};
      BalancePermutation(init, before + after);
      BalanceConcat(init, [last]);
      BalanceExtract(before, last, after);
    }
  }

  // ---------------------------------------------------------------------
  // The budget gauge

  datatype Tier = Unset | Normal | Warning | Exceeded

  /** The tier and the progress bar's width in percent. */
  datatype BudgetGauge = BudgetGauge(tier: Tier, width: real)

  function Min(a: real, b: real): real { if a <= b then a else b }

  /** `updateBudgetUI(totalExpense)`: with a positive budget the percentage is
      `min(expense / budget * 100, 100)` and classifies at 100 and 80;
      otherwise no tier and an empty bar. */
  function GaugeFor(budget: real, totalExpense: real): BudgetGauge {
    if budget > 0.0 then
      var percentage := Min(totalExpense / budget * 100.0, 100.0);
      var tier := if percentage >= 100.0 then Exceeded
                  else if percentage >= 80.0 then Warning
                  else Normal;
      BudgetGauge(tier, percentage)
    else
      BudgetGauge(Unset, 0.0)
  }

  /** For a positive budget, the percentage reaches `c` exactly when
      `100 * expense` reaches `c * budget`. */
  lemma PercentageAtLeast(budget: real, expense: real, c: real)
    requires budget > 0.0
    ensures expense / budget * 100.0 >= c <==> 100.0 * expense >= c * budget
  {
    var q := expense / budget;
    assert q * budget == expense;
    var x := q * 100.0 - c;
    assert x * budget == 100.0 * expense - c * budget;
    if x >= 0.0 {
      assert x * budget >= 0.0;
    } else {
      assert x * budget < 0.0;
    }
  }

  /** The gauge in terms of expense and budget alone: exceeded exactly when
      the expense reaches the budget, warning from 80% of it, normal below;
      the bar is full exactly when exceeded and never wider than 100. */
  lemma GaugeMeaning(budget: real, expense: real)
    ensures budget <= 0.0 ==> GaugeFor(budget, expense) == BudgetGauge(Unset, 0.0)
    ensures budget > 0.0 ==> (GaugeFor(budget, expense).tier == Exceeded <==> expense >= budget)
    ensures budget > 0.0 ==> (GaugeFor(budget, expense).tier == Warning <==> 4.0 * budget <= 5.0 * expense < 5.0 * budget)
    ensures budget > 0.0 ==> (GaugeFor(budget, expense).tier == Normal <==> 5.0 * expense < 4.0 * budget)
    ensures budget > 0.0 ==> (GaugeFor(budget, expense).width == 100.0 <==> expense >= budget)
    ensures budget > 0.0 ==> GaugeFor(budget, expense).width <= 100.0
    ensures budget > 0.0 && expense >= 0.0 ==> 0.0 <= GaugeFor(budget, expense).width
  {
    if budget > 0.0 {
      PercentageAtLeast(budget, expense, 100.0);
      PercentageAtLeast(budget, expense, 80.0);
      PercentageAtLeast(budget, expense, 0.0);
    }
  }

  // ---------------------------------------------------------------------
  // The transaction table

  /** The three filter inputs: an optional first and last day and a category
      ('' or 'all' for every category). */
  datatype TableFilter = TableFilter(start: Option<int>, end: Option<int>, category: string)

  /** A filter applied only when asked for. */
  function Optionally(s: seq<Transaction>, apply: bool, p: Transaction -> bool): seq<Transaction> {
    if apply then Keep(s, p) else s
  }

  /** The filter chain of `renderTransactionTable`, one `filter` after another. */
  function FilterTable(s: seq<Transaction>, f: TableFilter): seq<Transaction> {
    var lo := f.start.GetOr(0);
    var hi := f.end.GetOr(0);
    var byStart := Optionally(s, f.start.Some?, (t: Transaction) => t.date >= lo);
    var byEnd := Optionally(byStart, f.end.Some?, (t: Transaction) => t.date <= hi);
    Optionally(byEnd, f.category != "" && f.category != "all", (t: Transaction) => t.category == f.category)
  }

  /** An entry shown by the filter: on or after the first day if given, on or
      before the last day if given, and in the category unless it is '' or 'all'. */
  predicate Matches(f: TableFilter, t: Transaction) {
    && (f.start.Some? ==> t.date >= f.start.value)
    && (f.end.Some? ==> t.date <= f.end.value)
    && (f.category != "" && f.category != "all" ==> t.category == f.category)
  }

  lemma {:induction false} KeepAll(s: seq<Transaction>, p: Transaction -> bool)
    requires forall t :: p(t)
    decreases |s|
    ensures Keep(s, p) == s
  {
    if s != [] {
      assert s == s[..|s| - 1] + [s[|s| - 1]];
      KeepAll(s[..|s| - 1], p);
    }
  }

  lemma {:induction false} KeepKeep(s: seq<Transaction>, p: Transaction -> bool, q: Transaction -> bool, r: Transaction -> bool)
    requires forall t :: r(t) == (p(t) && q(t))
    decreases |s|
    ensures Keep(Keep(s, p), q) == Keep(s, r)
  {
    if s != [] {
      var init, last := s[..|s| - 1], s[|s| - 1];
      assert s == init + [last];
      KeepKeep(init, p, q, r);
      KeepAppend(init, last, p);
      KeepAppend(init, last, r);
      if p(last) {
        KeepAppend(Keep(init, p), last, q);
        if !q(last) {
          assert Keep(Keep(init, p) + [last], q) == Keep(Keep(init, p), q);
          assert Keep(s, r) == Keep(init, r);
        }
      } else {
        assert Keep(s, p) == Keep(init, p);
        assert Keep(s, r) == Keep(init, r);
      }
    }
  }

  lemma OptionallyKeep(s: seq<Transaction>, apply: bool, p: Transaction -> bool, r: Transaction -> bool)
    requires forall t :: r(t) == (!apply || p(t))
    ensures Optionally(s, apply, p) == Keep(s, r)
  {
    if !apply { KeepAll(s, r); }
    else {
      forall t ensures r(t) == (p(t) && p(t)) { }
      KeepKeep(s, p, p, r);
      KeepKeep(s, p, p, p);
    }
  }

  /** The filter chain keeps exactly the entries that match all three inputs,
      in their order. */
  lemma FilterTableExact(s: seq<Transaction>, f: TableFilter)
    ensures FilterTable(s, f) == Keep(s, (t: Transaction) => Matches(f, t))
  {
    var lo := f.start.GetOr(0);
    var hi := f.end.GetOr(0);
    var ps: Transaction -> bool := (t: Transaction) => t.date >= lo;
    var pe: Transaction -> bool := (t: Transaction) => t.date <= hi;
    var pc: Transaction -> bool := (t: Transaction) => t.category == f.category;
    var applyC := f.category != "" && f.category != "all";
    var r1: Transaction -> bool := (t: Transaction) => !f.start.Some? || ps(t);
    var r2: Transaction -> bool := (t: Transaction) => !f.end.Some? || pe(t);
    var r3: Transaction -> bool := (t: Transaction) => !applyC || pc(t);
    var r12: Transaction -> bool := (t: Transaction) => r1(t) && r2(t);
    var all: Transaction -> bool := (t: Transaction) => Matches(f, t);
    OptionallyKeep(s, f.start.Some?, ps, r1);
    var a := Keep(s, r1);
    OptionallyKeep(a, f.end.Some?, pe, r2);
    KeepKeep(s, r1, r2, r12);
    var b := Keep(s, r12);
    OptionallyKeep(b, applyC, pc, r3);
    KeepKeep(s, r12, r3, all);
  }

  /** Newest first: dates never increase along the table. */
  predicate DateDescending(r: seq<Transaction>) {
    forall i, j :: 0 <= i < j < |r| ==> r[i].date >= r[j].date
  }

  /** Exchanges two neighbouring entries of the table being sorted. */
  method SwapDown(a: array<Transaction>, j: nat)
    requires 0 < j < a.Length
    modifies a
    ensures a[j - 1] == old(a[j]) && a[j] == old(a[j - 1])
    ensures forall k :: 0 <= k < a.Length && k != j - 1 && k != j ==> a[k] == old(a[k])
    ensures multiset(a[..]) == multiset(old(a[..]))
  {
    a[j - 1], a[j] := a[j], a[j - 1];
  }

  /** One pass of the sort: moves `a[i]` left past every older entry, so
      that the first `i + 1` entries are newest first. */
  method SinkNewest(a: array<Transaction>, i: nat)
    requires i < a.Length
    requires forall x, y :: 0 <= x < y < i ==> a[x].date >= a[y].date
    modifies a
    ensures forall x, y :: 0 <= x < y <= i ==> a[x].date >= a[y].date
    ensures forall k :: i < k < a.Length ==> a[k] == old(a[k])
    ensures multiset(a[..]) == multiset(old(a[..]))
  {
    var j := i;
    while j > 0 && a[j - 1].date < a[j].date
      invariant 0 <= j <= i
      invariant forall x, y :: 0 <= x < y <= i && x != j && y != j ==> a[x].date >= a[y].date
      invariant forall y :: j < y <= i ==> a[j].date >= a[y].date
      invariant forall k :: i < k < a.Length ==> a[k] == old(a[k])
      invariant multiset(a[..]) == multiset(old(a[..]))
    {
      SwapDown(a, j);
      j := j - 1;
    }
  }

  /** `transactions.sort((a, b) => new Date(b.date) - new Date(a.date))`,
      in place on a copy of the filtered list. */
  method SortByDateDesc(s: seq<Transaction>) returns (r: seq<Transaction>)
    ensures multiset(r) == multiset(s)
    ensures DateDescending(r)
  {
    var a := new Transaction[|s|](i requires 0 <= i < |s| => s[i]);
    assert a[..] == s;
    var i := 0;
    while i < a.Length
      invariant 0 <= i <= a.Length
      invariant forall x, y :: 0 <= x < y < i ==> a[x].date >= a[y].date
      invariant multiset(a[..]) == multiset(s)
    {
      SinkNewest(a, i);
      i := i + 1;
    }
    r := a[..];
  }

  // ---------------------------------------------------------------------
  // The administrator's view, over the stored user records

  /** `fromData(d).getBalance()`. */
  function RecordBalance(d: UserRecord): real { Balance(Rehydrate(d).transactions) }

  /** The expense total of `fromData(d)`. */
  function RecordExpense(d: UserRecord): real { ExpenseTotal(Rehydrate(d).transactions) }

  /** The over-budget alert of the users table: role 'user', a positive
      budget, and an expense strictly above it. */
  predicate IsBudgetAlert(d: UserRecord) {
    var u := Rehydrate(d);
    u.role == RegularUser && u.budget > 0.0 && RecordExpense(d) > u.budget
  }

  /** The system balance: the sum of every stored user's balance. */
  function SystemBalance(rs: seq<UserRecord>): real
    decreases |rs|
  {
    if rs == [] then 0.0 else SystemBalance(rs[..|rs| - 1]) + RecordBalance(rs[|rs| - 1])
  }

  /** The number of budget alerts. */
  function BudgetAlerts(rs: seq<UserRecord>): nat
    decreases |rs|
  {
    if rs == [] then 0 else BudgetAlerts(rs[..|rs| - 1]) + (if IsBudgetAlert(rs[|rs| - 1]) then 1 else 0)
  }

  /** The three statistic cards. */
  datatype AdminStats = AdminStats(totalUsers: nat, systemBalance: real, budgetAlerts: nat)

  /** The accumulation loop of `loadAdminDashboard` over the stored records. */
  method AdminStatistics(rs: seq<UserRecord>) returns (stats: AdminStats)
    ensures stats.totalUsers == |rs|
    ensures stats.systemBalance == SystemBalance(rs)
    ensures stats.budgetAlerts == BudgetAlerts(rs)
  {
    var totalSystemBalance := 0.0;
    var budgetAlertsCount := 0;
    var i := 0;
    while i < |rs|
      invariant 0 <= i <= |rs|
      invariant totalSystemBalance == SystemBalance(rs[..i])
      invariant budgetAlertsCount == BudgetAlerts(rs[..i])
    {
      assert rs[..i + 1][..i] == rs[..i];
      var u := User.FromData(rs[i]);
      var balance := u.GetBalance();
      totalSystemBalance := totalSystemBalance + balance;
      if u.role == RegularUser && u.budget > 0.0 {
        var expense := ExpenseTotal(u.transactions);
        if expense > u.budget {
          budgetAlertsCount := budgetAlertsCount + 1;
        }
      }
      i := i + 1;
    }
    assert rs[..i] == rs;
    stats := AdminStats(|rs|, totalSystemBalance, budgetAlertsCount);
  }

  /** The report's `Estado` column. */
  datatype ReportStatus = Ok | OverBudget

  function StatusFor(budget: real, expense: real): ReportStatus {
    if budget > 0.0 && expense > budget then OverBudget else Ok
  }

  /** A row of the report: the header, or one user's figures. */
  datatype ReportRow =
    | HeaderRow
    | UserRow(name: string, email: string, role: Role, balance: real, transactionCount: nat,
              expense: real, budget: real, status: ReportStatus)

  /** The row of `generateAdminReport` for one stored record. */
  function RowFor(d: UserRecord): ReportRow {
    var u := Rehydrate(d);
    var expense := ExpenseTotal(u.transactions);
    UserRow(u.name, u.email, u.role, Balance(u.transactions), |u.transactions|,
            expense, u.budget, StatusFor(u.budget, expense))
  }

  /** The number of records the report flags as over budget. */
  function OverBudgetRows(rs: seq<UserRecord>): nat
    decreases |rs|
  {
    if rs == [] then 0 else OverBudgetRows(rs[..|rs| - 1]) + (if RowFor(rs[|rs| - 1]).status == OverBudget then 1 else 0)
  }

  /** The report loop: the header, then one row per stored record. */
  method ReportRows(rs: seq<UserRecord>) returns (rows: seq<ReportRow>)
    ensures |rows| == |rs| + 1
    ensures rows[0] == HeaderRow
    ensures forall i :: 0 <= i < |rs| ==> rows[i + 1] == RowFor(rs[i])
  {
    rows := [HeaderRow];
    var i := 0;
    while i < |rs|
      invariant 0 <= i <= |rs| && |rows| == i + 1 && rows[0] == HeaderRow
      invariant forall j :: 0 <= j < i ==> rows[j + 1] == RowFor(rs[j])
    {
      var u := User.FromData(rs[i]);
      var balance := u.GetBalance();
      var expense := ExpenseTotal(u.transactions);
      var status := Ok;
      if u.budget > 0.0 && expense > u.budget { status := OverBudget; }
      rows := rows + [UserRow(u.name, u.email, u.role, balance, |u.transactions|, expense, u.budget, status)];
      i := i + 1;
    }
  }

  /** A record raises an alert exactly when its role is 'user' and the
      report flags it; the report flags users of any role. */
  lemma AlertIsFlaggedUser(d: UserRecord)
    ensures IsBudgetAlert(d) <==> Rehydrate(d).role == RegularUser && RowFor(d).status == OverBudget
    ensures RowFor(d).status == OverBudget <==> Rehydrate(d).budget > 0.0 && RecordExpense(d) > Rehydrate(d).budget
  {
  }

  /** There are never more alerts than flagged rows, nor more flagged rows
      than users; with only role-'user' records the two counts agree. */
  lemma {:induction false} AlertsWithinFlagged(rs: seq<UserRecord>)
    decreases |rs|
    ensures BudgetAlerts(rs) <= OverBudgetRows(rs) <= |rs|
    ensures (forall i :: 0 <= i < |rs| ==> Rehydrate(rs[i]).role == RegularUser) ==>
      BudgetAlerts(rs) == OverBudgetRows(rs)
  {
    if rs != [] {
      var init := rs[..|rs| - 1];
      assert forall i :: 0 <= i < |init| ==> init[i] == rs[i];
      AlertsWithinFlagged(init);
      AlertIsFlaggedUser(rs[|rs| - 1]);
    }
  }

  /** The report is stricter than the gauge: a flagged user's gauge reads
      exceeded, but an expense equal to the budget reads exceeded on the
      gauge and OK in the report. */
  lemma ReportVersusGauge(budget: real, expense: real)
    ensures StatusFor(budget, expense) == OverBudget ==> GaugeFor(budget, expense).tier == Exceeded
    ensures budget > 0.0 && expense == budget ==>
      GaugeFor(budget, expense).tier == Exceeded && StatusFor(budget, expense) == Ok
  {
    GaugeMeaning(budget, expense);
  }
}
