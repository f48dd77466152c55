# Ledger and session model of a personal-finance tracker

This project is a Dafny model of the core of a browser-based personal-finance
tracker. It covers four parts:

- **Transaction**: one ledger entry. It is a plain record that is built once and never changed.
- **User**: an object that holds one person's credentials, role, monthly budget and transaction history. `addTransaction` and `setBudget` change it in place. The balance is a left fold over the history.
- **Auth**: a small state machine. Its state is:
  - the roster of all users;
  - the signed-in user (the session);
  - the browser's key-value store, which saves both under the keys `finanzas_users` and `finanzas_session`.

  Its operations are initialisation (seed an administrator or load the roster), register, login, logout and `updateUser`. `updateUser` writes a changed user to both the roster and the session.
- **Dashboard rules**: the figures the dashboard shows:
  - the income and expense totals;
  - the three-tier budget gauge, with thresholds at 80% and 100%;
  - the transaction table, filtered by dates and category and sorted newest first;
  - the administrator's system balance and over-budget alerts;
  - the per-user status column of the administrator's report.

  It also covers the two handlers that change the signed-in user and then call `updateUser`.

Layout, one module per source file (the dashboard file has two):

- `wrappers.dfy`, module `Wrappers`: `Option`, which stands for an undefined value.
- `transaction.dfy`, module `Transactions`: `TxType` and `Transaction`, the constructor and `FromData`.
- `user.dfy`, module `Users`:
  - the `User` class and the datatype `UserData` (its field values);
  - the stored record `UserRecord`, whose role, budget and transactions may be absent;
  - the fold `Balance`;
  - `Rehydrate`, the constructor's defaults applied to a record.
- `auth.dfy`, module `Authentication`: the `Auth` class, with the store as a `map<string, StoredValue>`.
- `dashboard_rules.dfy`, module `DashboardRules`:
  - the filter, totals, gauge, sort, admin statistics and report rows;
  - the lemmas about them.
- `dashboard_controller.dfy`, module `Dashboard`: the `DashboardController` class. It holds the signed-in user object that the handlers change in place.

Representation choices:

- Amounts and budgets are `real`. Arithmetic is exact, so the threshold and sum lemmas are exact.
- Dates are day numbers. The source compares ISO dates through `new Date`, and for `YYYY-MM-DD` strings that is a comparison by day.
- The transaction type is `Income | Expense | Other(name)`. The source stores any type string and compares it with 'income' and 'expense'. The subset type `TxType` rules out `Other("income")` and `Other("expense")`, so each type string has exactly one representation. The balance subtracts such an entry, but neither total counts it.
- Roles are `RegularUser | Admin | OtherRole(name)`. The subset type `Role` rules out `OtherRole("user")` and `OtherRole("admin")` in the same way.
- Aliasing is kept:
  - `login` makes the session the roster's own user object;
  - the dashboard controller edits the session object itself.

  - every `fromData` call builds its own object, so the users loaded at start-up are pairwise distinct and the stored session user is none of them.

  So after a handler's `updateUser`, the roster entry and the session are the same object.
- Identifiers that the source takes from `Date.now()` are parameters.

Behaviour of the code that the model keeps:

- The transaction constructor validates nothing. Negative amounts and unknown types are stored as given.
- `User.fromData` passes the stored transaction list through unchanged. It does not rebuild each entry.
- `User.js` has no categories.
- `setBudget` accepts any number. Only the budget handler rejects NaN and negative values.
- `login` accepts the first user whose email and password both match. It does not require the match to be unique.
- The administrator's views read the roster from the store themselves. `Auth` has no operation that lists users.

## Model

| member | source | states |
|---|---|---|
| `Transactions.NewTransaction` | assets/js/models/Transaction.js:6-13 | every argument is stored unchanged, with no validation: any amount, negative included, and any type |
| `Transactions.FromData` | assets/js/models/Transaction.js:15-24 | rebuilding from a record with the six fields gives that record back field for field (round trip) |
| `Transactions.FromDataIdempotent` | assets/js/models/Transaction.js:15-24 | rehydrating twice equals rehydrating once |
| `Users.BalanceAppend` | assets/js/models/User.js:20-24 | the balance of no transactions is 0; appending an income adds its amount, appending anything else subtracts it |
| `Users.Rehydrate` | assets/js/models/User.js:6-14 | a record lacking role, budget or transactions gets 'user', 0 and []; every other field, and a present transaction list, is taken as given |
| `Users.Serialize` | assets/js/core/Auth.js:35-37 | a saved user record carries every field of the object |
| `Users.RoundTrip` | assets/js/models/User.js:47-57 | rehydrating a saved user gives back the same field values |
| `Users.RehydrateIdempotent` | assets/js/models/User.js:47-57 | once the defaults are filled in, rehydrating again changes nothing |
| `Users.User.constructor` | assets/js/models/User.js:6-14 | the new object holds the arguments, with the defaults for undefined role, budget and transactions |
| `Users.User.AddTransaction` | assets/js/models/User.js:30-32 | the history becomes the old history plus the new entry at the end; no other field changes |
| `Users.User.SetBudget` | assets/js/models/User.js:38-40 | the budget becomes exactly the argument, unvalidated; no other field changes |
| `Users.User.FromData` | assets/js/models/User.js:47-57 | a fresh object whose fields are the record's, with the constructor's defaults for absent ones |
| `Authentication.Get` | assets/js/core/Storage.js:32-41 | reading a key gives nothing exactly when the key is missing, and the stored value otherwise |
| `Authentication.Records` | assets/js/core/Auth.js:35-37 | saving the roster writes one record per user, in roster order |
| `Authentication.FindCredentials` | assets/js/core/Auth.js:69 | the result is the first index whose email and password both match, or none when no user matches both |
| `Authentication.FindId` | assets/js/core/Auth.js:92 | the result is the first index with the id, or none when no user has it |
| `Authentication.Auth.constructor` | assets/js/core/Auth.js:9-14 | starts with no session and then initialises, with the effects listed for `Initialize` |
| `Authentication.Auth.Initialize` | assets/js/core/Auth.js:16-33 | every loaded user and the session user are distinct objects. With no stored roster: exactly the seeded administrator (id 1, 'Admin', 'admin@finanzas.com', 'admin123', 'admin', budget 0, no transactions), which is also written to the store. With a stored roster, an empty one included: one rehydrated user per record, no seeding, and the store untouched. A stored session record becomes a fresh session user, not checked against the roster; with none, the session stays as it was |
| `Authentication.Auth.LoadRoster` | assets/js/core/Auth.js:25 | one fresh user per stored record, in order, each rehydrated from its record, and no object twice |
| `Authentication.Auth.SaveUsers` | assets/js/core/Auth.js:35-37 | the roster key now holds the records of the current roster; nothing else changes |
| `Authentication.Auth.Register` | assets/js/core/Auth.js:46-60 | fails exactly when the email is already registered, and then changes nothing. On success: one new user is appended with the given name, email and password, role 'user', budget 0 and no transactions; earlier entries and the session are unchanged; the roster is saved |
| `Authentication.Auth.Login` | assets/js/core/Auth.js:68-76 | succeeds exactly when some user matches both email and password. On success the session becomes the first such roster object, its record is saved under the session key, and the auth is then authenticated. On failure the session and the store are unchanged |
| `Authentication.Auth.Logout` | assets/js/core/Auth.js:81-85 | the session is cleared and its key removed, after which neither `IsAuthenticated` nor `IsAdmin` holds; with no session and no key, the store is unchanged (a second logout changes nothing) |
| `Authentication.Auth.UpdateUser` | assets/js/core/Auth.js:91-103 | with no roster entry for the id, nothing changes. Otherwise the first such entry becomes the argument, every other entry stays, and the roster is saved. If the session had that id, the session becomes the same object and its record is saved too. Afterwards the roster entry, its saved record and (when the id matched) the session and its record all equal the argument |
| `Authentication.Auth.ReplaceEntry` | assets/js/core/Auth.js:94-95 | the entry at the index becomes the given object, every other entry stays, the roster is saved, and the saved record at that index is the object's record; the session is untouched |
| `Authentication.Auth.SaveSession` | assets/js/core/Auth.js:99-100 | the session becomes the given object and its record is written under the session key; nothing else changes |
| `Authentication.Auth.IsAuthenticated` | assets/js/core/Auth.js:105-107 | authenticated exactly when some user object holds the session |
| `Authentication.Auth.IsAdmin` | assets/js/core/Auth.js:109-111 | an administrator session is in particular an authenticated one |
| `DashboardRules.KeepExactly` | assets/js/controllers/DashboardController.js:281-298 | a filter keeps only entries that satisfy its condition, and each such entry exactly as often as it occurs in the input |
| `DashboardRules.BalanceSplit` | assets/js/models/User.js:20-24 | the balance equals the sum of the incomes minus the sum of every non-income entry |
| `DashboardRules.NotIncomeSplit` | assets/js/controllers/DashboardController.js:214-216 | the non-income sum is the expense total plus the total of the other types |
| `DashboardRules.BalanceFromCards` | assets/js/controllers/DashboardController.js:205-216 | the balance is income minus expense minus other-type entries; when every entry is an income or an expense it is income minus expense |
| `DashboardRules.BalanceConcat` | assets/js/models/User.js:20-24 | the balance of two histories in sequence is the sum of their balances |
| `DashboardRules.BalancePermutation` | assets/js/models/User.js:20-24 | any reordering of the history has the same balance |
| `DashboardRules.PercentageAtLeast` | assets/js/controllers/DashboardController.js:249 | with a positive budget, the percentage reaches c exactly when 100 times the expense reaches c times the budget |
| `DashboardRules.GaugeMeaning` | assets/js/controllers/DashboardController.js:244-271 | budget of 0 or less: no tier and an empty bar. Otherwise the tier is exceeded exactly when expense is at least the budget, warning exactly when it is from 80% up to but not including the budget, and normal exactly below 80%. The bar is at most 100, is exactly 100 exactly when expense is at least the budget, and is at least 0 when expense is non-negative |
| `DashboardRules.FilterTableExact` | assets/js/controllers/DashboardController.js:281-298 | the filter chain keeps, in their order, exactly the entries on or after the start day (if given), on or before the end day (if given, inclusive) and in the category (unless it is '' or 'all') |
| `DashboardRules.SwapDown` | assets/js/controllers/DashboardController.js:301 | exchanging two neighbouring entries leaves every other entry and the multiset of entries unchanged |
| `DashboardRules.SinkNewest` | assets/js/controllers/DashboardController.js:301 | one pass extends the newest-first prefix by one entry, leaves later entries alone and permutes the array |
| `DashboardRules.SortByDateDesc` | assets/js/controllers/DashboardController.js:301 | the table is a permutation of the filtered list whose dates never increase |
| `DashboardRules.AdminStatistics` | assets/js/controllers/DashboardController.js:397-424 | the loop's user count is the number of stored records. Its system balance is the sum of each record's rehydrated balance. Its alert count counts records with role 'user', a positive budget and an expense strictly over it |
| `DashboardRules.ReportRows` | assets/js/controllers/DashboardController.js:463-486 | one header row, then one row per stored record, in order, with that record's figures and status |
| `DashboardRules.AlertIsFlaggedUser` | assets/js/controllers/DashboardController.js:418-420 | a record raises an alert exactly when its role is 'user' and the report flags it. The report flags it exactly when its budget is positive and its expense exceeds the budget, whatever the role |
| `DashboardRules.AlertsWithinFlagged` | assets/js/controllers/DashboardController.js:400-424 | alerts never outnumber flagged report rows, which never outnumber the users; with only role-'user' records the two counts agree |
| `DashboardRules.ReportVersusGauge` | assets/js/controllers/DashboardController.js:474 | a flagged report row means the gauge reads exceeded; an expense equal to a positive budget reads exceeded on the gauge but OK in the report |
| `Dashboard.StoredRoster` | assets/js/controllers/DashboardController.js:397 | the stored roster when the key is present, and the empty list otherwise |
| `Dashboard.SavedRosterBalance` | assets/js/controllers/DashboardController.js:403-408 | on a roster as it was just saved, the system balance read back from the store equals the sum of the users' own balances |
| `Dashboard.DashboardController.constructor` | assets/js/controllers/DashboardController.js:17-24 | the controller's user is the session object itself |
| `Dashboard.DashboardController.LoadUserDashboard` | assets/js/controllers/DashboardController.js:203-228 | the balance equals income minus expense minus other types. The cards are the income and expense totals over all transactions. The gauge is computed from the all-time expense. The table is a permutation of exactly the matching entries, newest first |
| `Dashboard.DashboardController.HandleTransactionSubmit` | assets/js/controllers/DashboardController.js:332-346 | the user gains the new entry at the end of its history, and nothing else about it changes. If the roster holds the user's id, that entry and the session are both this object, and both saved records carry the new entry. If it does not, nothing is saved |
| `Dashboard.DashboardController.HandleBudgetSubmit` | assets/js/controllers/DashboardController.js:355-367 | only a number that is at least 0 becomes the budget and is passed to `updateUser`, with the same save effects as above. NaN or a negative number changes nothing |
| `Dashboard.DashboardController.LoadAdminDashboard` | assets/js/controllers/DashboardController.js:391-457 | the statistics are those of the roster as stored, not of the in-memory one |
| `Dashboard.DashboardController.GenerateAdminReport` | assets/js/controllers/DashboardController.js:459-487 | no report unless the session is an administrator. Otherwise the report is the header plus one row per stored record |

## Left out

- Page work is not modelled: element lookups, classes, `innerHTML`, modals, event listeners, view switching, charts, `window.location` redirects (including the one in `logout`), and the CSV join and download of the report. The report is kept as its rows; number and date formatting (`toFixed`, `toLocaleDateString`) is not modelled.
- `assets/js/controllers/LoginController.js` is not part of this model. It is only form handling and navigation.
- The storage wrapper's JSON encoding and its logged failures are not modelled. The store is a map: reading a missing key gives nothing, saving overwrites, removing deletes, and every save succeeds.
- Amounts are exact reals. IEEE floating-point rounding and `NaN` are not modelled. The `Number`/`parseFloat` coercion of strings is a JavaScript built-in, so amounts arrive already numeric. In the budget handler, a NaN amount is `None`.
- `Date.now()` identifiers are parameters. Nothing is claimed about their uniqueness, because the source does not guarantee it.
- Categories (`user.categories`, `user.addCategory`, `handleCategorySubmit`, `populateCategorySelects`) are not modelled. `User.js` defines neither the field nor the method.
- Concurrent writers to the same store (several tabs, last writer wins) are not modelled. They are outside a single sequential run.
- The administrator-only gating of the admin view is left to callers, as in the source; only the report's own `isAdmin` check is modelled.
- A user field stored as JSON `null` (as opposed to an absent field) is not modelled. The constructor's defaults do not replace it. A `null` role is simply neither 'user' nor 'admin'. A `null` budget counts as unset, because the gauge's `|| 0` and the `u.budget > 0` tests treat it as 0. It throws only at `u.budget.toFixed(2)` in the report (assets/js/controllers/DashboardController.js:483). A `null` transaction list throws at the `reduce` of `getBalance` (assets/js/models/User.js:21) and wherever else the list is read.
- `Authentication.Auth.constructor` and `Authentication.Auth.Initialize` require the store to hold a list under the roster key and a user record under the session key. Every write in the source leaves it that way. For other stored values the source behaves as follows, and the model does not cover these cases:
  - A falsy roster value (`null`, `0`, `false`, `""`) makes `!usersData` true (assets/js/core/Auth.js:19), so the administrator is seeded and saved over it.
  - A truthy roster value that is not an array throws at `usersData.map` (assets/js/core/Auth.js:25).
  - A falsy session value is skipped by `if (sessionUser)` (assets/js/core/Auth.js:30), as a missing one is.
  - A truthy session value that is not a record (a number, a string, a list) goes through `User.fromData` (assets/js/core/Auth.js:31) without throwing. The session user then has undefined fields.
- `Dashboard.DashboardController.constructor` requires a signed-in session. With no session the source redirects to the login page, which is navigation and is left out.
- `DashboardRules.SortByDateDesc`: does not state that entries with the same date keep their relative order. JavaScript's sort is stable, but only the permutation and the newest-first order are proved.
