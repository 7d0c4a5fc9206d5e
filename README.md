# Budget tracker: a verified model of its core

The budget tracker is a small personal-finance web application. A FastAPI
server keeps each user's incomes and expenses and answers with lists, totals
and per-category or per-month breakdowns. A browser page logs in, keeps a
bearer token, lists the records and draws charts, among them a running balance
per month.

This Dafny project models the logic of the three core files and proves what they promise:

- **frontend/api.js** is the browser's gateway to the server (`api.dfy`,
  module `Api`).
  - The token lives in memory and is mirrored into `localStorage`. `Session` is
    a class whose `SetToken` and `Logout` update both copies.
  - The `Authorization: Bearer` header is added only when a token is present.
  - `?month=` is appended only when the filter is truthy.
  - Any 401 answer logs the user out.
  - `login` and `signup` each have their own error messages.
- **frontend/app.js** is the page (`app.dfy`, module `App`).
  - `loadBalanceChart` groups the fetched records by their `YYYY-MM` date
    prefix, sorts the months and accumulates a running balance. It is written
    as three imperative methods, proved against the group-sum specification.
  - The icon is chosen by sequential keyword tests on the lower-cased category.
  - The sign and CSS class of an amount depend on its type.
  - The list is cleared and then re-filled on every load.
  - The globals `isAuthenticated` and `selectedMonth` form a small state
    machine, the class `Page`.
- **backend/main.py** is the server.
  - `backend.dfy`, module `Backend`:
    - the month window of the `month` parameter, with December rolling over
      into January;
    - the half-open date filter;
    - `get_expenses` with its owner filter and date order;
    - `get_summary`;
    - `summary_by_category` and `summary_by_month`, as loops filling a
      dictionary.
  - `store.dfy`, module `Store`: the write endpoints `create_expense`,
    `delete_expense` and `signup`, as methods of a `Database` class holding the
    two tables.

Shared building blocks:

- `grouping.dfy` (module `Grouping`):
  - the insertion-ordered dictionary `Dict`, which stands for both the JavaScript
    object `monthly` and the Python `result` dict;
  - its fold `Tally`;
  - the specification functions `GroupSum`, `SumGroups` and `Total`.
- `text.dfy` (module `Text`): the string order of JavaScript's default `sort()`,
  `includes` and `toLowerCase`.
- `wrappers.dfy`: `Option` and `Result`.
- `wire.dfy` (module `Wire`) joins the two halves. A stored row reaches the page
  with an ISO `YYYY-MM-DD` date. The page's string month keys then coincide with
  the server's calendar months and sort chronologically. The last point of the
  balance chart equals the `balance` of `/summary` for the same filter.

Some conventions of the model:

- The JavaScript/Python field `type` is called `kind`, because `type` is a Dafny keyword.
- Amounts are integers.
- A month filter that can be `null` or `""` is an `Option<string>` tested with `Truthy`.
- On the server, a `month` parameter is a validated `(year, month)` pair.
- The current user is a parameter, since `get_current_user` lives in a module
  that is not part of this model.
- A page or gateway call receives the HTTP status the server answered with as a
  parameter.

The page and the server treat a record whose type is neither "income" nor
"expense" differently:

- The page subtracts it from the balance.
- The server's summary counts it in neither total (`Backend.OtherKindsIgnored`).

`Wire.ChartEndsAtSummaryBalance` therefore assumes that every record has one of
the two types.

## Model

| member | source | states |
|---|---|---|
| Api.MonthUrl | frontend/api.js:65-66 | The URL is the base URL plus the path, followed by `?month=<m>` exactly when the month is truthy (neither null nor empty). |
| Api.FalsyMonthsAgree | frontend/api.js:106-107 | A null month and an empty month both give the bare path with no query. |
| Api.Login | frontend/api.js:41-45 | Succeeds exactly on a 2xx status and returns the payload. Any other status fails with "Login failed". |
| Api.SignupMessage | frontend/api.js:57 | The thrown message is a non-empty string detail itself, and "Signup failed" when the detail is missing or empty. A list of validation errors (truthy even when empty) becomes its string form of "[object Object]" texts. The message is empty exactly for an empty list. |
| Api.Signup | frontend/api.js:55-60 | Succeeds exactly on a 2xx status and returns the created user. Otherwise it fails with the message of the answer's `detail`. |
| Api.Session.constructor | frontend/api.js:3 | The in-memory token is seeded once from the storage key "token", or is null when the key is absent. The two copies agree. |
| Api.Session.GetToken | frontend/api.js:15-17 | A truthy token returned is the value stored under "token". |
| Api.Session.SetToken | frontend/api.js:6-13 | Afterwards `getToken()` returns the new token. Storage holds it under "token" when it is truthy; otherwise the entry is removed. Nothing else changes. |
| Api.Session.Logout | frontend/api.js:19-21 | The token becomes null and the "token" entry is gone. The rest of storage is unchanged. |
| Api.Session.AuthHeaders | frontend/api.js:23-27 | The headers have no key other than `Authorization`. That key is present exactly when the token is truthy, and its bearer value carries back exactly the token. |
| Api.Session.Send | frontend/api.js:64-76 | The request has the endpoint's method, its month URL, and the headers (plus JSON content type for a create) as they stood before the call. A 401 answer logs out and requests one reload. Any other answer leaves token and storage unchanged. |
| App.BalanceSeries | frontend/app.js:223-234 | The labels are exactly the month keys of the records, strictly ascending, so there are no duplicates. The balances run parallel to the labels. Each balance adds that month's signed group sum to the previous one. The last balance is the signed total of all records. |
| App.MonthlyTotals | frontend/app.js:226-230 | After the loop, `monthly` is the tally of signed amounts keyed by the 7-character date prefix. |
| App.RunningBalances | frontend/app.js:233-234 | Each element is the previous one plus that label's monthly value, and the last is the sum along all labels. |
| App.PickIcon | frontend/app.js:90-94 | The icon reassigned test by test equals `IconFor`: the last matching keyword among mad, transport, løn and bolig wins, and the receipt is the default. |
| App.IconIgnoresCase | frontend/app.js:91-94 | A category and its lower-cased form get the same icon. |
| App.HousingWins | frontend/app.js:94 | A category containing "bolig" in any letter case always gets the house icon. |
| App.StyleFor | frontend/app.js:96-98 | The sign is "+" exactly for type "income" and "-" for every other type. The class is "income" exactly when the sign is "+", otherwise "expense". |
| App.TransactionList.Render | frontend/app.js:82-115 | The list is cleared first, then holds exactly one row per fetched record, in fetch order, so loading again does not accumulate rows. |
| App.ReloadCalls | frontend/app.js:265-272 | A reload starts six loads: the list, the summary, the category summary and the month summary are among them. The month-summary load takes no filter; every other load carries the selected month. |
| App.UnfilteredReloadUrls | frontend/app.js:258-261 | Without a truthy filter, none of the reload's URLs has a month query. |
| App.Page.Start | frontend/app.js:281-288 | At start the page is authenticated exactly when a token is present. If so it shows the app and reloads once; otherwise it shows the login form. |
| App.Page.ReloadAll | frontend/app.js:265-272 | Issues the reload calls with the current filter. The authentication and filter state are untouched. |
| App.Page.DoLogin | frontend/app.js:18-35 | On success the token is kept in memory, `isAuthenticated` is true, the app is shown and one reload is made. Storage gets the "token" entry when the token is non-empty; an empty token removes that entry instead, and other entries are kept. On failure only the login error text is set; token, storage, page reloads, `isAuthenticated` and the screen do not change. |
| App.Page.DoSignup | frontend/app.js:37-56 | A failed signup shows the gateway's message, or "Kunne ikke oprette bruger" when that message is empty (an empty validation list). A failed automatic login shows "Login failed". In both failure cases the session, `isAuthenticated`, the screen and the reload count are untouched. Success behaves as a login, including what storage holds afterwards. |
| App.Page.DoLogout | frontend/app.js:275-279 | The token is cleared from memory, and only the "token" entry leaves storage. No page reload is requested. `isAuthenticated` is false and the login form is shown. Both error texts are kept. |
| App.Page.ApplyMonthFilter | frontend/app.js:253-256 | `selectedMonth` becomes the input value and a reload runs with it. The session, `isAuthenticated`, the screen and both error texts do not change. |
| App.Page.ClearMonthFilter | frontend/app.js:258-262 | `selectedMonth` becomes null, and no URL of the reload carries a month. The session, `isAuthenticated`, the screen and both error texts do not change. |
| App.Page.SubmitExpense | frontend/app.js:131-152 | POSTs to `/expenses` with the JSON content type and the auth headers as they were before the call. A 401 clears the token, removes only the "token" entry from storage and requests a page reload. Any other answer leaves token, storage and reloads alone. `isAuthenticated`, the screen and both error texts do not change, and a reload of the data follows in every case. |
| App.Page.DeleteExpense | frontend/app.js:155-158 | DELETEs `/expenses/<id>` with the auth headers as they were before the call. A 401 clears the token, removes only the "token" entry from storage and requests a page reload. Any other answer leaves token, storage and reloads alone. `isAuthenticated`, the screen and both error texts do not change, and a reload of the data follows in every case. |
| Backend.MonthRange | backend/main.py:53-58 | Fails exactly for December 9999, whose end date does not exist. Otherwise start comes strictly before end, and a date lies in `[start, end)` exactly when its year and month equal the requested ones. |
| Backend.Select | backend/main.py:50 | `query.filter(...)` as an order-keeping filter of the table; the result is no longer than the table. |
| Backend.SelectMembers | backend/main.py:50 | A row is selected exactly when it is in the table and passes every filter: the owner, the type if given, and the date window if given. |
| Backend.OrderByDate | backend/main.py:65 | The result is ordered by non-decreasing date and is a permutation of the input. |
| Backend.GetExpenses | backend/main.py:44-65 | Fails exactly for December 9999. Otherwise the result is date-ordered, a permutation of the user's selected rows, and holds exactly the current user's rows of the requested month, or all of them without a month. |
| Backend.GetSummary | backend/main.py:68-97 | Fails exactly for December 9999. The balance is total income minus total expense. |
| Backend.SummaryTotals | backend/main.py:90-91 | `total_income` is the sum of the amounts of the user's "income" rows in the window, and `total_expense` that of the "expense" rows. |
| Backend.OtherKindsIgnored | backend/main.py:90-91 | Adding a row of any other type changes no total. |
| Backend.IncomeAndExpenseCoverAll | backend/main.py:90-96 | When every row is income or expense, the two totals add up to the sum of all selected amounts. |
| Backend.KindRowsTotal | backend/main.py:106-109 | Filtering by a type in the query and summing gives the same as summing that type's rows among the unfiltered rows. |
| Backend.SummaryByCategory | backend/main.py:100-127 | The loop's dict is the per-category tally of the user's expense rows in the window, and its values add up to `get_summary`'s `total_expense` for the same month. Fails exactly for December 9999. |
| Backend.SummaryByMonth | backend/main.py:130-145 | The loop's dict is the per-month tally of all of the user's expense rows, and its values add up to the all-time `total_expense`. |
| Store.NextId | backend/models.py:9 | A new primary key is positive and larger than every key in use, so it is fresh. |
| Store.FindOwned | backend/main.py:154-157 | Finds the first row with both the id and the owner, and finds nothing exactly when no such row exists. |
| Store.Database.CreateExpense | backend/main.py:31-41 | Appends the submitted record under a fresh id, stamped with the current user's id. Users are unchanged and the table invariants are kept. |
| Store.Database.DeleteExpense | backend/main.py:148-165 | Answers 404 "Expense not found" and changes nothing exactly when no row has both the id and the owner. Otherwise it removes exactly that row and answers "Expense deleted". Another user's rows always stay. |
| Store.Database.Signup | backend/main.py:168-183 | An already-registered email gives 400 "Email already registered" and adds no user. Otherwise it appends one user with a fresh id. E-mails stay unique. |
| Grouping.TallyContents | backend/main.py:123-125 | The dict filled by `result[k] = result.get(k, 0) + amount` has exactly the keys that occur, and each value is the sum over that key's rows. |
| Grouping.TallySum | frontend/app.js:228-229 | The values of such a dict add up to the total of all amounts. |
| Grouping.TotalPermutation | backend/main.py:65 | Reordering rows does not change their total. |
| Text.Sort | frontend/app.js:232 | Object keys sorted by `sort()` are strictly ascending in code-unit order, with the same members and the same length. |
| Text.Lower | frontend/app.js:91 | Lower-casing maps each character to its lower-case form and keeps the length. |
| Wire.IsoDate | backend/schemas.py:9 | A stored date reaches the page as a 10-character ISO date whose first 7 characters are `YYYY-MM`. |
| Wire.MonthKeysAreChronological | frontend/app.js:228 | Two rows share a month key exactly when they are in the same calendar month. Month keys sort as strings exactly in calendar order. |
| Wire.ChartEndsAtSummaryBalance | frontend/app.js:233-234 | Given rows that are all incomes or expenses, the balance chart built from `/expenses` ends at `/summary`'s `balance` for the same month. |

## Left out

- HTTP transport is not modelled: `fetch`, FastAPI routing, CORS and JSON encoding. Each call receives the answered status as a parameter, and request bodies (form fields, JSON) are not modelled.
- The DOM, `innerHTML` templates, Chart.js (creating and destroying charts) and `toLocaleString` are not modelled. Rows and chart series are modelled as values.
- `window.location.reload()` is counted in `pageReloads`. The page's state after a reload is not modelled.
- Amounts are `Float` columns and JavaScript numbers; here they are integers, so rounding is not modelled.
- Text.Lower: exact for Latin-1 only. Upper-case letters outside Latin-1 are left as they are, whereas `toLowerCase` applies full Unicode case mapping.
- Text.Less: compares Dafny characters (code points). JavaScript's `sort()` compares UTF-16 code units, and the two orders differ only for characters outside the Basic Multilingual Plane.
- A malformed `month` string is not modelled: the server's `strptime` would raise, and here the month is a validated pair. The failure for December 9999 (`date(10000, 1, 1)` raises `ValueError`) is modelled as a 500 answer.
- `summary_by_month` keys are `strftime("%Y-%m")` strings; here they are kept as `(year, month)` pairs. `Wire.MonthKeysAreChronological` relates that format to the page's keys.
- Backend.OrderByDate: the order among rows with the same date is not specified, because `order_by(Expense.date)` leaves it to the database.
- Store.NextId: assigns the largest id plus one. The database layer (backend/database.py) is not part of this model.
- Server-side login, password hashing and JWT creation are not modelled. `get_current_user` lives in `security`, which is not part of this model; the current user id is a parameter, and `Signup` receives the password already hashed.
- `EmailStr` validation and normalisation are not modelled.
- The foreign key from `expenses.user_id` to `users` is not modelled.
- Overlapping `reloadAll` runs, whose loads race each other, are not modelled. Each reload is one step.
- A `signup` error response whose body is not JSON (`res.json()` throwing) is not modelled.
- Api.Signup: a `detail` is modelled as missing, a string, or a list of plain objects. Other JSON values (numbers, a single object) are not modelled, and neither is the content of the list's entries, which never reaches the message.
