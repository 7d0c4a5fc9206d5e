/**
 * The page controller (frontend/app.js): the balance-over-time series, the
 * presentation of each transaction row, and the login, logout and month-filter
 * state kept in the module globals `isAuthenticated` and `selectedMonth`.
 *
 * The DOM and Chart.js are not modelled; a rendered row is a value, the list
 * container a sequence of rows.
 */
module App {
  import opened Wrappers
  import opened Grouping
  import opened Text
  import opened Api

  /** An expense or income record as the API returns it; `kind` is the JSON field `type`. */
  datatype Entry = Entry(id: int, amount: int, category: string, description: Option<string>,
                         date: string, kind: string)

  /** The sign of an entry's amount in the running balance: income adds, anything else subtracts. */
  function Signed(e: Entry): int {
    if e.kind == "income" then e.amount else -e.amount
  }

  /** `e.date.slice(0, 7)`: the year-month prefix, or the whole string when shorter. */
  function MonthKey(e: Entry): string {
    if |e.date| >= 7 then e.date[..7] else e.date
  }

  /**
   * `loadBalanceChart`: groups the entries by month prefix into `monthly`,
   * sorts the months, and accumulates a running balance along them. Every month
   * present appears once, in ascending order; each step of the series adds that
   * month's signed sum; the series ends at the signed total of all entries.
   */
  method BalanceSeries(expenses: seq<Entry>) returns (labels: seq<string>, balances: seq<int>)
    ensures StrictlySorted(labels)
    ensures forall m :: m in labels <==> m in KeysOf(expenses, MonthKey)
    ensures |balances| == |labels|
    ensures |labels| > 0 ==> balances[0] == GroupSum(expenses, MonthKey, Signed, labels[0])
    ensures forall i :: 0 < i < |labels| ==>
              balances[i] == balances[i - 1] + GroupSum(expenses, MonthKey, Signed, labels[i])
    ensures |labels| > 0 ==> balances[|labels| - 1] == Total(expenses, Signed)
  {
    var monthly := MonthlyTotals(expenses);
    labels := Sort(monthly.keys);
    balances := RunningBalances(monthly, labels);
    TallyContents(expenses, MonthKey, Signed);
    if |labels| > 0 {
      SortedIsDistinct(labels);
      SumAlongTally(expenses, MonthKey, Signed, labels);
      SumGroupsCovers(expenses, MonthKey, Signed, labels);
    }
  }

  /** The `forEach` of `loadBalanceChart`: `monthly[m] = (monthly[m] || 0) + signed amount`. */
  method MonthlyTotals(expenses: seq<Entry>) returns (monthly: Dict<string>)
    ensures monthly == Tally(expenses, MonthKey, Signed)
  {
    monthly := Dict([], map[]);
    for i := 0 to |expenses|
      invariant monthly == Tally(expenses[..i], MonthKey, Signed)
    {
      var e := expenses[i];
      monthly := monthly.Add(MonthKey(e), Signed(e));
      assert expenses[..i + 1][..i] == expenses[..i];
    }
    assert expenses[..|expenses|] == expenses;
  }

  /**
   * `labels.map(m => (running += monthly[m]))`: the running total of the monthly
   * values along the labels; the last element is their sum.
   */
  method RunningBalances(monthly: Dict<string>, labels: seq<string>) returns (balances: seq<int>)
    ensures |balances| == |labels|
    ensures |labels| > 0 ==> balances[0] == monthly.Get(labels[0])
    ensures forall i :: 0 < i < |labels| ==> balances[i] == balances[i - 1] + monthly.Get(labels[i])
    ensures |labels| > 0 ==> balances[|labels| - 1] == SumAlong(monthly, labels)
  {
    var running := 0;
    balances := [];
    for j := 0 to |labels|
      invariant |balances| == j
      invariant running == SumAlong(monthly, labels[..j])
      invariant j > 0 ==> balances[j - 1] == running
      invariant j > 0 ==> balances[0] == monthly.Get(labels[0])
      invariant forall i :: 0 < i < j ==> balances[i] == balances[i - 1] + monthly.Get(labels[i])
    {
      running := running + monthly.Get(labels[j]);
      ghost var before := balances;
      balances := balances + [running];
      assert forall i :: 0 <= i < j ==> balances[i] == before[i];
      assert labels[..j + 1][..j] == labels[..j];
    }
    assert labels[..|labels|] == labels;
  }

  /** The icons of the transaction list. */
  datatype Icon =
    | Receipt  // 🧾, the default
    | Food     // 🍔, "mad"
    | Bus      // 🚌, "transport"
    | Money    // 💰, "løn"
    | House    // 🏠, "bolig"

  /**
   * The icon a category gets: the keyword tests run in the order "mad",
   * "transport", "løn", "bolig", each overriding the last, so the last keyword
   * that matches decides.
   */
  function IconFor(category: string): Icon {
    var lower := Lower(category);
    if Contains(lower, "bolig") then House
    else if Contains(lower, "løn") then Money
    else if Contains(lower, "transport") then Bus
    else if Contains(lower, "mad") then Food
    else Receipt
  }

  /** The icon choice in `loadExpenses`, reassigning `icon` test by test. */
  method PickIcon(category: string) returns (icon: Icon)
    ensures icon == IconFor(category)
  {
    var lower := Lower(category);
    icon := Receipt;
    if Contains(lower, "mad") { icon := Food; }
    if Contains(lower, "transport") { icon := Bus; }
    if Contains(lower, "løn") { icon := Money; }
    if Contains(lower, "bolig") { icon := House; }
  }

  /** The icon ignores letter case: a category and its lower-cased form get the same icon. */
  lemma IconIgnoresCase(category: string)
    ensures IconFor(Lower(category)) == IconFor(category)
  {
    LowerIdempotent(category);
  }

  /** A category mentioning "bolig" in any letter case gets the house, whatever else it mentions. */
  lemma {:induction false} HousingWins(category: string, k: nat)
    requires k + 5 <= |category| && Lower(category[k..k + 5]) == "bolig"
    ensures IconFor(category) == House
  {
    ContainsAt(Lower(category), "bolig", k);
  }

  /** A string contains every segment of itself. */
  lemma {:induction false} ContainsAt(s: string, p: string, k: nat)
    requires k + |p| <= |s| && s[k..k + |p|] == p
    ensures Contains(s, p)
  {
    if k > 0 {
      assert s[1..][k - 1..k - 1 + |p|] == p;
      ContainsAt(s[1..], p, k - 1);
    }
  }

  /** The sign and CSS class of an amount. */
  datatype Style = Style(sign: string, amountClass: string)

  /** `type === "income"` gives "+" and "income"; every other type gives "-" and "expense". */
  function StyleFor(kind: string): (s: Style)
    ensures s.sign == "+" <==> kind == "income"
    ensures s.sign == "-" <==> kind != "income"
    ensures s.amountClass == (if s.sign == "+" then "income" else "expense")
  {
    var isIncome := kind == "income";
    Style(if isIncome then "+" else "-", if isIncome then "income" else "expense")
  }

  /** One rendered row of the transaction list. */
  datatype Row = Row(icon: Icon, category: string, date: string, description: string,
                     style: Style, amount: int, id: int)

  /** The row an entry renders as; a missing or empty description shows as "". */
  function RowFor(e: Entry): Row {
    Row(IconFor(e.category), e.category, e.date,
        if Truthy(e.description) then e.description.value else "",
        StyleFor(e.kind), e.amount, e.id)
  }

  /** The `#expenses` container. */
  class TransactionList {
    var rows: seq<Row>

    constructor ()
      ensures rows == []
    {
      rows := [];
    }

    /**
     * `loadExpenses` after the fetch: clears the container, then appends one row
     * per entry in order. What was shown before leaves no trace, so loading the
     * same data again shows the same rows.
     */
    method Render(data: seq<Entry>)
      modifies this
      ensures |rows| == |data|
      ensures forall i :: 0 <= i < |data| ==> rows[i] == RowFor(data[i])
    {
      rows := [];
      for i := 0 to |data|
        invariant |rows| == i
        invariant forall k :: 0 <= k < i ==> rows[k] == RowFor(data[k])
      {
        var e := data[i];
        var icon := PickIcon(e.category);
        var isIncome := e.kind == "income";
        var amountClass := if isIncome then "income" else "expense";
        var sign := if isIncome then "+" else "-";
        var description := if Truthy(e.description) then e.description.value else "";
        rows := rows + [Row(icon, e.category, e.date, description, Style(sign, amountClass), e.amount, e.id)];
      }
    }
  }

  /**
   * The calls `reloadAll` starts, in order: the list, the summary, the category
   * chart, the month chart, the income/expense chart and the balance chart.
   * All but the month chart carry the selected month.
   */
  function ReloadCalls(selectedMonth: Option<string>): (calls: seq<Endpoint>)
    ensures |calls| == 6
    ensures SummaryByMonth in calls
    ensures ListExpenses(selectedMonth) in calls && Summary(selectedMonth) in calls
    ensures SummaryByCategory(selectedMonth) in calls
    ensures forall ep :: ep in calls && ep != SummaryByMonth ==> MonthArgument(ep) == selectedMonth
  {
    [ListExpenses(selectedMonth), Summary(selectedMonth), SummaryByCategory(selectedMonth),
     SummaryByMonth, Summary(selectedMonth), ListExpenses(selectedMonth)]
  }

  /** Without a truthy month filter, no call of a reload carries a `month` query. */
  lemma UnfilteredReloadUrls(selectedMonth: Option<string>)
    requires !Truthy(selectedMonth)
    ensures forall ep :: ep in ReloadCalls(selectedMonth) ==>
              MonthUrl(Path(ep), MonthArgument(ep)) == ApiUrl + Path(ep)
  {
    forall ep | ep in ReloadCalls(selectedMonth)
      ensures MonthUrl(Path(ep), MonthArgument(ep)) == ApiUrl + Path(ep)
    {
      assert !Truthy(MonthArgument(ep));
    }
  }

  datatype Screen = LoginScreen | SignupScreen | MainScreen

  /** The module globals of the page and the session it shares with the gateway. */
  class Page {
    const session: Session
    var isAuthenticated: bool
    var selectedMonth: Option<string>
    var screen: Screen
    var loginError: string
    var signupError: string
    /** How many times `reloadAll` has run. */
    var reloadCycles: nat

    ghost predicate Valid()
      reads this, session
    {
      session.Valid()
    }

    /** Page start: authenticated exactly when a token was restored. */
    constructor Start(session: Session)
      requires session.Valid()
      ensures this.session == session && Valid()
      ensures isAuthenticated <==> Truthy(session.GetToken())
      ensures screen == if isAuthenticated then MainScreen else LoginScreen
      ensures reloadCycles == if isAuthenticated then 1 else 0
      ensures selectedMonth == None && loginError == "" && signupError == ""
    {
      this.session := session;
      isAuthenticated := false;
      selectedMonth := None;
      loginError, signupError := "", "";
      reloadCycles := 0;
      if Truthy(session.GetToken()) {
        isAuthenticated := true;
        screen := MainScreen;
        reloadCycles := 1;
      } else {
        screen := LoginScreen;
      }
    }

    /** `reloadAll`: starts the six loads with the current month filter. */
    method ReloadAll() returns (calls: seq<Endpoint>)
      modifies this
      ensures calls == ReloadCalls(selectedMonth)
      ensures reloadCycles == old(reloadCycles) + 1
      ensures isAuthenticated == old(isAuthenticated) && selectedMonth == old(selectedMonth)
      ensures screen == old(screen) && loginError == old(loginError) && signupError == old(signupError)
    {
      calls := ReloadCalls(selectedMonth);
      reloadCycles := reloadCycles + 1;
    }

    /**
     * `doLogin`, given the status and body of the `/login` response: success
     * stores the token, authenticates, shows the app and reloads; failure shows
     * the error text and changes neither the token nor `isAuthenticated`.
     */
    method DoLogin(status: int, payload: TokenPayload)
      requires Valid()
      modifies this, session
      ensures Valid()
      ensures selectedMonth == old(selectedMonth) && signupError == old(signupError)
      ensures session.pageReloads == old(session.pageReloads)
      ensures IsOk(status) ==>
                && session.GetToken() == Some(payload.accessToken)
                && session.storage == (if payload.accessToken != "" then old(session.storage)[TokenKey := payload.accessToken]
                                       else old(session.storage) - {TokenKey})
                && isAuthenticated && screen == MainScreen
                && reloadCycles == old(reloadCycles) + 1 && loginError == ""
      ensures !IsOk(status) ==>
                && loginError == "Forkert email eller password"
                && session.token == old(session.token) && session.storage == old(session.storage)
                && isAuthenticated == old(isAuthenticated) && screen == old(screen)
                && reloadCycles == old(reloadCycles)
    {
      loginError := "";
      var response := Login(status, payload);
      match response
      case Ok(data) =>
        session.SetToken(Some(data.accessToken));
        isAuthenticated := true;
        screen := MainScreen;
        var _ := ReloadAll();
      case Err(_) =>
        loginError := "Forkert email eller password";
    }

    /**
     * `doSignup`, given the `/signup` response and then the `/login` response:
     * a signup failure shows the gateway's message, or the page's own text when
     * that message is empty (an empty validation list); a login failure shows
     * "Login failed"; success behaves as a login.
     */
    method DoSignup(signupStatus: int, detail: Detail, created: CreatedUser,
                    loginStatus: int, payload: TokenPayload)
      requires Valid()
      modifies this, session
      ensures Valid()
      ensures selectedMonth == old(selectedMonth) && loginError == old(loginError)
      ensures session.pageReloads == old(session.pageReloads)
      ensures !IsOk(signupStatus) ==>
                && signupError == (if detail == ErrorList(0) then "Kunne ikke oprette bruger"
                                   else SignupMessage(detail))
                && session.token == old(session.token) && session.storage == old(session.storage)
                && isAuthenticated == old(isAuthenticated) && screen == old(screen)
                && reloadCycles == old(reloadCycles)
      ensures IsOk(signupStatus) && !IsOk(loginStatus) ==>
                && signupError == "Login failed"
                && session.token == old(session.token) && session.storage == old(session.storage)
                && isAuthenticated == old(isAuthenticated) && screen == old(screen)
                && reloadCycles == old(reloadCycles)
      ensures IsOk(signupStatus) && IsOk(loginStatus) ==>
                && session.GetToken() == Some(payload.accessToken)
                && session.storage == (if payload.accessToken != "" then old(session.storage)[TokenKey := payload.accessToken]
                                       else old(session.storage) - {TokenKey})
                && isAuthenticated && screen == MainScreen
                && reloadCycles == old(reloadCycles) + 1 && signupError == ""
    {
      signupError := "";
      var signedUp := Signup(signupStatus, detail, created);
      if signedUp.Err? {
        signupError := if signedUp.error != "" then signedUp.error else "Kunne ikke oprette bruger";
        return;
      }
      var response := Login(loginStatus, payload);
      match response
      case Ok(data) =>
        session.SetToken(Some(data.accessToken));
        isAuthenticated := true;
        screen := MainScreen;
        var _ := ReloadAll();
      case Err(message) =>
        signupError := if message != "" then message else "Kunne ikke oprette bruger";
    }

    /** `doLogout`: clears the token and shows the login form. */
    method DoLogout()
      requires Valid()
      modifies this, session
      ensures Valid()
      ensures session.GetToken() == None && session.storage == old(session.storage) - {TokenKey}
      ensures !isAuthenticated && screen == LoginScreen
      ensures selectedMonth == old(selectedMonth) && reloadCycles == old(reloadCycles)
      ensures session.pageReloads == old(session.pageReloads)
      ensures loginError == old(loginError) && signupError == old(signupError)
    {
      session.Logout();
      isAuthenticated := false;
      screen := LoginScreen;
    }

    /** `applyMonthFilter`: selects the month input's value and reloads with it. */
    method ApplyMonthFilter(input: string) returns (calls: seq<Endpoint>)
      modifies this
      ensures selectedMonth == Some(input)
      ensures calls == ReloadCalls(Some(input))
      ensures reloadCycles == old(reloadCycles) + 1
      ensures isAuthenticated == old(isAuthenticated) && screen == old(screen)
      ensures loginError == old(loginError) && signupError == old(signupError)
    {
      selectedMonth := Some(input);
      calls := ReloadAll();
    }

    /** `clearMonthFilter`: drops the filter, so no call of the reload carries a month. */
    method ClearMonthFilter() returns (calls: seq<Endpoint>)
      modifies this
      ensures selectedMonth == None
      ensures calls == ReloadCalls(None)
      ensures forall ep :: ep in calls ==> MonthUrl(Path(ep), MonthArgument(ep)) == ApiUrl + Path(ep)
      ensures reloadCycles == old(reloadCycles) + 1
      ensures isAuthenticated == old(isAuthenticated) && screen == old(screen)
      ensures loginError == old(loginError) && signupError == old(signupError)
    {
      selectedMonth := None;
      calls := ReloadAll();
      UnfilteredReloadUrls(None);
    }

    /** The expense form's submit handler: creates the expense, then reloads whatever the answer. */
    method SubmitExpense(draft: Draft, status: int) returns (sent: Request, calls: seq<Endpoint>)
      requires Valid()
      modifies this, session
      ensures Valid()
      ensures sent.verb == "POST" && sent.url == ApiUrl + "/expenses"
      ensures sent.headers == map["Content-Type" := "application/json"] + old(session.AuthHeaders())
      ensures status == 401 ==> session.GetToken() == None && session.storage == old(session.storage) - {TokenKey}
                                && session.pageReloads == old(session.pageReloads) + 1
      ensures status != 401 ==> session.token == old(session.token) && session.storage == old(session.storage)
                                && session.pageReloads == old(session.pageReloads)
      ensures isAuthenticated == old(isAuthenticated) && screen == old(screen)
      ensures loginError == old(loginError) && signupError == old(signupError)
      ensures calls == ReloadCalls(selectedMonth) && reloadCycles == old(reloadCycles) + 1
      ensures selectedMonth == old(selectedMonth)
    {
      sent := session.Send(CreateExpense(draft), status);
      calls := ReloadAll();
    }

    /** `deleteExpense(id)`: deletes, then reloads whatever the answer. */
    method DeleteExpense(id: nat, status: int) returns (sent: Request, calls: seq<Endpoint>)
      requires Valid()
      modifies this, session
      ensures Valid()
      ensures sent.verb == "DELETE" && sent.url == ApiUrl + "/expenses/" + DecimalString(id)
      ensures sent.headers == old(session.AuthHeaders())
      ensures status == 401 ==> session.GetToken() == None && session.storage == old(session.storage) - {TokenKey}
                                && session.pageReloads == old(session.pageReloads) + 1
      ensures status != 401 ==> session.token == old(session.token) && session.storage == old(session.storage)
                                && session.pageReloads == old(session.pageReloads)
      ensures isAuthenticated == old(isAuthenticated) && screen == old(screen)
      ensures loginError == old(loginError) && signupError == old(signupError)
      ensures calls == ReloadCalls(selectedMonth) && reloadCycles == old(reloadCycles) + 1
      ensures selectedMonth == old(selectedMonth)
    {
      sent := session.Send(Endpoint.DeleteExpense(id), status);
      calls := ReloadAll();
    }
  }
}
