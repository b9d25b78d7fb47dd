/**
 * The App and NavBar components of app.jsx: the two ledgers held as state,
 * the dispatch of add/edit/delete to the ledger they name, the derived
 * views (sorted ledgers, the combined sorted list, the dashboard totals),
 * the route table and the navigation bar's goTo.
 */
module App {
  import opened Transactions
  import opened Storage
  import opened History
  import opened Routing

  const IncomesKey := "incomes"
  const OutcomesKey := "outcomes"

  // ---------------------------------------------------------------------------
  // Ledger state and dispatch on values
  // ---------------------------------------------------------------------------

  /** The persistent namespace together with the `incomes` and `outcomes` state of App. */
  datatype AppState = AppState(storage: Namespace, incomes: seq<Transaction>, outcomes: seq<Transaction>)

  /** useState(() => loadTransactions(...)) for both ledgers. */
  function Initial(ns: Namespace): (st: AppState)
    ensures st.storage == ns
    ensures Mirrors(st)
  {
    AppState(ns, Load(ns, IncomesKey), Load(ns, OutcomesKey))
  }

  /** Each ledger state equals what loading its key returns. */
  ghost predicate Mirrors(st: AppState) {
    st.incomes == Load(st.storage, IncomesKey) && st.outcomes == Load(st.storage, OutcomesKey)
  }

  /**
   * setIncomes/setOutcomes with the ledger a store operation returned, the
   * namespace updated by that operation's save; a type that is neither
   * ledger runs no store operation and sets nothing.
   */
  function SetLedger(st: AppState, key: string, ledger: seq<Transaction>, accepted: bool): (r: AppState)
    ensures key == IncomesKey ==> r.incomes == ledger && r.outcomes == st.outcomes
    ensures key == OutcomesKey ==> r.outcomes == ledger && r.incomes == st.incomes
    ensures key == IncomesKey || key == OutcomesKey ==> r.storage == Save(st.storage, key, ledger, accepted)
    ensures key != IncomesKey && key != OutcomesKey ==> r == st
  {
    if key == IncomesKey then AppState(Save(st.storage, key, ledger, accepted), ledger, st.outcomes)
    else if key == OutcomesKey then AppState(Save(st.storage, key, ledger, accepted), st.incomes, ledger)
    else st
  }

  /** handleAddEditOperation(action, type, newT, toEdit). */
  function AddEditStep(st: AppState, action: string, key: string, newT: Transaction, toEdit: Patch, accepted: bool): (r: AppState)
    ensures action != "add" && action != "edit" ==> r == st
    ensures key != IncomesKey && key != OutcomesKey ==> r == st
  {
    if action == "add" then SetLedger(st, key, AddResult(st.storage, key, newT), accepted)
    else if action == "edit" then SetLedger(st, key, EditResult(st.storage, key, newT, toEdit), accepted)
    else st
  }

  /** handleDeleteOperation(type, t). */
  function DeleteStep(st: AppState, key: string, t: Transaction, accepted: bool): (r: AppState)
    ensures key == IncomesKey ==> r.outcomes == st.outcomes && |r.incomes| <= |Load(st.storage, key)|
    ensures key == OutcomesKey ==> r.incomes == st.incomes && |r.outcomes| <= |Load(st.storage, key)|
    ensures key != IncomesKey && key != OutcomesKey ==> r == st
  {
    SetLedger(st, key, DeleteResult(st.storage, key, t), accepted)
  }

  /** handleTransactionOps(action, type, newT, toEdit). */
  function OpsStep(st: AppState, action: string, key: string, newT: Transaction, toEdit: Patch, accepted: bool): (r: AppState)
    ensures !Dispatched(action, key) ==> r == st
  {
    if action == "add" || action == "edit" then AddEditStep(st, action, key, newT, toEdit, accepted)
    else if action == "delete" then DeleteStep(st, key, newT, accepted)
    else st
  }

  /** The ledger a dispatched operation computes from the namespace. */
  function OpResult(ns: Namespace, action: string, key: string, newT: Transaction, toEdit: Patch): seq<Transaction> {
    if action == "add" then AddResult(ns, key, newT)
    else if action == "edit" then EditResult(ns, key, newT, toEdit)
    else DeleteResult(ns, key, newT)
  }

  predicate Dispatched(action: string, key: string) {
    (action == "add" || action == "edit" || action == "delete") && (key == IncomesKey || key == OutcomesKey)
  }

  /**
   * An operation writes the named ledger to its state and to its key, and
   * leaves the other ledger, its key and every other key as they were; an
   * unknown action or type changes nothing at all.
   */
  lemma OpsStepTargetsOneLedger(st: AppState, action: string, key: string, newT: Transaction, toEdit: Patch, accepted: bool)
    ensures var r := OpsStep(st, action, key, newT, toEdit, accepted);
            var ledger := OpResult(st.storage, action, key, newT, toEdit);
            && (Dispatched(action, key) ==> r.storage == Save(st.storage, key, ledger, accepted))
            && (Dispatched(action, key) && key == IncomesKey ==> r.incomes == ledger && r.outcomes == st.outcomes)
            && (Dispatched(action, key) && key == OutcomesKey ==> r.outcomes == ledger && r.incomes == st.incomes)
            && (!Dispatched(action, key) ==> r == st)
  {
    var ledger := OpResult(st.storage, action, key, newT, toEdit);
    if action == "add" {
      assert OpsStep(st, action, key, newT, toEdit, accepted) == SetLedger(st, key, ledger, accepted);
    } else if action == "edit" {
      assert OpsStep(st, action, key, newT, toEdit, accepted) == SetLedger(st, key, ledger, accepted);
    } else if action == "delete" {
      assert OpsStep(st, action, key, newT, toEdit, accepted) == SetLedger(st, key, ledger, accepted);
    }
  }

  /** Operations whose writes are accepted keep both ledger states equal to what their keys load. */
  lemma OpsStepKeepsMirror(st: AppState, action: string, key: string, newT: Transaction, toEdit: Patch)
    requires Mirrors(st)
    ensures Mirrors(OpsStep(st, action, key, newT, toEdit, true))
  {
    if Dispatched(action, key) {
      var ledger := OpResult(st.storage, action, key, newT, toEdit);
      OpsStepTargetsOneLedger(st, action, key, newT, toEdit, true);
      LoadSaveRoundTrip(st.storage, key, ledger);
      if key == IncomesKey {
        SaveFrame(st.storage, key, ledger, true, OutcomesKey);
      } else {
        SaveFrame(st.storage, key, ledger, true, IncomesKey);
      }
    }
  }

  /** While mirrored, adding appends the record to the ledger shown in the view. */
  lemma AddExtendsView(st: AppState, key: string, t: Transaction, toEdit: Patch, accepted: bool)
    requires Mirrors(st)
    ensures key == IncomesKey ==> OpsStep(st, "add", key, t, toEdit, accepted).incomes == st.incomes + [t]
    ensures key == OutcomesKey ==> OpsStep(st, "add", key, t, toEdit, accepted).outcomes == st.outcomes + [t]
  {
  }

  /** A refused write leaves the storage behind while the state moves on. */
  lemma RefusedWriteDiverges(st: AppState, t: Transaction, toEdit: Patch)
    requires Mirrors(st)
    ensures OpsStep(st, "add", IncomesKey, t, toEdit, false).storage == st.storage
    ensures !Mirrors(OpsStep(st, "add", IncomesKey, t, toEdit, false))
  {
    var r := OpsStep(st, "add", IncomesKey, t, toEdit, false);
    assert |r.incomes| == |Load(r.storage, IncomesKey)| + 1;
  }

  // ---------------------------------------------------------------------------
  // Derived views
  // ---------------------------------------------------------------------------

  /** The income page's list: the incomes, latest first, same records, same total. */
  function SortedIncomes(st: AppState): (r: seq<Transaction>)
    ensures multiset(r) == multiset(st.incomes)
    ensures SortedByTimeDesc(r)
    ensures Total(r) == DashboardTotals(st.incomes, st.outcomes).income
  {
    SortSpec(st.incomes);
    SortTotal(st.incomes);
    SortByTimeDesc(st.incomes)
  }

  /** The outcome page's list: the outcomes, latest first, same records, same total. */
  function SortedOutcomes(st: AppState): (r: seq<Transaction>)
    ensures multiset(r) == multiset(st.outcomes)
    ensures SortedByTimeDesc(r)
    ensures Total(r) == DashboardTotals(st.incomes, st.outcomes).outcome
  {
    SortSpec(st.outcomes);
    SortTotal(st.outcomes);
    SortByTimeDesc(st.outcomes)
  }

  /** getSortedArray([...incomes, ...outcomes]). */
  function AllTransactions(st: AppState): (r: seq<Transaction>)
    ensures |r| == |st.incomes| + |st.outcomes|
  {
    SortByTimeDesc(st.incomes + st.outcomes)
  }

  /** The targets the dashboard counts up to. */
  datatype Totals = Totals(income: int, outcome: int, balance: int)

  function DashboardTotals(incomes: seq<Transaction>, outcomes: seq<Transaction>): (r: Totals)
    ensures r.balance == r.income - r.outcome
  {
    var totalIncome := Total(incomes);
    var totalOutcome := Total(outcomes);
    Totals(totalIncome, totalOutcome, totalIncome - totalOutcome)
  }

  /**
   * The combined view holds exactly the records of both ledgers, latest
   * first, with the records of each instant in `[...incomes, ...outcomes]`
   * order; its total is the income total plus the outcome total.
   */
  lemma AllTransactionsSpec(st: AppState)
    ensures multiset(AllTransactions(st)) == multiset(st.incomes) + multiset(st.outcomes)
    ensures SortedByTimeDesc(AllTransactions(st))
    ensures Total(AllTransactions(st)) == DashboardTotals(st.incomes, st.outcomes).income
                                         + DashboardTotals(st.incomes, st.outcomes).outcome
    ensures forall t :: AtTime(AllTransactions(st), t) == AtTime(st.incomes, t) + AtTime(st.outcomes, t)
  {
    forall t ensures AtTime(AllTransactions(st), t) == AtTime(st.incomes, t) + AtTime(st.outcomes, t) {
      SortStable(st.incomes + st.outcomes, t);
      AtTimeAppend(st.incomes, st.outcomes, t);
    }
    SortSpec(st.incomes + st.outcomes);
    SortTotal(st.incomes + st.outcomes);
    TotalAppend(st.incomes, st.outcomes);
  }

  /** Adding to one ledger leaves the other ledger's state alone. */
  lemma AddKeepsOtherLedger(st: AppState, key: string, t: Transaction, toEdit: Patch, accepted: bool)
    ensures key == IncomesKey ==> OpsStep(st, "add", key, t, toEdit, accepted).outcomes == st.outcomes
    ensures key == OutcomesKey ==> OpsStep(st, "add", key, t, toEdit, accepted).incomes == st.incomes
  {
  }

  /** One more record on either side moves the totals and the balance by its amount. */
  lemma DashboardAppend(incomes: seq<Transaction>, outcomes: seq<Transaction>, t: Transaction)
    ensures var before := DashboardTotals(incomes, outcomes);
            DashboardTotals(incomes + [t], outcomes) == Totals(before.income + t.amount, before.outcome, before.balance + t.amount)
    ensures var before := DashboardTotals(incomes, outcomes);
            DashboardTotals(incomes, outcomes + [t]) == Totals(before.income, before.outcome + t.amount, before.balance - t.amount)
  {
    TotalSnoc(incomes, t);
    TotalSnoc(outcomes, t);
  }

  /**
   * The dashboard after an income is added: the income total and the
   * balance rise by its amount and the outcome total stays; after an
   * outcome, the outcome total rises and the balance falls by its amount.
   */
  lemma DashboardAfterAdd(st: AppState, key: string, t: Transaction, toEdit: Patch, accepted: bool)
    requires Mirrors(st)
    ensures var before := DashboardTotals(st.incomes, st.outcomes);
            var r := OpsStep(st, "add", key, t, toEdit, accepted);
            var after := DashboardTotals(r.incomes, r.outcomes);
            && (key == IncomesKey ==> after == Totals(before.income + t.amount, before.outcome, before.balance + t.amount))
            && (key == OutcomesKey ==> after == Totals(before.income, before.outcome + t.amount, before.balance - t.amount))
  {
    var r := OpsStep(st, "add", key, t, toEdit, accepted);
    AddExtendsView(st, key, t, toEdit, accepted);
    AddKeepsOtherLedger(st, key, t, toEdit, accepted);
    DashboardAppend(st.incomes, st.outcomes, t);
    var incomes, outcomes := r.incomes, r.outcomes;
    if key == IncomesKey {
      assert incomes == st.incomes + [t] && outcomes == st.outcomes;
    } else if key == OutcomesKey {
      assert outcomes == st.outcomes + [t] && incomes == st.incomes;
    }
  }

  // ---------------------------------------------------------------------------
  // Routes and navigation
  // ---------------------------------------------------------------------------

  /** The three subtrees registered with the Router. */
  datatype View = Dashboard | IncomeLedger | OutcomeLedger

  /** The Router's children; `homePath` is the pathname when the page loaded. */
  function AppRoutes(homePath: string): (r: seq<Route<View>>)
    ensures |r| == |NavLinks(homePath)|
    ensures forall i :: 0 <= i < |r| ==> r[i].path == NavLinks(homePath)[i]
  {
    [Route(homePath, Dashboard), Route("/incomes", IncomeLedger), Route("/outcomes", OutcomeLedger)]
  }

  /**
   * The dashboard renders at the startup path; a ledger renders at its own
   * path unless the startup path is that path, in which case the dashboard,
   * registered first, wins; any other path renders the 404 view.
   */
  lemma AppRoutesResolve(homePath: string, path: string)
    ensures Render(AppRoutes(homePath), homePath) == Active(Dashboard)
    ensures path != homePath && path == "/incomes" ==> Render(AppRoutes(homePath), path) == Active(IncomeLedger)
    ensures path != homePath && path == "/outcomes" ==> Render(AppRoutes(homePath), path) == Active(OutcomeLedger)
    ensures path != homePath && path != "/incomes" && path != "/outcomes" ==> Render(AppRoutes(homePath), path) == NotFound
  {
    RenderSpec(AppRoutes(homePath), homePath, 0);
    if path != homePath {
      RenderSpec(AppRoutes(homePath), path, 1);
      RenderSpec(AppRoutes(homePath), path, 2);
    }
  }

  /** Starting at the root and navigating to /incomes shows the income ledger. */
  lemma NavigateToIncomes(st: RouterState)
    requires Synced(st) && st.path == "/"
    ensures GoToStep(st, "/incomes").path == "/incomes"
    ensures Render(AppRoutes("/"), GoToStep(st, "/incomes").path) == Active(IncomeLedger)
  {
    AppRoutesResolve("/", "/incomes");
  }

  /** NavBar's links: the startup path, then the two ledgers. */
  function NavLinks(homePath: string): (r: seq<string>)
    ensures |r| == 3 && r[0] == homePath
  {
    [homePath, "/incomes", "/outcomes"]
  }

  /** The class of the link to `path`: "active" when it is NavBar's `activeRoute`. */
  function LinkClass(activeRoute: string, path: string): (c: string)
    ensures c == "active" <==> activeRoute == path
    ensures c != "active" ==> c == ""
  {
    if activeRoute == path then "active" else ""
  }

  /**
   * After NavBar's goTo to link `i` from another location, the clicked link
   * is highlighted, and it is the only one when the startup path is not one
   * of the ledger paths.
   */
  lemma NavGoToHighlightsClicked(sh: ShellState, homePath: string, i: int)
    requires ValidState(sh.router) && 0 <= i < 3
    requires NavLinks(homePath)[i] != LocationOf(sh.router.session)
    ensures LinkClass(NavGoToStep(sh, NavLinks(homePath)[i]).activeRoute, NavLinks(homePath)[i]) == "active"
    ensures homePath != "/incomes" && homePath != "/outcomes" ==>
            var after := NavGoToStep(sh, NavLinks(homePath)[i]);
            forall j :: 0 <= j < 3 ==> (LinkClass(after.activeRoute, NavLinks(homePath)[j]) == "active" <==> j == i)
  {
  }

  /** The Router's state together with NavBar's `activeRoute`. */
  datatype ShellState = ShellState(router: RouterState, activeRoute: string)

  /** NavBar's goTo(path): Link's transition, then setActiveRoute(path) when it ran. */
  function NavGoToStep(sh: ShellState, path: string): (r: ShellState)
    requires ValidState(sh.router)
    ensures ValidState(r.router)
  {
    if path == LocationOf(sh.router.session) then sh
    else ShellState(LinkClickStep(sh.router, path), path)
  }

  /**
   * NavBar does not listen to popstate, so after its own goTo the highlighted
   * link follows the location, but after the back button it still names the
   * path that was left.
   */
  lemma NavBarHighlight(sh: ShellState, path: string)
    requires Synced(sh.router) && path != sh.router.path
    ensures NavGoToStep(sh, path).activeRoute == LocationOf(NavGoToStep(sh, path).router.session)
    ensures NavGoToStep(sh, path).router == GoToStep(sh.router, path)
    ensures var back := BackStep(NavGoToStep(sh, path).router);
            back.path == sh.router.path && NavGoToStep(sh, path).activeRoute == path
            && back.path != NavGoToStep(sh, path).activeRoute
  {
    LinkClickIsGoTo(sh.router, path);
  }

  // ---------------------------------------------------------------------------
  // The components as mutable state
  // ---------------------------------------------------------------------------

  class App {
    const store: TransactionStore
    var incomes: seq<Transaction>
    var outcomes: seq<Transaction>

    function State(): AppState
      reads this, store
    {
      AppState(store.entries, incomes, outcomes)
    }

    /** First render: both ledger states are loaded from the store. */
    constructor (store: TransactionStore)
      ensures this.store == store
      ensures State() == Initial(store.entries)
    {
      this.store := store;
      var loadedIncomes := store.LoadTransactions(IncomesKey);
      var loadedOutcomes := store.LoadTransactions(OutcomesKey);
      incomes := loadedIncomes;
      outcomes := loadedOutcomes;
    }

    method HandleAddEditOperation(action: string, key: string, newT: Transaction, toEdit: Patch, accepted: bool)
      modifies this, store
      ensures State() == AddEditStep(old(State()), action, key, newT, toEdit, accepted)
    {
      if action == "add" {
        if key == IncomesKey {
          incomes := store.AddTransaction(key, newT, accepted);
        } else if key == OutcomesKey {
          outcomes := store.AddTransaction(key, newT, accepted);
        }
      } else if action == "edit" {
        if key == IncomesKey {
          incomes := store.EditTransaction(key, newT, toEdit, accepted);
        } else if key == OutcomesKey {
          outcomes := store.EditTransaction(key, newT, toEdit, accepted);
        }
      }
    }

    method HandleDeleteOperation(key: string, t: Transaction, accepted: bool)
      modifies this, store
      ensures State() == DeleteStep(old(State()), key, t, accepted)
    {
      if key == IncomesKey {
        incomes := store.DeleteTransaction(key, t, accepted);
      } else if key == OutcomesKey {
        outcomes := store.DeleteTransaction(key, t, accepted);
      }
    }

    method HandleTransactionOps(action: string, key: string, newT: Transaction, toEdit: Patch, accepted: bool)
      modifies this, store
      ensures State() == OpsStep(old(State()), action, key, newT, toEdit, accepted)
    {
      if action == "add" || action == "edit" {
        HandleAddEditOperation(action, key, newT, toEdit, accepted);
      } else if action == "delete" {
        HandleDeleteOperation(key, newT, accepted);
      }
    }
  }

  class NavBar {
    const router: Router<View>
    var activeRoute: string

    function State(): ShellState
      reads this, router, router.window
    {
      ShellState(router.State(), activeRoute)
    }

    constructor (router: Router<View>)
      requires router.Valid()
      ensures this.router == router
      ensures activeRoute == router.window.Location()
    {
      this.router := router;
      activeRoute := router.window.Location();
    }

    /** goTo(path) of a nav link click. */
    method GoTo(path: string)
      requires router.Valid()
      modifies this, router, router.window
      ensures router.Valid() && State() == NavGoToStep(old(State()), path)
    {
      if path == router.window.Location() {
        return;
      }
      router.window.PushState(path);
      router.OnPopState();
      activeRoute := path;
    }
  }
}
