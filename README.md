# trackit: a verified model of the transaction store and the router

trackit is a single-page personal finance tracker. Users record incomes and
outcomes, see totals on a dashboard, and move between three views. This
project models the two parts of it that carry real logic, and proves
properties of them in Dafny:

- **The transaction store** (`app.jsx`). Two ledgers, `incomes` and
  `outcomes`, are persisted in `localStorage` under those keys. There are
  add, edit and delete operations that find a record by its natural key
  `(time, amount)`, plus the derived views: the sorted ledgers, the combined
  sorted list and the dashboard totals. The `App` component routes each
  operation to the ledger it names.
- **The history-synchronised router** (`my-router.js`). The `Router` keeps
  its `path` state equal to `window.location.pathname`. It resolves the
  active route by exact path match. It also supplies `goTo`, the `popstate`
  listener, the `useRouter` guard and `Link`'s click handler. The NavBar of
  `app.jsx` has its own `goTo`.

Files and modules:

| file | module | contents |
|---|---|---|
| `wrappers.dfy` | `Wrappers` | `Option`, `Result` |
| `transactions.dfy` | `Transactions` | the record, `Object.assign`, the total, the stable sort, `findIndex`, the array updates of edit and delete |
| `storage.dfy` | `Storage` | the `localStorage` namespace as a map whose entries may be corrupt; the class `TransactionStore` with load/save/add/edit/delete |
| `history.dfy` | `History` | the session history of the HTML Living Standard (entries plus current index) and the class `Window` |
| `routing.dfy` | `Routing` | route resolution, `useRouter`, the navigation state machine on values, and the class `Router` with `LinkOnClick` |
| `app.dfy` | `App` | ledger dispatch, derived views, the route table, NavBar, and the classes `App` and `NavBar` |

Each part that changes state comes in two layers:

- A pure step function on a datatype (`OpsStep`, `GoToStep`, `BackStep`, …).
  The lemmas are stated and proved about these functions.
- A class whose fields the source updates in place (`TransactionStore`,
  `Window`, `Router`, `App`, `NavBar`). Each method ties its new state to
  the matching function of the old state. `TransactionStore` ensures
  `entries == Save(old(entries), …)`. `Window` ensures
  `Snapshot() == PushEntry(old(Snapshot()), …)` (or `StepBack`,
  `StepForward`). `Router`, `App` and `NavBar` ensure
  `State() == Step(old(State()), …)` for their step function.

## Edit and delete of an absent record

One would expect an edit or delete whose target is absent to do nothing:
the ledger and the store stay as they were. The code does not do that.
`findIndex` returns `-1` on a miss, and the guard `index !== null`
(app.jsx:52, 61) holds for any number. This model follows the code:

- An edit with no match assigns `saved[-1]`. That sets an ordinary property
  of the array, so the elements stay the same (`EditMiss`). The array is
  still saved, so an absent or corrupt key then holds an empty ledger.
- A delete with no match runs `saved.splice(-1, 1)`, which removes the
  **last** record (`DeleteMiss`, `DeleteMissExample`). An empty ledger stays
  empty.

Two further consequences of the code:

- NavBar highlights a link from its own `activeRoute` state, and it does not
  listen to `popstate`. After the browser's back button, the highlighted
  link still names the path that was left (`NavBarHighlight`).
- The dashboard route is registered first, under the startup pathname. If
  the page is first loaded at `/incomes`, the dashboard therefore wins at
  `/incomes` (`AppRoutesResolve`).

## Model

| member | source | states |
|---|---|---|
| `Transactions.Merge` | app.jsx:53 | `Object.assign(newTransaction, toEdit)`: each field present in the edit object wins, each absent one keeps the target's value |
| `Transactions.MergeFullPatch` | app.jsx:53 | an edit object carrying all four fields (what EditForm sends) determines the merged record whatever the target |
| `Transactions.Total` | app.jsx:23 | the total of a ledger whose amounts are all non-negative is non-negative |
| `Transactions.TotalAppend` | app.jsx:23 | the total of a concatenation is the sum of the totals |
| `Transactions.TotalSmall` | app.jsx:23 | the total of the empty ledger is 0; of one record, its amount |
| `Transactions.TotalSnoc` | app.jsx:23 | appending a record adds its amount to the total |
| `Transactions.Insert` | app.jsx:24-26 | one step of the stable sort: the result holds `x` and the records of `s` (same multiset) and is one longer; where `x` lands is stated by the lemmas `InsertSorted` and `InsertAtTime` |
| `Transactions.SortByTimeDesc` | app.jsx:24-26 | `[...array].sort(...)` returns a copy with the same records (multiset) and the same length; its order is proved in `SortSorted`, `SortStable` and `SortSpec` |
| `Transactions.SortSorted` | app.jsx:25 | the sorted ledger is ordered by time, latest first |
| `Transactions.SortStable` | app.jsx:25 | for every instant, the records at that instant keep their input order (a stable sort) |
| `Transactions.TotalCons` | app.jsx:23 | prepending a record adds its amount: the left fold order does not affect the integer sum |
| `Transactions.SortSpec` | app.jsx:24-26 | the sorted ledger is a permutation of the input (same multiset and length), time descending, and for every instant the records at that instant keep their input order (stability) |
| `Transactions.SortFixesSorted` | app.jsx:24-26 | a ledger already ordered time descending is returned unchanged |
| `Transactions.SortIdempotent` | app.jsx:24-26 | sorting twice equals sorting once |
| `Transactions.SortTotal` | app.jsx:23-26 | sorting does not change the total |
| `Transactions.SortTwoExample` | app.jsx:24-26 | of records at times 1000 and 2000, the record at 2000 comes first |
| `Transactions.FindIndex` | app.jsx:51 | `findIndex` on `(time, amount)`: -1 exactly when no record matches; otherwise a matching position with no match before it |
| `Transactions.AssignAt` | app.jsx:53 | `saved[i] = v`: the length is unchanged; a negative index leaves the elements unchanged; otherwise element `i` becomes `v` and every other element stays |
| `Transactions.SpliceOne` | app.jsx:62 | `splice(start, 1)`: one element fewer when the array is non-empty and `start` is below its length, the array unchanged when `start` is at or past the end; the survivors keep their order (both for a start inside the array and for a negative start counted from the end) and no record is added |
| `Transactions.EditLedger` | app.jsx:50-56 | the length is unchanged and each element either stays or becomes the merged record; `EditFirstMatch` and `EditMiss` say which |
| `Transactions.DeleteLedger` | app.jsx:59-65 | one element fewer unless the ledger is empty, and no record is added (sub-multiset); `DeleteFirstMatch` and `DeleteMiss` say which one goes |
| `Transactions.SpliceStart` | app.jsx:62 | where `splice(start, 1)` begins: a start within the array is kept, and a negative start counts back from the end |
| `Transactions.EditFirstMatch` | app.jsx:49-56 | with a match, the array becomes the loaded array with only its first matching element replaced by the merged record; length and all other elements are unchanged |
| `Transactions.EditMiss` | app.jsx:51-56 | with no match, the `-1` index passes the guard, and the assignment to `saved[-1]` leaves the element sequence unchanged |
| `Transactions.DeleteFirstMatch` | app.jsx:58-65 | with a match, exactly the first matching element is removed, the others keep their order, and the length drops by 1 |
| `Transactions.DeleteMiss` | app.jsx:60-63 | with no match, `splice(-1, 1)` removes the last element of a non-empty ledger; an empty ledger stays empty |
| `Transactions.DeleteMissExample` | app.jsx:60-63 | deleting an absent record from `[a, b]` leaves `[a]` |
| `Storage.Load` | app.jsx:27-35 | the loaded ledger is `[]` or exactly the ledger stored under the key, and a stored ledger is always returned |
| `Storage.Save` | app.jsx:37-43 | an accepted write leaves the key holding the ledger; every other key keeps its presence and its value; a refused write changes nothing |
| `Storage.LoadAbsentOrCorrupt` | app.jsx:27-35 | an absent or unparsable key loads as the empty ledger |
| `Storage.LoadSaveRoundTrip` | app.jsx:27-43 | loading after an accepted save returns exactly the saved ledger |
| `Storage.SaveFrame` | app.jsx:37-43 | a save leaves every other key as it was, and a refused save (quota) leaves the whole namespace unchanged |
| `Storage.AddResult` | app.jsx:44-48 | the loaded ledger followed by the new record: one longer, prior records as a prefix, the new one last |
| `Storage.EditResult` | app.jsx:49-57 | the same length as the loaded ledger; each element unchanged or the merged record |
| `Storage.DeleteResult` | app.jsx:58-66 | one element fewer than the loaded ledger unless it is empty, and no record is added |
| `Storage.AddAppends` | app.jsx:44-48 | the added ledger is the loaded one plus one element: the prior records in order, then the new one, and it loads back after saving |
| `Storage.AddSalaryExample` | app.jsx:44-48 | adding `{Salary, 1000, time 1000}` to an empty incomes key gives exactly that one record, with total 1000 |
| `Storage.TransactionStore.LoadTransactions` | app.jsx:27-35 | returns the stored ledger, or `[]` for an absent or corrupt key, and changes nothing |
| `Storage.TransactionStore.SaveTransactions` | app.jsx:37-43 | the key now holds the ledger, or the store is unchanged if the write is refused |
| `Storage.TransactionStore.AddTransaction` | app.jsx:44-48 | returns the loaded ledger followed by the new record, and stores exactly that under the key |
| `Storage.TransactionStore.EditTransaction` | app.jsx:49-57 | returns and stores `EditLedger` of the loaded ledger; the length is unchanged |
| `Storage.TransactionStore.DeleteTransaction` | app.jsx:58-66 | returns and stores `DeleteLedger` of the loaded ledger; one element fewer unless the ledger was empty |
| `History.PushEntry` | my-router.js:30 | `pushState`: the new URL is current, at index `i + 1` of `i + 2` entries, and the entries up to the old current index `i` are kept |
| `History.StepBack` | my-router.js:17-21 | a back traversal: the entries are kept; the previous entry becomes current when there is one, otherwise nothing changes |
| `History.StepForward` | my-router.js:17-21 | a forward traversal: the entries are kept; the next entry becomes current when there is one, otherwise nothing changes |
| `History.PushSpec` | my-router.js:30 | `pushState` makes the new URL current and keeps the entries up to the old current one; the entries that were ahead are dropped |
| `History.BackAfterPush` | my-router.js:18-20 | going back after a push restores the prior location and keeps the entries |
| `History.BackForwardInverse` | my-router.js:18-20 | a back that moved is undone by forward, and a forward that moved is undone by back |
| `History.Window.PushState` | my-router.js:30 | the window's session history becomes `PushEntry` of the old one |
| `History.Window.Back` | my-router.js:17-21 | the index moves back by one if it can; `moved` tells whether a traversal (and so a popstate) happened |
| `History.Window.Forward` | my-router.js:17-21 | the index moves forward by one if it can; `moved` tells whether a traversal happened |
| `Routing.FindRoute` | my-router.js:34-35 | `routes.find`: none exactly when no route has the path; otherwise the first registered route with that path wins |
| `Routing.Render` | my-router.js:35-40 | the 404 view renders exactly when no route has the path; which route renders otherwise is `RenderSpec` |
| `Routing.RenderSpec` | my-router.js:34-40 | the first route with the current path renders its children; with no such route, the 404 view renders |
| `Routing.UseRouter` | my-router.js:6-12 | fails with the usage error exactly when there is no Router context; otherwise returns that context |
| `Routing.Start` | my-router.js:16 | the initial `path` is the location |
| `Routing.PopStateStep` | my-router.js:18-20 | the listener keeps a well-formed session; `PopStateCopiesLocation` states what it sets |
| `Routing.PushAndDispatch` | my-router.js:30-32 | push then a synchronous popstate keeps a well-formed session; `GoToNewPath` states the result |
| `Routing.GoToStep` | my-router.js:26-33 | keeps a well-formed session; `GoToSamePath`, `GoToNewPath` and `SyncedInvariant` state its effect |
| `Routing.LinkClickStep` | my-router.js:47-54 | keeps a well-formed session; `LinkClickIsGoTo` and `SyncedInvariant` state its effect |
| `Routing.BackStep` | my-router.js:17-21 | keeps a well-formed session; `SyncedInvariant` and `BackAfterTwoNavigations` state its effect |
| `Routing.ForwardStep` | my-router.js:17-21 | keeps a well-formed session; `SyncedInvariant` states its effect |
| `Routing.GoToSamePath` | my-router.js:26-29 | `goTo(path)` to the current path changes nothing and pushes no entry |
| `Routing.GoToNewPath` | my-router.js:26-33 | `goTo(to)` to another path pushes exactly one entry, and afterwards `path == to == location` |
| `Routing.PopStateCopiesLocation` | my-router.js:18-20 | the popstate listener sets `path` to the location and pushes nothing |
| `Routing.SyncedInvariant` | my-router.js:16-32 | from a synced state, `goTo`, a Link click, popstate, back and forward all keep `path` equal to the location |
| `Routing.LinkClickIsGoTo` | my-router.js:47-54 | while synced, the Link click handler is the same transition as `goTo` |
| `Routing.BackAfterTwoNavigations` | my-router.js:18-33 | after two navigations, back restores the first path and its view, and the history is not extended |
| `Routing.Router.constructor` | my-router.js:16 | a mounted Router starts synced with the window |
| `Routing.Router.OnPopState` | my-router.js:18-20 | the Router's state becomes `PopStateStep` of the old state; afterwards it is synced and renders the page for the location |
| `Routing.Router.GoTo` | my-router.js:26-33 | the Router's and window's state become `GoToStep` of the old state (a synchronous popstate); the Router stays synced, its `path` is `to`, and it renders the page for `to` |
| `Routing.Router.Back` | my-router.js:17-21 | the browser back action followed by the listener: `BackStep`; the Router stays synced and renders the page for the location |
| `Routing.Router.Forward` | my-router.js:17-21 | the browser forward action followed by the listener: `ForwardStep`; the Router stays synced and renders the page for the location |
| `Routing.Router.ActivePage` | my-router.js:35-40 | what the Router renders: the 404 view exactly when no route has its `path`, otherwise the first route with that path |
| `Routing.Router.Context` | my-router.js:36 | the context value carries the Router's current `path`, and `useRouter` inside the Router returns it |
| `Routing.LinkOnClick` | my-router.js:47-54 | the state becomes `LinkClickStep`: nothing when `to` is the location, otherwise push and popstate; afterwards the Router's `path` is `to` and it renders the page for `to` |
| `App.Initial` | app.jsx:313-314 | both ledger states start as what their keys load |
| `App.SetLedger` | app.jsx:345-377 | the named ledger's state becomes the new ledger and the other ledger's state is kept; the store is the save of that key; a type that is neither ledger changes nothing |
| `App.AddEditStep` | app.jsx:342-371 | an action other than add or edit, or a type other than the two ledgers, changes nothing; `OpsStepTargetsOneLedger` states the rest |
| `App.DeleteStep` | app.jsx:372-386 | the other ledger's state is kept and the named one is no longer than what its key loaded; another type changes nothing |
| `App.OpsStep` | app.jsx:387-393 | an action or type that is not dispatched changes nothing; `OpsStepTargetsOneLedger` states the rest |
| `App.OpsStepTargetsOneLedger` | app.jsx:342-393 | add/edit/delete on `incomes` or `outcomes` stores and sets that ledger only, and leaves the other ledger unchanged; any other action or type changes nothing |
| `App.OpsStepKeepsMirror` | app.jsx:342-386 | when writes are accepted, each ledger state keeps equal to what its key loads |
| `App.AddExtendsView` | app.jsx:343-349 | while mirrored, an add appends the record to the ledger state it names |
| `App.AddKeepsOtherLedger` | app.jsx:343-349 | an add leaves the other ledger's state unchanged |
| `App.RefusedWriteDiverges` | app.jsx:37-48 | a refused write leaves the store unchanged while the ledger state grows, so state and store no longer agree |
| `App.SortedIncomes` | app.jsx:315-317 | the income page's list holds exactly the incomes, latest first, and its total is the dashboard's income total |
| `App.SortedOutcomes` | app.jsx:318-320 | the outcome page's list holds exactly the outcomes, latest first, and its total is the dashboard's outcome total |
| `App.AllTransactions` | app.jsx:321-323 | the combined list has as many records as both ledgers together; `AllTransactionsSpec` states the rest |
| `App.DashboardTotals` | app.jsx:176-185 | the balance is the income total minus the outcome total; `DashboardAppend` and `AllTransactionsSpec` relate it to the ledgers |
| `App.AllTransactionsSpec` | app.jsx:321-323 | the combined view holds the records of both ledgers (multiset union), sorted time descending; at every instant its records are the incomes then the outcomes at that instant, in their ledger order (the order of `[...incomes, ...outcomes]`); its total is income plus outcome |
| `App.DashboardAppend` | app.jsx:177-179 | one more income raises the income total and the balance by its amount; one more outcome raises the outcome total and lowers the balance |
| `App.DashboardAfterAdd` | app.jsx:177-179 | after an add through the dispatcher, the dashboard totals move by the new record's amount on the ledger it names |
| `App.AppRoutes` | app.jsx:402-418 | the three routes are registered at the paths of NavBar's three links, in the same order |
| `App.AppRoutesResolve` | app.jsx:402-418 | the startup path shows the dashboard; `/incomes` and `/outcomes` show their ledgers unless one of them is the startup path; any other path shows 404 |
| `App.NavigateToIncomes` | app.jsx:403-411 | from `/`, navigating to `/incomes` makes the income ledger view active |
| `App.NavLinks` | app.jsx:279-283 | three links, the first at the startup path |
| `App.LinkClass` | app.jsx:296 | a link's class is `"active"` exactly when its path is `activeRoute`, and empty otherwise |
| `App.NavGoToStep` | app.jsx:285-290 | keeps a well-formed session; `NavBarHighlight` and `NavGoToHighlightsClicked` state its effect |
| `App.NavGoToHighlightsClicked` | app.jsx:285-296 | after NavBar's `goTo` to a link from another location, that link is marked active, whatever the startup path; when the startup path is not a ledger path, it is the only link marked active |
| `App.NavBarHighlight` | app.jsx:277-290 | NavBar's `goTo` is the router's `goTo` and highlights the new location; after back, the highlight still names the path that was left |
| `App.App.constructor` | app.jsx:313-314 | the component's state is `Initial` of the store |
| `App.App.HandleAddEditOperation` | app.jsx:342-371 | state and store become `AddEditStep` of the old ones |
| `App.App.HandleDeleteOperation` | app.jsx:372-386 | state and store become `DeleteStep` of the old ones |
| `App.App.HandleTransactionOps` | app.jsx:387-393 | state and store become `OpsStep` of the old ones |
| `App.NavBar.constructor` | app.jsx:278 | `activeRoute` starts as the location |
| `App.NavBar.GoTo` | app.jsx:285-290 | router, window and highlight become `NavGoToStep` of the old ones |

## Left out

- Rendering: JSX, React hooks and memoisation (`useMemo`, `useCallback`, dependency arrays), and the placeholder `Route` component. The derived views are functions of the state.
- React's scheduling of `setPath`. It is treated as taking effect at once. `dispatchEvent(popstate)` is treated as a synchronous call of the Router's listener, and the listener's removal on unmount is not modelled.
- URL handling in `pushState`: relative URLs, query strings and fragments. Each history entry is a pathname.
- JSON encoding and decoding. A key holds either a ledger or unparsable text (`Corrupt`). Stored text that parses to something other than an array of records is not modelled, and neither are its effects. A JSON string such as `"abc"` is spread into its characters by `[...loadTransactions(type)]` (app.jsx:45) without any error. A stored `null` becomes the initial ledger state (app.jsx:313-314), and the first render then throws at the first `getSortedArray` call (app.jsx:316 for `incomes`, 319 for `outcomes`), outside any `try`/`catch`, so no alert is shown.
- Alerts (`showAlert`, the 3-second timer), the edit-form flags (`setLiClick`, `setTransToEdit`), theme persistence and DOM meta updates. These are view state with no bearing on the ledgers.
- The DashBoard count-up animation: float progress, `Math.floor`, `performance.now` and `requestAnimationFrame`. Only the target totals are modelled.
- `formatNumber` and `formatDate` (locale and `Date` library calls), form parsing and validation (`Number`, `isNaN`, `trim`), `Date.now()` (the `time` is an input) and the long-press timers.
- JavaScript numbers. Amounts and times are unbounded integers, so float rounding in the total is not modelled. The loose `==` in the `findIndex` callbacks then means the same as `===`.
- The mutation of the caller's `newTransaction` object by `Object.assign`. The caller drops that object right after the edit, so only the merged record stored in the ledger is modelled.
- `setItem` failures. These are an input `accepted` to each write, and a refused write leaves the namespace unchanged. The `user-theme` key is not modelled.
- Concurrent writers: other tabs and the lost-update race. Execution is single-threaded.
- `Routing.RouterContext`: carries only `path`. The context value of my-router.js:36 is `{path, goTo}`; here `goTo` is the method `Router.GoTo`, not a function value inside the context.
- `History.Window`: every session entry is treated as an entry of this document. In a browser, going back from the first entry of the page to an entry of an earlier document leaves the page, and the Router sees no popstate. Here that traversal fires popstate, and the Router renders that entry's path.
