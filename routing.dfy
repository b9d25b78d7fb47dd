/**
 * my-router.js: the Router component's navigation state kept in step with
 * the session history, its route resolution, goTo, the popstate listener,
 * the useRouter guard and Link's click handler.
 */
module Routing {
  import opened Wrappers
  import opened History

  /** A registered <Route path=...>: its path and the subtree it renders. */
  datatype Route<V> = Route(path: string, view: V)

  /** What the Router renders: the active route's children, or the 404 view. */
  datatype Page<V> = Active(view: V) | NotFound

  /** Route `i` is the first registered route whose path equals `path`. */
  ghost predicate IsFirstRoute<V>(routes: seq<Route<V>>, path: string, i: int) {
    0 <= i < |routes| && routes[i].path == path
    && forall j :: 0 <= j < i ==> routes[j].path != path
  }

  /** routes.find(route => route.props.path === path). */
  function FindRoute<V>(routes: seq<Route<V>>, path: string): (r: Option<V>)
    ensures r.None? <==> forall i :: 0 <= i < |routes| ==> routes[i].path != path
    ensures forall i :: IsFirstRoute(routes, path, i) ==> r == Some(routes[i].view)
  {
    if routes == [] then None
    else if routes[0].path == path then Some(routes[0].view)
    else
      var r := FindRoute(routes[1..], path);
      assert forall i :: IsFirstRoute(routes, path, i) ==> i > 0 && IsFirstRoute(routes[1..], path, i - 1);
      r
  }

  /** The Router's output for the current path. */
  function Render<V>(routes: seq<Route<V>>, path: string): (r: Page<V>)
    ensures r == NotFound <==> forall j :: 0 <= j < |routes| ==> routes[j].path != path
  {
    match FindRoute(routes, path)
    case Some(v) => Active(v)
    case None => NotFound
  }

  /** Exactly one route renders when some route has the path: the first registered one; otherwise 404. */
  lemma RenderSpec<V>(routes: seq<Route<V>>, path: string, i: int)
    ensures IsFirstRoute(routes, path, i) ==> Render(routes, path) == Active(routes[i].view)
    ensures (forall j :: 0 <= j < |routes| ==> routes[j].path != path) <==> Render(routes, path) == NotFound
  {
  }

  /** The value the Router provides to its descendants. */
  datatype RouterContext = RouterContext(path: string)

  const OutsideRouter := "RouterContext can't be used outside <Router></Router>"

  /** useRouter(): the enclosing Router's context, or the usage error when there is none. */
  function UseRouter(ctx: Option<RouterContext>): (r: Result<RouterContext, string>)
    ensures r.Failure? <==> ctx.None?
    ensures ctx.Some? ==> r == Success(ctx.value)
    ensures r.Failure? ==> r.error == OutsideRouter
  {
    match ctx
    case None => Failure(OutsideRouter)
    case Some(c) => Success(c)
  }

  // ---------------------------------------------------------------------------
  // The navigation state machine on values
  // ---------------------------------------------------------------------------

  /** The Router's `path` state together with the session history it mirrors. */
  datatype RouterState = RouterState(path: string, session: Session)

  predicate ValidState(st: RouterState) {
    ValidSession(st.session)
  }

  /** The invariant: `path` equals window.location.pathname. */
  ghost predicate Synced(st: RouterState) {
    ValidState(st) && st.path == LocationOf(st.session)
  }

  /** useState(window.location.pathname). */
  function Start(session: Session): (r: RouterState)
    requires ValidSession(session)
    ensures Synced(r)
  {
    RouterState(LocationOf(session), session)
  }

  /** The popstate listener: setPath(window.location.pathname). */
  function PopStateStep(st: RouterState): (r: RouterState)
    requires ValidState(st)
    ensures ValidState(r)
  {
    st.(path := LocationOf(st.session))
  }

  /** pushState(to) followed by the synchronous dispatch of popstate. */
  function PushAndDispatch(st: RouterState, to: string): (r: RouterState)
    requires ValidState(st)
    ensures ValidState(r)
  {
    PopStateStep(st.(session := PushEntry(st.session, to)))
  }

  /** goTo(to): nothing when `to` is the current path, else push and dispatch. */
  function GoToStep(st: RouterState, to: string): (r: RouterState)
    requires ValidState(st)
    ensures ValidState(r)
  {
    if to == st.path then st else PushAndDispatch(st, to)
  }

  /** Link's onClick: the same, but guarded by the location rather than the Router's `path`. */
  function LinkClickStep(st: RouterState, to: string): (r: RouterState)
    requires ValidState(st)
    ensures ValidState(r)
  {
    if to == LocationOf(st.session) then st else PushAndDispatch(st, to)
  }

  /** The browser's back button: a traversal, which fires popstate, when there is an earlier entry. */
  function BackStep(st: RouterState): (r: RouterState)
    requires ValidState(st)
    ensures ValidState(r)
  {
    if st.session.index == 0 then st else PopStateStep(st.(session := StepBack(st.session)))
  }

  /** The browser's forward button. */
  function ForwardStep(st: RouterState): (r: RouterState)
    requires ValidState(st)
    ensures ValidState(r)
  {
    if st.session.index + 1 == |st.session.entries| then st
    else PopStateStep(st.(session := StepForward(st.session)))
  }

  /** goTo to the current path pushes nothing and changes nothing. */
  lemma GoToSamePath(st: RouterState, to: string)
    requires ValidState(st) && to == st.path
    ensures GoToStep(st, to) == st
  {
  }

  /** goTo to another path pushes exactly one entry and leaves path == to == location. */
  lemma GoToNewPath(st: RouterState, to: string)
    requires ValidState(st) && to != st.path
    ensures GoToStep(st, to).session == PushEntry(st.session, to)
    ensures |GoToStep(st, to).session.entries| == st.session.index + 2
    ensures GoToStep(st, to).path == to
    ensures LocationOf(GoToStep(st, to).session) == to
  {
  }

  /** The popstate listener copies the location into `path` and pushes nothing. */
  lemma PopStateCopiesLocation(st: RouterState)
    requires ValidState(st)
    ensures PopStateStep(st).session == st.session
    ensures Synced(PopStateStep(st))
  {
  }

  /** Every transition keeps `path` equal to the location. */
  lemma SyncedInvariant(st: RouterState, to: string)
    requires Synced(st)
    ensures Synced(GoToStep(st, to))
    ensures Synced(LinkClickStep(st, to))
    ensures Synced(PopStateStep(st))
    ensures Synced(BackStep(st))
    ensures Synced(ForwardStep(st))
  {
  }

  /** While synced, a Link click and goTo are the same transition. */
  lemma LinkClickIsGoTo(st: RouterState, to: string)
    requires Synced(st)
    ensures LinkClickStep(st, to) == GoToStep(st, to)
  {
  }

  /**
   * Two navigations and then the back button: the path visited first is
   * restored, its view renders again, and the history is not extended.
   */
  lemma BackAfterTwoNavigations<V>(routes: seq<Route<V>>, st: RouterState, a: string, b: string)
    requires Synced(st) && a != st.path && b != a
    ensures var s2 := GoToStep(GoToStep(st, a), b);
            && BackStep(s2).path == a
            && BackStep(s2).session.entries == s2.session.entries
            && Render(routes, BackStep(s2).path) == Render(routes, a)
  {
    var s1 := GoToStep(st, a);
    GoToNewPath(st, a);
    GoToNewPath(s1, b);
    var s2 := GoToStep(s1, b);
    assert s2.session.entries[s1.session.index] == a;
  }

  // ---------------------------------------------------------------------------
  // The Router component as mutable state
  // ---------------------------------------------------------------------------

  class Router<V> {
    const window: Window
    const routes: seq<Route<V>>
    var path: string

    /** The session is well formed and `path` is the location: the Router is synced. */
    predicate Valid()
      reads this, window
    {
      window.Valid() && path == window.Location()
    }

    function State(): RouterState
      reads this, window
    {
      RouterState(path, window.Snapshot())
    }

    /** Mounting the Router: `path` starts as the location. */
    constructor (window: Window, routes: seq<Route<V>>)
      requires window.Valid()
      ensures this.window == window && this.routes == routes
      ensures Valid() && State() == Start(window.Snapshot())
    {
      this.window := window;
      this.routes := routes;
      path := window.Location();
    }

    /** The popstate listener; it runs whenever the location may have moved away from `path`. */
    method OnPopState()
      requires window.Valid()
      modifies this
      ensures Valid() && State() == PopStateStep(old(State()))
      ensures ActivePage() == Render(routes, window.Location())
    {
      path := window.Location();
    }

    /** goTo(to); dispatchEvent(popstate) runs the listener before it returns. */
    method GoTo(to: string)
      requires Valid()
      modifies this, window
      ensures Valid() && State() == GoToStep(old(State()), to)
      ensures path == to && ActivePage() == Render(routes, to)
    {
      if to == path {
        return;
      }
      window.PushState(to);
      OnPopState();
    }

    /** The user presses the browser's back button. */
    method Back()
      requires Valid()
      modifies this, window
      ensures Valid() && State() == BackStep(old(State()))
      ensures ActivePage() == Render(routes, window.Location())
    {
      var moved := window.Back();
      if moved {
        OnPopState();
      }
    }

    /** The user presses the browser's forward button. */
    method Forward()
      requires Valid()
      modifies this, window
      ensures Valid() && State() == ForwardStep(old(State()))
      ensures ActivePage() == Render(routes, window.Location())
    {
      var moved := window.Forward();
      if moved {
        OnPopState();
      }
    }

    /** What the Router renders now: the first route at `path`, or 404 when none is at it. */
    function ActivePage(): (p: Page<V>)
      reads this
      ensures p.NotFound? <==> forall j :: 0 <= j < |routes| ==> routes[j].path != path
      ensures forall i :: IsFirstRoute(routes, path, i) ==> p == Active(routes[i].view)
    {
      Render(routes, path)
    }

    /**
     * The context value {path, goTo} (goTo is the method above): useRouter
     * inside this Router yields it, carrying the current path.
     */
    function Context(): (c: RouterContext)
      reads this
      ensures c.path == path
      ensures UseRouter(Some(c)) == Success(c)
    {
      RouterContext(path)
    }
  }

  /** Link's onClick handler (preventDefault aside). */
  method LinkOnClick<V>(router: Router<V>, to: string)
    requires router.Valid()
    modifies router, router.window
    ensures router.Valid() && router.State() == LinkClickStep(old(router.State()), to)
    ensures router.path == to && router.ActivePage() == Render(router.routes, to)
  {
    if to == router.window.Location() {
      return;
    }
    router.window.PushState(to);
    router.OnPopState();
  }
}
