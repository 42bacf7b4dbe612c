/** The header of the stack screen that hosts the bottom tabs: its title and
    its right-hand element follow the tab that is currently focused. */
module BottomTabNavigator {
  import opened Wrappers

  /** The tab shown when the navigator has no state yet. */
  const InitialRouteName := "Home"

  /** The three tabs the navigator registers. */
  const TabNames: set<string> := {"Home", "Links", "ExpenseTracker"}

  /** An opaque handle for a header-right render callback. */
  datatype Callback = Callback(key: nat)

  /** One entry of the tab navigator's `routes`; its name may be missing. */
  datatype TabRoute = TabRoute(name: Option<string>)

  /** The tab navigator's state: its routes and the focused index. */
  datatype NavigationState = NavigationState(routes: seq<TabRoute>, index: int)

  /** Route params; only `headerRight` is read here. */
  datatype Params = Params(headerRight: Option<Callback>)

  /** The navigator's own route: `state` and `params` may both be absent. */
  datatype Route = Route(state: Option<NavigationState>, params: Option<Params>)

  /** What `getHeaderRight` returns. */
  datatype HeaderRightValue = Undefined | Null | Render(callback: Callback)

  /** The focused tab's name, read as `state.routes[state.index].name`, and
      the initial route's name whenever the state, that entry or its name is
      missing. Both header functions resolve the tab through this. */
  function ActiveRouteName(route: Route): (name: string)
    ensures route.state.None? ==> name == InitialRouteName
    ensures route.state.Some? ==>
      var st := route.state.value;
      if 0 <= st.index < |st.routes| && st.routes[st.index].name.Some?
      then name == st.routes[st.index].name.value
      else name == InitialRouteName
    ensures name == InitialRouteName ||
      (route.state.Some? && exists i :: 0 <= i < |route.state.value.routes| && route.state.value.routes[i].name == Some(name))
  {
    match route.state
    case None => InitialRouteName
    case Some(st) =>
      if 0 <= st.index < |st.routes| && st.routes[st.index].name.Some?
      then st.routes[st.index].name.value
      else InitialRouteName
  }

  /** `getHeaderTitle`: one title per registered tab, `undefined` for any
      other name. */
  function HeaderTitle(route: Route): (title: Option<string>)
    ensures title.Some? <==> ActiveRouteName(route) in TabNames
    ensures ActiveRouteName(route) == "Home" ==> title == Some("How to get started")
    ensures ActiveRouteName(route) == "Links" ==> title == Some("Links to learn more")
    ensures ActiveRouteName(route) == "ExpenseTracker" ==> title == Some("Expense Tracker")
    ensures route.state.None? ==> title == Some("How to get started")
  {
    var name := ActiveRouteName(route);
    if name == "Home" then Some("How to get started")
    else if name == "Links" then Some("Links to learn more")
    else if name == "ExpenseTracker" then Some("Expense Tracker")
    else None
  }

  /** `getHeaderRight`: `null` on the Home and Links tabs, the params'
      `headerRight` on the ExpenseTracker tab (`undefined` when absent), and
      `undefined` for any other name. */
  function HeaderRight(route: Route): (r: HeaderRightValue)
    ensures r.Null? <==> ActiveRouteName(route) == "Home" || ActiveRouteName(route) == "Links"
    ensures r.Render? <==>
      ActiveRouteName(route) == "ExpenseTracker" && route.params.Some? && route.params.value.headerRight.Some?
    ensures r.Render? ==> r.callback == route.params.value.headerRight.value
    ensures r.Undefined? ==> ActiveRouteName(route) !in {"Home", "Links"}
    ensures route.state.None? ==> r == Null
  {
    var name := ActiveRouteName(route);
    if name == "Home" || name == "Links" then Null
    else if name == "ExpenseTracker" then
      match route.params
      case None => Undefined
      case Some(p) => if p.headerRight.Some? then Render(p.headerRight.value) else Undefined
    else Undefined
  }

  /** A name without a title also leaves the right-hand side undefined, and
      a null right-hand side always comes with a title. */
  lemma TitleAndRightAgree(route: Route)
    ensures HeaderTitle(route).None? ==> HeaderRight(route).Undefined?
    ensures HeaderRight(route).Null? ==> HeaderTitle(route).Some?
  {
  }
}
