/** What a `RouteView` derives from the router when it renders: the route
    descriptor it injects as the `route` prop (src/index.ts). */
module Views {
  import opened Types
  import opened PathLibrary
  import opened RouteTable
  import opened Navigation

  /** The `route` prop a `RouteView` adds for the current route: only when the route
      sets `routeProp`; an absent or false `routeProp` injects nothing. */
  function ViewRouteProp(rt: Router): (r: Option<RouteProp>)
    ensures r.Some? <==> rt.state.current.def.ComponentRoute? && rt.state.current.def.routeProp == Some(true)
    ensures r.Some? ==> r.value.params == rt.state.params && r.value.path == rt.state.current.def.path
  {
    var d := rt.state.current.def;
    if d.ComponentRoute? && d.routeProp == Some(true) then Some(CurrentRouteProp(rt)) else None
  }

  /** The descriptor after a path navigation names the matched route's pattern (not
      the visited path) with the matcher's params; before any navigation it describes
      the sentinel. */
  lemma RoutePropAfterNavigation(lib: PathLib, rt: Router, history: seq<HistoryEntry>, p: string, push: bool)
    requires SetPath(lib, rt, history, p, push).outcome.Navigated?
    ensures var m := MatchPath(rt.routes, lib, p);
      CurrentRouteProp(SetPath(lib, rt, history, p, push).router)
        == RouteProp(m.route.def.name, m.route.def.path, m.route.def.meta, m.params)
    ensures CurrentRouteProp(Router(rt.routes, InitialState)) == RouteProp(Some("null"), "*", None, map[])
  {
  }
}
