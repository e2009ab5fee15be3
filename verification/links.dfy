/** The state a link derives from the router on each change: whether a `RouteLink`
    or `RouteName` target is the active route (src/index.ts). */
module Links {
  import opened Types
  import opened PathLibrary
  import opened RouteTable
  import opened Navigation

  /** The `route-link-active` flag of a `RouteLink` to `target`: the route the target
      resolves to is the current one by ordinal; no route means inactive. `None` is a
      link whose lookup throws. */
  function LinkActiveForPath(lib: PathLib, rt: Router, target: string): (r: Option<bool>)
    ensures r.None? <==> MatchPath(rt.routes, lib, target).Thrown?
    ensures Valid(rt) ==>
      (r == Some(true) <==> var m := MatchPath(rt.routes, lib, target); m.Found? && m.route == rt.state.current)
  {
    match MatchPath(rt.routes, lib, target)
    case Found(route, _) =>
      Some(IsActiveRoute(rt, route))
    case NotFound => Some(false)
    case Thrown => None
  }

  /** The `route-link-active` flag of a `RouteName` link to `name` with `params`. */
  function LinkActiveForName(lib: PathLib, rt: Router, name: string, params: Option<Params>): (b: bool)
    ensures Valid(rt) ==>
      (b <==> var m := MatchName(rt.routes, lib, name, OrEmpty(params)); m.Named? && m.route == rt.state.current)
  {
    match MatchName(rt.routes, lib, name, OrEmpty(params))
    case Named(route, _) =>
      IsActiveRoute(rt, route)
    case Unnamed => false
  }

  /** After navigating to `p`, the link to `p` is active, and so is exactly every
      link whose target resolves to the same route. */
  lemma PathLinkActiveAfterNavigation(lib: PathLib, rt: Router, history: seq<HistoryEntry>, p: string, push: bool, q: string)
    requires Valid(rt)
    requires SetPath(lib, rt, history, p, push).outcome.Navigated?
    ensures var s := SetPath(lib, rt, history, p, push);
      && LinkActiveForPath(lib, s.router, p) == Some(true)
      && (LinkActiveForPath(lib, s.router, q) == Some(true) <==>
            MatchPath(rt.routes, lib, q).Found? && MatchPath(rt.routes, lib, q).route == MatchPath(rt.routes, lib, p).route)
  {
  }

  /** After navigating by name, the `RouteName` link with that name and those params
      is active. */
  lemma NameLinkActiveAfterNavigation(lib: PathLib, rt: Router, history: seq<HistoryEntry>, n: string, ps: Params, push: bool)
    requires Valid(rt)
    requires SetName(lib, rt, history, n, ps, push).outcome.Navigated?
    ensures LinkActiveForName(lib, SetName(lib, rt, history, n, ps, push).router, n, Some(ps))
  {
  }
}
