/** The navigation state machine of the `Router` class (src/index.ts): the current
    route, path and params, and the browser history stack they are kept in step with. */
module Navigation {
  import opened Types
  import opened PathLibrary
  import opened RouteTable
  import opened Records

  /** A history payload the router pushes: `{path}` or `{name, params}`. */
  datatype HistoryEntry = PathEntry(path: string) | NameEntry(name: string, params: Params)

  /** The observed state: `currentRoute`, `currentPath` and `currentRouteParams`. */
  datatype EngineState = EngineState(current: CompiledRoute, path: string, params: Params)

  /** The state before anything was resolved: the sentinel route, `''` and `{}`. */
  const InitialState: EngineState := EngineState(NullRoute, "", map[])

  /** A router: its table, fixed at construction, and its state. */
  datatype Router = Router(routes: seq<CompiledRoute>, state: EngineState)

  /** What a transition did: nothing, a new state, a full-page redirect to `url`, or
      an exception out of the URL parser or a path matcher. */
  datatype Outcome = Unchanged | Navigated | Redirected(url: string) | Raised

  /** The router and browser history after a transition; the last history element is
      `history.state`, and an empty history has no state. */
  datatype Step = Step(router: Router, history: seq<HistoryEntry>, outcome: Outcome)

  /** The current route is the sentinel or the table's own entry at its ordinal, and
      is always a component route. */
  ghost predicate Valid(rt: Router)
  {
    && IsCompiled(rt.routes)
    && rt.state.current.def.ComponentRoute?
    && (rt.state.current == NullRoute
        || (0 <= rt.state.current.id < |rt.routes| && rt.routes[rt.state.current.id] == rt.state.current))
  }

  /** `setPath(path, push)`: resolves `path` by its pathname. A component route becomes
      current with `path` itself (query and fragment included) and the matcher's
      params, and `{path}` is pushed exactly when `push` is set; a redirect route
      leaves state and history alone and redirects; no match changes nothing. */
  function SetPath(lib: PathLib, rt: Router, history: seq<HistoryEntry>, path: string, push: bool): (s: Step)
    ensures s.router.routes == rt.routes
    ensures !s.outcome.Navigated? ==> s.router == rt && s.history == history
    ensures var m := MatchPath(rt.routes, lib, path);
      && (s.outcome.Navigated? <==> m.Found? && m.route.def.ComponentRoute?)
      && (s.outcome.Navigated? ==>
            && s.router.state == EngineState(m.route, path, m.params)
            && s.history == if push then history + [PathEntry(path)] else history)
      && (s.outcome.Redirected? <==> m.Found? && m.route.def.RedirectRoute?)
      && (s.outcome.Redirected? ==> s.outcome.url == m.route.def.redirect)
      && (s.outcome.Raised? <==> m.Thrown?)
    ensures Valid(rt) ==> Valid(s.router)
  {
    match MatchPath(rt.routes, lib, path)
    case NotFound => Step(rt, history, Unchanged)
    case Thrown => Step(rt, history, Raised)
    case Found(route, params) =>
      if route.def.ComponentRoute? then
        var pushed := if push then [PathEntry(path)] else [];
        Step(Router(rt.routes, EngineState(route, path, params)), history + pushed, Navigated)
      else
        Step(rt, history, Redirected(route.def.redirect))
  }

  /** `setName(name, params, push)`: as `SetPath`, but resolved by name; the stored
      path is the one built for the route, the stored params are the ones supplied,
      and the pushed entry is `{name, params}`. It never raises. */
  function SetName(lib: PathLib, rt: Router, history: seq<HistoryEntry>, name: string, params: Params, push: bool): (s: Step)
    ensures s.router.routes == rt.routes
    ensures !s.outcome.Raised?
    ensures !s.outcome.Navigated? ==> s.router == rt && s.history == history
    ensures var m := MatchName(rt.routes, lib, name, params);
      && (s.outcome.Navigated? <==> m.Named? && m.route.def.ComponentRoute?)
      && (s.outcome.Navigated? ==>
            && s.router.state == EngineState(m.route, m.path, params)
            && s.history == if push then history + [NameEntry(name, params)] else history)
      && (s.outcome.Redirected? <==> m.Named? && m.route.def.RedirectRoute?)
      && (s.outcome.Redirected? ==> s.outcome.url == m.route.def.redirect)
    ensures Valid(rt) ==> Valid(s.router)
  {
    match MatchName(rt.routes, lib, name, params)
    case Unnamed => Step(rt, history, Unchanged)
    case Named(route, path) =>
      if route.def.ComponentRoute? then
        var pushed := if push then [NameEntry(name, params)] else [];
        Step(Router(rt.routes, EngineState(route, path, params)), history + pushed, Navigated)
      else
        Step(rt, history, Redirected(route.def.redirect))
  }

  /** The state object of a `popstate` event, reduced to the keys the router reads;
      `None` is a key that is not there. */
  datatype PopState = PopState(name: Option<string>, params: Option<Params>, path: Option<string>)

  /** The state object the browser hands back for an entry the router pushed. */
  function AsPopState(e: HistoryEntry): PopState
  {
    match e
    case PathEntry(p) => PopState(None, None, Some(p))
    case NameEntry(n, ps) => PopState(Some(n), Some(ps), None)
  }

  /** `historyPopState(event)`: replays the restored state without pushing. A `name`
      wins over a `path`; a missing event or state, or one with neither key, does
      nothing. The history is never extended. */
  function HistoryPopState(lib: PathLib, rt: Router, history: seq<HistoryEntry>, event: Option<PopState>): (s: Step)
    ensures s.history == history
    ensures s.router.routes == rt.routes
    ensures event.None? || (event.value.name.None? && event.value.path.None?) ==> s == Step(rt, history, Unchanged)
    ensures event.Some? && event.value.name.Some? ==>
      s == SetName(lib, rt, history, event.value.name.value, OrEmpty(event.value.params), false)
    ensures event.Some? && event.value.name.None? && event.value.path.Some? ==>
      s == SetPath(lib, rt, history, event.value.path.value, false)
    ensures Valid(rt) ==> Valid(s.router)
  {
    if event.None? then Step(rt, history, Unchanged)
    else if event.value.name.Some? then
      SetName(lib, rt, history, event.value.name.value, OrEmpty(event.value.params), false)
    else if event.value.path.Some? then
      SetPath(lib, rt, history, event.value.path.value, false)
    else Step(rt, history, Unchanged)
  }

  /** A `dispatch` argument: `{path}`, or `{name}` with or without `params`. */
  datatype Target = PathTarget(path: string) | NameTarget(name: string, params: Option<Params>)

  /** A history payload as a plain object. */
  function EntryRecord(e: HistoryEntry): Record
  {
    match e
    case PathEntry(p) => map["path" := Str(p)]
    case NameEntry(n, ps) => map["name" := Str(n), "params" := Obj(ps)]
  }

  /** A target as a plain object; omitted params are no key at all. */
  function TargetRecord(t: Target): Record
  {
    match t
    case PathTarget(p) => map["path" := Str(p)]
    case NameTarget(n, None) => map["name" := Str(n)]
    case NameTarget(n, Some(ps)) => map["name" := Str(n), "params" := Obj(ps)]
  }

  /** The one target that has the same shape as a history payload. */
  function TargetOf(e: HistoryEntry): Target
  {
    match e
    case PathEntry(p) => PathTarget(p)
    case NameEntry(n, ps) => NameTarget(n, Some(ps))
  }

  /** A history payload and a target compare shallowly equal exactly when the target
      is the payload's own shape: same path, or same name with the same params given. */
  lemma EntryMatchesTargetIff(e: HistoryEntry, t: Target)
    ensures ShallowIsEqual(EntryRecord(e), TargetRecord(t)) <==> TargetOf(e) == t
  {
    var a, b := EntryRecord(e), TargetRecord(t);
    ShallowIsEqualDefinedIff(a, b);
    if a == b {
      if e.PathEntry? {
        assert "path" in b && b["path"] == Str(e.path);
      } else {
        assert "name" in b && b["name"] == Str(e.name);
        assert "params" in b && b["params"] == Obj(e.params);
      }
    }
  }

  /** The history state is present and shallowly equal to the target. */
  function OnTop(history: seq<HistoryEntry>, t: Target): (b: bool)
    ensures b <==> |history| > 0 && TargetOf(history[|history| - 1]) == t
  {
    if |history| == 0 then false
    else
      EntryMatchesTargetIff(history[|history| - 1], t);
      ShallowIsEqual(EntryRecord(history[|history| - 1]), TargetRecord(t))
  }

  /** What `dispatch` gives back: `undefined`, `true`, or nothing because it threw. */
  datatype Returned = ReturnsUndefined | ReturnsTrue | Throws

  datatype Dispatched = Dispatched(step: Step, returned: Returned)

  /** `dispatch(target)`: a target already on top of the history is ignored and gives
      `undefined`; otherwise a name target goes to `SetName` (params defaulting to
      `{}`) and a path target to `SetPath`, both pushing, and the answer is `true`
      whether or not a route matched. */
  function Dispatch(lib: PathLib, rt: Router, history: seq<HistoryEntry>, t: Target): (d: Dispatched)
    ensures d.returned.ReturnsUndefined? <==> |history| > 0 && TargetOf(history[|history| - 1]) == t
    ensures d.returned.ReturnsUndefined? ==> d.step == Step(rt, history, Unchanged)
    ensures d.returned.Throws? <==> d.step.outcome.Raised?
    ensures !d.returned.ReturnsUndefined? && t.PathTarget? ==>
      d.step == SetPath(lib, rt, history, t.path, true)
    ensures !d.returned.ReturnsUndefined? && t.NameTarget? ==>
      d.step == SetName(lib, rt, history, t.name, OrEmpty(t.params), true)
    ensures Valid(rt) ==> Valid(d.step.router)
  {
    if OnTop(history, t) then Dispatched(Step(rt, history, Unchanged), ReturnsUndefined)
    else
      var s := match t
        case NameTarget(n, ps) => SetName(lib, rt, history, n, OrEmpty(ps), true)
        case PathTarget(p) => SetPath(lib, rt, history, p, true);
      Dispatched(s, if s.outcome.Raised? then Throws else ReturnsTrue)
  }

  /** A name target with its params filled in, so that it has the shape of the
      payload `SetName` pushes for it. */
  function Normalize(t: Target): Target
  {
    match t
    case NameTarget(n, ps) => NameTarget(n, Some(OrEmpty(ps)))
    case PathTarget(_) => t
  }

  /** `dispatch` with the duplicate check done on the normalised target: a name
      target without params is recognised on top of the history as well. Apart from
      that check it navigates exactly as `Dispatch` does. */
  function DispatchDeduplicated(lib: PathLib, rt: Router, history: seq<HistoryEntry>, t: Target): (d: Dispatched)
    ensures d.returned.ReturnsUndefined? <==> |history| > 0 && TargetOf(history[|history| - 1]) == Normalize(t)
    ensures d.returned.ReturnsUndefined? ==> d.step == Step(rt, history, Unchanged)
    ensures !d.returned.ReturnsUndefined? ==> d == Dispatch(lib, rt, history, t)
    ensures Valid(rt) ==> Valid(d.step.router)
  {
    Dispatch(lib, rt, history, Normalize(t))
  }

  /** How construction ends: a pattern the library refuses, an exception out of the
      initial lookup (the constructor throws, so no router exists), or a router that
      has resolved the initial URL. */
  datatype Creation = PatternRejected | ConstructorThrew | Created(step: Step)

  /** No pattern of the table is refused by the library. */
  ghost predicate AllAccepted(lib: PathLib, defs: seq<Route>)
  {
    forall i :: 0 <= i < |defs| ==> lib.accepts(defs[i].path)
  }

  /** `createRouter(routes)`: compiles every pattern up front (any refused pattern
      fails the construction), then resolves the pathname of the current URL with a
      history push. Construction succeeds exactly when neither step throws, and the
      router it yields has made the initial pathname's route current, or is still at
      the sentinel when that pathname has no component route. */
  function CreateRouter(lib: PathLib, defs: seq<Route>, href: string, history: seq<HistoryEntry>): (c: Creation)
    ensures c.PatternRejected? <==> !AllAccepted(lib, defs)
    ensures c.ConstructorThrew? <==>
      && AllAccepted(lib, defs)
      && (lib.pathnameOf(href).None? || MatchPath(CompileTable(defs), lib, lib.pathnameOf(href).value).Thrown?)
    ensures c.Created? ==>
      && lib.pathnameOf(href).Some?
      && c.step.router.routes == CompileTable(defs)
      && Valid(c.step.router)
      && !c.step.outcome.Raised?
    ensures c.Created? ==>
      var p := lib.pathnameOf(href).value;
      var m := MatchPath(CompileTable(defs), lib, p);
      && (c.step.outcome.Navigated? <==> m.Found? && m.route.def.ComponentRoute?)
      && (c.step.outcome.Navigated? ==>
            && c.step.router.state == EngineState(m.route, p, m.params)
            && c.step.history == history + [PathEntry(p)])
      && (!c.step.outcome.Navigated? ==> c.step.router.state == InitialState && c.step.history == history)
      && (c.step.outcome.Redirected? <==> m.Found? && m.route.def.RedirectRoute?)
      && (c.step.outcome.Redirected? ==> c.step.outcome.url == m.route.def.redirect)
  {
    if exists i :: 0 <= i < |defs| && !lib.accepts(defs[i].path) then PatternRejected
    else
      match lib.pathnameOf(href)
      case None => ConstructorThrew
      case Some(p) =>
        var s := SetPath(lib, Router(CompileTable(defs), InitialState), history, p, true);
        if s.outcome.Raised? then ConstructorThrew else Created(s)
  }

  /** `isActiveRoute(route)`: compares ordinals only. On a table route that is the
      same as being the current route, and before any resolution no table route is
      active. */
  function IsActiveRoute(rt: Router, route: CompiledRoute): (b: bool)
    ensures Valid(rt) && route in rt.routes ==> (b <==> route == rt.state.current)
    ensures IsCompiled(rt.routes) && rt.state.current == NullRoute && route in rt.routes ==> !b
  {
    route.id == rt.state.current.id
  }

  /** The descriptor `currentRouteProp` hands to a view: the current route's `name`,
      `path` pattern and `meta` (when present), and the stored params. */
  datatype RouteProp = RouteProp(name: Option<string>, path: string, meta: Option<Params>, params: Params)

  function CurrentRouteProp(rt: Router): (r: RouteProp)
    ensures r.params == rt.state.params
    ensures rt.state.current == NullRoute ==> r.name == Some("null") && r.path == "*" && r.meta.None?
    ensures Valid(rt) && rt.state.current != NullRoute ==>
      var d := rt.routes[rt.state.current.id].def;
      r.name == d.name && r.path == d.path && r.meta == d.meta
  {
    var d := rt.state.current.def;
    RouteProp(d.name, d.path, d.meta, rt.state.params)
  }
}
