/** The compiled route table and its two first-match lookups (the `Router`
    constructor's table, `matchPath` and `matchName` in src/index.ts). */
module RouteTable {
  import opened Types
  import opened PathLibrary

  /** A route together with its ordinal in the table. The compiled matcher and
      builder are not stored: applying them is `lib.matcher(def.path, _)` and
      `lib.builder(def.path, _)`. */
  datatype CompiledRoute = CompiledRoute(def: Route, id: int)

  /** The component of the sentinel route (it renders an empty `div`). */
  const NullComponent: HostRef := HostRef(0)

  /** The sentinel that is current before anything was resolved: named `null`, path
      `*`, ordinal -1. It is never part of a table. */
  const NullRoute: CompiledRoute :=
    CompiledRoute(ComponentRoute("*", Some("null"), None, NullComponent, None, None), -1)

  /** Every route of the table carries its own position as ordinal. */
  ghost predicate IsCompiled(rs: seq<CompiledRoute>)
  {
    forall i :: 0 <= i < |rs| ==> rs[i].id == i
  }

  /** Compiles `defs[k..]`, numbering them from `k`. */
  function CompileFrom(defs: seq<Route>, k: nat): (rs: seq<CompiledRoute>)
    requires k <= |defs|
    ensures |rs| == |defs| - k
    ensures forall i :: 0 <= i < |rs| ==> rs[i].def == defs[k + i] && rs[i].id == k + i
    decreases |defs| - k
  {
    if k == |defs| then [] else [CompiledRoute(defs[k], k)] + CompileFrom(defs, k + 1)
  }

  /** The table the constructor builds: the definitions in input order, route `i`
      with ordinal `i`. */
  function CompileTable(defs: seq<Route>): (rs: seq<CompiledRoute>)
    ensures |rs| == |defs|
    ensures forall i :: 0 <= i < |rs| ==> rs[i].def == defs[i]
    ensures IsCompiled(rs)
  {
    CompileFrom(defs, 0)
  }

  /** Ordinals tell the routes of a compiled table apart, and none of them is the
      sentinel's. */
  lemma CompiledIdsIdentify(rs: seq<CompiledRoute>)
    requires IsCompiled(rs)
    ensures forall i, j :: 0 <= i < |rs| && 0 <= j < |rs| && rs[i].id == rs[j].id ==> i == j
    ensures forall r :: r in rs ==> r.id != NullRoute.id && r != NullRoute
    ensures forall r :: r in rs ==> 0 <= r.id < |rs| && rs[r.id] == r
  {
  }

  // ---------------------------------------------------------------------------
  // Lookup by path

  /** What route `k`'s matcher says about `pathname`. */
  function Verdict(rs: seq<CompiledRoute>, lib: PathLib, pathname: string, k: int): MatchResult
    requires 0 <= k < |rs|
  {
    lib.matcher(rs[k].def.path, pathname)
  }

  /** Every route in `rs[lo..hi]` declines `pathname`. */
  ghost predicate Declines(rs: seq<CompiledRoute>, lib: PathLib, pathname: string, lo: int, hi: int)
    requires 0 <= lo <= hi <= |rs|
  {
    forall j :: lo <= j < hi ==> Verdict(rs, lib, pathname, j).NoMatch?
  }

  /** Route `k` is the first whose matcher does not decline `pathname`: it decides the
      lookup, by accepting or by throwing. */
  ghost predicate Decides(rs: seq<CompiledRoute>, lib: PathLib, pathname: string, k: int)
  {
    0 <= k < |rs| && Declines(rs, lib, pathname, 0, k) && !Verdict(rs, lib, pathname, k).NoMatch?
  }

  /** At most one route decides a lookup. */
  lemma DecidesUnique(rs: seq<CompiledRoute>, lib: PathLib, pathname: string, k: int, k': int)
    requires Decides(rs, lib, pathname, k) && Decides(rs, lib, pathname, k')
    ensures k == k'
  {
  }

  /** The outcome of scanning the table for a pathname. */
  datatype PathScan = Hit(index: nat, params: Params) | Threw(index: nat) | Miss

  /** Tries the routes from position `from` on, in order, and stops at the first
      matcher that accepts or throws. */
  function ScanPath(rs: seq<CompiledRoute>, lib: PathLib, pathname: string, from: nat): (r: PathScan)
    requires from <= |rs|
    ensures r.Hit? ==>
      && from <= r.index < |rs|
      && Verdict(rs, lib, pathname, r.index) == Matched(r.params)
      && Declines(rs, lib, pathname, from, r.index)
    ensures r.Threw? ==>
      && from <= r.index < |rs|
      && Verdict(rs, lib, pathname, r.index) == MatchThrows
      && Declines(rs, lib, pathname, from, r.index)
    ensures r.Miss? ==> Declines(rs, lib, pathname, from, |rs|)
    decreases |rs| - from
  {
    if from == |rs| then Miss
    else
      match Verdict(rs, lib, pathname, from)
      case Matched(ps) => Hit(from, ps)
      case MatchThrows => Threw(from)
      case NoMatch => ScanPath(rs, lib, pathname, from + 1)
  }

  /** The result of `matchPath`: the route and its params, no route (`undefined` with
      `{}`), or an exception out of the URL parser or a matcher. */
  datatype PathMatch = Found(route: CompiledRoute, params: Params) | NotFound | Thrown

  /** First match wins on a pathname: the result is the first route, in table order,
      whose matcher does not decline, with that matcher's params; a matcher that
      throws ends the lookup with the exception. */
  function MatchPathname(rs: seq<CompiledRoute>, lib: PathLib, pathname: string): (r: PathMatch)
    ensures r.Found? ==> exists k :: (Decides(rs, lib, pathname, k)
      && rs[k] == r.route && Verdict(rs, lib, pathname, k) == Matched(r.params))
    ensures r.Thrown? ==> exists k :: (Decides(rs, lib, pathname, k)
      && Verdict(rs, lib, pathname, k) == MatchThrows)
    ensures r.NotFound? <==> Declines(rs, lib, pathname, 0, |rs|)
  {
    match ScanPath(rs, lib, pathname, 0)
    case Hit(k, ps) =>
      assert Decides(rs, lib, pathname, k);
      Found(rs[k], ps)
    case Threw(k) =>
      assert Decides(rs, lib, pathname, k);
      Thrown
    case Miss => NotFound
  }

  /** `matchPath(path)`: parses `path` against a base and looks its pathname up (query
      and fragment play no part). A path the URL parser refuses throws before any
      matcher is tried. */
  function MatchPath(rs: seq<CompiledRoute>, lib: PathLib, path: string): (r: PathMatch)
    ensures lib.pathnameOf(path).None? ==> r.Thrown?
    ensures lib.pathnameOf(path).Some? ==> r == MatchPathname(rs, lib, lib.pathnameOf(path).value)
    ensures r.NotFound? ==> Declines(rs, lib, lib.pathnameOf(path).value, 0, |rs|)
  {
    match lib.pathnameOf(path)
    case None => Thrown
    case Some(pathname) => MatchPathname(rs, lib, pathname)
  }

  /** A reference first-match scan straight over the uncompiled definitions, as the
      lookup loop is written; it agrees with the lookup on the compiled table. */
  method FirstMatchScan(defs: seq<Route>, lib: PathLib, path: string) returns (r: PathMatch)
    ensures r == MatchPath(CompileTable(defs), lib, path)
  {
    var parsed := lib.pathnameOf(path);
    if parsed.None? {
      return Thrown;
    }
    var pathname := parsed.value;
    ghost var rs := CompileTable(defs);
    var i := 0;
    while i < |defs|
      invariant 0 <= i <= |defs|
      invariant forall j :: 0 <= j < i ==> lib.matcher(defs[j].path, pathname).NoMatch?
    {
      var m := lib.matcher(defs[i].path, pathname);
      if m.Matched? {
        assert Decides(rs, lib, pathname, i);
        FoundIsDecider(rs, lib, pathname, i);
        return Found(CompiledRoute(defs[i], i), m.params);
      } else if m.MatchThrows? {
        assert Decides(rs, lib, pathname, i);
        FoundIsDecider(rs, lib, pathname, i);
        return Thrown;
      }
      i := i + 1;
    }
    assert Declines(rs, lib, pathname, 0, |rs|);
    return NotFound;
  }

  /** The lookup's verdict is the one of the route that decides it. */
  lemma FoundIsDecider(rs: seq<CompiledRoute>, lib: PathLib, pathname: string, k: int)
    requires Decides(rs, lib, pathname, k)
    ensures Verdict(rs, lib, pathname, k).Matched? ==>
      MatchPathname(rs, lib, pathname) == Found(rs[k], Verdict(rs, lib, pathname, k).params)
    ensures Verdict(rs, lib, pathname, k).MatchThrows? ==> MatchPathname(rs, lib, pathname) == Thrown
  {
  }

  // ---------------------------------------------------------------------------
  // Lookup by name

  /** Route `k` answers to `name` and its builder turns `params` into a non-empty path. */
  ghost predicate Builds(rs: seq<CompiledRoute>, lib: PathLib, name: string, params: Params, k: int)
    requires 0 <= k < |rs|
  {
    && rs[k].def.name == Some(name)
    && lib.builder(rs[k].def.path, params).Some?
    && lib.builder(rs[k].def.path, params).value != ""
  }

  /** No route in `rs[lo..hi]` builds a path for `name` and `params`. */
  ghost predicate NoneBuild(rs: seq<CompiledRoute>, lib: PathLib, name: string, params: Params, lo: int, hi: int)
    requires 0 <= lo <= hi <= |rs|
  {
    forall j :: lo <= j < hi ==> !Builds(rs, lib, name, params, j)
  }

  /** Route `k` is the first that builds a path for `name` and `params`. */
  ghost predicate Chooses(rs: seq<CompiledRoute>, lib: PathLib, name: string, params: Params, k: int)
  {
    0 <= k < |rs| && NoneBuild(rs, lib, name, params, 0, k) && Builds(rs, lib, name, params, k)
  }

  lemma ChoosesUnique(rs: seq<CompiledRoute>, lib: PathLib, name: string, params: Params, k: int, k': int)
    requires Chooses(rs, lib, name, params, k) && Chooses(rs, lib, name, params, k')
    ensures k == k'
  {
  }

  /** The outcome of scanning the table for a name. */
  datatype NameScan = Built(index: nat, path: string) | NoneBuilt

  /** Tries the routes from position `from` on; a route with another name, a builder
      that throws and a builder that yields `''` are all passed over. */
  function ScanName(rs: seq<CompiledRoute>, lib: PathLib, name: string, params: Params, from: nat): (r: NameScan)
    requires from <= |rs|
    ensures r.Built? ==>
      && from <= r.index < |rs|
      && Builds(rs, lib, name, params, r.index)
      && lib.builder(rs[r.index].def.path, params) == Some(r.path)
      && NoneBuild(rs, lib, name, params, from, r.index)
    ensures r.NoneBuilt? ==> NoneBuild(rs, lib, name, params, from, |rs|)
    decreases |rs| - from
  {
    if from == |rs| then NoneBuilt
    else if rs[from].def.name == Some(name) then
      match lib.builder(rs[from].def.path, params)
      case Some(path) =>
        if path != "" then Built(from, path) else ScanName(rs, lib, name, params, from + 1)
      case None => ScanName(rs, lib, name, params, from + 1)
    else ScanName(rs, lib, name, params, from + 1)
  }

  /** The result of `matchName`: a route with the path built for it, or no route
      (`undefined` with `''`). */
  datatype NameMatch = Named(route: CompiledRoute, path: string) | Unnamed

  /** The first route, in table order, that carries `name` and whose builder turns
      `params` into a non-empty path; routes whose builder throws or yields `''` are
      skipped rather than ending the lookup. */
  function MatchName(rs: seq<CompiledRoute>, lib: PathLib, name: string, params: Params): (r: NameMatch)
    ensures r.Named? ==> exists k :: Chooses(rs, lib, name, params, k) && rs[k] == r.route
    ensures r.Named? ==>
      && r.route.def.name == Some(name)
      && lib.builder(r.route.def.path, params) == Some(r.path)
      && r.path != ""
    ensures r.Unnamed? <==> NoneBuild(rs, lib, name, params, 0, |rs|)
  {
    match ScanName(rs, lib, name, params, 0)
    case Built(k, path) =>
      assert Chooses(rs, lib, name, params, k);
      Named(rs[k], path)
    case NoneBuilt => Unnamed
  }
}
