/** Worked examples of the router on the route tables of src/test.ts and of the sample
    application (sample-app/router.ts), with a small stand-in for the path library:
    literal patterns, the optional-parameter pattern `/objects{/:objectId}` and the
    catch-all `/` followed by `*pathMatch`. */
module Scenarios {
  import opened Types
  import opened PathLibrary
  import opened RouteTable
  import opened Navigation
  import opened NavigationProperties

  const ObjectsPattern: string := "/objects{/:objectId}"
  const Objects: string := "/objects"
  const ObjectsPrefix: string := "/objects/"
  const Origin: string := "https://example.org"

  /** The segments of a wildcard capture, joined by `/`. */
  function JoinSegments(ss: seq<string>): string
  {
    if |ss| == 0 then ""
    else if |ss| == 1 then ss[0]
    else ss[0] + "/" + JoinSegments(ss[1..])
  }

  /** Stand-in matcher: the catch-all takes any pathname longer than `/` (as one
      segment), the objects pattern takes `/objects` and `/objects/<id>`, any other
      pattern only itself. */
  function StandInMatcher(pattern: string, pathname: string): MatchResult
  {
    if pattern == "/*pathMatch" then
      if |pathname| > 1 then Matched(map["pathMatch" := Segments([pathname[1..]])]) else NoMatch
    else if pattern == ObjectsPattern then
      if pathname == Objects then Matched(map[])
      else if |pathname| > |ObjectsPrefix| && pathname[..|ObjectsPrefix|] == ObjectsPrefix
      then Matched(map["objectId" := Text(pathname[|ObjectsPrefix|..])])
      else NoMatch
    else if pattern == pathname then Matched(map[])
    else NoMatch
  }

  /** Stand-in builder: the catch-all needs a non-empty list of segments; the optional
      `objectId` may be left out, but when given it must be text. Anything else
      throws, which is `None`. */
  function StandInBuilder(pattern: string, params: Params): Option<string>
  {
    if pattern == "/*pathMatch" then
      if "pathMatch" in params && params["pathMatch"].Segments? && |params["pathMatch"].segments| > 0
      then Some("/" + JoinSegments(params["pathMatch"].segments))
      else None
    else if pattern == ObjectsPattern then
      if "objectId" !in params then Some(Objects)
      else if params["objectId"].Text? then Some(ObjectsPrefix + params["objectId"].text)
      else None
    else Some(pattern)
  }

  /** Stand-in URL parser: strips the test origin. It never throws on the inputs used
      here. */
  function StandInPathname(url: string): Option<string>
  {
    if |url| >= |Origin| && url[..|Origin|] == Origin then Some(url[|Origin|..]) else Some(url)
  }

  function StandInLib(): PathLib
  {
    PathLib(_ => true, StandInMatcher, StandInBuilder, StandInPathname)
  }

  /** The routes of src/test.ts. */
  function TestRoutes(): seq<Route>
  {
    [ ComponentRoute("/", Some("home"), None, HostRef(1), None, None),
      ComponentRoute("/contact", Some("contact"), None, HostRef(2), None, None),
      ComponentRoute("/*pathMatch", Some("not-found"), None, HostRef(3), None, Some(true)) ]
  }

  function TestTable(): seq<CompiledRoute>
  {
    CompileTable(TestRoutes())
  }

  /** The router of the test suite once it has resolved `/`. */
  function TestBooted(): Router
  {
    Router(TestTable(), EngineState(TestTable()[0], "/", map[]))
  }

  /** Constructed at `https://example.org/`, the router makes the home route current
      and the history state is `{path: '/'}`. */
  lemma TestConstruction()
    ensures CreateRouter(StandInLib(), TestRoutes(), "https://example.org/", [])
      == Created(Step(TestBooted(), [PathEntry("/")], Navigated))
  {
    var lib, rs := StandInLib(), TestTable();
    assert StandInPathname("https://example.org/") == Some("/");
    assert Decides(rs, lib, "/", 0);
    FoundIsDecider(rs, lib, "/", 0);
  }

  /** Then `dispatch({name: 'contact'})` answers `true` and leaves
      `{name: 'contact', params: {}}` on top. */
  lemma TestDispatchContact()
    ensures Dispatch(StandInLib(), TestBooted(), [PathEntry("/")], NameTarget("contact", None))
      == Dispatched(Step(Router(TestTable(), EngineState(TestTable()[1], "/contact", map[])),
                         [PathEntry("/"), NameEntry("contact", map[])], Navigated),
                    ReturnsTrue)
  {
    var lib, rs := StandInLib(), TestTable();
    assert !Builds(rs, lib, "contact", map[], 0);
    assert Chooses(rs, lib, "contact", map[], 1);
    var m := MatchName(rs, lib, "contact", map[]);
    var k :| Chooses(rs, lib, "contact", map[], k) && rs[k] == m.route;
    ChoosesUnique(rs, lib, "contact", map[], 1, k);
    assert TargetOf(PathEntry("/")) != NameTarget("contact", None);
  }

  /** Dispatching `{name: 'contact'}` once more is not recognised as the current entry:
      it pushes a second, identical entry. */
  lemma TestDispatchContactTwice()
    ensures var d := Dispatch(StandInLib(), TestBooted(), [PathEntry("/")], NameTarget("contact", None));
      Dispatch(StandInLib(), d.step.router, d.step.history, NameTarget("contact", None)).step.history
        == [PathEntry("/"), NameEntry("contact", map[]), NameEntry("contact", map[])]
  {
    TestDispatchContact();
    DispatchRepeatsBareName(StandInLib(), TestBooted(), [PathEntry("/")], "contact");
  }

  /** The routes of the sample application, reduced to the ones the properties need. */
  function SampleRoutes(): seq<Route>
  {
    [ ComponentRoute("/", Some("home"), None, HostRef(1), None, None),
      ComponentRoute(ObjectsPattern, Some("objects"), None, HostRef(4), None, None),
      RedirectRoute("/search", Some("search"), None, "https://duckduckgo.com"),
      ComponentRoute("/*pathMatch", Some("not-found"), None, HostRef(3), None, Some(true)) ]
  }

  function SampleRouter(): Router
  {
    Router(CompileTable(SampleRoutes()), InitialState)
  }

  /** `/objects/42` makes the objects route current with `objectId` `'42'`. */
  lemma SampleObjectsByPath()
    ensures var d := Dispatch(StandInLib(), SampleRouter(), [], PathTarget("/objects/42"));
      && d.returned == ReturnsTrue
      && d.step.router.state
         == EngineState(CompiledRoute(SampleRoutes()[1], 1), "/objects/42", map["objectId" := Text("42")])
      && d.step.history == [PathEntry("/objects/42")]
  {
    var lib, rs := StandInLib(), SampleRouter().routes;
    assert ("/objects/42")[..9] == ObjectsPrefix;
    assert Decides(rs, lib, "/objects/42", 1);
    FoundIsDecider(rs, lib, "/objects/42", 1);
  }

  /** A path no specific route takes falls through to the catch-all. */
  lemma SampleUnknownPathIsNotFound()
    ensures var d := Dispatch(StandInLib(), SampleRouter(), [], PathTarget("/unknown/page"));
      && d.returned == ReturnsTrue
      && d.step.router.state.current == CompiledRoute(SampleRoutes()[3], 3)
  {
    var lib, rs := StandInLib(), SampleRouter().routes;
    assert ("/unknown/page")[..9][1] != ObjectsPrefix[1];
    assert StandInMatcher(ObjectsPattern, "/unknown/page") == NoMatch;
    assert Declines(rs, lib, "/unknown/page", 0, 3) by {
      assert Verdict(rs, lib, "/unknown/page", 0) == NoMatch;
      assert Verdict(rs, lib, "/unknown/page", 1) == NoMatch;
      assert Verdict(rs, lib, "/unknown/page", 2) == NoMatch;
    }
    assert Decides(rs, lib, "/unknown/page", 3);
    FoundIsDecider(rs, lib, "/unknown/page", 3);
  }

  /** Asking for the objects route by name without an `objectId` builds `/objects`:
      the objects route becomes current with `{}` and `{name: 'objects', params: {}}`
      is pushed. */
  lemma SampleObjectsByNameWithoutId()
    ensures var d := Dispatch(StandInLib(), SampleRouter(), [], NameTarget("objects", None));
      && d.returned == ReturnsTrue
      && d.step.router.state == EngineState(CompiledRoute(SampleRoutes()[1], 1), Objects, map[])
      && d.step.history == [NameEntry("objects", map[])]
  {
    var lib, rs := StandInLib(), SampleRouter().routes;
    assert !Builds(rs, lib, "objects", map[], 0);
    assert Chooses(rs, lib, "objects", map[], 1);
    var m := MatchName(rs, lib, "objects", map[]);
    var k :| Chooses(rs, lib, "objects", map[], k) && rs[k] == m.route;
    ChoosesUnique(rs, lib, "objects", map[], 1, k);
  }

  /** Asking for the catch-all by name without the segments it needs finds no route:
      its builder throws, so state and history stay as they were, and `dispatch`
      still answers `true`. */
  lemma SampleNotFoundByNameWithoutParams()
    ensures var d := Dispatch(StandInLib(), SampleRouter(), [], NameTarget("not-found", None));
      && d.returned == ReturnsTrue
      && d.step == Step(SampleRouter(), [], Unchanged)
  {
    var lib, rs := StandInLib(), SampleRouter().routes;
    assert NoneBuild(rs, lib, "not-found", map[], 0, |rs|) by {
      assert !Builds(rs, lib, "not-found", map[], 3);
    }
  }

  /** A redirect route redirects and changes neither state nor history. */
  lemma SampleSearchRedirects()
    ensures var d := Dispatch(StandInLib(), SampleRouter(), [], PathTarget("/search"));
      && d.returned == ReturnsTrue
      && d.step == Step(SampleRouter(), [], Redirected("https://duckduckgo.com"))
  {
    var lib, rs := StandInLib(), SampleRouter().routes;
    assert ("/search")[..|"/search"|] != ObjectsPrefix;
    assert Decides(rs, lib, "/search", 2);
    FoundIsDecider(rs, lib, "/search", 2);
  }
}
