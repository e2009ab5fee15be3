/** Properties that relate several transitions of the router: replaying history,
    repeated dispatch, and the duplicate-entry behaviour of name targets. */
module NavigationProperties {
  import opened Types
  import opened PathLibrary
  import opened RouteTable
  import opened Navigation

  /** Going back or forward to the entry a dispatch pushed restores exactly the state
      that dispatch set, whatever state the router is in by then, and pushes nothing. */
  lemma PopRestoresDispatched(lib: PathLib, rt: Router, history: seq<HistoryEntry>, t: Target,
                              later: Router, laterHistory: seq<HistoryEntry>)
    requires Dispatch(lib, rt, history, t).step.outcome.Navigated?
    requires later.routes == rt.routes
    ensures var d := Dispatch(lib, rt, history, t);
      && |d.step.history| == |history| + 1
      && HistoryPopState(lib, later, laterHistory, Some(AsPopState(d.step.history[|history|])))
         == Step(d.step.router, laterHistory, Navigated)
  {
  }

  /** Dispatching a path target, or a name target with params, a second time is
      recognised as the current history entry: nothing changes and the answer is
      `undefined`. */
  lemma DispatchIdempotent(lib: PathLib, rt: Router, history: seq<HistoryEntry>, t: Target)
    requires Dispatch(lib, rt, history, t).step.outcome.Navigated?
    requires t.PathTarget? || t.params.Some?
    ensures var d := Dispatch(lib, rt, history, t);
      Dispatch(lib, d.step.router, d.step.history, t)
        == Dispatched(Step(d.step.router, d.step.history, Unchanged), ReturnsUndefined)
  {
  }

  /** As written, a name target without params is never recognised on top of the
      history, because the entry `SetName` pushed for it carries a `params` key: a
      second identical dispatch navigates again and pushes a second identical entry. */
  lemma DispatchRepeatsBareName(lib: PathLib, rt: Router, history: seq<HistoryEntry>, n: string)
    requires Dispatch(lib, rt, history, NameTarget(n, None)).step.outcome.Navigated?
    ensures var d1 := Dispatch(lib, rt, history, NameTarget(n, None));
      var d2 := Dispatch(lib, d1.step.router, d1.step.history, NameTarget(n, None));
      && d2.returned == ReturnsTrue
      && d2.step.outcome.Navigated?
      && d2.step.router == d1.step.router
      && d2.step.history == history + [NameEntry(n, map[]), NameEntry(n, map[])]
  {
  }

  /** With the duplicate check done on the normalised target, every target that
      navigated is recognised when dispatched again. */
  lemma DeduplicatedDispatchIdempotent(lib: PathLib, rt: Router, history: seq<HistoryEntry>, t: Target)
    requires DispatchDeduplicated(lib, rt, history, t).step.outcome.Navigated?
    ensures var d := DispatchDeduplicated(lib, rt, history, t);
      DispatchDeduplicated(lib, d.step.router, d.step.history, t)
        == Dispatched(Step(d.step.router, d.step.history, Unchanged), ReturnsUndefined)
  {
  }

  /** A route object that carries a `component` never makes the router redirect,
      even when it also carries `redirect`: the entry that decides a redirecting
      lookup was classified from an object without a component, and the redirect goes
      to that object's `redirect`. */
  lemma RedirectOnlyWithoutComponent(lib: PathLib, rt: Router, history: seq<HistoryEntry>, path: string, push: bool,
                                     objs: seq<RouteObject>)
    requires |objs| == |rt.routes|
    requires forall i :: 0 <= i < |objs| ==>
      (objs[i].component.Some? || objs[i].redirect.Some?) && rt.routes[i].def == Classify(objs[i])
    ensures var s := SetPath(lib, rt, history, path, push);
      s.outcome.Redirected? ==>
        && lib.pathnameOf(path).Some?
        && exists k :: && Decides(rt.routes, lib, lib.pathnameOf(path).value, k)
                       && rt.routes[k] == MatchPath(rt.routes, lib, path).route
                       && objs[k].component.None?
                       && objs[k].redirect == Some(s.outcome.url)
  {
    var s := SetPath(lib, rt, history, path, push);
    if s.outcome.Redirected? {
      var m := MatchPath(rt.routes, lib, path);
      var k :| Decides(rt.routes, lib, lib.pathnameOf(path).value, k) && rt.routes[k] == m.route;
      assert objs[k].component.None? && objs[k].redirect == Some(s.outcome.url);
    }
  }
}
