# my-vue-router: the route-matching and navigation engine in Dafny

This project models the engine inside the `Router` class of my-vue-router, a small
client-side router for Vue single-page applications. It covers:

- the route descriptors: `Route`, which is either a component route or a redirect route;
- the compiled route table, where each route's `_id` is its position;
- the two first-match lookups, `matchPath` and `matchName`;
- the navigation state machine: `setPath`, `setName`, `historyPopState`, `dispatch`
  and construction;
- the small derived pieces: `shallowIsEqual`, `isActiveRoute`, `currentRouteProp`, the
  "active" flag of `RouteLink`/`RouteName`, and the `routeProp` injection of `RouteView`.

Every transition is a pure function from (router, history, input) to (router', history',
outcome). The history is a sequence whose last element is `history.state`. The outcome
is one of: unchanged, navigated, redirected to a URL, or raised.

The foreign code is passed in as a `PathLib` value holding four functions:
path-to-regexp's `match` and `compile`, its pattern check at construction, and the
`URL` pathname extraction. Nothing is assumed about pattern syntax. The `URL` parser
may throw (for example on `http://`, which has no host), and so may a matcher (for
example on a malformed percent-escape). `matchPath` catches neither, so the exception
ends the lookup and propagates through `setPath` and `dispatch`, and out of the
constructor, which then yields no router. A builder that throws is caught by
`matchName`, so that route is skipped.

Modules, leaves first: `Types` (src/types.ts), `PathLibrary` (the foreign functions),
`RouteTable`, `Records` (`shallowIsEqual`), `Navigation`, `NavigationProperties`,
`Links` (link flags), `Views` (the `route` prop of a view), and `Scenarios`
(worked examples on the test suite's route table and a sample-style table, with a stand-in path library).

## Model

| member | source | states |
|---|---|---|
| Types.Classify | src/index.ts:30-36 | an object with a `component` is a component route even if it also has `redirect`; only an object without one is a redirect route; the shared fields are kept |
| RouteTable.CompileFrom | src/index.ts:72 | compiling from position k keeps the order and numbers the routes k, k+1, … |
| RouteTable.CompileTable | src/index.ts:72 | the table holds the definitions in input order, and route i has `_id` i |
| RouteTable.CompiledIdsIdentify | src/index.ts:14-21 | in a compiled table, different routes have different `_id`s, every `_id` points back to its own route, and no table route has the sentinel's `_id` -1 |
| RouteTable.ScanPath | src/index.ts:80-85 | the scan stops at the first route whose matcher accepts (with its params) or throws; every route before it declines; a miss means every route declines |
| RouteTable.MatchPathname | src/index.ts:80-86 | the result is the first route in table order whose matcher does not decline the pathname, with that matcher's params; if that matcher throws, the result is the exception; no route at all exactly when every matcher declines |
| RouteTable.MatchPath | src/index.ts:78-87 | a path the `URL` parser refuses throws before any matcher runs; otherwise only its pathname is looked up (query and fragment play no part), and no route means every matcher declined that pathname |
| RouteTable.FirstMatchScan | src/index.ts:78-87 | a linear scan over the uncompiled definitions, after parsing the path, gives exactly the lookup's result on the compiled table |
| RouteTable.FoundIsDecider | src/index.ts:80-85 | whichever route is the first not to decline determines the lookup's result |
| RouteTable.DecidesUnique | src/index.ts:80-85 | at most one route can be the first that does not decline |
| RouteTable.ScanName | src/index.ts:90-99 | the scan passes over routes with another name and builders that throw or give `''`; it stops at the first route with the name whose builder gives a non-empty path |
| RouteTable.MatchName | src/index.ts:89-101 | the result is the first route carrying the name whose builder gives a non-empty path, with that path; there is no route exactly when no route with that name builds one |
| RouteTable.ChoosesUnique | src/index.ts:90-99 | at most one route can be the first that builds a path |
| Records.ShallowIsEqual | src/index.ts:38-41 | every object shallow-equals an equal object; when two objects compare equal, every key the first gives a value is present in the second with the identical value |
| Records.ShallowIsEqualDefinedIff | src/index.ts:38-41 | when no key holds `undefined`, shallow equality (same key count, every key of the first has the same value in the second) is exactly equality of the records |
| Records.ShallowIsEqualNotSymmetric | src/index.ts:38-41 | with an explicit `undefined` value the comparison is one-sided: `{x: undefined}` equals `{y: ''}`, but not the other way round |
| Navigation.SetPath | src/index.ts:103-115 | no match: state and history unchanged. Component route: route, path and params are set together; the stored path is the input verbatim; `{path}` is pushed if and only if `push`. Redirect route: state and history unchanged, outcome is a redirect to `route.redirect`. An exception from the `URL` parser or a matcher changes nothing and is the outcome. The current route stays valid (the sentinel, or the table entry at its `_id`, always a component route) |
| Navigation.SetName | src/index.ts:117-128 | as SetPath, but resolved by name. On success the stored path is the built path, the stored params are the ones supplied, and `{name, params}` is pushed if and only if `push`. It never raises. It preserves validity |
| Navigation.HistoryPopState | src/index.ts:150-159 | the history is never extended. An absent event or state, or a state with neither key, does nothing. `name` takes precedence over `path` and replays `setName` with params defaulting to `{}`. Otherwise `path` replays `setPath`. Both replays have push off |
| Navigation.EntryMatchesTargetIff | src/index.ts:163 | a pushed history payload shallow-equals a dispatch target exactly when the target has the same shape and values: the same path, or the same name with the same params given |
| Navigation.OnTop | src/index.ts:163 | the duplicate check fires exactly when there is a history state and the target is that state's own shape |
| Navigation.Dispatch | src/index.ts:161-171 | a target already on top of the history changes nothing and returns `undefined`. Otherwise a name target goes to `setName` with params defaulting to `{}`, and a path target goes to `setPath`, both with push on. The result is `true` even when no route matched; only an exception from the `URL` parser or a matcher replaces it |
| Navigation.DispatchDeduplicated | src/index.ts:163 | corrected duplicate check: the name target is compared with its params defaulted to `{}`; otherwise it is identical to Dispatch |
| Navigation.CreateRouter | src/index.ts:71-76 | construction fails exactly when some pattern is refused, or else when parsing the current URL or looking up its pathname throws. Otherwise the table is the compiled input and the router is valid. The initial pathname is looked up with push on: if it resolves to a component route, that route, the pathname and the matcher's params become the state and `{path}` is the one new history entry; if it resolves to a redirect route, the outcome is that redirect; in every case but a component route, the state is still the sentinel's and the history is untouched |
| Navigation.CurrentRouteProp | src/index.ts:130-137 | the descriptor carries the stored params; for a table route of a valid router it carries that table entry's `name`, path pattern and `meta`; for the sentinel it carries `null` and `*` and no `meta` |
| Navigation.IsActiveRoute | src/index.ts:139-141 | comparing ids agrees with comparing the routes themselves for table routes of a valid router; before anything is resolved, no table route is active |
| NavigationProperties.RedirectOnlyWithoutComponent | src/index.ts:103-115 | on a table classified from route objects, when `setPath` redirects, the entry that decided the lookup was classified from an object without a `component`, and the URL is that object's `redirect`; an object with a `component` never redirects, even if it also has `redirect` |
| NavigationProperties.PopRestoresDispatched | src/index.ts:150-159 | returning to the entry a successful dispatch pushed restores exactly the state that dispatch set, from any later state of the same router, and pushes nothing |
| NavigationProperties.DispatchIdempotent | src/index.ts:161-171 | dispatching a path target, or a name target with params, a second time changes nothing and returns `undefined` |
| NavigationProperties.DispatchRepeatsBareName | src/index.ts:163-166 | as written, dispatching a name target without params a second time navigates again, returns `true`, and leaves two identical `{name, params: {}}` entries on top |
| NavigationProperties.DeduplicatedDispatchIdempotent | src/index.ts:163 | with the corrected check, every target that navigated is ignored when dispatched again |
| Links.LinkActiveForPath | src/index.ts:183-191 | a `RouteLink` is active exactly when its path resolves to the current route; with no route it is inactive; when the lookup throws, the link cannot be set up |
| Links.LinkActiveForName | src/index.ts:220-228 | a `RouteName` link is active exactly when its name and params resolve to the current route |
| Links.PathLinkActiveAfterNavigation | src/index.ts:186-191 | after navigating to a path, the link to that path is active, and a link to any other path is active exactly when that path resolves to the same route |
| Links.NameLinkActiveAfterNavigation | src/index.ts:223-228 | after navigating by name, the link with that name and those params is active |
| Views.ViewRouteProp | src/index.ts:255 | the render adds the route descriptor if and only if the current route sets `routeProp` to true; it carries the stored params and the route's pattern |
| Views.RoutePropAfterNavigation | src/index.ts:130-137 | the descriptor holds the matched route's name, its path pattern (not the visited path) and its meta, plus the matched params; before any navigation it describes the sentinel (`null`, `*`, `{}`) |
| Scenarios.TestConstruction | src/test.ts:63-67 | on the test suite's table, starting at `/` makes home current and `{path: '/'}` the history state |
| Scenarios.TestDispatchContact | src/test.ts:68-69 | `dispatch({name: 'contact'})` returns `true` and leaves `{name: 'contact', params: {}}` on top |
| Scenarios.TestDispatchContactTwice | src/index.ts:163-166 | a second `dispatch({name: 'contact'})` pushes a second identical entry |
| Scenarios.SampleObjectsByPath | src/index.ts:103-110 | on the sample table, with `/objects{/:objectId}`, the path `/objects/42` makes the objects route current, with `objectId` `'42'` |
| Scenarios.SampleUnknownPathIsNotFound | src/index.ts:80-85 | an unknown path falls through to the catch-all route |
| Scenarios.SampleObjectsByNameWithoutId | sample-app/router.ts:23-28 | dispatching `{name: 'objects'}` builds `/objects`, because the parameter is optional: the objects route becomes current with `{}` and `{name: 'objects', params: {}}` is pushed |
| Scenarios.SampleNotFoundByNameWithoutParams | src/index.ts:89-101 | a name whose builder needs a missing parameter finds no route: state and history stay as they were, and dispatch still returns `true` |
| Scenarios.SampleSearchRedirects | sample-app/router.ts:29-33 | a redirect route redirects to its target and changes neither state nor history |

## Left out

- Vue rendering and reactivity are not modelled. This covers `RouteView`'s rendering, the `RouteLink`/`RouteName` elements and click handlers, `watch`/`ref`, and `install`. Only the derived flags and the `route` prop are modelled.
- `scrollHash` is not modelled: it is DOM scrolling.
- `isCurentPath` and the `route-link-hyper-active` flag are not modelled: they read `window.location`.
- Assigning `window.location.href` is not performed; a redirect is only an outcome value.
- `console` logging is left out.
- The module-level `router` singleton is left out. So is the registration of the `popstate` listener: `HistoryPopState` is the listener's body.
- Browser history moves are outside the engine. On back or forward the browser moves its own position before the event fires, so `HistoryPopState` takes the history as given, and the event's state is a separate input.
- The history entry of the initial page load has a null state. An empty history stands for that.
- Evaluating a `props` function, and the component values themselves, are left out: they are opaque host values (`HostRef`).
- Views.ViewRouteProp describes only what one render adds. The source writes the descriptor into the route's own static `props` object, which is shared by reference with the route definition. A `props` object shared with a route without `routeProp` therefore keeps a stale `route` entry from an earlier render, and that stale entry is not modelled.
- path-to-regexp's pattern language and the `URL` parser are not modelled. They are abstract functions, and the scenarios use a small stand-in for them. The stand-in's catch-all captures the rest of the pathname as a single segment.
- Navigation.SetPath and Navigation.SetName do not model `history.pushState` throwing. The browser refuses a URL of another origin (an absolute path such as `https://other.example/contact`) with a `SecurityError`. That happens after the state is set, and the exception then leaves `dispatch`. The model reports a navigation with the entry pushed. Modelling it would need the browser's same-origin rule.
- Records.ShallowIsEqual compares values as wholes. The source compares the nested `params` object by reference. The object read back from `history.state` is a copy, so in a browser a name target that carries params is never recognised either. The model recognises it when the params are equal.
- Navigation.Dispatch does not tell apart a name target whose `params` key is present but `undefined` from one that omits the key. The source counts that key, so it is one more case where the duplicate check misses.
- Navigation.HistoryPopState keeps only the `name`, `params` and `path` keys of the state object, with the types the router writes. A non-string `name` or `path` put there by other code is not modelled.
- Numbers in parameter and metadata values are whole numbers; floating point is not modelled.
- `paramsToProps`, a router options argument, and a `false` result for failed navigation are not modelled. The code has none of them: `createRouter` takes only the routes, and `dispatch` returns `true` even when nothing matched. The model follows the code.

## Findings

| source | as written | input that shows it | evidently intended | confidence | as-written member | corrected member |
|---|---|---|---|---|---|---|
| src/index.ts:163-166 | the duplicate check compares `history.state` with the target exactly as given. `setName` pushes `{name, params: {}}` for a target without params, which has one key more than `{name}`, so the check never fires | on the test suite's table, `dispatch({name: 'contact'})` twice: the second call pushes a second identical `{name: 'contact', params: {}}` entry | a second dispatch of the target on top of the history is ignored, as it is for path targets | medium, not executed | NavigationProperties.DispatchRepeatsBareName | Navigation.DispatchDeduplicated |
