/** The foreign collaborators of the router, kept abstract: the path-to-regexp
    library's `match` and `compile`, and the `URL` parser. */
module PathLibrary {
  import opened Types

  /** What a compiled matcher says about a pathname. `MatchThrows` stands for the
      exception the library raises (for instance on a malformed percent-escape); the
      router does not catch it. */
  datatype MatchResult = Matched(params: Params) | NoMatch | MatchThrows

  /** The library, as four functions the router only ever applies:
      - `accepts(pattern)`: both `match(pattern)` and `compile(pattern)` compile it
        without throwing;
      - `matcher(pattern, pathname)`: the compiled matcher applied to a pathname;
      - `builder(pattern, params)`: the compiled path builder applied to a parameter
        record, `None` when it throws;
      - `pathnameOf(url)`: the `pathname` of the URL, resolved against a base;
        `None` when the `URL` constructor throws (an `http://` with no host, say). */
  datatype PathLib = PathLib(
    accepts: string -> bool,
    matcher: (string, string) -> MatchResult,
    builder: (string, Params) -> Option<string>,
    pathnameOf: string -> Option<string>)
}
