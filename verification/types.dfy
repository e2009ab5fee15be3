/** The route descriptors an application hands to the router (src/types.ts). */
module Types {

  /** Present or absent, in place of an optional property or `undefined`. */
  datatype Option<+T> = None | Some(value: T)

  /** A parameter or metadata value: the strings, numbers and booleans an application
      passes, and the list of segments a wildcard capture yields. Numbers are whole
      numbers here; floating point is not modelled. */
  datatype Value = Text(text: string) | Number(number: int) | Flag(flag: bool) | Segments(segments: seq<string>)

  /** A parameter record, `Record<string, any>`. */
  type Params = map<string, Value>

  /** The `{}` a missing parameter record defaults to. */
  function OrEmpty(p: Option<Params>): Params
  {
    if p.Some? then p.value else map[]
  }

  /** A host value (a view component, a props function) the router stores and hands
      on but never looks inside. */
  datatype HostRef = HostRef(id: nat)

  /** The props of a component route: a fixed record or a function of the route. */
  datatype Props = StaticProps(values: Params) | ComputedProps(fn: HostRef)

  /** A route: every route has a `path` pattern, an optional `name` and optional
      `meta`; it either shows a component or redirects the browser elsewhere. */
  datatype Route =
    | ComponentRoute(path: string, name: Option<string>, meta: Option<Params>,
                     component: HostRef, props: Option<Props>, routeProp: Option<bool>)
    | RedirectRoute(path: string, name: Option<string>, meta: Option<Params>, redirect: string)

  /** A route as a plain object, before the variant is decided: the fields of both
      variants, each possibly absent. */
  datatype RouteObject = RouteObject(
    path: string, name: Option<string>, meta: Option<Params>,
    component: Option<HostRef>, props: Option<Props>, routeProp: Option<bool>,
    redirect: Option<string>)

  /** Decides the variant the way the router does: an object with a `component` is a
      component route, whatever else it carries; only an object without one is a
      redirect route. The object must have one of the two fields, as the `Route`
      type demands. */
  function Classify(o: RouteObject): (r: Route)
    requires o.component.Some? || o.redirect.Some?
    ensures r.path == o.path && r.name == o.name && r.meta == o.meta
    ensures r.ComponentRoute? <==> o.component.Some?
    ensures r.ComponentRoute? ==>
      r.component == o.component.value && r.props == o.props && r.routeProp == o.routeProp
    ensures r.RedirectRoute? ==> o.component.None? && r.redirect == o.redirect.value
  {
    if o.component.Some? then
      ComponentRoute(o.path, o.name, o.meta, o.component.value, o.props, o.routeProp)
    else
      RedirectRoute(o.path, o.name, o.meta, o.redirect.value)
  }
}
