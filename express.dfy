/**
 The part of the web framework the controller relies on: an application handle
 whose route table grows by one `(verb, path, handler)` binding each time a
 route is registered, and the view and asset directories its middleware uses.
 Handlers are opaque.
 */
module Express {
  import opened Outcomes

  /** A route handler; the controller never looks inside one. */
  datatype Handler = Handler(id: nat)

  /** A route as callers and the route loader describe it. */
  datatype Route = Route(verb: string, path: string, handler: Handler)

  /** A route as it sits in an application's table, under its lower-cased verb. */
  datatype Binding = Binding(verb: string, path: string, handler: Handler)

  /**
   The names under which an application exposes a route-registration function:
   the HTTP methods, lower-cased, and `all`. `app[verb]` is undefined for any
   other name, so calling it raises a TypeError.
   */
  const RouteMethods: set<string> := {
    "acl", "bind", "checkout", "connect", "copy", "delete", "get", "head",
    "link", "lock", "m-search", "merge", "mkactivity", "mkcalendar", "mkcol",
    "move", "notify", "options", "patch", "post", "propfind", "proppatch",
    "purge", "put", "rebind", "report", "search", "source", "subscribe",
    "trace", "unbind", "unlink", "unlock", "unsubscribe", "all"
  }

  function LowerChar(c: char): char
  {
    if 'A' <= c <= 'Z' then (c as int + 32) as char else c
  }

  /** `toLowerCase` over ASCII: upper-case letters become lower-case, nothing else moves. */
  function Lower(s: string): (r: string)
    ensures |r| == |s|
    ensures forall i :: 0 <= i < |s| ==> !('A' <= r[i] <= 'Z')
    ensures forall i :: 0 <= i < |s| && !('A' <= s[i] <= 'Z') ==> r[i] == s[i]
    ensures forall i :: 0 <= i < |s| && 'A' <= s[i] <= 'Z' ==> r[i] == (s[i] as int + 32) as char
  {
    seq(|s|, i requires 0 <= i < |s| => LowerChar(s[i]))
  }

  /** `app[verb.toLowerCase()]` is a registration function. */
  predicate IsRegistrable(r: Route)
  {
    Lower(r.verb) in RouteMethods
  }

  /** What registering `r` adds to a route table. */
  function Bind(r: Route): Binding
  {
    Binding(Lower(r.verb), r.path, r.handler)
  }

  /** The bindings registering all of `rs`, in order, adds. */
  function BindAll(rs: seq<Route>): seq<Binding>
  {
    seq(|rs|, i requires 0 <= i < |rs| => Bind(rs[i]))
  }

  /** How many routes at the front of `rs` register before the first one that raises. */
  function RegistrablePrefix(rs: seq<Route>): (k: nat)
    ensures k <= |rs|
    ensures forall i :: 0 <= i < k ==> IsRegistrable(rs[i])
    ensures k < |rs| ==> !IsRegistrable(rs[k])
  {
    if rs == [] || !IsRegistrable(rs[0]) then 0 else 1 + RegistrablePrefix(rs[1..])
  }

  /** Every route of `rs` registers. */
  predicate AllRegistrable(rs: seq<Route>)
  {
    forall i :: 0 <= i < |rs| ==> IsRegistrable(rs[i])
  }

  /** Binding a concatenation binds each part. */
  lemma BindAllAppend(rs: seq<Route>, r: Route)
    ensures BindAll(rs + [r]) == BindAll(rs) + [Bind(r)]
  {
  }

  /** `value || fallback` for a path option: an absent or empty path falls back. */
  function PathOr(value: Option<string>, fallback: string): (r: string)
    ensures value.Some? && value.value != "" ==> r == value.value
    ensures value.None? || value.value == "" ==> r == fallback
  {
    if value.Some? && value.value != "" then value.value else fallback
  }

  /** An application handle: its middleware directories and its route table. */
  class App {
    const views: string
    const assets: string
    var routes: seq<Binding>

    /** `express()` followed by `setupAppMiddleware`, which fixes the views and static roots. */
    constructor (views: string, assets: string)
      ensures this.views == views && this.assets == assets
      ensures routes == []
    {
      this.views := views;
      this.assets := assets;
      routes := [];
    }

    /** `app[verb.toLowerCase()](path, handler)`: appends one binding, or raises and appends nothing. */
    method Register(r: Route) returns (result: Result<()>)
      modifies this
      ensures result.Ok? <==> IsRegistrable(r)
      ensures result.Err? ==> result.error == NotARouteMethod(Lower(r.verb))
      ensures routes == if result.Ok? then old(routes) + [Bind(r)] else old(routes)
    {
      var verb := Lower(r.verb);
      if verb !in RouteMethods {
        return Err(NotARouteMethod(verb));
      }
      routes := routes + [Binding(verb, r.path, r.handler)];
      result := Ok(());
    }
  }

  /**
   `setupAppRoutes(app, appRoutes)`: registers each route in order. The first
   route whose verb has no registration function raises; the routes before it
   stay registered on `app`.
   */
  method SetupAppRoutes(app: App, appRoutes: seq<Route>) returns (ok: bool)
    modifies app
    ensures ok <==> AllRegistrable(appRoutes)
    ensures app.routes == old(app.routes) + BindAll(appRoutes[..RegistrablePrefix(appRoutes)])
  {
    var i := 0;
    while i < |appRoutes|
      invariant i <= RegistrablePrefix(appRoutes)
      invariant app.routes == old(app.routes) + BindAll(appRoutes[..i])
    {
      var registered := app.Register(appRoutes[i]);
      if registered.Err? {
        return false;
      }
      BindAllAppend(appRoutes[..i], appRoutes[i]);
      assert appRoutes[..i + 1] == appRoutes[..i] + [appRoutes[i]];
      i := i + 1;
    }
    ok := true;
  }
}
