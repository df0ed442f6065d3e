/**
 The instance registry both controllers share: the records it holds, the
 outcomes the outside world decides (file existence, the route loader, listen
 and close errors), the URL a creation may return, and the two operations the
 controllers run unchanged on the registry, `stopServer` and `addNewRoute`.
 */
module Registry {
  import opened Outcomes
  import opened Ports
  import opened Express

  /** The `routers` argument: an array of routes, a string, or any other value. */
  datatype RouterSource =
    | RouteArray(routes: seq<Route>)
    | RouteString(text: string)
    | OtherValue

  /** The first argument of `newServer`; an absent path option is `None`. */
  datatype Config = Config(
    name: string,
    routers: RouterSource,
    port: nat,
    pathViews: Option<string>,
    pathPublic: Option<string>)

  /** The listening server handle, bound to one port. */
  datatype Listener = Listener(port: nat)

  /** What the registry records for a running instance. */
  datatype Instance = Instance(
    app: App,
    server: Listener,
    routers: RouterSource,
    pathViews: Option<string>,
    pathPublic: Option<string>,
    port: nat)

  /** What `newServer` returns: `true`, the instance's URL, or `false`. */
  datatype Reply = Success | SuccessUrl(url: string) | Failure

  /**
   The outcomes decided outside the controller: whether a file exists, what
   the route loader makes of a `routers` value (`None` when it throws), and
   whether the next listen or close reports an error.
   */
  datatype Env = Env(
    fileExists: string -> bool,
    preload: RouterSource -> Option<seq<Route>>,
    listenFails: bool,
    closeFails: bool)

  // ----- The URL of a created instance -----

  predicate IsDigits(s: string)
  {
    forall i :: 0 <= i < |s| ==> '0' <= s[i] <= '9'
  }

  function DigitChar(d: nat): char
    requires d < 10
  {
    ('0' as int + d) as char
  }

  /** A number as a template literal prints it: decimal digits, no leading zero. */
  function Decimal(n: nat): (s: string)
    ensures |s| > 0 && IsDigits(s)
    ensures n > 0 ==> s[0] != '0'
  {
    if n < 10 then [DigitChar(n)] else Decimal(n / 10) + [DigitChar(n % 10)]
  }

  /** The number a string of decimal digits denotes. */
  function DecimalValue(s: string): nat
    requires IsDigits(s)
  {
    if s == [] then 0 else 10 * DecimalValue(s[..|s| - 1]) + (s[|s| - 1] as int - '0' as int)
  }

  lemma {:induction false} DecimalRoundTrip(n: nat)
    ensures DecimalValue(Decimal(n)) == n
  {
    if n >= 10 {
      var s := Decimal(n);
      assert s[..|s| - 1] == Decimal(n / 10);
      DecimalRoundTrip(n / 10);
    }
  }

  const UrlPrefix: string := "http://localhost:"

  /** `http://localhost:<port>/`: the port it names can be read back out of it. */
  function Url(port: nat): (url: string)
    ensures PortOfUrl(url) == Some(port)
  {
    var url := UrlPrefix + Decimal(port) + "/";
    assert url[..|UrlPrefix|] == UrlPrefix;
    assert url[|UrlPrefix|..|url| - 1] == Decimal(port);
    DecimalRoundTrip(port);
    url
  }

  /** Reads the port back out of a URL of the form `Url` produces. */
  function PortOfUrl(url: string): Option<nat>
  {
    if |url| >= |UrlPrefix| + 2 && url[..|UrlPrefix|] == UrlPrefix && url[|url| - 1] == '/'
       && IsDigits(url[|UrlPrefix|..|url| - 1])
    then Some(DecimalValue(url[|UrlPrefix|..|url| - 1]))
    else None
  }

  /** A successful `newServer`'s return value: the URL when `url` was asked for, else `true`. */
  function Answer(port: nat, wantsUrl: bool): (r: Reply)
    ensures r != Failure
    ensures wantsUrl ==> r.SuccessUrl? && PortOfUrl(r.url) == Some(port)
    ensures !wantsUrl ==> r == Success
  {
    if wantsUrl then SuccessUrl(Url(port)) else Success
  }

  // ----- The outcome of a creation -----

  /**
   The port a creation binds when every step succeeds: the routes resolved,
   a port was found among the default number of candidates, every route
   registered and the listen reported no error. `None` when any step fails.
   */
  function CreatedPort(resolved: Option<seq<Route>>, occupied: set<nat>, start: nat, listenFails: bool)
    : (r: Option<nat>)
    ensures r.Some? <==>
      && resolved.Some? && AllRegistrable(resolved.value)
      && FirstAvailable(occupied, start, DefaultAttempts).Some?
      && !listenFails
    ensures r.Some? ==> start <= r.value < start + DefaultAttempts && r.value !in occupied
  {
    if resolved.None? || !AllRegistrable(resolved.value) || listenFails then None
    else FirstAvailable(occupied, start, DefaultAttempts)
  }

  // ----- The registry -----

  /** `appInstances`: the map from a logical name to its running instance. */
  class Registry {
    var appInstances: map<string, Instance>
    const host: Host

    /**
     Every recorded instance is listening on its own port, and no two share a
     port or an application handle.
     */
    ghost predicate Valid()
      reads this, host
    {
      && (forall n :: n in appInstances ==>
            appInstances[n].server.port == appInstances[n].port && appInstances[n].port in host.occupied)
      && (forall n, m :: n in appInstances && m in appInstances && n != m ==>
            appInstances[n].port != appInstances[m].port && appInstances[n].app != appInstances[m].app)
    }

    constructor (host: Host)
      ensures this.host == host && appInstances == map[]
      ensures Valid()
    {
      this.host := host;
      appInstances := map[];
    }

    /**
     `appInstances.set(name, instance)` for a name not yet present, once its
     listener is bound on a port no other instance holds.
     */
    method Record(name: string, instance: Instance)
      requires Valid()
      requires name !in appInstances
      requires instance.server.port == instance.port && instance.port in host.occupied
      requires forall n :: n in appInstances ==>
        appInstances[n].port != instance.port && appInstances[n].app != instance.app
      modifies this
      ensures Valid()
      ensures appInstances == old(appInstances)[name := instance]
    {
      appInstances := appInstances[name := instance];
    }

    /**
     `stopServer(serverName)`: an absent name throws and changes nothing; a
     close error is propagated and keeps the entry; a clean close removes
     exactly that entry and frees its port.
     */
    method StopServer(serverName: string, closeFails: bool) returns (r: Result<bool>)
      requires Valid()
      modifies this, host
      ensures Valid()
      ensures serverName !in old(appInstances) ==>
        && r == Err(NotFound(serverName))
        && appInstances == old(appInstances) && host.occupied == old(host.occupied)
      ensures serverName in old(appInstances) && closeFails ==>
        && r == Err(CloseFailed(serverName))
        && appInstances == old(appInstances) && host.occupied == old(host.occupied)
      ensures serverName in old(appInstances) && !closeFails ==>
        && r == Ok(true)
        && appInstances == old(appInstances) - {serverName}
        && host.occupied == old(host.occupied) - {old(appInstances[serverName].port)}
        && host.IsPortAvailable(old(appInstances[serverName].port))
    {
      if serverName !in appInstances {
        return Err(NotFound(serverName));
      }
      var instance := appInstances[serverName];
      var closed := host.Close(instance.server.port, closeFails);
      if !closed {
        return Err(CloseFailed(serverName));
      }
      appInstances := appInstances - {serverName};
      r := Ok(true);
    }

    /**
     `addNewRoute(serverName, newRoute)`: an absent name throws; otherwise the
     route is registered on that instance's live application, which gains
     exactly one binding (or none, when its verb raises). The registry, the
     ports and every other instance's routes are left as they were.
     */
    method AddNewRoute(serverName: string, newRoute: Route) returns (r: Result<()>)
      requires Valid()
      modifies if serverName in appInstances then {appInstances[serverName].app} else {}
      ensures Valid()
      ensures appInstances == old(appInstances) && host.occupied == old(host.occupied)
      ensures serverName !in appInstances ==> r == Err(NotFound(serverName))
      ensures serverName in appInstances ==>
        var app := appInstances[serverName].app;
        && (r.Ok? <==> IsRegistrable(newRoute))
        && (r.Err? ==> r.error == NotARouteMethod(Lower(newRoute.verb)))
        && app.routes == if r.Ok? then old(app.routes) + [Bind(newRoute)] else old(app.routes)
      ensures forall n :: n in appInstances && n != serverName ==>
        appInstances[n].app.routes == old(appInstances[n].app.routes)
    {
      if serverName !in appInstances {
        return Err(NotFound(serverName));
      }
      var instance := appInstances[serverName];
      r := instance.app.Register(newRoute);
    }
  }
}
