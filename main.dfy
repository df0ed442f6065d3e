/**
 The `Dynexpress` controller of src/main.js: it sorts the `routers` argument
 into an inline array or a `.js` module path, resolves the routes, then finds a
 port, builds the application and binds it, and records the instance only once
 it is listening.
 */
module Main {
  import opened Outcomes
  import opened Ports
  import opened Express
  import opened Registry

  // ----- Classifying the `routers` argument -----

  datatype RoutersKind = ArrayKind | FileKind

  /** The last segment of a `/`-separated path. */
  function Basename(p: string): (b: string)
    ensures '/' !in b
    ensures |b| <= |p| && b == p[|p| - |b|..]
    ensures |b| == |p| || p[|p| - |b| - 1] == '/'
  {
    if p == [] || p[|p| - 1] == '/' then [] else Basename(p[..|p| - 1]) + [p[|p| - 1]]
  }

  /** `path.extname(p) === ".js"`: the last segment ends in `.js` with something before the dot. */
  predicate HasJsExtension(p: string): (r: bool)
    ensures r <==> |p| > 3 && p[|p| - 3..] == ".js" && p[|p| - 4] != '/'
  {
    var b := Basename(p);
    |b| > 3 && b[|b| - 3..] == ".js"
  }

  /**
   `isRoutersArrayOrFile(routers)` with the file check it evidently means:
   an array is `"array"`, an existing `.js` path is `"file"`, a missing one
   throws naming the file, and anything else throws.
   */
  function IsRoutersArrayOrFile(routers: RouterSource, fileExists: string -> bool): (r: Result<RoutersKind>)
    ensures r == Ok(ArrayKind) <==> routers.RouteArray?
    ensures r == Ok(FileKind) <==>
      routers.RouteString? && HasJsExtension(routers.text) && fileExists(routers.text)
    ensures r.Err? && routers.RouteString? && HasJsExtension(routers.text) ==>
      r.error == FileMissing(routers.text)
    ensures r.Err? && !(routers.RouteString? && HasJsExtension(routers.text)) ==>
      r.error == InvalidRouters
  {
    match routers
    case RouteArray(_) => Ok(ArrayKind)
    case RouteString(file) =>
      if !HasJsExtension(file) then Err(InvalidRouters)
      else if fileExists(file) then Ok(FileKind)
      else Err(FileMissing(file))
    case OtherValue => Err(InvalidRouters)
  }

  /**
   `isRoutersArrayOrFile` as the module has it: `fs` is used but never
   required, so looking it up on the `.js` branch throws a ReferenceError
   before any file is consulted. Only an array is ever accepted.
   */
  function IsRoutersArrayOrFileAsWritten(routers: RouterSource): (r: Result<RoutersKind>)
    ensures r.Ok? <==> routers.RouteArray?
    ensures r.Ok? ==> r.value == ArrayKind
    ensures r.Err? && routers.RouteString? && HasJsExtension(routers.text) ==>
      r.error == ReferenceError("fs")
  {
    match routers
    case RouteArray(_) => Ok(ArrayKind)
    case RouteString(file) =>
      if HasJsExtension(file) then Err(ReferenceError("fs")) else Err(InvalidRouters)
    case OtherValue => Err(InvalidRouters)
  }

  /**
   A route module that exists is rejected as written and accepted once `fs`
   is in scope: with the code as it stands, `newServer` returns `false` for
   every file source.
   */
  lemma ExistingRouteFileRejectedAsWritten(fileExists: string -> bool)
    requires fileExists("routes.js")
    ensures IsRoutersArrayOrFileAsWritten(RouteString("routes.js")) == Err(ReferenceError("fs"))
    ensures IsRoutersArrayOrFile(RouteString("routes.js"), fileExists) == Ok(FileKind)
  {
    BasenameWithoutSeparator("routes.js");
  }

  /** Away from the `.js` branch the code as written and the corrected classification agree. */
  lemma AsWrittenAgreesOffFileBranch(routers: RouterSource, fileExists: string -> bool)
    requires !(routers.RouteString? && HasJsExtension(routers.text))
    ensures IsRoutersArrayOrFileAsWritten(routers) == IsRoutersArrayOrFile(routers, fileExists)
  {
  }

  lemma {:induction false} BasenameWithoutSeparator(p: string)
    requires forall i :: 0 <= i < |p| ==> p[i] != '/'
    ensures Basename(p) == p
  {
    if p != [] {
      BasenameWithoutSeparator(p[..|p| - 1]);
    }
  }

  /** The routes `newServer` registers: the array itself, or what the loader makes of the file. */
  function Resolve(routers: RouterSource, env: Env): (r: Option<seq<Route>>)
    ensures routers.RouteArray? ==> r == Some(routers.routes)
    ensures IsRoutersArrayOrFile(routers, env.fileExists).Err? ==> r.None?
    ensures IsRoutersArrayOrFile(routers, env.fileExists) == Ok(FileKind) ==> r == env.preload(routers)
    ensures r.Some? && !routers.RouteArray? ==>
      && routers.RouteString? && HasJsExtension(routers.text) && env.fileExists(routers.text)
      && r == env.preload(routers)
  {
    match IsRoutersArrayOrFile(routers, env.fileExists)
    case Err(_) => None
    case Ok(ArrayKind) => Some(routers.routes)
    case Ok(FileKind) => env.preload(routers)
  }

  /**
   The first steps of `newServer`: classify `routers`, then take the array
   as it is or load the file. `None` where either step throws.
   */
  method ResolveRoutes(routers: RouterSource, env: Env) returns (appRoutes: Option<seq<Route>>)
    ensures appRoutes == Resolve(routers, env)
  {
    var routersType := IsRoutersArrayOrFile(routers, env.fileExists);
    if routersType.Err? {
      return None;
    }
    if routersType.value == ArrayKind {
      appRoutes := Some(routers.routes);
    } else {
      appRoutes := env.preload(routers);
    }
  }

  // ----- The controller -----

  class Dynexpress {
    const registry: Registry
    const viewspath: string
    const publicpath: string

    ghost predicate Valid()
      reads this, registry, registry.host
    {
      registry.Valid()
    }

    /** An empty registry over `host`, with the default views and static directories. */
    constructor (host: Host, viewspath: string, publicpath: string)
      ensures Valid() && fresh(registry)
      ensures registry.host == host && registry.appInstances == map[]
      ensures this.viewspath == viewspath && this.publicpath == publicpath
    {
      registry := new Registry(host);
      this.viewspath := viewspath;
      this.publicpath := publicpath;
    }

    /**
     `newServer(config, urlcomplete)`. A name already present is a success that
     changes nothing. Otherwise the attempt is all-or-nothing: if resolving the
     routes, finding a port, registering a route or listening fails, the answer
     is `false` and neither the registry nor the host changes; if all succeed,
     exactly one entry is added under the name, holding the configuration and
     the bound port, and the answer is `true` or the URL.
     */
    method NewServer(config: Config, wantsUrl: bool, env: Env) returns (reply: Reply)
      requires Valid()
      modifies registry, registry.host
      ensures Valid()
      ensures config.name in old(registry.appInstances) ==>
        && reply == Success
        && registry.appInstances == old(registry.appInstances)
        && registry.host.occupied == old(registry.host.occupied)
      ensures config.name !in old(registry.appInstances) &&
              CreatedPort(Resolve(config.routers, env), old(registry.host.occupied), config.port, env.listenFails).None? ==>
        && reply == Failure
        && registry.appInstances == old(registry.appInstances)
        && registry.host.occupied == old(registry.host.occupied)
      ensures config.name !in old(registry.appInstances) &&
              CreatedPort(Resolve(config.routers, env), old(registry.host.occupied), config.port, env.listenFails).Some? ==>
        var port := CreatedPort(Resolve(config.routers, env), old(registry.host.occupied), config.port, env.listenFails).value;
        && reply == Answer(port, wantsUrl)
        && config.name in registry.appInstances
        && var instance := registry.appInstances[config.name];
        && registry.appInstances == old(registry.appInstances)[config.name := instance]
        && instance == Instance(instance.app, Listener(port), config.routers, config.pathViews, config.pathPublic, port)
        && fresh(instance.app)
        && instance.app.routes == BindAll(Resolve(config.routers, env).value)
        && instance.app.views == PathOr(config.pathViews, viewspath)
        && instance.app.assets == PathOr(config.pathPublic, publicpath)
        && registry.host.occupied == old(registry.host.occupied) + {port}
    {
      if config.name in registry.appInstances {
        return Success;
      }
      var appRoutes := ResolveRoutes(config.routers, env);
      if appRoutes.None? {
        return Failure;
      }
      var found, _ := FindAvailablePort(registry.host, config.port, DefaultAttempts);
      if found.Err? {
        return Failure;
      }
      var availablePort := found.value;
      var app := new App(PathOr(config.pathViews, viewspath), PathOr(config.pathPublic, publicpath));
      var registered := SetupAppRoutes(app, appRoutes.value);
      if !registered {
        return Failure;
      }
      var listening := registry.host.Listen(availablePort, env.listenFails);
      if !listening {
        return Failure;
      }
      registry.Record(config.name,
        Instance(app, Listener(availablePort), config.routers, config.pathViews, config.pathPublic, availablePort));
      reply := if wantsUrl then SuccessUrl(Url(availablePort)) else Success;
    }

    /**
     `resetServer(serverName)`. An absent name throws; a close error is
     propagated with the entry kept. Otherwise the instance is stopped and
     created again from its recorded routers and paths, starting the port
     search at the port it had: on success it is back on that same port with
     the routes its configuration resolves to (routes added later by
     `addNewRoute` are gone); on failure it throws and the name stays absent.
     */
    method ResetServer(serverName: string, env: Env) returns (r: Result<Reply>)
      requires Valid()
      modifies registry, registry.host
      ensures Valid()
      ensures serverName !in old(registry.appInstances) ==>
        && r == Err(NotFound(serverName))
        && registry.appInstances == old(registry.appInstances)
        && registry.host.occupied == old(registry.host.occupied)
      ensures serverName in old(registry.appInstances) && env.closeFails ==>
        && r == Err(CloseFailed(serverName))
        && registry.appInstances == old(registry.appInstances)
        && registry.host.occupied == old(registry.host.occupied)
      ensures serverName in old(registry.appInstances) && !env.closeFails ==>
        var before := old(registry.appInstances[serverName]);
        var routes := Resolve(before.routers, env);
        if routes.None? || !AllRegistrable(routes.value) || env.listenFails then
          && r == Err(CreateFailed(serverName))
          && registry.appInstances == old(registry.appInstances) - {serverName}
          && registry.host.occupied == old(registry.host.occupied) - {before.port}
        else
          && r == Ok(Success)
          && serverName in registry.appInstances
          && var after := registry.appInstances[serverName];
          && registry.appInstances == old(registry.appInstances)[serverName := after]
          && after == Instance(after.app, Listener(before.port), before.routers, before.pathViews, before.pathPublic, before.port)
          && fresh(after.app)
          && after.app.routes == BindAll(routes.value)
          && after.app.views == PathOr(before.pathViews, viewspath)
          && after.app.assets == PathOr(before.pathPublic, publicpath)
          && registry.host.occupied == old(registry.host.occupied)
    {
      if serverName !in registry.appInstances {
        return Err(NotFound(serverName));
      }
      var instance := registry.appInstances[serverName];
      var stopped := registry.StopServer(serverName, env.closeFails);
      if stopped.Err? {
        return Err(stopped.error);
      }
      FreedPortIsFoundFirst(old(registry.host.occupied), instance.port, DefaultAttempts);
      var config := Config(serverName, instance.routers, instance.port, instance.pathViews, instance.pathPublic);
      var result := NewServer(config, false, env);
      if result == Failure {
        return Err(CreateFailed(serverName));
      }
      r := Ok(result);
    }
  }

  /**
   Stopping an instance that was just created under a new name, with a clean
   close, leaves the registry and the host as they were before the creation.
   */
  method CreateThenStop(d: Dynexpress, config: Config, env: Env) returns (reply: Reply, stopped: Result<bool>)
    requires d.Valid() && config.name !in d.registry.appInstances && !env.closeFails
    modifies d.registry, d.registry.host
    ensures d.Valid()
    ensures d.registry.appInstances == old(d.registry.appInstances)
    ensures d.registry.host.occupied == old(d.registry.host.occupied)
    ensures reply == Failure <==> stopped == Err(NotFound(config.name))
    ensures reply != Failure <==> stopped == Ok(true)
  {
    reply := d.NewServer(config, false, env);
    stopped := d.registry.StopServer(config.name, env.closeFails);
  }
}
