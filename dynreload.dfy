/**
 The `Dynexpress` controller of samples/dynreload.js. It runs on the same
 registry as src/main.js but does not classify `routers`: every value goes to
 the route loader. It also finds the port first, builds the application, and
 only then loads the routes.
 */
module Dynreload {
  import opened Outcomes
  import opened Ports
  import opened Express
  import opened Registry

  class Dynexpress {
    const registry: Registry
    const viewspath: string
    const publicpath: string

    ghost predicate Valid()
      reads this, registry, registry.host
    {
      registry.Valid()
    }

    /** An empty registry over `host`, with the default views and static directories. */
    constructor (host: Host, viewspath: string, publicpath: string)
      ensures Valid() && fresh(registry)
      ensures registry.host == host && registry.appInstances == map[]
      ensures this.viewspath == viewspath && this.publicpath == publicpath
    {
      registry := new Registry(host);
      this.viewspath := viewspath;
      this.publicpath := publicpath;
    }

    /**
     `newServer(config, urlcomplete)`. A name already present is a success that
     changes nothing. Otherwise, if finding a port, loading the routes,
     registering one of them or listening fails, the answer is `false` and
     neither the registry nor the host changes. Probing leaves the host as it
     was, so running the search before the loader changes no outcome. If all
     succeed, exactly one entry is added under the name, holding the
     configuration and the bound port, and the answer is `true` or the URL.
     */
    method NewServer(config: Config, wantsUrl: bool, env: Env) returns (reply: Reply)
      requires Valid()
      modifies registry, registry.host
      ensures Valid()
      ensures config.name in old(registry.appInstances) ==>
        && reply == Success
        && registry.appInstances == old(registry.appInstances)
        && registry.host.occupied == old(registry.host.occupied)
      ensures config.name !in old(registry.appInstances) &&
              CreatedPort(env.preload(config.routers), old(registry.host.occupied), config.port, env.listenFails).None? ==>
        && reply == Failure
        && registry.appInstances == old(registry.appInstances)
        && registry.host.occupied == old(registry.host.occupied)
      ensures config.name !in old(registry.appInstances) &&
              CreatedPort(env.preload(config.routers), old(registry.host.occupied), config.port, env.listenFails).Some? ==>
        var port := CreatedPort(env.preload(config.routers), old(registry.host.occupied), config.port, env.listenFails).value;
        && reply == Answer(port, wantsUrl)
        && config.name in registry.appInstances
        && var instance := registry.appInstances[config.name];
        && registry.appInstances == old(registry.appInstances)[config.name := instance]
        && instance == Instance(instance.app, Listener(port), config.routers, config.pathViews, config.pathPublic, port)
        && fresh(instance.app)
        && instance.app.routes == BindAll(env.preload(config.routers).value)
        && instance.app.views == PathOr(config.pathViews, viewspath)
        && instance.app.assets == PathOr(config.pathPublic, publicpath)
        && registry.host.occupied == old(registry.host.occupied) + {port}
    {
      if config.name in registry.appInstances {
        return Success;
      }
      var found, _ := FindAvailablePort(registry.host, config.port, DefaultAttempts);
      if found.Err? {
        return Failure;
      }
      var availablePort := found.value;
      var app := new App(PathOr(config.pathViews, viewspath), PathOr(config.pathPublic, publicpath));
      var appRoutes := env.preload(config.routers);
      if appRoutes.None? {
        return Failure;
      }
      var registered := SetupAppRoutes(app, appRoutes.value);
      if !registered {
        return Failure;
      }
      var listening := registry.host.Listen(availablePort, env.listenFails);
      if !listening {
        return Failure;
      }
      registry.Record(config.name,
        Instance(app, Listener(availablePort), config.routers, config.pathViews, config.pathPublic, availablePort));
      reply := if wantsUrl then SuccessUrl(Url(availablePort)) else Success;
    }

    /**
     `resetServer(serverName)`. An absent name throws; a close error is
     propagated with the entry kept. Otherwise the instance is stopped and
     created again from its recorded routers and paths, starting the port
     search at the port it had: on success it is back on that same port with
     the routes the loader yields (routes added later by `addNewRoute` are
     gone); on failure it throws and the name stays absent.
     */
    method ResetServer(serverName: string, env: Env) returns (r: Result<Reply>)
      requires Valid()
      modifies registry, registry.host
      ensures Valid()
      ensures serverName !in old(registry.appInstances) ==>
        && r == Err(NotFound(serverName))
        && registry.appInstances == old(registry.appInstances)
        && registry.host.occupied == old(registry.host.occupied)
      ensures serverName in old(registry.appInstances) && env.closeFails ==>
        && r == Err(CloseFailed(serverName))
        && registry.appInstances == old(registry.appInstances)
        && registry.host.occupied == old(registry.host.occupied)
      ensures serverName in old(registry.appInstances) && !env.closeFails ==>
        var before := old(registry.appInstances[serverName]);
        var routes := env.preload(before.routers);
        if routes.None? || !AllRegistrable(routes.value) || env.listenFails then
          && r == Err(CreateFailed(serverName))
          && registry.appInstances == old(registry.appInstances) - {serverName}
          && registry.host.occupied == old(registry.host.occupied) - {before.port}
        else
          && r == Ok(Success)
          && serverName in registry.appInstances
          && var after := registry.appInstances[serverName];
          && registry.appInstances == old(registry.appInstances)[serverName := after]
          && after == Instance(after.app, Listener(before.port), before.routers, before.pathViews, before.pathPublic, before.port)
          && fresh(after.app)
          && after.app.routes == BindAll(routes.value)
          && after.app.views == PathOr(before.pathViews, viewspath)
          && after.app.assets == PathOr(before.pathPublic, publicpath)
          && registry.host.occupied == old(registry.host.occupied)
    {
      if serverName !in registry.appInstances {
        return Err(NotFound(serverName));
      }
      var instance := registry.appInstances[serverName];
      var stopped := registry.StopServer(serverName, env.closeFails);
      if stopped.Err? {
        return Err(stopped.error);
      }
      FreedPortIsFoundFirst(old(registry.host.occupied), instance.port, DefaultAttempts);
      var config := Config(serverName, instance.routers, instance.port, instance.pathViews, instance.pathPublic);
      var result := NewServer(config, false, env);
      if result == Failure {
        return Err(CreateFailed(serverName));
      }
      r := Ok(result);
    }
  }
}
