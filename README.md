# Dynexpress lifecycle controller, modelled in Dafny

Dynexpress runs several independent HTTP server instances inside one process.
Each instance has a logical name and is bound to a port found automatically
from a starting point. The `Dynexpress` class keeps a registry, `appInstances`,
that maps each name to its record: the application handle, the server handle,
the `routers`, `pathViews` and `pathPublic` it was created with, and the port it
is bound to. Four operations act on that registry:

- `newServer` creates an instance, or does nothing if the name already exists.
- `stopServer` closes an instance and removes it.
- `resetServer` stops an instance and creates it again from its recorded configuration.
- `addNewRoute` adds one route to a running instance.

The repository has two copies of the class. src/main.js first sorts `routers`
into an inline array or a `.js` module path. samples/dynreload.js skips that
step, always hands `routers` to the route loader, and looks for a port before it
loads the routes.

The model takes the outside world as given:

- The host's port state is a set of occupied ports (`Ports.Host`). Probing a
  port asks whether it is outside the set. Binding a listener adds the port and
  closing one removes it.
- A route table is a `seq<Binding>` field of an application object
  (`Express.App`). Registering a route appends to it.
- The outcomes decided elsewhere are parameters, bundled in `Registry.Env`:
  whether a file exists, what the route loader returns (or that it throws),
  whether the next listen reports an error, and whether the next close does.

Module layout:

- `Outcomes`: `Option`, `Result` and the error causes.
- `Ports`: the host, the search specification `FirstAvailable` and the search
  loop `FindAvailablePort`.
- `Express`: routes, lower-casing, the application handle and
  `SetupAppRoutes`.
- `Registry`: the records, the oracles, the URL, and the `Registry` class that
  holds `appInstances` with `StopServer` and `AddNewRoute`.
- `Main`: the src/main.js controller.
- `Dynreload`: the samples/dynreload.js controller.

Both controllers hold a `Registry`. Several methods are the same text in both
files, so each is modelled once and both controllers use that one member:

| operation | src/main.js | samples/dynreload.js | member |
|---|---|---|---|
| `setupAppRoutes` | 42-46 | 22-26 | `Express.SetupAppRoutes` |
| `findAvailablePort` | 60-67 | 40-47 | `Ports.FindAvailablePort` |
| `stopServer` | 121-137 | 88-104 | `Registry.Registry.StopServer` |
| `addNewRoute` | 162-171 | 129-138 | `Registry.Registry.AddNewRoute` |

The controller's guarantees, as the contracts state them:

- The registry invariant `Registry.Valid` holds after every operation. Every
  recorded instance listens on its own port, which the host counts as
  occupied, and no two instances share a port or an application handle.
- `newServer` on a name that already exists returns `true` and changes nothing.
- Otherwise `newServer` is all-or-nothing. It adds an entry only after the
  listener is bound. When any step fails it returns `false`, and neither the
  registry nor the host changes.
- `stopServer` removes an entry only when the close succeeds.
- On success, `resetServer` brings the instance back on the port it had, with
  the same configuration and the routes that configuration yields.
- `addNewRoute` changes one route table only. It appends exactly one binding
  to it, or none when the verb is not a route method.

## Model

| member | source | states |
|---|---|---|
| `Ports.FirstAvailable` | src/main.js:60-66 | The port found lies in `[start, start+attempts)` and is free, and every lower candidate is taken. There is no port exactly when every candidate is taken. |
| `Ports.FindAvailablePort` | src/main.js:60-67 | Returns `FirstAvailable`'s port, or fails with `NoPortFound(maxAttempts)` exactly when there is none. It probes `start, start+1, …` in order and stops at the first free port, so a failed search probes exactly `maxAttempts` ports. |
| `Ports.FirstAvailableUnique` | samples/dynreload.js:40-47 | If a port is free and every candidate below it is taken, the search returns that port. |
| `Ports.FreedPortIsFoundFirst` | src/main.js:146-150 | A search that starts at a port just freed returns that port. |
| `Ports.SkipsOccupiedStart` | src/main.js:60-65 | With 3000 taken and the default budget of 10, the search from 3000 returns 3001. |
| `Ports.FailsWhenBudgetExhausted` | src/main.js:60-66 | With 3000 to 3009 all taken, the search from 3000 with the default budget finds nothing. |
| `Ports.Host.IsPortAvailable` | src/main.js:48-58 | A probe reports a port free exactly when no listener holds it, and changes nothing. |
| `Ports.Host.Listen` | src/main.js:113-119 | Binding succeeds exactly when the port is free and no listen error is reported. A bound port becomes occupied. A failed bind changes nothing. |
| `Ports.Host.Close` | src/main.js:128-135 | A close succeeds exactly when no error is reported, and then frees the port. A failed close changes nothing. |
| `Express.Lower` | src/main.js:44 | Keeps the length, maps each ASCII capital to its lower-case letter (code point plus 32), and leaves every other character as it was. |
| `Express.RegistrablePrefix` | src/main.js:43-45 | The number of routes `forEach` registers before the first one that throws: every route before it is registrable, and the one at it is not. |
| `Express.PathOr` | src/main.js:38-39 | `pathViews \|\| viewspath`: a given non-empty path is used; an absent or empty one falls back to the default. |
| `Express.App.constructor` | src/main.js:90-91 | A new application with an empty route table. Its views and static roots are the ones `setupAppMiddleware` chose. |
| `Express.App.Register` | src/main.js:169 | Appends exactly one binding under the lower-cased verb. If `app[verb]` is not a route method, it fails with `NotARouteMethod` and appends nothing. |
| `Express.SetupAppRoutes` | src/main.js:42-46 | Succeeds exactly when every route is registrable. The table gains the bindings of the registrable prefix, in order. |
| `Registry.Decimal` | src/main.js:106 | The port prints as a non-empty string of decimal digits with no leading zero. |
| `Registry.DecimalRoundTrip` | src/main.js:106 | Reading the printed digits back gives the number. |
| `Registry.Url` | samples/dynreload.js:73 | The URL `http://localhost:<port>/` gives back exactly its port when read with `PortOfUrl`. |
| `Registry.Answer` | src/main.js:106 | A success returns a URL naming the bound port when `urlcomplete === "url"`, and `true` otherwise. It never returns `false`. |
| `Registry.CreatedPort` | src/main.js:77-95 | A creation binds a port exactly when the routes resolve, all of them register, the search finds a port and the listen succeeds. That port lies in `[start, start+10)` and was free. |
| `Registry.Registry.constructor` | src/main.js:9 | The registry starts empty and satisfies its invariant. |
| `Registry.Registry.Record` | src/main.js:97-104 | Adds exactly one entry under a new name, for a listener on a port no other entry holds, and keeps the invariant. |
| `Registry.Registry.StopServer` | src/main.js:121-137 | An absent name fails with `NotFound` and changes nothing. A close error fails with `CloseFailed` and keeps the entry and the port. A clean close returns `true`, removes exactly that name and frees its port. |
| `Registry.Registry.AddNewRoute` | src/main.js:162-171 | An absent name fails with `NotFound`. Otherwise that instance's table gains exactly the one binding, or nothing when the verb raises. Registry keys, ports and every other instance's routes are unchanged. |
| `Main.Basename` | src/main.js:21 | The whole last path segment: it contains no `/`, ends the path, and either is the whole path or is preceded by a `/`. |
| `Main.HasJsExtension` | src/main.js:21 | True exactly when the path ends in `.js` and the character before the dot exists and is not `/`. |
| `Main.Resolve` | src/main.js:77-87 | An array gives its own routes. A classification error gives none. A path classified `"file"` gives exactly what the loader returns for it, and any other result comes from such a path. `NewServer` computes it through the method `Main.ResolveRoutes`. |
| `Main.IsRoutersArrayOrFile` | src/main.js:14-32 | An array gives `"array"`. An existing path ending in `.js` gives `"file"`. A missing `.js` path fails with `FileMissing`, and every other value fails with `InvalidRouters`. |
| `Main.IsRoutersArrayOrFileAsWritten` | src/main.js:21-31 | As written, only an array is accepted. Every `.js` path fails with `ReferenceError("fs")`. |
| `Main.ExistingRouteFileRejectedAsWritten` | src/main.js:23 | The existing module `routes.js` is rejected as written and classified `"file"` once `fs` is in scope. |
| `Main.AsWrittenAgreesOffFileBranch` | src/main.js:14-31 | Away from `.js` paths, the written and the corrected classification agree. |
| `Main.Dynexpress.constructor` | src/main.js:8-12 | An empty registry over the given host, with the given default views and static directories. |
| `Main.Dynexpress.NewServer` | src/main.js:69-111 | An existing name returns `true` and nothing changes. If classification, loading, the port search, route registration or the bind fails, it returns `false` and the registry and host are unchanged. On success exactly one entry is added under the name, holding the given `routers`/`pathViews`/`pathPublic`, a fresh app with the resolved routes and the port `CreatedPort` gives. That port is now occupied, and the reply is the URL or `true`. |
| `Main.Dynexpress.ResetServer` | src/main.js:139-159 | An absent name fails with `NotFound`. A close error fails with `CloseFailed` and the entry is kept. Otherwise the instance is stopped and recreated from the recorded configuration, with the search starting at the old port. Success returns `true` with the instance back on the same port, a fresh app holding only the configured routes and using the recorded views and static roots (or the defaults), and the host as before. Failure returns `CreateFailed`; the name stays absent and the old port is freed. |
| `Main.CreateThenStop` | src/main.js:69-137 | Creating an instance under a new name and then stopping it with a clean close leaves the registry and the host as they were. |
| `Dynreload.Dynexpress.constructor` | samples/dynreload.js:8-12 | An empty registry over the given host, with the given default views and static directories. |
| `Dynreload.Dynexpress.NewServer` | samples/dynreload.js:49-78 | An existing name returns `true` and nothing changes. If the port search, the loader, route registration or the bind fails, it returns `false` and the registry and host are unchanged. On success exactly one entry is added, holding the configuration, a fresh app with the loaded routes and the bound port, and the reply is the URL or `true`. |
| `Dynreload.Dynexpress.ResetServer` | samples/dynreload.js:106-126 | As for src/main.js, except that the routes come from the loader: `NotFound` and `CloseFailed` leave everything in place. Success brings the instance back on its old port with the loaded routes and the recorded views and static roots. Failure leaves the name absent. |

## Left out

- Socket work in `isPortAvailable`, `startServerAsync` and `server.close` is not modelled. The occupied-port set of `Ports.Host` and the listen and close error flags of `Registry.Env` replace it.
- `Config.port` is a natural number. A port passed as a string (which `startPort + i` concatenates instead of adding), a negative port and a missing one are not modelled.
- The port range check of the runtime is not modelled. A port above 65535, or port 0 meaning "any port", is treated like any other number.
- The race between probing a port and binding it is not modelled. Neither is the race between two concurrent `newServer` calls for the same new name. The operations run one after another.
- `setupAppMiddleware` is reduced to the choice of views and static roots (`pathViews || viewspath`, `pathPublic || publicpath`). The body parsers and the template engine are not modelled.
- The route loader `dynreload.preload` is the function `Env.preload`. It returns `None` where the loader throws or returns something that is not a route list.
- Route handlers are opaque. A handler that is not a function, which the framework rejects, is not modelled.
- The default directories built with `path.join(__dirname, …)` are constructor parameters.
- `console` logging and the text of error messages are left out. Errors are the constructors of `Outcomes.Error`.
- `fs.existsSync` is the function `Env.fileExists`. The controller model uses the corrected classification (see Findings).
- `Main.HasJsExtension` is simpler than `path.extname`. It checks that the part after the last `/` ends in `.js` with at least one character before the dot. Trailing separators and Windows `\` separators are not handled as `path.extname` does.
- `Express.Lower` lower-cases ASCII letters only. Other Unicode case mappings of `toLowerCase` are left out.
- `Express.RouteMethods` is the list of lower-cased HTTP methods the runtime reports, plus `all`. A verb that names some other function of the application object, such as `use` or `set`, is treated as not registrable.
- `urlcomplete` is a boolean: true exactly when the caller passed the string `"url"`.
- `routers` values other than an array or a string are all `OtherValue`.
- Main.Dynexpress.ResetServer: the recorded `routers` is a snapshot taken at creation. The source keeps the caller's array by reference and hands that same reference back to `newServer` on reset, so later changes to the array or its route objects would reach the new instance; the model does not capture that aliasing.
- Dynreload.Dynexpress.ResetServer: the same snapshot limit. Later changes to the caller's `routers` array are not modelled.
- The port-search failure carries only the attempt count, as the code's error (src/main.js:66) does.

## Findings

| source | as written | input that shows it | evidently intended | confidence | as-written member | corrected member |
|---|---|---|---|---|---|---|
| src/main.js:23 | `fs.existsSync(routers)` is called, but `fs` is never required (lines 1-5). Every `.js` path throws a ReferenceError, so `newServer` returns `false` for every route file. | `routers = "routes.js"`, a file that exists | require `fs` so that an existing `.js` module is classified `"file"` and its routes are loaded | high; not executed | `Main.IsRoutersArrayOrFileAsWritten`, `Main.ExistingRouteFileRejectedAsWritten` | `Main.IsRoutersArrayOrFile` |
