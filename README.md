# Request routing of the sandbox control plane's HTTP server

The control plane's HTTP server picks its handler in `Server.ServeHTTP` with
one expressionless Go `switch`. Each case tests the URL path with
`strings.HasPrefix` or `strings.Contains`, and a few also compare the path
with `==` or test the HTTP method. Go runs the first case whose condition
holds. A request that no case accepts reaches the `default` clause,
`http.NotFound`.

This project models that decision and proves what it promises:

- `strings.dfy` (module `GoStrings`) defines Go's `strings.HasPrefix` and
  `strings.Contains` over `seq<char>`. It relates them to Go's own
  definitions: a slice comparison, and "occurs at some index".
- `server.dfy` (module `Server`) defines:
  - the request method, as the router distinguishes it;
  - one tag per handler;
  - `Route(path, verb)`, the handler `ServeHTTP` runs, or `NotFound`;
  - the switch read as data: `Cases`, one entry per `case` clause in
    source order, and `FirstMatch`, Go's first-true-case rule.
- `switch.dfy` (module `Switch`) proves that `Route` is exactly the
  first-match reading of `Cases`. It follows that `Route` is `NotFound`
  exactly when no case condition holds.
- `routes.dfy` (module `RouteProperties`) states, prefix family by prefix
  family, which handler each kind of path reaches and for which methods.
  It also proves that every handler is reachable (`Witness`), and that the
  method matters only under `/apikeys`, `/quotas` and `/machine/health`.

## Model

| member | source | states |
|---|---|---|
| GoStrings.HasPrefix | server/server.go:54 | models `strings.HasPrefix`; its contract is stated by `GoStrings.HasPrefixBySlice` |
| GoStrings.Contains | server/server.go:74 | models `strings.Contains`, scanning left to right; its contract is stated by `GoStrings.ContainsIffOccurs` and `GoStrings.TooShortNotContained` |
| GoStrings.HasPrefixBySlice | server/server.go:54 | `HasPrefix(s, p)` holds exactly when `s` is at least as long as `p` and its first `len(p)` characters are `p`, which is how Go defines `strings.HasPrefix` |
| GoStrings.ContainsIffOccurs | server/server.go:74 | `Contains(s, sub)` holds exactly when `sub` occurs in `s` at some index, which is what Go promises for `strings.Contains` |
| GoStrings.TooShortNotContained | server/server.go:74 | a string shorter than `sub` never contains it |
| Server.MethodOf | server/server.go:90-103 | a method name is GET, POST or DELETE exactly when it equals `"GET"`, `"POST"` or `"DELETE"`, case-sensitively; every other name is `Other` |
| Server.Route | server/server.go:52-107 | models the whole `switch` of `ServeHTTP`: the handler it runs for a path and method, or `NotFound`; its contract is stated by `Switch.RouteIsFirstMatch`, `Switch.RouteIsFirstHolding` and the `RouteProperties` lemmas below |
| Server.FirstMatch | server/server.go:53-106 | Go's rule for an expressionless `switch` over `Server.Cases`, the 25 cases in source order, with `NotFound` as the `default`; its contract is stated by `Switch.FirstMatchSpec` |
| Switch.RouteIsFirstMatch | server/server.go:53-106 | `Route` equals Go's first-true-case rule applied to the 25 cases in source order, with `NotFound` as the default |
| Switch.FirstMatchSpec | server/server.go:53-106 | from case `i` on, the switch answers `NotFound` exactly when no later case holds; otherwise it runs the handler of the first case that holds |
| Switch.RouteIsFirstHolding | server/server.go:53-106 | `Route` is `NotFound` exactly when no case condition holds; otherwise it is the handler of the first case whose condition holds |
| RouteProperties.HealthRoutes | server/server.go:54-55 | `Route` reaches `Health` exactly for paths that start with `/health`, whatever the method; `/healthz` is one of them |
| RouteProperties.VersionRoutes | server/server.go:56-57 | any `/version` path reaches `Version`, whatever the method |
| RouteProperties.CreateRoutes | server/server.go:58-59 | any `/create` path reaches `Create`, whatever the method |
| RouteProperties.DeleteRoutes | server/server.go:60-61 | any `/delete` path reaches `Delete`, whatever the method |
| RouteProperties.ConnectRoutes | server/server.go:62-63 | any `/connect` path reaches `Connect`, whatever the method |
| RouteProperties.ExecRoutes | server/server.go:64-65 | any `/exec` path reaches `Exec`, whatever the method |
| RouteProperties.StatusRoutes | server/server.go:66-67 | any `/status` path reaches `Status`, whatever the method |
| RouteProperties.LogsRoutes | server/server.go:68-69 | any `/logs` path reaches `Logs`, whatever the method |
| RouteProperties.UploadRoutes | server/server.go:70-71 | any `/upload` path reaches `Upload`, whatever the method |
| RouteProperties.DownloadRoutes | server/server.go:72-73 | any `/download` path reaches `Download`, whatever the method |
| RouteProperties.MetricsRoutes | server/server.go:74-77 | a `/metrics` path reaches `MetricsStream` when it contains `/stream` anywhere, and `Metrics` otherwise, whatever the method |
| RouteProperties.BareMetricsPath | server/server.go:74-77 | exactly `/metrics` reaches `Metrics`, not `MetricsStream` |
| RouteProperties.StreamMetricsPath | server/server.go:74-75 | `/metrics/stream` reaches `MetricsStream` |
| RouteProperties.SnapshotRoutes | server/server.go:78-106 | a `/snapshot` path reaches one of the four snapshot handlers when it starts with `/snapshot/create`, `/restore`, `/delete` or `/list`, and `NotFound` otherwise |
| RouteProperties.SnapshotPaths | server/server.go:78-85 | each of the four snapshot paths reaches its own handler |
| RouteProperties.BareSnapshotPath | server/server.go:78-106 | bare `/snapshot` reaches `NotFound` |
| RouteProperties.TemplatesRoutes | server/server.go:86-106 | among `/templates` paths, exactly `/templates` reaches `ListTemplates`, `/templates/...` reaches `GetTemplate`, and every other one reaches `NotFound` |
| RouteProperties.TemplatesPaths | server/server.go:86-89 | `/templates` reaches `ListTemplates` and `/templates/base` reaches `GetTemplate` |
| RouteProperties.TemplatesSuffixPath | server/server.go:86-106 | `/templatesX` reaches `NotFound` |
| RouteProperties.APIKeysRoutes | server/server.go:90-106 | under `/apikeys`, GET reaches `ListAPIKeys`, POST `CreateAPIKey`, DELETE `DeleteAPIKey`, and any other method `NotFound` |
| RouteProperties.QuotasRoutes | server/server.go:96-106 | under `/quotas`, GET reaches `GetQuota`, POST `SetQuota`, DELETE `DeleteQuota`, and any other method `NotFound` |
| RouteProperties.MachineHealthRoutes | server/server.go:102-106 | under `/machine/health`, GET reaches `GetMachineHealth` and any other method `NotFound`; such a path never starts with `/health`, so `Health` never takes it |
| RouteProperties.APIKeysMethodNames | server/server.go:90-95 | under `/apikeys`, the method names `"GET"`, `"POST"` and `"DELETE"` (exactly, case-sensitively) reach the list, create and delete handlers; every other name reaches `NotFound` |
| RouteProperties.QuotasMethodNames | server/server.go:96-101 | under `/quotas`, the method names `"GET"`, `"POST"` and `"DELETE"` reach the get, set and delete handlers; every other name reaches `NotFound` |
| RouteProperties.MachineHealthMethodNames | server/server.go:102-103 | under `/machine/health`, only the method name `"GET"` reaches `GetMachineHealth` |
| RouteProperties.MethodMattersOnlyForKeysQuotasMachineHealth | server/server.go:53-106 | for a path outside `/apikeys`, `/quotas` and `/machine/health`, every method reaches the same handler |
| RouteProperties.Witness | server/server.go:53-106 | every handler has a request that reaches it, so no case is shadowed by the cases before it |

## Left out

- `NewServer` (server/server.go:22-50) is not modelled. It builds a Kubernetes client, a logger and several stores through calls into code that is not part of this model.
- The handler bodies (`Create`, `Exec`, `Logs`, `Upload`, `GetMachineHealthHandler` and the rest) are not part of this model. `Route` stops at naming the handler that runs.
- The response that `http.NotFound` writes is not modelled. The model stops at the `NotFound` outcome.
- `ServeHTTP` performs no API-key check. Any such check lies outside the switch and is not modelled.
- Although some of these paths are meant for particular methods (`/health` and `/status` for GET, `/create` for POST), the switch routes `/health`, `/version`, `/create`, `/delete`, `/connect`, `/exec`, `/status`, `/logs`, `/upload`, `/download`, `/metrics`, `/snapshot/...` and `/templates` for any method. The model follows the code.
- The stream route is meant to be `/metrics/stream`. Under the `/metrics` prefix, however, the code picks the stream handler whenever `/stream` occurs anywhere in the path, for example `/metricsfoo/stream`. The model follows the code (`RouteProperties.MetricsRoutes`).
- Methods other than GET, POST and DELETE are collapsed into `Other`. The switch compares the method only with those three. `Server.MethodOf` states the mapping, and the lemmas `RouteProperties.APIKeysMethodNames`, `RouteProperties.QuotasMethodNames` and `RouteProperties.MachineHealthMethodNames` show that `Route` over `MethodOf(name)` makes exactly the switch's string comparisons.
- `Route` takes the already-decoded `r.URL.Path`. URL parsing and decoding by `net/http` are not modelled.
- Paths are sequences of characters rather than UTF-8 bytes. Every literal the switch tests is ASCII, and UTF-8 never encodes a non-ASCII character with ASCII bytes. So a byte-level prefix or substring test agrees with the character-level one.
- weaver/internal/repository/repository.go is not part of this model. It holds only a struct of three repository interfaces and two methods (`HealthCheck`, `Close`) that return nil.
