/**
  Request dispatch of the sandbox control plane's HTTP server.

  `Server.ServeHTTP` picks exactly one handler for each request by testing
  the URL path (and, for a few prefixes, the HTTP method) in a fixed order;
  the first test that holds wins, and a request that no test accepts is
  answered with `http.NotFound`. `Route` gives the handler that is picked.
 */
module Server {
  import opened GoStrings

  /** The HTTP method of a request, as far as the router distinguishes it. */
  datatype Method = GET | POST | DELETE | Other

  /** Go compares `r.Method` with `http.MethodGet`, `http.MethodPost` and
      `http.MethodDelete` by exact, case-sensitive string equality. */
  function MethodOf(name: string): (m: Method)
    ensures m == GET <==> name == "GET"
    ensures m == POST <==> name == "POST"
    ensures m == DELETE <==> name == "DELETE"
  {
    if name == "GET" then GET
    else if name == "POST" then POST
    else if name == "DELETE" then DELETE
    else Other
  }

  /** One tag per `Server` handler method that `ServeHTTP` can call. */
  datatype Handler =
    | Health | Version
    | Create | Delete | Connect | Exec | Status | Logs | Upload | Download
    | MetricsStream | Metrics
    | CreateSnapshot | RestoreSnapshot | DeleteSnapshot | ListSnapshots
    | ListTemplates | GetTemplate
    | ListAPIKeys | CreateAPIKey | DeleteAPIKey
    | GetQuota | SetQuota | DeleteQuota
    | GetMachineHealth

  /** What `ServeHTTP` does with a request: call one of the handlers, or
      fall through to the `default` clause, `http.NotFound`. */
  datatype Dispatch = Serve(handler: Handler) | NotFound

  /** The handler `ServeHTTP` calls for a request with this path and method. */
  function Route(path: string, verb: Method): Dispatch {
    if HasPrefix(path, "/health") then Serve(Health)
    else if HasPrefix(path, "/version") then Serve(Version)
    else if HasPrefix(path, "/create") then Serve(Create)
    else if HasPrefix(path, "/delete") then Serve(Delete)
    else if HasPrefix(path, "/connect") then Serve(Connect)
    else if HasPrefix(path, "/exec") then Serve(Exec)
    else if HasPrefix(path, "/status") then Serve(Status)
    else if HasPrefix(path, "/logs") then Serve(Logs)
    else if HasPrefix(path, "/upload") then Serve(Upload)
    else if HasPrefix(path, "/download") then Serve(Download)
    else if HasPrefix(path, "/metrics") && Contains(path, "/stream") then Serve(MetricsStream)
    else if HasPrefix(path, "/metrics") then Serve(Metrics)
    else if HasPrefix(path, "/snapshot/create") then Serve(CreateSnapshot)
    else if HasPrefix(path, "/snapshot/restore") then Serve(RestoreSnapshot)
    else if HasPrefix(path, "/snapshot/delete") then Serve(DeleteSnapshot)
    else if HasPrefix(path, "/snapshot/list") then Serve(ListSnapshots)
    else if HasPrefix(path, "/templates") && path == "/templates" then Serve(ListTemplates)
    else if HasPrefix(path, "/templates/") then Serve(GetTemplate)
    else if HasPrefix(path, "/apikeys") && verb == GET then Serve(ListAPIKeys)
    else if HasPrefix(path, "/apikeys") && verb == POST then Serve(CreateAPIKey)
    else if HasPrefix(path, "/apikeys") && verb == DELETE then Serve(DeleteAPIKey)
    else if HasPrefix(path, "/quotas") && verb == GET then Serve(GetQuota)
    else if HasPrefix(path, "/quotas") && verb == POST then Serve(SetQuota)
    else if HasPrefix(path, "/quotas") && verb == DELETE then Serve(DeleteQuota)
    else if HasPrefix(path, "/machine/health") && verb == GET then Serve(GetMachineHealth)
    else NotFound
  }

  // ---------------------------------------------------------------------
  // The switch read as data: its cases in source order, and Go's rule that
  // an expressionless `switch` runs the first case whose condition holds.
  // ---------------------------------------------------------------------

  /** The four shapes of case condition the switch uses. */
  datatype Guard =
    | Prefix(prefix: string)
    | PrefixContains(prefix: string, infix: string)
    | PrefixEquals(prefix: string, whole: string)
    | PrefixMethod(prefix: string, verb: Method)

  predicate Holds(g: Guard, path: string, verb: Method) {
    match g
    case Prefix(p) => HasPrefix(path, p)
    case PrefixContains(p, sub) => HasPrefix(path, p) && Contains(path, sub)
    case PrefixEquals(p, w) => HasPrefix(path, p) && path == w
    case PrefixMethod(p, m) => HasPrefix(path, p) && verb == m
  }

  datatype Case = Case(guard: Guard, handler: Handler)

  /** The cases of the switch, one per `case` clause, in source order. */
  const HealthCase := Case(Prefix("/health"), Health)
  const VersionCase := Case(Prefix("/version"), Version)
  const CreateCase := Case(Prefix("/create"), Create)
  const DeleteCase := Case(Prefix("/delete"), Delete)
  const ConnectCase := Case(Prefix("/connect"), Connect)
  const ExecCase := Case(Prefix("/exec"), Exec)
  const StatusCase := Case(Prefix("/status"), Status)
  const LogsCase := Case(Prefix("/logs"), Logs)
  const UploadCase := Case(Prefix("/upload"), Upload)
  const DownloadCase := Case(Prefix("/download"), Download)
  const MetricsStreamCase := Case(PrefixContains("/metrics", "/stream"), MetricsStream)
  const MetricsCase := Case(Prefix("/metrics"), Metrics)
  const CreateSnapshotCase := Case(Prefix("/snapshot/create"), CreateSnapshot)
  const RestoreSnapshotCase := Case(Prefix("/snapshot/restore"), RestoreSnapshot)
  const DeleteSnapshotCase := Case(Prefix("/snapshot/delete"), DeleteSnapshot)
  const ListSnapshotsCase := Case(Prefix("/snapshot/list"), ListSnapshots)
  const ListTemplatesCase := Case(PrefixEquals("/templates", "/templates"), ListTemplates)
  const GetTemplateCase := Case(Prefix("/templates/"), GetTemplate)
  const ListAPIKeysCase := Case(PrefixMethod("/apikeys", GET), ListAPIKeys)
  const CreateAPIKeyCase := Case(PrefixMethod("/apikeys", POST), CreateAPIKey)
  const DeleteAPIKeyCase := Case(PrefixMethod("/apikeys", DELETE), DeleteAPIKey)
  const GetQuotaCase := Case(PrefixMethod("/quotas", GET), GetQuota)
  const SetQuotaCase := Case(PrefixMethod("/quotas", POST), SetQuota)
  const DeleteQuotaCase := Case(PrefixMethod("/quotas", DELETE), DeleteQuota)
  const GetMachineHealthCase := Case(PrefixMethod("/machine/health", GET), GetMachineHealth)

  const Cases: seq<Case> := [
    HealthCase, VersionCase, CreateCase, DeleteCase, ConnectCase, ExecCase,
    StatusCase, LogsCase, UploadCase, DownloadCase, MetricsStreamCase,
    MetricsCase, CreateSnapshotCase, RestoreSnapshotCase, DeleteSnapshotCase,
    ListSnapshotsCase, ListTemplatesCase, GetTemplateCase, ListAPIKeysCase,
    CreateAPIKeyCase, DeleteAPIKeyCase, GetQuotaCase, SetQuotaCase,
    DeleteQuotaCase, GetMachineHealthCase
  ]

  /** Go's rule for an expressionless `switch`, from case `i` of `cases`
      on: the handler of the first case whose condition holds, or the
      `default` clause's `NotFound` when none does. */
  function FirstMatch(cases: seq<Case>, i: nat, path: string, verb: Method): Dispatch
    requires i <= |cases|
    decreases |cases| - i
  {
    if i == |cases| then NotFound
    else if Holds(cases[i].guard, path, verb) then Serve(cases[i].handler)
    else FirstMatch(cases, i + 1, path, verb)
  }
}
