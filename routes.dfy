/**
  What the dispatch switch of `ServeHTTP` promises, one prefix family at a
  time: which handler each kind of path reaches, and for which methods.
 */
module RouteProperties {
  import opened GoStrings
  import opened Server

  /** `/health` is tested first, so every path that starts with it reaches
      `Health` whatever its method (`/healthz` included), and it is the
      only way to reach `Health`. */
  lemma HealthRoutes(path: string, verb: Method)
    ensures Route(path, verb) == Serve(Health) <==> HasPrefix(path, "/health")
    ensures Route("/healthz", verb) == Serve(Health)
  {
  }

  /** A path that starts with `/version` reaches `Version` whatever its method. */
  lemma VersionRoutes(path: string, verb: Method)
    requires HasPrefix(path, "/version")
    ensures Route(path, verb) == Serve(Version)
  {
    PrefixesExclusive(path, "/version", "/health", 1);
  }

  /** A path that starts with `/create` reaches `Create` whatever its method. */
  lemma CreateRoutes(path: string, verb: Method)
    requires HasPrefix(path, "/create")
    ensures Route(path, verb) == Serve(Create)
  {
    PrefixesExclusive(path, "/create", "/health", 1);
    PrefixesExclusive(path, "/create", "/version", 1);
  }

  /** A path that starts with `/delete` reaches `Delete` whatever its method. */
  lemma DeleteRoutes(path: string, verb: Method)
    requires HasPrefix(path, "/delete")
    ensures Route(path, verb) == Serve(Delete)
  {
    PrefixesExclusive(path, "/delete", "/health", 1);
    PrefixesExclusive(path, "/delete", "/version", 1);
    PrefixesExclusive(path, "/delete", "/create", 1);
  }

  /** A path that starts with `/connect` reaches `Connect` whatever its method. */
  lemma ConnectRoutes(path: string, verb: Method)
    requires HasPrefix(path, "/connect")
    ensures Route(path, verb) == Serve(Connect)
  {
    PrefixesExclusive(path, "/connect", "/health", 1);
    PrefixesExclusive(path, "/connect", "/version", 1);
    PrefixesExclusive(path, "/connect", "/create", 2);
    PrefixesExclusive(path, "/connect", "/delete", 1);
  }

  /** A path that starts with `/exec` reaches `Exec` whatever its method. */
  lemma ExecRoutes(path: string, verb: Method)
    requires HasPrefix(path, "/exec")
    ensures Route(path, verb) == Serve(Exec)
  {
    PrefixesExclusive(path, "/exec", "/health", 1);
    PrefixesExclusive(path, "/exec", "/version", 1);
    PrefixesExclusive(path, "/exec", "/create", 1);
    PrefixesExclusive(path, "/exec", "/delete", 1);
    PrefixesExclusive(path, "/exec", "/connect", 1);
  }

  /** A path that starts with `/status` reaches `Status` whatever its method. */
  lemma StatusRoutes(path: string, verb: Method)
    requires HasPrefix(path, "/status")
    ensures Route(path, verb) == Serve(Status)
  {
    PrefixesExclusive(path, "/status", "/health", 1);
    PrefixesExclusive(path, "/status", "/version", 1);
    PrefixesExclusive(path, "/status", "/create", 1);
    PrefixesExclusive(path, "/status", "/delete", 1);
    PrefixesExclusive(path, "/status", "/connect", 1);
    PrefixesExclusive(path, "/status", "/exec", 1);
  }

  /** A path that starts with `/logs` reaches `Logs` whatever its method. */
  lemma LogsRoutes(path: string, verb: Method)
    requires HasPrefix(path, "/logs")
    ensures Route(path, verb) == Serve(Logs)
  {
    PrefixesExclusive(path, "/logs", "/health", 1);
    PrefixesExclusive(path, "/logs", "/version", 1);
    PrefixesExclusive(path, "/logs", "/create", 1);
    PrefixesExclusive(path, "/logs", "/delete", 1);
    PrefixesExclusive(path, "/logs", "/connect", 1);
    PrefixesExclusive(path, "/logs", "/exec", 1);
    PrefixesExclusive(path, "/logs", "/status", 1);
  }

  /** A path that starts with `/upload` reaches `Upload` whatever its method. */
  lemma UploadRoutes(path: string, verb: Method)
    requires HasPrefix(path, "/upload")
    ensures Route(path, verb) == Serve(Upload)
  {
    PrefixesExclusive(path, "/upload", "/health", 1);
    PrefixesExclusive(path, "/upload", "/version", 1);
    PrefixesExclusive(path, "/upload", "/create", 1);
    PrefixesExclusive(path, "/upload", "/delete", 1);
    PrefixesExclusive(path, "/upload", "/connect", 1);
    PrefixesExclusive(path, "/upload", "/exec", 1);
    PrefixesExclusive(path, "/upload", "/status", 1);
    PrefixesExclusive(path, "/upload", "/logs", 1);
  }

  /** A path that starts with `/download` reaches `Download` whatever its method. */
  lemma DownloadRoutes(path: string, verb: Method)
    requires HasPrefix(path, "/download")
    ensures Route(path, verb) == Serve(Download)
  {
    PrefixesExclusive(path, "/download", "/health", 1);
    PrefixesExclusive(path, "/download", "/version", 1);
    PrefixesExclusive(path, "/download", "/create", 1);
    PrefixesExclusive(path, "/download", "/delete", 2);
    PrefixesExclusive(path, "/download", "/connect", 1);
    PrefixesExclusive(path, "/download", "/exec", 1);
    PrefixesExclusive(path, "/download", "/status", 1);
    PrefixesExclusive(path, "/download", "/logs", 1);
    PrefixesExclusive(path, "/download", "/upload", 1);
  }

  /** Among `/metrics` paths, those that contain `/stream` anywhere reach
      `MetricsStream`, because that case comes first; all the others reach
      `Metrics`. The method plays no part. */
  lemma MetricsRoutes(path: string, verb: Method)
    requires HasPrefix(path, "/metrics")
    ensures Route(path, verb) ==
      if Contains(path, "/stream") then Serve(MetricsStream) else Serve(Metrics)
  {
    PrefixesExclusive(path, "/metrics", "/health", 1);
    PrefixesExclusive(path, "/metrics", "/version", 1);
    PrefixesExclusive(path, "/metrics", "/create", 1);
    PrefixesExclusive(path, "/metrics", "/delete", 1);
    PrefixesExclusive(path, "/metrics", "/connect", 1);
    PrefixesExclusive(path, "/metrics", "/exec", 1);
    PrefixesExclusive(path, "/metrics", "/status", 1);
    PrefixesExclusive(path, "/metrics", "/logs", 1);
    PrefixesExclusive(path, "/metrics", "/upload", 1);
    PrefixesExclusive(path, "/metrics", "/download", 1);
  }

  /** Only the four sub-paths `create`, `restore`, `delete` and `list` of
      `/snapshot/` are dispatched; any other `/snapshot` path falls through
      every case to `NotFound`. The method plays no part. */
  lemma SnapshotRoutes(path: string, verb: Method)
    requires HasPrefix(path, "/snapshot")
    ensures Route(path, verb) ==
      if HasPrefix(path, "/snapshot/create") then Serve(CreateSnapshot)
      else if HasPrefix(path, "/snapshot/restore") then Serve(RestoreSnapshot)
      else if HasPrefix(path, "/snapshot/delete") then Serve(DeleteSnapshot)
      else if HasPrefix(path, "/snapshot/list") then Serve(ListSnapshots)
      else NotFound
  {
    PrefixesExclusive(path, "/snapshot", "/health", 1);
    PrefixesExclusive(path, "/snapshot", "/version", 1);
    PrefixesExclusive(path, "/snapshot", "/create", 1);
    PrefixesExclusive(path, "/snapshot", "/delete", 1);
    PrefixesExclusive(path, "/snapshot", "/connect", 1);
    PrefixesExclusive(path, "/snapshot", "/exec", 1);
    PrefixesExclusive(path, "/snapshot", "/status", 2);
    PrefixesExclusive(path, "/snapshot", "/logs", 1);
    PrefixesExclusive(path, "/snapshot", "/upload", 1);
    PrefixesExclusive(path, "/snapshot", "/download", 1);
    PrefixesExclusive(path, "/snapshot", "/metrics", 1);
    PrefixesExclusive(path, "/snapshot", "/templates", 1);
    PrefixesExclusive(path, "/snapshot", "/templates/", 1);
    PrefixesExclusive(path, "/snapshot", "/apikeys", 1);
    PrefixesExclusive(path, "/snapshot", "/quotas", 1);
    PrefixesExclusive(path, "/snapshot", "/machine/health", 1);
  }

  /** `/templates` itself lists the templates and `/templates/<name>` fetches
      one; any other path that starts with `/templates` (such as
      `/templatesX`) reaches `NotFound`. The method plays no part. */
  lemma TemplatesRoutes(path: string, verb: Method)
    requires HasPrefix(path, "/templates")
    ensures Route(path, verb) ==
      if path == "/templates" then Serve(ListTemplates)
      else if HasPrefix(path, "/templates/") then Serve(GetTemplate)
      else NotFound
  {
    PrefixesExclusive(path, "/templates", "/health", 1);
    PrefixesExclusive(path, "/templates", "/version", 1);
    PrefixesExclusive(path, "/templates", "/create", 1);
    PrefixesExclusive(path, "/templates", "/delete", 1);
    PrefixesExclusive(path, "/templates", "/connect", 1);
    PrefixesExclusive(path, "/templates", "/exec", 1);
    PrefixesExclusive(path, "/templates", "/status", 1);
    PrefixesExclusive(path, "/templates", "/logs", 1);
    PrefixesExclusive(path, "/templates", "/upload", 1);
    PrefixesExclusive(path, "/templates", "/download", 1);
    PrefixesExclusive(path, "/templates", "/metrics", 1);
    PrefixesExclusive(path, "/templates", "/snapshot/create", 1);
    PrefixesExclusive(path, "/templates", "/snapshot/restore", 1);
    PrefixesExclusive(path, "/templates", "/snapshot/delete", 1);
    PrefixesExclusive(path, "/templates", "/snapshot/list", 1);
    PrefixesExclusive(path, "/templates", "/apikeys", 1);
    PrefixesExclusive(path, "/templates", "/quotas", 1);
    PrefixesExclusive(path, "/templates", "/machine/health", 1);
  }

  /** `/apikeys` dispatches on the method: GET to `ListAPIKeys`, POST to `CreateAPIKey`,
      DELETE to `DeleteAPIKey`, and any other method to `NotFound`. */
  lemma APIKeysRoutes(path: string, verb: Method)
    requires HasPrefix(path, "/apikeys")
    ensures Route(path, verb) ==
      match verb
      case GET => Serve(ListAPIKeys)
      case POST => Serve(CreateAPIKey)
      case DELETE => Serve(DeleteAPIKey)
      case Other => NotFound
  {
    PrefixesExclusive(path, "/apikeys", "/health", 1);
    PrefixesExclusive(path, "/apikeys", "/version", 1);
    PrefixesExclusive(path, "/apikeys", "/create", 1);
    PrefixesExclusive(path, "/apikeys", "/delete", 1);
    PrefixesExclusive(path, "/apikeys", "/connect", 1);
    PrefixesExclusive(path, "/apikeys", "/exec", 1);
    PrefixesExclusive(path, "/apikeys", "/status", 1);
    PrefixesExclusive(path, "/apikeys", "/logs", 1);
    PrefixesExclusive(path, "/apikeys", "/upload", 1);
    PrefixesExclusive(path, "/apikeys", "/download", 1);
    PrefixesExclusive(path, "/apikeys", "/metrics", 1);
    PrefixesExclusive(path, "/apikeys", "/snapshot/create", 1);
    PrefixesExclusive(path, "/apikeys", "/snapshot/restore", 1);
    PrefixesExclusive(path, "/apikeys", "/snapshot/delete", 1);
    PrefixesExclusive(path, "/apikeys", "/snapshot/list", 1);
    PrefixesExclusive(path, "/apikeys", "/templates", 1);
    PrefixesExclusive(path, "/apikeys", "/templates/", 1);
    PrefixesExclusive(path, "/apikeys", "/quotas", 1);
    PrefixesExclusive(path, "/apikeys", "/machine/health", 1);
  }

  /** `/quotas` dispatches on the method: GET to `GetQuota`, POST to `SetQuota`,
      DELETE to `DeleteQuota`, and any other method to `NotFound`. */
  lemma QuotasRoutes(path: string, verb: Method)
    requires HasPrefix(path, "/quotas")
    ensures Route(path, verb) ==
      match verb
      case GET => Serve(GetQuota)
      case POST => Serve(SetQuota)
      case DELETE => Serve(DeleteQuota)
      case Other => NotFound
  {
    PrefixesExclusive(path, "/quotas", "/health", 1);
    PrefixesExclusive(path, "/quotas", "/version", 1);
    PrefixesExclusive(path, "/quotas", "/create", 1);
    PrefixesExclusive(path, "/quotas", "/delete", 1);
    PrefixesExclusive(path, "/quotas", "/connect", 1);
    PrefixesExclusive(path, "/quotas", "/exec", 1);
    PrefixesExclusive(path, "/quotas", "/status", 1);
    PrefixesExclusive(path, "/quotas", "/logs", 1);
    PrefixesExclusive(path, "/quotas", "/upload", 1);
    PrefixesExclusive(path, "/quotas", "/download", 1);
    PrefixesExclusive(path, "/quotas", "/metrics", 1);
    PrefixesExclusive(path, "/quotas", "/snapshot/create", 1);
    PrefixesExclusive(path, "/quotas", "/snapshot/restore", 1);
    PrefixesExclusive(path, "/quotas", "/snapshot/delete", 1);
    PrefixesExclusive(path, "/quotas", "/snapshot/list", 1);
    PrefixesExclusive(path, "/quotas", "/templates", 1);
    PrefixesExclusive(path, "/quotas", "/templates/", 1);
    PrefixesExclusive(path, "/quotas", "/apikeys", 1);
    PrefixesExclusive(path, "/quotas", "/machine/health", 1);
  }

  /** `/machine/health` answers GET only, any other method reaching
      `NotFound`; it is never taken for `/health`, since it does not start
      with `/health`. */
  lemma MachineHealthRoutes(path: string, verb: Method)
    requires HasPrefix(path, "/machine/health")
    ensures !HasPrefix(path, "/health")
    ensures Route(path, verb) == if verb == GET then Serve(GetMachineHealth) else NotFound
  {
    PrefixesExclusive(path, "/machine/health", "/health", 1);
    PrefixesExclusive(path, "/machine/health", "/version", 1);
    PrefixesExclusive(path, "/machine/health", "/create", 1);
    PrefixesExclusive(path, "/machine/health", "/delete", 1);
    PrefixesExclusive(path, "/machine/health", "/connect", 1);
    PrefixesExclusive(path, "/machine/health", "/exec", 1);
    PrefixesExclusive(path, "/machine/health", "/status", 1);
    PrefixesExclusive(path, "/machine/health", "/logs", 1);
    PrefixesExclusive(path, "/machine/health", "/upload", 1);
    PrefixesExclusive(path, "/machine/health", "/download", 1);
    PrefixesExclusive(path, "/machine/health", "/metrics", 2);
    PrefixesExclusive(path, "/machine/health", "/snapshot/create", 1);
    PrefixesExclusive(path, "/machine/health", "/snapshot/restore", 1);
    PrefixesExclusive(path, "/machine/health", "/snapshot/delete", 1);
    PrefixesExclusive(path, "/machine/health", "/snapshot/list", 1);
    PrefixesExclusive(path, "/machine/health", "/templates", 1);
    PrefixesExclusive(path, "/machine/health", "/templates/", 1);
    PrefixesExclusive(path, "/machine/health", "/apikeys", 1);
    PrefixesExclusive(path, "/machine/health", "/quotas", 1);
  }

  /** The bare `/metrics` path reaches `Metrics`. */
  lemma BareMetricsPath(verb: Method)
    ensures Route("/metrics", verb) == Serve(Metrics)
  {
    var bare := "/metrics";
    TooShortNotContained(bare[2..], "/stream");
    assert bare[1..][1..] == bare[2..];
    assert bare[1..][0] != '/';
    assert bare[1] != 's';
    MetricsRoutes(bare, verb);
  }

  /** A path with `/stream` after its `/metrics` prefix reaches
      `MetricsStream`. */
  lemma StreamMetricsPath(verb: Method)
    ensures Route("/metrics/stream", verb) == Serve(MetricsStream)
  {
    var p := "/metrics/stream";
    assert OccursAt(p, "/stream", 8);
    ContainsIffOccurs(p, "/stream");
    MetricsRoutes(p, verb);
  }

  /** Each of the four snapshot operations has its own path. */
  lemma SnapshotPaths(verb: Method)
    ensures Route("/snapshot/create", verb) == Serve(CreateSnapshot)
    ensures Route("/snapshot/restore", verb) == Serve(RestoreSnapshot)
    ensures Route("/snapshot/delete", verb) == Serve(DeleteSnapshot)
    ensures Route("/snapshot/list", verb) == Serve(ListSnapshots)
  {
    SnapshotRoutes("/snapshot/create", verb);
    SnapshotRoutes("/snapshot/restore", verb);
    PrefixesExclusive("/snapshot/restore", "/snapshot/restore", "/snapshot/create", 10);
    SnapshotRoutes("/snapshot/delete", verb);
    PrefixesExclusive("/snapshot/delete", "/snapshot/delete", "/snapshot/create", 10);
    PrefixesExclusive("/snapshot/delete", "/snapshot/delete", "/snapshot/restore", 10);
    SnapshotRoutes("/snapshot/list", verb);
    PrefixesExclusive("/snapshot/list", "/snapshot/list", "/snapshot/create", 10);
    PrefixesExclusive("/snapshot/list", "/snapshot/list", "/snapshot/restore", 10);
    PrefixesExclusive("/snapshot/list", "/snapshot/list", "/snapshot/delete", 10);
  }

  /** `/templates` lists the templates and `/templates/base` fetches one. */
  lemma TemplatesPaths(verb: Method)
    ensures Route("/templates", verb) == Serve(ListTemplates)
    ensures Route("/templates/base", verb) == Serve(GetTemplate)
  {
    TemplatesRoutes("/templates", verb);
    var p := "/templates/base";
    assert |p| != |"/templates"|;
    TemplatesRoutes(p, verb);
  }

  /** A bare `/snapshot` path reaches no handler. */
  lemma BareSnapshotPath(verb: Method)
    ensures Route("/snapshot", verb) == NotFound
  {
    SnapshotRoutes("/snapshot", verb);
  }

  /** `/templatesX` starts with `/templates` but reaches no handler. */
  lemma TemplatesSuffixPath(verb: Method)
    ensures Route("/templatesX", verb) == NotFound
  {
    var p := "/templatesX";
    assert |p| != |"/templates"|;
    assert p[10] != '/';
    TemplatesRoutes(p, verb);
  }

  /** The switch compares the method name itself with `"GET"`, `"POST"`
      and `"DELETE"`, case-sensitively: under `/apikeys` those exact names
      pick the handler, and any other name, `"get"` included, reaches
      `NotFound`. */
  lemma APIKeysMethodNames(path: string, name: string)
    requires HasPrefix(path, "/apikeys")
    ensures Route(path, MethodOf(name)) ==
      if name == "GET" then Serve(ListAPIKeys)
      else if name == "POST" then Serve(CreateAPIKey)
      else if name == "DELETE" then Serve(DeleteAPIKey)
      else NotFound
  {
    APIKeysRoutes(path, MethodOf(name));
  }

  /** Under `/quotas` the exact names `"GET"`, `"POST"` and `"DELETE"` pick
      the handler, and any other name reaches `NotFound`. */
  lemma QuotasMethodNames(path: string, name: string)
    requires HasPrefix(path, "/quotas")
    ensures Route(path, MethodOf(name)) ==
      if name == "GET" then Serve(GetQuota)
      else if name == "POST" then Serve(SetQuota)
      else if name == "DELETE" then Serve(DeleteQuota)
      else NotFound
  {
    QuotasRoutes(path, MethodOf(name));
  }

  /** Under `/machine/health` only the exact name `"GET"` reaches
      `GetMachineHealth`. */
  lemma MachineHealthMethodNames(path: string, name: string)
    requires HasPrefix(path, "/machine/health")
    ensures Route(path, MethodOf(name)) ==
      if name == "GET" then Serve(GetMachineHealth) else NotFound
  {
    MachineHealthRoutes(path, MethodOf(name));
  }

  /** Outside `/apikeys`, `/quotas` and `/machine/health` the method is never
      looked at: two requests for the same path reach the same handler. */
  lemma MethodMattersOnlyForKeysQuotasMachineHealth(path: string, v1: Method, v2: Method)
    requires !HasPrefix(path, "/apikeys") && !HasPrefix(path, "/quotas")
    requires !HasPrefix(path, "/machine/health")
    ensures Route(path, v1) == Route(path, v2)
  {
  }

  /** A request that reaches handler `h`. That there is one for every
      handler means no case of the switch is shadowed by the cases before it. */
  function Witness(h: Handler): (r: (string, Method))
    ensures Route(r.0, r.1) == Serve(h)
  {
    match h
    case Health =>
      HealthRoutes("/health", GET); ("/health", GET)
    case Version =>
      VersionRoutes("/version", GET); ("/version", GET)
    case Create =>
      CreateRoutes("/create", POST); ("/create", POST)
    case Delete =>
      DeleteRoutes("/delete", POST); ("/delete", POST)
    case Connect =>
      ConnectRoutes("/connect", GET); ("/connect", GET)
    case Exec =>
      ExecRoutes("/exec", POST); ("/exec", POST)
    case Status =>
      StatusRoutes("/status", GET); ("/status", GET)
    case Logs =>
      LogsRoutes("/logs", GET); ("/logs", GET)
    case Upload =>
      UploadRoutes("/upload", POST); ("/upload", POST)
    case Download =>
      DownloadRoutes("/download", GET); ("/download", GET)
    case MetricsStream =>
      StreamMetricsPath(GET); ("/metrics/stream", GET)
    case Metrics =>
      BareMetricsPath(GET); ("/metrics", GET)
    case CreateSnapshot =>
      SnapshotPaths(POST); ("/snapshot/create", POST)
    case RestoreSnapshot =>
      SnapshotPaths(POST); ("/snapshot/restore", POST)
    case DeleteSnapshot =>
      SnapshotPaths(POST); ("/snapshot/delete", POST)
    case ListSnapshots =>
      SnapshotPaths(GET); ("/snapshot/list", GET)
    case ListTemplates =>
      TemplatesPaths(GET); ("/templates", GET)
    case GetTemplate =>
      TemplatesPaths(GET); ("/templates/base", GET)
    case ListAPIKeys =>
      APIKeysRoutes("/apikeys", GET); ("/apikeys", GET)
    case CreateAPIKey =>
      APIKeysRoutes("/apikeys", POST); ("/apikeys", POST)
    case DeleteAPIKey =>
      APIKeysRoutes("/apikeys", DELETE); ("/apikeys", DELETE)
    case GetQuota =>
      QuotasRoutes("/quotas/team-a", GET); ("/quotas/team-a", GET)
    case SetQuota =>
      QuotasRoutes("/quotas/team-a", POST); ("/quotas/team-a", POST)
    case DeleteQuota =>
      QuotasRoutes("/quotas/team-a", DELETE); ("/quotas/team-a", DELETE)
    case GetMachineHealth =>
      MachineHealthRoutes("/machine/health", GET); ("/machine/health", GET)
  }
}
