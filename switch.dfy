/**
  The switch of `ServeHTTP` read as Go reads it: `Route` is the first case
  of `Cases` whose condition holds, or `NotFound`.
 */
module Switch {
  import opened GoStrings
  import opened Server

  /** `Route` runs the cases of the switch in source order. */
  lemma {:induction false} RouteIsFirstMatch(path: string, verb: Method)
    ensures Route(path, verb) == FirstMatch(Cases, 0, path, verb)
  {
    Switch0To10(path, verb);
    Switch10To18(path, verb);
    Switch18To25(path, verb);
  }

  /** Case `j` is the first case of `cases` whose condition holds. */
  ghost predicate FirstHolding(cases: seq<Case>, j: nat, path: string, verb: Method) {
    j < |cases| && Holds(cases[j].guard, path, verb)
    && forall k :: 0 <= k < j ==> !Holds(cases[k].guard, path, verb)
  }

  /** Go's switch rule, from case `i` on: the default clause runs exactly
      when no later case holds, and otherwise the first one that holds. */
  lemma {:induction false} FirstMatchSpec(cases: seq<Case>, i: nat, path: string, verb: Method)
    requires i <= |cases|
    ensures FirstMatch(cases, i, path, verb) == NotFound <==>
              forall j :: i <= j < |cases| ==> !Holds(cases[j].guard, path, verb)
    ensures forall j :: i <= j < |cases| && Holds(cases[j].guard, path, verb) &&
              (forall k :: i <= k < j ==> !Holds(cases[k].guard, path, verb))
              ==> FirstMatch(cases, i, path, verb) == Serve(cases[j].handler)
    decreases |cases| - i
  {
    if i < |cases| {
      FirstMatchSpec(cases, i + 1, path, verb);
    }
  }

  /** `ServeHTTP` answers `NotFound` exactly when no case condition holds,
      and otherwise runs the handler of the first case whose condition holds. */
  lemma RouteIsFirstHolding(path: string, verb: Method)
    ensures Route(path, verb) == NotFound <==>
              forall j :: 0 <= j < |Cases| ==> !Holds(Cases[j].guard, path, verb)
    ensures forall j: nat :: FirstHolding(Cases, j, path, verb) ==> Route(path, verb) == Serve(Cases[j].handler)
  {
    RouteIsFirstMatch(path, verb);
    FirstMatchSpec(Cases, 0, path, verb);
  }

  /** Cases 0 to 9 of the switch, read in the order of `Route`. */
  lemma Switch0To10(path: string, verb: Method)
    ensures FirstMatch(Cases, 0, path, verb) ==
      if HasPrefix(path, "/health") then Serve(Health)
      else if HasPrefix(path, "/version") then Serve(Version)
      else if HasPrefix(path, "/create") then Serve(Create)
      else if HasPrefix(path, "/delete") then Serve(Delete)
      else if HasPrefix(path, "/connect") then Serve(Connect)
      else if HasPrefix(path, "/exec") then Serve(Exec)
      else if HasPrefix(path, "/status") then Serve(Status)
      else if HasPrefix(path, "/logs") then Serve(Logs)
      else if HasPrefix(path, "/upload") then Serve(Upload)
      else if HasPrefix(path, "/download") then Serve(Download)
      else FirstMatch(Cases, 10, path, verb)
  {
    Switch0To3(path, verb);
    Switch3To6(path, verb);
    Switch6To8(path, verb);
    Switch8To10(path, verb);
  }

  /** Cases 10 to 17 of the switch, read in the order of `Route`. */
  lemma Switch10To18(path: string, verb: Method)
    ensures FirstMatch(Cases, 10, path, verb) ==
      if HasPrefix(path, "/metrics") && Contains(path, "/stream") then Serve(MetricsStream)
      else if HasPrefix(path, "/metrics") then Serve(Metrics)
      else if HasPrefix(path, "/snapshot/create") then Serve(CreateSnapshot)
      else if HasPrefix(path, "/snapshot/restore") then Serve(RestoreSnapshot)
      else if HasPrefix(path, "/snapshot/delete") then Serve(DeleteSnapshot)
      else if HasPrefix(path, "/snapshot/list") then Serve(ListSnapshots)
      else if HasPrefix(path, "/templates") && path == "/templates" then Serve(ListTemplates)
      else if HasPrefix(path, "/templates/") then Serve(GetTemplate)
      else FirstMatch(Cases, 18, path, verb)
  {
    Switch10To12(path, verb);
    Switch12To14(path, verb);
    Switch14To16(path, verb);
    Switch16To18(path, verb);
  }

  /** Cases 18 to 24 of the switch, read in the order of `Route`. */
  lemma Switch18To25(path: string, verb: Method)
    ensures FirstMatch(Cases, 18, path, verb) ==
      if HasPrefix(path, "/apikeys") && verb == GET then Serve(ListAPIKeys)
      else if HasPrefix(path, "/apikeys") && verb == POST then Serve(CreateAPIKey)
      else if HasPrefix(path, "/apikeys") && verb == DELETE then Serve(DeleteAPIKey)
      else if HasPrefix(path, "/quotas") && verb == GET then Serve(GetQuota)
      else if HasPrefix(path, "/quotas") && verb == POST then Serve(SetQuota)
      else if HasPrefix(path, "/quotas") && verb == DELETE then Serve(DeleteQuota)
      else if HasPrefix(path, "/machine/health") && verb == GET then Serve(GetMachineHealth)
      else FirstMatch(Cases, 25, path, verb)
  {
    Switch18To21(path, verb);
    Switch21To24(path, verb);
    Switch24To25(path, verb);
  }

  /** Cases 0 to 2 of the switch, one step of `FirstMatch` each. */
  lemma Switch0To3(path: string, verb: Method)
    ensures FirstMatch(Cases, 0, path, verb) ==
      if HasPrefix(path, "/health") then Serve(Health)
      else if HasPrefix(path, "/version") then Serve(Version)
      else if HasPrefix(path, "/create") then Serve(Create)
      else FirstMatch(Cases, 3, path, verb)
  {
    assert FirstMatch(Cases, 0, path, verb) == if HasPrefix(path, "/health") then Serve(Health) else FirstMatch(Cases, 1, path, verb);
    assert FirstMatch(Cases, 1, path, verb) == if HasPrefix(path, "/version") then Serve(Version) else FirstMatch(Cases, 2, path, verb);
    assert FirstMatch(Cases, 2, path, verb) == if HasPrefix(path, "/create") then Serve(Create) else FirstMatch(Cases, 3, path, verb);
  }

  /** Cases 3 to 5 of the switch, one step of `FirstMatch` each. */
  lemma Switch3To6(path: string, verb: Method)
    ensures FirstMatch(Cases, 3, path, verb) ==
      if HasPrefix(path, "/delete") then Serve(Delete)
      else if HasPrefix(path, "/connect") then Serve(Connect)
      else if HasPrefix(path, "/exec") then Serve(Exec)
      else FirstMatch(Cases, 6, path, verb)
  {
    assert FirstMatch(Cases, 3, path, verb) == if HasPrefix(path, "/delete") then Serve(Delete) else FirstMatch(Cases, 4, path, verb);
    assert FirstMatch(Cases, 4, path, verb) == if HasPrefix(path, "/connect") then Serve(Connect) else FirstMatch(Cases, 5, path, verb);
    assert FirstMatch(Cases, 5, path, verb) == if HasPrefix(path, "/exec") then Serve(Exec) else FirstMatch(Cases, 6, path, verb);
  }

  /** Cases 6 to 7 of the switch, one step of `FirstMatch` each. */
  lemma Switch6To8(path: string, verb: Method)
    ensures FirstMatch(Cases, 6, path, verb) ==
      if HasPrefix(path, "/status") then Serve(Status)
      else if HasPrefix(path, "/logs") then Serve(Logs)
      else FirstMatch(Cases, 8, path, verb)
  {
  }

  /** Cases 8 to 9 of the switch, one step of `FirstMatch` each. */
  lemma Switch8To10(path: string, verb: Method)
    ensures FirstMatch(Cases, 8, path, verb) ==
      if HasPrefix(path, "/upload") then Serve(Upload)
      else if HasPrefix(path, "/download") then Serve(Download)
      else FirstMatch(Cases, 10, path, verb)
  {
  }

  /** Cases 10 to 11 of the switch, one step of `FirstMatch` each. */
  lemma Switch10To12(path: string, verb: Method)
    ensures FirstMatch(Cases, 10, path, verb) ==
      if HasPrefix(path, "/metrics") && Contains(path, "/stream") then Serve(MetricsStream)
      else if HasPrefix(path, "/metrics") then Serve(Metrics)
      else FirstMatch(Cases, 12, path, verb)
  {
  }

  /** Cases 12 to 13 of the switch, one step of `FirstMatch` each. */
  lemma Switch12To14(path: string, verb: Method)
    ensures FirstMatch(Cases, 12, path, verb) ==
      if HasPrefix(path, "/snapshot/create") then Serve(CreateSnapshot)
      else if HasPrefix(path, "/snapshot/restore") then Serve(RestoreSnapshot)
      else FirstMatch(Cases, 14, path, verb)
  {
  }

  /** Cases 14 to 15 of the switch, one step of `FirstMatch` each. */
  lemma Switch14To16(path: string, verb: Method)
    ensures FirstMatch(Cases, 14, path, verb) ==
      if HasPrefix(path, "/snapshot/delete") then Serve(DeleteSnapshot)
      else if HasPrefix(path, "/snapshot/list") then Serve(ListSnapshots)
      else FirstMatch(Cases, 16, path, verb)
  {
  }

  /** Cases 16 to 17 of the switch, one step of `FirstMatch` each. */
  lemma Switch16To18(path: string, verb: Method)
    ensures FirstMatch(Cases, 16, path, verb) ==
      if HasPrefix(path, "/templates") && path == "/templates" then Serve(ListTemplates)
      else if HasPrefix(path, "/templates/") then Serve(GetTemplate)
      else FirstMatch(Cases, 18, path, verb)
  {
  }

  /** Cases 18 to 20 of the switch, one step of `FirstMatch` each. */
  lemma Switch18To21(path: string, verb: Method)
    ensures FirstMatch(Cases, 18, path, verb) ==
      if HasPrefix(path, "/apikeys") && verb == GET then Serve(ListAPIKeys)
      else if HasPrefix(path, "/apikeys") && verb == POST then Serve(CreateAPIKey)
      else if HasPrefix(path, "/apikeys") && verb == DELETE then Serve(DeleteAPIKey)
      else FirstMatch(Cases, 21, path, verb)
  {
    assert FirstMatch(Cases, 18, path, verb) == if HasPrefix(path, "/apikeys") && verb == GET then Serve(ListAPIKeys) else FirstMatch(Cases, 19, path, verb);
    assert FirstMatch(Cases, 19, path, verb) == if HasPrefix(path, "/apikeys") && verb == POST then Serve(CreateAPIKey) else FirstMatch(Cases, 20, path, verb);
    assert FirstMatch(Cases, 20, path, verb) == if HasPrefix(path, "/apikeys") && verb == DELETE then Serve(DeleteAPIKey) else FirstMatch(Cases, 21, path, verb);
  }

  /** Cases 21 to 23 of the switch, one step of `FirstMatch` each. */
  lemma Switch21To24(path: string, verb: Method)
    ensures FirstMatch(Cases, 21, path, verb) ==
      if HasPrefix(path, "/quotas") && verb == GET then Serve(GetQuota)
      else if HasPrefix(path, "/quotas") && verb == POST then Serve(SetQuota)
      else if HasPrefix(path, "/quotas") && verb == DELETE then Serve(DeleteQuota)
      else FirstMatch(Cases, 24, path, verb)
  {
    assert FirstMatch(Cases, 21, path, verb) == if HasPrefix(path, "/quotas") && verb == GET then Serve(GetQuota) else FirstMatch(Cases, 22, path, verb);
    assert FirstMatch(Cases, 22, path, verb) == if HasPrefix(path, "/quotas") && verb == POST then Serve(SetQuota) else FirstMatch(Cases, 23, path, verb);
    assert FirstMatch(Cases, 23, path, verb) == if HasPrefix(path, "/quotas") && verb == DELETE then Serve(DeleteQuota) else FirstMatch(Cases, 24, path, verb);
  }

  /** Cases 24 to 24 of the switch, one step of `FirstMatch` each. */
  lemma Switch24To25(path: string, verb: Method)
    ensures FirstMatch(Cases, 24, path, verb) ==
      if HasPrefix(path, "/machine/health") && verb == GET then Serve(GetMachineHealth)
      else FirstMatch(Cases, 25, path, verb)
  {
  }
}
