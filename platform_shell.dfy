/**
 * The platform shell's HTTP handlers: the system-status report, the menu the
 * shared navigation bar loads, the health snapshot and the cache invalidation
 * endpoint.
 */
module PlatformShell {
  import opened Wrappers
  import opened Strings
  import opened RegistryModel
  import SR = ServiceResolver

  const RegistrationServiceName := "platform-registration-service"

  /** The environment variables the handlers read; `None` is an unset variable. */
  datatype ShellEnv = ShellEnv(
    registrationHost: Option<string>,
    registrationPort: Option<string>,
    consulHost: Option<string>,
    consulPort: Option<string>,
    navExclude: Option<string>)

  function RegistrationUrl(env: ShellEnv): string {
    SR.RegistrationUrl(env.registrationHost, env.registrationPort)
  }

  // ---------------------------------------------------------------- system status

  datatype ComponentStatus = ComponentStatus(status: string, message: string)

  datatype SystemStatus = SystemStatus(proxy: ComponentStatus, registration: ComponentStatus, url: string)

  /**
   * `GET /api/system-status`. `probe` is the outcome of the registration
   * service's health check: any response (its serving status is not looked at)
   * or the error's message.
   */
  method ReportSystemStatus(env: ShellEnv, probe: Result<int, string>) returns (status: SystemStatus, code: int)
    ensures status.url == RegistrationUrl(env)
    ensures status.proxy == ComponentStatus("healthy", "Platform shell proxy is running")
    ensures probe.Ok? ==> status.registration == ComponentStatus("healthy", "Platform registration service is reachable")
    ensures probe.Err? ==> status.registration == ComponentStatus("unavailable",
      "Cannot connect to platform-registration-service: " + OrElse(probe.error, "Connection refused"))
    ensures code == 200 <==> probe.Ok?
    ensures code == 200 <==> status.proxy.status == "healthy" && status.registration.status == "healthy"
    ensures code == 200 || code == 503
  {
    status := SystemStatus(
      ComponentStatus("healthy", "Platform shell proxy is running"),
      ComponentStatus("unknown", "Checking platform-registration-service..."),
      RegistrationUrl(env));
    match probe {
      case Ok(_) =>
        status := status.(registration := ComponentStatus("healthy", "Platform registration service is reachable"));
      case Err(message) =>
        status := status.(registration := ComponentStatus("unavailable",
          "Cannot connect to platform-registration-service: " + OrElse(message, "Connection refused")));
    }
    var overallHealthy := status.proxy.status == "healthy" && status.registration.status == "healthy";
    code := if overallHealthy then 200 else 503;
  }

  // ---------------------------------------------------------------- registry listing

  /** A metadata value as the listing delivers it: text, or a list of texts (as `tags` is). */
  datatype MetaValue = MetaString(text: string) | MetaList(items: seq<string>)

  datatype RawService = RawService(
    serviceName: string,
    metadata: map<string, MetaValue>,
    tags: seq<string>,
    capabilities: seq<string>,
    version: string)

  datatype RawModule = RawModule(
    moduleName: string,
    serviceName: string,
    metadata: map<string, MetaValue>,
    tags: seq<string>,
    capabilities: seq<string>,
    version: string)

  /** The metadata entries whose value is a string. */
  function StringMetadata(m: map<string, MetaValue>): map<string, string> {
    map k | k in m && m[k].MetaString? :: m[k].text
  }

  /** Whether `key` holds a non-empty text, the only value `||` does not skip among texts. */
  predicate HasText(m: map<string, MetaValue>, key: string) {
    key in m && m[key].MetaString? && m[key].text != ""
  }

  /** The `tags` list carried in a module's metadata, if any. */
  function MetadataTags(m: map<string, MetaValue>): seq<string> {
    if "tags" in m && m["tags"].MetaList? then m["tags"].items else []
  }

  function ConsulUrl(env: ShellEnv): string {
    "http://" + OrElse(env.consulHost.GetOr(""), "localhost") + ":" + OrElse(env.consulPort.GetOr(""), "8500")
  }

  /** Where the shell serves the UI of a known service; consul's is its own external UI. */
  function ServiceUiPath(env: ShellEnv): map<string, string> {
    map[
      "platform-registration-service" := "/platform-registration/",
      "repository-service" := "/repository/",
      "account-manager" := "/account/",
      "connector-service" := "/admin-connector/",
      "opensearch-manager" := "/opensearch-manager",
      "mapping-service" := "/mapping-service/",
      "consul" := ConsulUrl(env)]
  }

  /** A service's UI target: its known path, or `/<name>`. */
  function ServiceTarget(env: ShellEnv, name: string): (t: string)
    ensures name in ServiceUiPath(env) ==> t == ServiceUiPath(env)[name]
    ensures name !in ServiceUiPath(env) ==> t == "/" + name
  {
    var paths := ServiceUiPath(env);
    OrElse(if name in paths then paths[name] else "", "/" + name)
  }

  /**
   * `PROXY_NAV_EXCLUDE` split on commas, each piece trimmed, empty pieces
   * dropped.
   */
  function ExcludedServices(navExclude: Option<string>): (r: seq<string>)
    ensures forall x :: x in r <==> x != "" && exists p :: p in Split(navExclude.GetOr(""), ',') && Trim(p) == x
  {
    TrimmedNonEmpty(Split(navExclude.GetOr(""), ','))
  }

  function TrimmedNonEmpty(parts: seq<string>): (r: seq<string>)
    ensures forall x :: x in r <==> x != "" && exists p :: p in parts && Trim(p) == x
  {
    if parts == [] then []
    else
      var t := Trim(parts[0]);
      var rest := TrimmedNonEmpty(parts[1..]);
      assert forall p :: p in parts <==> p == parts[0] || p in parts[1..];
      (if t != "" then [t] else []) + rest
  }

  /** A listed service is shown unless its name is empty or excluded. */
  predicate ShownService(excluded: seq<string>, name: string) {
    name != "" && name !in excluded
  }

  /** `consul` or a `service-type` of INFRA/INFRASTRUCTURE (any case) puts a service under Infrastructure. */
  function ServiceKind(name: string, metadata: map<string, string>): (k: RegistryKind)
    ensures k == INFRA || k == SERVICE
    ensures k == INFRA <==> (name == "consul"
      || ToUpper(OrElse(SR.MetaOr(metadata, "service-type"), SR.MetaOr(metadata, "service_type"))) in {"INFRA", "INFRASTRUCTURE"})
  {
    var serviceType := ToUpper(OrElse(SR.MetaOr(metadata, "service-type"), SR.MetaOr(metadata, "service_type")));
    if name == "consul" || serviceType == "INFRA" || serviceType == "INFRASTRUCTURE" then INFRA else SERVICE
  }

  /** The registry entry of a shown service, given whether it resolves. */
  function ServiceEntry(env: ShellEnv, raw: RawService, isResolvable: bool): (e: RegistryEntry)
    ensures e.name == raw.serviceName && e.kind == ServiceKind(raw.serviceName, e.metadata)
    ensures forall k :: k in e.metadata <==> k in raw.metadata && raw.metadata[k].MetaString?
    ensures forall k :: k in e.metadata ==> raw.metadata[k] == MetaString(e.metadata[k])
    ensures HasText(raw.metadata, "display-name") ==> e.displayName == raw.metadata["display-name"].text
    ensures !HasText(raw.metadata, "display-name") && HasText(raw.metadata, "display_name") ==>
      e.displayName == raw.metadata["display_name"].text
    ensures !HasText(raw.metadata, "display-name") && !HasText(raw.metadata, "display_name") ==>
      e.displayName == raw.serviceName
    ensures raw.version != "" ==> e.version == Some(raw.version)
    ensures raw.version == "" ==>
      e.version == if "version" in raw.metadata && raw.metadata["version"].MetaString?
                   then Some(raw.metadata["version"].text) else None
    ensures e.tags == raw.tags && e.capabilities == raw.capabilities
    ensures e.targetHint == Some(ServiceTarget(env, raw.serviceName))
    ensures e.resolvable <==> isResolvable || StartsWith(ServiceTarget(env, raw.serviceName), "http")
  {
    var metadata := StringMetadata(raw.metadata);
    var name := raw.serviceName;
    var target := ServiceTarget(env, name);
    RegistryEntry(
      name,
      OrElse(SR.MetaOr(metadata, "display-name"), OrElse(SR.MetaOr(metadata, "display_name"), name)),
      ServiceKind(name, metadata),
      raw.tags,
      raw.capabilities,
      if raw.version != "" then Some(raw.version)
      else if "version" in metadata then Some(metadata["version"]) else None,
      metadata,
      isResolvable || StartsWith(target, "http"),
      Some(target))
  }

  /** A module's name: its module name, or its service name when that is empty. */
  function ModuleName(raw: RawModule): string {
    OrElse(raw.moduleName, raw.serviceName)
  }

  /** The registry entry of a listed module, given whether it resolves. */
  function ModuleEntry(raw: RawModule, isResolvable: bool): (e: RegistryEntry)
    ensures e.name == ModuleName(raw) && e.kind == MODULE
    ensures forall k :: k in e.metadata <==> k in raw.metadata && raw.metadata[k].MetaString?
    ensures forall k :: k in e.metadata ==> raw.metadata[k] == MetaString(e.metadata[k])
    ensures HasText(raw.metadata, "display-name") ==> e.displayName == raw.metadata["display-name"].text
    ensures !HasText(raw.metadata, "display-name") && HasText(raw.metadata, "display_name") ==>
      e.displayName == raw.metadata["display_name"].text
    ensures !HasText(raw.metadata, "display-name") && !HasText(raw.metadata, "display_name") ==>
      e.displayName == ModuleName(raw)
    ensures raw.version != "" ==> e.version == Some(raw.version)
    ensures raw.version == "" && HasText(raw.metadata, "module-version") ==>
      e.version == Some(raw.metadata["module-version"].text)
    ensures raw.version == "" && !HasText(raw.metadata, "module-version") ==>
      e.version == if "version" in raw.metadata && raw.metadata["version"].MetaString?
                   then Some(raw.metadata["version"].text) else None
    ensures "tags" in raw.metadata && raw.metadata["tags"].MetaList? ==> e.tags == raw.tags + raw.metadata["tags"].items
    ensures !("tags" in raw.metadata && raw.metadata["tags"].MetaList?) ==> e.tags == raw.tags
    ensures e.capabilities == raw.capabilities
    ensures e.targetHint == Some("/modules/" + ModuleName(raw)) && e.resolvable == isResolvable
  {
    var metadata := StringMetadata(raw.metadata);
    var name := ModuleName(raw);
    RegistryEntry(
      name,
      OrElse(SR.MetaOr(metadata, "display-name"), OrElse(SR.MetaOr(metadata, "display_name"), name)),
      MODULE,
      raw.tags + MetadataTags(raw.metadata),
      raw.capabilities,
      if raw.version != "" then Some(raw.version)
      else if SR.MetaOr(metadata, "module-version") != "" then Some(metadata["module-version"])
      else if "version" in metadata then Some(metadata["version"]) else None,
      metadata,
      isResolvable,
      Some("/modules/" + name))
  }

  /**
   * Whether a name resolves: `consul` always does; any other name when dialing
   * it through the service resolver succeeds (`canResolve`).
   */
  predicate Resolvable(canResolve: string -> bool, name: string) {
    name == "consul" || canResolve(name)
  }

  /** The memo of `markResolvable`: each name is looked up at most once per request. */
  class ResolvableMemo {
    const canResolve: string -> bool
    var resolvable: map<string, bool>
    /** The names dialed so far, in order. */
    ghost var lookups: seq<string>

    ghost predicate Valid()
      reads this
    {
      (forall n :: n in resolvable ==> resolvable[n] == Resolvable(canResolve, n))
      && (forall i :: 0 <= i < |lookups| ==> lookups[i] in resolvable && lookups[i] != "consul")
      && (forall i, j :: 0 <= i < j < |lookups| ==> lookups[i] != lookups[j])
    }

    constructor (canResolve: string -> bool)
      ensures Valid()
      ensures this.canResolve == canResolve && resolvable == map[] && lookups == []
    {
      this.canResolve := canResolve;
      resolvable := map[];
      lookups := [];
    }

    /** `markResolvable`: the cached answer, or a lookup (none for `consul`) that is then cached. */
    method MarkResolvable(name: string) returns (r: bool)
      requires Valid()
      modifies this
      ensures Valid()
      ensures r == Resolvable(canResolve, name)
      ensures resolvable == old(resolvable)[name := r]
      ensures lookups == old(lookups) + (if name in old(resolvable) || name == "consul" then [] else [name])
    {
      if name in resolvable {
        return resolvable[name];
      }
      if name != "consul" {
        lookups := lookups + [name];
      }
      r := name == "consul" || canResolve(name);
      resolvable := resolvable[name := r];
    }
  }

  /** The entries of the shown services of kind `kind`, in listing order. */
  function ServiceGroup(env: ShellEnv, excluded: seq<string>, raws: seq<RawService>, canResolve: string -> bool, kind: RegistryKind): (g: seq<RegistryEntry>)
    ensures |g| <= |raws|
    ensures forall e :: e in g ==> e.kind == kind && ShownService(excluded, e.name)
  {
    if raws == [] then []
    else
      var raw := raws[|raws| - 1];
      var prefix := ServiceGroup(env, excluded, raws[..|raws| - 1], canResolve, kind);
      var entry := ServiceEntry(env, raw, Resolvable(canResolve, raw.serviceName));
      prefix + (if ShownService(excluded, raw.serviceName) && entry.kind == kind then [entry] else [])
  }

  /** Every shown service of kind `kind` has its entry in that group. */
  lemma {:induction false} ServiceGroupComplete(env: ShellEnv, excluded: seq<string>, raws: seq<RawService>, canResolve: string -> bool, kind: RegistryKind, i: int)
    requires 0 <= i < |raws| && ShownService(excluded, raws[i].serviceName)
    requires ServiceKind(raws[i].serviceName, StringMetadata(raws[i].metadata)) == kind
    ensures ServiceEntry(env, raws[i], Resolvable(canResolve, raws[i].serviceName)) in ServiceGroup(env, excluded, raws, canResolve, kind)
    decreases |raws|
  {
    if i < |raws| - 1 {
      var prefix := raws[..|raws| - 1];
      assert prefix[i] == raws[i];
      ServiceGroupComplete(env, excluded, prefix, canResolve, kind, i);
    }
  }

  /** One more listed service extends each group by at most its entry. */
  lemma ServiceGroupSnoc(env: ShellEnv, excluded: seq<string>, raws: seq<RawService>, i: int, canResolve: string -> bool)
    requires 0 <= i < |raws|
    ensures var entry := ServiceEntry(env, raws[i], Resolvable(canResolve, raws[i].serviceName));
      && ServiceGroup(env, excluded, raws[..i + 1], canResolve, SERVICE) == ServiceGroup(env, excluded, raws[..i], canResolve, SERVICE)
        + (if ShownService(excluded, raws[i].serviceName) && entry.kind == SERVICE then [entry] else [])
      && ServiceGroup(env, excluded, raws[..i + 1], canResolve, INFRA) == ServiceGroup(env, excluded, raws[..i], canResolve, INFRA)
        + (if ShownService(excluded, raws[i].serviceName) && entry.kind == INFRA then [entry] else [])
  {
    assert raws[..i + 1][..i] == raws[..i];
  }

  /** The entries of the listed modules with a name, in listing order. */
  function ModuleGroup(raws: seq<RawModule>, canResolve: string -> bool): (g: seq<RegistryEntry>)
    ensures |g| <= |raws|
    ensures forall e :: e in g ==> e.kind == MODULE && e.name != ""
  {
    if raws == [] then []
    else
      var raw := raws[|raws| - 1];
      var prefix := ModuleGroup(raws[..|raws| - 1], canResolve);
      prefix + (if ModuleName(raw) != "" then [ModuleEntry(raw, Resolvable(canResolve, ModuleName(raw)))] else [])
  }

  /** Every listed module with a name has its entry in the modules group. */
  lemma {:induction false} ModuleGroupComplete(raws: seq<RawModule>, canResolve: string -> bool, i: int)
    requires 0 <= i < |raws| && ModuleName(raws[i]) != ""
    ensures ModuleEntry(raws[i], Resolvable(canResolve, ModuleName(raws[i]))) in ModuleGroup(raws, canResolve)
    decreases |raws|
  {
    if i < |raws| - 1 {
      var prefix := raws[..|raws| - 1];
      assert prefix[i] == raws[i];
      ModuleGroupComplete(prefix, canResolve, i);
    }
  }

  /** The groups the menu handler fills from a listing. */
  function CollectGroups(env: ShellEnv, services: seq<RawService>, modules: seq<RawModule>, canResolve: string -> bool): RegistryGroups {
    var excluded := ExcludedServices(env.navExclude);
    RegistryGroups([], ServiceGroup(env, excluded, services, canResolve, SERVICE), ModuleGroup(modules, canResolve),
      ServiceGroup(env, excluded, services, canResolve, INFRA), [])
  }

  // ---------------------------------------------------------------- navigation menu

  /** A menu child: an external link, or an in-app page that is disabled when its target does not resolve. */
  datatype NavChild =
    | ExternalLink(title: string, icon: string, href: string)
    | Page(title: string, icon: string, to: Option<string>, disabled: bool)

  datatype NavItem =
    | CoreItem(title: string, icon: string, to: string)
    | GroupItem(title: string, icon: string, children: seq<NavChild>)

  const CoreItems: seq<NavItem> := [
    CoreItem("Home", "mdi-home", "/"),
    CoreItem("Health", "mdi-heart-pulse", "/health"),
    CoreItem("Components", "mdi-palette", "/components"),
    CoreItem("Mapping", "mdi-code-braces", "/mapping"),
    CoreItem("Modules", "mdi-puzzle", "/modules"),
    CoreItem("Links", "mdi-link-variant", "/links")]

  /** The static menu served when the registry cannot be listed. */
  const FallbackItems: seq<NavItem> := CoreItems + [
    CoreItem("Repository", "mdi-database", "/repository"),
    CoreItem("Platform Registration", "mdi-account-cog", "/platform-registration")]

  /** A service or infrastructure entry as a menu child. */
  function EntryChild(e: RegistryEntry, icon: string): NavChild {
    if e.targetHint.Some? && StartsWith(e.targetHint.value, "http") then ExternalLink(e.displayName, icon, e.targetHint.value)
    else Page(e.displayName, icon, e.targetHint, !e.resolvable)
  }

  /** A module entry as a menu child: always an in-app page. */
  function ModuleChild(e: RegistryEntry): NavChild {
    Page(e.displayName, "mdi-puzzle", Some(OrElse(e.targetHint.GetOr(""), "/modules/" + e.name)), !e.resolvable)
  }

  function EntryChildren(entries: seq<RegistryEntry>, icon: string): (c: seq<NavChild>)
    ensures |c| == |entries|
    ensures forall i :: 0 <= i < |entries| ==> c[i] == EntryChild(entries[i], icon)
  {
    seq(|entries|, i requires 0 <= i < |entries| => EntryChild(entries[i], icon))
  }

  function ModuleChildren(entries: seq<RegistryEntry>): (c: seq<NavChild>)
    ensures |c| == |entries|
    ensures forall i :: 0 <= i < |entries| ==> c[i] == ModuleChild(entries[i])
  {
    seq(|entries|, i requires 0 <= i < |entries| => ModuleChild(entries[i]))
  }

  /** A group item, present only when it has children. */
  function GroupIfAny(title: string, icon: string, children: seq<NavChild>): seq<NavItem> {
    if |children| > 0 then [GroupItem(title, icon, children)] else []
  }

  /** The menu for the filled groups: the core items, then Services, Infrastructure and Modules. */
  function MenuItems(groups: RegistryGroups, le: (string, string) -> bool): seq<NavItem> {
    MenuOf(EntryChildren(SortEntries(groups.services, le), "mdi-cube"),
      EntryChildren(SortEntries(groups.infra, le), "mdi-server"),
      ModuleChildren(SortEntries(groups.modules, le)))
  }

  function MenuOf(serviceChildren: seq<NavChild>, infraChildren: seq<NavChild>, moduleChildren: seq<NavChild>): seq<NavItem> {
    CoreItems
    + GroupIfAny("Services", "mdi-cube-outline", serviceChildren)
    + GroupIfAny("Infrastructure", "mdi-office-building", infraChildren)
    + GroupIfAny("Modules", "mdi-puzzle", moduleChildren)
  }

  /**
   * `GET /connect/system-nav/menu-items.json`. The two listings arrive
   * together; if either fails the static menu is served. `le` is the display
   * name order.
   */
  method BuildMenuItems(
    env: ShellEnv,
    servicesResp: Result<seq<RawService>, string>,
    modulesResp: Result<seq<RawModule>, string>,
    canResolve: string -> bool,
    le: (string, string) -> bool)
    returns (navItems: seq<NavItem>)
    ensures servicesResp.Err? || modulesResp.Err? ==> navItems == FallbackItems
    ensures servicesResp.Ok? && modulesResp.Ok? ==>
      navItems == MenuItems(CollectGroups(env, servicesResp.value, modulesResp.value, canResolve), le)
  {
    if servicesResp.Err? || modulesResp.Err? {
      return FallbackItems;
    }
    var memo := new ResolvableMemo(canResolve);
    var excluded := ExcludedServices(env.navExclude);
    var groups := CollectServices(env, excluded, servicesResp.value, memo, canResolve);
    groups := CollectModules(groups, modulesResp.value, memo, canResolve);
    assert groups == CollectGroups(env, servicesResp.value, modulesResp.value, canResolve);
    navItems := AssembleNav(groups, le);
  }

  /** The menu assembly: the core items, then each non-empty group's item. */
  method AssembleNav(groups: RegistryGroups, le: (string, string) -> bool) returns (navItems: seq<NavItem>)
    ensures navItems == MenuItems(groups, le)
  {
    var serviceChildren := EntryChildren(SortEntries(groups.services, le), "mdi-cube");
    var infraChildren := EntryChildren(SortEntries(groups.infra, le), "mdi-server");
    var moduleChildren := ModuleChildren(SortEntries(groups.modules, le));
    navItems := PushGroups(serviceChildren, infraChildren, moduleChildren);
  }

  /** The pushes of the group items that have children. */
  method PushGroups(serviceChildren: seq<NavChild>, infraChildren: seq<NavChild>, moduleChildren: seq<NavChild>)
    returns (navItems: seq<NavItem>)
    ensures navItems == MenuOf(serviceChildren, infraChildren, moduleChildren)
  {
    navItems := CoreItems;
    if |serviceChildren| > 0 {
      navItems := navItems + [GroupItem("Services", "mdi-cube-outline", serviceChildren)];
    }
    if |infraChildren| > 0 {
      navItems := navItems + [GroupItem("Infrastructure", "mdi-office-building", infraChildren)];
    }
    if |moduleChildren| > 0 {
      navItems := navItems + [GroupItem("Modules", "mdi-puzzle", moduleChildren)];
    }
  }

  /** The services loop: each shown service goes to the services or infra group. */
  method CollectServices(env: ShellEnv, excluded: seq<string>, raws: seq<RawService>, memo: ResolvableMemo, ghost canResolve: string -> bool)
    returns (groups: RegistryGroups)
    requires memo.Valid() && memo.canResolve == canResolve
    modifies memo
    ensures memo.Valid() && memo.canResolve == canResolve
    ensures groups == RegistryGroups([], ServiceGroup(env, excluded, raws, canResolve, SERVICE), [],
      ServiceGroup(env, excluded, raws, canResolve, INFRA), [])
  {
    groups := CreateEmptyRegistryGroups();
    for i := 0 to |raws|
      invariant memo.Valid() && memo.canResolve == canResolve
      invariant groups == RegistryGroups([], ServiceGroup(env, excluded, raws[..i], canResolve, SERVICE), [],
        ServiceGroup(env, excluded, raws[..i], canResolve, INFRA), [])
    {
      ServiceGroupSnoc(env, excluded, raws, i, canResolve);
      var raw := raws[i];
      if raw.serviceName == "" || raw.serviceName in excluded {
        continue;
      }
      var isResolvable := memo.MarkResolvable(raw.serviceName);
      var entry := ServiceEntry(env, raw, isResolvable);
      if entry.kind == INFRA {
        groups := groups.(infra := groups.infra + [entry]);
      } else {
        groups := groups.(services := groups.services + [entry]);
      }
    }
    assert raws[..|raws|] == raws;
  }

  /** The modules loop: each module with a name goes to the modules group. */
  method CollectModules(groups0: RegistryGroups, raws: seq<RawModule>, memo: ResolvableMemo, ghost canResolve: string -> bool)
    returns (groups: RegistryGroups)
    requires memo.Valid() && memo.canResolve == canResolve
    modifies memo
    ensures memo.Valid() && memo.canResolve == canResolve
    ensures groups == groups0.(modules := groups0.modules + ModuleGroup(raws, canResolve))
  {
    groups := groups0;
    for i := 0 to |raws|
      invariant memo.Valid() && memo.canResolve == canResolve
      invariant groups == groups0.(modules := groups0.modules + ModuleGroup(raws[..i], canResolve))
    {
      assert raws[..i + 1][..i] == raws[..i];
      var moduleName := ModuleName(raws[i]);
      if moduleName == "" {
        continue;
      }
      var isResolvable := memo.MarkResolvable(moduleName);
      groups := groups.(modules := groups.modules + [ModuleEntry(raws[i], isResolvable)]);
    }
    assert raws[..|raws|] == raws;
  }

  // ---------------------------------------------------------------- menu properties

  /** Excluded or unnamed services never reach the menu's groups; modules are not subject to exclusion. */
  lemma ExcludedServicesHidden(env: ShellEnv, services: seq<RawService>, modules: seq<RawModule>, canResolve: string -> bool, name: string)
    requires name == "" || name in ExcludedServices(env.navExclude)
    ensures forall e :: e in CollectGroups(env, services, modules, canResolve).services ==> e.name != name
    ensures forall e :: e in CollectGroups(env, services, modules, canResolve).infra ==> e.name != name
  {
  }

  /** Every shown service lands in exactly one of the Services and Infrastructure groups. */
  lemma ShownServiceGrouped(env: ShellEnv, services: seq<RawService>, modules: seq<RawModule>, canResolve: string -> bool, i: int)
    requires 0 <= i < |services| && ShownService(ExcludedServices(env.navExclude), services[i].serviceName)
    ensures var groups := CollectGroups(env, services, modules, canResolve);
      var e := ServiceEntry(env, services[i], Resolvable(canResolve, services[i].serviceName));
      (e in groups.services && e !in groups.infra) || (e in groups.infra && e !in groups.services)
  {
    var e := ServiceEntry(env, services[i], Resolvable(canResolve, services[i].serviceName));
    ServiceGroupComplete(env, ExcludedServices(env.navExclude), services, canResolve, e.kind, i);
  }

  /** consul is always an enabled, external Infrastructure link to its own UI. */
  lemma ConsulIsExternalInfra(env: ShellEnv, raw: RawService, isResolvable: bool)
    requires raw.serviceName == "consul"
    ensures ServiceEntry(env, raw, isResolvable).kind == INFRA
    ensures ServiceEntry(env, raw, isResolvable).resolvable
    ensures EntryChild(ServiceEntry(env, raw, isResolvable), "mdi-server") == ExternalLink(
      ServiceEntry(env, raw, isResolvable).displayName, "mdi-server", ConsulUrl(env))
  {
    assert StartsWith(ConsulUrl(env), "http");
  }

  /** Any other service is an in-app page, disabled exactly when it does not resolve. */
  lemma InternalServicePage(env: ShellEnv, raw: RawService, canResolve: string -> bool, icon: string)
    requires raw.serviceName != "consul"
    ensures var e := ServiceEntry(env, raw, Resolvable(canResolve, raw.serviceName));
      EntryChild(e, icon) == Page(e.displayName, icon, Some(ServiceTarget(env, raw.serviceName)), !canResolve(raw.serviceName))
  {
    var name := raw.serviceName;
    var target := ServiceTarget(env, name);
    if name !in ServiceUiPath(env) {
      assert target == "/" + name;
    }
    assert target[0] == '/';
  }

  /** A module page is disabled exactly when the module does not resolve, and points at `/modules/<name>`. */
  lemma ModulePage(raw: RawModule, canResolve: string -> bool)
    requires ModuleName(raw) != ""
    ensures var e := ModuleEntry(raw, Resolvable(canResolve, ModuleName(raw)));
      ModuleChild(e) == Page(e.displayName, "mdi-puzzle", Some("/modules/" + ModuleName(raw)), !Resolvable(canResolve, ModuleName(raw)))
  {
  }

  /**
   * The menu starts with the core items, has a group exactly for each
   * non-empty group, and each group lists all of its entries.
   */
  lemma MenuShape(groups: RegistryGroups, le: (string, string) -> bool)
    ensures var items := MenuItems(groups, le);
      && items[..|CoreItems|] == CoreItems
      && |items| == |CoreItems| + (if groups.services != [] then 1 else 0)
        + (if groups.infra != [] then 1 else 0) + (if groups.modules != [] then 1 else 0)
      && GroupsOnly(items[|CoreItems|..])
  {
    MenuOfShape(EntryChildren(SortEntries(groups.services, le), "mdi-cube"),
      EntryChildren(SortEntries(groups.infra, le), "mdi-server"),
      ModuleChildren(SortEntries(groups.modules, le)));
  }

  lemma MenuOfShape(serviceChildren: seq<NavChild>, infraChildren: seq<NavChild>, moduleChildren: seq<NavChild>)
    ensures var items := MenuOf(serviceChildren, infraChildren, moduleChildren);
      && items[..|CoreItems|] == CoreItems
      && |items| == |CoreItems| + (if serviceChildren != [] then 1 else 0)
        + (if infraChildren != [] then 1 else 0) + (if moduleChildren != [] then 1 else 0)
      && GroupsOnly(items[|CoreItems|..])
  {
    var s := GroupIfAny("Services", "mdi-cube-outline", serviceChildren);
    var f := GroupIfAny("Infrastructure", "mdi-office-building", infraChildren);
    var m := GroupIfAny("Modules", "mdi-puzzle", moduleChildren);
    GroupsOnlyAppend(s, f);
    GroupsOnlyAppend(s + f, m);
    assert MenuOf(serviceChildren, infraChildren, moduleChildren) == CoreItems + (s + f + m);
  }

  /** Every item is a group with at least one child. */
  ghost predicate GroupsOnly(items: seq<NavItem>) {
    forall k :: 0 <= k < |items| ==> items[k].GroupItem? && |items[k].children| > 0
  }

  lemma GroupsOnlyAppend(a: seq<NavItem>, b: seq<NavItem>)
    requires GroupsOnly(a) && GroupsOnly(b)
    ensures GroupsOnly(a + b)
  {
    forall k | 0 <= k < |a + b| ensures (a + b)[k].GroupItem? && |(a + b)[k].children| > 0 {
      if k >= |a| {
        assert (a + b)[k] == b[k - |a|];
      }
    }
  }

  // ---------------------------------------------------------------- health snapshot

  const ServicesToCheck: seq<string> := [
    "platform-registration-service", "repository-service", "mapping-service", "opensearch-manager"]

  datatype CheckResult = CheckResult(name: string, status: string, target: string, error: Option<string>)

  /**
   * `checkService`: the registration service is dialed at its fixed URL, any
   * other through the resolver (`dial` gives the resolver's error, if any);
   * then `probe` is the health check's serving status or error message.
   */
  function CheckService(name: string, registrationUrl: string, dial: Option<string>, probe: Result<int, string>): (r: CheckResult)
    ensures r.name == name
    ensures r.error.None? <==> r.status != "UNKNOWN"
    ensures r.error.None? <==> (name == RegistrationServiceName || dial.None?) && probe.Ok?
    ensures r.error.None? ==> r.status == IntToDecimal(probe.value)
    ensures name != RegistrationServiceName && dial.Some? ==> r == CheckResult(name, "UNKNOWN", "", dial)
    ensures name == RegistrationServiceName ==> r.target == registrationUrl
    ensures name != RegistrationServiceName && dial.None? ==> r.target == "dynamic"
  {
    if name != RegistrationServiceName && dial.Some? then CheckResult(name, "UNKNOWN", "", dial)
    else
      var target := if name == RegistrationServiceName then registrationUrl else "dynamic";
      match probe
      case Ok(status) =>
        var text := IntToDecimal(status);
        assert text[0] != 'U';
        CheckResult(name, text, target, None)
      case Err(message) => CheckResult(name, "UNKNOWN", target, Some(message))
  }

  /** `GET /connect/system/health-snapshot`: one result per checked service, in order. */
  function HealthSnapshot(env: ShellEnv, dial: string -> Option<string>, probe: string -> Result<int, string>): (r: seq<CheckResult>)
    ensures |r| == |ServicesToCheck|
    ensures forall i :: 0 <= i < |r| ==> r[i].name == ServicesToCheck[i]
    ensures forall i :: 0 <= i < |r| ==>
      r[i] == CheckService(ServicesToCheck[i], RegistrationUrl(env), dial(ServicesToCheck[i]), probe(ServicesToCheck[i]))
  {
    seq(|ServicesToCheck|, i requires 0 <= i < |ServicesToCheck| =>
      CheckService(ServicesToCheck[i], RegistrationUrl(env), dial(ServicesToCheck[i]), probe(ServicesToCheck[i])))
  }

  // ---------------------------------------------------------------- cache invalidation

  /** `POST /connect/system/invalidate-cache`: empties the resolver's cache and reports success. */
  method InvalidateCache(registry: SR.ServiceRegistry) returns (status: string, message: string)
    modifies registry
    ensures registry.services == map[]
    ensures status == "success" && message == "Service registry cache cleared"
  {
    registry.Clear();
    status := "success";
    message := "Service registry cache cleared";
  }
}
