/**
 * The sequential decisions of the gateway's RPC routes: which transport a call
 * uses (the `x-target-backend` header, per-service defaults, the registration
 * service's fixed channel), which services the aggregated health watch
 * subscribes to, and the FIFO queue that merges their health events.
 */
module ConnectRoutes {
  import opened Wrappers
  import opened Strings
  import opened ServiceResolver

  const RegistrationServiceName := "platform-registration-service"

  /** `UNKNOWN` in the `grpc.health.v1` `ServingStatus` enumeration. */
  const StatusUnknown := 0

  /** The channel a proxied call uses: the fixed registration channel or a resolved one. */
  datatype Transport = RegistrationTransport | DynamicTransport(channel: GrpcTransport)

  /** `!headerValue`: a missing or empty header. */
  predicate HeaderAbsent(header: Option<string>) {
    header.None? || header.value == ""
  }

  /** The service name a header names: trimmed and lower-cased. */
  function HeaderServiceName(header: string): string {
    ToLower(Trim(header))
  }

  /**
   * `selectTransportFromHeader`: no header selects the registration channel; so
   * does the registration service's own name; any other name is resolved, and a
   * resolution failure falls back to the registration channel. It never fails.
   */
  function SelectTransportFromHeader(snapshot: Snapshot, header: Option<string>): (t: Transport)
    ensures HeaderAbsent(header) ==> t == RegistrationTransport
    ensures !HeaderAbsent(header) && HeaderServiceName(header.value) == RegistrationServiceName ==>
      t == RegistrationTransport
    ensures t.DynamicTransport? <==>
      !HeaderAbsent(header) && HeaderServiceName(header.value) != RegistrationServiceName
      && Resolve(snapshot, HeaderServiceName(header.value)).Ok?
    ensures t.DynamicTransport? ==>
      t.channel.baseUrl == BaseUrl(Resolve(snapshot, HeaderServiceName(header.value)).value)
  {
    if HeaderAbsent(header) then RegistrationTransport
    else
      var serviceName := HeaderServiceName(header.value);
      if serviceName == RegistrationServiceName then RegistrationTransport
      else
        match CreateDynamicTransport(snapshot, serviceName)
        case Ok(channel) => DynamicTransport(channel)
        case Err(_) => RegistrationTransport
  }

  // ------------------------------------------------------------------ per-RPC routing

  /** The proxied services, by the routing rule their handlers follow. */
  datatype RpcService =
    | MappingService
    | NodeUploadService
    | PipeStepProcessorService
    | DesignModeService
    | PlatformRegistrationService
    | PipeDocService
    | AccountService
    | DataSourceAdminService
    | HealthService

  /** The errors a proxied call can end in before it is forwarded. */
  datatype RouteError = InvalidArgument(message: string) | Unresolved(cause: ResolveError)

  /** Where a call goes, before resolution. */
  datatype RouteTarget = ToRegistration | ToService(name: string) | ByHeader(header: Option<string>)

  /** `header || fallback` */
  function HeaderOr(header: Option<string>, fallback: string): string {
    if HeaderAbsent(header) then fallback else header.value
  }

  /** The routing rule of each proxied service. */
  function TargetOf(service: RpcService, header: Option<string>): (r: Result<RouteTarget, RouteError>)
    ensures r.Err? <==> service == PipeStepProcessorService && HeaderAbsent(header)
    ensures service == PipeStepProcessorService && !HeaderAbsent(header) ==> r == Ok(ToService(header.value))
    ensures service in {NodeUploadService, PipeDocService} ==> r == Ok(ToService(HeaderOr(header, "repository-service")))
    ensures service == DesignModeService ==> r == Ok(ToService(HeaderOr(header, "design-mode")))
    ensures service == AccountService ==> r == Ok(ToService("account-manager"))
    ensures service == DataSourceAdminService ==> r == Ok(ToService("connector-service"))
    ensures service == MappingService ==> r == Ok(ToService("mapping-service"))
    ensures service == PlatformRegistrationService ==> r == Ok(ToRegistration)
    ensures service == HealthService ==> r == Ok(ByHeader(header))
  {
    match service
    case MappingService => Ok(ToService("mapping-service"))
    case NodeUploadService => Ok(ToService(HeaderOr(header, "repository-service")))
    case PipeDocService => Ok(ToService(HeaderOr(header, "repository-service")))
    case PipeStepProcessorService =>
      if HeaderAbsent(header)
      then Err(InvalidArgument("x-target-backend header is required for module requests"))
      else Ok(ToService(header.value))
    case DesignModeService => Ok(ToService(HeaderOr(header, "design-mode")))
    case PlatformRegistrationService => Ok(ToRegistration)
    case AccountService => Ok(ToService("account-manager"))
    case DataSourceAdminService => Ok(ToService("connector-service"))
    case HealthService => Ok(ByHeader(header))
  }

  /**
   * The channel a proxied call is forwarded on. A named target's resolution
   * error reaches the caller; only the health proxy's header lookup falls back.
   */
  function RouteCall(snapshot: Snapshot, service: RpcService, header: Option<string>): (r: Result<Transport, RouteError>)
    ensures service == HealthService ==> r == Ok(SelectTransportFromHeader(snapshot, header))
    ensures service == PlatformRegistrationService ==> r == Ok(RegistrationTransport)
    ensures TargetOf(service, header).Err? ==> r == Err(TargetOf(service, header).error)
    ensures TargetOf(service, header).Ok? && TargetOf(service, header).value.ToService? ==>
      r == match CreateDynamicTransport(snapshot, TargetOf(service, header).value.name)
           case Ok(channel) => Ok(DynamicTransport(channel))
           case Err(e) => Err(Unresolved(e))
  {
    match TargetOf(service, header)
    case Err(e) => Err(e)
    case Ok(ToRegistration) => Ok(RegistrationTransport)
    case Ok(ByHeader(h)) => Ok(SelectTransportFromHeader(snapshot, h))
    case Ok(ToService(name)) =>
      match CreateDynamicTransport(snapshot, name)
      case Ok(channel) => Ok(DynamicTransport(channel))
      case Err(e) => Err(Unresolved(e))
  }

  /** A module call without the header is refused with the handler's own message. */
  lemma RouteCallModuleNeedsHeader(snapshot: Snapshot, header: Option<string>)
    requires HeaderAbsent(header)
    ensures RouteCall(snapshot, PipeStepProcessorService, header)
      == Err(InvalidArgument("x-target-backend header is required for module requests"))
  {
  }

  /** The account and data-source calls ignore the header. */
  lemma RouteCallIgnoresHeader(snapshot: Snapshot, service: RpcService, header: Option<string>)
    requires service == AccountService || service == DataSourceAdminService
    ensures RouteCall(snapshot, service, header) == RouteCall(snapshot, service, None)
  {
  }

  /** Without the header, repository calls succeed exactly when the repository service resolves. */
  lemma RouteCallRepository(snapshot: Snapshot, service: RpcService, header: Option<string>)
    requires service == NodeUploadService || service == PipeDocService
    requires HeaderAbsent(header)
    ensures RouteCall(snapshot, service, header).Ok? <==> Resolve(snapshot, "repository-service").Ok?
  {
  }

  /** A failed resolution of a named target is the call's error. */
  lemma RouteCallResolveErrors(snapshot: Snapshot, service: RpcService, header: Option<string>)
    requires service != HealthService && TargetOf(service, header).Ok? && TargetOf(service, header).value.ToService?
    ensures RouteCall(snapshot, service, header).Err? <==> Resolve(snapshot, TargetOf(service, header).value.name).Err?
  {
  }

  // ------------------------------------------------------------------ health candidates

  /** A registry listing entry as `watchHealth` reads it. */
  datatype ListedService = ListedService(serviceName: string, tags: seq<string>)

  function Names(services: seq<ListedService>): (names: seq<string>)
    ensures |names| == |services|
    ensures forall i :: 0 <= i < |services| ==> names[i] == services[i].serviceName
  {
    if services == [] then [] else [services[0].serviceName] + Names(services[1..])
  }

  /** The names of a listing prefix one entry longer. */
  lemma NamesSnoc(services: seq<ListedService>, i: int)
    requires 0 <= i < |services|
    ensures Names(services[..i + 1]) == Names(services[..i]) + [services[i].serviceName]
  {
    var a, b := Names(services[..i + 1]), Names(services[..i]) + [services[i].serviceName];
    forall k | 0 <= k < |a| ensures a[k] == b[k] {
    }
  }

  /** The listing's names with empty names and later duplicates dropped, in first-occurrence order. */
  function Dedupe(names: seq<string>): (out: seq<string>)
    ensures forall x :: x in out <==> x != "" && x in names
    ensures forall i, j :: 0 <= i < j < |out| ==> out[i] != out[j]
  {
    if names == [] then []
    else
      var prefix := names[..|names| - 1];
      var last := names[|names| - 1];
      var d := Dedupe(prefix);
      assert names == prefix + [last];
      if last == "" || last in d then d else d + [last]
  }

  /** Deduplicating one more name keeps it only when it is non-empty and new. */
  lemma DedupeSnoc(names: seq<string>, name: string)
    ensures Dedupe(names + [name]) == if name == "" || name in Dedupe(names) then Dedupe(names) else Dedupe(names) + [name]
  {
    assert (names + [name])[..|names|] == names;
  }

  /** The index of the first occurrence of `x` in `names`, or `|names|`. */
  function FirstIndex(names: seq<string>, x: string): (k: nat)
    ensures k <= |names|
    ensures k < |names| ==> names[k] == x
    ensures forall i :: 0 <= i < k ==> names[i] != x
  {
    if names == [] then 0
    else if names[0] == x then 0
    else 1 + FirstIndex(names[1..], x)
  }

  lemma {:induction false} FirstIndexPrefix(names: seq<string>, x: string)
    requires names != [] && x in names[..|names| - 1]
    ensures FirstIndex(names, x) == FirstIndex(names[..|names| - 1], x)
  {
    var prefix := names[..|names| - 1];
    if names[0] != x {
      var tail := names[1..];
      assert tail[..|tail| - 1] == prefix[1..];
      assert prefix == [names[0]] + prefix[1..];
      assert x in tail[..|tail| - 1];
      FirstIndexPrefix(tail, x);
    }
  }

  /** The deduplicated names keep the order in which each name first occurs in the listing. */
  lemma {:induction false} DedupeKeepsFirstOccurrenceOrder(names: seq<string>, k: int, l: int)
    requires 0 <= k < l < |Dedupe(names)|
    ensures FirstIndex(names, Dedupe(names)[k]) < FirstIndex(names, Dedupe(names)[l])
  {
    var prefix := names[..|names| - 1];
    var last := names[|names| - 1];
    var d := Dedupe(prefix);
    var out := Dedupe(names);
    assert names == prefix + [last];
    assert out[k] == d[k];
    FirstIndexPrefix(names, d[k]);
    if l < |d| {
      assert out[l] == d[l];
      FirstIndexPrefix(names, d[l]);
      DedupeKeepsFirstOccurrenceOrder(prefix, k, l);
    } else {
      assert out[l] == last && last !in prefix;
      assert FirstIndex(names, last) == |names| - 1;
    }
  }

  /**
   * Whether `watchHealth` subscribes to a candidate: never to `consul`, always
   * to the registration service, otherwise iff the name resolves to a truthy
   * host and a non-zero port.
   */
  predicate IsHealthTarget(snapshot: Snapshot, name: string) {
    name != "consul"
    && (name == RegistrationServiceName
        || (Resolve(snapshot, name).Ok? && Resolve(snapshot, name).value.host != ""
            && Resolve(snapshot, name).value.port != 0))
  }

  function HealthTargets(snapshot: Snapshot, candidates: seq<string>): (out: seq<string>)
    ensures forall x :: x in out <==> x in candidates && IsHealthTarget(snapshot, x)
  {
    if candidates == [] then []
    else
      var prefix := candidates[..|candidates| - 1];
      var last := candidates[|candidates| - 1];
      assert candidates == prefix + [last];
      HealthTargets(snapshot, prefix) + (if IsHealthTarget(snapshot, last) then [last] else [])
  }

  /**
   * The base services of one aggregated health watch: the listing's names,
   * empties and repeats dropped, then filtered by `IsHealthTarget`. A failed
   * listing counts as an empty one.
   */
  method HealthCandidates(snapshot: Snapshot, listing: Result<seq<ListedService>, string>)
    returns (baseServices: seq<string>)
    ensures listing.Ok? ==> baseServices == HealthTargets(snapshot, Dedupe(Names(listing.value)))
    ensures listing.Err? ==> baseServices == []
  {
    var services := if listing.Ok? then listing.value else [];
    var candidates := UniqueCandidates(services);
    baseServices := SelectHealthTargets(snapshot, candidates);
  }

  /** The `seen`-set filter: keeps each non-empty name the first time it occurs. */
  method UniqueCandidates(services: seq<ListedService>) returns (candidates: seq<string>)
    ensures candidates == Dedupe(Names(services))
  {
    var seen: set<string> := {};
    candidates := [];
    for i := 0 to |services|
      invariant candidates == Dedupe(Names(services[..i]))
      invariant forall x :: x in seen <==> x in candidates
    {
      var name := services[i].serviceName;
      NamesSnoc(services, i);
      DedupeSnoc(Names(services[..i]), name);
      if name != "" && name !in seen {
        seen := seen + {name};
        candidates := candidates + [name];
      }
    }
    assert services[..|services|] == services;
  }

  /** The loop that keeps the candidates `IsHealthTarget` accepts. */
  method SelectHealthTargets(snapshot: Snapshot, candidates: seq<string>) returns (baseServices: seq<string>)
    ensures baseServices == HealthTargets(snapshot, candidates)
  {
    baseServices := [];
    for i := 0 to |candidates|
      invariant baseServices == HealthTargets(snapshot, candidates[..i])
    {
      assert candidates[..i + 1][..i] == candidates[..i];
      var name := candidates[i];
      if name == "consul" {
        continue;
      }
      if name == RegistrationServiceName {
        baseServices := baseServices + [name];
        continue;
      }
      var resolved := Resolve(snapshot, name);
      if resolved.Ok? && resolved.value.host != "" && resolved.value.port != 0 {
        baseServices := baseServices + [name];
      }
    }
    assert candidates[..|candidates|] == candidates;
  }

  // ------------------------------------------------------------------ event queue

  /** One event of the aggregated health stream (its `observedAt` clock reading is not modelled). */
  datatype HealthUpdate = HealthUpdate(serviceName: string, displayName: string, target: string, status: int)

  /** The event a watcher emits when its subscription fails. */
  function FailureEvent(serviceName: string): (u: HealthUpdate)
    ensures u.status == StatusUnknown && u.target == "dynamic" && u.serviceName == serviceName
  {
    HealthUpdate(serviceName, serviceName, "dynamic", StatusUnknown)
  }

  /**
   * The queue that merges every watcher's events. `emitted` is everything ever
   * appended and `delivered` everything ever yielded; the queue holds the rest.
   */
  class HealthEventQueue {
    var queue: seq<HealthUpdate>
    ghost var emitted: seq<HealthUpdate>
    ghost var delivered: seq<HealthUpdate>

    ghost predicate Valid()
      reads this
    {
      delivered + queue == emitted
    }

    constructor ()
      ensures Valid() && queue == [] && emitted == [] && delivered == []
    {
      queue, emitted, delivered := [], [], [];
    }

    /** `emit`: appends one event. */
    method Emit(u: HealthUpdate)
      requires Valid()
      modifies this
      ensures Valid()
      ensures queue == old(queue) + [u] && emitted == old(emitted) + [u] && delivered == old(delivered)
    {
      queue := queue + [u];
      emitted := emitted + [u];
    }

    /** One drain of the consumer loop: yields the queued events in order, leaving the queue empty. */
    method Drain() returns (yielded: seq<HealthUpdate>)
      requires Valid()
      modifies this
      ensures Valid()
      ensures yielded == old(queue) && queue == []
      ensures delivered == old(delivered) + yielded && emitted == old(emitted)
    {
      yielded := [];
      while |queue| > 0
        invariant Valid()
        invariant yielded + queue == old(queue)
        invariant delivered == old(delivered) + yielded && emitted == old(emitted)
      {
        var u := queue[0];
        queue := queue[1..];
        yielded := yielded + [u];
        delivered := delivered + [u];
      }
    }
  }

  /** The events one health watcher emits, given the statuses its subscription delivers. */
  function WatcherEvents(snapshot: Snapshot, serviceName: string, registrationUrl: string,
                         statuses: seq<int>, failed: bool): seq<HealthUpdate>
  {
    if serviceName != RegistrationServiceName && Resolve(snapshot, serviceName).Err? then
      [FailureEvent(serviceName)]
    else
      var target := if serviceName == RegistrationServiceName then registrationUrl else "dynamic";
      StatusEvents(serviceName, target, statuses) + (if failed then [FailureEvent(serviceName)] else [])
  }

  function StatusEvents(serviceName: string, target: string, statuses: seq<int>): (events: seq<HealthUpdate>)
    ensures |events| == |statuses|
    ensures forall i :: 0 <= i < |statuses| ==>
      events[i] == HealthUpdate(serviceName, serviceName, target, statuses[i])
  {
    if statuses == [] then [] else [HealthUpdate(serviceName, serviceName, target, statuses[0])] + StatusEvents(serviceName, target, statuses[1..])
  }

  lemma StatusEventsSnoc(serviceName: string, target: string, statuses: seq<int>, x: int)
    ensures StatusEvents(serviceName, target, statuses + [x])
         == StatusEvents(serviceName, target, statuses) + [HealthUpdate(serviceName, serviceName, target, x)]
  {
  }

  /**
   * A watcher's events: each delivered status is reported with the registration
   * URL (for the registration service) or `dynamic`, and a failure (of the
   * subscription or of resolving the service) adds exactly one final UNKNOWN
   * event targeted `dynamic`.
   */
  lemma WatcherEventsShape(snapshot: Snapshot, serviceName: string, registrationUrl: string,
                           statuses: seq<int>, failed: bool)
    ensures var events := WatcherEvents(snapshot, serviceName, registrationUrl, statuses, failed);
      var unresolved := serviceName != RegistrationServiceName && Resolve(snapshot, serviceName).Err?;
      var target := if serviceName == RegistrationServiceName then registrationUrl else "dynamic";
      (unresolved ==> events == [FailureEvent(serviceName)])
      && (!unresolved ==>
            |events| == |statuses| + (if failed then 1 else 0)
            && (forall i :: 0 <= i < |statuses| ==> events[i].status == statuses[i] && events[i].target == target)
            && (failed ==> events[|events| - 1] == FailureEvent(serviceName)))
  {
  }

  /** One health watcher run to its end, emitting each event into the shared queue. */
  method RunWatcher(q: HealthEventQueue, snapshot: Snapshot, serviceName: string, registrationUrl: string,
                    statuses: seq<int>, failed: bool)
    requires q.Valid()
    modifies q
    ensures q.Valid()
    ensures q.queue == old(q.queue) + WatcherEvents(snapshot, serviceName, registrationUrl, statuses, failed)
    ensures q.delivered == old(q.delivered)
  {
    var target := "dynamic";
    if serviceName == RegistrationServiceName {
      target := registrationUrl;
    } else if CreateDynamicTransport(snapshot, serviceName).Err? {
      q.Emit(FailureEvent(serviceName));
      return;
    }
    assert WatcherEvents(snapshot, serviceName, registrationUrl, statuses, failed)
        == StatusEvents(serviceName, target, statuses) + (if failed then [FailureEvent(serviceName)] else []);
    EmitStatuses(q, serviceName, target, statuses);
    if failed {
      q.Emit(FailureEvent(serviceName));
    }
  }

  /** The watcher's `for await` loop: one event per delivered status. */
  method EmitStatuses(q: HealthEventQueue, serviceName: string, target: string, statuses: seq<int>)
    requires q.Valid()
    modifies q
    ensures q.Valid()
    ensures q.queue == old(q.queue) + StatusEvents(serviceName, target, statuses)
    ensures q.delivered == old(q.delivered)
  {
    for i := 0 to |statuses|
      invariant q.Valid() && q.delivered == old(q.delivered)
      invariant q.queue == old(q.queue) + StatusEvents(serviceName, target, statuses[..i])
    {
      var u := HealthUpdate(serviceName, serviceName, target, statuses[i]);
      assert statuses[..i + 1] == statuses[..i] + [statuses[i]];
      StatusEventsSnoc(serviceName, target, statuses[..i], statuses[i]);
      q.Emit(u);
    }
    assert statuses[..|statuses|] == statuses;
  }
}
