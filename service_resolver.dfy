/**
 * The gateway's registry cache and name resolver: the module-level map of
 * services pushed by the registry's watch stream, and the rules that turn a
 * logical service name into a `{host, port}` target (two alias rules, a static
 * loopback fallback table, HTTP-versus-native endpoint preference and loopback
 * host normalisation).
 */
module ServiceResolver {
  import opened Wrappers
  import opened Strings

  /** A network target: a `{host, port}` pair. */
  datatype Endpoint = Endpoint(host: string, port: int)

  /** One registered service (`GetServiceResponse`) as the registry reports it. */
  datatype ServiceRecord = ServiceRecord(
    serviceName: string,
    host: string,
    port: int,
    httpEndpoints: seq<Endpoint>,
    tags: seq<string>,
    capabilities: seq<string>,
    metadata: map<string, string>,
    isHealthy: bool)

  /** The registry cache's contents: service name to its latest record. */
  type Snapshot = map<string, ServiceRecord>

  /** Why a name could not be resolved. */
  datatype ResolveError = NotFound(serviceName: string)

  /** A client channel, identified by the base URL it dials. */
  datatype GrpcTransport = GrpcTransport(baseUrl: string)

  const Loopback := "127.0.0.1"

  /** Loopback ports of the common pipeline modules, used when the registry has no record. */
  const FallbackPorts: map<string, int> :=
    map["echo" := 39000, "parser" := 39001, "chunker" := 39002,
        "embedder" := 39003, "opensearch-sink" := 39004]

  /** A metadata value, read as the empty (falsy) string when the key is missing. */
  function MetaOr(metadata: map<string, string>, key: string): string
  {
    if key in metadata then metadata[key] else ""
  }

  /** The base URL of the registration service: `http://HOST:PORT` with defaults `localhost` and `38101`. */
  function RegistrationUrl(envHost: Option<string>, envPort: Option<string>): (url: string)
    ensures envHost == None && envPort == None ==> url == "http://localhost:38101"
  {
    "http://" + OrElse(envHost.GetOr(""), "localhost") + ":" + OrElse(envPort.GetOr(""), "38101")
  }

  // ------------------------------------------------------------------ registry cache

  /**
   * The registry a sequence of services describes: each name mapped to the last
   * record carrying it. This is what one watch message installs.
   */
  function LastByName(services: seq<ServiceRecord>): (m: Snapshot)
    ensures m.Keys == set i | 0 <= i < |services| :: services[i].serviceName
  {
    if services == [] then map[]
    else
      var last := services[|services| - 1];
      var m := LastByName(services[..|services| - 1]);
      assert forall i | 0 <= i < |services| - 1 :: services[..|services| - 1][i] == services[i];
      m[last.serviceName := last]
  }

  /** Every name of a watch message maps to the last record with that name. */
  lemma {:induction false} LastByNameKeepsLast(services: seq<ServiceRecord>, i: int)
    requires 0 <= i < |services|
    requires forall j :: i < j < |services| ==> services[j].serviceName != services[i].serviceName
    ensures services[i].serviceName in LastByName(services)
    ensures LastByName(services)[services[i].serviceName] == services[i]
  {
    var n := |services|;
    if i < n - 1 {
      var prefix := services[..n - 1];
      forall j | i < j < |prefix| ensures prefix[j].serviceName != prefix[i].serviceName {
        assert prefix[j] == services[j];
      }
      LastByNameKeepsLast(prefix, i);
      assert services[n - 1].serviceName != services[i].serviceName;
    }
  }

  /**
   * The cache the watch loop keeps. Each watch message replaces its contents
   * wholesale: a new map is built from the message, then the cache is cleared
   * and refilled from it.
   */
  class ServiceRegistry {
    var services: Snapshot

    constructor ()
      ensures services == map[]
    {
      services := map[];
    }

    /** Installs one watch message: afterwards the cache is exactly `LastByName(message)`. */
    method ApplyWatchMessage(message: seq<ServiceRecord>)
      modifies this
      ensures services == LastByName(message)
    {
      var newRegistry: Snapshot := map[];
      for i := 0 to |message|
        invariant newRegistry == LastByName(message[..i])
      {
        assert message[..i + 1][..i] == message[..i];
        newRegistry := newRegistry[message[i].serviceName := message[i]];
      }
      assert message[..|message|] == message;
      // clear, then copy every entry of the new map
      services := map[];
      var pending := newRegistry.Keys;
      while pending != {}
        invariant pending <= newRegistry.Keys
        invariant services.Keys == newRegistry.Keys - pending
        invariant forall k :: k in services ==> services[k] == newRegistry[k]
        decreases pending
      {
        var k :| k in pending;
        services := services[k := newRegistry[k]];
        pending := pending - {k};
      }
    }

    /** `clearServiceRegistry`: empties the cache. */
    method Clear()
      modifies this
      ensures services == map[]
    {
      services := map[];
    }
  }

  // ------------------------------------------------------------------ resolution

  /** A tag that asks for the HTTP-compatible transport. */
  predicate IsHttpTag(tag: string) {
    var t := ToLower(tag);
    t == "connect" || t == "protocol:connect" || t == "transport:http"
  }

  /** `tags.some(IsHttpTag)` */
  function SomeHttpTag(tags: seq<string>): (b: bool)
    ensures b <==> exists i :: 0 <= i < |tags| && IsHttpTag(tags[i])
  {
    if tags == [] then false
    else IsHttpTag(tags[0]) || (assert forall i :: 0 <= i < |tags| - 1 ==> tags[1..][i] == tags[i + 1]; SomeHttpTag(tags[1..]))
  }

  /** The protocol hint: `metadata.protocol || metadata.transport || ""`, lower-cased. */
  function ProtocolHint(metadata: map<string, string>): string
  {
    ToLower(OrElse(MetaOr(metadata, "protocol"), MetaOr(metadata, "transport")))
  }

  /** `isConnectProtocol`: does the record ask for the HTTP-compatible transport? */
  function IsConnectProtocol(r: ServiceRecord): (b: bool)
    ensures b <==> ProtocolHint(r.metadata) in {"connect", "http"}
                   || exists i :: 0 <= i < |r.tags| && IsHttpTag(r.tags[i])
  {
    var protocol := ProtocolHint(r.metadata);
    if protocol == "connect" || protocol == "http" then true
    else SomeHttpTag(r.tags)
  }

  /** A non-empty `protocol` entry shadows `transport`: changing `transport` then changes nothing. */
  lemma ProtocolShadowsTransport(r: ServiceRecord, transport: string)
    requires MetaOr(r.metadata, "protocol") != ""
    ensures IsConnectProtocol(r) == IsConnectProtocol(r.(metadata := r.metadata["transport" := transport]))
  {
    var r' := r.(metadata := r.metadata["transport" := transport]);
    assert MetaOr(r'.metadata, "protocol") == MetaOr(r.metadata, "protocol");
  }

  /** `pickHttpEndpoint`: the first HTTP endpoint, when it has a truthy host and port. */
  function PickHttpEndpoint(r: ServiceRecord): (e: Option<Endpoint>)
    ensures e.Some? <==> |r.httpEndpoints| > 0 && r.httpEndpoints[0].host != "" && r.httpEndpoints[0].port != 0
    ensures e.Some? ==> e.value == r.httpEndpoints[0]
  {
    if |r.httpEndpoints| == 0 then None
    else
      var endpoint := r.httpEndpoints[0];
      if endpoint.host == "" || endpoint.port == 0 then None else Some(endpoint)
  }

  /** The loopback spellings that are rewritten to the IPv4 loopback address. */
  predicate IsLoopbackAlias(host: string) {
    var h := ToLower(host);
    h == "localhost" || h == "::1" || h == "0.0.0.0"
  }

  /** Host normalisation: loopback spellings become `127.0.0.1`, anything else is kept. */
  function NormalizeHost(host: string): (h: string)
    ensures IsLoopbackAlias(host) ==> h == Loopback
    ensures !IsLoopbackAlias(host) ==> h == host
  {
    if IsLoopbackAlias(host) then Loopback else host
  }

  /**
   * The two alias rules: `account-manager` becomes `account-service`, and
   * `connector-service` becomes `connector-admin`, each only when the requested
   * name is absent and its alias present.
   */
  function Alias(snapshot: Snapshot, name: string): (n: string)
    ensures name != "account-manager" && name != "connector-service" ==> n == name
    ensures name == "account-manager" ==>
      n == (if "account-manager" !in snapshot && "account-service" in snapshot then "account-service" else name)
    ensures name == "connector-service" ==>
      n == (if "connector-service" !in snapshot && "connector-admin" in snapshot then "connector-admin" else name)
    ensures n != name ==> n in snapshot
  {
    var n := if name == "account-manager" && "account-manager" !in snapshot && "account-service" in snapshot
      then "account-service" else name;
    if n == "connector-service" && "connector-service" !in snapshot && "connector-admin" in snapshot
    then "connector-admin" else n
  }

  /** Does the registry record make resolution use its first HTTP endpoint? */
  predicate UsesHttpEndpoint(r: ServiceRecord) {
    IsConnectProtocol(r) && PickHttpEndpoint(r).Some?
  }

  /**
   * `resolveService`: alias substitution, registry lookup, static fallback,
   * endpoint preference and host normalisation, in that order.
   */
  function Resolve(snapshot: Snapshot, name: string): (r: Result<Endpoint, ResolveError>)
    ensures r.Err? <==> Alias(snapshot, name) !in snapshot && Alias(snapshot, name) !in FallbackPorts
    ensures r.Err? ==> r.error == NotFound(name)
    ensures Alias(snapshot, name) !in snapshot && name in FallbackPorts ==>
      r == Ok(Endpoint(Loopback, FallbackPorts[name]))
  {
    var serviceName := Alias(snapshot, name);
    if serviceName !in snapshot then
      if serviceName in FallbackPorts then Ok(Endpoint(Loopback, FallbackPorts[serviceName]))
      else Err(NotFound(serviceName))
    else
      var details := snapshot[serviceName];
      var httpEndpoint := PickHttpEndpoint(details);
      var preferHttp := IsConnectProtocol(details);
      var resolvedHost := if preferHttp && httpEndpoint.Some? then httpEndpoint.value.host else details.host;
      var resolvedPort := if preferHttp && httpEndpoint.Some? then httpEndpoint.value.port else details.port;
      var finalHost := OrElse(resolvedHost, details.host);
      var finalPort := if resolvedPort != 0 then resolvedPort else details.port;
      Ok(Endpoint(NormalizeHost(finalHost), finalPort))
  }

  /**
   * For a name the registry holds (after aliasing), the target is the first HTTP
   * endpoint when HTTP is preferred and that endpoint has a host and a port,
   * otherwise the record's primary host and port; only the host is normalised.
   */
  lemma ResolveFromRecord(snapshot: Snapshot, name: string)
    requires Alias(snapshot, name) in snapshot
    ensures var rec := snapshot[Alias(snapshot, name)];
      var target := if UsesHttpEndpoint(rec) then rec.httpEndpoints[0] else Endpoint(rec.host, rec.port);
      Resolve(snapshot, name) == Ok(Endpoint(NormalizeHost(target.host), target.port))
  {
  }

  /** The error names the service the caller asked for: aliasing never leads to a failure. */
  lemma ResolveErrorNamesRequest(snapshot: Snapshot, name: string)
    requires Resolve(snapshot, name).Err?
    ensures Alias(snapshot, name) == name
    ensures Contains(ErrorMessage(Resolve(snapshot, name).error), name)
  {
    ContainsMiddle("[ServiceResolver] Service \"", name,
      "\" not found in live registry. It may be unhealthy or not registered.");
  }

  /** The text of the error `resolveService` throws. */
  function ErrorMessage(e: ResolveError): string {
    "[ServiceResolver] Service \"" + e.serviceName + "\" not found in live registry. It may be unhealthy or not registered."
  }

  /** With an empty cache (after `clearServiceRegistry`), exactly the fallback-table names resolve. */
  lemma ResolveAfterClear(name: string)
    ensures Resolve(map[], name).Ok? <==> name in FallbackPorts
    ensures name in FallbackPorts ==> Resolve(map[], name) == Ok(Endpoint(Loopback, FallbackPorts[name]))
  {
  }

  /** `http://host:port`, the base URL of a dynamic transport. */
  function BaseUrl(target: Endpoint): string {
    "http://" + target.host + ":" + IntToDecimal(target.port)
  }

  /** `createDynamicTransport`: resolve, then dial `http://host:port`; resolution errors propagate. */
  function CreateDynamicTransport(snapshot: Snapshot, name: string): (t: Result<GrpcTransport, ResolveError>)
    ensures t.Ok? <==> Resolve(snapshot, name).Ok?
    ensures t.Err? ==> t.error == Resolve(snapshot, name).error
    ensures t.Ok? ==> t.value.baseUrl == BaseUrl(Resolve(snapshot, name).value)
  {
    match Resolve(snapshot, name)
    case Ok(target) => Ok(GrpcTransport(BaseUrl(target)))
    case Err(e) => Err(e)
  }

  /** Reads a base URL back into its target: the port is the text after the last `:`. */
  function ParseBaseUrl(url: string): Option<Endpoint> {
    if !StartsWith(url, "http://") then None
    else
      var rest := url[7..];
      var portText := LastSegment(rest, ':');
      if |portText| == |rest| then None
      else Some(Endpoint(rest[..|rest| - |portText| - 1], DecimalToInt(portText)))
  }

  /** A dynamic transport's URL determines its target, even for hosts that contain `:`. */
  lemma BaseUrlRoundTrip(target: Endpoint)
    ensures ParseBaseUrl(BaseUrl(target)) == Some(target)
  {
    var digits := IntToDecimal(target.port);
    ParseHostAndDigits(target.host, digits);
    IntDecimalRoundTrip(target.port);
  }

  /** `http://host:digits` reads back as the host and the value of the digits. */
  lemma ParseHostAndDigits(host: string, digits: string)
    requires ':' !in digits && digits != []
    ensures ParseBaseUrl("http://" + host + ":" + digits) == Some(Endpoint(host, DecimalToInt(digits)))
  {
    var rest := host + [':'] + digits;
    var url := "http://" + host + ":" + digits;
    assert url == "http://" + rest;
    assert url[..7] == "http://";
    assert url[7..] == rest;
    LastSegmentAfter(host, ':', digits);
    assert rest[..|rest| - |digits| - 1] == host;
  }
}
