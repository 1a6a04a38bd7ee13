# Pipestream frontend core, modelled in Dafny

This project models the parts of the Pipestream web proxy, platform shell and
their shared packages that make decisions. It proves properties of that model.

- **Service resolver** (`ServiceResolver`). This is the live registry cache that
  the watch stream refills. It resolves a service name to a `{host, port}`:
  - the `account-manager` and `connector-service` aliases;
  - the static fallback ports of the pipeline modules;
  - the preference for the first HTTP endpoint of services that speak Connect;
  - loopback normalisation.

  It also builds the dynamic transports that dial the resolved target.
- **Connect routes** (`ConnectRoutes`). The gateway chooses the channel of each
  proxied RPC: from the `x-target-backend` header, from a per-service default,
  or the fixed registration channel. It selects the services that the
  aggregated health watch subscribes to. Their events are merged in a FIFO
  queue.
- **Platform shell** (`PlatformShell`, `RegistryModel`). This covers:
  - the system-status report;
  - the navigation menu built from the registry listings (exclusions, service
    kinds, the memo of resolvable names, groups, sorting by display name);
  - the health snapshot;
  - cache invalidation, which empties the resolver cache modelled by
    `ServiceResolver.ServiceRegistry`.
- **UI registry store** (`ServiceRegistryStore`). This is the polling store of
  healthy service and module names. It changes only when the set changes, and
  initialisation is idempotent.
- **Protobuf forms** (`SchemaConverter`, `SchemaLoader`).
  - The converter turns a message type into a JSON Schema and adds UI hints.
  - The loader keeps a registry of message types. It falls back to a basic
    schema for unknown names.
- **Connector helpers** (`Encodings`, `StreamingProtocol`, `UploadUtils`).
  - The incremental SHA-256 calculator and the one-shot checksums, with their
    hex and base64 spellings (section 4 of RFC 4648), each proved to decode
    back.
  - Document references.
  - MIME types, the size check, progress events and byte units.
- **Scripts** (`UploadChunks`, `SeedRepository`, `NodeUpload`).
  - The chunked-upload script's argument checks and request stream.
  - The repository seeder: argument parsing, hash-based deduplication,
    single-chunk uploads and the worker queue's summary.

`Wrappers` holds `Option` and `Result`. `Strings` holds the JavaScript string
operations that the sources rely on: `||` on strings, `trim`, `split`/`pop`,
ASCII case mapping and decimal text.

Mutable state keeps its imperative form. The following are classes whose
methods update their fields:

- the resolver's cache;
- the health event queue;
- the `markResolvable` memo;
- the polling store;
- the schema converter and loader;
- the hash calculator.

Each loop of the source is a method with invariants, proved against a
specification function:

- menu assembly and the services and modules loops;
- the health candidate filters;
- the watcher's emits;
- the UI-hint pass;
- the request generator;
- the argument loop;
- the hash dedupe loop;
- the worker queue.

## Model

| member | source | states |
|---|---|---|
| ServiceResolver.RegistrationUrl | apps/pipestream-frontend/src/lib/serviceResolver.ts:10-12 | With neither variable set the registration service is `http://localhost:38101` |
| ServiceResolver.LastByName | apps/pipestream-frontend/src/lib/serviceResolver.ts:33-36 | A watch message's map has exactly the names the message carries |
| ServiceResolver.LastByNameKeepsLast | apps/pipestream-frontend/src/lib/serviceResolver.ts:33-36 | Each name is mapped to the last record with that name (later records overwrite earlier ones) |
| ServiceResolver.ServiceRegistry.constructor | apps/pipestream-frontend/src/lib/serviceResolver.ts:7 | The cache starts empty |
| ServiceResolver.ServiceRegistry.ApplyWatchMessage | apps/pipestream-frontend/src/lib/serviceResolver.ts:32-41 | After a watch message the cache is exactly that message's map; nothing from before survives |
| ServiceResolver.ServiceRegistry.Clear | apps/pipestream-frontend/src/lib/serviceResolver.ts:157-160 | Clearing leaves the cache empty |
| ServiceResolver.SomeHttpTag | apps/pipestream-frontend/src/lib/serviceResolver.ts:61-65 | True iff some tag is `connect`, `protocol:connect` or `transport:http` in any letter case |
| ServiceResolver.IsConnectProtocol | apps/pipestream-frontend/src/lib/serviceResolver.ts:54-66 | True iff the lower-cased `protocol` (else `transport`) hint is `connect` or `http`, or some tag asks for HTTP |
| ServiceResolver.ProtocolShadowsTransport | apps/pipestream-frontend/src/lib/serviceResolver.ts:56 | A non-empty `protocol` entry makes the `transport` entry irrelevant |
| ServiceResolver.PickHttpEndpoint | apps/pipestream-frontend/src/lib/serviceResolver.ts:68-83 | Some endpoint iff the first HTTP endpoint exists with a non-empty host and non-zero port, and then it is that endpoint |
| ServiceResolver.NormalizeHost | apps/pipestream-frontend/src/lib/serviceResolver.ts:127-131 | `localhost`, `::1` and `0.0.0.0` (any case) become `127.0.0.1`; every other host is kept |
| ServiceResolver.Alias | apps/pipestream-frontend/src/lib/serviceResolver.ts:86-95 | Only the two aliased names change, each only when it is absent and its alias present; an alias is always a cached name |
| ServiceResolver.Resolve | apps/pipestream-frontend/src/lib/serviceResolver.ts:85-117 | Fails iff the (aliased) name is neither cached nor a fallback module, with the requested name in the error; an uncached module resolves to `127.0.0.1` and its fallback port |
| ServiceResolver.ResolveFromRecord | apps/pipestream-frontend/src/lib/serviceResolver.ts:119-139 | A cached record resolves to its first HTTP endpoint when it speaks Connect and has a usable one, else to its primary host and port, with the host normalised |
| ServiceResolver.ResolveErrorNamesRequest | apps/pipestream-frontend/src/lib/serviceResolver.ts:116 | A failure never comes from an alias, and its message contains the requested name |
| ServiceResolver.ResolveAfterClear | apps/pipestream-frontend/src/lib/serviceResolver.ts:103-116 | With an empty cache exactly the five fallback modules resolve, each to its loopback port |
| ServiceResolver.CreateDynamicTransport | apps/pipestream-frontend/src/lib/serviceResolver.ts:145-152 | A transport exists iff the name resolves; it dials `http://host:port` of the target, and a resolution error propagates unchanged |
| ServiceResolver.BaseUrlRoundTrip | apps/pipestream-frontend/src/lib/serviceResolver.ts:148 | The dialled URL determines the target: parsing it back gives the same host and port, even for hosts containing `:` |
| ConnectRoutes.SelectTransportFromHeader | apps/pipestream-frontend/src/routes/connectRoutes.ts:31-50 | No header or the registration service's name selects the registration channel; another name gets its resolved channel, or the registration channel when it does not resolve |
| ConnectRoutes.TargetOf | apps/pipestream-frontend/src/routes/connectRoutes.ts:175-499 | The routing rule of every proxied service: fixed names, header-or-default names, the registration channel, the health proxy's header; only a module call without header is refused |
| ConnectRoutes.RouteCall | apps/pipestream-frontend/src/routes/connectRoutes.ts:175-499 | Health calls use the header selection and registration calls the fixed channel; a routing error (the missing module header) is returned as is; every other call gets the dynamic transport dialled for its target name, or that name's resolution error wrapped as Unresolved |
| ConnectRoutes.RouteCallModuleNeedsHeader | apps/pipestream-frontend/src/routes/connectRoutes.ts:243-256 | A module call without `x-target-backend` fails with InvalidArgument and the handler's message |
| ConnectRoutes.RouteCallIgnoresHeader | apps/pipestream-frontend/src/routes/connectRoutes.ts:385-474 | Account and data-source calls route the same whatever the header says |
| ConnectRoutes.RouteCallRepository | apps/pipestream-frontend/src/routes/connectRoutes.ts:191-238 | Without a header, upload and PipeDoc calls succeed iff `repository-service` resolves |
| ConnectRoutes.RouteCallResolveErrors | apps/pipestream-frontend/src/routes/connectRoutes.ts:179-186 | A call to a named target fails iff that name does not resolve |
| ConnectRoutes.Names | apps/pipestream-frontend/src/routes/connectRoutes.ts:64-67 | One name per listed service, in order |
| ConnectRoutes.Dedupe | apps/pipestream-frontend/src/routes/connectRoutes.ts:74-80 | Keeps exactly the non-empty names of the listing, each once |
| ConnectRoutes.DedupeKeepsFirstOccurrenceOrder | apps/pipestream-frontend/src/routes/connectRoutes.ts:74-80 | The kept names are in the order of their first occurrence |
| ConnectRoutes.UniqueCandidates | apps/pipestream-frontend/src/routes/connectRoutes.ts:74-80 | The `seen`-set loop computes `Dedupe` of the names |
| ConnectRoutes.HealthTargets | apps/pipestream-frontend/src/routes/connectRoutes.ts:82-100 | A candidate is kept iff it is not `consul` and is the registration service or resolves to a non-empty host and non-zero port |
| ConnectRoutes.SelectHealthTargets | apps/pipestream-frontend/src/routes/connectRoutes.ts:82-100 | The base-service loop computes `HealthTargets` |
| ConnectRoutes.HealthCandidates | apps/pipestream-frontend/src/routes/connectRoutes.ts:59-100 | The watched services are the deduplicated listing filtered by `HealthTargets`; a failed listing watches nothing |
| ConnectRoutes.FailureEvent | apps/pipestream-frontend/src/routes/connectRoutes.ts:150-158 | A failed watcher reports UNKNOWN (0) targeted `dynamic` for its service |
| ConnectRoutes.HealthEventQueue.constructor | apps/pipestream-frontend/src/routes/connectRoutes.ts:118-120 | The queue starts empty with nothing emitted or delivered |
| ConnectRoutes.HealthEventQueue.Emit | apps/pipestream-frontend/src/routes/connectRoutes.ts:121-127 | `emit` appends one event; delivered plus queued stays everything emitted |
| ConnectRoutes.HealthEventQueue.Drain | apps/pipestream-frontend/src/routes/connectRoutes.ts:163-166 | Draining yields the queued events in FIFO order and empties the queue |
| ConnectRoutes.StatusEvents | apps/pipestream-frontend/src/routes/connectRoutes.ts:141-149 | One event per delivered status, with that status and the watcher's target |
| ConnectRoutes.WatcherEventsShape | apps/pipestream-frontend/src/routes/connectRoutes.ts:130-160 | A watcher reports each status with the registration URL or `dynamic`, and any failure adds exactly one final UNKNOWN event |
| ConnectRoutes.RunWatcher | apps/pipestream-frontend/src/routes/connectRoutes.ts:130-160 | Running a watcher appends exactly its events to the shared queue |
| ConnectRoutes.EmitStatuses | apps/pipestream-frontend/src/routes/connectRoutes.ts:141-149 | The `for await` loop appends one event per status, in order |
| PlatformShell.ReportSystemStatus | apps/platform-shell/src/index.ts:33-61 | The proxy is healthy; registration is healthy iff the probe succeeds, else unavailable with the error; status 200 iff both are healthy, otherwise 503 |
| PlatformShell.ServiceTarget | apps/platform-shell/src/index.ts:90-100 | A known service's UI path, otherwise `/<name>` |
| PlatformShell.ExcludedServices | apps/platform-shell/src/index.ts:119-122 | The excluded names are exactly the non-empty trimmed comma-separated parts of `PROXY_NAV_EXCLUDE` |
| PlatformShell.TrimmedNonEmpty | apps/platform-shell/src/index.ts:121-122 | Keeps exactly the non-empty trimmed parts |
| PlatformShell.ServiceKind | apps/platform-shell/src/index.ts:144-148 | INFRA iff the name is `consul` or the service type upper-cases to INFRA/INFRASTRUCTURE, otherwise SERVICE |
| PlatformShell.ResolvableMemo.constructor | apps/platform-shell/src/index.ts:102 | The memo starts empty |
| PlatformShell.ResolvableMemo.MarkResolvable | apps/platform-shell/src/index.ts:103-117 | Answers whether the name resolves (always for `consul`), caches it, and dials only names not yet cached |
| PlatformShell.ServiceEntry | apps/platform-shell/src/index.ts:132-161 | The entry keeps the name, tags and capabilities and only the text metadata; its display name is a non-empty `display-name`, else a non-empty `display_name`, else the name; its version is the listed version, else the metadata `version`; it resolves when dialable or external |
| PlatformShell.ModuleEntry | apps/platform-shell/src/index.ts:169-203 | The entry's tags are the listed tags then the metadata `tags` list; the display name falls back as for services; the version is the listed one, else a non-empty `module-version`, else `version`; the target is `/modules/<name>` |
| PlatformShell.ServiceGroup | apps/platform-shell/src/index.ts:126-167 | A group holds only shown services of its kind |
| PlatformShell.ServiceGroupComplete | apps/platform-shell/src/index.ts:126-167 | Every shown service of a kind has its entry in that group |
| PlatformShell.ModuleGroup | apps/platform-shell/src/index.ts:169-206 | The modules group holds only named module entries |
| PlatformShell.ModuleGroupComplete | apps/platform-shell/src/index.ts:169-206 | Every named module has its entry in the modules group |
| PlatformShell.CollectServices | apps/platform-shell/src/index.ts:124-167 | The services loop fills the Services and Infrastructure groups exactly with `ServiceGroup` |
| PlatformShell.CollectModules | apps/platform-shell/src/index.ts:169-206 | The modules loop appends exactly `ModuleGroup` to the modules group |
| PlatformShell.ExcludedServicesHidden | apps/platform-shell/src/index.ts:126-130 | An excluded or empty name is in neither the Services nor the Infrastructure group |
| PlatformShell.ShownServiceGrouped | apps/platform-shell/src/index.ts:162-166 | Every shown service is in exactly one of the Services and Infrastructure groups |
| PlatformShell.ConsulIsExternalInfra | apps/platform-shell/src/index.ts:140-158 | consul is an enabled Infrastructure entry whose menu child is an external link to its own UI |
| PlatformShell.InternalServicePage | apps/platform-shell/src/index.ts:208-217 | Any other service is an in-app page, disabled exactly when it does not resolve |
| PlatformShell.ModulePage | apps/platform-shell/src/index.ts:230-235 | A module page points at `/modules/<name>` and is disabled exactly when the module does not resolve |
| PlatformShell.EntryChildren | apps/platform-shell/src/index.ts:208-228 | One menu child per service or infrastructure entry, in order: an external link when the target starts with `http`, else a page disabled iff the entry does not resolve |
| PlatformShell.ModuleChildren | apps/platform-shell/src/index.ts:230-235 | One menu child per module entry, in order: always an in-app page, disabled iff the module does not resolve |
| PlatformShell.AssembleNav | apps/platform-shell/src/index.ts:237-261 | The menu is assembled from the sorted groups |
| PlatformShell.PushGroups | apps/platform-shell/src/index.ts:239-261 | The pushes append a group item for each non-empty group, in order |
| PlatformShell.MenuShape | apps/platform-shell/src/index.ts:237-261 | The menu is the core items followed by exactly one non-empty group item per non-empty group |
| PlatformShell.MenuOfShape | apps/platform-shell/src/index.ts:239-261 | The same shape, stated on the children lists |
| PlatformShell.BuildMenuItems | apps/platform-shell/src/index.ts:65-272 | Either listing failing serves the static fallback menu; otherwise the menu of the collected groups |
| PlatformShell.CheckService | apps/platform-shell/src/index.ts:288-306 | There is no error iff the status is not UNKNOWN, iff the service was reached and its probe answered; then the status is the decimal code |
| PlatformShell.HealthSnapshot | apps/platform-shell/src/index.ts:276-313 | One result per checked service, in the fixed order, each the `checkService` result of that service's dial and probe |
| PlatformShell.InvalidateCache | apps/platform-shell/src/index.ts:317-334 | The resolver's cache is emptied and success is reported |
| RegistryModel.CreateEmptyRegistryGroups | apps/platform-shell/src/models/registry.ts:23-31 | All five groups are empty |
| RegistryModel.Insert | apps/platform-shell/src/models/registry.ts:33-35 | Inserting adds exactly the entry (as a multiset) |
| RegistryModel.InsertSorted | apps/platform-shell/src/models/registry.ts:33-35 | Inserting into a sorted sequence keeps it sorted by display name |
| RegistryModel.SortEntries | apps/platform-shell/src/models/registry.ts:33-35 | Sorting returns a permutation of the entries |
| RegistryModel.SortEntriesSorted | apps/platform-shell/src/models/registry.ts:33-35 | Under a total preorder the result is sorted by display name |
| RegistryModel.SortEntriesOfSorted | apps/platform-shell/src/models/registry.ts:33-35 | A sequence already in display-name order comes back unchanged |
| ServiceRegistryStore.HealthyNamesMembers | apps/pipestream-frontend/ui/src/stores/serviceRegistry.ts:28-33 | A name is available iff some healthy entry carries it |
| ServiceRegistryStore.HasChangedIffDifferent | apps/pipestream-frontend/ui/src/stores/serviceRegistry.ts:37-39 | The size-or-new-member test detects exactly a different set |
| ServiceRegistryStore.CollectHealthy | apps/pipestream-frontend/ui/src/stores/serviceRegistry.ts:28-33 | The loop collects exactly the healthy names |
| ServiceRegistryStore.RegistryStore.constructor | apps/pipestream-frontend/ui/src/stores/serviceRegistry.ts:9-14 | The store starts empty, initialised and polling |
| ServiceRegistryStore.RegistryStore.FetchServices | apps/pipestream-frontend/ui/src/stores/serviceRegistry.ts:17-48 | A successful poll installs the healthy names, changing state (and counting an update) iff the set differs; a failed poll changes nothing |
| ServiceRegistryStore.RegistryStore.FetchModules | apps/pipestream-frontend/ui/src/stores/serviceRegistry.ts:51-82 | The same for module names, leaving services untouched |
| ServiceRegistryStore.RegistryStore.InitializeStreams | apps/pipestream-frontend/ui/src/stores/serviceRegistry.ts:85-101 | Starts polling iff not yet initialised; afterwards the store is initialised |
| ServiceRegistryStore.RegistryStore.Cleanup | apps/pipestream-frontend/ui/src/stores/serviceRegistry.ts:103-110 | Stops the timer and clears the initialised flag, keeping the sets |
| ServiceRegistryStore.InitializeTwice | apps/pipestream-frontend/ui/src/stores/serviceRegistry.ts:85-110 | A second initialisation starts nothing; after cleanup polling starts again |
| SchemaConverter.WithDefaultTrue | packages/protobuf-forms/src/converter.ts:30-36 | An unset flag defaults to true; whatever the caller sets, `undefined` included, wins |
| SchemaConverter.Converter.constructor | packages/protobuf-forms/src/converter.ts:30-36 | The options are the defaults overridden by the caller's |
| SchemaConverter.ExtractMessageName | packages/protobuf-forms/src/converter.ts:126-129 | A non-empty dot-free name: the last component of the type name, or `Message` |
| SchemaConverter.ExtractQualifiedName | packages/protobuf-forms/src/converter.ts:126-129 | A qualified name yields its last component |
| SchemaConverter.HeaderSetProperties | packages/protobuf-forms/src/converter.ts:46-58 | Assigning `properties` keeps the rest of the header |
| SchemaConverter.PropertiesByFamily | packages/protobuf-forms/src/converter.ts:57-113 | Mapping requests get `document`/`rules`, then PipeDocs their six fields, anything else `data` |
| SchemaConverter.Converter.ConvertMessageSchema | packages/protobuf-forms/src/converter.ts:42-121 | The converted schema, hinted exactly when `addUiHints` is truthy |
| SchemaConverter.ConvertedSchemaHeader | packages/protobuf-forms/src/converter.ts:46-51 | Every converted schema is an object titled with the short name, requiring nothing |
| SchemaConverter.ConvertedSchemaOptions | packages/protobuf-forms/src/converter.ts:134-138 | `ui:options` is present iff hints are on, and is then empty |
| SchemaConverter.ConvertedProperties | packages/protobuf-forms/src/converter.ts:57-118 | The properties are the family's, each hinted when hints are on |
| SchemaConverter.AddUiHints | packages/protobuf-forms/src/converter.ts:134-153 | The hint pass over the properties computes `WithUiHints` |
| SchemaConverter.WithUiHintsIdempotent | packages/protobuf-forms/src/converter.ts:134-153 | Adding hints twice is adding them once |
| SchemaConverter.WithUiHintsKeeps | packages/protobuf-forms/src/converter.ts:134-153 | Hints change only `ui:options` and `properties` of the schema |
| SchemaConverter.WithUiHintsPropertyNames | packages/protobuf-forms/src/converter.ts:141-152 | Hints keep the property names and hint each property |
| SchemaConverter.HintedHeader | packages/protobuf-forms/src/converter.ts:136-138 | A fresh header gains empty `ui:options` and hinted properties |
| SchemaConverter.HeaderConverted | packages/protobuf-forms/src/converter.ts:115-118 | A header, hinted or not, keeps type, title and empty `required`, with `ui:options` only when hinted |
| SchemaConverter.HintsOnlyTouchHintKeys | packages/protobuf-forms/src/converter.ts:142-151 | A hint changes only `ui:widget` and `ui:options` of a property |
| SchemaConverter.HintedFieldIdempotent | packages/protobuf-forms/src/converter.ts:142-151 | Hinting a property twice is hinting it once |
| SchemaConverter.ArrayFieldHinted | packages/protobuf-forms/src/converter.ts:148-150 | An array property gains addable/removable options and keeps everything else |
| SchemaConverter.BodyFieldHinted | packages/protobuf-forms/src/converter.ts:143-146 | A string property whose name contains `body` in any case becomes a five-row textarea |
| SchemaConverter.BodyFieldsAreText | packages/protobuf-forms/src/converter.ts:66 | The PipeDoc and mapping-document `body` fields are the string field titled Body with a textarea widget |
| SchemaConverter.PipeDocBodyHinted | packages/protobuf-forms/src/converter.ts:95 | With hints the PipeDoc `body` field gets five rows |
| SchemaConverter.MappingRulesHinted | packages/protobuf-forms/src/converter.ts:69-89 | With hints the `rules` array is addable and removable, its nested items untouched |
| SchemaConverter.NestedDocumentUntouched | packages/protobuf-forms/src/converter.ts:58-68 | Hints stop at the top level: the nested document is unchanged |
| SchemaLoader.BasicSchemaShape | packages/protobuf-forms/src/loader.ts:75-89 | The fallback schema is an object titled with the last name component (or `Message`), a description naming the type, and a `data` property |
| SchemaLoader.SchemaLoader.constructor | packages/protobuf-forms/src/loader.ts:19-24 | A new loader has nothing registered and converts with the defaulted options |
| SchemaLoader.SchemaLoader.RegisterMessage | packages/protobuf-forms/src/loader.ts:39-41 | Adds or replaces the name; a new name goes last in the order, a known one keeps its place |
| SchemaLoader.SchemaLoader.RegisterMessageSchema | packages/protobuf-forms/src/loader.ts:94-96 | The same as `registerMessage` |
| SchemaLoader.SchemaLoader.GetMessageSchema | packages/protobuf-forms/src/loader.ts:54-63 | A registered name gets its converted schema; an unknown name gets the basic schema |
| SchemaLoader.SchemaLoader.GetJsonSchema | packages/protobuf-forms/src/loader.ts:68-70 | The same schema as `getMessageSchema` |
| SchemaLoader.SchemaLoader.GetAvailableMessageTypes | packages/protobuf-forms/src/loader.ts:101-103 | Exactly the registered names, each once, in the order they were first registered |
| SchemaLoader.RegisterThenServe | packages/protobuf-forms/src/loader.ts:39-63 | A name just registered is available and served by conversion |
| Encodings.Hex | packages/connector-shared/src/streaming-protocol.ts:63-65 | Two hex digits per byte |
| Encodings.HexRoundTrip | packages/connector-shared/src/streaming-protocol.ts:63-65 | Hex text decodes back to its bytes |
| Encodings.Base64 | packages/connector-shared/src/streaming-protocol.ts:56-58 | Four characters per started group of three bytes |
| Encodings.Base64RoundTrip | packages/connector-shared/src/streaming-protocol.ts:56-58 | Padded base64 text decodes back to its bytes |
| StreamingProtocol.StreamingHashCalculator.constructor | packages/connector-shared/src/streaming-protocol.ts:30-33 | Nothing absorbed, zero counted, no digest |
| StreamingProtocol.StreamingHashCalculator.Update | packages/connector-shared/src/streaming-protocol.ts:38-41 | Before the digest a chunk is appended and counted; afterwards nothing changes |
| StreamingProtocol.StreamingHashCalculator.GetDigest | packages/connector-shared/src/streaming-protocol.ts:46-51 | The digest of everything absorbed, computed once and then cached |
| StreamingProtocol.StreamingHashCalculator.GetHashBase64 | packages/connector-shared/src/streaming-protocol.ts:56-58 | The base64 of the digest |
| StreamingProtocol.StreamingHashCalculator.GetHashHex | packages/connector-shared/src/streaming-protocol.ts:63-65 | The hex of the digest |
| StreamingProtocol.StreamingHashCalculator.GetBytesProcessed | packages/connector-shared/src/streaming-protocol.ts:70-72 | The number of bytes absorbed |
| StreamingProtocol.ChecksumsAgree | packages/connector-shared/src/streaming-protocol.ts:86-99 | The hex and base64 checksums both decode to the same digest |
| StreamingProtocol.HashInChunks | packages/connector-shared/src/streaming-protocol.ts:38-72 | Hashing in chunks gives the one-shot checksums of the whole data, counts every byte, and both spellings agree |
| StreamingProtocol.GeneratedSuffix | packages/connector-shared/src/streaming-protocol.ts:79 | The generated suffix is non-empty and contains a dash |
| StreamingProtocol.DocumentRefParts | packages/connector-shared/src/streaming-protocol.ts:78-81 | A reference starts with `connectorId:` and a given colon-free suffix is its last `:`-segment |
| StreamingProtocol.DocumentRefGenerated | packages/connector-shared/src/streaming-protocol.ts:78-81 | A missing or empty suffix is replaced by the generated one |
| UploadUtils.Extension | packages/connector-shared/src/upload-utils.ts:74 | The looked-up extension contains no dot |
| UploadUtils.GetMimeType | packages/connector-shared/src/upload-utils.ts:73-92 | The table's type for a known extension, otherwise `application/octet-stream` |
| UploadUtils.MimeTypeByExtension | packages/connector-shared/src/upload-utils.ts:73-92 | `base.ext` gets the type of the lower-cased `ext` |
| UploadUtils.MimeTypeIgnoresCase | packages/connector-shared/src/upload-utils.ts:74 | Upper-casing the file name does not change its type |
| UploadUtils.ValidateFileSize | packages/connector-shared/src/upload-utils.ts:59-68 | Accepted iff the size is within the given limit, 2 GiB by default |
| UploadUtils.ValidateFileSizeMonotone | packages/connector-shared/src/upload-utils.ts:66-68 | A larger limit accepts every size a smaller one does |
| UploadUtils.Report | packages/connector-shared/src/upload-utils.ts:97-114 | Each handler call's percentage, text (default when omitted) and colour |
| UploadUtils.ReportColour | packages/connector-shared/src/upload-utils.ts:101-112 | The colour identifies the event kind, and completion and failure end at 100 |
| UploadUtils.ReportKeepsGivenText | packages/connector-shared/src/upload-utils.ts:101-112 | A given text, even an empty one, is reported as is |
| UploadUtils.UnitIndex | packages/connector-shared/src/upload-utils.ts:12 | The unit index is the largest power of 1024 not above the count |
| UploadUtils.FormatBytes | packages/connector-shared/src/upload-utils.ts:8-14 | `0 B` iff zero; otherwise scaled by a power of 1024 into [1, 1024), with a unit iff below 1024^5 |
| UploadUtils.FormatBytesUnits | packages/connector-shared/src/upload-utils.ts:11-13 | Counts below 1 KiB are in B, then KB, then MB |
| UploadChunks.CheckArguments | apps/platform-shell/scripts/test-upload-chunks.mjs:14-25 | Proceeds iff a file argument is given and is a regular file, else exits 1; the drive defaults to `modules-drive` |
| UploadChunks.Initiate | apps/platform-shell/scripts/test-upload-chunks.mjs:32-39 | The initiating request announces the file's name, its size, the drive and the octet-stream type |
| UploadChunks.Requests | apps/platform-shell/scripts/test-upload-chunks.mjs:60-78 | Buffer i is chunk i+1, not last; then an empty last request that repeats the count |
| UploadChunks.MakeRequests | apps/platform-shell/scripts/test-upload-chunks.mjs:57-78 | The generator with its counter yields exactly `Requests` |
| UploadChunks.DataPayload | apps/platform-shell/scripts/test-upload-chunks.mjs:61-70 | The data requests carry the buffers in order |
| UploadChunks.RequestsReassemble | apps/platform-shell/scripts/test-upload-chunks.mjs:60-78 | The stream is closed by exactly its last request, is all for one upload, and reassembles the file; an empty file is one request numbered 0 |
| SeedRepository.Defaults | apps/platform-shell/scripts/seed-repository.ts:103-106 | No dirs, `pipedocs-drive`, concurrency 4, base URL from `PROXY_BASE_URL` or the default |
| SeedRepository.Concurrency | apps/platform-shell/scripts/seed-repository.ts:113 | A non-zero number is kept; NaN or zero becomes 4 |
| SeedRepository.ParseArgs | apps/platform-shell/scripts/seed-repository.ts:109-115 | The argument loop computes the recursive scan of the arguments |
| SeedRepository.ScanDirs | apps/platform-shell/scripts/seed-repository.ts:111 | `--dir` pairs append their directories in order and change nothing else |
| SeedRepository.ScanSkips | apps/platform-shell/scripts/seed-repository.ts:109-115 | A flag without a value, or an unknown argument, consumes only itself |
| SeedRepository.CheckOptions | apps/platform-shell/scripts/seed-repository.ts:117-120 | No directory means exit status 1, anything else proceeds unchanged |
| SeedRepository.WorkerCount | apps/platform-shell/scripts/seed-repository.ts:141 | At least one worker, and the concurrency when it is larger |
| SeedRepository.FirstByHashProperties | apps/platform-shell/scripts/seed-repository.ts:123-133 | The kept files cover every hash found, each exactly once |
| SeedRepository.FirstByHashKeepsFirst | apps/platform-shell/scripts/seed-repository.ts:127-131 | A kept file is the first one found with its hash |
| SeedRepository.CollectFiles | apps/platform-shell/scripts/seed-repository.ts:123-133 | The collection loop keeps `FirstByHash` and sees every hash |
| SeedRepository.Basename | apps/platform-shell/scripts/seed-repository.ts:54 | The name is slash-free |
| SeedRepository.SingleChunkUpload | apps/platform-shell/scripts/seed-repository.ts:51-94 | Initiation announces the file's size as a `seed-cli` upload without MIME type; one chunk numbered 1 and last carries the whole file; the save names the path and basename |
| SeedRepository.DrainQueue | apps/platform-shell/scripts/seed-repository.ts:137-161 | Every queued file is attempted once; uploaded plus failed equals attempted, and the results are the successes in queue order |
| SeedRepository.Seed | apps/platform-shell/scripts/seed-repository.ts:102-161 | Exits 1 iff no directory; otherwise attempts one upload per distinct hash |
| Strings.Trim | apps/pipestream-frontend/src/routes/connectRoutes.ts:36 | `trim` removes exactly the leading and trailing JavaScript whitespace |
| Strings.LastSegment | packages/protobuf-forms/src/converter.ts:127-128 | `split(sep).pop()` is the longest separator-free suffix |
| Strings.Split | apps/platform-shell/src/index.ts:120 | `split` yields at least one part, none containing the separator |
| Strings.JoinSplit | apps/platform-shell/src/index.ts:120 | Joining the parts of a split gives the text back |
| Strings.IntDecimalRoundTrip | apps/pipestream-frontend/src/lib/serviceResolver.ts:148 | The decimal text of a port reads back as the port |

## Left out

- I/O is modelled as inputs. This covers the watch stream, gRPC calls, HTTP
  responses, the filesystem walk, `stat`, file reads and the read stream's
  buffer cut points (each at most 512 KiB). The clock and `Math.random` are
  also inputs, and so are environment variables (`None` for unset).
- Oracles are function parameters:
  - whether the platform shell can dial a service (the shell's
    `lib/serviceResolver` is not part of this model);
  - the outcome of each health probe and upload;
  - JavaScript's `Number` conversion (`None` for NaN);
  - SHA-256 itself.
- Concurrency: async workers, watchers and streams run one after another in
  the model. The seeder's results are listed in queue order, and the health
  queue's interleaving is one valid order. Aborting the health stream and the
  retry timer of the watch stream are not modelled.
- Logging is not modelled: `console.*`, the usage text and the `observedAt`
  and `timestamp` clock fields.
- UploadUtils.FormatBytes: the number text (`toFixed(2)`, `parseFloat`) and the
  floating-point rounding of `Math.log` are not modelled. Only the zero case,
  the divisor and the unit are stated, for whole byte counts.
- UploadUtils.Report: percentages are whole numbers. The script's fractional
  progress percentage is not modelled.
- SeedRepository.Concurrency: a fractional or negative `Number` result is an
  integer in the model.
- SeedRepository.Basename: `path.basename` is the text after the last `/`.
  Trailing slashes and Windows separators are not modelled. `path.resolve`,
  `relative` and `isAbsolute` are parts of the walk input.
- ServiceResolver.RegistrationUrl: it states only the default URL. The general
  case is the string template itself.
- Strings.ToLower / Strings.ToUpper: case mapping covers ASCII letters only. No
  Unicode case folding is modelled.
- The platform shell imports `clearServiceRegistry` and `createDynamicTransport`
  from its own `lib/serviceResolver`, which is not part of this model. The
  model assumes it keeps the same cache as the frontend resolver: PlatformShell.InvalidateCache
  empties a `ServiceResolver.ServiceRegistry`, and whether a name can be dialled is an oracle.
- PlatformShell.ModuleEntry: a list value under `display-name`, `display_name`,
  `module-version` or `version` in a module's metadata is skipped like a missing
  key. The source would take the list itself as the display name or version.
  Entry fields are texts in the model.
- Record lookups by a name that is an `Object.prototype` key (such as
  `constructor`) are treated as absent keys.
- JSON objects are maps, so the converter's key order is not kept.
- The converter's unused `formatFieldName`, the `includeComments` and
  `fieldTransformers` options (only stored), `PATTERN_OPTIONS` and the other
  `DEFAULT_CONFIG` constants are left out, because they affect no result.
- StreamingProtocol.StreamingHashCalculator.Update: after the digest was taken,
  Node's hash object throws. The model reports `accepted == false` and changes
  nothing; the error text is not modelled.
- The loader's no-op methods (`loadFromGenerated`, `loadProtoFile`,
  `loadProtoString`) are methods that change nothing, and they carry no
  contract.
- Where the sources say more than the code does, the code is followed:
  - the resolver's not-found error names only the requested (aliased)
    service; the known names are only logged
    (`apps/pipestream-frontend/src/lib/serviceResolver.ts:100` and `:116`);
  - the loader serves the basic fallback schema for an unknown message type
    instead of failing, although
    `packages/protobuf-forms/test-vue-integration.js:101-107` expects an error.
- Test-upload-chunks: the closing request repeats the number of the last data
  chunk rather than taking a new one. `UploadChunks.Requests` states this
  behaviour as written.
