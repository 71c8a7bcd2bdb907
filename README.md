# Weikio services SDK — a Dafny model

This project models the core of the Weikio services SDK for .NET. The SDK turns a
described service into a running NATS micro-service and forwards the
service's structured log events to NATS.

The model covers these parts:

- **Describing a service.** `WeikioService` keeps an ordered list of endpoint
  factories. There are two ways to build one:
  - the fluent `WeikioServiceBuilder`, whose setters overwrite earlier values
    and whose `WithEndpoint` calls accumulate;
  - the attribute-driven `WeikioServiceBuilder<T>`, which reads `T`'s
    `ServiceAttribute` and keeps only the methods that carry `EndpointAttribute`.
  Reflection is replaced by a list of method records: a name, an optional
  endpoint attribute and a return kind.
- **Invoking endpoint factories.** Invoking a factory against a
  dependency-injection provider either yields an `Endpoint` or throws. A
  reflected factory throws when the service type is not registered, or when the
  method returns neither `Task` nor `void`.
- **Running a service.** `WeikioHostedServiceRunner` does three things:
  - It registers every endpoint in the group `external.<name>`, in factory order.
  - It gives each endpoint an action block, modelled as a FIFO queue.
  - It handles each message inside an enrichment scope. A handler failure is
    logged and swallowed.

  Stopping follows a fixed order:
  1. stop the service;
  2. complete and drain every action block, in registration order;
  3. dispose of the connection, last.

  The runner's logger and its requests to NATS are recorded as a trace of events.
- **Connecting.** `NatsConnectionFactory` resolves the options from a
  configuration map: the timeout (including `int.Parse`), the URL and the
  credentials. A negative timeout is rejected by the options' setter. A failure
  inside the try block is logged unless `silent`, then rethrown; a malformed
  configured timeout throws before that block and is not logged.
- **Replying.** The `EndpointMessage` reply helpers set one content-type per
  overload, and standard errors default to code 400.
- **Logging.** `WeikioLogEventEnricher` adds the four correlation properties
  if absent. `WeikioLogSink.Emit` works in four steps:
  1. It drops events without an integration name.
  2. It builds the subject `il.<yyyyMMdd>.<integration>.<agent>.<environment>.<corrId>.<Level>`.
  3. It publishes. On failure it asks its `NatsConnectionFactory` for a new
     connection once, and republishes on it.
  4. When that also fails, it writes one fatal local log entry.

Oracles stand in for the outside world:

- **NATS.** The client's connect call is a `dial` outcome: a connection id or
  the client's exception. The runner takes the factory's `Result<Connection>`
  for its own connection, and one per endpoint sink (`sinks(i)`), as parameters. Each publish outcome is a flag in `BusBehaviour`.
- **Handler failures.** A handler's failure is `fails(handler, msg)`.
- **The clock.** The local date is a parameter.

Modules follow the source files:

| module | file | source |
|---|---|---|
| `Common` | common.dfy | shared Option, Result, exceptions, dictionaries |
| `Text` | text.dfy | digits, `char.IsWhiteSpace`, UTF-8 |
| `Endpoints` | endpoint.dfy | `Endpoint.cs`, the attributes, factories |
| `Services` | weikio_service.dfy | `WeikioService.cs` |
| `ServiceBuilders` | weikio_service_builder.dfy | `WeikioServiceBuilder.cs` |
| `NatsConnections` | nats_connection_factory.dfy | `NatsConnectionFactory.cs` |
| `EndpointMessages` | endpoint_message.dfy | `EndpointMessage.cs` |
| `LogEvents` | log_events.dfy | the part of Serilog's `LogEvent` the SDK uses |
| `LogEnrichment` | weikio_log_event_enricher.dfy | `WeikioLogEventEnricher.cs` |
| `LogSink` | weikio_log_sink.dfy | `WeikioLogSink.cs` |
| `HostedRunner` | weikio_hosted_service_runner.dfy | `WeikioHostedServiceRunner.cs` |

## Model

| member | source | states |
|---|---|---|
| Common.Lookup | src/Weikio.Host.Services.Sdk/NatsConnectionFactory.cs:35 | a configuration or header indexer yields the stored value for a present key and null exactly for a missing one |
| Text.PadDigits | src/Weikio.Host.Services.Sdk/WeikioLogSink.cs:48 | a zero-padded `yyyy`/`MM`/`dd` field has exactly the requested width and only decimal digits |
| Text.PadDigitsValue | src/Weikio.Host.Services.Sdk/WeikioLogSink.cs:48 | reading a padded field back gives the number whenever it fits the width |
| Text.Utf8 | src/Weikio.Host.Services.Sdk/WeikioLogSink.cs:52 | the UTF-8 payload has between one and four bytes per character and is empty only for the empty text |
| Text.Utf8CharSequence | src/Weikio.Host.Services.Sdk/WeikioLogSink.cs:52 | one character's bytes form exactly one UTF-8 sequence, whose lead byte announces its length, and decode to that character |
| Text.Utf8CharDecode | src/Weikio.Host.Services.Sdk/WeikioLogSink.cs:52 | decoding one character's bytes followed by anything yields that character, then the decoding of the rest |
| Text.Utf8RoundTrip | src/Weikio.Host.Services.Sdk/WeikioLogSink.cs:52 | decoding the UTF-8 payload gives back the characters of the log message |
| Text.Utf8Injective | src/Weikio.Host.Services.Sdk/WeikioLogSink.cs:52 | two messages with the same payload are the same message |
| Endpoints.Invoke | src/Weikio.Host.Services.Sdk/WeikioServiceBuilder.cs:144-182 | a constant factory yields its endpoint; a reflected one throws for an unregistered type, succeeds exactly for Task or void methods with an awaiting or synchronous handler, and carries the attribute's name, metadata and parallelism |
| Endpoints.InvokeAll | src/Weikio.Host.Services.Sdk/WeikioHostedServiceRunner.cs:39-41 | invoking factories in order succeeds exactly when every one succeeds, with their endpoints position by position; otherwise it throws the first failure |
| Services.WeikioService.constructor | src/Weikio.Host.Services.Sdk/WeikioService.cs:10-27 | name, version, description, service type and hooks are the arguments; null metadata becomes an empty dictionary; no endpoints |
| Services.WeikioService.AddActionEndpoint | src/Weikio.Host.Services.Sdk/WeikioService.cs:34-45 | the action overload appends one factory with the same name, metadata and parallelism (unbounded by default) and a synchronous adapter |
| Services.WeikioService.AddHandlerEndpoint | src/Weikio.Host.Services.Sdk/WeikioService.cs:47-53 | appends exactly one factory yielding that endpoint, parallelism unbounded by default, earlier entries kept |
| Services.WeikioService.AddEndpoint | src/Weikio.Host.Services.Sdk/WeikioService.cs:55-58 | appends exactly one factory that returns the endpoint for any provider |
| Services.WeikioService.AddEndpointFactory | src/Weikio.Host.Services.Sdk/WeikioService.cs:60-63 | appends the factory unchanged, earlier entries and their order kept |
| ServiceBuilders.ConstantFactoriesInvoke | src/Weikio.Host.Services.Sdk/WeikioServiceBuilder.cs:93-96 | the factories of an explicitly built service yield exactly the registered endpoints, in `WithEndpoint` order, for any provider |
| ServiceBuilders.WeikioServiceBuilder.constructor | src/Weikio.Host.Services.Sdk/WeikioServiceBuilder.cs:21-25 | only name and version are set; everything else is null and the endpoint list empty |
| ServiceBuilders.WeikioServiceBuilder.Create | src/Weikio.Host.Services.Sdk/WeikioServiceBuilder.cs:78-81 | a new builder with that name and version and nothing else set |
| ServiceBuilders.WeikioServiceBuilder.CreateFor | src/Weikio.Host.Services.Sdk/WeikioServiceBuilder.cs:83-86 | a new attribute-driven builder for the type, with no hooks |
| ServiceBuilders.WeikioServiceBuilder.WithDescription | src/Weikio.Host.Services.Sdk/WeikioServiceBuilder.cs:27-31 | overwrites the description (last call wins) and returns the same builder |
| ServiceBuilders.WeikioServiceBuilder.WithActionEndpoint | src/Weikio.Host.Services.Sdk/WeikioServiceBuilder.cs:33-46 | appends one endpoint with the same name and metadata, a synchronous adapter and unbounded parallelism; returns the same builder |
| ServiceBuilders.WeikioServiceBuilder.WithEndpoint | src/Weikio.Host.Services.Sdk/WeikioServiceBuilder.cs:48-56 | appends one endpoint with unbounded parallelism after the earlier ones; returns the same builder |
| ServiceBuilders.WeikioServiceBuilder.WithMetadata | src/Weikio.Host.Services.Sdk/WeikioServiceBuilder.cs:58-62 | overwrites the metadata and returns the same builder |
| ServiceBuilders.WeikioServiceBuilder.Configure | src/Weikio.Host.Services.Sdk/WeikioServiceBuilder.cs:64-69 | overwrites the host-builder hook and returns the same builder |
| ServiceBuilders.WeikioServiceBuilder.Deps | src/Weikio.Host.Services.Sdk/WeikioServiceBuilder.cs:71-76 | overwrites the services hook and returns the same builder |
| ServiceBuilders.WeikioServiceBuilder.Build | src/Weikio.Host.Services.Sdk/WeikioServiceBuilder.cs:88-99 | a fresh service with the builder's values, a null service type, empty metadata for null, and one constant factory per endpoint in order; the builder is not modified |
| ServiceBuilders.ReflectedFactories | src/Weikio.Host.Services.Sdk/WeikioServiceBuilder.cs:129-185 | no more factories than methods, each reflected over one of the type's methods and carrying that method's own endpoint attribute |
| ServiceBuilders.Annotated | src/Weikio.Host.Services.Sdk/WeikioServiceBuilder.cs:132-138 | the methods kept are exactly those carrying `EndpointAttribute` |
| ServiceBuilders.ReflectedFactoriesExact | src/Weikio.Host.Services.Sdk/WeikioServiceBuilder.cs:129-185 | exactly one factory per method carrying `EndpointAttribute`, in method order: the k-th factory reflects the k-th such method with that method's attribute |
| ServiceBuilders.ReflectedFactoriesAppend | src/Weikio.Host.Services.Sdk/WeikioServiceBuilder.cs:129-185 | the factories of two runs of methods are those of the first followed by those of the second, so method order is kept |
| ServiceBuilders.ReflectedFactoriesStep | src/Weikio.Host.Services.Sdk/WeikioServiceBuilder.cs:132-138 | one more method adds its factory at the end when it carries the attribute, and nothing otherwise |
| ServiceBuilders.ReflectedFactoriesComplete | src/Weikio.Host.Services.Sdk/WeikioServiceBuilder.cs:132-184 | every method carrying `EndpointAttribute` gets a factory |
| ServiceBuilders.ReflectedFactoriesNone | src/Weikio.Host.Services.Sdk/WeikioServiceBuilder.cs:135-138 | a type none of whose methods carries the attribute gets no endpoints |
| ServiceBuilders.TypedServiceBuilder.constructor | src/Weikio.Host.Services.Sdk/WeikioServiceBuilder.cs:102-105 | a builder for the type with both hooks null |
| ServiceBuilders.TypedServiceBuilder.Build | src/Weikio.Host.Services.Sdk/WeikioServiceBuilder.cs:107-188 | throws `ArgumentException` exactly when the type lacks `ServiceAttribute`; otherwise a fresh service named by the attribute, typed `T`, whose factories are the reflected factories in method order |
| ServiceBuilders.TypedServiceBuilder.Configure | src/Weikio.Host.Services.Sdk/WeikioServiceBuilder.cs:190-195 | overwrites the host-builder hook and returns the same builder |
| ServiceBuilders.TypedServiceBuilder.Deps | src/Weikio.Host.Services.Sdk/WeikioServiceBuilder.cs:197-202 | overwrites the services hook and returns the same builder |
| NatsConnections.ParseInt32 | src/Weikio.Host.Services.Sdk/NatsConnectionFactory.cs:39 | `int.Parse` yields a 32-bit value, ignoring trailing NUL characters, or throws a format or overflow exception for that text |
| NatsConnections.ParseTrimmed | src/Weikio.Host.Services.Sdk/NatsConnectionFactory.cs:39 | the trimmed number is within 32 bits or the parse throws a format or overflow exception |
| NatsConnections.Int32RoundTrip | src/Weikio.Host.Services.Sdk/NatsConnectionFactory.cs:39 | every 32-bit timeout written in decimal, with any surrounding white space and trailing NULs `int.Parse` skips, parses back to itself |
| NatsConnections.TrimNulsOff | src/Weikio.Host.Services.Sdk/NatsConnectionFactory.cs:39 | stripping trailing NULs from a text that does not end in NUL, followed by NULs, gives back that text |
| NatsConnections.ResolveTimeout | src/Weikio.Host.Services.Sdk/NatsConnectionFactory.cs:34-40 | 10000 ms when the timeout key is absent, otherwise exactly what `int.Parse` makes of the configured text |
| NatsConnections.NatsConnectionFactory.constructor | src/Weikio.Host.Services.Sdk/NatsConnectionFactory.cs:15-20 | the factory reads the given configuration |
| NatsConnections.Connect | src/Weikio.Host.Services.Sdk/NatsConnectionFactory.cs:45-110 | a negative timeout is rejected by the options' setter before connecting; otherwise on success the connection uses the given timeout, the configured URL or `nats://localhost:4222` when it is null or white space, and user and password only when they are not null or white space; on failure the client's exception is rethrown unchanged; whatever is thrown is logged exactly when `silent` is false |
| NatsConnections.CreateOutcome | src/Weikio.Host.Services.Sdk/NatsConnectionFactory.cs:32-43 | a malformed configured timeout throws unlogged, outside the try block; otherwise the outcome is that of `Create(silent, resolved timeout)` |
| NatsConnections.CreateOutcomeErrors | src/Weikio.Host.Services.Sdk/NatsConnectionFactory.cs:32-110 | what escapes is the parse error, the setter's out-of-range error or the client's error; a connect error is logged only when not silent and never alongside a connection; a connection comes back exactly when the timeout parses to a non-negative value and the client connects |
| NatsConnections.NatsConnectionFactory.Create | src/Weikio.Host.Services.Sdk/NatsConnectionFactory.cs:22-25 | behaves as `Create(false)` |
| NatsConnections.NatsConnectionFactory.CreateWithTimeout | src/Weikio.Host.Services.Sdk/NatsConnectionFactory.cs:27-30 | its result and logging are `Connect`'s with `silent` false |
| NatsConnections.NatsConnectionFactory.CreateQuiet | src/Weikio.Host.Services.Sdk/NatsConnectionFactory.cs:32-43 | its result and logging are `CreateOutcome`'s |
| NatsConnections.NatsConnectionFactory.CreateConnection | src/Weikio.Host.Services.Sdk/NatsConnectionFactory.cs:45-110 | its result and logging are `Connect`'s, including the out-of-range failure for a negative timeout |
| EndpointMessages.ReplyBytes | src/Weikio.Host.Services.Sdk/EndpointMessage.cs:12-18 | one response to the reply subject carrying the bytes and only the header `Content-type: application/octet-stream` |
| EndpointMessages.ReplyText | src/Weikio.Host.Services.Sdk/EndpointMessage.cs:20-26 | one response carrying the UTF-8 text and only `Content-type: text/plain` |
| EndpointMessages.ReplyJson | src/Weikio.Host.Services.Sdk/EndpointMessage.cs:28-35 | one response carrying the serialized JSON text and only `Content-type: application/json` |
| EndpointMessages.ReplyErrorWithCode | src/Weikio.Host.Services.Sdk/EndpointMessage.cs:37-40 | one standard error to the reply subject, read back as exactly that text and code |
| EndpointMessages.ReplyError | src/Weikio.Host.Services.Sdk/EndpointMessage.cs:42-45 | the same standard error as with code 400 |
| EndpointMessages.Data | src/Weikio.Host.Services.Sdk/EndpointMessage.cs:47 | the request's bytes, byte for byte |
| EndpointMessages.ReplyKindsDistinct | src/Weikio.Host.Services.Sdk/EndpointMessage.cs:12-40 | a requester can tell the four reply overloads apart by what it receives, whatever their arguments |
| LogEvents.LevelName | src/Weikio.Host.Services.Sdk/WeikioLogSink.cs:48 | the level's name is non-empty, contains no dot and parses back to the level |
| LogEvents.AddIfAbsent | src/Weikio.Host.Services.Sdk/WeikioLogEventEnricher.cs:18-23 | the key set gains the name; a present property is left alone, an absent one is added and nothing else changes |
| LogEvents.LogEvent.AddPropertyIfAbsent | src/Weikio.Host.Services.Sdk/WeikioLogEventEnricher.cs:18-23 | updates the event's properties in place as `AddIfAbsent` |
| LogEnrichment.AddAllFromHeader | src/Weikio.Host.Services.Sdk/WeikioLogEventEnricher.cs:18-23 | adding names one by one yields exactly the old keys plus those names; old properties keep their values and every added one is the header's value |
| LogEnrichment.Enriched | src/Weikio.Host.Services.Sdk/WeikioLogEventEnricher.cs:16-24 | afterwards all four correlation keys are present and no other key is added; present properties keep their values and each added one is the header's value for its key (null when the header lacks it) |
| LogEnrichment.EnrichIdempotent | src/Weikio.Host.Services.Sdk/WeikioLogEventEnricher.cs:18-23 | enriching twice with the same header is enriching once |
| LogEnrichment.WeikioLogEventEnricher.constructor | src/Weikio.Host.Services.Sdk/WeikioLogEventEnricher.cs:11-14 | keeps the message header |
| LogEnrichment.WeikioLogEventEnricher.Enrich | src/Weikio.Host.Services.Sdk/WeikioLogEventEnricher.cs:16-24 | the four in-place add-if-absent calls leave the event's properties equal to `Enriched` of the old ones |
| LogSink.DateStamp | src/Weikio.Host.Services.Sdk/WeikioLogSink.cs:48 | the `yyyyMMdd` stamp is eight decimal digits |
| LogSink.DateStampRoundTrip | src/Weikio.Host.Services.Sdk/WeikioLogSink.cs:48 | the stamp determines the date: reading it back gives year, month and day |
| LogSink.SubjectJoined | src/Weikio.Host.Services.Sdk/WeikioLogSink.cs:47-48 | the subject is `il`, the date stamp, the four values and the level name joined by dots |
| LogSink.SubjectTokens | src/Weikio.Host.Services.Sdk/WeikioLogSink.cs:47-48 | when no value contains a dot, splitting the subject on dots recovers exactly those seven tokens in order |
| LogSink.GetPropertyValue | src/Weikio.Host.Services.Sdk/WeikioLogSink.cs:70-78 | throws `KeyNotFoundException` exactly for a missing property; a non-null scalar gives its text and anything else gives `""` |
| LogSink.ForwardSubject | src/Weikio.Host.Services.Sdk/WeikioLogSink.cs:40-48 | fails exactly when agent, environment or correlation id is missing, with the `KeyNotFoundException` of the first missing one in that order; otherwise the subject is built from the four property values and the level |
| LogSink.EmitSpec | src/Weikio.Host.Services.Sdk/WeikioLogSink.cs:35-66 | an event without the integration name causes no connection activity; a missing other key throws before any publish; otherwise nothing escapes and the first step publishes the subject and UTF-8 payload on the current connection |
| LogSink.RetryCounts | src/Weikio.Host.Services.Sdk/WeikioLogSink.cs:56-66 | after a failed publish: one call of the factory, its connect error passed through, one more publish only when the factory returned a connection, on exactly that connection and with the same subject and payload, and one fatal entry exactly when there is no new connection or the second publish fails |
| LogSink.EmitPublishes | src/Weikio.Host.Services.Sdk/WeikioLogSink.cs:50-61 | a successful first publish is the only step; at most two publishes happen, all with the same subject and payload, and a second publish uses the connection the sink holds afterwards |
| LogSink.EmitRetry | src/Weikio.Host.Services.Sdk/WeikioLogSink.cs:52-66 | `NatsConnectionFactory.Create()` is called once exactly when the first publish fails, and the connect error it logs appears in the sink's effects; the connection is replaced by the factory's connection exactly when it returns one; one fatal entry is logged exactly when reconnecting or republishing fails |
| LogSink.EnrichedEventSubject | src/Weikio.Host.Services.Sdk/WeikioLogSink.cs:40-48 | an event enriched from a message's headers is forwarded under the subject built from those header values, with an empty token for a missing header |
| LogSink.WeikioLogSink.constructor | src/Weikio.Host.Services.Sdk/WeikioLogSink.cs:17-23 | the sink holds its factory and a connection |
| LogSink.WeikioLogSink.Open | src/Weikio.Host.Services.Sdk/WeikioLogSink.cs:17-23 | a sink exists exactly when the factory's `Create()` returns a connection, and then holds that connection; otherwise the factory's exception escapes, with its connect-error logging |
| LogSink.WeikioLogSink.Emit | src/Weikio.Host.Services.Sdk/WeikioLogSink.cs:25-79 | the effects, the new connection and the escaping exception are those of `EmitSpec` on the old connection and the factory's configuration, reconnecting through the factory's `Create()`; a replacement persists for later calls |
| HostedRunner.Group | src/Weikio.Host.Services.Sdk/WeikioHostedServiceRunner.cs:37 | the group is `external.` followed by the service name |
| HostedRunner.RegisterStep | src/Weikio.Host.Services.Sdk/WeikioHostedServiceRunner.cs:41-76 | one registration turn succeeds exactly when the factory yields an endpoint, the endpoint's `WeikioLogSink` opens its connection and the parallelism bound is unbounded or positive; it throws, in that order, the factory's exception, the sink's connect exception or `ArgumentOutOfRangeException` for the bound |
| HostedRunner.Register | src/Weikio.Host.Services.Sdk/WeikioHostedServiceRunner.cs:39-86 | registration succeeds exactly when every turn does, giving one endpoint per factory in factory order; otherwise it throws the first failing turn's exception |
| HostedRunner.RegisterFirstFailure | src/Weikio.Host.Services.Sdk/WeikioHostedServiceRunner.cs:39-76 | when every earlier turn succeeds and turn i throws, construction throws exactly turn i's exception |
| HostedRunner.RegisterInvokeAll | src/Weikio.Host.Services.Sdk/WeikioHostedServiceRunner.cs:39-76 | registration succeeds exactly when invoking all factories succeeds, every endpoint's sink connects and every bound is acceptable, and then gives the same endpoints |
| HostedRunner.MessageFacts | src/Weikio.Host.Services.Sdk/WeikioHostedServiceRunner.cs:52-72 | handling one message calls its handler exactly once inside one enrichment scope, and logs one error exactly when the handler threw |
| HostedRunner.MessageSummaries | src/Weikio.Host.Services.Sdk/WeikioHostedServiceRunner.cs:54-71 | the handler is called with the message once, and an error is logged exactly when it threw |
| HostedRunner.MessageScoped | src/Weikio.Host.Services.Sdk/WeikioHostedServiceRunner.cs:63-66 | the scope is entered just before the handler call and exited after it, whether or not the handler fails |
| HostedRunner.DrainFacts | src/Weikio.Host.Services.Sdk/WeikioHostedServiceRunner.cs:52-72 | an action block working through its queue calls the handler once per message in queue order, logs one error per failing message, keeps on after failures and keeps every scope balanced |
| HostedRunner.DrainAllCalls | src/Weikio.Host.Services.Sdk/WeikioHostedServiceRunner.cs:119-123 | draining the blocks in order hands every queued message to its handler once, block by block |
| HostedRunner.DrainAllCompletions | src/Weikio.Host.Services.Sdk/WeikioHostedServiceRunner.cs:119-123 | the blocks are completed once each, in registration order |
| HostedRunner.DrainAllScoped | src/Weikio.Host.Services.Sdk/WeikioHostedServiceRunner.cs:119-123 | draining keeps every enrichment scope balanced |
| HostedRunner.DrainAllQuiet | src/Weikio.Host.Services.Sdk/WeikioHostedServiceRunner.cs:119-123 | draining neither stops the service nor disposes of the connection |
| HostedRunner.StopOrder | src/Weikio.Host.Services.Sdk/WeikioHostedServiceRunner.cs:113-126 | the stopping entry is first, the service's stop second and the connection's disposal last, and none of them appears anywhere else, with every handler call in between |
| HostedRunner.StopDrains | src/Weikio.Host.Services.Sdk/WeikioHostedServiceRunner.cs:117-123 | every message still queued when stopping is handled exactly once, and the blocks are completed in registration order |
| HostedRunner.StopScoped | src/Weikio.Host.Services.Sdk/WeikioHostedServiceRunner.cs:113-126 | the whole stop trace keeps the enrichment scopes balanced |
| HostedRunner.Names | src/Weikio.Host.Services.Sdk/WeikioHostedServiceRunner.cs:119 | one endpoint name per block, in order |
| HostedRunner.ActionBlock.constructor | src/Weikio.Host.Services.Sdk/WeikioHostedServiceRunner.cs:52-76 | a block for the endpoint, with an empty queue and not completed |
| HostedRunner.ActionBlock.Post | src/Weikio.Host.Services.Sdk/WeikioHostedServiceRunner.cs:82 | a block not yet completed queues the message at the back and accepts it; a completed one declines it |
| HostedRunner.ActionBlock.Complete | src/Weikio.Host.Services.Sdk/WeikioHostedServiceRunner.cs:121 | the block is completed |
| HostedRunner.ActionBlock.ProcessNext | src/Weikio.Host.Services.Sdk/WeikioHostedServiceRunner.cs:52-72 | dequeues the oldest message and records the debug entry, the scoped handler call and an error entry exactly when the handler threw |
| HostedRunner.ActionBlock.Drain | src/Weikio.Host.Services.Sdk/WeikioHostedServiceRunner.cs:122 | empties the queue, producing the events of handling every queued message in order |
| HostedRunner.WeikioHostedServiceRunner.constructor | src/Weikio.Host.Services.Sdk/WeikioHostedServiceRunner.cs:29-35 | the runner's parts are the arguments and its trace is empty |
| HostedRunner.WeikioHostedServiceRunner.Create | src/Weikio.Host.Services.Sdk/WeikioHostedServiceRunner.cs:29-102 | a connection failure throws first; otherwise construction succeeds exactly when registration does, including each endpoint sink's own connection. It then gives one fresh, empty action block and one service endpoint per registered endpoint, in order, in group `external.<name>`, with null metadata replaced by an empty dictionary, and the NATS service carries the service's name, version, description, metadata and connection |
| HostedRunner.WeikioHostedServiceRunner.StartAsync | src/Weikio.Host.Services.Sdk/WeikioHostedServiceRunner.cs:104-111 | logs the service name and endpoint count, then starts the service |
| HostedRunner.WeikioHostedServiceRunner.OnMessage | src/Weikio.Host.Services.Sdk/WeikioHostedServiceRunner.cs:82 | a message for endpoint `i` is appended to that endpoint's queue unless the block was already completed; whether it is completed does not change, and no other block changes |
| HostedRunner.WeikioHostedServiceRunner.Process | src/Weikio.Host.Services.Sdk/WeikioHostedServiceRunner.cs:52-72 | block `i` handles its oldest message and stays completed or not as it was, and the runner's trace gains exactly that message's events |
| HostedRunner.WeikioHostedServiceRunner.StopAction | src/Weikio.Host.Services.Sdk/WeikioHostedServiceRunner.cs:121-122 | block `i` is completed and drained, its events are appended, and no other block changes |
| HostedRunner.WeikioHostedServiceRunner.DrainActions | src/Weikio.Host.Services.Sdk/WeikioHostedServiceRunner.cs:119-123 | every block is completed and drained in registration order, and the trace gains exactly those events |
| HostedRunner.WeikioHostedServiceRunner.StopAsync | src/Weikio.Host.Services.Sdk/WeikioHostedServiceRunner.cs:113-126 | the trace gains exactly `StopTrace` of the blocks' queues when it was called, which the lemmas above order, and every block ends empty and completed |

## Left out

- ActionBlock parallelism: blocks run concurrently up to `MaxDegreeOfParallelism` (WeikioHostedServiceRunner.cs:73-76). Here each block is a FIFO queue drained one message at a time, and blocks do not interleave. Only the bound's validity is checked, as the dataflow options setter does.
- NATS client calls: connecting, `Publish`, `Respond`, `RespondStandardError`, the `Service` and `ServiceEndpoint` builders, `StartService`, `Stop` and `Dispose`. Each becomes an oracle outcome, a returned response record or a trace event. Their wire formats are not modelled.
- Serilog plumbing: `CompactJsonFormatter` output is an opaque `rendered` string, `LogContext.Push` is a scope event, and the console sink is not modelled. The per-endpoint Serilog logger built at WeikioHostedServiceRunner.cs:43-50 is modelled only by its sink's connection outcome, `sinks(i)`, whose failure aborts construction; what that logger later writes is not modelled.
- `DateTime.Now` (WeikioLogSink.cs:48): the local date is a parameter. The `yyyyMMdd` stamp is the Gregorian (invariant-culture) rendering; a current culture whose default calendar is not Gregorian, such as the Thai Buddhist calendar of th-TH, renders another year and is not modelled.
- JSON serialisation in `Reply(object)`: the serialized text is a parameter.
- Reflection, including `method.Invoke`: methods are records. A handler's behaviour when called is the `fails` oracle, and what handlers themselves reply is not modelled.
- Dependency-injection failures: the provider is the set of resolvable type names. Only `GetRequiredService<T>` for the service type can fail. Failures to resolve `NatsConnectionFactory`, `IConfiguration`, a logger or `ConnectionFactory` are not modelled.
- HostedRunner.WeikioHostedServiceRunner.Create: it takes the outcome of `NatsConnectionFactory.Create()`, for its own connection and for each endpoint sink's, as parameters rather than calling the factory, so the connect errors the factory logs do not appear in the runner's trace.
- NatsConnections.ParseInt32: it models `int.Parse` in the invariant culture (white space, one sign, decimal digits, trailing NUL characters). It does not model culture-specific signs, digit grouping or other number styles.
- Text.Utf8: strings here hold Unicode scalar values, whereas .NET strings are UTF-16. `GetBytes` would replace an unpaired surrogate with U+FFFD; that case cannot arise in this model.
- NatsConnections.CreateConnection: configuration keys are looked up exactly as written, whereas `IConfiguration` matches keys without regard to case. A configuration that spells `Weikio:Nats:Url` in another case is treated here as lacking the key.
- LogSink.WeikioLogSink.Emit: it does not model the discarded second read of the environment property at WeikioLogSink.cs:44. That read throws exactly when the first one does, so it changes nothing.
- HostedRunner.RegisterStep: it assumes `ServiceEndpoint.Builder()` accepts every endpoint name and metadata (WeikioHostedServiceRunner.cs:78-83). The NATS builder validates them, and a rejection would make the constructor throw inside that turn; the model does not capture that failure.
- HostedRunner.WeikioHostedServiceRunner.Create: it assumes `Service.Builder()` accepts the service name, version, description and metadata (WeikioHostedServiceRunner.cs:88-101), and that every endpoint builder accepts its endpoint. A rejection would make the constructor throw: inside the turn for an endpoint (cs:83), after the loop for the service (cs:101); the model does not capture either failure, so "succeeds exactly when registration does" holds only for accepted names.
- WeikioServiceRunner.cs (hosting and configuration loading), ServiceMsgExtensions.cs, Operation.cs and the sample program are not part of this model.
