# DiscoveryDemo service discovery, modelled in Dafny

DiscoveryDemo lets an `HttpClient` address a service by a virtual URI such as
`config:///addresses:backend/api/product/1`. A delegating handler intercepts
each request and takes the URI apart:

- the scheme (`config`) names a resolver factory in a `ResolverRegistry`;
- the first path segment (`addresses:backend`) is the resolver's own address;
- the rest of the path (`/api/product/1`) is the path to request.

The handler keeps one resolver per scheme in a cache. Each cache entry waits
for the first usable address its resolver reports, and the handler rewrites
the request to `https://host:port/requestPath`. When the address carries a
host override, it also adds a `Host` header. Around this sit:

- `ResolverOptions`, whose two reconnect-backoff properties refuse
  non-positive values;
- `ProtocolHelpers`, which turns an exception and its inner exceptions into
  a gRPC status whose detail lists every `TypeName: Message` pair.

The project is made of these files:

- `wrappers.dfy`: `Option`, `Outcome` (a setter that may throw) and `Result`.
- `errors.dfy`: the exceptions the core throws, as values.
- `search.dfy`: the first-match search over a sequence. The registry's
  `foreach` and the resolver listener both rely on it.
- `resolver_options.dfy`: `ResolverOptions`, a class whose backoff setters
  validate their argument and update a field.
- `resolver_registry.dfy`: `ResolverRegistry.CreateResolver`, the pure
  first-name-match dispatch.
- `protocol_helpers.dfy`: the exception-chain message. The `do`/`while`
  loop of `BuildErrorMessage` is proved equal to a recursive definition, and
  that definition is characterised by lemmas.
- `discovery_http_handler.dfy`: the handler.
  - The path split is modelled as functions, with a uniqueness lemma.
  - Each cache entry's write-once address slot is a class. Its invariant
    says the slot holds the first address of the first usable result
    delivered so far.
  - The resolver cache is a `map` field of the handler class.
  - The URI rewrite updates the request object in place.
  - A worked example restates the scenario of the repository's `config` test.

`TimeSpan` values are whole ticks (`int`), and a `TimeSpan?` is an
`Option<int>`. A URI is the record of the five parts the handler reads and
writes.

## Model

| member | source | states |
|---|---|---|
| Options.ResolverOptions.constructor | src/Discovery/ResolverOptions.cs:40-46 | stores the address and default port; both backoffs start unset (null and zero), which satisfies the setters' invariant |
| Options.ResolverOptions.MaxReconnectBackoff | src/Discovery/ResolverOptions.cs:83 | the getter returns the stored maximum: null (no limit) or, under the setters' invariant, a positive duration |
| Options.ResolverOptions.InitialReconnectBackoff | src/Discovery/ResolverOptions.cs:109 | the getter returns the stored initial backoff: the zero default or, under the setters' invariant, a positive duration |
| Options.ResolverOptions.SetMaxReconnectBackoff | src/Discovery/ResolverOptions.cs:81-92 | accepted exactly when the value is null or positive, and then the getter returns it; otherwise throws `ArgumentException` with the exact message and leaves the field unchanged; never touches the initial backoff; keeps the invariant that a set maximum is positive |
| Options.ResolverOptions.SetInitialReconnectBackoff | src/Discovery/ResolverOptions.cs:107-118 | accepted exactly when the value is positive, and then the getter returns it; otherwise throws `ArgumentException` with the exact message and leaves the field unchanged; never touches the maximum backoff; keeps the invariant that the initial backoff is zero or positive |
| Search.FirstIndex | src/Discovery/ResolverRegistry.cs:32-38 | None exactly when no element matches; otherwise an in-range index of a matching element with no match before it |
| Search.FirstIndexAppend | src/Discovery/ResolverRegistry.cs:32-38 | elements appended after a match do not change the first match |
| Search.FirstIndexSnoc | test/Discovery.Tests/DiscoveryHttpHandler.cs:83-93 | with no match so far, one appended element becomes the first match exactly when it matches |
| Registry.ResolverRegistry.FactoryFor | src/Discovery/ResolverRegistry.cs:30-41 | the position of the first factory whose name equals the scheme, in registration order; None exactly when no factory has that name |
| Registry.ResolverRegistry.CreateResolver | src/Discovery/ResolverRegistry.cs:30-41 | null exactly when no factory has the name; otherwise the resolver comes from the first factory with that name and receives the given options unchanged |
| Registry.LaterDuplicateUnreachable | src/Discovery/ResolverRegistry.cs:30-41 | when two factories share a name, the later one is never used |
| Registry.AppendKeepsMatch | src/Discovery/ResolverRegistry.cs:30-41 | registering more factories after a matching one does not change the resolver that is created |
| ProtocolHelpers.ChainLinks | src/Discovery/Internal/ProtocolHelpers.cs:28-43 | the chain the loop walks links each exception to its inner exception and ends at the one without an inner exception |
| ProtocolHelpers.JoinCons | src/Discovery/Internal/ProtocolHelpers.cs:28-43 | read from the front, the message is the outermost segment, a space and the message of the rest |
| ProtocolHelpers.JoinLength | src/Discovery/Internal/ProtocolHelpers.cs:28-43 | the message length is the sum of the segment lengths plus exactly one separator between neighbours |
| ProtocolHelpers.JoinEnds | src/Discovery/Internal/ProtocolHelpers.cs:28-43 | the message starts with the outermost segment and ends with the innermost one: no leading or trailing space |
| ProtocolHelpers.ErrorMessageUnfold | src/Discovery/Internal/ProtocolHelpers.cs:24-47 | a wrapped exception's message is its own segment, a space, then the inner exception's message |
| ProtocolHelpers.BuildErrorMessage | src/Discovery/Internal/ProtocolHelpers.cs:24-47 | the loop's string equals the space-joined `TypeName: Message` segments of the whole inner-exception chain, outermost first |
| ProtocolHelpers.ConvertToRpcExceptionMessage | src/Discovery/Internal/ProtocolHelpers.cs:17-22 | a lone exception gives `TypeName: Message` directly; in every case the result is the chain message |
| ProtocolHelpers.CreateStatusFromException | src/Discovery/Internal/ProtocolHelpers.cs:9-15 | the code is the given one, or `Internal` when none is given; the detail is the summary, a space and the chain message; the exception is kept as the debug exception |
| ProtocolHelpers.ThreeLevelChain | src/Discovery/Internal/ProtocolHelpers.cs:24-47 | three nested exceptions give their three segments, outermost first, separated by single spaces |
| ProtocolHelpers.ThreeLevelChainMessage | src/Discovery/Internal/ProtocolHelpers.cs:9-15 | A(msg1) wrapping B(msg2) wrapping C(msg3) under "summary" gives `summary A: msg1 B: msg2 C: msg3` |
| DiscoveryHandler.TrimStartSlashes | test/Discovery.Tests/DiscoveryHttpHandler.cs:25 | drops only '/' characters and leaves no leading '/' |
| DiscoveryHandler.TrimStartSlashesSuffix | test/Discovery.Tests/DiscoveryHttpHandler.cs:25 | what is kept is exactly the rest of the path after the dropped slashes |
| DiscoveryHandler.IndexOf | test/Discovery.Tests/DiscoveryHttpHandler.cs:27 | -1 exactly when the character does not occur; otherwise the position of its first occurrence |
| DiscoveryHandler.SplitPath | test/Discovery.Tests/DiscoveryHttpHandler.cs:25-32 | the config path and the request path concatenate to the trimmed path; the config path has no '/'; the request path is empty or starts with '/', and is empty when the trimmed path has no '/' |
| DiscoveryHandler.SplitPathUnique | test/Discovery.Tests/DiscoveryHttpHandler.cs:25-32 | any split with those three properties is the split computed |
| DiscoveryHandler.SplitPathConfigExample | test/Discovery.Tests/DiscoveryHttpHandlerTests.cs:28-30 | `/addresses:backend/api/product/1` splits into `addresses:backend` and `/api/product/1` |
| DiscoveryHandler.ListenerFault | test/Discovery.Tests/DiscoveryHttpHandler.cs:83-93 | the listener throws exactly on an OK result whose address list is null (null dereference) or empty (index out of range) |
| DiscoveryHandler.FirstAddressStable | test/Discovery.Tests/DiscoveryHttpHandler.cs:83-93 | once the slot holds an address, no later result changes it (`TrySetResult` succeeds once) |
| DiscoveryHandler.FirstAddressFill | test/Discovery.Tests/DiscoveryHttpHandler.cs:83-93 | while the slot is empty, a result fills it exactly when it is usable, and fills it with that result's first address |
| DiscoveryHandler.FirstFault | test/Discovery.Tests/DiscoveryHttpHandler.cs:83-93 | the first result the listener throws on; None exactly when it throws on none |
| DiscoveryHandler.ResolverState.constructor | test/Discovery.Tests/DiscoveryHttpHandler.cs:79-82 | a new entry keeps its resolver, has an unset slot and has had nothing delivered |
| DiscoveryHandler.ResolverState.OnResult | test/Discovery.Tests/DiscoveryHttpHandler.cs:83-93 | keeps the slot equal to the first address of the first usable delivery; throws exactly as `ListenerFault` says, and then changes nothing; ignores non-OK results; never overwrites a filled slot |
| DiscoveryHandler.Start | test/Discovery.Tests/DiscoveryHttpHandler.cs:79-94 | delivers the resolver's start-up results in order until the listener throws. The fault escapes exactly when the resolver does not catch it; a catching resolver (test/Discovery.Tests/ConfigResolver.cs:18-30) publishes a failure result instead and returns normally. The slot ends at the first usable address delivered |
| DiscoveryHandler.StartSlot | test/Discovery.Tests/ConfigResolver.cs:27-30 | after a caught fault, the failure result leaves the slot at the first usable address published before the fault |
| DiscoveryHandler.RewriteRequest | test/Discovery.Tests/DiscoveryHttpHandler.cs:55-69 | the new URI is `https`, the endpoint's host and port, the request path and the old query; the headers gain `Host` exactly when the address has a host override |
| DiscoveryHandler.HostHeader | test/Discovery.Tests/DiscoveryHttpHandler.cs:62-67 | at most one header; a `Host` header exactly when the address has a host-override attribute, carrying that attribute's value |
| DiscoveryHandler.Forward | test/Discovery.Tests/DiscoveryHttpHandler.cs:53-69 | an unset slot leaves the request untouched (the await has not completed); a set slot rewrites the request to its address |
| DiscoveryHandler.DiscoveryHttpHandler.constructor | test/Discovery.Tests/DiscoveryHttpHandler.cs:13-19 | the cache starts empty |
| DiscoveryHandler.DiscoveryHttpHandler.GetResolverState | test/Discovery.Tests/DiscoveryHttpHandler.cs:37-51 | a cached scheme reuses its entry and leaves the cache alone. For a new scheme, it throws `InvalidOperationException` with the exact message when no factory matches, and rethrows the listener's fault when it escapes `Start`; neither error adds an entry. Otherwise it adds exactly one fresh entry, whose resolver comes from the first matching factory with address `scheme:///configPath` and port 80, and whose slot already holds the first usable address delivered during `Start` (also when a catching resolver swallowed a fault) |
| DiscoveryHandler.DiscoveryHttpHandler.Dispatch | test/Discovery.Tests/DiscoveryHttpHandler.cs:37-69 | it fails exactly when the scheme is new and has no factory or a listener fault escapes its `Start`, with the matching exception and nothing changed. It waits exactly when the scheme's slot is unset. Otherwise the request is rewritten to the slot's address; the cache changes only by the new scheme's entry |
| DiscoveryHandler.DiscoveryHttpHandler.SendAsync | test/Discovery.Tests/DiscoveryHttpHandler.cs:21-72 | the same as `Dispatch`, for the scheme, config path and request path taken from the request's own URI; the cache invariant holds before and after |
| DiscoveryHandlerExample.ConfigSourceAddressResolved | test/Discovery.Tests/DiscoveryHttpHandlerTests.cs:9-34 | a `config` resolver reporting `localhost:80` turns `config:///addresses:backend/api/product/1` into `https://localhost:80/api/product/1`, with no extra header |
| DiscoveryHandlerExample.CatchingResolverWaits | test/Discovery.Tests/ConfigResolver.cs:18-30 | a catching `config` resolver that publishes an OK result with an empty address list still gets its cache entry, and the request waits |

## Left out

- Asynchrony is not modelled. `await resolverState.AddressTask` on an unset slot suspends the request; the model returns `Waiting` and leaves the request untouched.
- The handler's `base.SendAsync` call sends the request through the inner handler, which the model does not include. A forwarded outcome is the rewritten request.
- Concrete resolvers (`ConfigResolver`, its factory) read `IConfiguration`; they are not part of this model. A factory is its name. A resolver is the factory's position plus the options it was given. What a new resolver's `Start` does before returning is a parameter (`StartBehaviour`): the results it publishes and whether it catches the listener's exceptions, as `ConfigResolver` does. Results published later, from reload callbacks, reach the same `OnResult`.
- The logger factory and service provider given to `ResolverOptions` and the handler are opaque services and are not modelled.
- `System.Uri` parsing, escaping and `UriBuilder.Uri` normalisation are not modelled. A URI is its scheme, host, port, absolute path and query, and the new URI is the builder's fields unchanged.
- The handler's `Dictionary` is not thread-safe, and the model is sequential: concurrent requests for the same new scheme are not modelled.
- Balancer attributes are a map from key name to string value; the typed `BalancerAttributesKey<string>` wrapper is not modelled.
- `MaxReconnectBackoff` and `InitialReconnectBackoff` document defaults of 120 seconds and 1 second, but the code never sets them. The model follows the code: the fields start at null and zero.
- `request.Headers.TryAddWithoutValidation("Host", …)` is modelled as appending one header pair. Header validation and merging with an existing `Host` value are not modelled.
- An OK result with a null or empty address list makes the listener throw, as the code's `Addresses![0]` does. A looser reading, where such a result is ignored, is not followed. Whether the entry is then cached depends on the resolver: a non-catching resolver lets the exception escape `Start` and nothing is cached; a catching one publishes a failure result and the entry is cached.
- `ResolveFailed`, the failure result a catching resolver publishes, carries no debug exception: the caught exception is an `Errors.Error` value, not an exception chain. The listener ignores the result either way.
- Exceptions are their runtime type name, message and inner exception. Stack traces and `AggregateException` inner lists are not modelled.
