/**
 * The request interceptor: it splits a virtual URI `scheme:///configPath/requestPath`,
 * keeps one resolver per scheme in a cache, waits for the first address that
 * resolver reports, and rewrites the request to target that address.
 */
module DiscoveryHandler {
  import opened Wrappers
  import opened Errors
  import Search
  import Options
  import Registry
  import PH = ProtocolHelpers

  /** A URI as the fields the interceptor reads and writes. */
  datatype Uri = Uri(scheme: string, host: string, port: int, path: string, query: string)

  datatype EndPoint = EndPoint(host: string, port: int)

  /** A resolved address: an endpoint and its attributes, by attribute name. */
  datatype BalancerAddress = BalancerAddress(endPoint: EndPoint, attributes: map<string, string>)

  /** What a resolver reports to its listener; `addresses` is null on a failure result. */
  datatype ResolverResult = ResolverResult(status: PH.Status, addresses: Option<seq<BalancerAddress>>)

  /** What became of a request: handed on rewritten, still awaiting an address, or thrown. */
  datatype SendOutcome =
    | Forwarded(uri: Uri, headers: seq<(string, string)>)
    | Waiting
    | Failed(error: Error)

  // ---------------------------------------------------------------------
  // Splitting the path

  /** `TrimStart('/')`: drops every leading slash and nothing else. */
  function TrimStartSlashes(s: string): (r: string)
    ensures |r| <= |s|
    ensures forall k :: 0 <= k < |s| - |r| ==> s[k] == '/'
    ensures r == [] || r[0] != '/'
    decreases |s|
  {
    if |s| > 0 && s[0] == '/' then TrimStartSlashes(s[1..]) else s
  }

  /** What TrimStartSlashes keeps is the rest of the string after the slashes it drops. */
  lemma {:induction false} TrimStartSlashesSuffix(s: string)
    ensures s == s[..|s| - |TrimStartSlashes(s)|] + TrimStartSlashes(s)
    decreases |s|
  {
    if |s| > 0 && s[0] == '/' {
      TrimStartSlashesSuffix(s[1..]);
      assert s == [s[0]] + s[1..];
    }
  }

  /** `IndexOf(c)`: the position of the first `c` in `s`, or -1 when there is none. */
  function IndexOf(s: string, c: char): (r: int)
    ensures -1 <= r < |s|
    ensures r == -1 <==> c !in s
    ensures r >= 0 ==> s[r] == c && c !in s[..r]
    decreases |s|
  {
    if |s| == 0 then -1
    else if s[0] == c then 0
    else
      var k := IndexOf(s[1..], c);
      assert s[1..][..if k >= 0 then k else 0] == s[1..1 + if k >= 0 then k else 0];
      if k == -1 then -1 else k + 1
  }

  datatype PathSplit = PathSplit(configPath: string, requestPath: string)

  /**
   * The absolute path without its leading slashes, cut at its first '/':
   * the resolver key before it, the request path from it on.
   */
  function SplitPath(absolutePath: string): (p: PathSplit)
    ensures p.configPath + p.requestPath == TrimStartSlashes(absolutePath)
    ensures '/' !in p.configPath
    ensures p.requestPath == [] || p.requestPath[0] == '/'
    ensures '/' !in TrimStartSlashes(absolutePath) ==> p.requestPath == []
  {
    var configPath := TrimStartSlashes(absolutePath);
    var end := IndexOf(configPath, '/');
    if end != -1 then
      assert configPath[..end] + configPath[end..] == configPath;
      PathSplit(configPath[..end], configPath[end..])
    else PathSplit(configPath, "")
  }

  /** Only one way to cut a path has the three properties of SplitPath. */
  lemma SplitPathUnique(absolutePath: string, configPath: string, requestPath: string)
    requires configPath + requestPath == TrimStartSlashes(absolutePath)
    requires '/' !in configPath
    requires requestPath == [] || requestPath[0] == '/'
    ensures SplitPath(absolutePath) == PathSplit(configPath, requestPath)
  {
    var p := SplitPath(absolutePath);
    var t := TrimStartSlashes(absolutePath);
    assert configPath == t[..|configPath|] == p.configPath;
    assert requestPath == t[|configPath|..] == p.requestPath;
  }

  /** The virtual path of the configuration example: resolver key `addresses:backend`, request path `/api/product/1`. */
  lemma SplitPathConfigExample(absolutePath: string)
    requires absolutePath == "/addresses:backend/api/product/1"
    ensures SplitPath(absolutePath) == PathSplit("addresses:backend", "/api/product/1")
  {
    assert TrimStartSlashes(absolutePath) == TrimStartSlashes(absolutePath[1..]) == absolutePath[1..];
    SplitPathUnique(absolutePath, "addresses:backend", "/api/product/1");
  }

  // ---------------------------------------------------------------------
  // The write-once address slot of a cache entry

  /** A result the listener takes its address from: OK with a non-empty list. */
  predicate Usable(result: ResolverResult)
  {
    result.status.code == PH.OK && result.addresses.Some? && |result.addresses.value| > 0
  }

  /** What `result.Addresses![0]` throws inside the listener, if anything. */
  function ListenerFault(result: ResolverResult): (fault: Option<Error>)
    ensures fault.None? <==> result.status.code != PH.OK || Usable(result)
  {
    if result.status.code != PH.OK then None
    else if result.addresses.None? then Some(NullReferenceException)
    else if |result.addresses.value| == 0 then Some(ArgumentOutOfRangeException)
    else None
  }

  /** The slot's value after `history` has been delivered: the first address of the first usable result. */
  function FirstAddress(history: seq<ResolverResult>): Option<BalancerAddress>
  {
    match Search.FirstIndex(history, Usable)
    case None => None
    case Some(i) => Some(history[i].addresses.value[0])
  }

  /** Once the slot holds an address, no later delivery changes it. */
  lemma {:induction false} FirstAddressStable(history: seq<ResolverResult>, later: seq<ResolverResult>)
    requires FirstAddress(history).Some?
    ensures FirstAddress(history + later) == FirstAddress(history)
  {
    Search.FirstIndexAppend(history, later, Usable);
    var i := Search.FirstIndex(history, Usable).value;
    assert (history + later)[i] == history[i];
  }

  /** While the slot is empty, a delivery fills it exactly when the result is usable. */
  lemma {:induction false} FirstAddressFill(history: seq<ResolverResult>, result: ResolverResult)
    requires FirstAddress(history).None?
    ensures FirstAddress(history + [result])
         == if Usable(result) then Some(result.addresses.value[0]) else None
  {
    Search.FirstIndexSnoc(history, result, Usable);
    assert (history + [result])[|history|] == result;
  }

  /** Results up to and including the first one the listener throws on. */
  function FirstFault(results: seq<ResolverResult>): (r: Option<nat>)
    ensures r.Some? ==> r.value < |results| && ListenerFault(results[r.value]).Some?
    ensures r.Some? ==> forall j :: 0 <= j < r.value ==> ListenerFault(results[j]).None?
    ensures r.None? <==> forall j :: 0 <= j < |results| ==> ListenerFault(results[j]).None?
  {
    Search.FirstIndex(results, (x: ResolverResult) => ListenerFault(x).Some?)
  }

  /** A cache entry: the resolver made for a scheme and the first address it reported. */
  class ResolverState {
    const resolver: Registry.Resolver<Options.ResolverOptions>
    /** `_addressTcs`: None until the first usable result arrives. */
    var address: Option<BalancerAddress>
    /** Every result the listener has completed on, in order. */
    ghost var delivered: seq<ResolverResult>

    ghost predicate Valid()
      reads this
    {
      address == FirstAddress(delivered)
    }

    constructor(resolver: Registry.Resolver<Options.ResolverOptions>)
      ensures Valid()
      ensures this.resolver == resolver && address == None && delivered == []
    {
      this.resolver := resolver;
      address := None;
      delivered := [];
    }

    /**
     * The listener handed to `Start`. An OK result reads `Addresses[0]`
     * (throwing on a null or empty list) and `TrySetResult`s it; any other
     * result is ignored.
     */
    method OnResult(result: ResolverResult) returns (fault: Option<Error>)
      requires Valid()
      modifies this`address, this`delivered
      ensures Valid()
      ensures fault == ListenerFault(result)
      ensures fault.Some? ==> address == old(address) && delivered == old(delivered)
      ensures fault.None? ==> delivered == old(delivered) + [result]
      ensures old(address).Some? ==> address == old(address)
      ensures result.status.code != PH.OK ==> address == old(address)
      ensures old(address).None? && Usable(result) ==> address == Some(result.addresses.value[0])
    {
      if result.status.code == PH.OK {
        if result.addresses.None? {
          return Some(NullReferenceException);
        }
        if |result.addresses.value| == 0 {
          return Some(ArgumentOutOfRangeException);
        }
        if address.None? {
          FirstAddressFill(delivered, result);
          address := Some(result.addresses.value[0]);
        } else {
          FirstAddressStable(delivered, [result]);
        }
      } else if address.None? {
        FirstAddressFill(delivered, result);
      } else {
        FirstAddressStable(delivered, [result]);
      }
      delivered := delivered + [result];
      fault := None;
    }
  }

  /**
   * What a new resolver's `Start` does before it returns: the results it
   * publishes to the listener, in order, and whether it wraps its start-up in
   * a `try`/`catch` that turns an exception into a failure result.
   */
  datatype StartBehaviour = StartBehaviour(results: seq<ResolverResult>, catchesFaults: bool)

  /** The `ForFailure(new Status(Internal, "Resolve failed", ex))` a catching resolver publishes. */
  const ResolveFailed: ResolverResult := ResolverResult(PH.Status(PH.Internal, "Resolve failed", None), None)

  /** The exception that escapes `Start`: the listener's first fault, unless the resolver catches it. */
  function StartFault(start: StartBehaviour): Option<Error>
  {
    var first := FirstFault(start.results);
    if first.Some? && !start.catchesFaults then ListenerFault(start.results[first.value]) else None
  }

  /**
   * The results the listener completes on during `Start`: all of them, or,
   * when the listener throws, those before the fault followed by the failure
   * result a catching resolver publishes.
   */
  function StartDelivered(start: StartBehaviour): seq<ResolverResult>
  {
    var first := FirstFault(start.results);
    if first.None? then start.results else start.results[..first.value] + [ResolveFailed]
  }

  /** The failure result after a fault never fills the slot: the entry keeps what came before the fault. */
  lemma {:induction false} StartSlot(start: StartBehaviour)
    requires FirstFault(start.results).Some?
    ensures FirstAddress(StartDelivered(start)) == FirstAddress(start.results[..FirstFault(start.results).value])
  {
    var before := start.results[..FirstFault(start.results).value];
    if FirstAddress(before).Some? {
      FirstAddressStable(before, [ResolveFailed]);
    } else {
      FirstAddressFill(before, ResolveFailed);
    }
  }

  /**
   * A resolver's `Start` as the cache observes it: the results the resolver
   * publishes before `Start` returns reach the listener in order. An
   * exception thrown by the listener ends the delivery; it escapes `Start`,
   * or, when the resolver catches it, becomes one more failure result.
   */
  method Start(state: ResolverState, start: StartBehaviour) returns (fault: Option<Error>)
    requires state.Valid() && state.delivered == [] && state.address == None
    modifies state
    ensures state.Valid()
    ensures fault == StartFault(start)
    ensures fault.None? ==> state.delivered == StartDelivered(start)
  {
    var results := start.results;
    var i := 0;
    while i < |results|
      invariant 0 <= i <= |results|
      invariant state.Valid()
      invariant state.delivered == results[..i]
      invariant forall j :: 0 <= j < i ==> ListenerFault(results[j]).None?
    {
      fault := state.OnResult(results[i]);
      if fault.Some? {
        assert FirstFault(results) == Some(i);
        if start.catchesFaults {
          fault := state.OnResult(ResolveFailed);
        }
        return;
      }
      i := i + 1;
    }
    assert results[..i] == results;
    fault := None;
  }

  // ---------------------------------------------------------------------
  // The handler

  const DefaultPort: int := 80

  /** The `Host` header a resolved address contributes: its host override, when it has one. */
  function HostHeader(address: BalancerAddress): (h: seq<(string, string)>)
    ensures |h| <= 1
    ensures h != [] <==> PH.HostOverrideKey in address.attributes
    ensures h != [] ==> h[0] == ("Host", address.attributes[PH.HostOverrideKey])
  {
    if PH.HostOverrideKey in address.attributes then [("Host", address.attributes[PH.HostOverrideKey])] else []
  }

  /** An outbound request; the handler rewrites its URI and headers in place. */
  class HttpRequestMessage {
    var requestUri: Uri
    var headers: seq<(string, string)>

    constructor(requestUri: Uri, headers: seq<(string, string)>)
      ensures this.requestUri == requestUri && this.headers == headers
    {
      this.requestUri := requestUri;
      this.headers := headers;
    }
  }

  /**
   * The URI rewrite of `SendAsync`: a `UriBuilder` over the request's URI gets the
   * scheme `https`, the endpoint's host and port, the request path and the
   * original query, and becomes the request's URI; a host override becomes a
   * `Host` header.
   */
  method RewriteRequest(request: HttpRequestMessage, address: BalancerAddress, requestPath: string)
    modifies request
    ensures request.requestUri
         == Uri("https", address.endPoint.host, address.endPoint.port, requestPath, old(request.requestUri.query))
    ensures request.headers == old(request.headers) + HostHeader(address)
  {
    var uriBuilder := request.requestUri;
    uriBuilder := uriBuilder.(scheme := "https");
    uriBuilder := uriBuilder.(host := address.endPoint.host);
    uriBuilder := uriBuilder.(port := address.endPoint.port);
    uriBuilder := uriBuilder.(path := requestPath);
    uriBuilder := uriBuilder.(query := request.requestUri.query);

    if PH.HostOverrideKey in address.attributes {
      request.headers := request.headers + [("Host", address.attributes[PH.HostOverrideKey])];
    }
    request.requestUri := uriBuilder;
  }

  /**
   * `await resolverState.AddressTask` and what follows it: only a filled slot
   * lets the request go on, rewritten to the slot's address.
   */
  method Forward(request: HttpRequestMessage, slot: Option<BalancerAddress>, requestPath: string)
    returns (outcome: SendOutcome)
    modifies request
    ensures !outcome.Failed?
    ensures outcome.Waiting? <==> slot.None?
    ensures outcome.Waiting? ==> request.requestUri == old(request.requestUri) && request.headers == old(request.headers)
    ensures outcome.Forwarded? ==>
              && outcome.uri == Uri("https", slot.value.endPoint.host, slot.value.endPoint.port, requestPath, old(request.requestUri.query))
              && outcome.headers == old(request.headers) + HostHeader(slot.value)
              && request.requestUri == outcome.uri && request.headers == outcome.headers
  {
    if slot.None? {
      return Waiting;
    }
    var address := slot.value;
    RewriteRequest(request, address, requestPath);
    outcome := Forwarded(request.requestUri, request.headers);
  }

  class DiscoveryHttpHandler {
    const registry: Registry.ResolverRegistry
    var resolverCache: map<string, ResolverState>

    /** Each entry's resolver came from the first factory named after its scheme, with port 80 and a `scheme:///` address. */
    ghost predicate CreatedFor(scheme: string, state: ResolverState)
    {
      var r := state.resolver;
      && registry.FactoryFor(scheme) == Some(r.factory)
      && r.options.defaultPort == DefaultPort
      && scheme + ":///" <= r.options.address
    }

    ghost predicate Valid()
      reads this, resolverCache.Values
    {
      forall scheme :: scheme in resolverCache ==>
        resolverCache[scheme].Valid() && CreatedFor(scheme, resolverCache[scheme])
    }

    /** The address slot of the cache entry for `scheme`; None when there is no entry or it is unset. */
    ghost function Slot(scheme: string): Option<BalancerAddress>
      reads this, resolverCache.Values
    {
      if scheme in resolverCache then resolverCache[scheme].address else None
    }

    constructor(registry: Registry.ResolverRegistry)
      ensures Valid()
      ensures this.registry == registry && resolverCache == map[]
    {
      this.registry := registry;
      resolverCache := map[];
    }

    /**
     * The cache lookup of `SendAsync`: the cached state for `scheme`, or a new
     * one whose resolver's start-up behaves as `start` says.
     */
    method GetResolverState(scheme: string, configPath: string, start: StartBehaviour)
      returns (result: Result<ResolverState, Error>)
      requires Valid()
      modifies this
      ensures Valid()
      ensures scheme in old(resolverCache) ==>
        resolverCache == old(resolverCache) && result == Success(old(resolverCache)[scheme])
      ensures scheme !in old(resolverCache) && registry.FactoryFor(scheme).None? ==>
        resolverCache == old(resolverCache)
        && result == Failure(InvalidOperationException("Couldn't create a resolver for the scheme '" + scheme + "'."))
      ensures scheme !in old(resolverCache) && registry.FactoryFor(scheme).Some? && StartFault(start).Some? ==>
        resolverCache == old(resolverCache) && result == Failure(StartFault(start).value)
      ensures scheme !in old(resolverCache) && registry.FactoryFor(scheme).Some? && StartFault(start).None? ==>
        && result.Success?
        && fresh(result.value)
        && resolverCache == old(resolverCache)[scheme := result.value]
        && result.value.resolver.factory == registry.FactoryFor(scheme).value
        && result.value.resolver.options.address == scheme + ":///" + configPath
        && result.value.resolver.options.defaultPort == DefaultPort
        && result.value.delivered == StartDelivered(start)
        && result.value.address == FirstAddress(StartDelivered(start))
      ensures result.Success? ==> scheme in resolverCache && resolverCache[scheme] == result.value
    {
      if scheme in resolverCache {
        return Success(resolverCache[scheme]);
      }
      var options := new Options.ResolverOptions(scheme + ":///" + configPath, DefaultPort);
      var resolver := registry.CreateResolver(scheme, options);
      if resolver.None? {
        return Failure(InvalidOperationException("Couldn't create a resolver for the scheme '" + scheme + "'."));
      }
      var state := new ResolverState(resolver.value);
      var fault := Start(state, start);
      if fault.Some? {
        return Failure(fault.value);
      }
      resolverCache := resolverCache[scheme := state];
      result := Success(state);
    }

    /**
     * The part of `SendAsync` after the path split: look up (or create and
     * start) the resolver for `scheme`, wait for its address and rewrite the
     * request to the endpoint with `requestPath` and the original query.
     */
    method Dispatch(request: HttpRequestMessage, scheme: string, configPath: string, requestPath: string,
                    start: StartBehaviour)
      returns (outcome: SendOutcome)
      requires Valid()
      modifies this, request
      ensures Valid()
      ensures outcome.Failed? <==>
                scheme !in old(resolverCache) && (registry.FactoryFor(scheme).None? || StartFault(start).Some?)
      ensures outcome.Failed? ==>
                && resolverCache == old(resolverCache)
                && request.requestUri == old(request.requestUri) && request.headers == old(request.headers)
                && outcome.error
                   == if registry.FactoryFor(scheme).None?
                      then InvalidOperationException("Couldn't create a resolver for the scheme '" + scheme + "'.")
                      else StartFault(start).value
      ensures outcome.Waiting? ==>
                && scheme in resolverCache && Slot(scheme).None?
                && request.requestUri == old(request.requestUri) && request.headers == old(request.headers)
      ensures outcome.Forwarded? ==>
                && scheme in resolverCache && Slot(scheme).Some?
                && var address := Slot(scheme).value;
                && outcome.uri == Uri("https", address.endPoint.host, address.endPoint.port, requestPath, old(request.requestUri.query))
                && outcome.headers == old(request.headers) + HostHeader(address)
                && request.requestUri == outcome.uri && request.headers == outcome.headers
      ensures scheme in old(resolverCache) ==> resolverCache == old(resolverCache)
      ensures scheme !in old(resolverCache) && !outcome.Failed? ==>
                && scheme in resolverCache && fresh(resolverCache[scheme])
                && resolverCache == old(resolverCache)[scheme := resolverCache[scheme]]
                && resolverCache[scheme].resolver.options.address == scheme + ":///" + configPath
                && resolverCache[scheme].address == FirstAddress(StartDelivered(start))
    {
      var lookup := GetResolverState(scheme, configPath, start);
      if lookup.Failure? {
        return Failed(lookup.error);
      }
      outcome := Forward(request, lookup.value.address, requestPath);
    }

    /**
     * `SendAsync`: resolve the scheme's address, then point the request at it:
     * scheme `https`, the endpoint's host and port, the request path, the
     * original query, and a `Host` header when the address carries an override.
     */
    method SendAsync(request: HttpRequestMessage, start: StartBehaviour)
      returns (outcome: SendOutcome)
      requires Valid()
      modifies this, request
      ensures Valid()
      ensures var scheme := old(request.requestUri.scheme);
              outcome.Failed? <==>
                scheme !in old(resolverCache) && (registry.FactoryFor(scheme).None? || StartFault(start).Some?)
      ensures var u := old(request.requestUri);
              outcome.Failed? ==>
                && resolverCache == old(resolverCache)
                && request.requestUri == u && request.headers == old(request.headers)
                && outcome.error
                   == if registry.FactoryFor(u.scheme).None?
                      then InvalidOperationException("Couldn't create a resolver for the scheme '" + u.scheme + "'.")
                      else StartFault(start).value
      ensures var u := old(request.requestUri);
              outcome.Waiting? ==>
                && u.scheme in resolverCache && Slot(u.scheme).None?
                && request.requestUri == u && request.headers == old(request.headers)
      ensures var u := old(request.requestUri);
              outcome.Forwarded? ==>
                && u.scheme in resolverCache && Slot(u.scheme).Some?
                && var address := Slot(u.scheme).value;
                && outcome.uri == Uri("https", address.endPoint.host, address.endPoint.port, SplitPath(u.path).requestPath, u.query)
                && outcome.headers == old(request.headers) + HostHeader(address)
                && request.requestUri == outcome.uri && request.headers == outcome.headers
      ensures var scheme := old(request.requestUri.scheme);
              scheme in old(resolverCache) ==> resolverCache == old(resolverCache)
      ensures var u := old(request.requestUri);
              u.scheme !in old(resolverCache) && !outcome.Failed? ==>
                && u.scheme in resolverCache && fresh(resolverCache[u.scheme])
                && resolverCache == old(resolverCache)[u.scheme := resolverCache[u.scheme]]
                && resolverCache[u.scheme].resolver.options.address == u.scheme + ":///" + SplitPath(u.path).configPath
                && resolverCache[u.scheme].address == FirstAddress(StartDelivered(start))
    {
      var scheme := request.requestUri.scheme;
      var split := SplitPath(request.requestUri.path);
      outcome := Dispatch(request, scheme, split.configPath, split.requestPath, start);
    }
  }
}

module DiscoveryHandlerExample {
  import opened Wrappers
  import opened DiscoveryHandler
  import Registry
  import PH = ProtocolHelpers

  /**
   * A `config` resolver that reports `localhost:80` turns
   * `config:///addresses:backend/api/product/1` into
   * `https://localhost:80/api/product/1`.
   */
  method ConfigSourceAddressResolved() returns (outcome: SendOutcome)
    ensures outcome == Forwarded(Uri("https", "localhost", 80, "/api/product/1", ""), [])
  {
    var registry := Registry.ResolverRegistry([Registry.ResolverFactory("config")]);
    var handler := new DiscoveryHttpHandler(registry);
    var path := "/addresses:backend/api/product/1";
    var request := new HttpRequestMessage(Uri("config", "", -1, path, ""), []);
    var localhost := BalancerAddress(EndPoint("localhost", 80), map[]);
    var published := ResolverResult(PH.Status(PH.OK, "", None), Some([localhost]));
    assert registry.factories[0].name == "config";
    assert registry.FactoryFor("config") == Some(0);
    assert ListenerFault(published).None? && FirstFault([published]).None?;
    assert Usable(published) && FirstAddress([published]) == Some(localhost);
    SplitPathConfigExample(path);
    outcome := handler.SendAsync(request, StartBehaviour([published], true));
    assert handler.Slot("config") == Some(localhost);
  }

  /**
   * A `config` resolver that catches the listener's exception on an empty
   * address list still gets its cache entry; with the slot unset, the
   * request waits and is left as it was.
   */
  method CatchingResolverWaits() returns (outcome: SendOutcome, cached: bool)
    ensures outcome == Waiting && cached
  {
    var registry := Registry.ResolverRegistry([Registry.ResolverFactory("config")]);
    var handler := new DiscoveryHttpHandler(registry);
    var uri := Uri("config", "", -1, "/addresses:backend/api/product/1", "");
    var request := new HttpRequestMessage(uri, []);
    var empty := ResolverResult(PH.Status(PH.OK, "", None), Some([]));
    assert registry.factories[0].name == "config";
    assert registry.FactoryFor("config") == Some(0);
    assert ListenerFault(empty) == Some(Errors.ArgumentOutOfRangeException) && FirstFault([empty]) == Some(0);
    assert StartDelivered(StartBehaviour([empty], true)) == [ResolveFailed];
    assert !Usable(ResolveFailed) && FirstAddress([ResolveFailed]) == None;
    outcome := handler.SendAsync(request, StartBehaviour([empty], true));
    cached := "config" in handler.resolverCache;
  }
}
