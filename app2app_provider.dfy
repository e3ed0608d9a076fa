/**
 * App2AppProvider: apps register as providers of a capability, other apps
 * invoke the capability, and the provider's answer is routed back to the
 * requester through a correlation id.
 *
 * Two registries map strings to contexts: providers by lower-cased
 * capability (and by "<capability>.<appId>"), and open transactions by
 * correlation id. A brokered call or an answer becomes a forward job;
 * running the job sends it to the AppGateway or to the launch delegate
 * according to the context's origin.
 *
 * The correlation id (`UtilsUUID::GenerateUUID`) and the parse of a
 * payload are inputs.
 */
module App2AppProvider {
  import opened Core
  import opened Text
  import opened JsonTree
  import opened ContextUtils

  type Registry = map<string, ProviderContext>

  /** What `RegistryMap::Get` reports for `key`. */
  function Lookup(m: Registry, key: string): (r: Option<ProviderContext>)
    ensures r.Some? <==> key in m
    ensures r.Some? ==> r.value == m[key]
  {
    if key in m then Some(m[key]) else None
  }

  /** `Add` then `Get` of the same key gives the new value; other keys keep theirs. */
  lemma AddThenGet(m: Registry, key: string, v: ProviderContext, other: string)
    ensures Lookup(m[key := v], key) == Some(v)
    ensures other != key ==> Lookup(m[key := v], other) == Lookup(m, other)
  {
  }

  /** `Remove` makes `Get` fail for that key only; removing an absent key changes nothing. */
  lemma RemoveThenGet(m: Registry, key: string, other: string)
    ensures Lookup(m - {key}, key).None?
    ensures other != key ==> Lookup(m - {key}, other) == Lookup(m, other)
    ensures key !in m ==> m - {key} == m
  {
  }

  /** `RegistryMap<string, Context>`. */
  class RegistryMap {
    var contents: Registry

    constructor()
      ensures contents == map[]
    {
      contents := map[];
    }

    method Add(key: string, value: ProviderContext)
      modifies this
      ensures contents == old(contents)[key := value]
    {
      contents := contents[key := value];
    }

    method Remove(key: string)
      modifies this
      ensures contents == old(contents) - {key}
    {
      contents := contents - {key};
    }

    /** `Get`: on a miss the out value keeps what the caller passed in. */
    method Get(key: string, valueIn: ProviderContext) returns (found: bool, value: ProviderContext)
      ensures found <==> key in contents
      ensures found ==> value == contents[key]
      ensures !found ==> value == valueIn
    {
      if key in contents {
        return true, contents[key];
      }
      return false, valueIn;
    }
  }

  /** The key of an app-specific provider: "<capability>.<appId>", both lower-cased. */
  function CombinedKey(capability: string, appId: string): (r: string)
    ensures |r| == |capability| + 1 + |appId| && r[|capability|] == '.'
    ensures r[..|capability|] == Lower(capability) && r[|capability| + 1..] == Lower(appId)
    ensures NoUpper(r)
  {
    Lower(capability) + "." + Lower(appId)
  }

  /** The provider registry after `RegisterProvider(context, provide, capability)`. */
  function AfterRegister(m: Registry, context: ProviderContext, provide: bool, capability: string): Registry
  {
    var lowerCap := Lower(capability);
    if provide then
      if context.appId != "" then m[lowerCap := context][CombinedKey(capability, context.appId) := context]
      else m[lowerCap := context]
    else
      if context.appId != "" then m - {lowerCap} - {CombinedKey(capability, context.appId)}
      else m - {lowerCap}
  }

  /** The app id `InvokeProvider` reads from params: a non-empty string member "appId", or none. */
  function RequestedAppId(params: map<string, Json>): (r: Option<string>)
    ensures r.Some? <==> "appId" in params && params["appId"].JStr? && params["appId"].s != ""
    ensures r.Some? ==> r.value == params["appId"].s
  {
    if "appId" in params && params["appId"].JStr? && params["appId"].s != "" then Some(params["appId"].s) else None
  }

  /**
   * The provider `InvokeProvider` brokers to: the app-specific one when
   * params name a registered app, else the plain capability's, else none.
   * `params` is None when the text is not a JSON object.
   */
  function ProviderFor(m: Registry, capability: string, params: Option<map<string, Json>>): (r: Option<ProviderContext>)
    ensures params.None? ==> r.None?
    ensures params.Some? && RequestedAppId(params.value).Some?
      && CombinedKey(capability, RequestedAppId(params.value).value) in m
      ==> r == Some(m[CombinedKey(capability, RequestedAppId(params.value).value)])
    ensures r.Some? ==> r.value in m.Values
  {
    if params.None? then None
    else
      var appId := RequestedAppId(params.value);
      if appId.Some? && CombinedKey(capability, appId.value) in m then Some(m[CombinedKey(capability, appId.value)])
      else Lookup(m, Lower(capability))
  }

  /** Falling back: with no usable app id in params, the plain capability's provider answers. */
  lemma ProviderForFallback(m: Registry, capability: string, params: map<string, Json>)
    requires RequestedAppId(params).None? || CombinedKey(capability, RequestedAppId(params).value) !in m
    ensures ProviderFor(m, capability, Some(params)) == Lookup(m, Lower(capability))
  {
  }

  /** Capabilities are matched ignoring case, both when registering and when invoking. */
  lemma ProviderForIgnoresCase(m: Registry, c1: string, c2: string, ctx: ProviderContext, provide: bool,
                               params: Option<map<string, Json>>)
    requires EqualIgnoringCase(c1, c2)
    ensures ProviderFor(m, c1, params) == ProviderFor(m, c2, params)
    ensures AfterRegister(m, ctx, provide, c1) == AfterRegister(m, ctx, provide, c2)
  {
    EqualIgnoringCaseIsLowerEquality(c1, c2);
  }

  /** A registered provider is found by any casing of its capability, and by its app id. */
  lemma RegisteredProviderIsFound(m: Registry, ctx: ProviderContext, capability: string, invoked: string,
                                  params: map<string, Json>)
    requires EqualIgnoringCase(capability, invoked)
    requires RequestedAppId(params).None?
      || (ctx.appId != "" && EqualIgnoringCase(RequestedAppId(params).value, ctx.appId))
    ensures ProviderFor(AfterRegister(m, ctx, true, capability), invoked, Some(params)) == Some(ctx)
  {
    EqualIgnoringCaseIsLowerEquality(capability, invoked);
    var m' := AfterRegister(m, ctx, true, capability);
    var appId := RequestedAppId(params);
    if appId.Some? {
      EqualIgnoringCaseIsLowerEquality(appId.value, ctx.appId);
      assert CombinedKey(invoked, appId.value) == CombinedKey(capability, ctx.appId);
    }
  }

  /** Deregistering removes the plain capability entry, so only app-specific providers remain for it. */
  lemma DeregisteredCapabilityIsGone(m: Registry, ctx: ProviderContext, capability: string)
    ensures Lower(capability) !in AfterRegister(m, ctx, false, capability)
    ensures ctx.appId != "" ==> CombinedKey(capability, ctx.appId) !in AfterRegister(m, ctx, false, capability)
  {
  }

  /** The payload of a forward job (serialisation is not modelled). */
  datatype Payload =
    /** `{"correlationId": id, "params": params}` sent to a provider. */
    | Brokered(correlationId: string, params: map<string, Json>)
    /** The provider's `result` member sent back to the requester. */
    | Answer(result: Json)

  datatype Forward = Forward(context: ProviderContext, payload: Payload)

  /** `ExtractCorrelationIdAndKey`: a set, non-null correlationId and a set `key` member. */
  function ExtractCorrelationIdAndKey(payload: Option<map<string, Json>>, key: string): (r: Option<(string, Json)>)
    ensures r.Some? <==> (payload.Some? && "correlationId" in payload.value
                          && !payload.value["correlationId"].JNull? && key in payload.value)
    ensures r.Some? ==> r.value == (AsString(payload.value["correlationId"]), payload.value[key])
  {
    if payload.None? then None
    else
      var o := payload.value;
      if "correlationId" in o && !o["correlationId"].JNull? && key in o then
        Some((AsString(o["correlationId"]), o[key]))
      else None
  }

  datatype Destination = AppGateway | LaunchDelegate

  /** What one `Respond` call delivers. */
  datatype Delivery = Delivery(to: Destination, context: GatewayContext, payload: Payload)

  /**
   * `ForwardJob::Dispatch`: by origin to the AppGateway or the launch
   * delegate, with the context converted; nothing is sent when the
   * chosen interface cannot be obtained.
   */
  function ForwardJobDispatch(f: Forward, gatewayAvailable: bool, launchDelegateAvailable: bool): (r: Option<Delivery>)
    ensures r.Some? ==> (r.value.to == AppGateway <==> IsOriginGateway(f.context.origin))
    ensures r.Some? <==> (if IsOriginGateway(f.context.origin) then gatewayAvailable else launchDelegateAvailable)
    ensures r.Some? ==> r.value.context == ConvertProviderToAppGatewayContext(f.context) && r.value.payload == f.payload
  {
    if IsOriginGateway(f.context.origin) then
      if gatewayAvailable then Some(Delivery(AppGateway, ConvertProviderToAppGatewayContext(f.context), f.payload)) else None
    else
      if launchDelegateAvailable then Some(Delivery(LaunchDelegate, ConvertProviderToAppGatewayContext(f.context), f.payload))
      else None
  }

  /**
   * The transaction a brokered call opens is closed by the answer with the
   * same correlation id, which goes back to the requester; other open
   * transactions are untouched.
   */
  lemma BrokerThenAnswer(t: Registry, cid: string, requester: ProviderContext)
    requires cid !in t
    ensures var t' := t[cid := requester];
      Lookup(t', cid) == Some(requester) && t' - {cid} == t
  {
  }

  class App2AppProviderImplementation {
    const providerRegistry: RegistryMap
    const transactionRegistry: RegistryMap
    /** Jobs submitted to the worker pool, in order. */
    var forwarded: seq<Forward>

    ghost predicate Valid()
      reads this
    {
      providerRegistry != transactionRegistry
    }

    constructor()
      ensures Valid() && fresh(providerRegistry) && fresh(transactionRegistry)
      ensures providerRegistry.contents == map[] && transactionRegistry.contents == map[] && forwarded == []
    {
      providerRegistry := new RegistryMap();
      transactionRegistry := new RegistryMap();
      forwarded := [];
    }

    method RegisterProvider(context: ProviderContext, provide: bool, capability: string) returns (r: HResult)
      requires Valid()
      modifies providerRegistry
      ensures r == ERROR_NONE
      ensures providerRegistry.contents == AfterRegister(old(providerRegistry.contents), context, provide, capability)
      ensures transactionRegistry.contents == old(transactionRegistry.contents)
    {
      var lowerCap := Lower(capability);
      if provide {
        providerRegistry.Add(lowerCap, context);
        if context.appId != "" {
          var lowerAppId := Lower(context.appId);
          providerRegistry.Add(lowerCap + "." + lowerAppId, context);
        }
      } else {
        providerRegistry.Remove(lowerCap);
        if context.appId != "" {
          var lowerAppId := Lower(context.appId);
          providerRegistry.Remove(lowerCap + "." + lowerAppId);
        }
      }
      return ERROR_NONE;
    }

    /** `BrokerProvider`: opens a transaction under `correlationId` and submits the call to the provider. */
    method BrokerProvider(context: ProviderContext, providerContext: ProviderContext, params: map<string, Json>,
                          correlationId: string)
      requires Valid()
      modifies this, transactionRegistry
      ensures transactionRegistry.contents == old(transactionRegistry.contents)[correlationId := context]
      ensures forwarded == old(forwarded) + [Forward(providerContext, Brokered(correlationId, params))]
    {
      transactionRegistry.Add(correlationId, context);
      forwarded := forwarded + [Forward(providerContext, Brokered(correlationId, params))];
    }

    /**
     * `InvokeProvider`. `params` is the parse of the params text (None when
     * it is not a JSON object); `correlationId` is the generated UUID.
     */
    method InvokeProvider(context: ProviderContext, capability: string, params: Option<map<string, Json>>,
                          correlationId: string)
      returns (r: HResult)
      requires Valid()
      modifies this, transactionRegistry
      ensures providerRegistry.contents == old(providerRegistry.contents)
      ensures var p := ProviderFor(old(providerRegistry.contents), capability, params);
        if p.Some? then
          r == ERROR_NONE
          && transactionRegistry.contents == old(transactionRegistry.contents)[correlationId := context]
          && forwarded == old(forwarded) + [Forward(p.value, Brokered(correlationId, params.value))]
        else
          r == ERROR_GENERAL
          && transactionRegistry.contents == old(transactionRegistry.contents) && forwarded == old(forwarded)
    {
      var lowerCap := Lower(capability);
      if params.Some? {
        var paramsObject := params.value;
        var dummy := ProviderContext(0, 0, "", "");
        if "appId" in paramsObject && paramsObject["appId"].JStr? {
          var appId := paramsObject["appId"].s;
          if appId != "" {
            var lowerAppId := Lower(appId);
            var found, providerContext := providerRegistry.Get(lowerCap + "." + lowerAppId, dummy);
            if found {
              BrokerProvider(context, providerContext, paramsObject, correlationId);
              return ERROR_NONE;
            }
          }
        }
        var found, providerContext := providerRegistry.Get(lowerCap, dummy);
        if found {
          BrokerProvider(context, providerContext, paramsObject, correlationId);
          return ERROR_NONE;
        }
      }
      return ERROR_GENERAL;
    }

    /**
     * `HandleProviderResponse`: a well-formed answer closes its transaction
     * and is forwarded to the requester; an unknown correlation id is
     * ignored; a malformed payload is an error.
     */
    method HandleProviderResponse(payload: Option<map<string, Json>>, capability: string) returns (r: HResult)
      requires Valid()
      modifies this, transactionRegistry
      ensures providerRegistry.contents == old(providerRegistry.contents)
      ensures var e := ExtractCorrelationIdAndKey(payload, "result");
        if e.None? then
          r == ERROR_GENERAL
          && transactionRegistry.contents == old(transactionRegistry.contents) && forwarded == old(forwarded)
        else if e.value.0 in old(transactionRegistry.contents) then
          r == ERROR_NONE
          && transactionRegistry.contents == old(transactionRegistry.contents) - {e.value.0}
          && forwarded == old(forwarded) + [Forward(old(transactionRegistry.contents)[e.value.0], Answer(e.value.1))]
        else
          r == ERROR_NONE
          && transactionRegistry.contents == old(transactionRegistry.contents) && forwarded == old(forwarded)
    {
      var e := ExtractCorrelationIdAndKey(payload, "result");
      if e.Some? {
        var (correlationId, result) := e.value;
        var found, requestContext := transactionRegistry.Get(correlationId, ProviderContext(0, 0, "", ""));
        if found {
          transactionRegistry.Remove(correlationId);
          forwarded := forwarded + [Forward(requestContext, Answer(result))];
          return ERROR_NONE;
        }
        return ERROR_NONE;
      }
      return ERROR_GENERAL;
    }

    method HandleProviderError(payload: string, capability: string) returns (r: HResult)
      ensures r == ERROR_NONE
    {
      return ERROR_NONE;
    }

    method Cleanup(connectionId: nat, origin: string) returns (r: HResult)
      ensures r == ERROR_NONE
    {
      return ERROR_NONE;
    }
  }
}
