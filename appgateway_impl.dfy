/**
 * AppGatewayImplementation: configuring the resolver from a list of
 * resolution files, resolving an app's method call to an event
 * subscription, a COM-RPC handler or a Thunder call, and scheduling the
 * response to the requester.
 *
 * The resolver, the notification, handler and Thunder interfaces are
 * oracles (`Services`); params arrive as text together with its parse.
 */
module AppGatewayImplementation {
  import opened Core
  import opened JsonTree
  import opened ContextUtils

  /** `AppIdRegistry`: the app id of each connection. */
  class AppIdRegistry {
    var appIds: map<nat, string>

    constructor()
      ensures appIds == map[]
    {
      appIds := map[];
    }

    method Add(connectionId: nat, appId: string)
      modifies this
      ensures appIds == old(appIds)[connectionId := appId]
    {
      appIds := appIds[connectionId := appId];
    }

    method Remove(connectionId: nat)
      modifies this
      ensures appIds == old(appIds) - {connectionId}
    {
      appIds := appIds - {connectionId};
    }

    /** `Get`: on a miss the out value keeps what the caller passed in. */
    method Get(connectionId: nat, appIdIn: string) returns (found: bool, appId: string)
      ensures found <==> connectionId in appIds
      ensures found ==> appId == appIds[connectionId]
      ensures !found ==> appId == appIdIn
    {
      if connectionId in appIds {
        return true, appIds[connectionId];
      }
      return false, appIdIn;
    }
  }

  /** `Remove` erases only the given connection; an absent one is a no-op. */
  lemma RemoveOnlyThatConnection(m: map<nat, string>, connectionId: nat, other: nat)
    ensures connectionId !in m - {connectionId}
    ensures other != connectionId ==> (other in m - {connectionId} <==> other in m)
    ensures other != connectionId && other in m ==> (m - {connectionId})[other] == m[other]
    ensures connectionId !in m ==> m - {connectionId} == m
  {
  }

  /**
   * `InternalResolutionConfigure`: every path is loaded in order (later
   * ones override earlier ones inside the resolver); the result is
   * success iff at least one loaded.
   */
  method InternalResolutionConfigure(configPaths: seq<string>, loadConfig: string -> bool)
    returns (r: HResult, tried: seq<string>)
    ensures tried == configPaths
    ensures r == ERROR_NONE <==> exists i :: 0 <= i < |configPaths| && loadConfig(configPaths[i])
    ensures r != ERROR_NONE ==> r == ERROR_GENERAL
  {
    var anyConfigLoaded := false;
    tried := [];
    for i := 0 to |configPaths|
      invariant tried == configPaths[..i]
      invariant anyConfigLoaded <==> exists j :: 0 <= j < i && loadConfig(configPaths[j])
    {
      tried := tried + [configPaths[i]];
      if loadConfig(configPaths[i]) {
        anyConfigLoaded := true;
      }
    }
    if !anyConfigLoaded {
      return ERROR_GENERAL, tried;
    }
    return ERROR_NONE, tried;
  }

  /**
   * `Configure(paths)`: `paths` is None for a null iterator, otherwise
   * the paths it yields; `resolverPresent` says whether the resolver exists.
   */
  method Configure(paths: Option<seq<string>>, resolverPresent: bool, loadConfig: string -> bool)
    returns (r: HResult, tried: seq<string>)
    ensures paths.None? ==> r == ERROR_BAD_REQUEST && tried == []
    ensures paths.Some? && !resolverPresent ==> r == ERROR_GENERAL && tried == []
    ensures paths.Some? && resolverPresent && paths.value == [] ==> r == ERROR_BAD_REQUEST && tried == []
    ensures paths.Some? && resolverPresent && paths.value != [] ==>
      tried == paths.value
      && (r == ERROR_NONE <==> exists i :: 0 <= i < |paths.value| && loadConfig(paths.value[i]))
  {
    if paths.None? {
      return ERROR_BAD_REQUEST, [];
    }
    if !resolverPresent {
      return ERROR_GENERAL, [];
    }
    var configPaths := paths.value;
    if configPaths == [] {
      return ERROR_BAD_REQUEST, [];
    }
    r, tried := InternalResolutionConfigure(configPaths, loadConfig);
  }

  /** Method params: the text and, when it is a JSON object, its members. */
  datatype Params = Params(text: string, parsed: Option<map<string, Json>>)

  /** The params passed on: the original text, or an edited object (serialised by the caller). */
  datatype FinalParams = Unchanged(text: string) | Edited(members: map<string, Json>)

  /** The `ErrorUtils` payloads and the successful resolutions (serialisation is not modelled). */
  datatype Resolution =
    | Text(s: string)
    | CustomInitialize(message: string)
    | NotSupported
    | CustomInternal(message: string)
    | NotAvailable
    | CustomBadRequest(message: string)
    | Listening(listening: bool, event: string)

  predicate IsEmpty(r: Resolution)
  {
    r == Text("")
  }

  /** The resolver and the interfaces it reaches, as oracles. */
  datatype Services = Services(
    configured: bool,
    resolveAlias: string -> string,
    hasEvent: string -> bool,
    hasComRpcRequestSupport: string -> bool,
    /** `HasIncludeContext`: None when the method does not include context, else the additional context (None when unset). */
    includeContext: string -> Option<Option<Json>>,
    /** The COM-RPC handler for an alias: None when unavailable, else its answer to a request. */
    requestHandler: string -> Option<(GatewayContext, string, FinalParams) -> (HResult, string)>,
    /** `IAppNotifications::Subscribe`, None when the interface is unavailable. */
    subscribe: Option<(NotificationContext, bool, string, string) -> HResult>,
    callThunderPlugin: (string, FinalParams) -> (HResult, string))

  /** The `context` member `UpdateContext` adds. */
  function ContextObject(c: GatewayContext): (r: Json)
    ensures Get(r, "appId") == JStr(c.appId)
    ensures Get(r, "connectionId") == JNum(c.connectionId)
    ensures Get(r, "requestId") == JNum(c.requestId)
  {
    JObj(map["appId" := JStr(c.appId), "connectionId" := JNum(c.connectionId), "requestId" := JNum(c.requestId)])
  }

  /**
   * `UpdateContext`: params unchanged unless the method includes context;
   * then "context" is set (on an empty object when params do not parse)
   * and "additionalContext" when one is configured.
   */
  function UpdateContext(s: Services, context: GatewayContext, method_: string, params: Params): (r: FinalParams)
    ensures s.includeContext(method_).None? ==> r == Unchanged(params.text)
    ensures s.includeContext(method_).Some? ==> r.Edited? && "context" in r.members
    ensures r.Edited? ==> r.members["context"] == ContextObject(context)
    ensures r.Edited? && s.includeContext(method_).value.Some? ==>
      "additionalContext" in r.members && r.members["additionalContext"] == s.includeContext(method_).value.value
    ensures r.Edited? ==> forall k :: k in params.parsed.GetOr(map[]) && k != "context" && k != "additionalContext" ==>
      k in r.members && r.members[k] == params.parsed.GetOr(map[])[k]
  {
    match s.includeContext(method_)
    case None => Unchanged(params.text)
    case Some(additional) =>
      var withContext := params.parsed.GetOr(map[])["context" := ContextObject(context)];
      if additional.Some? then Edited(withContext["additionalContext" := additional.value]) else Edited(withContext)
  }

  /** `HandleEvent`: subscribe through AppNotifications with the converted context. */
  function HandleEvent(s: Services, context: GatewayContext, alias: string, event: string, origin: string, listen: bool)
    : (r: HResult)
    ensures s.subscribe.None? ==> r == ERROR_GENERAL
    ensures s.subscribe.Some? ==>
      r == s.subscribe.value(ConvertAppGatewayToNotificationContext(context, origin), listen, alias, event)
  {
    if s.subscribe.None? then ERROR_GENERAL
    else s.subscribe.value(ConvertAppGatewayToNotificationContext(context, origin), listen, alias, event)
  }

  /** `PreProcessEvent`: params must be an object with a boolean "listen". */
  function PreProcessEvent(s: Services, context: GatewayContext, alias: string, method_: string, origin: string,
                           params: Params): (r: (HResult, Resolution))
    ensures params.parsed.None? ==> r == (ERROR_BAD_REQUEST, CustomBadRequest("Event methods require parameters"))
    ensures params.parsed.Some? && !("listen" in params.parsed.value && params.parsed.value["listen"].JBool?) ==>
      r == (ERROR_BAD_REQUEST, CustomBadRequest("Missing required boolean 'listen' parameter"))
    ensures params.parsed.Some? && "listen" in params.parsed.value && params.parsed.value["listen"].JBool? ==>
      r.1 == Listening(params.parsed.value["listen"].b, method_)
      && r.0 == HandleEvent(s, context, alias, method_, origin, params.parsed.value["listen"].b)
  {
    if params.parsed.None? then (ERROR_BAD_REQUEST, CustomBadRequest("Event methods require parameters"))
    else if "listen" in params.parsed.value && params.parsed.value["listen"].JBool? then
      var listen := params.parsed.value["listen"].b;
      (HandleEvent(s, context, alias, method_, origin, listen), Listening(listen, method_))
    else (ERROR_BAD_REQUEST, CustomBadRequest("Missing required boolean 'listen' parameter"))
  }

  /** `ProcessComRpcRequest`: the handler registered under the alias answers. */
  function ProcessComRpcRequest(s: Services, context: GatewayContext, alias: string, method_: string, params: Params)
    : (r: (HResult, Resolution))
    ensures s.requestHandler(alias).None? ==> r == (ERROR_GENERAL, NotAvailable)
    ensures s.requestHandler(alias).Some? ==>
      var answer := s.requestHandler(alias).value(context, method_, UpdateContext(s, context, method_, params));
      if answer.0 == ERROR_NONE then r == (ERROR_NONE, Text(answer.1))
      else r == (ERROR_GENERAL, CustomInternal("HandleAppGatewayRequest failed"))
  {
    match s.requestHandler(alias)
    case None => (ERROR_GENERAL, NotAvailable)
    case Some(handler) =>
      var answer := handler(context, method_, UpdateContext(s, context, method_, params));
      if answer.0 == ERROR_NONE then (ERROR_NONE, Text(answer.1))
      else (ERROR_GENERAL, CustomInternal("HandleAppGatewayRequest failed"))
  }

  /** The Thunder-call branch of `FetchResolvedData`. */
  function CallThunder(s: Services, context: GatewayContext, alias: string, method_: string, params: Params)
    : (r: (HResult, Resolution))
    ensures var answer := s.callThunderPlugin(alias, UpdateContext(s, context, method_, params));
      if answer.0 != ERROR_NONE then r == (answer.0, CustomInternal("Failed with internal error"))
      else r.0 == ERROR_NONE && r.1 == Text(if answer.1 == "" then "null" else answer.1)
  {
    var answer := s.callThunderPlugin(alias, UpdateContext(s, context, method_, params));
    if answer.0 != ERROR_NONE then (answer.0, CustomInternal("Failed with internal error"))
    else if answer.1 == "" then (ERROR_NONE, Text("null"))
    else (ERROR_NONE, Text(answer.1))
  }

  /** Which way `FetchResolvedData` routes a method with a non-empty alias. */
  datatype Route = EventRoute | ComRpcRoute | ThunderRoute

  function RouteOf(s: Services, method_: string): (r: Route)
    ensures r == EventRoute <==> s.hasEvent(method_)
    ensures r == ComRpcRoute <==> !s.hasEvent(method_) && s.hasComRpcRequestSupport(method_)
  {
    if s.hasEvent(method_) then EventRoute
    else if s.hasComRpcRequestSupport(method_) then ComRpcRoute
    else ThunderRoute
  }

  /**
   * `FetchResolvedData`. `services` is None when the resolver does not
   * exist.
   */
  function FetchResolvedData(services: Option<Services>, context: GatewayContext, method_: string, params: Params,
                             origin: string): (r: (HResult, Resolution))
    ensures services.None? ==> r == (ERROR_GENERAL, CustomInitialize("Resolver not initialized"))
    ensures services.Some? && !services.value.configured ==> r == (ERROR_GENERAL, CustomInitialize("Resolver not configured"))
    ensures services.Some? && services.value.configured && services.value.resolveAlias(method_) == "" ==>
      r == (ERROR_GENERAL, NotSupported)
  {
    if services.None? then (ERROR_GENERAL, CustomInitialize("Resolver not initialized"))
    else
      var s := services.value;
      if !s.configured then (ERROR_GENERAL, CustomInitialize("Resolver not configured"))
      else
        var alias := s.resolveAlias(method_);
        if alias == "" then (ERROR_GENERAL, NotSupported)
        else
          match RouteOf(s, method_)
          case EventRoute => PreProcessEvent(s, context, alias, method_, origin, params)
          case ComRpcRoute => ProcessComRpcRequest(s, context, alias, method_, params)
          case ThunderRoute => CallThunder(s, context, alias, method_, params)
  }

  /** An event beats a COM-RPC handler, which beats a Thunder call. */
  lemma RoutingPriority(s: Services, context: GatewayContext, method_: string, params: Params, origin: string)
    requires s.configured && s.resolveAlias(method_) != ""
    ensures s.hasEvent(method_) ==>
      FetchResolvedData(Some(s), context, method_, params, origin)
      == PreProcessEvent(s, context, s.resolveAlias(method_), method_, origin, params)
    ensures !s.hasEvent(method_) && s.hasComRpcRequestSupport(method_) ==>
      FetchResolvedData(Some(s), context, method_, params, origin)
      == ProcessComRpcRequest(s, context, s.resolveAlias(method_), method_, params)
    ensures !s.hasEvent(method_) && !s.hasComRpcRequestSupport(method_) ==>
      FetchResolvedData(Some(s), context, method_, params, origin)
      == CallThunder(s, context, s.resolveAlias(method_), method_, params)
  {
  }

  /**
   * Every failure carries an error payload, so the only resolution left
   * empty (and hence no response) is a COM-RPC handler's empty answer.
   */
  lemma EmptyResolutionOnlyFromHandler(services: Option<Services>, context: GatewayContext, method_: string,
                                       params: Params, origin: string)
    requires IsEmpty(FetchResolvedData(services, context, method_, params, origin).1)
    ensures services.Some? && services.value.configured && services.value.resolveAlias(method_) != ""
    ensures RouteOf(services.value, method_) == ComRpcRoute
    ensures FetchResolvedData(services, context, method_, params, origin).0 == ERROR_NONE
  {
  }

  /** A failed resolution always comes with a non-empty payload. */
  lemma ErrorsAreAnswered(services: Option<Services>, context: GatewayContext, method_: string,
                          params: Params, origin: string)
    requires FetchResolvedData(services, context, method_, params, origin).0 != ERROR_NONE
    ensures !IsEmpty(FetchResolvedData(services, context, method_, params, origin).1)
  {
    if IsEmpty(FetchResolvedData(services, context, method_, params, origin).1) {
      EmptyResolutionOnlyFromHandler(services, context, method_, params, origin);
    }
  }

  /** A `RespondJob`: the requester's connection and request ids, the payload and the origin it goes back to. */
  datatype RespondJob = RespondJob(connectionId: nat, requestId: nat, payload: Resolution, destination: string)

  /** Where a `RespondJob` sends its payload. */
  datatype Sent =
    | OnSocket(connectionId: nat, requestId: nat, payload: Resolution)
    | ToLaunchDelegate(context: GatewayContext, payload: Resolution)

  /** `RespondJob::Dispatch`: back on the WebSocket for the gateway, else to the launch delegate with an empty app id. */
  function RespondJobDispatch(job: RespondJob): (r: Sent)
    ensures r.OnSocket? <==> IsOriginGateway(job.destination)
    ensures r.OnSocket? ==> r == OnSocket(job.connectionId, job.requestId, job.payload)
    ensures r.ToLaunchDelegate? ==>
      r.context == GatewayContext(job.requestId, job.connectionId, "") && r.payload == job.payload
  {
    if IsOriginGateway(job.destination) then OnSocket(job.connectionId, job.requestId, job.payload)
    else ToLaunchDelegate(GatewayContext(job.requestId, job.connectionId, ""), job.payload)
  }

  class AppGatewayImplementation {
    /** Jobs submitted to the worker pool, in order. */
    var respondJobs: seq<RespondJob>

    constructor()
      ensures respondJobs == []
    {
      respondJobs := [];
    }

    /** `InternalResolve` / `Resolve`: a response job is scheduled only for a non-empty resolution. */
    method Resolve(services: Option<Services>, context: GatewayContext, origin: string, method_: string, params: Params)
      returns (result: HResult, resolution: Resolution)
      modifies this
      ensures (result, resolution) == FetchResolvedData(services, context, method_, params, origin)
      ensures IsEmpty(resolution) ==> respondJobs == old(respondJobs)
      ensures !IsEmpty(resolution) ==>
        respondJobs == old(respondJobs) + [RespondJob(context.connectionId, context.requestId, resolution, origin)]
    {
      var fetched := FetchResolvedData(services, context, method_, params, origin);
      result, resolution := fetched.0, fetched.1;
      if !IsEmpty(resolution) {
        respondJobs := respondJobs + [RespondJob(context.connectionId, context.requestId, resolution, origin)];
      }
    }
  }
}
