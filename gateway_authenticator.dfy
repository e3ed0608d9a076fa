/**
 * The AppGateway authenticator: a map from appId to the last lifecycle
 * context reported for that app, kept up to date by lifecycle
 * notifications and read by the session and authentication queries.
 */
module GatewayAuthenticator {
  import opened Core
  import opened Lifecycle

  datatype AppLifeCycleContext = AppLifeCycleContext(
    appInstanceId: string,
    oldState: LifecycleState,
    newState: LifecycleState,
    navigationIntent: string)

  type ContextMap = map<string, AppLifeCycleContext>

  /** The map after one `OnAppLifecycleStateChanged` notification. */
  function AfterStateChange(m: ContextMap, appId: string, appInstanceId: string,
                            oldState: LifecycleState, newState: LifecycleState,
                            navigationIntent: string): ContextMap
  {
    if newState == TERMINATING then m - {appId}
    else m[appId := AppLifeCycleContext(appInstanceId, oldState, newState, navigationIntent)]
  }

  /** The session id `GetSessionId` would hand out for `appId`, if any. */
  function SessionOf(m: ContextMap, appId: string): Option<string>
  {
    if appId in m then Some(m[appId].appInstanceId) else None
  }

  /**
   * A notification changes the answer for its own app only: TERMINATING
   * forgets it, any other state makes its instance id the session id.
   */
  lemma SessionAfterStateChange(m: ContextMap, appId: string, appInstanceId: string,
                                oldState: LifecycleState, newState: LifecycleState,
                                navigationIntent: string, other: string)
    ensures var m' := AfterStateChange(m, appId, appInstanceId, oldState, newState, navigationIntent);
      SessionOf(m', appId) == (if newState == TERMINATING then None else Some(appInstanceId))
      && (other != appId ==> SessionOf(m', other) == SessionOf(m, other))
  {
  }

  /** A TERMINATING notification for an app that is not in the map changes nothing. */
  lemma TerminatingUnknownIsNoOp(m: ContextMap, appId: string, appInstanceId: string,
                                 oldState: LifecycleState, navigationIntent: string)
    requires appId !in m
    ensures AfterStateChange(m, appId, appInstanceId, oldState, TERMINATING, navigationIntent) == m
  {
  }

  /** The map only ever holds apps whose last notification was not TERMINATING. */
  predicate NoTerminated(m: ContextMap)
  {
    forall k :: k in m ==> m[k].newState != TERMINATING
  }

  lemma AfterStateChangeKeepsNoTerminated(m: ContextMap, appId: string, appInstanceId: string,
                                          oldState: LifecycleState, newState: LifecycleState,
                                          navigationIntent: string)
    requires NoTerminated(m)
    ensures NoTerminated(AfterStateChange(m, appId, appInstanceId, oldState, newState, navigationIntent))
  {
  }

  /**
   * What `Authenticate` was evidently meant to do: find the app whose
   * stored instance id is the given session id.
   */
  ghost function AppForSession(m: ContextMap, sessionId: string): (r: Option<string>)
    ensures r.Some? ==> r.value in m && m[r.value].appInstanceId == sessionId
    ensures r.None? ==> forall k :: k in m ==> m[k].appInstanceId != sessionId
  {
    if exists k :: k in m && m[k].appInstanceId == sessionId then
      var k :| k in m && m[k].appInstanceId == sessionId; Some(k)
    else None
  }

  /** Session ids handed out by `GetSessionId` authenticate back to their app (keys are unique per session). */
  lemma AppForSessionInvertsSessionOf(m: ContextMap, appId: string)
    requires appId in m
    requires forall k :: k in m && k != appId ==> m[k].appInstanceId != m[appId].appInstanceId
    ensures AppForSession(m, SessionOf(m, appId).value) == Some(appId)
  {
  }

  /**
   * Shown by `Authenticate` as written: a registered session presented
   * with an empty appId is refused, although the map knows its app.
   */
  lemma AuthenticateIgnoresSession()
    ensures var m := map["app" := AppLifeCycleContext("s1", LOADING, ACTIVE, "")];
      "" !in m && AppForSession(m, "s1") == Some("app")
  {
    var m := map["app" := AppLifeCycleContext("s1", LOADING, ACTIVE, "")];
    assert m["app"].appInstanceId == "s1";
  }

  class Authenticator {
    var contexts: ContextMap

    constructor()
      ensures contexts == map[]
    {
      contexts := map[];
    }

    method OnAppLifecycleStateChanged(appId: string, appInstanceId: string,
                                      oldState: LifecycleState, newState: LifecycleState,
                                      navigationIntent: string)
      modifies this
      ensures contexts == AfterStateChange(old(contexts), appId, appInstanceId, oldState, newState, navigationIntent)
    {
      if newState == TERMINATING {
        if appId in contexts {
          contexts := contexts - {appId};
        }
        return;
      }
      contexts := contexts[appId := AppLifeCycleContext(appInstanceId, oldState, newState, navigationIntent)];
    }

    /**
     * `sessionId` is an in/out parameter: `sessionIn` is the caller's
     * value, left as it was for an unknown app.
     */
    method GetSessionId(appId: string, sessionIn: string) returns (result: HResult, sessionId: string)
      ensures appId in contexts ==> result == ERROR_NONE && sessionId == contexts[appId].appInstanceId
      ensures appId !in contexts ==> result == ERROR_NOT_EXIST && sessionId == sessionIn
    {
      result, sessionId := ERROR_NOT_EXIST, sessionIn;
      if appId in contexts {
        sessionId := contexts[appId].appInstanceId;
        result := ERROR_NONE;
      }
    }

    /**
     * As written: the lookup key is the incoming value of the in/out
     * parameter `appId`; `sessionId` plays no part.
     */
    method Authenticate(sessionId: string, appId: string) returns (result: HResult, appIdOut: string)
      ensures result == ERROR_NONE <==> appId in contexts
      ensures result != ERROR_NONE ==> result == ERROR_NOT_EXIST
      ensures appIdOut == appId
    {
      result, appIdOut := ERROR_NOT_EXIST, appId;
      if appId in contexts {
        appIdOut := appId;
        result := ERROR_NONE;
      }
    }

    method CheckPermissionGroup(appId: string, permissionGroup: string) returns (result: HResult, allowed: bool)
      ensures result == ERROR_NONE && allowed
    {
      allowed := true;
      result := ERROR_NONE;
    }

    method HandleAppEventNotifier(event: string, listen: bool) returns (result: HResult, status: bool)
      ensures result == ERROR_NONE && status
    {
      status := true;
      result := ERROR_NONE;
    }

    method HandleAppGatewayRequest(method_: string, payload: string) returns (result: HResult, response: string)
      ensures result == ERROR_NONE && response == "{}"
    {
      response := "{}";
      result := ERROR_NONE;
    }
  }
}
