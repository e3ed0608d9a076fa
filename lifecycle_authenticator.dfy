/**
 * The LifecycleManager's own authenticator: appId → session id, where the
 * session id of a loaded app is the appId itself.
 */
module LifecycleAuthenticator {
  import opened Core
  import opened Lifecycle

  /** The map after one `OnAppStateChanged` notification. */
  function AfterAppStateChanged(m: map<string, string>, appId: string, state: LifecycleState): map<string, string>
  {
    if state == LOADING || state == INITIALIZING then m[appId := appId]
    else if state == UNLOADED || state == TERMINATING then m - {appId}
    else m
  }

  /** Every stored session id equals its appId. */
  predicate SessionIsAppId(m: map<string, string>)
  {
    forall k :: k in m ==> m[k] == k
  }

  lemma AfterAppStateChangedEffect(m: map<string, string>, appId: string, state: LifecycleState, other: string)
    ensures var m' := AfterAppStateChanged(m, appId, state);
      ((state == LOADING || state == INITIALIZING) ==> appId in m' && m'[appId] == appId)
      && ((state == UNLOADED || state == TERMINATING) ==> appId !in m')
      && (state in {PAUSED, ACTIVE, SUSPENDED, HIBERNATED} ==> m' == m)
      && (other != appId ==> (other in m' <==> other in m) && (other in m ==> m'[other] == m[other]))
  {
  }

  lemma AfterAppStateChangedKeepsSessionIsAppId(m: map<string, string>, appId: string, state: LifecycleState)
    requires SessionIsAppId(m)
    ensures SessionIsAppId(AfterAppStateChanged(m, appId, state))
  {
  }

  class Authenticator {
    var sessions: map<string, string>

    ghost predicate Valid()
      reads this
    {
      SessionIsAppId(sessions)
    }

    constructor()
      ensures Valid() && sessions == map[]
    {
      sessions := map[];
    }

    method OnAppStateChanged(appId: string, state: LifecycleState, errorReason: string) returns (result: HResult)
      requires Valid()
      modifies this
      ensures Valid()
      ensures sessions == AfterAppStateChanged(old(sessions), appId, state)
      ensures result == ERROR_NONE
    {
      result := ERROR_NONE;
      if state == LOADING || state == INITIALIZING {
        sessions := sessions[appId := appId];
      } else if state == UNLOADED || state == TERMINATING {
        sessions := sessions - {appId};
      }
    }

    method GetSessionId(appId: string, sessionIn: string) returns (result: HResult, sessionId: string)
      requires Valid()
      ensures appId in sessions ==> result == ERROR_NONE && sessionId == appId
      ensures appId !in sessions ==> result == ERROR_NOT_EXIST && sessionId == sessionIn
    {
      result, sessionId := ERROR_NOT_EXIST, sessionIn;
      if appId in sessions {
        sessionId := sessions[appId];
        result := ERROR_NONE;
      }
    }

    /** As in the AppGateway authenticator, the key is the incoming `appId`. */
    method Authenticate(sessionId: string, appId: string) returns (result: HResult, appIdOut: string)
      ensures result == ERROR_NONE <==> appId in sessions
      ensures result != ERROR_NONE ==> result == ERROR_NOT_EXIST
      ensures appIdOut == appId
    {
      result, appIdOut := ERROR_NOT_EXIST, appId;
      if appId in sessions {
        appIdOut := appId;
        result := ERROR_NONE;
      }
    }

    method CheckPermissionGroup(appId: string, permissionGroup: string) returns (result: HResult, allowed: bool)
      ensures result == ERROR_NONE && !allowed
    {
      allowed := false;
      result := ERROR_NONE;
    }
  }
}
