/**
 * RuntimeManagerImplementation: the container requests handed to the
 * OCI worker, the per-instance runtime records they update, the state
 * guard of Wake, the key guard of Annotate, the bookkeeping of Run, and
 * the event fan-out with its container-id prefix stripping.
 *
 * The worker runs the request while the caller waits on its semaphore;
 * the model runs it in place, with the OCIContainer plugin's answer an
 * input. The window manager, the Dobby spec generator and the storage
 * manager are inputs as well.
 */
module RuntimeManager {
  import opened Core
  import opened Text

  const RUNTIME_APP_PORTAL := "com.sky.as.apps"

  /** `IRuntimeManager::RuntimeState`. */
  datatype RuntimeState =
    | RUNTIME_STATE_UNKNOWN | RUNTIME_STATE_STARTING | RUNTIME_STATE_RUNNING | RUNTIME_STATE_HIBERNATING
    | RUNTIME_STATE_HIBERNATED | RUNTIME_STATE_WAKING | RUNTIME_STATE_SUSPENDED | RUNTIME_STATE_TERMINATING

  datatype OCIRequestType =
    | RUNTIME_OCI_REQUEST_METHOD_UNKNOWN | RUNTIME_OCI_REQUEST_METHOD_RUN | RUNTIME_OCI_REQUEST_METHOD_HIBERNATE
    | RUNTIME_OCI_REQUEST_METHOD_WAKE | RUNTIME_OCI_REQUEST_METHOD_SUSPEND | RUNTIME_OCI_REQUEST_METHOD_RESUME
    | RUNTIME_OCI_REQUEST_METHOD_TERMINATE | RUNTIME_OCI_REQUEST_METHOD_KILL | RUNTIME_OCI_REQUEST_METHOD_GETINFO
    | RUNTIME_OCI_REQUEST_METHOD_ANNONATE | RUNTIME_OCI_REQUEST_METHOD_MOUNT | RUNTIME_OCI_REQUEST_METHOD_UNMOUNT

  datatype RuntimeEventType =
    | RUNTIME_MANAGER_EVENT_UNKNOWN | RUNTIME_MANAGER_EVENT_STATECHANGED | RUNTIME_MANAGER_EVENT_CONTAINERSTARTED
    | RUNTIME_MANAGER_EVENT_CONTAINERSTOPPED | RUNTIME_MANAGER_EVENT_CONTAINERFAILED

  datatype RuntimeAppInfo = RuntimeAppInfo(
    appId: string, appInstanceId: string, appPath: string, runtimePath: string,
    descriptor: int, getInfo: string, containerState: RuntimeState)

  /** A default-constructed record, as `operator[]` inserts. */
  const EMPTY_INFO := RuntimeAppInfo("", "", "", "", 0, "", RUNTIME_STATE_UNKNOWN)

  /** What the OCIContainer plugin answers: result, success flag and response data. */
  datatype ContainerAnswer = ContainerAnswer(result: HResult, success: bool, descriptor: int, getInfo: string)

  // ----- Container ids -----

  function ContainerId(appInstanceId: string): (r: string)
    ensures StartsWith(r, RUNTIME_APP_PORTAL) && r[|RUNTIME_APP_PORTAL|..] == appInstanceId
  {
    RUNTIME_APP_PORTAL + appInstanceId
  }

  /** The prefix is removed only when the container id starts with it. */
  function InstanceOf(containerId: string): (r: string)
    ensures StartsWith(containerId, RUNTIME_APP_PORTAL) ==> containerId == RUNTIME_APP_PORTAL + r
    ensures !StartsWith(containerId, RUNTIME_APP_PORTAL) ==> r == containerId
  {
    if StartsWith(containerId, RUNTIME_APP_PORTAL) then containerId[|RUNTIME_APP_PORTAL|..] else containerId
  }

  lemma {:induction false} InstanceOfContainerId(appInstanceId: string)
    ensures InstanceOf(ContainerId(appInstanceId)) == appInstanceId
  {
    assert ContainerId(appInstanceId)[..|RUNTIME_APP_PORTAL|] == RUNTIME_APP_PORTAL;
  }

  // ----- The OCI worker -----

  /**
   * What the worker hands back for a request: the plugin's answer when the
   * plugin object exists and the type is one it serves, and a general
   * failure otherwise (mount, unmount and unknown types included).
   */
  function Execute(requestType: OCIRequestType, ociAvailable: bool, answer: ContainerAnswer): (r: (HResult, bool))
    ensures !ociAvailable ==> r == (ERROR_GENERAL, false)
    ensures Served(requestType) && ociAvailable ==> r == (answer.result, answer.success)
    ensures !Served(requestType) ==> r == (ERROR_GENERAL, false)
  {
    if !ociAvailable || !Served(requestType) then (ERROR_GENERAL, false) else (answer.result, answer.success)
  }

  predicate Served(requestType: OCIRequestType)
  {
    requestType !in {RUNTIME_OCI_REQUEST_METHOD_UNKNOWN, RUNTIME_OCI_REQUEST_METHOD_MOUNT, RUNTIME_OCI_REQUEST_METHOD_UNMOUNT}
  }

  /** A request succeeds when the worker reports success and no error code. */
  predicate Accepted(requestType: OCIRequestType, ociAvailable: bool, answer: ContainerAnswer)
  {
    var (result, success) := Execute(requestType, ociAvailable, answer);
    success && result == ERROR_NONE
  }

  /** A stop that the plugin carried out frees the instance's user id. */
  predicate ClearsUserId(requestType: OCIRequestType, ociAvailable: bool, answer: ContainerAnswer)
  {
    ociAvailable && (requestType == RUNTIME_OCI_REQUEST_METHOD_TERMINATE || requestType == RUNTIME_OCI_REQUEST_METHOD_KILL)
    && answer.result == ERROR_NONE
  }

  /** `updateContainerInfo`: the record of a known instance after a successful request. */
  function UpdatedInfo(apps: map<string, RuntimeAppInfo>, id: string, requestType: OCIRequestType,
                       answer: ContainerAnswer): (r: map<string, RuntimeAppInfo>)
    ensures r.Keys == apps.Keys
    ensures forall other :: other in apps && other != id ==> r[other] == apps[other]
    ensures id in apps ==>
      match requestType
      case RUNTIME_OCI_REQUEST_METHOD_TERMINATE => r[id] == apps[id].(containerState := RUNTIME_STATE_TERMINATING)
      case RUNTIME_OCI_REQUEST_METHOD_KILL => r[id] == apps[id].(containerState := RUNTIME_STATE_TERMINATING)
      case RUNTIME_OCI_REQUEST_METHOD_HIBERNATE => r[id] == apps[id].(containerState := RUNTIME_STATE_HIBERNATING)
      case RUNTIME_OCI_REQUEST_METHOD_WAKE => r[id] == apps[id].(containerState := RUNTIME_STATE_WAKING)
      case RUNTIME_OCI_REQUEST_METHOD_GETINFO => r[id] == apps[id].(getInfo := answer.getInfo)
      case RUNTIME_OCI_REQUEST_METHOD_RUN => r[id] == apps[id].(descriptor := answer.descriptor)
      case _ => r[id] == apps[id]
  {
    if id !in apps then apps
    else
      var info := apps[id];
      match requestType
      case RUNTIME_OCI_REQUEST_METHOD_TERMINATE => apps[id := info.(containerState := RUNTIME_STATE_TERMINATING)]
      case RUNTIME_OCI_REQUEST_METHOD_KILL => apps[id := info.(containerState := RUNTIME_STATE_TERMINATING)]
      case RUNTIME_OCI_REQUEST_METHOD_HIBERNATE => apps[id := info.(containerState := RUNTIME_STATE_HIBERNATING)]
      case RUNTIME_OCI_REQUEST_METHOD_GETINFO => apps[id := info.(getInfo := answer.getInfo)]
      case RUNTIME_OCI_REQUEST_METHOD_RUN => apps[id := info.(descriptor := answer.descriptor)]
      case RUNTIME_OCI_REQUEST_METHOD_WAKE => apps[id := info.(containerState := RUNTIME_STATE_WAKING)]
      case _ => apps
  }

  /** `getRuntimeState`: unknown for an empty or unrecorded instance. */
  function RuntimeStateOf(apps: map<string, RuntimeAppInfo>, appInstanceId: string): (r: RuntimeState)
    ensures appInstanceId != "" && appInstanceId in apps ==> r == apps[appInstanceId].containerState
    ensures appInstanceId == "" || appInstanceId !in apps ==> r == RUNTIME_STATE_UNKNOWN
  {
    if appInstanceId != "" && appInstanceId in apps then apps[appInstanceId].containerState else RUNTIME_STATE_UNKNOWN
  }

  /** A hibernate accepted for a recorded instance makes it wakeable. */
  lemma HibernateEnablesWake(apps: map<string, RuntimeAppInfo>, id: string, answer: ContainerAnswer)
    requires id != "" && id in apps
    ensures RuntimeStateOf(UpdatedInfo(apps, id, RUNTIME_OCI_REQUEST_METHOD_HIBERNATE, answer), id) == RUNTIME_STATE_HIBERNATING
  {
  }

  // ----- Run -----

  /** What the window manager connector reports, when there is one. */
  datatype Display = Display(xdgRuntimeDir: string, waylandDisplay: string, created: bool)

  /**
   * The status `Run` returns as written: a failed `createDisplay` sets
   * ERROR_GENERAL, yet the container is still started when both names are
   * known, and the container request's status replaces it.
   */
  function RunStatusAsWritten(display: Option<Display>, generated: bool, requestStatus: HResult): (r: HResult)
    ensures display.None? ==> r == ERROR_GENERAL
    ensures display.Some? && display.value.xdgRuntimeDir != "" && display.value.waylandDisplay != "" && generated
            ==> r == requestStatus
  {
    var xdg := if display.Some? then display.value.xdgRuntimeDir else "";
    var wayland := if display.Some? then display.value.waylandDisplay else "";
    if xdg == "" || wayland == "" then ERROR_GENERAL
    else if !generated then ERROR_GENERAL
    else requestStatus
  }

  /** A display that could not be created does not stop the container from starting. */
  lemma RunIgnoresDisplayFailure()
    ensures RunStatusAsWritten(Some(Display("/run/user/1", "wst-app", false)), true, ERROR_NONE) == ERROR_NONE
  {
  }

  /**
   * Whether `Run` as written requests the container: both names known and
   * the spec generated, whether or not the display was created.
   */
  predicate RunRequestsAsWritten(display: Option<Display>, generated: bool)
  {
    display.Some? && display.value.xdgRuntimeDir != "" && display.value.waylandDisplay != "" && generated
  }

  /** Whether `Run` goes on to request the container: display created with both names, spec generated. */
  predicate RunProceeds(display: Option<Display>, generated: bool)
  {
    display.Some? && display.value.created && display.value.xdgRuntimeDir != "" && display.value.waylandDisplay != ""
    && generated
  }

  /** The status `Run` returns once a failed display creation fails the call. */
  function RunStatus(display: Option<Display>, generated: bool, requestStatus: HResult): (r: HResult)
    ensures r == ERROR_NONE <==> RunProceeds(display, generated) && requestStatus == ERROR_NONE
    ensures display.Some? && !display.value.created ==> r == ERROR_GENERAL
  {
    if RunProceeds(display, generated) then requestStatus else ERROR_GENERAL
  }

  /** A display that was not created still leads to the container request as written, never once corrected. */
  lemma RunRequestsDespiteDisplayFailure(display: Option<Display>, generated: bool)
    requires display.Some? && !display.value.created
    ensures RunRequestsAsWritten(display, generated) <==> display.value.xdgRuntimeDir != "" && display.value.waylandDisplay != "" && generated
    ensures !RunProceeds(display, generated)
  {
  }

  /** The corrected status differs from the written one only when the display was not created. */
  lemma RunStatusAgreesWhenDisplayCreated(display: Option<Display>, generated: bool, requestStatus: HResult)
    requires display.Some? ==> display.value.created
    requires requestStatus == ERROR_NONE || requestStatus == ERROR_GENERAL
    ensures RunStatus(display, generated, requestStatus) == RunStatusAsWritten(display, generated, requestStatus)
  {
  }

  // ----- Notifications -----

  datatype Notice =
    | OnStateChanged(appInstanceId: string, state: RuntimeState)
    | OnStarted(appInstanceId: string)
    | OnTerminated(appInstanceId: string)
    | OnFailure(appInstanceId: string, error: string)

  /** The notice an event becomes, if the event is dispatched at all. */
  function NoticeFor(event: RuntimeEventType, containerId: string, state: RuntimeState, errorCode: string): (r: Option<Notice>)
    ensures r.Some? <==> event != RUNTIME_MANAGER_EVENT_UNKNOWN
    ensures r.Some? ==> r.value.appInstanceId == InstanceOf(containerId)
  {
    var id := InstanceOf(containerId);
    match event
    case RUNTIME_MANAGER_EVENT_STATECHANGED => Some(OnStateChanged(id, state))
    case RUNTIME_MANAGER_EVENT_CONTAINERSTARTED => Some(OnStarted(id))
    case RUNTIME_MANAGER_EVENT_CONTAINERSTOPPED => Some(OnTerminated(id))
    case RUNTIME_MANAGER_EVENT_CONTAINERFAILED => Some(OnFailure(id, errorCode))
    case RUNTIME_MANAGER_EVENT_UNKNOWN => None
  }

  /** One delivery of `notice` to each listener, in registration order. */
  function Broadcast(listeners: seq<nat>, notice: Notice): (r: seq<(nat, Notice)>)
    ensures |r| == |listeners|
    ensures forall i :: 0 <= i < |r| ==> r[i] == (listeners[i], notice)
  {
    seq(|listeners|, i requires 0 <= i < |listeners| => (listeners[i], notice))
  }

  class RuntimeManagerImplementation {
    /** `mRuntimeAppInfo`. */
    var apps: map<string, RuntimeAppInfo>
    /** Container requests handed to the worker: type and container id. */
    var requests: seq<(OCIRequestType, string)>
    /** Instances whose user id was released. */
    var clearedUserIds: seq<string>
    /** `mRuntimeManagerNotification`, by identity. */
    var listeners: seq<nat>
    var delivered: seq<(nat, Notice)>

    ghost predicate Valid()
      reads this
    {
      forall i, j :: 0 <= i < j < |listeners| ==> listeners[i] != listeners[j]
    }

    constructor()
      ensures Valid() && apps == map[] && requests == [] && clearedUserIds == [] && listeners == [] && delivered == []
    {
      apps, requests, clearedUserIds, listeners, delivered := map[], [], [], [], [];
    }

    /** `ociAvailable`: whether the worker holds, or can create, the OCIContainer plugin object. */
    method HandleContainerRequest(requestType: OCIRequestType, appInstanceId: string, ociAvailable: bool,
                                  answer: ContainerAnswer) returns (status: HResult)
      modifies this
      ensures appInstanceId == "" ==> status == ERROR_GENERAL && requests == old(requests)
                                      && apps == old(apps) && clearedUserIds == old(clearedUserIds)
      ensures appInstanceId != "" ==>
        requests == old(requests) + [(requestType, ContainerId(appInstanceId))]
        && (status == ERROR_NONE <==> Accepted(requestType, ociAvailable, answer))
        && (status != ERROR_NONE ==> status == ERROR_GENERAL)
        && apps == (if status == ERROR_NONE then UpdatedInfo(old(apps), appInstanceId, requestType, answer) else old(apps))
        && clearedUserIds == old(clearedUserIds)
             + (if ClearsUserId(requestType, ociAvailable, answer) then [appInstanceId] else [])
      ensures listeners == old(listeners) && delivered == old(delivered)
    {
      status := ERROR_GENERAL;
      if appInstanceId != "" {
        requests := requests + [(requestType, ContainerId(appInstanceId))];
        var (result, success) := Execute(requestType, ociAvailable, answer);
        if ClearsUserId(requestType, ociAvailable, answer) {
          clearedUserIds := clearedUserIds + [appInstanceId];
        }
        if success && result == ERROR_NONE {
          status := result;
          apps := UpdatedInfo(apps, appInstanceId, requestType, answer);
        }
      }
    }

    method GetRuntimeState(appInstanceId: string) returns (state: RuntimeState)
      ensures state == RuntimeStateOf(apps, appInstanceId)
      ensures state != RUNTIME_STATE_UNKNOWN ==> appInstanceId in apps
    {
      state := RUNTIME_STATE_UNKNOWN;
      if appInstanceId != "" {
        if appInstanceId in apps {
          state := apps[appInstanceId].containerState;
        }
      }
    }

    /** Wake only a hibernating or hibernated container. */
    method Wake(appInstanceId: string, ociAvailable: bool, answer: ContainerAnswer) returns (status: HResult)
      modifies this
      ensures var s := RuntimeStateOf(old(apps), appInstanceId);
        s != RUNTIME_STATE_HIBERNATING && s != RUNTIME_STATE_HIBERNATED ==>
          status == ERROR_GENERAL && requests == old(requests) && apps == old(apps)
      ensures var s := RuntimeStateOf(old(apps), appInstanceId);
        (s == RUNTIME_STATE_HIBERNATING || s == RUNTIME_STATE_HIBERNATED) ==>
          requests == old(requests) + [(RUNTIME_OCI_REQUEST_METHOD_WAKE, ContainerId(appInstanceId))]
          && (status == ERROR_NONE <==> Accepted(RUNTIME_OCI_REQUEST_METHOD_WAKE, ociAvailable, answer))
          && (status == ERROR_NONE ==> appInstanceId in apps && apps[appInstanceId].containerState == RUNTIME_STATE_WAKING)
          && (status == ERROR_NONE ==> apps == UpdatedInfo(old(apps), appInstanceId, RUNTIME_OCI_REQUEST_METHOD_WAKE, answer))
          && (status != ERROR_NONE ==> status == ERROR_GENERAL && apps == old(apps))
      ensures clearedUserIds == old(clearedUserIds) && listeners == old(listeners) && delivered == old(delivered)
    {
      status := ERROR_GENERAL;
      var current := GetRuntimeState(appInstanceId);
      if current == RUNTIME_STATE_HIBERNATING || current == RUNTIME_STATE_HIBERNATED {
        status := HandleContainerRequest(RUNTIME_OCI_REQUEST_METHOD_WAKE, appInstanceId, ociAvailable, answer);
      }
    }

    /** Annotate refuses an empty key without asking the container. */
    method Annotate(appInstanceId: string, key: string, value: string, ociAvailable: bool, answer: ContainerAnswer)
      returns (status: HResult)
      modifies this
      ensures key == "" ==> status == ERROR_GENERAL && requests == old(requests) && apps == old(apps)
      ensures key != "" && appInstanceId != "" ==>
        requests == old(requests) + [(RUNTIME_OCI_REQUEST_METHOD_ANNONATE, ContainerId(appInstanceId))]
        && (status == ERROR_NONE <==> Accepted(RUNTIME_OCI_REQUEST_METHOD_ANNONATE, ociAvailable, answer))
      ensures key != "" && appInstanceId == "" ==> status == ERROR_GENERAL && requests == old(requests)
      ensures apps == old(apps) && clearedUserIds == old(clearedUserIds)
      ensures listeners == old(listeners) && delivered == old(delivered)
    {
      status := ERROR_GENERAL;
      if key != "" {
        status := HandleContainerRequest(RUNTIME_OCI_REQUEST_METHOD_ANNONATE, appInstanceId, ociAvailable, answer);
      }
    }

    /**
     * `GetInfo`: the info is read through `operator[]`, which inserts an
     * empty record for an unrecorded instance, and is moved out of the
     * record, which is left with an empty info.
     */
    method GetInfo(appInstanceId: string, ociAvailable: bool, answer: ContainerAnswer, infoIn: string)
      returns (status: HResult, info: string)
      modifies this
      ensures appInstanceId != "" ==>
        (status == ERROR_NONE <==> Accepted(RUNTIME_OCI_REQUEST_METHOD_GETINFO, ociAvailable, answer))
      ensures status != ERROR_NONE ==> info == infoIn && apps == old(apps)
      ensures status == ERROR_NONE ==>
        appInstanceId in apps && apps[appInstanceId].getInfo == ""
        && (appInstanceId in old(apps) ==>
              (info == answer.getInfo && apps == old(apps)[appInstanceId := old(apps)[appInstanceId].(getInfo := "")]))
        && (appInstanceId !in old(apps) ==> info == "" && apps == old(apps)[appInstanceId := EMPTY_INFO])
      ensures clearedUserIds == old(clearedUserIds) && listeners == old(listeners) && delivered == old(delivered)
    {
      info := infoIn;
      status := HandleContainerRequest(RUNTIME_OCI_REQUEST_METHOD_GETINFO, appInstanceId, ociAvailable, answer);
      if status == ERROR_NONE {
        var record := if appInstanceId in apps then apps[appInstanceId] else EMPTY_INFO;
        info := record.getInfo;
        apps := apps[appInstanceId := record.(getInfo := "")];
      }
    }

    /**
     * The end of `Run`: the container request and, when it succeeds, the
     * instance record in the STARTING state.
     */
    method StartContainer(appId: string, appInstanceId: string, appPath: string, runtimePath: string,
                          ociAvailable: bool, answer: ContainerAnswer)
      returns (status: HResult)
      modifies this
      ensures appInstanceId == "" ==> status == ERROR_GENERAL && requests == old(requests) && apps == old(apps)
      ensures appInstanceId != "" ==>
        requests == old(requests) + [(RUNTIME_OCI_REQUEST_METHOD_RUN, ContainerId(appInstanceId))]
        && (status == ERROR_NONE <==> Accepted(RUNTIME_OCI_REQUEST_METHOD_RUN, ociAvailable, answer))
      ensures status != ERROR_NONE ==> status == ERROR_GENERAL && apps == old(apps)
      ensures status == ERROR_NONE ==>
        apps == UpdatedInfo(old(apps), appInstanceId, RUNTIME_OCI_REQUEST_METHOD_RUN, answer)[appInstanceId :=
          RuntimeAppInfo(appId, appInstanceId, appPath, runtimePath, answer.descriptor, "", RUNTIME_STATE_STARTING)]
      ensures clearedUserIds == old(clearedUserIds) && listeners == old(listeners) && delivered == old(delivered)
    {
      status := HandleContainerRequest(RUNTIME_OCI_REQUEST_METHOD_RUN, appInstanceId, ociAvailable, answer);
      if status == ERROR_NONE {
        apps := apps[appInstanceId := RuntimeAppInfo(appId, appInstanceId, appPath, runtimePath, answer.descriptor, "",
                                                     RUNTIME_STATE_STARTING)];
      }
    }

    /**
     * `Run` as written: `display` is what the window manager connector
     * gives (`None` without a connector), `generated` whether the Dobby
     * spec was generated. A display that was not created still lets the
     * container start, and the request's status is returned.
     */
    method RunAsWritten(appId: string, appInstanceId: string, appPath: string, runtimePath: string,
                        display: Option<Display>, generated: bool, ociAvailable: bool, answer: ContainerAnswer)
      returns (status: HResult)
      modifies this
      ensures !RunRequestsAsWritten(display, generated) ==>
        status == ERROR_GENERAL && requests == old(requests) && apps == old(apps)
      ensures RunRequestsAsWritten(display, generated) && appInstanceId != "" ==>
        requests == old(requests) + [(RUNTIME_OCI_REQUEST_METHOD_RUN, ContainerId(appInstanceId))]
        && (status == ERROR_NONE <==> Accepted(RUNTIME_OCI_REQUEST_METHOD_RUN, ociAvailable, answer))
      ensures RunRequestsAsWritten(display, generated) && appInstanceId == "" ==>
        status == ERROR_GENERAL && requests == old(requests) && apps == old(apps)
      ensures status != ERROR_NONE ==> apps == old(apps)
      ensures status == ERROR_NONE ==>
        apps == UpdatedInfo(old(apps), appInstanceId, RUNTIME_OCI_REQUEST_METHOD_RUN, answer)[appInstanceId :=
          RuntimeAppInfo(appId, appInstanceId, appPath, runtimePath, answer.descriptor, "", RUNTIME_STATE_STARTING)]
      ensures clearedUserIds == old(clearedUserIds) && listeners == old(listeners) && delivered == old(delivered)
    {
      status := ERROR_GENERAL;
      if !RunRequestsAsWritten(display, generated) {
        return;
      }
      status := StartContainer(appId, appInstanceId, appPath, runtimePath, ociAvailable, answer);
    }

    /**
     * `Run` once the display failure is reported: `display` is what the
     * window manager connector gives (`None` without a connector),
     * `generated` whether the Dobby spec was generated.
     */
    method Run(appId: string, appInstanceId: string, appPath: string, runtimePath: string,
               display: Option<Display>, generated: bool, ociAvailable: bool, answer: ContainerAnswer)
      returns (status: HResult)
      modifies this
      ensures !RunProceeds(display, generated) ==> status == ERROR_GENERAL && requests == old(requests) && apps == old(apps)
      ensures RunProceeds(display, generated) && appInstanceId != "" ==>
        requests == old(requests) + [(RUNTIME_OCI_REQUEST_METHOD_RUN, ContainerId(appInstanceId))]
        && (status == ERROR_NONE <==> Accepted(RUNTIME_OCI_REQUEST_METHOD_RUN, ociAvailable, answer))
      ensures RunProceeds(display, generated) && appInstanceId == "" ==>
        status == ERROR_GENERAL && requests == old(requests) && apps == old(apps)
      ensures status != ERROR_NONE ==> apps == old(apps)
      ensures status == ERROR_NONE ==>
        apps == UpdatedInfo(old(apps), appInstanceId, RUNTIME_OCI_REQUEST_METHOD_RUN, answer)[appInstanceId :=
          RuntimeAppInfo(appId, appInstanceId, appPath, runtimePath, answer.descriptor, "", RUNTIME_STATE_STARTING)]
      ensures clearedUserIds == old(clearedUserIds) && listeners == old(listeners) && delivered == old(delivered)
    {
      status := ERROR_GENERAL;
      if !RunProceeds(display, generated) {
        return;
      }
      status := StartContainer(appId, appInstanceId, appPath, runtimePath, ociAvailable, answer);
    }

    method Register(listener: nat) returns (r: HResult)
      requires Valid()
      modifies this
      ensures Valid() && r == ERROR_NONE
      ensures listeners == (if listener in old(listeners) then old(listeners) else old(listeners) + [listener])
      ensures apps == old(apps) && requests == old(requests) && clearedUserIds == old(clearedUserIds)
      ensures delivered == old(delivered)
    {
      if listener !in listeners {
        listeners := listeners + [listener];
      }
      r := ERROR_NONE;
    }

    method Unregister(listener: nat) returns (r: HResult)
      requires Valid()
      modifies this
      ensures Valid()
      ensures listener !in old(listeners) ==> r == ERROR_GENERAL && listeners == old(listeners)
      ensures listener in old(listeners) ==> r == ERROR_NONE && listener !in listeners
      ensures listener in old(listeners) ==>
        exists i :: 0 <= i < |old(listeners)| && old(listeners)[i] == listener
          && listeners == old(listeners)[..i] + old(listeners)[i + 1..]
      ensures apps == old(apps) && requests == old(requests) && clearedUserIds == old(clearedUserIds)
      ensures delivered == old(delivered)
    {
      var i := 0;
      while i < |listeners|
        invariant 0 <= i <= |listeners|
        invariant forall j :: 0 <= j < i ==> listeners[j] != listener
      {
        if listeners[i] == listener {
          assert forall j :: i < j < |listeners| ==> listeners[j] != listener;
          listeners := listeners[..i] + listeners[i + 1..];
          return ERROR_NONE;
        }
        i := i + 1;
      }
      return ERROR_GENERAL;
    }

    /** `Dispatch`: `state` is the decoded `state` member, `errorCode` the `errorCode` member. */
    method Dispatch(event: RuntimeEventType, containerId: string, state: RuntimeState, errorCode: string)
      modifies this
      ensures var n := NoticeFor(event, containerId, state, errorCode);
        delivered == old(delivered) + (if n.Some? then Broadcast(listeners, n.value) else [])
      ensures apps == old(apps) && requests == old(requests) && clearedUserIds == old(clearedUserIds)
      ensures listeners == old(listeners)
    {
      var notice := NoticeFor(event, containerId, state, errorCode);
      if notice.Some? {
        var k := 0;
        while k < |listeners|
          invariant 0 <= k <= |listeners|
          invariant delivered == old(delivered) + Broadcast(listeners[..k], notice.value)
          invariant apps == old(apps) && requests == old(requests) && clearedUserIds == old(clearedUserIds)
          invariant listeners == old(listeners)
        {
          delivered := delivered + [(listeners[k], notice.value)];
          k := k + 1;
          assert Broadcast(listeners[..k], notice.value) == Broadcast(listeners[..k - 1], notice.value) + [(listeners[k - 1], notice.value)];
        }
        assert listeners[..|listeners|] == listeners;
      }
    }
  }
}
