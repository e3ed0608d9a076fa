/**
 * AppManagerTelemetryReporting: which telemetry marker, if any, an
 * application action or state change produces, the metrics recorded
 * under it, and whether the record is also published.
 *
 * The marker and filter strings are macros from a header that is not
 * part of this model; they are carried as a `MarkerNames` value. The
 * `mAppInfo` table of the application manager is an input, and so is the
 * monotonic clock in milliseconds (`time_t`, 64 bits).
 */
module AppManagerReporting {
  import opened Core
  import opened JsonTree
  import opened Lifecycle

  /** `AppManagerImplementation::CurrentAction`. */
  datatype CurrentAction =
    | APP_ACTION_NONE | APP_ACTION_LAUNCH | APP_ACTION_PRELOAD | APP_ACTION_SUSPEND
    | APP_ACTION_RESUME | APP_ACTION_CLOSE | APP_ACTION_TERMINATE | APP_ACTION_KILL
    | APP_ACTION_HIBERNATE

  /** `IAppManager::AppLifecycleState`, the target state of a close. */
  datatype AppLifecycleState =
    | APP_STATE_UNKNOWN | APP_STATE_UNLOADED | APP_STATE_LOADING | APP_STATE_ACTIVE
    | APP_STATE_PAUSED | APP_STATE_SUSPENDED | APP_STATE_HIBERNATED | APP_STATE_TERMINATING

  /** The part of an `mAppInfo` entry the reporter reads. */
  datatype AppInfo = AppInfo(
    currentAction: CurrentAction,
    currentActionTime: int,
    targetAppState: AppLifecycleState,
    interactive: bool,
    appInstanceId: string,
    version: string)

  datatype Marker = LaunchTime | CloseTime | LaunchError | CloseError

  datatype MarkerNames = MarkerNames(
    launchTime: string, closeTime: string, launchError: string, closeError: string,
    launchTimeFilter: string, closeTimeFilter: string, launchErrorFilter: string, closeErrorFilter: string)
  {
    function Name(m: Marker): string
    {
      match m
      case LaunchTime => launchTime
      case CloseTime => closeTime
      case LaunchError => launchError
      case CloseError => closeError
    }

    function Filter(m: Marker): string
    {
      match m
      case LaunchTime => launchTimeFilter
      case CloseTime => closeTimeFilter
      case LaunchError => launchErrorFilter
      case CloseError => closeErrorFilter
    }
  }

  type Metrics = map<string, Json>

  /**
   * The reported duration `(int)(currentTime - currentActionTime)`: the
   * millisecond difference cut to a 32-bit `int`.
   */
  function Elapsed(now: int, start: int): (r: int)
    ensures 0 <= now - start < 0x8000_0000 ==> r == now - start
  {
    ToInt32(now - start)
  }

  /**
   * From 2^31 ms (about 24.8 days) to 2^32 ms after the action started
   * the reported duration is negative.
   */
  lemma ElapsedWraps(now: int, start: int)
    requires 0x8000_0000 <= now - start < 0x1_0000_0000
    ensures Elapsed(now, start) == now - start - 0x1_0000_0000 < 0
  {
  }

  /** The key `reportTelemetryData` puts the duration under. */
  function ActionTimeKey(m: Marker): string
  {
    if m == LaunchTime then "appManagerLaunchTime" else "appManagerCloseTime"
  }

  /** The key `reportTelemetryDataOnStateChange` puts the duration under. */
  function TotalTimeKey(m: Marker): string
  {
    if m == LaunchTime then "totalLaunchTime" else "totalCloseTime"
  }

  /** The metrics hold `key` with value `v`. */
  predicate Holds(metrics: Metrics, key: string, v: Json)
  {
    key in metrics && metrics[key] == v
  }

  /** The record key: the application id, a colon, the marker name. */
  function AppMarker(appId: string, markerName: string): (r: string)
    ensures |r| == |appId| + 1 + |markerName|
    ensures r[..|appId|] == appId && r[|appId|] == ':' && r[|appId| + 1..] == markerName
  {
    appId + ":" + markerName
  }

  /** Keys of colon-free application ids determine the id and the marker. */
  lemma AppMarkerInjective(a1: string, m1: string, a2: string, m2: string)
    requires ':' !in a1 && ':' !in a2
    requires AppMarker(a1, m1) == AppMarker(a2, m2)
    ensures a1 == a2 && m1 == m2
  {
  }

  /** `reportTelemetryData`: the marker an action's timing goes under. */
  function ActionMarker(action: CurrentAction, target: AppLifecycleState): (r: Option<Marker>)
    ensures (action == APP_ACTION_LAUNCH || action == APP_ACTION_PRELOAD) <==> r == Some(LaunchTime)
    ensures r == Some(CloseTime) <==>
      action == APP_ACTION_TERMINATE || action == APP_ACTION_KILL
      || (action == APP_ACTION_CLOSE && target != APP_STATE_SUSPENDED && target != APP_STATE_HIBERNATED)
    ensures r != Some(LaunchError) && r != Some(CloseError)
  {
    match action
    case APP_ACTION_LAUNCH => Some(LaunchTime)
    case APP_ACTION_PRELOAD => Some(LaunchTime)
    case APP_ACTION_CLOSE =>
      if target != APP_STATE_SUSPENDED && target != APP_STATE_HIBERNATED then Some(CloseTime) else None
    case APP_ACTION_TERMINATE => Some(CloseTime)
    case APP_ACTION_KILL => Some(CloseTime)
    case _ => None
  }

  /**
   * What `reportTelemetryData` records: nothing unless the application is
   * known, its recorded action is the one reported, and the telemetry
   * object exists.
   */
  function DataRecord(names: MarkerNames, apps: map<string, AppInfo>, appId: string, action: CurrentAction,
                      now: int, telemetry: bool): (r: Option<(string, Metrics)>)
    ensures r.Some? <==> appId in apps && apps[appId].currentAction == action && telemetry
                         && ActionMarker(action, apps[appId].targetAppState).Some?
    ensures r.Some? ==>
      var m := ActionMarker(action, apps[appId].targetAppState).value;
      r.value.0 == AppMarker(appId, names.Name(m)) && Holds(r.value.1, "markerName", JStr(names.Name(m)))
      && Holds(r.value.1, ActionTimeKey(m), JNum(Elapsed(now, apps[appId].currentActionTime)))
  {
    if appId in apps && apps[appId].currentAction == action && telemetry then
      var info := apps[appId];
      var elapsed := JNum(Elapsed(now, info.currentActionTime));
      match ActionMarker(action, info.targetAppState)
      case None => None
      case Some(m) =>
        var metrics := (if m == LaunchTime then map["appManagerLaunchTime" := elapsed]
                        else map["appManagerCloseTime" := elapsed])["markerName" := JStr(names.Name(m))];
        Some((AppMarker(appId, names.Name(m)), metrics))
    else None
  }

  /** `reportTelemetryDataOnStateChange`: the marker a state reached completes. */
  function StateChangeMarker(action: CurrentAction, newState: LifecycleState): (r: Option<Marker>)
    ensures r == Some(LaunchTime) <==>
      (action == APP_ACTION_LAUNCH && newState == ACTIVE) || (action == APP_ACTION_PRELOAD && newState == PAUSED)
    ensures r == Some(CloseTime) <==>
      (action == APP_ACTION_CLOSE || action == APP_ACTION_TERMINATE || action == APP_ACTION_KILL) && newState == UNLOADED
    ensures r == None || r == Some(LaunchTime) || r == Some(CloseTime)
  {
    match action
    case APP_ACTION_LAUNCH => if newState == ACTIVE then Some(LaunchTime) else None
    case APP_ACTION_PRELOAD => if newState == PAUSED then Some(LaunchTime) else None
    case APP_ACTION_CLOSE => if newState == UNLOADED then Some(CloseTime) else None
    case APP_ACTION_TERMINATE => if newState == UNLOADED then Some(CloseTime) else None
    case APP_ACTION_KILL => if newState == UNLOADED then Some(CloseTime) else None
    case _ => None
  }

  /** The `launchType` or `closeType` string. */
  function KindOf(info: AppInfo): (r: string)
    ensures info.currentAction == APP_ACTION_LAUNCH ==> r == (if info.interactive then "LAUNCH_INTERACTIVE" else "START_SYSTEM")
    ensures info.currentAction == APP_ACTION_PRELOAD ==> r == (if info.interactive then "PRELOAD_INTERACTIVE" else "START_SYSTEM")
    ensures info.currentAction == APP_ACTION_CLOSE ==> r == "CLOSE"
    ensures info.currentAction == APP_ACTION_TERMINATE ==> r == "TERMINATE"
    ensures info.currentAction == APP_ACTION_KILL ==> r == "KILL"
  {
    match info.currentAction
    case APP_ACTION_LAUNCH => if info.interactive then "LAUNCH_INTERACTIVE" else "START_SYSTEM"
    case APP_ACTION_PRELOAD => if info.interactive then "PRELOAD_INTERACTIVE" else "START_SYSTEM"
    case APP_ACTION_CLOSE => "CLOSE"
    case APP_ACTION_TERMINATE => "TERMINATE"
    case _ => "KILL"
  }

  function StateChangeRecord(names: MarkerNames, apps: map<string, AppInfo>, appId: string, newState: LifecycleState,
                             now: int, telemetry: bool): (r: Option<(string, Metrics)>)
    ensures r.Some? <==> appId in apps && telemetry && StateChangeMarker(apps[appId].currentAction, newState).Some?
    ensures r.Some? ==>
      var info := apps[appId];
      var m := StateChangeMarker(info.currentAction, newState).value;
      r.value.0 == AppMarker(appId, names.Name(m))
      && Holds(r.value.1, "appId", JStr(appId)) && Holds(r.value.1, "appInstanceId", JStr(info.appInstanceId))
      && Holds(r.value.1, "appVersion", JStr(info.version)) && Holds(r.value.1, "secondaryId", JStr("appInstanceId"))
      && Holds(r.value.1, "markerName", JStr(names.Name(m))) && Holds(r.value.1, "markerFilters", JStr(names.Filter(m)))
      && Holds(r.value.1, TotalTimeKey(m), JNum(Elapsed(now, info.currentActionTime)))
      && (m == LaunchTime ==> Holds(r.value.1, "launchType", JStr(KindOf(info))))
      && (m == CloseTime ==> Holds(r.value.1, "closeType", JStr(KindOf(info))))
  {
    if appId in apps && telemetry then
      var info := apps[appId];
      var elapsed := JNum(Elapsed(now, info.currentActionTime));
      match StateChangeMarker(info.currentAction, newState)
      case None => None
      case Some(m) =>
        var timing := if m == LaunchTime then map["totalLaunchTime" := elapsed, "launchType" := JStr(KindOf(info))]
                      else map["totalCloseTime" := elapsed, "closeType" := JStr(KindOf(info))];
        var metrics := timing["markerFilters" := JStr(names.Filter(m))]["appId" := JStr(appId)]
          ["appInstanceId" := JStr(info.appInstanceId)]["appVersion" := JStr(info.version)]
          ["secondaryId" := JStr("appInstanceId")]["markerName" := JStr(names.Name(m))];
        Some((AppMarker(appId, names.Name(m)), metrics))
    else None
  }

  /** `reportTelemetryErrorData`: launch and preload errors, close errors, nothing else. */
  function ErrorMarker(action: CurrentAction): (r: Option<Marker>)
    ensures r == Some(LaunchError) <==> action == APP_ACTION_LAUNCH || action == APP_ACTION_PRELOAD
    ensures r == Some(CloseError) <==>
      action == APP_ACTION_CLOSE || action == APP_ACTION_TERMINATE || action == APP_ACTION_KILL
    ensures r == None || r == Some(LaunchError) || r == Some(CloseError)
  {
    match action
    case APP_ACTION_LAUNCH => Some(LaunchError)
    case APP_ACTION_PRELOAD => Some(LaunchError)
    case APP_ACTION_CLOSE => Some(CloseError)
    case APP_ACTION_TERMINATE => Some(CloseError)
    case APP_ACTION_KILL => Some(CloseError)
    case _ => None
  }

  function ErrorRecord(names: MarkerNames, appId: string, action: CurrentAction, errorCode: int, telemetry: bool)
    : (r: Option<(string, Metrics)>)
    ensures r.Some? <==> telemetry && ErrorMarker(action).Some?
    ensures r.Some? ==>
      var m := ErrorMarker(action).value;
      r.value.0 == AppMarker(appId, names.Name(m)) && Holds(r.value.1, "errorCode", JNum(errorCode))
      && Holds(r.value.1, "markerName", JStr(names.Name(m))) && Holds(r.value.1, "markerFilters", JStr(names.Filter(m)))
      && Holds(r.value.1, "secondaryId", JStr("appInstanceId"))
      && r.value.1.Keys == {"errorCode", "markerName", "markerFilters", "secondaryId"}
  {
    match ErrorMarker(action)
    case None => None
    case Some(m) =>
      if telemetry then
        Some((AppMarker(appId, names.Name(m)),
              map["markerFilters" := JStr(names.Filter(m)), "errorCode" := JNum(errorCode),
                  "secondaryId" := JStr("appInstanceId"), "markerName" := JStr(names.Name(m))]))
      else None
  }

  /** A state change after a launch records the same key as the launch time itself. */
  lemma {:induction false} LaunchKeysAgree(names: MarkerNames, apps: map<string, AppInfo>, appId: string, now: int, later: int)
    requires appId in apps && apps[appId].currentAction == APP_ACTION_LAUNCH
    ensures DataRecord(names, apps, appId, APP_ACTION_LAUNCH, now, true).Some?
    ensures StateChangeRecord(names, apps, appId, ACTIVE, later, true).Some?
    ensures DataRecord(names, apps, appId, APP_ACTION_LAUNCH, now, true).value.0
         == StateChangeRecord(names, apps, appId, ACTIVE, later, true).value.0
  {
    assert ActionMarker(APP_ACTION_LAUNCH, apps[appId].targetAppState) == Some(LaunchTime);
    assert StateChangeMarker(APP_ACTION_LAUNCH, ACTIVE) == Some(LaunchTime);
  }

  class AppManagerTelemetryReporting {
    const names: MarkerNames
    /** Whether `mTelemetryPluginObject` is set. */
    var telemetry: bool
    /** `Record(appMarker, metrics)` calls, in order. */
    var records: seq<(string, Metrics)>
    /** `Publish(appMarker)` calls, in order. */
    var published: seq<string>

    constructor(names: MarkerNames)
      ensures this.names == names && !telemetry && records == [] && published == []
    {
      this.names := names;
      telemetry, records, published := false, [], [];
    }

    /** The retry at the head of every report; `available` is whether the callsign resolves. */
    method EnsureTelemetryObject(available: bool)
      modifies this
      ensures telemetry == (old(telemetry) || available)
      ensures records == old(records) && published == old(published)
    {
      if !telemetry {
        telemetry := available;
      }
    }

    method ReportTelemetryData(apps: map<string, AppInfo>, appId: string, action: CurrentAction, now: int, available: bool)
      modifies this
      ensures telemetry == (old(telemetry) || available)
      ensures var d := DataRecord(names, apps, appId, action, now, telemetry);
        records == old(records) + (if d.Some? then [d.value] else [])
      ensures published == old(published)
    {
      EnsureTelemetryObject(available);
      var d := DataRecord(names, apps, appId, action, now, telemetry);
      if d.Some? {
        records := records + [d.value];
      }
    }

    method ReportTelemetryDataOnStateChange(apps: map<string, AppInfo>, appId: string, newState: LifecycleState,
                                            now: int, available: bool)
      modifies this
      ensures telemetry == (old(telemetry) || available)
      ensures var d := StateChangeRecord(names, apps, appId, newState, now, telemetry);
        records == old(records) + (if d.Some? then [d.value] else [])
        && published == old(published) + (if d.Some? then [d.value.0] else [])
    {
      EnsureTelemetryObject(available);
      var d := StateChangeRecord(names, apps, appId, newState, now, telemetry);
      if d.Some? {
        records := records + [d.value];
        published := published + [d.value.0];
      }
    }

    method ReportTelemetryErrorData(appId: string, action: CurrentAction, errorCode: int, available: bool)
      modifies this
      ensures telemetry == (old(telemetry) || available)
      ensures var d := ErrorRecord(names, appId, action, errorCode, telemetry);
        records == old(records) + (if d.Some? then [d.value] else [])
        && published == old(published) + (if d.Some? then [d.value.0] else [])
    {
      EnsureTelemetryObject(available);
      var d := ErrorRecord(names, appId, action, errorCode, telemetry);
      if d.Some? {
        records := records + [d.value];
        published := published + [d.value.0];
      }
    }
  }
}
