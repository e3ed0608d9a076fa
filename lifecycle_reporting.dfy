/**
 * LifecycleManagerTelemetryReporting: the marker a lifecycle state
 * change is recorded under, the metrics recorded, and which of them are
 * published at once.
 *
 * The state-change notification is a JSON object holding `appId` and the
 * new state; the application context gives the request type, the
 * request time and the target state; the clock is an input.
 */
module LifecycleReporting {
  import opened Core
  import opened JsonTree
  import opened Lifecycle

  /** `RequestType` of an application context. */
  datatype RequestType =
    | REQUEST_TYPE_NONE | REQUEST_TYPE_LAUNCH | REQUEST_TYPE_TERMINATE | REQUEST_TYPE_SUSPEND
    | REQUEST_TYPE_RESUME | REQUEST_TYPE_HIBERNATE | REQUEST_TYPE_WAKE

  datatype ApplicationContext = ApplicationContext(
    requestType: RequestType,
    requestTime: int,
    targetLifecycleState: LifecycleState,
    appInstanceId: string)

  const TELEMETRY_MARKER_LAUNCH_TIME := "OverallLaunchTime_split"
  const TELEMETRY_MARKER_CLOSE_TIME := "AppCloseTime_split"
  const TELEMETRY_MARKER_SUSPEND_TIME := "SuspendTime_split"
  const TELEMETRY_MARKER_RESUME_TIME := "ResumeTime_split"
  const TELEMETRY_MARKER_HIBERNATE_TIME := "HibernateTime_split"
  const TELEMETRY_MARKER_WAKE_TIME := "WakeTime_split"

  /** Each request kind is attributed to its own marker. */
  lemma MarkersDistinct()
    ensures |{TELEMETRY_MARKER_LAUNCH_TIME, TELEMETRY_MARKER_CLOSE_TIME, TELEMETRY_MARKER_SUSPEND_TIME,
              TELEMETRY_MARKER_RESUME_TIME, TELEMETRY_MARKER_HIBERNATE_TIME, TELEMETRY_MARKER_WAKE_TIME}| == 6
  {
    assert TELEMETRY_MARKER_LAUNCH_TIME[0] == 'O' && TELEMETRY_MARKER_CLOSE_TIME[0] == 'A';
    assert TELEMETRY_MARKER_SUSPEND_TIME[0] == 'S' && TELEMETRY_MARKER_RESUME_TIME[0] == 'R';
    assert TELEMETRY_MARKER_HIBERNATE_TIME[0] == 'H' && TELEMETRY_MARKER_WAKE_TIME[0] == 'W';
  }

  /** The marker for a request reaching `newState`, or "" for none. */
  function MarkerFor(context: ApplicationContext, newState: LifecycleState): (r: string)
    ensures r == TELEMETRY_MARKER_LAUNCH_TIME <==>
      context.requestType == REQUEST_TYPE_LAUNCH && newState == context.targetLifecycleState
      && (newState == ACTIVE || newState == PAUSED)
    ensures r == TELEMETRY_MARKER_CLOSE_TIME <==> context.requestType == REQUEST_TYPE_TERMINATE && newState == UNLOADED
    ensures r == TELEMETRY_MARKER_SUSPEND_TIME <==> context.requestType == REQUEST_TYPE_SUSPEND && newState == SUSPENDED
    ensures r == TELEMETRY_MARKER_RESUME_TIME <==> context.requestType == REQUEST_TYPE_RESUME && newState == ACTIVE
    ensures r == TELEMETRY_MARKER_HIBERNATE_TIME <==> context.requestType == REQUEST_TYPE_HIBERNATE && newState == HIBERNATED
    ensures r == TELEMETRY_MARKER_WAKE_TIME <==> context.requestType == REQUEST_TYPE_TERMINATE && newState == SUSPENDED
    ensures r != "" ==> r in {TELEMETRY_MARKER_LAUNCH_TIME, TELEMETRY_MARKER_CLOSE_TIME, TELEMETRY_MARKER_SUSPEND_TIME,
                              TELEMETRY_MARKER_RESUME_TIME, TELEMETRY_MARKER_HIBERNATE_TIME, TELEMETRY_MARKER_WAKE_TIME}
  {
    MarkersDistinct();
    var t := context.requestType;
    if t == REQUEST_TYPE_LAUNCH && ((newState == ACTIVE && context.targetLifecycleState == ACTIVE)
                                    || (newState == PAUSED && context.targetLifecycleState == PAUSED)) then
      TELEMETRY_MARKER_LAUNCH_TIME
    else if t == REQUEST_TYPE_TERMINATE && newState == UNLOADED then TELEMETRY_MARKER_CLOSE_TIME
    else if t == REQUEST_TYPE_SUSPEND && newState == SUSPENDED then TELEMETRY_MARKER_SUSPEND_TIME
    else if t == REQUEST_TYPE_RESUME && newState == ACTIVE then TELEMETRY_MARKER_RESUME_TIME
    else if t == REQUEST_TYPE_HIBERNATE && newState == HIBERNATED then TELEMETRY_MARKER_HIBERNATE_TIME
    else if t == REQUEST_TYPE_TERMINATE && newState == SUSPENDED then TELEMETRY_MARKER_WAKE_TIME
    else ""
  }

  /** Adding a multiple of 2^32 does not change the low 32 bits. */
  lemma ModAddMultiple(a: int, k: int)
    ensures (a + k * 0x1_0000_0000) % 0x1_0000_0000 == a % 0x1_0000_0000
  {
    var q, m := a / 0x1_0000_0000, a % 0x1_0000_0000;
    assert a + k * 0x1_0000_0000 == (q + k) * 0x1_0000_0000 + m;
  }

  /** Reducing modulo 2^64 first keeps the low 32 bits. */
  lemma LowBitsOf64(d: int)
    ensures (d % 0x1_0000_0000_0000_0000) % 0x1_0000_0000 == d % 0x1_0000_0000
  {
    var q := d / 0x1_0000_0000_0000_0000;
    assert d % 0x1_0000_0000_0000_0000 == d + (-q * 0x1_0000_0000) * 0x1_0000_0000;
    ModAddMultiple(d, -q * 0x1_0000_0000);
  }

  /**
   * `(int)(currentTime - requestTime)` of two `uint64_t` millisecond
   * clocks: the difference wraps modulo 2^64 and the cast keeps its low
   * 32 bits as a signed value.
   */
  function ElapsedMs(currentTime: int, requestTime: int): (r: int)
    ensures -0x8000_0000 <= r < 0x8000_0000
    ensures r == ToInt32(currentTime - requestTime)
    ensures -0x8000_0000 <= currentTime - requestTime < 0x8000_0000 ==> r == currentTime - requestTime
  {
    LowBitsOf64(currentTime - requestTime);
    ToInt32((currentTime - requestTime) % 0x1_0000_0000_0000_0000)
  }

  /**
   * From 2^31 ms (about 24.8 days) to 2^32 ms after the request the
   * recorded time is negative.
   */
  lemma ElapsedMsWraps(currentTime: int, requestTime: int)
    requires 0x8000_0000 <= currentTime - requestTime < 0x1_0000_0000
    ensures ElapsedMs(currentTime, requestTime) == currentTime - requestTime - 0x1_0000_0000 < 0
  {
  }

  /** The metrics: the elapsed time alone for launch and close, with the ids otherwise. */
  function MetricsFor(context: ApplicationContext, appId: string, newState: LifecycleState, now: int)
    : (r: map<string, Json>)
    ensures var m := MarkerFor(context, newState);
      (m == TELEMETRY_MARKER_LAUNCH_TIME ==> r == map["lifecycleManagerSpawnTime" := JNum(ElapsedMs(now, context.requestTime))])
      && (m == TELEMETRY_MARKER_CLOSE_TIME ==>
            r == map["lifecycleManagerSetTargetStateTime" := JNum(ElapsedMs(now, context.requestTime))])
      && (m != TELEMETRY_MARKER_LAUNCH_TIME && m != TELEMETRY_MARKER_CLOSE_TIME ==>
            r == map["lifecycleManagerSetTargetStateTime" := JNum(ElapsedMs(now, context.requestTime)),
                     "appId" := JStr(appId), "appInstanceId" := JStr(context.appInstanceId)])
  {
    var elapsed := JNum(ElapsedMs(now, context.requestTime));
    var m := MarkerFor(context, newState);
    if m == TELEMETRY_MARKER_LAUNCH_TIME then map["lifecycleManagerSpawnTime" := elapsed]
    else if m == TELEMETRY_MARKER_CLOSE_TIME then map["lifecycleManagerSetTargetStateTime" := elapsed]
    else map["lifecycleManagerSetTargetStateTime" := elapsed, "appId" := JStr(appId),
             "appInstanceId" := JStr(context.appInstanceId)]
  }

  /** Publication when the request type is suspend, hibernate or resume, or a terminate reaching SUSPENDED. */
  predicate PublishesAt(context: ApplicationContext, newState: LifecycleState)
  {
    context.requestType == REQUEST_TYPE_SUSPEND || context.requestType == REQUEST_TYPE_HIBERNATE
    || context.requestType == REQUEST_TYPE_RESUME
    || (context.requestType == REQUEST_TYPE_TERMINATE && newState == SUSPENDED)
  }

  /** The application id of the notification, or "" when absent. */
  function NotifiedAppId(data: Json): (r: string)
    ensures !HasLabel(data, "appId") ==> r == ""
    ensures HasLabel(data, "appId") ==> r == AsString(Get(data, "appId"))
  {
    if HasLabel(data, "appId") then AsString(Get(data, "appId")) else ""
  }

  /** A recorded marker is published exactly for the suspend, resume, hibernate and wake markers. */
  lemma {:induction false} PublishedMarkers(context: ApplicationContext, newState: LifecycleState)
    requires MarkerFor(context, newState) != ""
    ensures PublishesAt(context, newState) <==>
      MarkerFor(context, newState) in {TELEMETRY_MARKER_SUSPEND_TIME, TELEMETRY_MARKER_RESUME_TIME,
                                       TELEMETRY_MARKER_HIBERNATE_TIME, TELEMETRY_MARKER_WAKE_TIME}
  {
    MarkersDistinct();
  }

  class LifecycleManagerTelemetryReporting {
    /** `recordTelemetryMetrics(marker, appId, metrics)` calls. */
    var records: seq<(string, string, map<string, Json>)>
    /** `publishTelemetryMetrics(marker, appId)` calls. */
    var published: seq<(string, string)>

    constructor()
      ensures records == [] && published == []
    {
      records, published := [], [];
    }

    /** `context` is `None` for a null context; `newState` is the decoded `newLifecycleState`. */
    method ReportTelemetryDataOnStateChange(context: Option<ApplicationContext>, data: Json,
                                            newState: LifecycleState, now: int)
      modifies this
      ensures var appId := NotifiedAppId(data);
        if appId == "" || context.None? || MarkerFor(context.value, newState) == "" then
          records == old(records) && published == old(published)
        else
          var m := MarkerFor(context.value, newState);
          records == old(records) + [(m, appId, MetricsFor(context.value, appId, newState, now))]
          && published == old(published) + (if PublishesAt(context.value, newState) then [(m, appId)] else [])
    {
      var appId := NotifiedAppId(data);
      if appId != "" {
        if context.Some? {
          var c := context.value;
          var markerName := MarkerFor(c, newState);
          if markerName != "" {
            records := records + [(markerName, appId, MetricsFor(c, appId, newState, now))];
            if PublishesAt(c, newState) {
              published := published + [(markerName, appId)];
            }
          }
        }
      }
    }
  }
}
