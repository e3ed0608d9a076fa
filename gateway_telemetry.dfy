/**
 * AppGatewayTelemetry: the AppGateway's aggregation of health counters,
 * per-API and per-service error counts and per-metric counts, flushed as
 * one report when the number of cached events reaches a threshold (or
 * when the reporting timer fires).
 *
 * The T2 messages a flush sends are recorded as one `Report` per flush.
 * Metric sums, minima and maxima are floating point and not modelled;
 * the timer is reduced to its running flag. Every counter is a
 * `uint32_t` and wraps to 0 past 2^32 - 1.
 */
module GatewayTelemetry {
  import opened Core
  import opened Text
  import opened JsonTree

  const TELEMETRY_DEFAULT_REPORTING_INTERVAL_SEC: nat := 3600
  const TELEMETRY_DEFAULT_CACHE_THRESHOLD: nat := 1000

  /** The source's `uint32_t`. */
  type UInt32 = n: int | 0 <= n < 0x1_0000_0000

  /** `++` on a `uint32_t`: one more, except that 2^32 - 1 wraps to 0. */
  function Inc32(x: UInt32): (r: UInt32)
    ensures x < 0xFFFF_FFFF ==> r == x + 1
    ensures x == 0xFFFF_FFFF ==> r == 0
  {
    (x + 1) % 0x1_0000_0000
  }

  /** The count and unit of one metric (its sum, minimum and maximum are left out). */
  datatype MetricData = MetricData(count: UInt32, unit: string)

  /** The health-stats payload. */
  datatype HealthStats = HealthStats(websocketConnections: UInt32, totalCalls: UInt32, successfulCalls: UInt32,
                                     failedCalls: UInt32, reportingIntervalSec: UInt32)

  /** What one `FlushTelemetryData` sends; None stands for a message skipped for lack of data. */
  datatype Report = Report(health: Option<HealthStats>, apiFailures: Option<map<string, UInt32>>,
                           serviceFailures: Option<map<string, UInt32>>, metrics: map<string, MetricData>)

  /** `counts[key]++`, an absent key starting from 0. */
  function Increment(counts: map<string, UInt32>, key: string): (r: map<string, UInt32>)
    ensures key in r && r[key] == Inc32(if key in counts then counts[key] else 0)
    ensures forall k :: k != key ==> (k in r <==> k in counts)
    ensures forall k :: k != key && k in counts ==> r[k] == counts[k]
  {
    counts[key := Inc32(if key in counts then counts[key] else 0)]
  }

  /** How `RecordTelemetryEvent` classifies an event. */
  datatype Classification = ApiError(api: string) | ExternalServiceError(service: string) | Generic

  /**
   * A name containing "ApiError" counts for the "api" member of the data
   * (or the name itself); otherwise "ExternalServiceError" counts for the
   * "service" member (or the name). `data` is the parse of the event
   * data, empty when it does not parse.
   */
  function Classify(eventName: string, data: map<string, Json>): (r: Classification)
    ensures Contains(eventName, "ApiError") <==> r.ApiError?
    ensures r.ExternalServiceError? <==> !Contains(eventName, "ApiError") && Contains(eventName, "ExternalServiceError")
    ensures r.ApiError? ==> r.api == (if "api" in data then AsString(data["api"]) else eventName)
    ensures r.ExternalServiceError? ==>
      r.service == (if "service" in data then AsString(data["service"]) else eventName)
  {
    if Contains(eventName, "ApiError") then
      ApiError(if "api" in data then AsString(data["api"]) else eventName)
    else if Contains(eventName, "ExternalServiceError") then
      ExternalServiceError(if "service" in data then AsString(data["service"]) else eventName)
    else Generic
  }

  /** The API error counts after an event of this classification. */
  function ApiCountsAfter(counts: map<string, UInt32>, c: Classification): map<string, UInt32>
  {
    if c.ApiError? then Increment(counts, c.api) else counts
  }

  /** The external service error counts after an event of this classification. */
  function ServiceCountsAfter(counts: map<string, UInt32>, c: Classification): map<string, UInt32>
  {
    if c.ExternalServiceError? then Increment(counts, c.service) else counts
  }

  /** A name with both markers is an API error. */
  lemma ApiErrorWins(pre: string, mid: string, post: string, data: map<string, Json>)
    ensures Classify(pre + "ApiError" + mid + "ExternalServiceError" + post, data).ApiError?
    ensures Classify(pre + "ExternalServiceError" + mid + "ApiError" + post, data).ApiError?
  {
    ContainsWitness(pre, "ApiError", mid + "ExternalServiceError" + post);
    assert pre + "ApiError" + mid + "ExternalServiceError" + post == pre + "ApiError" + (mid + "ExternalServiceError" + post);
    ContainsWitness(pre + "ExternalServiceError" + mid, "ApiError", post);
  }

  /** The metric cache after one `RecordTelemetryMetric(name, value, unit)`. */
  function AddMetric(metrics: map<string, MetricData>, name: string, unit: string): (r: map<string, MetricData>)
    ensures name in r && r[name].count == Inc32(if name in metrics then metrics[name].count else 0)
    ensures forall k :: k != name ==> (k in r <==> k in metrics) && (k in metrics ==> r[k] == metrics[k])
  {
    var data := if name in metrics then metrics[name] else MetricData(0, "");
    metrics[name := MetricData(Inc32(data.count), if data.unit == "" then unit else data.unit)]
  }

  /** The unit is fixed by the first call that gave a non-empty one. */
  lemma MetricUnitIsFirstNonEmpty(metrics: map<string, MetricData>, name: string, unit: string)
    ensures name in metrics && metrics[name].unit != "" ==> AddMetric(metrics, name, unit)[name].unit == metrics[name].unit
    ensures (name !in metrics || metrics[name].unit == "") ==> AddMetric(metrics, name, unit)[name].unit == unit
  {
  }

  /** The report a flush of this state sends. */
  function FlushReport(websocketConnections: UInt32, totalCalls: UInt32, successfulCalls: UInt32, failedCalls: UInt32,
                       intervalSec: UInt32, apiErrors: map<string, UInt32>, serviceErrors: map<string, UInt32>,
                       metrics: map<string, MetricData>): (r: Report)
    ensures r.health.None? <==> totalCalls == 0 && websocketConnections == 0
    ensures r.health.Some? ==>
      r.health.value == HealthStats(websocketConnections, totalCalls, successfulCalls, failedCalls, intervalSec)
    ensures r.apiFailures.None? <==> apiErrors == map[]
    ensures r.apiFailures.Some? ==> r.apiFailures.value == apiErrors
    ensures r.serviceFailures.None? <==> serviceErrors == map[]
    ensures r.serviceFailures.Some? ==> r.serviceFailures.value == serviceErrors
    ensures forall k :: k in r.metrics <==> k in metrics && metrics[k].count > 0
    ensures forall k :: k in r.metrics ==> r.metrics[k] == metrics[k]
  {
    Report(
      if totalCalls == 0 && websocketConnections == 0 then None
      else Some(HealthStats(websocketConnections, totalCalls, successfulCalls, failedCalls, intervalSec)),
      if apiErrors == map[] then None else Some(apiErrors),
      if serviceErrors == map[] then None else Some(serviceErrors),
      map k | k in metrics && metrics[k].count > 0 :: metrics[k])
  }

  /** Every field of an `AppGatewayTelemetry`, as one value. */
  datatype TelemetryState = TelemetryState(
    initialized: bool, timerRunning: bool, reportingIntervalSec: UInt32, cacheThreshold: UInt32,
    websocketConnections: UInt32, totalCalls: UInt32, successfulCalls: UInt32, failedCalls: UInt32,
    apiErrorCounts: map<string, UInt32>, externalServiceErrorCounts: map<string, UInt32>,
    metricsCache: map<string, MetricData>, cachedEventCount: UInt32, reports: seq<Report>)

  /**
   * The state after `FlushTelemetryData`: the report of the current
   * counters is sent, then the call counters, both error maps, the metric
   * cache and the cached count are reset; the connection count, the
   * flags, the threshold and the interval stay.
   */
  function Flushed(s: TelemetryState): (r: TelemetryState)
    ensures r.reports == s.reports + [FlushReport(s.websocketConnections, s.totalCalls, s.successfulCalls,
      s.failedCalls, s.reportingIntervalSec, s.apiErrorCounts, s.externalServiceErrorCounts, s.metricsCache)]
    ensures r.totalCalls == 0 && r.successfulCalls == 0 && r.failedCalls == 0 && r.cachedEventCount == 0
    ensures r.apiErrorCounts == map[] && r.externalServiceErrorCounts == map[] && r.metricsCache == map[]
    ensures r.(reports := s.reports, totalCalls := s.totalCalls, successfulCalls := s.successfulCalls,
               failedCalls := s.failedCalls, cachedEventCount := s.cachedEventCount, apiErrorCounts := s.apiErrorCounts,
               externalServiceErrorCounts := s.externalServiceErrorCounts, metricsCache := s.metricsCache) == s
  {
    s.(reports := s.reports + [FlushReport(s.websocketConnections, s.totalCalls, s.successfulCalls, s.failedCalls,
                                           s.reportingIntervalSec, s.apiErrorCounts, s.externalServiceErrorCounts,
                                           s.metricsCache)],
       totalCalls := 0, successfulCalls := 0, failedCalls := 0,
       apiErrorCounts := map[], externalServiceErrorCounts := map[], metricsCache := map[], cachedEventCount := 0)
  }

  /**
   * The state after one more event is counted (`mCachedEventCount++`,
   * then a flush once the threshold is reached).
   */
  function EventCounted(s: TelemetryState): (r: TelemetryState)
    ensures r.cachedEventCount < r.cacheThreshold || r.cacheThreshold == 0
    ensures Inc32(s.cachedEventCount) < s.cacheThreshold ==> r == s.(cachedEventCount := Inc32(s.cachedEventCount))
    ensures Inc32(s.cachedEventCount) >= s.cacheThreshold ==> r == Flushed(s)
  {
    if Inc32(s.cachedEventCount) < s.cacheThreshold then s.(cachedEventCount := Inc32(s.cachedEventCount))
    else Flushed(s)
  }

  class AppGatewayTelemetry {
    var initialized: bool
    var timerRunning: bool
    var reportingIntervalSec: UInt32
    var cacheThreshold: UInt32
    var websocketConnections: UInt32
    var totalCalls: UInt32
    var successfulCalls: UInt32
    var failedCalls: UInt32
    var apiErrorCounts: map<string, UInt32>
    var externalServiceErrorCounts: map<string, UInt32>
    var metricsCache: map<string, MetricData>
    var cachedEventCount: UInt32
    /** Reports sent, one per flush. */
    var reports: seq<Report>

    /** The whole state, for "nothing else changes". */
    function State(): TelemetryState
      reads this
    {
      TelemetryState(initialized, timerRunning, reportingIntervalSec, cacheThreshold, websocketConnections, totalCalls,
                     successfulCalls, failedCalls, apiErrorCounts, externalServiceErrorCounts, metricsCache,
                     cachedEventCount, reports)
    }

    constructor()
      ensures !initialized && !timerRunning
      ensures reportingIntervalSec == TELEMETRY_DEFAULT_REPORTING_INTERVAL_SEC
      ensures cacheThreshold == TELEMETRY_DEFAULT_CACHE_THRESHOLD
      ensures websocketConnections == 0 && totalCalls == 0 && successfulCalls == 0 && failedCalls == 0
      ensures apiErrorCounts == map[] && externalServiceErrorCounts == map[] && metricsCache == map[]
      ensures cachedEventCount == 0 && reports == []
    {
      initialized, timerRunning := false, false;
      reportingIntervalSec := TELEMETRY_DEFAULT_REPORTING_INTERVAL_SEC;
      cacheThreshold := TELEMETRY_DEFAULT_CACHE_THRESHOLD;
      websocketConnections, totalCalls, successfulCalls, failedCalls := 0, 0, 0, 0;
      apiErrorCounts, externalServiceErrorCounts, metricsCache := map[], map[], map[];
      cachedEventCount, reports := 0, [];
    }

    /** A second `Initialize` changes nothing; the first starts the timer. */
    method Initialize()
      modifies this
      ensures old(initialized) ==> unchanged(this)
      ensures !old(initialized) ==> initialized && timerRunning
      ensures !old(initialized) ==> State() == old(State()).(initialized := true, timerRunning := true)
      ensures !old(initialized) ==> reports == old(reports) && cachedEventCount == old(cachedEventCount)
      ensures totalCalls == old(totalCalls) && apiErrorCounts == old(apiErrorCounts)
      ensures cacheThreshold == old(cacheThreshold) && metricsCache == old(metricsCache)
      ensures externalServiceErrorCounts == old(externalServiceErrorCounts)
      ensures websocketConnections == old(websocketConnections) && successfulCalls == old(successfulCalls)
      ensures failedCalls == old(failedCalls) && reportingIntervalSec == old(reportingIntervalSec)
    {
      if initialized {
        return;
      }
      if !timerRunning {
        timerRunning := true;
      }
      initialized := true;
    }

    /**
     * `FlushTelemetryData`: send the report, then zero the call counters
     * (not the open connections), clear the error maps and metric cache
     * and the cached count.
     */
    method FlushTelemetryData()
      modifies this
      ensures reports == old(reports) + [FlushReport(old(websocketConnections), old(totalCalls), old(successfulCalls),
        old(failedCalls), old(reportingIntervalSec), old(apiErrorCounts), old(externalServiceErrorCounts), old(metricsCache))]
      ensures totalCalls == 0 && successfulCalls == 0 && failedCalls == 0
      ensures apiErrorCounts == map[] && externalServiceErrorCounts == map[] && metricsCache == map[]
      ensures cachedEventCount == 0
      ensures websocketConnections == old(websocketConnections)
      ensures initialized == old(initialized) && timerRunning == old(timerRunning)
      ensures cacheThreshold == old(cacheThreshold) && reportingIntervalSec == old(reportingIntervalSec)
      ensures State() == Flushed(old(State()))
    {
      var report := FlushReport(websocketConnections, totalCalls, successfulCalls, failedCalls,
                                reportingIntervalSec, apiErrorCounts, externalServiceErrorCounts, metricsCache);
      reports := reports + [report];
      totalCalls, successfulCalls, failedCalls := 0, 0, 0;
      apiErrorCounts, externalServiceErrorCounts := map[], map[];
      metricsCache := map[];
      cachedEventCount := 0;
    }

    /** `Deinitialize`: a no-op unless initialized; otherwise stop the timer and flush. */
    method Deinitialize()
      modifies this
      ensures !initialized
      ensures !old(initialized) ==> unchanged(this)
      ensures old(initialized) ==>
        !timerRunning && cachedEventCount == 0 && totalCalls == 0 && successfulCalls == 0 && failedCalls == 0
        && apiErrorCounts == map[] && externalServiceErrorCounts == map[] && metricsCache == map[]
        && reports == old(reports) + [FlushReport(old(websocketConnections), old(totalCalls), old(successfulCalls),
             old(failedCalls), old(reportingIntervalSec), old(apiErrorCounts), old(externalServiceErrorCounts),
             old(metricsCache))]
        && websocketConnections == old(websocketConnections)
        && cacheThreshold == old(cacheThreshold) && reportingIntervalSec == old(reportingIntervalSec)
      ensures old(initialized) ==> State() == Flushed(old(State())).(timerRunning := false, initialized := false)
    {
      if !initialized {
        return;
      }
      if timerRunning {
        timerRunning := false;
      }
      FlushTelemetryData();
      initialized := false;
    }

    method IncrementWebSocketConnections()
      modifies this
      ensures websocketConnections == Inc32(old(websocketConnections))
      ensures State() == old(State()).(websocketConnections := Inc32(old(websocketConnections)))
    {
      websocketConnections := Inc32(websocketConnections);
    }

    /** Never goes below zero. */
    method DecrementWebSocketConnections()
      modifies this
      ensures websocketConnections == if old(websocketConnections) > 0 then old(websocketConnections) - 1 else 0
      ensures State() == old(State()).(websocketConnections := websocketConnections)
    {
      if websocketConnections > 0 {
        websocketConnections := websocketConnections - 1;
      }
    }

    method IncrementTotalCalls()
      modifies this
      ensures totalCalls == Inc32(old(totalCalls))
      ensures State() == old(State()).(totalCalls := Inc32(old(totalCalls)))
    {
      totalCalls := Inc32(totalCalls);
    }

    method IncrementSuccessfulCalls()
      modifies this
      ensures successfulCalls == Inc32(old(successfulCalls))
      ensures State() == old(State()).(successfulCalls := Inc32(old(successfulCalls)))
    {
      successfulCalls := Inc32(successfulCalls);
    }

    method IncrementFailedCalls()
      modifies this
      ensures failedCalls == Inc32(old(failedCalls))
      ensures State() == old(State()).(failedCalls := Inc32(old(failedCalls)))
    {
      failedCalls := Inc32(failedCalls);
    }

    method SetCacheThreshold(threshold: UInt32)
      modifies this
      ensures cacheThreshold == threshold && cachedEventCount == old(cachedEventCount)
      ensures State() == old(State()).(cacheThreshold := threshold)
    {
      cacheThreshold := threshold;
    }

    /** Counts one more event and flushes once the threshold is reached. */
    method CountEvent()
      modifies this
      ensures cachedEventCount < cacheThreshold || cacheThreshold == 0
      ensures Inc32(old(cachedEventCount)) < cacheThreshold ==>
        cachedEventCount == Inc32(old(cachedEventCount)) && reports == old(reports)
        && apiErrorCounts == old(apiErrorCounts) && externalServiceErrorCounts == old(externalServiceErrorCounts)
        && metricsCache == old(metricsCache) && totalCalls == old(totalCalls)
      ensures Inc32(old(cachedEventCount)) >= cacheThreshold ==>
        cachedEventCount == 0 && apiErrorCounts == map[] && externalServiceErrorCounts == map[] && metricsCache == map[]
        && reports == old(reports) + [FlushReport(old(websocketConnections), old(totalCalls), old(successfulCalls),
             old(failedCalls), old(reportingIntervalSec), old(apiErrorCounts), old(externalServiceErrorCounts),
             old(metricsCache))]
      ensures initialized == old(initialized) && cacheThreshold == old(cacheThreshold)
      ensures State() == EventCounted(old(State()))
    {
      cachedEventCount := Inc32(cachedEventCount);
      if cachedEventCount >= cacheThreshold {
        FlushTelemetryData();
      }
    }

    /**
     * `RecordTelemetryEvent`: `data` is the parse of the event data
     * (empty when it does not parse).
     */
    method RecordTelemetryEvent(eventName: string, data: map<string, Json>) returns (r: HResult)
      modifies this
      ensures !old(initialized) ==> r == ERROR_UNAVAILABLE && unchanged(this)
      ensures old(initialized) ==> r == ERROR_NONE && initialized
      ensures old(initialized) && Inc32(old(cachedEventCount)) < cacheThreshold ==>
        cachedEventCount == Inc32(old(cachedEventCount)) && reports == old(reports)
        && match Classify(eventName, data)
           case ApiError(api) =>
             apiErrorCounts == Increment(old(apiErrorCounts), api)
             && externalServiceErrorCounts == old(externalServiceErrorCounts)
           case ExternalServiceError(service) =>
             apiErrorCounts == old(apiErrorCounts)
             && externalServiceErrorCounts == Increment(old(externalServiceErrorCounts), service)
           case Generic =>
             apiErrorCounts == old(apiErrorCounts) && externalServiceErrorCounts == old(externalServiceErrorCounts)
      ensures old(initialized) && Inc32(old(cachedEventCount)) >= cacheThreshold ==>
        cachedEventCount == 0 && apiErrorCounts == map[] && externalServiceErrorCounts == map[] && metricsCache == map[]
        && reports == old(reports) + [FlushReport(old(websocketConnections), old(totalCalls), old(successfulCalls),
             old(failedCalls), old(reportingIntervalSec),
             ApiCountsAfter(old(apiErrorCounts), Classify(eventName, data)),
             ServiceCountsAfter(old(externalServiceErrorCounts), Classify(eventName, data)), old(metricsCache))]
      ensures old(initialized) ==>
        State() == EventCounted(old(State()).(
          apiErrorCounts := ApiCountsAfter(old(apiErrorCounts), Classify(eventName, data)),
          externalServiceErrorCounts := ServiceCountsAfter(old(externalServiceErrorCounts), Classify(eventName, data))))
    {
      if !initialized {
        return ERROR_UNAVAILABLE;
      }
      match Classify(eventName, data) {
        case ApiError(api) =>
          apiErrorCounts := Increment(apiErrorCounts, api);
        case ExternalServiceError(service) =>
          externalServiceErrorCounts := Increment(externalServiceErrorCounts, service);
        case Generic =>
      }
      CountEvent();
      return ERROR_NONE;
    }

    method RecordTelemetryMetric(metricName: string, metricUnit: string) returns (r: HResult)
      modifies this
      ensures !old(initialized) ==> r == ERROR_UNAVAILABLE && unchanged(this)
      ensures old(initialized) ==> r == ERROR_NONE && initialized
      ensures old(initialized) && Inc32(old(cachedEventCount)) < cacheThreshold ==>
        cachedEventCount == Inc32(old(cachedEventCount)) && reports == old(reports)
        && metricsCache == AddMetric(old(metricsCache), metricName, metricUnit)
      ensures old(initialized) && Inc32(old(cachedEventCount)) >= cacheThreshold ==>
        cachedEventCount == 0 && metricsCache == map[] && apiErrorCounts == map[] && externalServiceErrorCounts == map[]
        && reports == old(reports) + [FlushReport(old(websocketConnections), old(totalCalls), old(successfulCalls),
             old(failedCalls), old(reportingIntervalSec), old(apiErrorCounts), old(externalServiceErrorCounts),
             AddMetric(old(metricsCache), metricName, metricUnit))]
        && (AddMetric(old(metricsCache), metricName, metricUnit)[metricName].count > 0 ==>
              metricName in reports[|reports| - 1].metrics
              && reports[|reports| - 1].metrics[metricName] == AddMetric(old(metricsCache), metricName, metricUnit)[metricName])
      ensures old(initialized) ==>
        State() == EventCounted(old(State()).(metricsCache := AddMetric(old(metricsCache), metricName, metricUnit)))
    {
      if !initialized {
        return ERROR_UNAVAILABLE;
      }
      metricsCache := AddMetric(metricsCache, metricName, metricUnit);
      CountEvent();
      return ERROR_NONE;
    }

    /** The timer flushes and keeps running while initialized. */
    method OnTimerExpired()
      modifies this
      ensures reports == old(reports) + [FlushReport(old(websocketConnections), old(totalCalls), old(successfulCalls),
        old(failedCalls), old(reportingIntervalSec), old(apiErrorCounts), old(externalServiceErrorCounts), old(metricsCache))]
      ensures totalCalls == 0 && successfulCalls == 0 && failedCalls == 0
      ensures apiErrorCounts == map[] && externalServiceErrorCounts == map[] && metricsCache == map[]
      ensures cachedEventCount == 0 && websocketConnections == old(websocketConnections)
      ensures timerRunning == old(timerRunning) && initialized == old(initialized)
      ensures cacheThreshold == old(cacheThreshold) && reportingIntervalSec == old(reportingIntervalSec)
      ensures State() == Flushed(old(State()))
    {
      FlushTelemetryData();
    }
  }
}
