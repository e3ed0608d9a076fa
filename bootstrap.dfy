/**
 * The boot-time reachability gate of the system app: probe the app URL,
 * load it when it answers, otherwise try again after a back-off interval
 * that starts at one second and grows by one second up to five.
 *
 * The network probe is an outcome supplied by the caller, and the timer
 * re-invocation is returned as a value: a chain of invocations is the
 * list of delays it schedules.
 */
module SystemAppBootstrap {
  import opened Core

  const START_INTERVAL := 1000
  const INTERVAL_INCREASE := 1000
  const MAX_INTERVAL := 5000

  /** What the HEAD request did: answered with `response.ok`, or threw. */
  datatype FetchOutcome = Responded(ok: bool) | FetchThrew

  /** The JavaScript value `checkUrlBeforeLoading` resolves to. */
  datatype ProbeResult = True | False | Undefined

  predicate Truthy(r: ProbeResult) { r == True }

  /** `checkUrlBeforeLoading`: never rejects; a thrown fetch resolves to undefined. */
  function CheckUrlBeforeLoading(o: FetchOutcome): (r: ProbeResult)
    ensures r == True <==> o == Responded(true)
    ensures r == False <==> o == Responded(false)
    ensures r == Undefined <==> o == FetchThrew
  {
    match o
    case Responded(ok) => if ok then True else False
    case FetchThrew => Undefined
  }

  /**
   * The interval after a failed probe. `None` is an absent argument;
   * like it, 0 is falsy. Any other value, negative ones included, is
   * truthy and is increased and capped.
   */
  function NextInterval(interval: Option<int>): int
  {
    if interval.Some? && interval.value != 0 then Min(interval.value + INTERVAL_INCREASE, MAX_INTERVAL)
    else START_INTERVAL
  }

  lemma NextIntervalFalsy(interval: Option<int>)
    requires interval == None || interval == Some(0)
    ensures NextInterval(interval) == 1000
  {
  }

  lemma NextIntervalFixedPoint()
    ensures NextInterval(Some(MAX_INTERVAL)) == MAX_INTERVAL
  {
  }

  /** From any interval already in range the update stays in range and never shrinks. */
  lemma NextIntervalMonotone(prev: int)
    requires START_INTERVAL <= prev <= MAX_INTERVAL
    ensures prev <= NextInterval(Some(prev)) <= MAX_INTERVAL
    ensures prev + INTERVAL_INCREASE <= MAX_INTERVAL ==> NextInterval(Some(prev)) == prev + INTERVAL_INCREASE
  {
  }

  /** One invocation's effect: navigate, or schedule the next invocation. */
  datatype Step =
    | Redirect(href: string)
    | Retry(url: string, delay: int, nextInterval: int, logSeconds: real)

  /** `systemAppBootstrap(url, interval)` with the probe's outcome given. */
  method Bootstrap(url: string, interval: Option<int>, outcome: FetchOutcome) returns (step: Step)
    ensures outcome == Responded(true) ==> step == Redirect(url)
    ensures outcome != Responded(true) ==>
      step.Retry? && step.url == url && step.delay == NextInterval(interval)
      && step.nextInterval == step.delay && step.logSeconds == step.delay as real / 1000.0
  {
    var ready := CheckUrlBeforeLoading(outcome);
    if Truthy(ready) {
      return Redirect(url);
    }
    var iv: int;
    if interval.Some? && interval.value != 0 {
      iv := interval.value;
      iv := iv + INTERVAL_INCREASE;
      iv := Min(iv, MAX_INTERVAL);
    } else {
      iv := START_INTERVAL;
    }
    step := Retry(url, iv, iv, iv as real / 1000.0);
  }

  /** The delays a chain of invocations schedules, and whether it navigated. */
  datatype Trace = Trace(delays: seq<int>, redirected: bool)

  /**
   * The chain started by `systemAppBootstrap(url, interval)` when the
   * successive probes have the given outcomes. It ends at the first
   * success, or is still waiting when the outcomes run out.
   */
  function Chain(outcomes: seq<FetchOutcome>, interval: Option<int>): (r: Trace)
    ensures |r.delays| <= |outcomes|
    ensures forall i :: 0 <= i < |r.delays| ==> outcomes[i] != Responded(true)
    ensures r.redirected ==> |r.delays| < |outcomes| && outcomes[|r.delays|] == Responded(true)
    ensures !r.redirected ==> |r.delays| == |outcomes|
    decreases |outcomes|
  {
    if outcomes == [] then Trace([], false)
    else if Truthy(CheckUrlBeforeLoading(outcomes[0])) then Trace([], true)
    else
      var next := NextInterval(interval);
      var rest := Chain(outcomes[1..], Some(next));
      Trace([next] + rest.delays, rest.redirected)
  }

  /** The chain navigates iff some probe succeeds. */
  lemma ChainRedirectsIffSomeSuccess(outcomes: seq<FetchOutcome>, interval: Option<int>)
    ensures Chain(outcomes, interval).redirected <==> exists i :: 0 <= i < |outcomes| && outcomes[i] == Responded(true)
  {
    var r := Chain(outcomes, interval);
    if r.redirected {
      assert outcomes[|r.delays|] == Responded(true);
    }
  }

  /** The interval held after `k` failures from an absent interval. */
  function IntervalAfter(k: nat): Option<int>
  {
    if k == 0 then None else Some(Min(1000 * k, MAX_INTERVAL))
  }

  lemma NextIntervalAfter(k: nat)
    ensures NextInterval(IntervalAfter(k)) == Min(1000 * (k + 1), MAX_INTERVAL)
  {
  }

  /** Each delay of `d` is min(1000·(k+i+1), 5000): the delays after `k` earlier failures. */
  predicate DelaysAfter(d: seq<int>, k: nat)
  {
    forall i :: 0 <= i < |d| ==> d[i] == Min(1000 * (k + i + 1), MAX_INTERVAL)
  }

  lemma {:induction false} ChainDelaysClosedForm(outcomes: seq<FetchOutcome>, k: nat)
    ensures DelaysAfter(Chain(outcomes, IntervalAfter(k)).delays, k)
    decreases |outcomes|
  {
    if outcomes != [] && !Truthy(CheckUrlBeforeLoading(outcomes[0])) {
      NextIntervalAfter(k);
      assert IntervalAfter(k + 1) == Some(NextInterval(IntervalAfter(k)));
      ChainDelaysClosedForm(outcomes[1..], k + 1);
      var d := Chain(outcomes, IntervalAfter(k)).delays;
      var rest := Chain(outcomes[1..], IntervalAfter(k + 1)).delays;
      assert d == [NextInterval(IntervalAfter(k))] + rest;
      forall i | 0 <= i < |d| ensures d[i] == Min(1000 * (k + i + 1), MAX_INTERVAL) {
        if i > 0 {
          assert d[i] == rest[i - 1];
          assert (k + 1) + (i - 1) + 1 == k + i + 1;
        }
      }
    }
  }

  /**
   * From an absent interval the delays are 1000, 2000, 3000, 4000, 5000,
   * 5000, …: bounded by [1000, 5000] and non-decreasing.
   */
  lemma ChainDelaysFromStart(outcomes: seq<FetchOutcome>)
    ensures var d := Chain(outcomes, None).delays;
      (forall i :: 0 <= i < |d| ==> d[i] == Min(1000 * (i + 1), MAX_INTERVAL))
      && (forall i :: 0 <= i < |d| ==> START_INTERVAL <= d[i] <= MAX_INTERVAL)
      && (forall i, j :: 0 <= i <= j < |d| ==> d[i] <= d[j])
  {
    ChainDelaysClosedForm(outcomes, 0);
  }
}
