/**
 * TelemetryImplementation: the notification list, validation of the
 * report-profile status, application events, the power-mode rule that
 * queues report upload or abort, the upload-status event, and the quote
 * escaping applied to the default report profiles.
 *
 * RFC writes and T2 sends are oracles or recorded outputs; jobs
 * submitted to the worker pool are recorded in order.
 */
module TelemetryImplementation {
  import opened Core

  /** `IPowerManager` power states. */
  datatype PowerState =
    | POWER_STATE_UNKNOWN | POWER_STATE_OFF | POWER_STATE_STANDBY | POWER_STATE_ON
    | POWER_STATE_STANDBY_LIGHT_SLEEP | POWER_STATE_STANDBY_DEEP_SLEEP

  datatype Event =
    | TELEMETRY_EVENT_UPLOADREPORT
    | TELEMETRY_EVENT_ABORTREPORT
    | TELEMETRY_EVENT_ONREPORTUPLOAD(telemetryUploadStatus: string)

  /**
   * The value `SetReportProfileStatus` writes to the default-profile RFC
   * parameter: "true" for COMPLETE, "false" for STARTED, nothing otherwise.
   */
  function ReportProfileValue(status: string): (r: Option<string>)
    ensures r.Some? <==> status == "STARTED" || status == "COMPLETE"
    ensures r == Some("true") <==> status == "COMPLETE"
    ensures r == Some("false") <==> status == "STARTED"
  {
    if status == "COMPLETE" then Some("true")
    else if status == "STARTED" then Some("false")
    else None
  }

  /**
   * `onPowerModeChanged`: an upload only when leaving ON for standby or
   * light sleep; an abort on entering deep sleep from anywhere.
   */
  function PowerModeJobs(currentState: PowerState, newState: PowerState): (r: seq<Event>)
    ensures r == [TELEMETRY_EVENT_UPLOADREPORT] <==>
      currentState == POWER_STATE_ON && (newState == POWER_STATE_STANDBY || newState == POWER_STATE_STANDBY_LIGHT_SLEEP)
    ensures r == [TELEMETRY_EVENT_ABORTREPORT] <==> newState == POWER_STATE_STANDBY_DEEP_SLEEP
    ensures |r| <= 1
  {
    if newState == POWER_STATE_STANDBY || newState == POWER_STATE_STANDBY_LIGHT_SLEEP then
      if currentState == POWER_STATE_ON then [TELEMETRY_EVENT_UPLOADREPORT] else []
    else if newState == POWER_STATE_STANDBY_DEEP_SLEEP then [TELEMETRY_EVENT_ABORTREPORT]
    else []
  }

  /** `onReportUploadStatus`: "SUCCESS" and every other status. */
  function UploadStatus(status: string): (r: string)
    ensures r == "UPLOAD_SUCCESS" <==> status == "SUCCESS"
    ensures r != "UPLOAD_SUCCESS" ==> r == "UPLOAD_FAILURE"
  {
    if status == "SUCCESS" then "UPLOAD_SUCCESS" else "UPLOAD_FAILURE"
  }

  /** The profile text with a backslash before every double quote. */
  function Escaped(s: string): (r: string)
    ensures |r| == |s| + Quotes(s)
    decreases |s|
  {
    if s == [] then []
    else Escaped(s[..|s| - 1]) + (if s[|s| - 1] == '"' then "\\\"" else [s[|s| - 1]])
  }

  /** The number of double quotes in `s`. */
  function Quotes(s: string): nat
    decreases |s|
  {
    if s == [] then 0 else Quotes(s[..|s| - 1]) + (if s[|s| - 1] == '"' then 1 else 0)
  }

  /** Removing one backslash before each quote (and only there). */
  function Unescaped(s: string): string
    decreases |s|
  {
    if |s| >= 2 && s[0] == '\\' && s[1] == '"' then "\"" + Unescaped(s[2..])
    else if s == [] then [] else [s[0]] + Unescaped(s[1..])
  }

  /** Escaping computed from the front, the order the byte loop writes. */
  lemma {:induction false} EscapedCons(c: char, s: string)
    ensures Escaped([c] + s) == (if c == '"' then "\\\"" else [c]) + Escaped(s)
    decreases |s|
  {
    if s != [] {
      var t := [c] + s;
      assert t[..|t| - 1] == [c] + s[..|s| - 1];
      EscapedCons(c, s[..|s| - 1]);
    } else {
      assert [c][..0] == [];
    }
  }

  /** Escaping loses nothing: unescaping gives the profile back. */
  lemma {:induction false} EscapeRoundTrip(s: string)
    ensures Unescaped(Escaped(s)) == s
    decreases |s|
  {
    if s != [] {
      var c, t := s[0], s[1..];
      var e := Escaped(t);
      assert [c] + t == s;
      assert Unescaped(e) == t by {
        EscapeRoundTrip(t);
      }
      if c == '"' {
        var x := "\\\"" + e;
        assert Escaped(s) == x by {
          EscapedCons(c, t);
        }
        assert |x| >= 2 && x[0] == '\\' && x[1] == '"' && x[2..] == e;
        assert "\"" + t == s;
      } else {
        var x := [c] + e;
        assert Escaped(s) == x by {
          EscapedCons(c, t);
        }
        assert e != [] ==> e[0] != '"' by {
          if t != [] {
            EscapedCons(t[0], t[1..]);
            assert [t[0]] + t[1..] == t;
          }
        }
        assert x[1..] == e;
      }
    }
  }

  /** The escaping loop of `setRFCReportProfiles`. */
  method EscapeQuotes(profile: string) returns (out: string)
    ensures out == Escaped(profile)
    ensures |out| == |profile| + Quotes(profile)
  {
    out := [];
    for n := 0 to |profile|
      invariant out == Escaped(profile[..n])
    {
      var ch := profile[n];
      assert profile[..n + 1][..n] == profile[..n];
      if ch == '"' {
        out := out + "\\";
      }
      out := out + [ch];
    }
    assert profile[..|profile|] == profile;
  }

  class TelemetryImplementation {
    /** `_telemetryNotification`: registered callbacks, by identity. */
    var notifications: seq<nat>
    /** Jobs submitted to the worker pool. */
    var jobs: seq<Event>
    /** T2 messages sent by `LogApplicationEvent`. */
    var sent: seq<(string, string)>

    /** No callback is registered twice. */
    ghost predicate Valid()
      reads this
    {
      forall i, j :: 0 <= i < j < |notifications| ==> notifications[i] != notifications[j]
    }

    constructor()
      ensures Valid() && notifications == [] && jobs == [] && sent == []
    {
      notifications, jobs, sent := [], [], [];
    }

    method Register(notification: nat) returns (r: HResult)
      requires Valid()
      modifies this
      ensures Valid() && r == ERROR_NONE
      ensures notification in old(notifications) ==> notifications == old(notifications)
      ensures notification !in old(notifications) ==> notifications == old(notifications) + [notification]
      ensures jobs == old(jobs) && sent == old(sent)
    {
      if notification !in notifications {
        notifications := notifications + [notification];
      }
      return ERROR_NONE;
    }

    method Unregister(notification: nat) returns (r: HResult)
      requires Valid()
      modifies this
      ensures Valid()
      ensures notification !in old(notifications) ==> r == ERROR_GENERAL && notifications == old(notifications)
      ensures notification in old(notifications) ==> r == ERROR_NONE && notification !in notifications
      ensures notification in old(notifications) ==>
        exists i :: 0 <= i < |old(notifications)| && old(notifications)[i] == notification
          && notifications == old(notifications)[..i] + old(notifications)[i + 1..]
      ensures jobs == old(jobs) && sent == old(sent)
    {
      var i := 0;
      while i < |notifications|
        invariant 0 <= i <= |notifications|
        invariant forall j :: 0 <= j < i ==> notifications[j] != notification
      {
        if notifications[i] == notification {
          assert forall j :: i < j < |notifications| ==> notifications[j] != notification;
          notifications := notifications[..i] + notifications[i + 1..];
          return ERROR_NONE;
        }
        i := i + 1;
      }
      return ERROR_GENERAL;
    }

    /** `SetReportProfileStatus`: `setRfc(value)` is whether the RFC write succeeded. */
    method SetReportProfileStatus(status: string, setRfc: string -> bool) returns (r: HResult)
      ensures status == "" ==> r == ERROR_GENERAL
      ensures ReportProfileValue(status).None? ==> r == ERROR_GENERAL
      ensures ReportProfileValue(status).Some? ==> (r == ERROR_NONE <==> setRfc(ReportProfileValue(status).value))
      ensures r != ERROR_NONE ==> r == ERROR_GENERAL
    {
      if status != "" {
        if status != "STARTED" && status != "COMPLETE" {
          return ERROR_GENERAL;
        }
        var ok := setRfc(if status == "COMPLETE" then "true" else "false");
        if !ok {
          return ERROR_GENERAL;
        }
        return ERROR_NONE;
      }
      return ERROR_GENERAL;
    }

    method LogApplicationEvent(eventName: string, eventValue: string) returns (r: HResult)
      modifies this
      ensures eventName == "" || eventValue == "" ==> r == ERROR_GENERAL && sent == old(sent)
      ensures eventName != "" && eventValue != "" ==> r == ERROR_NONE && sent == old(sent) + [(eventName, eventValue)]
      ensures jobs == old(jobs) && notifications == old(notifications)
    {
      if eventName == "" || eventValue == "" {
        return ERROR_GENERAL;
      }
      sent := sent + [(eventName, eventValue)];
      return ERROR_NONE;
    }

    method OnPowerModeChanged(currentState: PowerState, newState: PowerState)
      modifies this
      ensures jobs == old(jobs) + PowerModeJobs(currentState, newState)
      ensures sent == old(sent) && notifications == old(notifications)
    {
      if newState == POWER_STATE_STANDBY || newState == POWER_STATE_STANDBY_LIGHT_SLEEP {
        if currentState == POWER_STATE_ON {
          jobs := jobs + [TELEMETRY_EVENT_UPLOADREPORT];
        }
      } else if newState == POWER_STATE_STANDBY_DEEP_SLEEP {
        jobs := jobs + [TELEMETRY_EVENT_ABORTREPORT];
      }
    }

    method OnReportUploadStatus(status: string)
      modifies this
      ensures jobs == old(jobs) + [TELEMETRY_EVENT_ONREPORTUPLOAD(UploadStatus(status))]
      ensures sent == old(sent) && notifications == old(notifications)
    {
      var s := if status == "SUCCESS" then "UPLOAD_SUCCESS" else "UPLOAD_FAILURE";
      jobs := jobs + [TELEMETRY_EVENT_ONREPORTUPLOAD(s)];
    }
  }
}
