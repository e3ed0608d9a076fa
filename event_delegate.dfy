/**
 * `BaseEventDelegate`: the set of event names an app has subscribed to,
 * kept lower-cased so that registration and lookup ignore case, and the
 * dispatch of a registered event as a job for the worker pool.
 *
 * Jobs submitted to the worker pool are recorded in order; running them
 * is `DispatchToAppNotifications`, whose `Emit` call is an input.
 */
module EventDelegate {
  import opened Core
  import opened Text

  /** Whether `event` is registered in `s`, in any case. */
  predicate Registered(s: set<string>, event: string)
  {
    Lower(event) in s
  }

  /** The registered set after `AddNotification(event)`. */
  function WithNotification(s: set<string>, event: string): set<string>
  {
    s + {Lower(event)}
  }

  /** The registered set after `RemoveNotification(event)`. */
  function WithoutNotification(s: set<string>, event: string): set<string>
  {
    s - {Lower(event)}
  }

  /** Once added, the event is registered under every spelling that differs only in case. */
  lemma AddRegistersEveryCasing(s: set<string>, event: string, other: string)
    requires EqualIgnoringCase(event, other)
    ensures Registered(WithNotification(s, event), other)
  {
    EqualIgnoringCaseIsLowerEquality(event, other);
  }

  /** Adding is idempotent. */
  lemma AddTwice(s: set<string>, event: string)
    ensures WithNotification(WithNotification(s, event), event) == WithNotification(s, event)
  {
  }

  /** Adding an event registers nothing else. */
  lemma AddOnlyThat(s: set<string>, event: string, other: string)
    requires !EqualIgnoringCase(event, other)
    ensures Registered(WithNotification(s, event), other) == Registered(s, other)
  {
    EqualIgnoringCaseIsLowerEquality(event, other);
  }

  /** After removal the event is registered in no casing; other events keep their status. */
  lemma RemoveEveryCasing(s: set<string>, event: string, other: string)
    ensures EqualIgnoringCase(event, other) ==> !Registered(WithoutNotification(s, event), other)
    ensures !EqualIgnoringCase(event, other) ==>
      Registered(WithoutNotification(s, event), other) == Registered(s, other)
  {
    EqualIgnoringCaseIsLowerEquality(event, other);
  }

  /** The jobs one `Dispatch` submits. */
  function DispatchJobs(s: set<string>, event: string, payload: string): seq<(string, string)>
  {
    if Registered(s, event) then [(event, payload)] else []
  }

  class BaseEventDelegate {
    var registered: set<string>
    var submitted: seq<(string, string)>

    /** Every registered name is stored lower-cased. */
    ghost predicate Valid()
      reads this
    {
      forall e :: e in registered ==> Lower(e) == e
    }

    constructor()
      ensures Valid() && registered == {} && submitted == []
    {
      registered, submitted := {}, [];
    }

    method AddNotification(event: string)
      requires Valid()
      modifies this
      ensures Valid()
      ensures registered == WithNotification(old(registered), event) && submitted == old(submitted)
    {
      var eventLower := Lower(event);
      LowerIdempotent(event);
      registered := registered + {eventLower};
    }

    method IsNotificationRegistered(event: string) returns (r: bool)
      ensures r == Registered(registered, event)
    {
      var eventLower := Lower(event);
      r := eventLower in registered;
    }

    method RemoveNotification(event: string)
      requires Valid()
      modifies this
      ensures Valid()
      ensures registered == WithoutNotification(old(registered), event) && submitted == old(submitted)
    {
      var eventLower := Lower(event);
      registered := registered - {eventLower};
    }

    /** `Dispatch`: an unregistered event is refused; a registered one becomes one job. */
    method Dispatch(event: string, payload: string) returns (r: bool)
      modifies this
      ensures r == Registered(old(registered), event)
      ensures registered == old(registered)
      ensures submitted == old(submitted) + DispatchJobs(old(registered), event, payload)
    {
      var isRegistered := IsNotificationRegistered(event);
      if !isRegistered {
        return false;
      }
      submitted := submitted + [(event, payload)];
      return true;
    }

    /** `DispatchToAppNotifications`: `emit(event, payload, appId)` is the `Emit` call. */
    method DispatchToAppNotifications(event: string, payload: string, emit: (string, string, string) -> HResult)
      returns (r: bool)
      ensures r <==> emit(event, payload, "") == ERROR_NONE
    {
      var result := emit(event, payload, "");
      r := result == ERROR_NONE;
    }
  }
}
