/**
 * ResourceManagerImplementation built with the Essos resource manager
 * (ERM): the RFC switches for the AV blacklist and TTS reservation, the
 * blacklist table, and the TTS access-list reservation.
 *
 * The RFC store, the ERM calls and the TextToSpeech `setACL` call are
 * inputs. The build without ERM is not modelled.
 */
module ResourceManager {
  import opened Core
  import opened Text
  import opened JsonTree

  /** An RFC parameter as read: whether its type is boolean, and its text. */
  datatype RfcParam = RfcParam(isBoolean: bool, value: string)

  /** `strncasecmp(value, "false", 5) == 0`. */
  predicate StartsWithFalse(value: string)
  {
    |value| >= 5 && Lower(value[..5]) == "false"
  }

  /**
   * The feature is disabled when the RFC cannot be read, or when it is a
   * boolean whose text starts with "false" in any casing; a readable
   * non-boolean parameter enables it.
   */
  function RfcDisables(rfc: Option<RfcParam>): (disabled: bool)
    ensures rfc.None? ==> disabled
    ensures rfc.Some? && !rfc.value.isBoolean ==> !disabled
    ensures rfc.Some? && rfc.value.isBoolean ==> (disabled <==> StartsWithFalse(rfc.value.value))
  {
    match rfc
    case None => true
    case Some(p) => p.isBoolean && StartsWithFalse(p.value)
  }

  lemma RfcExamples()
    ensures RfcDisables(Some(RfcParam(true, "FALSE")))
    ensures RfcDisables(Some(RfcParam(true, "falsely")))
    ensures !RfcDisables(Some(RfcParam(true, "true")))
    ensures !RfcDisables(Some(RfcParam(true, "fals")))
    ensures !RfcDisables(Some(RfcParam(false, "false")))
  {
    assert "FALSE"[..5] == "FALSE";
    assert Lower("FALSE") == "false";
    assert "falsely"[..5] == "false";
    LowerNoUpper("false");
  }

  /** The `setACL` parameters: one `speak` entry granting `apps`. */
  function AccessList(apps: seq<string>): (r: Json)
    ensures Get(r, "accesslist") == JArr([JObj(map["method" := JStr("speak"), "apps" := JArr(Strings(apps))])])
  {
    JObj(map["accesslist" := JArr([JObj(map["method" := JStr("speak"), "apps" := JArr(Strings(apps))])])])
  }

  /** What `setACL` answered: its result code and result object. */
  datatype TtsAnswer = TtsAnswer(code: HResult, result: Json)

  /** The call succeeded and the response carries `success: true`. */
  predicate Granted(answer: TtsAnswer)
  {
    answer.code == ERROR_NONE && HasLabel(answer.result, "success") && Get(answer.result, "success") == JBool(true)
  }

  /** The blocked applications of a blacklist table. */
  function Blocked(table: map<string, bool>): set<string>
  {
    set k | k in table && table[k]
  }

  /** Blocking adds exactly that application to the blocked list, unblocking removes exactly it. */
  lemma BlockedAfterSet(table: map<string, bool>, appId: string, blocked: bool)
    ensures blocked ==> Blocked(table[appId := blocked]) == Blocked(table) + {appId}
    ensures !blocked ==> Blocked(table[appId := blocked]) == Blocked(table) - {appId}
  {
  }

  /** Any order of exactly the blocked applications, each once. */
  predicate ListsBlocked(list: seq<string>, table: map<string, bool>)
  {
    (forall i, j :: 0 <= i < j < |list| ==> list[i] != list[j])
    && (forall i :: 0 <= i < |list| ==> list[i] in Blocked(table))
    && (forall k :: k in Blocked(table) ==> k in list)
  }

  class ResourceManagerImplementation {
    /** `mEssRMgr != nullptr`. */
    const ermPresent: bool
    const disableBlacklist: bool
    const disableReserveTTS: bool
    /** `_service != nullptr`. */
    const servicePresent: bool
    /** `mAppsAVBlacklistStatus`. */
    var blacklist: map<string, bool>

    constructor(ermCreated: bool, blacklistRfc: Option<RfcParam>, reserveTtsRfc: Option<RfcParam>, servicePresent: bool)
      ensures ermPresent == ermCreated && this.servicePresent == servicePresent
      ensures disableBlacklist == RfcDisables(blacklistRfc) && disableReserveTTS == RfcDisables(reserveTtsRfc)
      ensures blacklist == map[]
    {
      ermPresent := ermCreated;
      this.servicePresent := servicePresent;
      disableBlacklist := RfcDisables(blacklistRfc);
      disableReserveTTS := RfcDisables(reserveTtsRfc);
      blacklist := map[];
    }

    /** `ermOk` is what the ERM add or remove returns. */
    method SetAVBlocked(appId: string, blocked: bool, ermOk: bool) returns (r: HResult, success: bool)
      modifies this
      ensures !ermPresent || disableBlacklist ==> r == ERROR_UNAVAILABLE && !success && blacklist == old(blacklist)
      ensures ermPresent && !disableBlacklist && !ermOk ==> r == ERROR_GENERAL && !success && blacklist == old(blacklist)
      ensures ermPresent && !disableBlacklist && ermOk ==> r == ERROR_NONE && success && blacklist == old(blacklist)[appId := blocked]
    {
      success := false;
      if ermPresent && !disableBlacklist {
        if ermOk {
          blacklist := blacklist[appId := blocked];
          r, success := ERROR_NONE, true;
        } else {
          r := ERROR_GENERAL;
        }
      } else {
        r := ERROR_UNAVAILABLE;
      }
    }

    /** The walk over the table collecting the blocked applications. */
    method GetBlockedAVApplications() returns (r: HResult, clients: Option<seq<string>>, success: bool)
      ensures !ermPresent ==> r == ERROR_UNAVAILABLE && clients.None? && !success
      ensures ermPresent ==> r == ERROR_NONE && success && clients.Some? && ListsBlocked(clients.value, blacklist)
    {
      if !ermPresent {
        return ERROR_UNAVAILABLE, None, false;
      }
      var blockedApps: seq<string> := [];
      var remaining := blacklist.Keys;
      while remaining != {}
        invariant remaining <= blacklist.Keys
        invariant forall i, j :: 0 <= i < j < |blockedApps| ==> blockedApps[i] != blockedApps[j]
        invariant forall k :: k in blockedApps <==> k in Blocked(blacklist) && k !in remaining
        decreases |remaining|
      {
        var app :| app in remaining;
        if blacklist[app] {
          blockedApps := blockedApps + [app];
        }
        remaining := remaining - {app};
      }
      return ERROR_NONE, Some(blockedApps), true;
    }

    /** `setAcl(params)` is the TextToSpeech answer, consulted only when the shell is present. */
    method ReserveTTSResource(appId: string, setAcl: Json -> TtsAnswer) returns (r: HResult, success: bool)
      ensures disableReserveTTS ==> r == ERROR_NONE && !success
      ensures !disableReserveTTS ==>
        (r == ERROR_NONE <==> servicePresent && Granted(setAcl(AccessList([appId]))))
        && success == (r == ERROR_NONE)
      ensures r == ERROR_NONE || r == ERROR_GENERAL
    {
      success := false;
      if !disableReserveTTS {
        var answer := if servicePresent then setAcl(AccessList([appId])) else TtsAnswer(ERROR_GENERAL, JObj(map[]));
        if Granted(answer) {
          r, success := ERROR_NONE, true;
        } else {
          r := ERROR_GENERAL;
        }
      } else {
        r := ERROR_NONE;
      }
    }

    /** `appids` is `None` for a null iterator. */
    method ReserveTTSResourceForApps(appids: Option<seq<string>>, setAcl: Json -> TtsAnswer) returns (r: HResult, success: bool)
      ensures appids.None? ==> r == ERROR_BAD_REQUEST && !success
      ensures appids.Some? && disableReserveTTS ==> r == ERROR_NONE && success
      ensures appids.Some? && !disableReserveTTS ==>
        (r == ERROR_NONE <==> servicePresent && Granted(setAcl(AccessList(appids.value))))
        && success == (r == ERROR_NONE)
      ensures r == ERROR_NONE || r == ERROR_GENERAL || r == ERROR_BAD_REQUEST
    {
      success := false;
      if appids.None? {
        return ERROR_BAD_REQUEST, false;
      }
      if !disableReserveTTS {
        var answer := if servicePresent then setAcl(AccessList(appids.value)) else TtsAnswer(ERROR_GENERAL, JObj(map[]));
        if Granted(answer) {
          r, success := ERROR_NONE, true;
        } else {
          r := ERROR_GENERAL;
        }
      } else {
        r, success := ERROR_NONE, true;
      }
    }
  }
}
