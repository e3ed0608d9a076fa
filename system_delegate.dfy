/**
 * The FbSettings System delegate: Firebolt device settings read from and
 * written to the Thunder System plugin, with the ISO 3166-1 alpha-3 ↔
 * alpha-2 territory tables and the ASCII case-insensitive comparison
 * they rely on.
 *
 * The JSON-RPC link to the System plugin is an input: `None` when it
 * cannot be acquired, otherwise the function giving each call's result
 * code and response.
 */
module SystemDelegate {
  import opened Core
  import opened Text
  import opened JsonTree

  /** `ToLower`: one `tolower` per character, pushed onto the output. */
  method ToLower(s: string) returns (out: string)
    ensures out == Lower(s)
    ensures |out| == |s| && forall i :: 0 <= i < |s| ==> out[i] == LowerChar(s[i])
  {
    out := [];
    for i := 0 to |s|
      invariant out == Lower(s[..i])
    {
      assert s[..i + 1] == s[..i] + [s[i]];
      LowerConcat(s[..i], [s[i]]);
      out := out + [LowerChar(s[i])];
    }
    assert s[..|s|] == s;
  }

  /** `EqualsIgnoreCase`: lengths first, then character by character. */
  method EqualsIgnoreCase(a: string, b: string) returns (r: bool)
    ensures r == EqualIgnoringCase(a, b)
    ensures |a| != |b| ==> !r
  {
    if |a| != |b| {
      return false;
    }
    for i := 0 to |a|
      invariant forall k :: 0 <= k < i ==> LowerChar(a[k]) == LowerChar(b[k])
    {
      if LowerChar(a[i]) != LowerChar(b[i]) {
        return false;
      }
    }
    return true;
  }

  /** The two territory tables, row by row in the order the if-chains test them. */
  const THUNDER_TERRITORIES: seq<string> := ["USA", "CAN", "ITA", "GBR", "IRL", "AUS", "AUT", "CHE", "DEU"]
  const FIREBOLT_COUNTRIES: seq<string> := ["US", "CA", "IT", "GB", "IE", "AU", "AT", "CH", "DE"]

  /** The first row whose key equals `x` ignoring case, or `|keys|`. */
  function FirstMatch(keys: seq<string>, x: string, from: nat): (r: nat)
    requires from <= |keys|
    ensures from <= r <= |keys|
    ensures r < |keys| ==> EqualIgnoringCase(x, keys[r])
    ensures forall k :: from <= k < r ==> !EqualIgnoringCase(x, keys[k])
    decreases |keys| - from
  {
    if from == |keys| then from
    else if EqualIgnoringCase(x, keys[from]) then from
    else FirstMatch(keys, x, from + 1)
  }

  /** `TerritoryThunderToFirebolt`. */
  function TerritoryThunderToFirebolt(terr: string, deflt: string): string
  {
    var i := FirstMatch(THUNDER_TERRITORIES, terr, 0);
    if i < |FIREBOLT_COUNTRIES| then FIREBOLT_COUNTRIES[i] else deflt
  }

  /** `TerritoryFireboltToThunder`. */
  function TerritoryFireboltToThunder(code: string, deflt: string): string
  {
    var i := FirstMatch(FIREBOLT_COUNTRIES, code, 0);
    if i < |THUNDER_TERRITORIES| then THUNDER_TERRITORIES[i] else deflt
  }

  predicate AllUpper(s: string)
  {
    forall k :: 0 <= k < |s| ==> IsUpper(s[k])
  }

  /** On upper-case strings, equality ignoring case is plain equality. */
  lemma UpperEqualIgnoringCase(a: string, b: string)
    requires AllUpper(a) && AllUpper(b) && EqualIgnoringCase(a, b)
    ensures a == b
  {
    forall k | 0 <= k < |a| ensures a[k] == b[k] {
      assert LowerChar(a[k]) == LowerChar(b[k]);
    }
  }

  /** No two rows of a table are equal ignoring case. */
  predicate DistinctIgnoringCase(keys: seq<string>)
  {
    forall i, j :: 0 <= i < j < |keys| ==> !EqualIgnoringCase(keys[i], keys[j])
  }

  /** Rows that are distinct upper-case strings are distinct ignoring case. */
  lemma DistinctUpperRows(keys: seq<string>)
    requires forall i :: 0 <= i < |keys| ==> AllUpper(keys[i])
    requires forall i, j :: 0 <= i < j < |keys| ==> keys[i] != keys[j]
    ensures DistinctIgnoringCase(keys)
  {
    forall i, j | 0 <= i < j < |keys| ensures !EqualIgnoringCase(keys[i], keys[j]) {
      if EqualIgnoringCase(keys[i], keys[j]) {
        UpperEqualIgnoringCase(keys[i], keys[j]);
      }
    }
  }

  lemma TablesUpper()
    ensures forall i :: 0 <= i < |THUNDER_TERRITORIES| ==> AllUpper(THUNDER_TERRITORIES[i])
    ensures forall i :: 0 <= i < |FIREBOLT_COUNTRIES| ==> AllUpper(FIREBOLT_COUNTRIES[i])
  {
  }

  lemma TablesDistinct()
    ensures DistinctIgnoringCase(THUNDER_TERRITORIES)
    ensures DistinctIgnoringCase(FIREBOLT_COUNTRIES)
  {
    TablesUpper();
    DistinctUpperRows(THUNDER_TERRITORIES);
    DistinctUpperRows(FIREBOLT_COUNTRIES);
  }

  /** An upper-case string that is not a row matches no row in any case. */
  lemma NoRowMatches(keys: seq<string>, x: string)
    requires AllUpper(x) && x !in keys
    requires forall i :: 0 <= i < |keys| ==> AllUpper(keys[i])
    ensures forall i :: 0 <= i < |keys| ==> !EqualIgnoringCase(x, keys[i])
  {
    forall i | 0 <= i < |keys| ensures !EqualIgnoringCase(x, keys[i]) {
      if EqualIgnoringCase(x, keys[i]) {
        UpperEqualIgnoringCase(x, keys[i]);
      }
    }
  }

  /** In a table without duplicates, a key that matches row `i` finds row `i`. */
  lemma FirstMatchOfRow(keys: seq<string>, x: string, i: nat)
    requires DistinctIgnoringCase(keys) && i < |keys| && EqualIgnoringCase(x, keys[i])
    ensures FirstMatch(keys, x, 0) == i
  {
    var r := FirstMatch(keys, x, 0);
    if r < i {
      EqualIgnoringCaseEquivalence(keys[r], x, keys[i]);
    }
  }

  /** Each alpha-3 code, in any case, maps to its alpha-2 code; anything else to the default. */
  lemma ThunderToFireboltTable(terr: string, deflt: string)
    ensures forall i :: 0 <= i < 9 && EqualIgnoringCase(terr, THUNDER_TERRITORIES[i]) ==>
      TerritoryThunderToFirebolt(terr, deflt) == FIREBOLT_COUNTRIES[i]
    ensures (forall i :: 0 <= i < 9 ==> !EqualIgnoringCase(terr, THUNDER_TERRITORIES[i])) ==>
      TerritoryThunderToFirebolt(terr, deflt) == deflt
  {
    TablesDistinct();
    forall i | 0 <= i < 9 && EqualIgnoringCase(terr, THUNDER_TERRITORIES[i])
      ensures TerritoryThunderToFirebolt(terr, deflt) == FIREBOLT_COUNTRIES[i]
    {
      FirstMatchOfRow(THUNDER_TERRITORIES, terr, i);
    }
  }

  lemma FireboltToThunderTable(code: string, deflt: string)
    ensures forall i :: 0 <= i < 9 && EqualIgnoringCase(code, FIREBOLT_COUNTRIES[i]) ==>
      TerritoryFireboltToThunder(code, deflt) == THUNDER_TERRITORIES[i]
    ensures (forall i :: 0 <= i < 9 ==> !EqualIgnoringCase(code, FIREBOLT_COUNTRIES[i])) ==>
      TerritoryFireboltToThunder(code, deflt) == deflt
  {
    TablesDistinct();
    forall i | 0 <= i < 9 && EqualIgnoringCase(code, FIREBOLT_COUNTRIES[i])
      ensures TerritoryFireboltToThunder(code, deflt) == THUNDER_TERRITORIES[i]
    {
      FirstMatchOfRow(FIREBOLT_COUNTRIES, code, i);
    }
  }

  /**
   * Round trips: a country code in any case comes back upper-cased, and
   * so does a territory code.
   */
  lemma TerritoryRoundTrip(x: string, i: nat, d1: string, d2: string)
    requires i < 9
    ensures EqualIgnoringCase(x, FIREBOLT_COUNTRIES[i]) ==>
      TerritoryThunderToFirebolt(TerritoryFireboltToThunder(x, d1), d2) == FIREBOLT_COUNTRIES[i]
    ensures EqualIgnoringCase(x, THUNDER_TERRITORIES[i]) ==>
      TerritoryFireboltToThunder(TerritoryThunderToFirebolt(x, d1), d2) == THUNDER_TERRITORIES[i]
  {
    FireboltToThunderTable(x, d1);
    ThunderToFireboltTable(x, d1);
    EqualIgnoringCaseEquivalence(THUNDER_TERRITORIES[i], x, x);
    EqualIgnoringCaseEquivalence(FIREBOLT_COUNTRIES[i], x, x);
    ThunderToFireboltTable(THUNDER_TERRITORIES[i], d2);
    FireboltToThunderTable(FIREBOLT_COUNTRIES[i], d2);
  }

  lemma LowerCaseTerritoryMaps()
    ensures TerritoryThunderToFirebolt("gbr", "US") == "GB"
  {
    assert EqualIgnoringCase("gbr", THUNDER_TERRITORIES[3]) by {
      assert THUNDER_TERRITORIES[3] == "GBR";
    }
    assert TerritoryThunderToFirebolt("gbr", "US") == FIREBOLT_COUNTRIES[3] by {
      ThunderToFireboltTable("gbr", "US");
    }
    assert FIREBOLT_COUNTRIES[3] == "GB";
  }

  lemma UnknownTerritoryDefaults()
    ensures TerritoryThunderToFirebolt("FRA", "US") == "US"
  {
    TablesUpper();
    assert AllUpper("FRA");
    assert "FRA" !in THUNDER_TERRITORIES;
    NoRowMatches(THUNDER_TERRITORIES, "FRA");
    assert FirstMatch(THUNDER_TERRITORIES, "FRA", 0) == 9;
  }

  /** The outcome of one call on the System plugin. */
  datatype Response = Response(rc: HResult, body: Json)

  /** An acquired link: the response to each (method, params) call. */
  type Link = (string, Json) -> Response

  /** `response.HasLabel("success") && response["success"].Boolean()` after a successful call. */
  predicate Succeeded(r: Response)
  {
    r.rc == ERROR_NONE && HasLabel(r.body, "success") && Get(r.body, "success") == JBool(true)
  }

  /** A string member of a successful response, as `String()` renders it. */
  function Member(r: Response, key: string): Option<string>
  {
    if r.rc == ERROR_NONE && HasLabel(r.body, key) then Some(AsString(Get(r.body, key))) else None
  }

  const NO_PARAMS: Json := JObj(map[])
  const DEFAULT_MAKE := "unknown"
  const DEFAULT_NAME := "Living Room"
  const DEFAULT_COUNTRY := "US"
  const DEFAULT_TERRITORY := "USA"

  method GetDeviceMake(link: Option<Link>) returns (result: HResult, make: string)
    ensures link.None? ==> result == ERROR_UNAVAILABLE && make == DEFAULT_MAKE
    ensures link.Some? ==>
      var m := Member(link.value("getDeviceInfo", NO_PARAMS), "make");
      result == ERROR_NONE && make == if m.Some? && m.value != "" then m.value else DEFAULT_MAKE
  {
    make := "";
    if link.None? {
      return ERROR_UNAVAILABLE, DEFAULT_MAKE;
    }
    var response := link.value("getDeviceInfo", NO_PARAMS);
    if response.rc == ERROR_NONE {
      if HasLabel(response.body, "make") {
        make := AsString(Get(response.body, "make"));
      }
    }
    if make == "" {
      make := DEFAULT_MAKE;
    }
    result := ERROR_NONE;
  }

  method GetDeviceName(link: Option<Link>) returns (result: HResult, name: string)
    ensures link.None? ==> result == ERROR_UNAVAILABLE && name == DEFAULT_NAME
    ensures link.Some? ==>
      var m := Member(link.value("getFriendlyName", NO_PARAMS), "friendlyName");
      result == ERROR_NONE && name == if m.Some? && m.value != "" then m.value else DEFAULT_NAME
  {
    name := "";
    if link.None? {
      return ERROR_UNAVAILABLE, DEFAULT_NAME;
    }
    var response := link.value("getFriendlyName", NO_PARAMS);
    if response.rc == ERROR_NONE && HasLabel(response.body, "friendlyName") {
      name := AsString(Get(response.body, "friendlyName"));
    }
    if name == "" {
      name := DEFAULT_NAME;
    }
    result := ERROR_NONE;
  }

  /** The name and make are never empty, whatever the link does. */
  lemma DefaultsNeverEmpty()
    ensures DEFAULT_MAKE != "" && DEFAULT_NAME != ""
  {
  }

  method SetDeviceName(link: Option<Link>, name: string) returns (result: HResult)
    ensures link.None? ==> result == ERROR_UNAVAILABLE
    ensures link.Some? ==>
      result == if Succeeded(link.value("setFriendlyName", Obj([("friendlyName", JStr(name))])))
                then ERROR_NONE else ERROR_GENERAL
  {
    if link.None? {
      return ERROR_UNAVAILABLE;
    }
    var response := link.value("setFriendlyName", Obj([("friendlyName", JStr(name))]));
    if Succeeded(response) {
      return ERROR_NONE;
    }
    return ERROR_GENERAL;
  }

  /** `GetDeviceSku`: the part of `stbVersion` before the first '_'. */
  method GetDeviceSku(link: Option<Link>) returns (result: HResult, sku: string)
    ensures result == ERROR_NONE || result == ERROR_UNAVAILABLE
    ensures result == ERROR_NONE <==>
      link.Some? && Member(link.value("getSystemVersions", NO_PARAMS), "stbVersion").Some?
      && Before(Member(link.value("getSystemVersions", NO_PARAMS), "stbVersion").value, '_') != ""
    ensures result == ERROR_NONE ==>
      sku == Before(Member(link.value("getSystemVersions", NO_PARAMS), "stbVersion").value, '_')
    ensures result != ERROR_NONE ==> sku == ""
  {
    sku := "";
    if link.None? {
      return ERROR_UNAVAILABLE, sku;
    }
    var response := link.value("getSystemVersions", NO_PARAMS);
    if response.rc != ERROR_NONE {
      return ERROR_UNAVAILABLE, sku;
    }
    if !HasLabel(response.body, "stbVersion") {
      return ERROR_UNAVAILABLE, sku;
    }
    var stbVersion := AsString(Get(response.body, "stbVersion"));
    var pos := Find(stbVersion, '_', 0);
    sku := if pos == |stbVersion| then stbVersion else stbVersion[..pos];
    if sku == "" {
      return ERROR_UNAVAILABLE, sku;
    }
    result := ERROR_NONE;
  }

  method GetCountryCode(link: Option<Link>) returns (result: HResult, code: string)
    ensures link.None? ==> result == ERROR_UNAVAILABLE && code == DEFAULT_COUNTRY
    ensures link.Some? ==>
      var t := Member(link.value("getTerritory", NO_PARAMS), "territory");
      result == ERROR_NONE && code == if t.Some? then TerritoryThunderToFirebolt(t.value, DEFAULT_COUNTRY) else DEFAULT_COUNTRY
  {
    code := "";
    if link.None? {
      return ERROR_UNAVAILABLE, DEFAULT_COUNTRY;
    }
    var response := link.value("getTerritory", NO_PARAMS);
    if response.rc == ERROR_NONE && HasLabel(response.body, "territory") {
      var terr := AsString(Get(response.body, "territory"));
      code := TerritoryThunderToFirebolt(terr, DEFAULT_COUNTRY);
    }
    if code == "" {
      code := DEFAULT_COUNTRY;
    }
    result := ERROR_NONE;
  }

  method SetCountryCode(link: Option<Link>, code: string) returns (result: HResult)
    ensures link.None? ==> result == ERROR_UNAVAILABLE
    ensures link.Some? ==>
      var params := Obj([("territory", JStr(TerritoryFireboltToThunder(code, DEFAULT_TERRITORY)))]);
      result == if Succeeded(link.value("setTerritory", params)) then ERROR_NONE else ERROR_GENERAL
  {
    if link.None? {
      return ERROR_UNAVAILABLE;
    }
    var territory := TerritoryFireboltToThunder(code, DEFAULT_TERRITORY);
    var response := link.value("setTerritory", Obj([("territory", JStr(territory))]));
    if Succeeded(response) {
      return ERROR_NONE;
    }
    return ERROR_GENERAL;
  }

  /** An unmapped country code is sent as "USA". */
  lemma UnmappedCountrySendsUsa(code: string)
    requires forall i :: 0 <= i < 9 ==> !EqualIgnoringCase(code, FIREBOLT_COUNTRIES[i])
    ensures TerritoryFireboltToThunder(code, DEFAULT_TERRITORY) == "USA"
  {
    FireboltToThunderTable(code, DEFAULT_TERRITORY);
  }

  method GetTimeZone(link: Option<Link>) returns (result: HResult, tz: string)
    ensures result == ERROR_NONE || result == ERROR_UNAVAILABLE
    ensures result == ERROR_NONE <==>
      link.Some? && Succeeded(link.value("getTimeZoneDST", NO_PARAMS))
      && HasLabel(link.value("getTimeZoneDST", NO_PARAMS).body, "timeZone")
    ensures result == ERROR_NONE ==> tz == AsString(Get(link.value("getTimeZoneDST", NO_PARAMS).body, "timeZone"))
    ensures result != ERROR_NONE ==> tz == ""
  {
    tz := "";
    if link.None? {
      return ERROR_UNAVAILABLE, tz;
    }
    var response := link.value("getTimeZoneDST", NO_PARAMS);
    if Succeeded(response) {
      if HasLabel(response.body, "timeZone") {
        tz := AsString(Get(response.body, "timeZone"));
        return ERROR_NONE, tz;
      }
    }
    return ERROR_UNAVAILABLE, tz;
  }

  method SetTimeZone(link: Option<Link>, tz: string) returns (result: HResult)
    ensures link.None? ==> result == ERROR_UNAVAILABLE
    ensures link.Some? ==>
      result == if Succeeded(link.value("setTimeZoneDST", Obj([("timeZone", JStr(tz))]))) then ERROR_NONE else ERROR_GENERAL
  {
    if link.None? {
      return ERROR_UNAVAILABLE;
    }
    var response := link.value("setTimeZoneDST", Obj([("timeZone", JStr(tz))]));
    if Succeeded(response) {
      return ERROR_NONE;
    }
    return ERROR_GENERAL;
  }

  /** `GetSecondScreenFriendlyName` is `GetDeviceName`. */
  method GetSecondScreenFriendlyName(link: Option<Link>) returns (result: HResult, name: string)
    ensures link.None? ==> result == ERROR_UNAVAILABLE && name == DEFAULT_NAME
    ensures link.Some? ==>
      var m := Member(link.value("getFriendlyName", NO_PARAMS), "friendlyName");
      result == ERROR_NONE && name == if m.Some? && m.value != "" then m.value else DEFAULT_NAME
  {
    result, name := GetDeviceName(link);
  }
}
