/**
 * The PreinstallManager: version validation and comparison on the
 * `major.minor.patch` core of a semantic version (section 11 of Semantic
 * Versioning 2.0.0; a pre-release or build suffix, sections 9 and 10, is
 * cut off before comparing), the filter that drops candidates already
 * installed at the same or a newer version, and the install loop.
 *
 * The directory listing, the installed-package listing and the results of
 * the installer calls are inputs. Each version component is scanned by
 * `sscanf("%d")` into a 32-bit `int` on an LP64 target.
 */
module PreinstallManager {
  import opened Core
  import Text

  const AI_PREINSTALL_DIRECTORY := "/opt/preinstall"

  const INT_MAX: int := 0x7FFF_FFFF
  const INT_MIN: int := -0x8000_0000
  /** `LONG_MAX` of an LP64 target, where `long` has 64 bits. */
  const LONG_MAX: int := 0x7FFF_FFFF_FFFF_FFFF

  /**
   * The `int` that glibc's `%d` stores for a run of digits of value `v`:
   * the digits are converted by `strtol`, which saturates at `LONG_MAX`,
   * and the `long` goes into the `int` keeping its low 32 bits.
   */
  function StoredInt(v: nat): (r: int)
    ensures INT_MIN <= r <= INT_MAX
    ensures v <= INT_MAX ==> r == v
    ensures INT_MAX < v < 0x1_0000_0000 ==> r == v - 0x1_0000_0000
    ensures v <= LONG_MAX ==> (r - v) % 0x1_0000_0000 == 0
    ensures v > LONG_MAX ==> r == -1
  {
    ToInt32(Min(v, LONG_MAX))
  }

  /** The three `int`s `%d.%d.%d` stores. */
  datatype Triple = Triple(major: int, minor: int, patch: int)

  /** Every component fits in an `int` and is not negative. */
  predicate Fits(t: Triple)
  {
    0 <= t.major <= INT_MAX && 0 <= t.minor <= INT_MAX && 0 <= t.patch <= INT_MAX
  }

  predicate DigitOrDot(c: char) { Text.IsDigit(c) || c == '.' }

  predicate DigitsAndDots(s: string)
  {
    forall i :: 0 <= i < |s| ==> DigitOrDot(s[i])
  }

  /** Length of the run of decimal digits that starts `s`. */
  function LeadingDigits(s: string): (n: nat)
    ensures n <= |s|
    ensures forall i :: 0 <= i < n ==> Text.IsDigit(s[i])
    ensures n < |s| ==> !Text.IsDigit(s[n])
  {
    if s == [] || !Text.IsDigit(s[0]) then 0 else 1 + LeadingDigits(s[1..])
  }

  /** One `%d` conversion on a digit run: the value stored and what is left. */
  function ScanNat(s: string): Option<(int, string)>
  {
    var n := LeadingDigits(s);
    if n == 0 then None else Some((StoredInt(Text.DigitsValue(s[..n])), s[n..]))
  }

  /** A literal '.' followed by a `%d` conversion. */
  function ScanDotNat(s: string): Option<(int, string)>
  {
    if s == [] || s[0] != '.' then None else ScanNat(s[1..])
  }

  /**
   * `sscanf(s, "%d.%d.%d", …) == 3` and the three values, for strings of
   * digits and dots. (On other strings `sscanf` may also skip blanks or
   * read a sign, but every such string is refused by the character check
   * that follows, so the verdict does not depend on it.)
   */
  function ScanTriple(s: string): Option<Triple>
  {
    match ScanNat(s)
    case None => None
    case Some((a, r1)) =>
      match ScanDotNat(r1)
      case None => None
      case Some((b, r2)) =>
        match ScanDotNat(r2)
        case None => None
        case Some((c, _)) => Some(Triple(a, b, c))
  }

  /**
   * What `isValidSemVer` accepts: three components, only digits and dots
   * (trailing digits and dots after the triple are allowed), and no
   * component stored as a negative `int`.
   */
  predicate ValidSemVer(s: string)
  {
    && ScanTriple(s).Some? && DigitsAndDots(s)
    && ScanTriple(s).value.major >= 0 && ScanTriple(s).value.minor >= 0 && ScanTriple(s).value.patch >= 0
  }

  function Render(t: Triple): string
    requires t.major >= 0 && t.minor >= 0 && t.patch >= 0
  {
    Text.NatToString(t.major) + "." + Text.NatToString(t.minor) + "." + Text.NatToString(t.patch)
  }

  lemma {:induction false} LeadingDigitsOfDigits(d: string, rest: string)
    requires Text.AllDigits(d)
    requires rest == [] || !Text.IsDigit(rest[0])
    ensures LeadingDigits(d + rest) == |d|
    decreases |d|
  {
    if d != [] {
      assert (d + rest)[1..] == d[1..] + rest;
      LeadingDigitsOfDigits(d[1..], rest);
    } else {
      assert d + rest == rest;
    }
  }

  lemma ScanNatRender(n: nat, rest: string)
    requires rest == [] || rest[0] == '.'
    ensures ScanNat(Text.NatToString(n) + rest) == Some((StoredInt(n), rest))
  {
    var d := Text.NatToString(n);
    LeadingDigitsOfDigits(d, rest);
    assert (d + rest)[..|d|] == d;
    assert (d + rest)[|d|..] == rest;
    Text.NatToStringRoundTrip(n);
  }

  lemma DigitsAndDotsConcat(x: string, y: string)
    requires DigitsAndDots(x) && DigitsAndDots(y)
    ensures DigitsAndDots(x + y)
  {
    assert forall i :: 0 <= i < |x + y| ==> (x + y)[i] == (if i < |x| then x[i] else y[i - |x|]);
  }

  lemma ScanDotNatRender(n: nat, rest: string)
    requires rest == [] || rest[0] == '.'
    ensures ScanDotNat("." + Text.NatToString(n) + rest) == Some((StoredInt(n), rest))
  {
    var s := "." + Text.NatToString(n) + rest;
    assert s[1..] == Text.NatToString(n) + rest;
    ScanNatRender(n, rest);
  }

  /** The triple `%d.%d.%d` stores for a rendered triple of non-negative values. */
  function Stored(t: Triple): (r: Triple)
    requires t.major >= 0 && t.minor >= 0 && t.patch >= 0
    ensures Fits(t) ==> r == t
  {
    Triple(StoredInt(t.major), StoredInt(t.minor), StoredInt(t.patch))
  }

  lemma RenderScans(t: Triple)
    requires t.major >= 0 && t.minor >= 0 && t.patch >= 0
    ensures ScanTriple(Render(t)) == Some(Stored(t))
  {
    var a, b, c := Text.NatToString(t.major), Text.NatToString(t.minor), Text.NatToString(t.patch);
    var r2 := "." + c + "";
    var r1 := "." + b + ("." + c);
    assert Render(t) == a + r1;
    assert r2 == "." + c;
    ScanNatRender(t.major, r1);
    ScanDotNatRender(t.minor, "." + c);
    ScanDotNatRender(t.patch, "");
  }

  lemma RenderDigitsAndDots(t: Triple)
    requires t.major >= 0 && t.minor >= 0 && t.patch >= 0
    ensures DigitsAndDots(Render(t))
  {
    var a, b, c := Text.NatToString(t.major), Text.NatToString(t.minor), Text.NatToString(t.patch);
    DigitsAndDotsConcat(a, ".");
    DigitsAndDotsConcat(a + ".", b);
    DigitsAndDotsConcat(a + "." + b, ".");
    DigitsAndDotsConcat(a + "." + b + ".", c);
  }

  /** Rendering a triple of `int`s that are not negative gives a valid version that scans back to it. */
  lemma RenderRoundTrip(t: Triple)
    requires Fits(t)
    ensures ScanTriple(Render(t)) == Some(t)
    ensures ValidSemVer(Render(t))
  {
    RenderScans(t);
    RenderDigitsAndDots(t);
  }

  /** A version with only two parts is refused: the third `%d` has nothing to read. */
  lemma TwoPartsInvalid()
    ensures !ValidSemVer("1.2")
  {
    assert LeadingDigits("1.2") == 1;
    assert "1.2"[1..] == ".2";
    assert LeadingDigits("2") == 1;
    assert ".2"[1..] == "2" && "2"[1..] == "";
  }

  /** A letter anywhere is refused by the character check. */
  lemma LetterInvalid()
    ensures !ValidSemVer("1.2.x")
  {
    assert !DigitOrDot("1.2.x"[4]);
  }

  /** An empty component is refused: `%d` needs at least one digit. */
  lemma EmptyComponentInvalid()
    ensures !ValidSemVer("1..2.3")
  {
    assert LeadingDigits("1..2.3") == 1;
    assert "1..2.3"[1..] == "..2.3" && "..2.3"[1..] == ".2.3";
    assert LeadingDigits(".2.3") == 0;
  }

  /** A fourth numeric part is accepted: the scan stops after three. */
  lemma FourPartsValid()
    ensures ValidSemVer("1.2.3.4")
  {
    var s := "1.2.3.4";
    assert LeadingDigits(s) == 1 && s[..1] == "1" && s[1..] == ".2.3.4";
    assert ".2.3.4"[1..] == "2.3.4";
    assert LeadingDigits("2.3.4") == 1 && "2.3.4"[..1] == "2" && "2.3.4"[1..] == ".3.4";
    assert ".3.4"[1..] == "3.4";
    assert LeadingDigits("3.4") == 1 && "3.4"[..1] == "3";
  }

  /** The version with everything from the first '-' or '+' removed. */
  function Base(v: string): (r: string)
    ensures |r| <= |v| && r == v[..|r|]
    ensures '-' !in r && '+' !in r
    ensures |r| < |v| ==> v[|r|] == '-' || v[|r|] == '+'
  {
    Text.FindFirstFrom(v, '-', 0);
    Text.FindFirstFrom(v, '+', 0);
    v[..Min(Text.Find(v, '-', 0), Text.Find(v, '+', 0))]
  }

  /** A suffix introduced by '-' or '+' never changes the base. */
  lemma BaseIgnoresSuffix(v: string, sep: char, suffix: string)
    requires sep == '-' || sep == '+'
    ensures Base(v + [sep] + suffix) == Base(v)
  {
    var w := v + [sep] + suffix;
    assert v + [sep] + suffix == v + ([sep] + suffix);
    FindInPrefix(v, [sep] + suffix, '-');
    FindInPrefix(v, [sep] + suffix, '+');
    Text.FindFirst(w, sep);
    Text.FindFirstFrom(w, sep, 0);
    assert w[|v|] == sep;
    assert Text.Find(w, sep, 0) <= |v|;
  }

  /** `find` on `v + y` sees an occurrence inside `v` first. */
  lemma FindInPrefix(v: string, y: string, c: char)
    ensures Text.Find(v, c, 0) < |v| ==> Text.Find(v + y, c, 0) == Text.Find(v, c, 0)
    ensures Text.Find(v, c, 0) == |v| ==> Text.Find(v + y, c, 0) >= |v|
  {
    var i, j := Text.Find(v, c, 0), Text.Find(v + y, c, 0);
    Text.FindFirstFrom(v, c, 0);
    Text.FindFirstFrom(v + y, c, 0);
    if j < |v| {
      assert (v + y)[j] == v[j];
    }
    if i < |v| {
      assert (v + y)[i] == c;
    }
  }

  predicate TripleGreater(a: Triple, b: Triple)
  {
    if a.major != b.major then a.major > b.major
    else if a.minor != b.minor then a.minor > b.minor
    else a.patch > b.patch
  }

  /** The relation `isNewerVersion` decides. */
  predicate Newer(v1: string, v2: string)
  {
    var b1, b2 := Base(v1), Base(v2);
    ValidSemVer(b1) && ValidSemVer(b2) && TripleGreater(ScanTriple(b1).value, ScanTriple(b2).value)
  }

  /** The core triples are totally ordered: exactly one of >, = and < holds. */
  lemma TripleGreaterTrichotomy(a: Triple, b: Triple)
    ensures !TripleGreater(a, a)
    ensures TripleGreater(a, b) ==> !TripleGreater(b, a)
    ensures a != b ==> TripleGreater(a, b) || TripleGreater(b, a)
  {
  }

  lemma TripleGreaterTransitive(a: Triple, b: Triple, c: Triple)
    requires TripleGreater(a, b) && TripleGreater(b, c)
    ensures TripleGreater(a, c)
  {
  }

  /** Irreflexive, asymmetric and transitive: a strict order on versions. */
  lemma NewerIsStrictOrder(v1: string, v2: string, v3: string)
    ensures !Newer(v1, v1)
    ensures Newer(v1, v2) ==> !Newer(v2, v1)
    ensures Newer(v1, v2) && Newer(v2, v3) ==> Newer(v1, v3)
  {
    if Newer(v1, v2) && Newer(v2, v3) {
      TripleGreaterTransitive(ScanTriple(Base(v1)).value, ScanTriple(Base(v2)).value, ScanTriple(Base(v3)).value);
    }
  }

  lemma NewerIgnoresSuffix(v1: string, v2: string, sep: char, suffix: string)
    requires sep == '-' || sep == '+'
    ensures Newer(v1 + [sep] + suffix, v2) == Newer(v1, v2)
    ensures Newer(v1, v2 + [sep] + suffix) == Newer(v1, v2)
  {
    BaseIgnoresSuffix(v1, sep, suffix);
    BaseIgnoresSuffix(v2, sep, suffix);
  }

  /** A string of digits and dots has no suffix to cut. */
  lemma BaseOfDigitsAndDots(v: string)
    requires DigitsAndDots(v)
    ensures Base(v) == v
  {
    assert '-' !in v && '+' !in v by {
      assert forall i :: 0 <= i < |v| ==> v[i] != '-' && v[i] != '+';
    }
    Text.FindAbsent(v, '-', 0);
    Text.FindAbsent(v, '+', 0);
    assert v[..|v|] == v;
  }

  lemma NewerRendered(a: Triple, b: Triple)
    requires Fits(a) && Fits(b)
    ensures Newer(Render(a), Render(b)) == TripleGreater(a, b)
  {
    assert Base(Render(a)) == Render(a) && ValidSemVer(Render(a)) && ScanTriple(Render(a)) == Some(a) by {
      RenderRoundTrip(a);
      BaseOfDigitsAndDots(Render(a));
    }
    assert Base(Render(b)) == Render(b) && ValidSemVer(Render(b)) && ScanTriple(Render(b)) == Some(b) by {
      RenderRoundTrip(b);
      BaseOfDigitsAndDots(Render(b));
    }
  }

  /** `isValidSemVer` on a string whose scan is known. */
  lemma ValidOfScanned(x: string, tx: Triple)
    requires ScanTriple(x) == Some(tx)
    ensures ValidSemVer(x) == (DigitsAndDots(x) && tx.major >= 0 && tx.minor >= 0 && tx.patch >= 0)
  {
  }

  /** `isNewerVersion` on two strings of digits and dots whose scans are known. */
  lemma NewerOfScanned(x: string, y: string, tx: Triple, ty: Triple)
    requires DigitsAndDots(x) && DigitsAndDots(y)
    requires ScanTriple(x) == Some(tx) && ScanTriple(y) == Some(ty)
    ensures Newer(x, y) == (ValidSemVer(x) && ValidSemVer(y) && TripleGreater(tx, ty))
  {
    BaseOfDigitsAndDots(x);
    BaseOfDigitsAndDots(y);
  }

  /**
   * A component from 2^31 to 2^32 - 1 is stored as a negative `int`, so a
   * version holding one is refused although it has only digits and dots.
   */
  lemma OverflowingComponentRefused(t: Triple)
    requires INT_MAX < t.major < 0x1_0000_0000
    requires 0 <= t.minor <= INT_MAX && 0 <= t.patch <= INT_MAX
    ensures DigitsAndDots(Render(t)) && !ValidSemVer(Render(t))
  {
    var r := Render(t);
    assert ScanTriple(r) == Some(Stored(t)) && DigitsAndDots(r) by {
      RenderScans(t);
      RenderDigitsAndDots(t);
    }
    assert Stored(t).major == t.major - 0x1_0000_0000;
    ValidOfScanned(r, Stored(t));
  }

  /** A major version 2^32 above another compares as that one: only the low 32 bits are kept. */
  lemma WrappedMajorCompares(t: Triple, other: string)
    requires Fits(t)
    ensures var w := Triple(t.major + 0x1_0000_0000, t.minor, t.patch);
      Newer(Render(w), other) == Newer(Render(t), other) && Newer(other, Render(w)) == Newer(other, Render(t))
  {
    var w := Triple(t.major + 0x1_0000_0000, t.minor, t.patch);
    var rw, rt := Render(w), Render(t);
    assert Stored(w) == t;
    assert ScanTriple(rw) == Some(t) && DigitsAndDots(rw) by {
      RenderScans(w);
      RenderDigitsAndDots(w);
    }
    assert ScanTriple(rt) == Some(t) && DigitsAndDots(rt) by {
      RenderScans(t);
      RenderDigitsAndDots(t);
    }
    assert Base(rw) == rw && Base(rt) == rt by {
      BaseOfDigitsAndDots(rw);
      BaseOfDigitsAndDots(rt);
    }
    assert ValidSemVer(rw) == ValidSemVer(rt) by {
      ValidOfScanned(rw, t);
      ValidOfScanned(rt, t);
    }
  }

  /** `isValidSemVer`. */
  method IsValidSemVer(version: string) returns (ok: bool)
    ensures ok == ValidSemVer(version)
  {
    var parsed := ScanTriple(version);
    if parsed.None? {
      return false;
    }
    for i := 0 to |version|
      invariant forall k :: 0 <= k < i ==> DigitOrDot(version[k])
    {
      var c := version[i];
      if !(Text.IsDigit(c) || c == '.') {
        return false;
      }
    }
    ok := parsed.value.major >= 0 && parsed.value.minor >= 0 && parsed.value.patch >= 0;
  }

  /** `isNewerVersion(v1, v2)`: whether v1 is strictly newer than v2. */
  method IsNewerVersion(v1: string, v2: string) returns (r: bool)
    ensures r == Newer(v1, v2)
  {
    var pos1 := Min(Text.Find(v1, '-', 0), Text.Find(v1, '+', 0));
    var pos2 := Min(Text.Find(v2, '-', 0), Text.Find(v2, '+', 0));
    var base1 := if pos1 == |v1| then v1 else v1[..pos1];
    var base2 := if pos2 == |v2| then v2 else v2[..pos2];
    assert base1 == Base(v1) && base2 == Base(v2);
    var ok1 := IsValidSemVer(base1);
    var ok2 := IsValidSemVer(base2);
    if !ok1 || !ok2 {
      return false;
    }
    var t1, t2 := ScanTriple(base1).value, ScanTriple(base2).value;
    if t1.major != t2.major {
      return t1.major > t2.major;
    }
    if t1.minor != t2.minor {
      return t1.minor > t2.minor;
    }
    if t1.patch != t2.patch {
      return t1.patch > t2.patch;
    }
    return false;
  }

  datatype PackageInfo = PackageInfo(fileLocator: string, packageId: string, version: string)

  datatype InstalledPackage = InstalledPackage(packageId: string, version: string)

  /** The package for each directory entry other than "." and "..": only its file locator is known. */
  function DirectoryPackages(dir: string, entries: seq<string>): (r: seq<PackageInfo>)
    ensures |r| <= |entries|
    ensures forall p :: p in r ==> p.packageId == "" && p.version == ""
  {
    if entries == [] then []
    else
      var last := entries[|entries| - 1];
      DirectoryPackages(dir, entries[..|entries| - 1])
        + (if last == "." || last == ".." then [] else [PackageInfo(dir + "/" + last, "", "")])
  }

  /** `readPreinstallDirectory`: `None` entries stand for a directory that cannot be opened. */
  method ReadPreinstallDirectory(dir: string, entries: Option<seq<string>>, packagesIn: seq<PackageInfo>)
    returns (ok: bool, packages: seq<PackageInfo>)
    ensures ok <==> entries.Some?
    ensures !ok ==> packages == packagesIn
    ensures ok ==> packages == packagesIn + DirectoryPackages(dir, entries.value)
  {
    if entries.None? {
      return false, packagesIn;
    }
    var names := entries.value;
    packages := packagesIn;
    var i := 0;
    while i < |names|
      invariant 0 <= i <= |names|
      invariant packages == packagesIn + DirectoryPackages(dir, names[..i])
    {
      var filename := names[i];
      assert names[..i + 1][..i] == names[..i];
      if filename == "." || filename == ".." {
        i := i + 1;
        continue;
      }
      packages := packages + [PackageInfo(dir + "/" + filename, "", "")];
      i := i + 1;
    }
    assert names[..i] == names;
    ok := true;
  }

  /** No entry before index `i` has the id. */
  predicate FirstWithId(existing: seq<InstalledPackage>, id: string, i: int)
  {
    forall j :: 0 <= j < i && j < |existing| ==> existing[j].packageId != id
  }

  /** `std::find_if` over the installed list by package id: the first match. */
  function FindInstalled(existing: seq<InstalledPackage>, id: string): (r: Option<InstalledPackage>)
    ensures r.Some? ==> r.value.packageId == id
    ensures r.Some? ==> exists i :: 0 <= i < |existing| && existing[i] == r.value && FirstWithId(existing, id, i)
    ensures r.None? ==> forall i :: 0 <= i < |existing| ==> existing[i].packageId != id
  {
    if existing == [] then None
    else if existing[0].packageId == id then Some(existing[0])
    else
      var r := FindInstalled(existing[1..], id);
      if r.Some? then
        var i :| 0 <= i < |existing[1..]| && existing[1..][i] == r.value && FirstWithId(existing[1..], id, i);
        assert existing[i + 1] == r.value && FirstWithId(existing, id, i + 1);
        r
      else r
  }

  /** A candidate stays unless the same id is installed at the same or a newer version. */
  predicate Keep(p: PackageInfo, existing: seq<InstalledPackage>)
  {
    var found := FindInstalled(existing, p.packageId);
    found.None? || Newer(p.version, found.value.version)
  }

  /** The candidates that the filter keeps, in their original order. */
  function Filtered(pkgs: seq<PackageInfo>, existing: seq<InstalledPackage>): (r: seq<PackageInfo>)
    ensures |r| <= |pkgs|
  {
    if pkgs == [] then []
    else
      var last := pkgs[|pkgs| - 1];
      Filtered(pkgs[..|pkgs| - 1], existing) + (if Keep(last, existing) then [last] else [])
  }

  /** Only candidates that should stay are kept. */
  lemma {:induction false} FilteredOnlyKeeps(pkgs: seq<PackageInfo>, existing: seq<InstalledPackage>, p: PackageInfo)
    requires p in Filtered(pkgs, existing)
    ensures p in pkgs && Keep(p, existing)
    decreases |pkgs|
  {
    var init := pkgs[..|pkgs| - 1];
    if p in Filtered(init, existing) {
      FilteredOnlyKeeps(init, existing, p);
      assert p in pkgs by {
        var k :| 0 <= k < |init| && init[k] == p;
        assert pkgs[k] == p;
      }
    }
  }

  /** Nothing that should stay is dropped: in particular every id not installed stays. */
  lemma {:induction false} FilteredKeepsAll(pkgs: seq<PackageInfo>, existing: seq<InstalledPackage>, p: PackageInfo)
    requires p in pkgs && Keep(p, existing)
    ensures p in Filtered(pkgs, existing)
    decreases |pkgs|
  {
    var last := pkgs[|pkgs| - 1];
    if p != last {
      assert pkgs == pkgs[..|pkgs| - 1] + [last];
      FilteredKeepsAll(pkgs[..|pkgs| - 1], existing, p);
    }
  }

  /** When nothing is installed the filter keeps every candidate, in order. */
  lemma {:induction false} FilteredNothingInstalled(pkgs: seq<PackageInfo>)
    ensures Filtered(pkgs, []) == pkgs
    decreases |pkgs|
  {
    if pkgs != [] {
      FilteredNothingInstalled(pkgs[..|pkgs| - 1]);
      assert pkgs == pkgs[..|pkgs| - 1] + [pkgs[|pkgs| - 1]];
    }
  }

  /** One filter decision: look the id up and compare versions (`remove` in the loop). */
  method ShouldRemove(p: PackageInfo, existing: seq<InstalledPackage>) returns (remove: bool)
    ensures remove == !Keep(p, existing)
  {
    var found := FindInstalled(existing, p.packageId);
    remove := false;
    if found.Some? {
      var newer := IsNewerVersion(p.version, found.value.version);
      if !newer {
        remove := true;
      }
    }
  }

  /** The loop state: `kept[..j]` is the verdict on the first `n` candidates, the rest is untouched. */
  predicate FilterProgress(pkgs: seq<PackageInfo>, existing: seq<InstalledPackage>, kept: seq<PackageInfo>, j: int, n: int)
  {
    0 <= j <= |kept| && 0 <= n <= |pkgs|
    && kept[..j] == Filtered(pkgs[..n], existing) && kept[j..] == pkgs[n..]
  }

  lemma FilterProgressStep(pkgs: seq<PackageInfo>, existing: seq<InstalledPackage>, kept: seq<PackageInfo>, j: int, n: int)
    requires FilterProgress(pkgs, existing, kept, j, n) && j < |kept|
    ensures n < |pkgs| && kept[j] == pkgs[n]
    ensures !Keep(pkgs[n], existing) ==> FilterProgress(pkgs, existing, kept[..j] + kept[j + 1..], j, n + 1)
    ensures Keep(pkgs[n], existing) ==> FilterProgress(pkgs, existing, kept, j + 1, n + 1)
  {
    assert kept[j] == pkgs[n] && kept[j + 1..] == pkgs[n + 1..];
    assert pkgs[..n + 1][..n] == pkgs[..n];
    var k' := kept[..j] + kept[j + 1..];
    assert k'[..j] == kept[..j] && k'[j..] == kept[j + 1..];
    assert kept[..j + 1] == kept[..j] + [kept[j]];
  }

  lemma FilterProgressDone(pkgs: seq<PackageInfo>, existing: seq<InstalledPackage>, kept: seq<PackageInfo>, j: int, n: int)
    requires FilterProgress(pkgs, existing, kept, j, n) && j == |kept|
    ensures kept == Filtered(pkgs, existing)
  {
    assert pkgs[..n] == pkgs;
    assert kept[..j] == kept;
  }

  /** The filtering loop of `StartPreinstall`: erase in place, advancing only past kept entries. */
  method FilterInstalled(pkgs: seq<PackageInfo>, existing: seq<InstalledPackage>) returns (kept: seq<PackageInfo>)
    ensures kept == Filtered(pkgs, existing)
  {
    kept := pkgs;
    var j := 0;
    ghost var n := 0;
    assert kept[..0] == [] && pkgs[..0] == [];
    while j < |kept|
      invariant FilterProgress(pkgs, existing, kept, j, n)
      decreases |kept| - j
    {
      FilterProgressStep(pkgs, existing, kept, j, n);
      var remove := ShouldRemove(kept[j], existing);
      if remove {
        kept := kept[..j] + kept[j + 1..];
      } else {
        j := j + 1;
      }
      n := n + 1;
    }
    FilterProgressDone(pkgs, existing, kept, j, n);
  }

  function CountFailures(results: seq<HResult>): nat
  {
    if results == [] then 0
    else CountFailures(results[..|results| - 1]) + (if results[|results| - 1] != ERROR_NONE then 1 else 0)
  }

  lemma {:induction false} CountFailuresZero(results: seq<HResult>)
    ensures CountFailures(results) == 0 <==> forall i :: 0 <= i < |results| ==> results[i] == ERROR_NONE
    decreases |results|
  {
    if results != [] {
      var init := results[..|results| - 1];
      CountFailuresZero(init);
      assert forall i :: 0 <= i < |init| ==> init[i] == results[i];
    }
  }

  predicate HasEmptyField(p: PackageInfo)
  {
    p.packageId == "" || p.version == "" || p.fileLocator == ""
  }

  function CountSkipped(pkgs: seq<PackageInfo>): nat
  {
    if pkgs == [] then 0
    else CountSkipped(pkgs[..|pkgs| - 1]) + (if HasEmptyField(pkgs[|pkgs| - 1]) then 1 else 0)
  }

  /**
   * The install loop: every package gets one attempt, those with an empty
   * field included (they are counted as skipped first); `results[i]` is
   * what the installer answers on the i-th attempt.
   */
  method InstallAll(pkgs: seq<PackageInfo>, results: seq<HResult>)
    returns (attempted: seq<PackageInfo>, failedApps: nat, skippedApps: nat, installError: bool)
    requires |results| == |pkgs|
    ensures attempted == pkgs
    ensures failedApps == CountFailures(results)
    ensures skippedApps == CountSkipped(pkgs)
    ensures installError <==> exists i :: 0 <= i < |results| && results[i] != ERROR_NONE
  {
    attempted, failedApps, skippedApps, installError := [], 0, 0, false;
    var i := 0;
    while i < |pkgs|
      invariant 0 <= i <= |pkgs|
      invariant attempted == pkgs[..i]
      invariant failedApps == CountFailures(results[..i])
      invariant skippedApps == CountSkipped(pkgs[..i])
      invariant installError <==> failedApps > 0
    {
      var pkg := pkgs[i];
      assert pkgs[..i + 1][..i] == pkgs[..i];
      assert results[..i + 1][..i] == results[..i];
      if pkg.packageId == "" || pkg.version == "" || pkg.fileLocator == "" {
        skippedApps := skippedApps + 1;
      }
      attempted := attempted + [pkg];
      var installResult := results[i];
      if installResult != ERROR_NONE {
        installError := true;
        failedApps := failedApps + 1;
        i := i + 1;
        continue;
      }
      i := i + 1;
    }
    assert pkgs[..i] == pkgs && results[..i] == results;
    CountFailuresZero(results);
  }

  /**
   * The guard after `ListPackages`, as written: it returns only when the
   * call failed AND the iterator is non-null, so a null iterator goes on
   * to be dereferenced.
   */
  datatype GuardOutcome = ReturnError | Proceed | ProceedWithNull

  function ListGuardAsWritten(rc: HResult, listIsNull: bool): GuardOutcome
  {
    if rc != ERROR_NONE && !listIsNull then ReturnError
    else if listIsNull then ProceedWithNull
    else Proceed
  }

  lemma ListGuardAsWrittenDereferencesNull()
    ensures ListGuardAsWritten(ERROR_GENERAL, true) == ProceedWithNull
    ensures ListGuardAsWritten(ERROR_NONE, true) == ProceedWithNull
  {
  }

  /** The evidently intended guard: return on a failed call OR a null iterator. */
  function ListGuard(rc: HResult, listIsNull: bool): (g: GuardOutcome)
    ensures g != ProceedWithNull
    ensures g == Proceed <==> rc == ERROR_NONE && !listIsNull
  {
    if rc != ERROR_NONE || listIsNull then ReturnError else Proceed
  }

  /** Where the as-written guard does not dereference null, it agrees with the intended one. */
  lemma ListGuardAgreesOffNull(rc: HResult)
    ensures ListGuardAsWritten(rc, false) == ListGuard(rc, false)
  {
  }

  /**
   * What `StartPreinstall` finds: whether an installer object exists or
   * can be created, the directory entries (`None`: cannot be opened), the
   * `ListPackages` result and list (`None`: null iterator), and the
   * installer's answer to the i-th Install call.
   */
  datatype Environment = Environment(
    installerAvailable: bool,
    directory: Option<seq<string>>,
    listResult: HResult,
    installed: Option<seq<InstalledPackage>>,
    install: nat -> HResult)

  /** The answers to the first `n` Install calls. */
  function InstallResults(env: Environment, n: nat): (r: seq<HResult>)
    ensures |r| == n && forall i :: 0 <= i < n ==> r[i] == env.install(i)
  {
    if n == 0 then [] else InstallResults(env, n - 1) + [env.install(n - 1)]
  }

  /** The packages `StartPreinstall` tries to install when it gets that far. */
  function ToInstall(forceInstall: bool, env: Environment): seq<PackageInfo>
    requires env.directory.Some? && (!forceInstall ==> env.installed.Some?)
  {
    var pkgs := DirectoryPackages(AI_PREINSTALL_DIRECTORY, env.directory.value);
    if forceInstall then pkgs else Filtered(pkgs, env.installed.value)
  }

  /**
   * `StartPreinstall`, with the `ListPackages` guard in its intended form.
   * `attempted` lists the packages handed to Install, in order.
   */
  method StartPreinstall(forceInstall: bool, env: Environment) returns (result: HResult, attempted: seq<PackageInfo>)
    ensures !env.installerAvailable ==> result == ERROR_GENERAL && attempted == []
    ensures env.directory.None? ==> result == ERROR_GENERAL && attempted == []
    ensures !forceInstall && ListGuard(env.listResult, env.installed.None?) == ReturnError ==>
      result == ERROR_GENERAL && attempted == []
    ensures result == ERROR_NONE || result == ERROR_GENERAL
    ensures attempted != [] ==>
      env.installerAvailable && env.directory.Some? && (!forceInstall ==> env.installed.Some?)
      && attempted == ToInstall(forceInstall, env)
    ensures (env.installerAvailable && env.directory.Some?
             && (!forceInstall ==> ListGuard(env.listResult, env.installed.None?) == Proceed)) ==>
      attempted == ToInstall(forceInstall, env)
      && (result == ERROR_NONE <==> forall i :: 0 <= i < |attempted| ==> env.install(i) == ERROR_NONE)
  {
    result, attempted := ERROR_GENERAL, [];
    if !env.installerAvailable {
      return;
    }
    var ok, preinstallPackages := ReadPreinstallDirectory(AI_PREINSTALL_DIRECTORY, env.directory, []);
    if !ok {
      return;
    }
    assert preinstallPackages == DirectoryPackages(AI_PREINSTALL_DIRECTORY, env.directory.value);
    if !forceInstall {
      if ListGuard(env.listResult, env.installed.None?) == ReturnError {
        return;
      }
      preinstallPackages := FilterInstalled(preinstallPackages, env.installed.value);
    }
    var results := InstallResults(env, |preinstallPackages|);
    var failedApps, skippedApps, installError;
    attempted, failedApps, skippedApps, installError := InstallAll(preinstallPackages, results);
    if !installError {
      result := ERROR_NONE;
    }
  }
}
