/**
 * The RALF support helpers of the RuntimeManager: recursive directory
 * creation, reading the package list, mounting the overlay root
 * filesystem and reading a device node's numbers.
 *
 * The file system is reached only through oracles passed in: `mkdir`
 * answers for a path and mode, `readJson` gives the document a file
 * parses to (none when it cannot be opened or parsed), `mount` says
 * whether a mount request succeeds and `stat` gives a node's status.
 */
module RalfSupport {
  import opened Core
  import opened Text
  import opened JsonTree

  const RALF_OCI_BASE_SPEC_FILE: string := "/usr/share/ralf/oci-base-spec.json"
  const RALF_GRAPHICS_LAYER_PATH: string := "/usr/share/gpu-layer/"
  const RALF_GRAPHICS_LAYER_ROOTFS: string := RALF_GRAPHICS_LAYER_PATH + "rootfs"
  const RALF_GRAPHICS_LAYER_CONFIG: string := RALF_GRAPHICS_LAYER_PATH + "config.json"
  const RALF_OVERLAYFS_TYPE: string := "overlay"
  const RALF_APP_ROOTFS_DIR: string := "/tmp/ralf/"

  /** The permissions `create_directories` uses unless told otherwise: octal 0755. */
  const DEFAULT_DIR_MODE: int := 0x1ED

  // ---------------------------------------------------------------------------
  // create_directories

  /** What one `mkdir` call gives: success, `EEXIST`, or any other error. */
  datatype MkdirResult = Created | AlreadyExists | MkdirFailed

  /** The directories named in `s`, in order: the pieces between slashes, with empty pieces (repeated or trailing slashes) skipped. */
  function Dirs(s: string): seq<string>
    decreases |s|
  {
    if s == [] then []
    else
      var n := Find(s, '/', 0);
      (if n > 0 then [s[..n]] else []) + (if n == |s| then [] else Dirs(s[n + 1..]))
  }

  /** Each directory is a non-empty name without '/'. */
  lemma {:induction false} DirsWellFormed(s: string)
    ensures forall i :: 0 <= i < |Dirs(s)| ==> Dirs(s)[i] != [] && '/' !in Dirs(s)[i]
    decreases |s|
  {
    if s != [] {
      var n := Find(s, '/', 0);
      var head: seq<string> := if n > 0 then [s[..n]] else [];
      var rest := if n == |s| then [] else Dirs(s[n + 1..]);
      assert forall i :: 0 <= i < |head| ==> head[i] != [] && '/' !in head[i] by {
        FindFirstFrom(s, '/', 0);
        assert forall k :: 0 <= k < n ==> s[..n][k] == s[k];
      }
      assert forall i :: 0 <= i < |rest| ==> rest[i] != [] && '/' !in rest[i] by {
        if n < |s| {
          DirsWellFormed(s[n + 1..]);
        }
      }
      assert Dirs(s) == head + rest by {
        DirsUnfold(s, n);
      }
    }
  }

  /** `find` in a suffix is `find` in the whole string, counted from the suffix's start. */
  lemma {:induction false} FindDrop(s: string, c: char, pos: nat, i: nat)
    requires pos <= |s|
    ensures Find(s[pos..], c, i) == Find(s, c, pos + i) - pos
    decreases |s| - pos - i
  {
    if pos + i < |s| {
      assert s[pos..][i] == s[pos + i];
      if s[pos + i] != c {
        FindDrop(s, c, pos, i + 1);
      }
    }
  }

  /** One unfolding of `Dirs`, with the first '/' named. */
  lemma DirsUnfold(s: string, n: nat)
    requires s != [] && n == Find(s, '/', 0)
    ensures Dirs(s) == (if n > 0 then [s[..n]] else []) + (if n == |s| then [] else Dirs(s[n + 1..]))
  {
  }

  /** A '/' at `pos` names no directory: the scan goes on after it. */
  lemma DirsAtSlash(path: string, pos: nat)
    requires pos < |path| && path[pos] == '/'
    ensures Dirs(path[pos..]) == Dirs(path[pos + 1..])
  {
    var t := path[pos..];
    assert t[0] == '/';
    DirsUnfold(t, 0);
    assert t[1..] == path[pos + 1..];
  }

  /** Without a further '/', the rest of the path from `pos` is the last directory. */
  lemma DirsAtLast(path: string, pos: nat)
    requires pos < |path| && Find(path, '/', pos) == |path|
    ensures Dirs(path[pos..]) == [path[pos..]]
  {
    var t := path[pos..];
    assert Find(t, '/', 0) == |t| by {
      FindDrop(path, '/', pos, 0);
    }
    assert t[..|t|] == t;
    DirsUnfold(t, |t|);
  }

  /** The piece up to the next '/' is the first directory named from `pos`; the rest follow that '/'. */
  lemma DirsAtPiece(path: string, pos: nat, next: nat)
    requires pos < next < |path| && next == Find(path, '/', pos)
    ensures Dirs(path[pos..]) == [path[pos..next]] + Dirs(path[next + 1..])
  {
    var t := path[pos..];
    var m := next - pos;
    assert Find(t, '/', 0) == m by {
      FindDrop(path, '/', pos, 0);
    }
    assert t[..m] == path[pos..next];
    assert t[m + 1..] == path[next + 1..];
    DirsUnfold(t, m);
  }

  /** Where the loop starts scanning: past a leading '/'. */
  function Start(path: string): nat
  {
    if path != [] && path[0] == '/' then 1 else 0
  }

  /** Skipping one leading '/' does not change the directories named. */
  lemma DirsFromStart(path: string)
    ensures Dirs(path[Start(path)..]) == Dirs(path)
  {
    if Start(path) == 1 {
      DirsAtSlash(path, 0);
      assert path[0..] == path;
    }
  }

  /** Where the loop starts building: "/" for an absolute path, nothing otherwise. */
  function Base(path: string): string
  {
    if path != [] && path[0] == '/' then "/" else ""
  }

  /** One step of `current_path`: a '/' unless it is empty or already ends in one, then the directory. */
  function Extend(cur: string, dir: string): string
  {
    (if cur != "" && cur[|cur| - 1] != '/' then cur + "/" else cur) + dir
  }

  /** `current_path` after the directories `dirs` have been added to `base`. */
  function Reached(base: string, dirs: seq<string>): string
    decreases |dirs|
  {
    if dirs == [] then base else Extend(Reached(base, dirs[..|dirs| - 1]), dirs[|dirs| - 1])
  }

  /** The paths handed to `mkdir` while the directories `dirs` are added to `base`. */
  function Attempts(base: string, dirs: seq<string>): (r: seq<string>)
    ensures |r| == |dirs|
    decreases |dirs|
  {
    if dirs == [] then [] else Attempts(base, dirs[..|dirs| - 1]) + [Reached(base, dirs)]
  }

  /** Every `mkdir` call `create_directories(path)` makes when none fails, in order. */
  function MkdirPlan(path: string): seq<string>
  {
    Attempts(Base(path), Dirs(path))
  }

  /** Components joined with '/'. */
  function JoinPath(xs: seq<string>): string
    decreases |xs|
  {
    if xs == [] then ""
    else if |xs| == 1 then xs[0]
    else JoinPath(xs[..|xs| - 1]) + "/" + xs[|xs| - 1]
  }

  /** Creating the directories `ds` one after the other from `current`, stopping at the first failure. */
  function RunDirs(current: string, tried: seq<string>, ds: seq<string>, mode: int,
                   mkdir: (string, int) -> MkdirResult): (bool, seq<string>)
    decreases |ds|
  {
    if ds == [] then (true, tried)
    else
      var next := Extend(current, ds[0]);
      if mkdir(next, mode) == MkdirFailed then (false, tried + [next])
      else RunDirs(next, tried + [next], ds[1..], mode, mkdir)
  }

  /**
   * What `create_directories(path, mode)` returns and which paths it hands
   * to `mkdir`: false and nothing for the empty path; otherwise the
   * directories of the path are created in order until one fails.
   */
  function CreateOutcome(path: string, mode: int, mkdir: (string, int) -> MkdirResult): (bool, seq<string>)
  {
    if path == [] then (false, []) else RunDirs(Base(path), [], Dirs(path), mode, mkdir)
  }

  /**
   * `create_directories`: `mkdir` on each cumulative prefix of the path's
   * directories, left to right, stopping at the first error other than
   * `EEXIST`. `tried` is the list of paths handed to `mkdir`. `Base` and
   * `Start` are its handling of a leading '/', `Extend` the two statements
   * that grow `current_path`.
   */
  method CreateDirectories(path: string, mode: int, mkdir: (string, int) -> MkdirResult)
    returns (ok: bool, tried: seq<string>)
    ensures (ok, tried) == CreateOutcome(path, mode, mkdir)
  {
    tried := [];
    if |path| == 0 {
      return false, tried;
    }
    var current := Base(path);
    var pos := Start(path);
    DirsFromStart(path);
    ghost var outcome := CreateOutcome(path, mode, mkdir);
    while pos < |path|
      invariant pos <= |path|
      invariant RunDirs(current, tried, Dirs(path[pos..]), mode, mkdir) == outcome
      decreases |path| - pos
    {
      var next := Find(path, '/', pos);
      var dir := path[pos..next];
      if |dir| != 0 {
        ghost var c := Extend(current, dir);
        ghost var tried' := tried + [c];
        if next == |path| {
          assert RunDirs(current, tried, Dirs(path[pos..]), mode, mkdir) == (mkdir(c, mode) != MkdirFailed, tried') by {
            DirsAtLast(path, pos);
            assert dir == path[pos..];
            RunDirsLast(current, tried, dir, mode, mkdir);
          }
        } else {
          assert RunDirs(current, tried, Dirs(path[pos..]), mode, mkdir) ==
            if mkdir(c, mode) == MkdirFailed then (false, tried') else RunDirs(c, tried', Dirs(path[next + 1..]), mode, mkdir) by {
            DirsAtPiece(path, pos, next);
            RunDirsStep(current, tried, dir, Dirs(path[next + 1..]), mode, mkdir);
          }
        }
        current := Extend(current, dir);
        tried := tried + [current];
        if mkdir(current, mode) == MkdirFailed {
          return false, tried;
        }
      } else {
        assert Dirs(path[pos..]) == Dirs(path[next + 1..]) by {
          DirsAtSlash(path, pos);
        }
      }
      if next == |path| {
        break;
      }
      pos := next + 1;
      assert path[pos..] == path[next + 1..];
    }
    if pos == |path| {
      assert path[pos..] == [];
    }
    return true, tried;
  }

  /** Creating a first directory, then the rest. */
  lemma RunDirsStep(current: string, tried: seq<string>, dir: string, rest: seq<string>, mode: int,
                    mkdir: (string, int) -> MkdirResult)
    ensures var c := Extend(current, dir);
      RunDirs(current, tried, [dir] + rest, mode, mkdir) ==
        if mkdir(c, mode) == MkdirFailed then (false, tried + [c]) else RunDirs(c, tried + [c], rest, mode, mkdir)
  {
    var ds := [dir] + rest;
    assert ds[0] == dir && ds[1..] == rest;
  }

  /** Creating a single directory. */
  lemma RunDirsLast(current: string, tried: seq<string>, dir: string, mode: int,
                    mkdir: (string, int) -> MkdirResult)
    ensures var c := Extend(current, dir);
      RunDirs(current, tried, [dir], mode, mkdir) == (mkdir(c, mode) != MkdirFailed, tried + [c])
  {
    var ds := [dir];
    assert ds[1..] == [];
  }

  /** Adding one directory extends the current path and the list of attempts by one step. */
  lemma AddDir(base: string, done: seq<string>, dir: string)
    ensures Reached(base, done + [dir]) == Extend(Reached(base, done), dir)
    ensures Attempts(base, done + [dir]) == Attempts(base, done) + [Reached(base, done + [dir])]
  {
    assert (done + [dir])[..|done|] == done;
  }

  /**
   * Carrying on from the directories `done`: the paths tried continue the
   * plan for `done + ds`, the new ones succeeded except possibly the last,
   * the result is true exactly when the whole plan went through, and a
   * false result comes from the last attempt failing.
   */
  lemma {:induction false} RunDirsMeaning(base: string, done: seq<string>, ds: seq<string>, mode: int,
                                          mkdir: (string, int) -> MkdirResult)
    ensures var (ok, t) := RunDirs(Reached(base, done), Attempts(base, done), ds, mode, mkdir);
      var plan := Attempts(base, done + ds);
      && |done| <= |t| <= |plan| && t == plan[..|t|]
      && (forall i :: |done| <= i < |t| - 1 ==> mkdir(t[i], mode) != MkdirFailed)
      && (ok <==> (t == plan && forall i :: |done| <= i < |t| ==> mkdir(t[i], mode) != MkdirFailed))
      && (!ok ==> |done| < |t| && mkdir(t[|t| - 1], mode) == MkdirFailed)
    decreases |ds|
  {
    if ds == [] {
      assert done + ds == done;
    } else {
      var d := ds[0];
      var done' := done + [d];
      var c := Reached(base, done');
      var plan := Attempts(base, done + ds);
      assert done' + ds[1..] == done + ds;
      assert Attempts(base, done') == Attempts(base, done) + [c] && c == Extend(Reached(base, done), d) by {
        AddDir(base, done, d);
      }
      assert |done'| <= |plan| && Attempts(base, done') == plan[..|done'|] by {
        AttemptsPrefix(base, done', ds[1..]);
      }
      if mkdir(c, mode) != MkdirFailed {
        RunDirsMeaning(base, done', ds[1..], mode, mkdir);
        var t := RunDirs(c, Attempts(base, done'), ds[1..], mode, mkdir).1;
        assert t[|done|] == c by {
          assert Attempts(base, done')[|done|] == c;
        }
      }
    }
  }

  /**
   * What `create_directories` does: the paths tried are the start of the
   * plan, all of them but the last succeeded, the result is true exactly
   * when the whole plan went through without a failure, and a false result
   * on a non-empty path comes from the last attempt failing.
   */
  lemma CreateOutcomeMeaning(path: string, mode: int, mkdir: (string, int) -> MkdirResult)
    ensures var (ok, tried) := CreateOutcome(path, mode, mkdir);
      && (path == [] ==> !ok && tried == [])
      && |tried| <= |MkdirPlan(path)|
      && tried == MkdirPlan(path)[..|tried|]
      && (forall i :: 0 <= i < |tried| - 1 ==> mkdir(tried[i], mode) != MkdirFailed)
      && (ok <==> (path != [] && tried == MkdirPlan(path)
           && forall i :: 0 <= i < |tried| ==> mkdir(tried[i], mode) != MkdirFailed))
      && (!ok && path != [] ==> tried != [] && mkdir(tried[|tried| - 1], mode) == MkdirFailed)
  {
    if path != [] {
      RunDirsMeaning(Base(path), [], Dirs(path), mode, mkdir);
      assert [] + Dirs(path) == Dirs(path);
    }
  }

  /** The attempts for a list of directories start with the attempts for any prefix of it. */
  lemma {:induction false} AttemptsPrefix(base: string, xs: seq<string>, ys: seq<string>)
    ensures Attempts(base, xs) == Attempts(base, xs + ys)[..|xs|]
    decreases |ys|
  {
    if ys == [] {
      assert xs + ys == xs;
    } else {
      var front := ys[..|ys| - 1];
      AttemptsPrefix(base, xs, front);
      assert (xs + ys)[..|xs + ys| - 1] == xs + front;
    }
  }

  /** A joined path ends with the last character of its last component. */
  lemma JoinPathLast(xs: seq<string>)
    requires xs != [] && xs[|xs| - 1] != []
    ensures var j := JoinPath(xs); var last := xs[|xs| - 1];
      j != [] && j[|j| - 1] == last[|last| - 1]
  {
    var last := xs[|xs| - 1];
    if |xs| > 1 {
      assert JoinPath(xs) == JoinPath(xs[..|xs| - 1]) + "/" + last;
    }
  }

  /** The current path never ends in '/' once a directory has been added, so each step is "/" plus the next directory. */
  lemma {:induction false} ReachedJoined(base: string, dirs: seq<string>)
    requires base == "" || base == "/"
    requires dirs != [] && forall i :: 0 <= i < |dirs| ==> dirs[i] != [] && '/' !in dirs[i]
    ensures Reached(base, dirs) == base + JoinPath(dirs)
    decreases |dirs|
  {
    var front := dirs[..|dirs| - 1];
    var d := dirs[|dirs| - 1];
    if |dirs| > 1 {
      var cur := Reached(base, front);
      assert cur == base + JoinPath(front) by {
        assert forall i :: 0 <= i < |front| ==> front[i] == dirs[i];
        ReachedJoined(base, front);
      }
      var last := front[|front| - 1];
      assert cur != "" && cur[|cur| - 1] != '/' by {
        assert last == dirs[|dirs| - 2];
        JoinPathLast(front);
        assert last[|last| - 1] in last;
      }
      assert Reached(base, dirs) == cur + "/" + d;
      assert JoinPath(dirs) == JoinPath(front) + "/" + d;
    } else {
      assert Reached(base, dirs) == Extend(base, d);
      assert JoinPath(dirs) == d;
    }
  }

  /** The k-th `mkdir` goes to the base followed by the first k+1 directories joined with '/'. */
  lemma MkdirPlanCumulative(path: string, k: nat)
    requires k < |MkdirPlan(path)|
    ensures MkdirPlan(path)[k] == Base(path) + JoinPath(Dirs(path)[..k + 1])
  {
    var dirs := Dirs(path);
    var pre := dirs[..k + 1];
    assert MkdirPlan(path)[k] == Attempts(Base(path), pre)[k] by {
      AttemptsPrefix(Base(path), pre, dirs[k + 1..]);
      assert pre + dirs[k + 1..] == dirs;
    }
    assert Attempts(Base(path), pre)[k] == Reached(Base(path), pre);
    assert Reached(Base(path), pre) == Base(path) + JoinPath(pre) by {
      DirsWellFormed(path);
      assert forall i :: 0 <= i < |pre| ==> pre[i] == dirs[i];
      ReachedJoined(Base(path), pre);
    }
  }

  /** `std::string::find` on a longer string, past the first part. */
  lemma {:induction false} FindShift(p: string, q: string, c: char, i: nat)
    ensures Find(p + q, c, |p| + i) == |p| + Find(q, c, i)
    decreases |q| - i
  {
    if i < |q| {
      assert (p + q)[|p| + i] == q[i];
      if q[i] != c {
        FindShift(p, q, c, i + 1);
      }
    }
  }

  /** Searching a string with something appended finds the same '/' when the first part has one. */
  lemma {:induction false} FindAppend(a: string, t: string, c: char, pos: nat)
    requires pos <= |a|
    ensures Find(a, c, pos) < |a| ==> Find(a + t, c, pos) == Find(a, c, pos)
    ensures Find(a, c, pos) == |a| ==> Find(a + t, c, pos) == |a| + Find(t, c, 0)
    decreases |a| - pos
  {
    if pos == |a| {
      FindShift(a, t, c, 0);
    } else {
      assert (a + t)[pos] == a[pos];
      if a[pos] != c {
        FindAppend(a, t, c, pos + 1);
      }
    }
  }

  /** The directories of `a/b` are those of `a` followed by those of `b`. */
  lemma {:induction false} DirsConcat(a: string, b: string)
    ensures Dirs(a + "/" + b) == Dirs(a) + Dirs(b)
    decreases |a|
  {
    var s := a + "/" + b;
    assert s == a + ("/" + b);
    FindAppend(a, "/" + b, '/', 0);
    var n := Find(a, '/', 0);
    if n < |a| {
      assert s[..n] == a[..n];
      assert s[n + 1..] == a[n + 1..] + "/" + b;
      DirsConcat(a[n + 1..], b);
    } else {
      DirsConcatName(a, b);
    }
  }

  lemma DirsConcatName(a: string, b: string)
    requires Find(a, '/', 0) == |a|
    ensures Dirs(a + "/" + b) == Dirs(a) + Dirs(b)
  {
    var s := a + "/" + b;
    var first: seq<string> := if |a| > 0 then [a] else [];
    assert Find(s, '/', 0) == |a| by {
      assert s == a + ("/" + b);
      FindAppend(a, "/" + b, '/', 0);
      assert ("/" + b)[0] == '/';
    }
    assert s[..|a|] == a && s[|a| + 1..] == b;
    assert Dirs(s) == first + Dirs(b) by {
      DirsUnfold(s, |a|);
    }
    assert Dirs(a) == first by {
      if a != [] {
        DirsUnfold(a, |a|);
        assert a[..|a|] == a;
      }
    }
  }

  /** A trailing slash creates no extra directory. */
  lemma MkdirPlanTrailingSlash(path: string)
    requires path != []
    ensures MkdirPlan(path + "/") == MkdirPlan(path)
  {
    DirsConcat(path, "");
    assert Dirs("") == [];
    assert path + "/" + "" == path + "/";
    assert Dirs(path) + [] == Dirs(path);
    assert Dirs(path + "/") == Dirs(path);
    assert (path + "/")[0] == path[0];
    assert Base(path + "/") == Base(path);
  }

  /** A leading '/' names no directory. */
  lemma DirsSlashPrefix(b: string)
    ensures Dirs("/" + b) == Dirs(b)
  {
    var s := "/" + b;
    DirsAtSlash(s, 0);
    assert s[0..] == s && s[1..] == b;
  }

  /** A doubled slash creates no extra directory. */
  lemma MkdirPlanRepeatedSlash(a: string, b: string)
    ensures MkdirPlan(a + "//" + b) == MkdirPlan(a + "/" + b)
  {
    assert Dirs(a + "//" + b) == Dirs(a + "/" + b) by {
      assert a + "//" + b == a + "/" + ("/" + b);
      DirsConcat(a, "/" + b);
      DirsSlashPrefix(b);
      DirsConcat(a, b);
    }
    assert Base(a + "//" + b) == Base(a + "/" + b) by {
      if a == [] {
        assert (a + "//" + b)[0] == '/' && (a + "/" + b)[0] == '/';
      } else {
        assert (a + "//" + b)[0] == a[0] && (a + "/" + b)[0] == a[0];
      }
    }
  }

  /** A single name without '/' is one directory. */
  lemma DirsSingle(x: string)
    requires x != [] && '/' !in x
    ensures Dirs(x) == [x]
  {
    FindAbsent(x, '/', 0);
    assert x[..|x|] == x;
  }

  // ---------------------------------------------------------------------------
  // parseRalPkgInfo

  /** `RalfPkgInfoPair`: the package's metadata file and its mount path. */
  datatype PkgInfoPair = PkgInfoPair(metaDataPath: string, mountPath: string)

  /** The pairs read from one element of the "packages" array. */
  function PairOf(item: Json): PkgInfoPair
  {
    PkgInfoPair(AsString(Get(item, "pkgMetaDataPath")), AsString(Get(item, "pkgMountPath")))
  }

  /** The pairs the "packages" array of `root` gives, in array order. */
  function PackagePairs(root: Json): (r: seq<PkgInfoPair>)
    ensures |r| == |Items(Get(root, "packages"))|
    ensures forall i :: 0 <= i < |r| ==> r[i] == PairOf(Items(Get(root, "packages"))[i])
  {
    var items := Items(Get(root, "packages"));
    seq(|items|, i requires 0 <= i < |items| => PairOf(items[i]))
  }

  /** The package list document for the given pairs. */
  function PackagesDocument(pairs: seq<PkgInfoPair>): Json
  {
    JObj(map["packages" := JArr(seq(|pairs|, i requires 0 <= i < |pairs| =>
      JObj(map["pkgMetaDataPath" := JStr(pairs[i].metaDataPath), "pkgMountPath" := JStr(pairs[i].mountPath)])))])
  }

  /** Reading a package list document gives back the pairs it was written from. */
  lemma PackagePairsRoundTrip(pairs: seq<PkgInfoPair>)
    ensures HasLabel(PackagesDocument(pairs), "packages")
    ensures PackagePairs(PackagesDocument(pairs)) == pairs
  {
    var r := PackagePairs(PackagesDocument(pairs));
    forall i | 0 <= i < |pairs| ensures r[i] == pairs[i] {
      var item := JObj(map["pkgMetaDataPath" := JStr(pairs[i].metaDataPath), "pkgMountPath" := JStr(pairs[i].mountPath)]);
      assert Items(Get(PackagesDocument(pairs), "packages"))[i] == item;
    }
  }

  /** What `JsonFromFile` leaves in a fresh node: the parsed document, or null. */
  function LoadedRoot(readJson: string -> Option<Json>, file: string): Json
  {
    readJson(file).GetOr(JNull)
  }

  /**
   * `parseRalPkgInfo`: false when the document has no "packages" member
   * (which covers a file that cannot be read); otherwise every element's
   * pair is appended to `packages`, in order.
   */
  method ParseRalPkgInfo(file: string, readJson: string -> Option<Json>, packages0: seq<PkgInfoPair>)
    returns (ok: bool, packages: seq<PkgInfoPair>)
    ensures ok <==> HasLabel(LoadedRoot(readJson, file), "packages")
    ensures ok ==> packages == packages0 + PackagePairs(LoadedRoot(readJson, file))
    ensures !ok ==> packages == packages0
  {
    var root := readJson(file).GetOr(JNull);
    packages := packages0;
    if !HasLabel(root, "packages") {
      return false, packages;
    }
    packages := AppendPackagePairs(root, packages);
    return true, packages;
  }

  /** The loop over the "packages" array, shared by both package-list readers. */
  method AppendPackagePairs(root: Json, packages0: seq<PkgInfoPair>) returns (packages: seq<PkgInfoPair>)
    ensures packages == packages0 + PackagePairs(root)
  {
    var items := Items(Get(root, "packages"));
    packages := packages0;
    for i := 0 to |items|
      invariant packages == packages0 + PackagePairs(root)[..i]
    {
      var configData := AsString(Get(items[i], "pkgMetaDataPath"));
      var mountPath := AsString(Get(items[i], "pkgMountPath"));
      assert PackagePairs(root)[..i + 1] == PackagePairs(root)[..i] + [PkgInfoPair(configData, mountPath)];
      packages := packages + [PkgInfoPair(configData, mountPath)];
    }
    assert PackagePairs(root)[..|items|] == PackagePairs(root);
  }

  // ---------------------------------------------------------------------------
  // generateOCIRootfs

  /** The arguments of one `mount` call. */
  datatype MountRequest = MountRequest(source: string, target: string, fsType: string, options: string)

  /** `RALF_APP_ROOTFS_DIR + appInstanceId`: the overlay's work directory. */
  function WorkDir(appInstanceId: string): string
  {
    RALF_APP_ROOTFS_DIR + appInstanceId
  }

  /** The overlay mount for an instance and a colon-separated list of lower layers. */
  function OverlayMount(appInstanceId: string, lowerDirs: string): (r: MountRequest)
    ensures r.target == WorkDir(appInstanceId) + "/rootfs"
    ensures r.source == RALF_OVERLAYFS_TYPE && r.fsType == RALF_OVERLAYFS_TYPE
    ensures r.options == "lowerdir=" + lowerDirs + ",workdir=" + WorkDir(appInstanceId)
  {
    MountRequest(RALF_OVERLAYFS_TYPE, WorkDir(appInstanceId) + "/rootfs", RALF_OVERLAYFS_TYPE,
                 "lowerdir=" + lowerDirs + ",workdir=" + WorkDir(appInstanceId))
  }

  /**
   * `generateOCIRootfs`: creates the mount point (ignoring the outcome),
   * mounts the overlay and sets the output path only when the mount
   * succeeds.
   */
  method GenerateOciRootfs(appInstanceId: string, pkgMountPaths: string, ociRootfsPath0: string,
                           mkdir: (string, int) -> MkdirResult, mount: MountRequest -> bool)
    returns (ok: bool, ociRootfsPath: string, request: MountRequest, tried: seq<string>)
    ensures request == OverlayMount(appInstanceId, pkgMountPaths)
    ensures tried == CreateOutcome(request.target, DEFAULT_DIR_MODE, mkdir).1
    ensures ok <==> mount(request)
    ensures ok ==> ociRootfsPath == request.target
    ensures !ok ==> ociRootfsPath == ociRootfsPath0
  {
    var workDir := RALF_APP_ROOTFS_DIR + appInstanceId;
    var appRootfsDir := workDir + "/rootfs";
    var _, made := CreateDirectories(appRootfsDir, DEFAULT_DIR_MODE, mkdir);
    tried := made;
    var options := "lowerdir=" + pkgMountPaths + ",workdir=" + workDir;
    request := MountRequest(RALF_OVERLAYFS_TYPE, appRootfsDir, RALF_OVERLAYFS_TYPE, options);
    if !mount(request) {
      return false, ociRootfsPath0, request, tried;
    }
    return true, appRootfsDir, request, tried;
  }

  /** A leading name followed by '/' is the first directory. */
  lemma DirsCons(name: string, rest: string)
    requires name != [] && '/' !in name
    ensures Dirs(name + "/" + rest) == [name] + Dirs(rest)
  {
    DirsConcat(name, rest);
    DirsSingle(name);
  }

  /** A name followed by '/' and a path whose directories are known. */
  lemma DirsConsKnown(name: string, rest: string, ds: seq<string>)
    requires name != [] && '/' !in name && Dirs(rest) == ds
    ensures Dirs(name + "/" + rest) == [name] + ds
  {
    DirsCons(name, rest);
  }

  /** The directories of an absolute path of four names. */
  lemma DirsOfFourNames(a: string, b: string, c: string, d: string)
    requires a != [] && '/' !in a && b != [] && '/' !in b
    requires c != [] && '/' !in c && d != [] && '/' !in d
    ensures Dirs("/" + (a + "/" + (b + "/" + (c + "/" + d)))) == [a, b, c, d]
  {
    var cd := c + "/" + d;
    var bcd := b + "/" + cd;
    var abcd := a + "/" + bcd;
    DirsSingle(d);
    DirsConsKnown(c, d, [d]);
    DirsConsKnown(b, cd, [c, d]);
    DirsConsKnown(a, bcd, [b, c, d]);
    DirsSlashPrefix(abcd);
  }

  lemma RootfsDirs(appInstanceId: string)
    requires appInstanceId != [] && '/' !in appInstanceId
    ensures Dirs(WorkDir(appInstanceId) + "/rootfs") == ["tmp", "ralf", appInstanceId, "rootfs"]
  {
    var id := appInstanceId;
    assert WorkDir(id) + "/rootfs" == "/" + ("tmp" + "/" + ("ralf" + "/" + (id + "/" + "rootfs")));
    DirsOfFourNames("tmp", "ralf", id, "rootfs");
  }

  /** Adding a name to a path that does not end in '/' puts one '/' between them. */
  lemma ExtendName(cur: string, d: string)
    requires cur != "" && cur[|cur| - 1] != '/' && d != [] && '/' !in d
    ensures Extend(cur, d) == cur + "/" + d
    ensures var e := Extend(cur, d); e != "" && e[|e| - 1] != '/'
  {
    assert d[|d| - 1] in d;
  }

  /** One more name after a path that does not end in '/'. */
  lemma AttemptsSnoc(base: string, done: seq<string>, d: string, r: string)
    requires Reached(base, done) == r && r != "" && r[|r| - 1] != '/' && d != [] && '/' !in d
    ensures Reached(base, done + [d]) == r + "/" + d
    ensures Attempts(base, done + [d]) == Attempts(base, done) + [r + "/" + d]
    ensures var e := r + "/" + d; e != "" && e[|e| - 1] != '/'
  {
    AddDir(base, done, d);
    ExtendName(r, d);
  }

  /** Where the `mkdir` calls for an absolute path of three names end, and the calls made. */
  lemma AttemptsOfThreeNames(a: string, b: string, c: string)
    requires a != [] && '/' !in a && b != [] && '/' !in b && c != [] && '/' !in c
    ensures var r3 := "/" + a + "/" + b + "/" + c;
      && Reached("/", [a, b, c]) == r3 && r3[|r3| - 1] != '/'
      && Attempts("/", [a, b, c]) == ["/" + a, "/" + a + "/" + b, r3]
  {
    var r1 := "/" + a;
    var d1: seq<string> := [a];
    assert Reached("/", d1) == r1 && Attempts("/", d1) == [r1] && r1[|r1| - 1] != '/' by {
      AddDir("/", [], a);
      assert [] + [a] == d1;
      assert a[|a| - 1] in a;
    }
    var r2 := r1 + "/" + b;
    assert Reached("/", d1 + [b]) == r2 && Attempts("/", d1 + [b]) == [r1, r2] && r2[|r2| - 1] != '/' by {
      AttemptsSnoc("/", d1, b, r1);
    }
    AttemptsSnoc("/", d1 + [b], c, r2);
    assert d1 + [b] + [c] == [a, b, c];
  }

  /** The four `mkdir` calls that create an absolute path of four names. */
  lemma AttemptsOfFourNames(a: string, b: string, c: string, d: string)
    requires a != [] && '/' !in a && b != [] && '/' !in b
    requires c != [] && '/' !in c && d != [] && '/' !in d
    ensures var r1 := "/" + a; var r2 := r1 + "/" + b; var r3 := r2 + "/" + c;
      Attempts("/", [a, b, c, d]) == [r1, r2, r3, r3 + "/" + d]
  {
    var r3 := "/" + a + "/" + b + "/" + c;
    assert Reached("/", [a, b, c]) == r3 && r3[|r3| - 1] != '/'
      && Attempts("/", [a, b, c]) == ["/" + a, "/" + a + "/" + b, r3] by {
      AttemptsOfThreeNames(a, b, c);
    }
    AttemptsSnoc("/", [a, b, c], d, r3);
    assert [a, b, c] + [d] == [a, b, c, d];
  }

  /**
   * For an instance id that is a single path component, the mount point
   * is made by four `mkdir` calls: /tmp, /tmp/ralf, the work directory
   * and the rootfs directory.
   */
  lemma RootfsDirectories(appInstanceId: string)
    requires appInstanceId != [] && '/' !in appInstanceId
    ensures MkdirPlan(WorkDir(appInstanceId) + "/rootfs")
      == ["/tmp", "/tmp/ralf", WorkDir(appInstanceId), WorkDir(appInstanceId) + "/rootfs"]
  {
    var id := appInstanceId;
    var path := WorkDir(id) + "/rootfs";
    assert MkdirPlan(path) == Attempts("/", ["tmp", "ralf", id, "rootfs"]) by {
      assert path[0] == '/';
      RootfsDirs(id);
    }
    var r1 := "/" + "tmp";
    var r2 := r1 + "/" + "ralf";
    var r3 := r2 + "/" + id;
    assert Attempts("/", ["tmp", "ralf", id, "rootfs"]) == [r1, r2, r3, r3 + "/" + "rootfs"] by {
      AttemptsOfFourNames("tmp", "ralf", id, "rootfs");
    }
    assert r1 == "/tmp" && r2 == "/tmp/ralf";
    assert r3 == WorkDir(id);
    assert r3 + "/" + "rootfs" == WorkDir(id) + "/rootfs";
  }

  // ---------------------------------------------------------------------------
  // getDevNodeMajorMinor

  datatype FileKind = BlockDevice | CharDevice | OtherFile

  /** What `stat` reports about a node: the numbers in `st_rdev` and the file type. */
  datatype StatResult = StatResult(major: nat, minor: nat, kind: FileKind)

  /** A device node's numbers and type character as the OCI config records them. */
  datatype DevNode = DevNode(major: nat, minor: nat, devType: char)

  function DevTypeChar(kind: FileKind): (c: char)
    ensures c == 'b' <==> kind == BlockDevice
    ensures c == 'c' <==> kind == CharDevice
  {
    match kind
    case BlockDevice => 'b'
    case CharDevice => 'c'
    case OtherFile => '\0'
  }

  function DevNodeOf(st: StatResult): DevNode
  {
    DevNode(st.major, st.minor, DevTypeChar(st.kind))
  }

  /**
   * `getDevNodeMajorMinor` as written: the outputs are overwritten when
   * `stat` succeeds and left as they were otherwise, and the result is
   * true either way.
   */
  function GetDevNodeMajorMinorAsWritten(stat: string -> Option<StatResult>, path: string, out: DevNode): (r: (bool, DevNode))
    ensures r.0
    ensures stat(path).Some? ==> r.1 == DevNodeOf(stat(path).value)
    ensures stat(path).None? ==> r.1 == out
  {
    if stat(path).Some? then (true, DevNodeOf(stat(path).value)) else (true, out)
  }

  /** A node `stat` cannot read is still reported as resolved, with the caller's zero numbers and a NUL type. */
  lemma GetDevNodeMajorMinorAsWrittenHidesFailure(stat: string -> Option<StatResult>, path: string)
    requires stat(path).None?
    ensures GetDevNodeMajorMinorAsWritten(stat, path, DevNode(0, 0, '\0')) == (true, DevNode(0, 0, '\0'))
  {
  }

  /** `getDevNodeMajorMinor` as documented: resolved exactly when `stat` succeeds. */
  function GetDevNodeMajorMinor(stat: string -> Option<StatResult>, path: string): (r: Option<DevNode>)
    ensures r.Some? <==> stat(path).Some?
    ensures r.Some? ==> r.value == DevNodeOf(stat(path).value)
  {
    if stat(path).Some? then Some(DevNodeOf(stat(path).value)) else None
  }

  /** Where `stat` succeeds the documented reading agrees with the code. */
  lemma GetDevNodeMajorMinorAgrees(stat: string -> Option<StatResult>, path: string, out: DevNode)
    requires stat(path).Some?
    ensures GetDevNodeMajorMinorAsWritten(stat, path, out) == (true, GetDevNodeMajorMinor(stat, path).value)
  {
  }
}
