/**
 * `RalfOCIConfigGenerator`: builds the OCI `config.json` of a RALF
 * application instance by editing a JSON tree in place, starting from
 * the base spec, then the graphics layer, each package's own config,
 * the four DobbyPluginLauncher hooks and the runtime/application
 * settings, and finally writing it out.
 *
 * The tree is a `Json` value; each step takes the tree and gives the
 * edited one. Files are read through `readJson` (none when a file
 * cannot be opened or parsed), device nodes are read through `stat`
 * (what `getDevNodeMajorMinor` asks) and whether the output file opens
 * is `canOpen`.
 */
module RalfOciConfigGenerator {
  import opened Core
  import opened JsonTree
  import opened RalfSupport

  const DOBBY_PLUGIN_LAUNCHER: string := "/usr/bin/DobbyPluginLauncher"

  /** The hooks the generator installs, in the order it installs them. */
  const HOOK_OPERATIONS: seq<string> := ["createRuntime", "createContainer", "poststart", "poststop"]

  /** The video group, mapped into the container and added to the user's groups. */
  const VIDEO_GID: int := 44

  const HOME_PATH: string := "/home/root"
  const XDG_RUNTIME_DIR: string := "/tmp"
  const RIALTO_SOCKET_PREFIX: string := "/tmp/rlto-"

  // Where in the tree each list lives.
  const ENV: seq<string> := ["process", "env"]
  const ARGS: seq<string> := ["process", "args"]
  const CAPABILITIES: seq<string> := ["linux", "capabilities"]
  const MOUNTS: seq<string> := ["mounts"]
  const DEVICES: seq<string> := ["linux", "devices"]
  const RESOURCE_DEVICES: seq<string> := ["linux", "resources", "devices"]
  const UID_MAPPINGS: seq<string> := ["linux", "uidMappings"]
  const GID_MAPPINGS: seq<string> := ["linux", "gidMappings"]

  /** The fields of the application configuration the generator reads. */
  datatype AppConfig = AppConfig(appId: string, appInstanceId: string, userId: int, groupId: int,
                                 westerosSocketPath: string, appStoragePath: string)

  /** The elements of the list at `p`. */
  function ListAt(j: Json, p: seq<string>): seq<Json>
  {
    Items(GetPath(j, p))
  }

  /** `vs` appended one by one to the list at `p`. */
  function AppendedAll(j: Json, p: seq<string>, vs: seq<Json>): Json
    decreases |vs|
  {
    if vs == [] then j else AppendAt(AppendedAll(j, p, vs[..|vs| - 1]), p, vs[|vs| - 1])
  }

  /** Appending a list extends the list at `p` by exactly that list and keeps every path that parts from `p`. */
  lemma {:induction false} AppendedAllFrame(j: Json, p: seq<string>, vs: seq<Json>)
    ensures ListAt(AppendedAll(j, p, vs), p) == ListAt(j, p) + vs
    ensures forall q :: Diverge(q, p) ==> GetPath(AppendedAll(j, p, vs), q) == GetPath(j, q)
    decreases |vs|
  {
    if vs != [] {
      var front := vs[..|vs| - 1];
      AppendedAllFrame(j, p, front);
      AppendAtFrame(AppendedAll(j, p, front), p, vs[|vs| - 1]);
      assert vs == front + [vs[|vs| - 1]];
    }
  }

  /** The loop that appends each element of an array to the list at `p`. */
  method AppendEach(root0: Json, p: seq<string>, vs: seq<Json>) returns (root: Json)
    ensures root == AppendedAll(root0, p, vs)
  {
    root := root0;
    for i := 0 to |vs|
      invariant root == AppendedAll(root0, p, vs[..i])
    {
      assert vs[..i + 1][..i] == vs[..i];
      root := AppendAt(root, p, vs[i]);
    }
    assert vs[..|vs|] == vs;
  }

  /** A top-level member other than the first step of `p` is untouched by a change that keeps everything parting from `p`. */
  lemma TopKept(a: Json, b: Json, p: seq<string>, k: string)
    requires p != [] && k != p[0]
    requires forall q :: Diverge(q, p) ==> GetPath(b, q) == GetPath(a, q)
    ensures Get(b, k) == Get(a, k)
  {
    assert Diverge([k], p);
    GetPathSingle(a, k);
    GetPathSingle(b, k);
  }

  // ---------------------------------------------------------------------------
  // addMountEntry

  /** A bind mount of `source` at `destination`, mounted "rbind" and "rw". */
  function MountEntry(source: string, destination: string): Json
  {
    JObj(map["source" := JStr(source), "destination" := JStr(destination), "type" := JStr("bind"),
             "options" := JArr([JStr("rbind"), JStr("rw")])])
  }

  /** `addMountEntry`: one bind mount appended to "mounts". */
  function AddMountEntry(root: Json, source: string, destination: string): Json
  {
    AppendAt(root, MOUNTS, MountEntry(source, destination))
  }

  /** `addMountEntry` adds exactly one mount at the end and changes no other member. */
  lemma AddMountEntryFrame(root: Json, source: string, destination: string)
    ensures ListAt(AddMountEntry(root, source, destination), MOUNTS) == ListAt(root, MOUNTS) + [MountEntry(source, destination)]
    ensures forall k :: k != "mounts" ==> Get(AddMountEntry(root, source, destination), k) == Get(root, k)
  {
    AppendAtFrame(root, MOUNTS, MountEntry(source, destination));
    forall k | k != "mounts" ensures Get(AddMountEntry(root, source, destination), k) == Get(root, k) {
      TopKept(root, AddMountEntry(root, source, destination), MOUNTS, k);
    }
  }

  // ---------------------------------------------------------------------------
  // generateHooksForOCIConfig

  /** The hook entry for one operation: DobbyPluginLauncher run on the config file. */
  function HookEntry(operation: string, configFilePath: string): Json
  {
    JObj(map["path" := JStr(DOBBY_PLUGIN_LAUNCHER),
             "args" := JArr(Strings(["DobbyPluginLauncher", "-h", operation, "-c", configFilePath, "-vv"]))])
  }

  /** `generateHooksForOCIConfig(root, operation)`: "hooks"/operation becomes a fresh array holding the one entry. */
  function GenerateHook(root: Json, operation: string, configFilePath: string): (r: Json)
    ensures GetPath(r, ["hooks", operation]) == JArr([HookEntry(operation, configFilePath)])
    ensures forall q :: Diverge(q, ["hooks", operation]) ==> GetPath(r, q) == GetPath(root, q)
  {
    var p := ["hooks", operation];
    var cleared := SetPath(root, p, JArr([]));
    SetPathFrame(root, p, JArr([]));
    AppendAtFrame(cleared, p, HookEntry(operation, configFilePath));
    GetSetPath(cleared, p, Append(GetPath(cleared, p), HookEntry(operation, configFilePath)));
    AppendAt(cleared, p, HookEntry(operation, configFilePath))
  }

  /** `generateHooksForOCIConfig(root)`: the four hooks, one after the other. */
  function GenerateHooks(root: Json, configFilePath: string): Json
  {
    var r1 := GenerateHook(root, "createRuntime", configFilePath);
    var r2 := GenerateHook(r1, "createContainer", configFilePath);
    var r3 := GenerateHook(r2, "poststart", configFilePath);
    GenerateHook(r3, "poststop", configFilePath)
  }

  /** After the hooks step each of the four operations holds exactly its own entry. */
  lemma GenerateHooksInstalled(root: Json, configFilePath: string)
    ensures GetPath(GenerateHooks(root, configFilePath), ["hooks", "createRuntime"])
      == JArr([HookEntry("createRuntime", configFilePath)])
    ensures GetPath(GenerateHooks(root, configFilePath), ["hooks", "createContainer"])
      == JArr([HookEntry("createContainer", configFilePath)])
    ensures GetPath(GenerateHooks(root, configFilePath), ["hooks", "poststart"])
      == JArr([HookEntry("poststart", configFilePath)])
    ensures GetPath(GenerateHooks(root, configFilePath), ["hooks", "poststop"])
      == JArr([HookEntry("poststop", configFilePath)])
  {
    var r1 := GenerateHook(root, "createRuntime", configFilePath);
    var r2 := GenerateHook(r1, "createContainer", configFilePath);
    var r3 := GenerateHook(r2, "poststart", configFilePath);
    var r4 := GenerateHook(r3, "poststop", configFilePath);
    assert Diverge(["hooks", "createRuntime"], ["hooks", "createContainer"]);
    assert Diverge(["hooks", "createRuntime"], ["hooks", "poststart"]);
    assert Diverge(["hooks", "createRuntime"], ["hooks", "poststop"]);
    assert Diverge(["hooks", "createContainer"], ["hooks", "poststart"]);
    assert Diverge(["hooks", "createContainer"], ["hooks", "poststop"]);
    assert Diverge(["hooks", "poststart"], ["hooks", "poststop"]);
    assert GetPath(r4, ["hooks", "createRuntime"]) == GetPath(r1, ["hooks", "createRuntime"]);
    assert GetPath(r4, ["hooks", "createContainer"]) == GetPath(r2, ["hooks", "createContainer"]);
    assert GetPath(r4, ["hooks", "poststart"]) == GetPath(r3, ["hooks", "poststart"]);
  }

  /** The hooks step keeps the hooks of any other operation. */
  lemma GenerateHooksKeepsOthers(root: Json, configFilePath: string, op: string)
    requires op !in HOOK_OPERATIONS
    ensures GetPath(GenerateHooks(root, configFilePath), ["hooks", op]) == GetPath(root, ["hooks", op])
  {
    var r1 := GenerateHook(root, "createRuntime", configFilePath);
    var r2 := GenerateHook(r1, "createContainer", configFilePath);
    var r3 := GenerateHook(r2, "poststart", configFilePath);
    assert Diverge(["hooks", op], ["hooks", "createRuntime"]);
    assert Diverge(["hooks", op], ["hooks", "createContainer"]);
    assert Diverge(["hooks", op], ["hooks", "poststart"]);
    assert Diverge(["hooks", op], ["hooks", "poststop"]);
  }

  /** The hooks step changes no top-level member but "hooks". */
  lemma GenerateHooksKeepsTop(root: Json, configFilePath: string, k: string)
    requires k != "hooks"
    ensures Get(GenerateHooks(root, configFilePath), k) == Get(root, k)
  {
    var r1 := GenerateHook(root, "createRuntime", configFilePath);
    var r2 := GenerateHook(r1, "createContainer", configFilePath);
    var r3 := GenerateHook(r2, "poststart", configFilePath);
    var r4 := GenerateHook(r3, "poststop", configFilePath);
    TopKept(r3, r4, ["hooks", "poststop"], k);
    TopKept(r2, r3, ["hooks", "poststart"], k);
    TopKept(r1, r2, ["hooks", "createContainer"], k);
    TopKept(root, r1, ["hooks", "createRuntime"], k);
  }

  // ---------------------------------------------------------------------------
  // applyRuntimeAndAppConfigToOCIConfig

  /** One entry of "uidMappings"/"gidMappings": a single id mapped from the container to the host. */
  function IdMapping(containerId: int, hostId: int): Json
  {
    JObj(map["containerID" := JNum(containerId), "hostID" := JNum(hostId), "size" := JNum(1)])
  }

  /** The user inside the container: uid and gid 0, and the video group as the one additional group. */
  function UserApplied(root: Json): Json
  {
    var r1 := SetPath(root, ["process", "user", "uid"], JNum(0));
    var r2 := SetPath(r1, ["process", "user", "gid"], JNum(0));
    var r3 := SetPath(r2, ["process", "user", "additionalGids"], JArr([]));
    AppendAt(r3, ["process", "user", "additionalGids"], JNum(VIDEO_GID))
  }

  /** The Wayland socket path on the host, which is also its path in the container. */
  function WaylandSocketPath(app: AppConfig): string
  {
    XDG_RUNTIME_DIR + "/" + app.westerosSocketPath
  }

  function RialtoSocketPath(app: AppConfig): string
  {
    RIALTO_SOCKET_PREFIX + app.appInstanceId
  }

  /**
   * Four appends to the environment interleaved with three appends to the
   * mounts (what `addMountEntry` does), in the order the generator makes them.
   */
  function Interleaved(root: Json, v1: Json, v2: Json, v3: Json, v4: Json, x1: Json, x2: Json, x3: Json): Json
  {
    var e2 := AppendAt(AppendAt(root, ENV, v1), ENV, v2);
    var m1 := AppendAt(e2, MOUNTS, x1);
    var m2 := AppendAt(AppendAt(m1, ENV, v3), MOUNTS, x2);
    AppendAt(AppendAt(m2, ENV, v4), MOUNTS, x3)
  }

  /** The environment variables and bind mounts the runtime step adds, interleaved as the generator adds them. */
  function EnvAndMountsApplied(root: Json, app: AppConfig): Json
  {
    var vs := RuntimeEnv(app);
    var xs := RuntimeMounts(app);
    Interleaved(root, vs[0], vs[1], vs[2], vs[3], xs[0], xs[1], xs[2])
  }

  /** The user, then the hostname (the app id), then the working directory (HOME). */
  function UserHostCwdApplied(root: Json, app: AppConfig): Json
  {
    var r1 := UserApplied(root);
    var r2 := SetPath(r1, ["hostname"], JStr(app.appId));
    SetPath(r2, ["process", "cwd"], JStr(HOME_PATH))
  }

  /** The uid mapping to the app's user, then the gid mappings to its group and for the video group. */
  function MappingsApplied(root: Json, app: AppConfig): Json
  {
    var r4 := AppendAt(root, UID_MAPPINGS, IdMapping(0, app.userId));
    var r5 := AppendAt(r4, GID_MAPPINGS, IdMapping(0, app.groupId));
    AppendAt(r5, GID_MAPPINGS, IdMapping(VIDEO_GID, VIDEO_GID))
  }

  /** `applyRuntimeAndAppConfigToOCIConfig`: the edits it makes, in its order. */
  function RuntimeAndAppApplied(root: Json, app: AppConfig): Json
  {
    EnvAndMountsApplied(MappingsApplied(UserHostCwdApplied(root, app), app), app)
  }

  /** The four variables the runtime step appends to the environment, in order. */
  function RuntimeEnv(app: AppConfig): seq<Json>
  {
    [JStr("WAYLAND_DISPLAY=" + app.westerosSocketPath), JStr("XDG_RUNTIME_DIR=/tmp"),
     JStr("HOME=" + HOME_PATH), JStr("RIALTO_SOCKET_PATH=" + RialtoSocketPath(app))]
  }

  /** The three bind mounts the runtime step appends: the Wayland socket, the app storage as HOME, the Rialto socket. */
  function RuntimeMounts(app: AppConfig): seq<Json>
  {
    [MountEntry(WaylandSocketPath(app), WaylandSocketPath(app)), MountEntry(app.appStoragePath, HOME_PATH),
     MountEntry(RialtoSocketPath(app), RialtoSocketPath(app))]
  }

  /** The user step fixes uid, gid and the additional groups, and keeps everything outside "process"/"user". */
  lemma UserAppliedMeaning(root: Json)
    ensures GetPath(UserApplied(root), ["process", "user", "uid"]) == JNum(0)
    ensures GetPath(UserApplied(root), ["process", "user", "gid"]) == JNum(0)
    ensures GetPath(UserApplied(root), ["process", "user", "additionalGids"]) == JArr([JNum(VIDEO_GID)])
    ensures forall q :: Diverge(q, ["process", "user"]) ==> GetPath(UserApplied(root), q) == GetPath(root, q)
  {
    var p := ["process", "user"];
    var pu, pg, pa := ["process", "user", "uid"], ["process", "user", "gid"], ["process", "user", "additionalGids"];
    var v := JNum(VIDEO_GID);
    var r1 := SetPath(root, pu, JNum(0));
    var r2 := SetPath(r1, pg, JNum(0));
    var r3 := SetPath(r2, pa, JArr([]));
    assert UserApplied(root) == AppendAt(r3, pa, v);
    assert Diverge(pu, pg) && Diverge(pu, pa) && Diverge(pg, pa);
    assert GetPath(AppendAt(r3, pa, v), pu) == JNum(0) by {
      AppendAtElsewhere(r3, pa, v, pu);
      GetSetPathDiverge(r2, pu, pa, JArr([]));
      GetSetPathDiverge(r1, pu, pg, JNum(0));
      GetSetPath(root, pu, JNum(0));
    }
    assert GetPath(AppendAt(r3, pa, v), pg) == JNum(0) by {
      AppendAtElsewhere(r3, pa, v, pg);
      GetSetPathDiverge(r2, pg, pa, JArr([]));
      GetSetPath(r1, pg, JNum(0));
    }
    assert GetPath(AppendAt(r3, pa, v), pa) == JArr([v]) by {
      GetSetPath(r2, pa, JArr([]));
      GetSetPath(r3, pa, Append(GetPath(r3, pa), v));
    }
    forall q | Diverge(q, p) ensures GetPath(AppendAt(r3, pa, v), q) == GetPath(root, q) {
      DivergeBelowPair(q, "process", "user", "uid");
      DivergeBelowPair(q, "process", "user", "gid");
      DivergeBelowPair(q, "process", "user", "additionalGids");
      AppendAtElsewhere(r3, pa, v, q);
      GetSetPathDiverge(r2, q, pa, JArr([]));
      GetSetPathDiverge(r1, q, pg, JNum(0));
      GetSetPathDiverge(root, q, pu, JNum(0));
    }
  }

  /** The interleaved appends add exactly the four values to the environment. */
  lemma InterleavedEnv(root: Json, v1: Json, v2: Json, v3: Json, v4: Json, x1: Json, x2: Json, x3: Json)
    ensures ListAt(Interleaved(root, v1, v2, v3, v4, x1, x2, x3), ENV) == ListAt(root, ENV) + [v1, v2, v3, v4]
  {
    var l := ListAt(root, ENV);
    var e1 := AppendAt(root, ENV, v1);
    var e2 := AppendAt(e1, ENV, v2);
    var m1 := AppendAt(e2, MOUNTS, x1);
    var e3 := AppendAt(m1, ENV, v3);
    var m2 := AppendAt(e3, MOUNTS, x2);
    var e4 := AppendAt(m2, ENV, v4);
    assert Diverge(ENV, MOUNTS);
    assert ListAt(e2, ENV) == l + [v1] + [v2] by {
      AppendAtItems(root, ENV, v1);
      AppendAtItems(e1, ENV, v2);
    }
    assert ListAt(e3, ENV) == l + [v1] + [v2] + [v3] by {
      AppendAtElsewhere(e2, MOUNTS, x1, ENV);
      AppendAtItems(m1, ENV, v3);
    }
    assert ListAt(e4, ENV) == l + [v1] + [v2] + [v3] + [v4] by {
      AppendAtElsewhere(e3, MOUNTS, x2, ENV);
      AppendAtItems(m2, ENV, v4);
    }
    assert ListAt(Interleaved(root, v1, v2, v3, v4, x1, x2, x3), ENV) == ListAt(e4, ENV) by {
      AppendAtElsewhere(e4, MOUNTS, x3, ENV);
    }
    AppendFour(l, v1, v2, v3, v4);
  }

  /** The interleaved appends add exactly the three values to the mounts. */
  lemma InterleavedMounts(root: Json, v1: Json, v2: Json, v3: Json, v4: Json, x1: Json, x2: Json, x3: Json)
    ensures ListAt(Interleaved(root, v1, v2, v3, v4, x1, x2, x3), MOUNTS) == ListAt(root, MOUNTS) + [x1, x2, x3]
  {
    var l := ListAt(root, MOUNTS);
    var e1 := AppendAt(root, ENV, v1);
    var e2 := AppendAt(e1, ENV, v2);
    var m1 := AppendAt(e2, MOUNTS, x1);
    var e3 := AppendAt(m1, ENV, v3);
    var m2 := AppendAt(e3, MOUNTS, x2);
    var e4 := AppendAt(m2, ENV, v4);
    assert Diverge(MOUNTS, ENV);
    assert ListAt(m1, MOUNTS) == l + [x1] by {
      AppendAtElsewhere(root, ENV, v1, MOUNTS);
      AppendAtElsewhere(e1, ENV, v2, MOUNTS);
      AppendAtItems(e2, MOUNTS, x1);
    }
    assert ListAt(m2, MOUNTS) == l + [x1] + [x2] by {
      AppendAtElsewhere(m1, ENV, v3, MOUNTS);
      AppendAtItems(e3, MOUNTS, x2);
    }
    assert ListAt(Interleaved(root, v1, v2, v3, v4, x1, x2, x3), MOUNTS) == l + [x1] + [x2] + [x3] by {
      AppendAtElsewhere(m2, ENV, v4, MOUNTS);
      AppendAtItems(e4, MOUNTS, x3);
    }
    AppendThree(l, x1, x2, x3);
  }

  /** The interleaved appends keep every path that parts from both the environment and the mounts. */
  lemma InterleavedFrame(root: Json, v1: Json, v2: Json, v3: Json, v4: Json, x1: Json, x2: Json, x3: Json, q: seq<string>)
    requires Diverge(q, ENV) && Diverge(q, MOUNTS)
    ensures GetPath(Interleaved(root, v1, v2, v3, v4, x1, x2, x3), q) == GetPath(root, q)
  {
    var e1 := AppendAt(root, ENV, v1);
    var e2 := AppendAt(e1, ENV, v2);
    var m1 := AppendAt(e2, MOUNTS, x1);
    var e3 := AppendAt(m1, ENV, v3);
    var m2 := AppendAt(e3, MOUNTS, x2);
    var e4 := AppendAt(m2, ENV, v4);
    AppendAtElsewhere(root, ENV, v1, q);
    AppendAtElsewhere(e1, ENV, v2, q);
    AppendAtElsewhere(e2, MOUNTS, x1, q);
    AppendAtElsewhere(m1, ENV, v3, q);
    AppendAtElsewhere(e3, MOUNTS, x2, q);
    AppendAtElsewhere(m2, ENV, v4, q);
    AppendAtElsewhere(e4, MOUNTS, x3, q);
  }

  /** The env and mount step appends exactly the four runtime variables to the environment. */
  lemma EnvAndMountsEnv(root: Json, app: AppConfig)
    ensures ListAt(EnvAndMountsApplied(root, app), ENV) == ListAt(root, ENV) + RuntimeEnv(app)
  {
    var vs, xs := RuntimeEnv(app), RuntimeMounts(app);
    InterleavedEnv(root, vs[0], vs[1], vs[2], vs[3], xs[0], xs[1], xs[2]);
    assert vs == [vs[0], vs[1], vs[2], vs[3]];
  }

  /** The env and mount step appends exactly the three runtime bind mounts. */
  lemma EnvAndMountsMounts(root: Json, app: AppConfig)
    ensures ListAt(EnvAndMountsApplied(root, app), MOUNTS) == ListAt(root, MOUNTS) + RuntimeMounts(app)
  {
    var vs, xs := RuntimeEnv(app), RuntimeMounts(app);
    InterleavedMounts(root, vs[0], vs[1], vs[2], vs[3], xs[0], xs[1], xs[2]);
    assert xs == [xs[0], xs[1], xs[2]];
  }

  /** The env and mount step keeps every path that parts from both the environment and the mounts. */
  lemma EnvAndMountsFrame(root: Json, app: AppConfig, q: seq<string>)
    requires Diverge(q, ENV) && Diverge(q, MOUNTS)
    ensures GetPath(EnvAndMountsApplied(root, app), q) == GetPath(root, q)
  {
    var vs, xs := RuntimeEnv(app), RuntimeMounts(app);
    InterleavedFrame(root, vs[0], vs[1], vs[2], vs[3], xs[0], xs[1], xs[2], q);
  }

  /** The mapping step extends the uid and gid mappings. */
  lemma MappingsLists(root: Json, app: AppConfig)
    ensures ListAt(MappingsApplied(root, app), UID_MAPPINGS) == ListAt(root, UID_MAPPINGS) + [IdMapping(0, app.userId)]
    ensures ListAt(MappingsApplied(root, app), GID_MAPPINGS)
      == ListAt(root, GID_MAPPINGS) + [IdMapping(0, app.groupId), IdMapping(VIDEO_GID, VIDEO_GID)]
  {
    var r4 := AppendAt(root, UID_MAPPINGS, IdMapping(0, app.userId));
    var r5 := AppendAt(r4, GID_MAPPINGS, IdMapping(0, app.groupId));
    AppendAtFrame(root, UID_MAPPINGS, IdMapping(0, app.userId));
    AppendAtFrame(r4, GID_MAPPINGS, IdMapping(0, app.groupId));
    AppendAtFrame(r5, GID_MAPPINGS, IdMapping(VIDEO_GID, VIDEO_GID));
    assert Diverge(UID_MAPPINGS, GID_MAPPINGS) && Diverge(GID_MAPPINGS, UID_MAPPINGS);
    assert GetPath(r4, GID_MAPPINGS) == GetPath(root, GID_MAPPINGS);
  }

  /** The mapping step keeps every path parting from both mapping lists. */
  lemma MappingsFrame(root: Json, app: AppConfig, q: seq<string>)
    requires Diverge(q, UID_MAPPINGS) && Diverge(q, GID_MAPPINGS)
    ensures GetPath(MappingsApplied(root, app), q) == GetPath(root, q)
  {
    var r4 := AppendAt(root, UID_MAPPINGS, IdMapping(0, app.userId));
    var r5 := AppendAt(r4, GID_MAPPINGS, IdMapping(0, app.groupId));
    AppendAtFrame(root, UID_MAPPINGS, IdMapping(0, app.userId));
    AppendAtFrame(r4, GID_MAPPINGS, IdMapping(0, app.groupId));
    AppendAtFrame(r5, GID_MAPPINGS, IdMapping(VIDEO_GID, VIDEO_GID));
  }

  /** The settings of the first three edits survive the rest of the runtime step. */
  lemma RuntimeAfterCwd(root: Json, app: AppConfig, q: seq<string>)
    requires Diverge(q, UID_MAPPINGS) && Diverge(q, GID_MAPPINGS) && Diverge(q, ENV) && Diverge(q, MOUNTS)
    ensures GetPath(RuntimeAndAppApplied(root, app), q) == GetPath(UserHostCwdApplied(root, app), q)
  {
    var mid := MappingsApplied(UserHostCwdApplied(root, app), app);
    EnvAndMountsFrame(mid, app, q);
    MappingsFrame(UserHostCwdApplied(root, app), app, q);
  }

  /** The hostname and working directory are set, and the user settings survive them. */
  lemma UserHostCwdMeaning(root: Json, app: AppConfig)
    ensures GetPath(UserHostCwdApplied(root, app), ["process", "user", "uid"]) == JNum(0)
    ensures GetPath(UserHostCwdApplied(root, app), ["process", "user", "gid"]) == JNum(0)
    ensures GetPath(UserHostCwdApplied(root, app), ["process", "user", "additionalGids"]) == JArr([JNum(VIDEO_GID)])
    ensures GetPath(UserHostCwdApplied(root, app), ["hostname"]) == JStr(app.appId)
    ensures GetPath(UserHostCwdApplied(root, app), ["process", "cwd"]) == JStr(HOME_PATH)
  {
    var pu, pg, pa := ["process", "user", "uid"], ["process", "user", "gid"], ["process", "user", "additionalGids"];
    var h, cwd := ["hostname"], ["process", "cwd"];
    var r1 := UserApplied(root);
    var r2 := SetPath(r1, h, JStr(app.appId));
    var r3 := SetPath(r2, cwd, JStr(HOME_PATH));
    assert GetPath(r3, pu) == JNum(0) by {
      assert Diverge(pu, h) && Diverge(pu, cwd);
      UserAppliedMeaning(root);
      GetSetPathDiverge(r1, pu, h, JStr(app.appId));
      GetSetPathDiverge(r2, pu, cwd, JStr(HOME_PATH));
    }
    assert GetPath(r3, pg) == JNum(0) by {
      assert Diverge(pg, h) && Diverge(pg, cwd);
      UserAppliedMeaning(root);
      GetSetPathDiverge(r1, pg, h, JStr(app.appId));
      GetSetPathDiverge(r2, pg, cwd, JStr(HOME_PATH));
    }
    assert GetPath(r3, pa) == JArr([JNum(VIDEO_GID)]) by {
      assert Diverge(pa, h) && Diverge(pa, cwd);
      UserAppliedMeaning(root);
      GetSetPathDiverge(r1, pa, h, JStr(app.appId));
      GetSetPathDiverge(r2, pa, cwd, JStr(HOME_PATH));
    }
    assert GetPath(r3, h) == JStr(app.appId) by {
      assert Diverge(h, cwd);
      GetSetPath(r1, h, JStr(app.appId));
      GetSetPathDiverge(r2, h, cwd, JStr(HOME_PATH));
    }
    GetSetPath(r2, cwd, JStr(HOME_PATH));
  }

  /** The runtime step runs the container user as root with the video group, names the host after the app and starts in HOME. */
  lemma RuntimeAndAppUser(root: Json, app: AppConfig)
    ensures GetPath(RuntimeAndAppApplied(root, app), ["process", "user", "uid"]) == JNum(0)
    ensures GetPath(RuntimeAndAppApplied(root, app), ["process", "user", "gid"]) == JNum(0)
    ensures GetPath(RuntimeAndAppApplied(root, app), ["process", "user", "additionalGids"]) == JArr([JNum(VIDEO_GID)])
    ensures Get(RuntimeAndAppApplied(root, app), "hostname") == JStr(app.appId)
    ensures GetPath(RuntimeAndAppApplied(root, app), ["process", "cwd"]) == JStr(HOME_PATH)
  {
    UserHostCwdMeaning(root, app);
    RuntimeAfterCwd(root, app, ["process", "user", "uid"]);
    RuntimeAfterCwd(root, app, ["process", "user", "gid"]);
    RuntimeAfterCwd(root, app, ["process", "user", "additionalGids"]);
    RuntimeAfterCwd(root, app, ["hostname"]);
    RuntimeAfterCwd(root, app, ["process", "cwd"]);
    GetPathSingle(RuntimeAndAppApplied(root, app), "hostname");
  }

  /** The user and naming edits keep every path that parts from what they set. */
  lemma UserHostCwdFrame(root: Json, app: AppConfig, q: seq<string>)
    requires Diverge(q, ["process", "user"]) && Diverge(q, ["hostname"]) && Diverge(q, ["process", "cwd"])
    ensures GetPath(UserHostCwdApplied(root, app), q) == GetPath(root, q)
  {
    var r1 := UserApplied(root);
    var r2 := SetPath(r1, ["hostname"], JStr(app.appId));
    UserAppliedMeaning(root);
    SetPathFrame(r1, ["hostname"], JStr(app.appId));
    SetPathFrame(r2, ["process", "cwd"], JStr(HOME_PATH));
  }

  /** What the runtime step does not set it keeps. */
  lemma RuntimeAndAppFrame(root: Json, app: AppConfig, q: seq<string>)
    requires Diverge(q, ["process", "user"]) && Diverge(q, ["hostname"]) && Diverge(q, ["process", "cwd"])
    requires Diverge(q, UID_MAPPINGS) && Diverge(q, GID_MAPPINGS) && Diverge(q, ENV) && Diverge(q, MOUNTS)
    ensures GetPath(RuntimeAndAppApplied(root, app), q) == GetPath(root, q)
  {
    RuntimeAfterCwd(root, app, q);
    UserHostCwdFrame(root, app, q);
  }

  /** The four lists the runtime step extends lie apart from one another and from the user, hostname and cwd it sets. */
  lemma RuntimeListsApart(q: seq<string>)
    requires q == ENV || q == MOUNTS || q == UID_MAPPINGS || q == GID_MAPPINGS
    ensures Diverge(q, ["process", "user"]) && Diverge(q, ["hostname"]) && Diverge(q, ["process", "cwd"])
    ensures q == ENV || q == MOUNTS ==> Diverge(q, UID_MAPPINGS) && Diverge(q, GID_MAPPINGS)
    ensures q == UID_MAPPINGS || q == GID_MAPPINGS ==> Diverge(q, ENV) && Diverge(q, MOUNTS)
  {
  }

  /** The runtime step extends the environment, the mounts and the id mappings by exactly its own entries. */
  lemma RuntimeAndAppLists(root: Json, app: AppConfig)
    ensures ListAt(RuntimeAndAppApplied(root, app), ENV) == ListAt(root, ENV) + RuntimeEnv(app)
    ensures ListAt(RuntimeAndAppApplied(root, app), MOUNTS) == ListAt(root, MOUNTS) + RuntimeMounts(app)
    ensures ListAt(RuntimeAndAppApplied(root, app), UID_MAPPINGS) == ListAt(root, UID_MAPPINGS) + [IdMapping(0, app.userId)]
    ensures ListAt(RuntimeAndAppApplied(root, app), GID_MAPPINGS)
      == ListAt(root, GID_MAPPINGS) + [IdMapping(0, app.groupId), IdMapping(VIDEO_GID, VIDEO_GID)]
  {
    var u := UserHostCwdApplied(root, app);
    var m := MappingsApplied(u, app);
    var r := EnvAndMountsApplied(m, app);
    assert ListAt(r, ENV) == ListAt(root, ENV) + RuntimeEnv(app) by {
      RuntimeListsApart(ENV);
      UserHostCwdFrame(root, app, ENV);
      MappingsFrame(u, app, ENV);
      EnvAndMountsEnv(m, app);
    }
    assert ListAt(r, MOUNTS) == ListAt(root, MOUNTS) + RuntimeMounts(app) by {
      RuntimeListsApart(MOUNTS);
      UserHostCwdFrame(root, app, MOUNTS);
      MappingsFrame(u, app, MOUNTS);
      EnvAndMountsMounts(m, app);
    }
    assert ListAt(r, UID_MAPPINGS) == ListAt(root, UID_MAPPINGS) + [IdMapping(0, app.userId)] by {
      RuntimeListsApart(UID_MAPPINGS);
      UserHostCwdFrame(root, app, UID_MAPPINGS);
      MappingsLists(u, app);
      EnvAndMountsFrame(m, app, UID_MAPPINGS);
    }
    assert ListAt(r, GID_MAPPINGS) == ListAt(root, GID_MAPPINGS) + [IdMapping(0, app.groupId), IdMapping(VIDEO_GID, VIDEO_GID)] by {
      RuntimeListsApart(GID_MAPPINGS);
      UserHostCwdFrame(root, app, GID_MAPPINGS);
      MappingsLists(u, app);
      EnvAndMountsFrame(m, app, GID_MAPPINGS);
    }
  }

  // ---------------------------------------------------------------------------
  // applyGraphicsConfigToOCIConfig

  const DEV_NODES: seq<string> := ["vendorGpuSupport", "devNodes"]

  /** Whether the graphics configuration names its device nodes ("vendorGpuSupport"/"devNodes"). */
  predicate HasDevNodes(graphics: Json)
  {
    HasLabel(graphics, "vendorGpuSupport") && HasLabel(Get(graphics, "vendorGpuSupport"), "devNodes")
  }

  /** The entry of "linux"/"devices" for a resolved node. */
  function DeviceEntry(path: string, d: DevNode): Json
  {
    JObj(map["path" := JStr(path), "type" := JStr([d.devType]), "major" := JNum(d.major), "minor" := JNum(d.minor)])
  }

  /** The entry of "linux"/"resources"/"devices" for a resolved node: read, write and mknod allowed. */
  function ResourceEntry(d: DevNode): Json
  {
    JObj(map["type" := JStr([d.devType]), "major" := JNum(d.major), "minor" := JNum(d.minor),
             "access" := JStr("rwm"), "allow" := JBool(true)])
  }

  /** One iteration of the device loop, given what the node resolved to. */
  function DeviceAddedFor(root: Json, path: string, d: Option<DevNode>): Json
  {
    if d.Some? then AppendAt(AppendAt(root, DEVICES, DeviceEntry(path, d.value)), RESOURCE_DEVICES, ResourceEntry(d.value))
    else root
  }

  /** The device loop over the listed nodes, each resolved by `getDevNodeMajorMinor`. */
  function DevicesAdded(root: Json, stat: string -> Option<StatResult>, nodes: seq<Json>): Json
    decreases |nodes|
  {
    if nodes == [] then root
    else
      var path := AsString(nodes[|nodes| - 1]);
      DeviceAddedFor(DevicesAdded(root, stat, nodes[..|nodes| - 1]), path, GetDevNodeMajorMinor(stat, path))
  }

  /** The listed nodes that resolve, with what they resolve to, in list order. */
  function Resolved(stat: string -> Option<StatResult>, nodes: seq<Json>): (r: seq<(string, DevNode)>)
    ensures |r| <= |nodes|
    ensures forall i :: 0 <= i < |r| ==> stat(r[i].0).Some? && r[i].1 == DevNodeOf(stat(r[i].0).value)
    decreases |nodes|
  {
    if nodes == [] then []
    else
      var path := AsString(nodes[|nodes| - 1]);
      var d := GetDevNodeMajorMinor(stat, path);
      Resolved(stat, nodes[..|nodes| - 1]) + (if d.Some? then [(path, d.value)] else [])
  }

  /** Every node of a list whose nodes all resolve is kept, in order. */
  lemma {:induction false} ResolvedAll(stat: string -> Option<StatResult>, nodes: seq<Json>)
    requires forall i :: 0 <= i < |nodes| ==> stat(AsString(nodes[i])).Some?
    ensures |Resolved(stat, nodes)| == |nodes|
    ensures forall i :: 0 <= i < |nodes| ==> Resolved(stat, nodes)[i].0 == AsString(nodes[i])
    decreases |nodes|
  {
    if nodes != [] {
      var front := nodes[..|nodes| - 1];
      assert forall i :: 0 <= i < |front| ==> front[i] == nodes[i];
      ResolvedAll(stat, front);
    }
  }

  function DeviceEntries(rs: seq<(string, DevNode)>): (r: seq<Json>)
    ensures |r| == |rs|
    ensures forall i :: 0 <= i < |rs| ==> r[i] == DeviceEntry(rs[i].0, rs[i].1)
  {
    seq(|rs|, i requires 0 <= i < |rs| => DeviceEntry(rs[i].0, rs[i].1))
  }

  function ResourceEntries(rs: seq<(string, DevNode)>): (r: seq<Json>)
    ensures |r| == |rs|
    ensures forall i :: 0 <= i < |rs| ==> r[i] == ResourceEntry(rs[i].1)
  {
    seq(|rs|, i requires 0 <= i < |rs| => ResourceEntry(rs[i].1))
  }

  /** "linux"/"devices" and "linux"/"resources"/"devices" part ways. */
  lemma DeviceListsApart()
    ensures Diverge(RESOURCE_DEVICES, DEVICES) && Diverge(DEVICES, RESOURCE_DEVICES)
  {
  }

  /** One iteration adds one device entry for a resolved node and none for an unresolved one. */
  lemma DeviceAddedForDevices(root: Json, path: string, d: Option<DevNode>)
    ensures ListAt(DeviceAddedFor(root, path, d), DEVICES)
      == ListAt(root, DEVICES) + (if d.Some? then [DeviceEntry(path, d.value)] else [])
  {
    if d.Some? {
      var r1 := AppendAt(root, DEVICES, DeviceEntry(path, d.value));
      assert ListAt(r1, DEVICES) == ListAt(root, DEVICES) + [DeviceEntry(path, d.value)] by {
        AppendAtItems(root, DEVICES, DeviceEntry(path, d.value));
      }
      DeviceListsApart();
      AppendAtElsewhere(r1, RESOURCE_DEVICES, ResourceEntry(d.value), DEVICES);
    }
  }

  /** One iteration adds one resource entry for a resolved node and none for an unresolved one. */
  lemma DeviceAddedForResources(root: Json, path: string, d: Option<DevNode>)
    ensures ListAt(DeviceAddedFor(root, path, d), RESOURCE_DEVICES)
      == ListAt(root, RESOURCE_DEVICES) + (if d.Some? then [ResourceEntry(d.value)] else [])
  {
    if d.Some? {
      var r1 := AppendAt(root, DEVICES, DeviceEntry(path, d.value));
      assert ListAt(r1, RESOURCE_DEVICES) == ListAt(root, RESOURCE_DEVICES) by {
        DeviceListsApart();
        AppendAtElsewhere(root, DEVICES, DeviceEntry(path, d.value), RESOURCE_DEVICES);
      }
      AppendAtItems(r1, RESOURCE_DEVICES, ResourceEntry(d.value));
    }
  }

  /** One iteration changes nothing outside the two lists. */
  lemma DeviceAddedForElsewhere(root: Json, path: string, d: Option<DevNode>, q: seq<string>)
    requires Diverge(q, DEVICES) && Diverge(q, RESOURCE_DEVICES)
    ensures GetPath(DeviceAddedFor(root, path, d), q) == GetPath(root, q)
  {
    if d.Some? {
      var r1 := AppendAt(root, DEVICES, DeviceEntry(path, d.value));
      AppendAtElsewhere(root, DEVICES, DeviceEntry(path, d.value), q);
      AppendAtElsewhere(r1, RESOURCE_DEVICES, ResourceEntry(d.value), q);
    }
  }

  lemma DeviceEntriesConcat(a: seq<(string, DevNode)>, b: seq<(string, DevNode)>)
    ensures DeviceEntries(a + b) == DeviceEntries(a) + DeviceEntries(b)
    ensures ResourceEntries(a + b) == ResourceEntries(a) + ResourceEntries(b)
  {
  }

  /** The device loop appends one device entry per resolved node, in order. */
  lemma {:induction false} DevicesAddedDevices(root: Json, stat: string -> Option<StatResult>, nodes: seq<Json>)
    ensures ListAt(DevicesAdded(root, stat, nodes), DEVICES) == ListAt(root, DEVICES) + DeviceEntries(Resolved(stat, nodes))
    decreases |nodes|
  {
    if nodes != [] {
      var front := nodes[..|nodes| - 1];
      var path := AsString(nodes[|nodes| - 1]);
      var d := GetDevNodeMajorMinor(stat, path);
      var r0 := DevicesAdded(root, stat, front);
      var rs := Resolved(stat, front);
      var tail := if d.Some? then [(path, d.value)] else [];
      var l := ListAt(root, DEVICES);
      assert ListAt(r0, DEVICES) == l + DeviceEntries(rs) by {
        DevicesAddedDevices(root, stat, front);
      }
      assert ListAt(DevicesAdded(root, stat, nodes), DEVICES) == ListAt(r0, DEVICES) + DeviceEntries(tail) by {
        DeviceAddedForDevices(r0, path, d);
      }
      assert DeviceEntries(Resolved(stat, nodes)) == DeviceEntries(rs) + DeviceEntries(tail) by {
        DeviceEntriesConcat(rs, tail);
      }
      ConcatAssoc(l, DeviceEntries(rs), DeviceEntries(tail));
    }
  }

  /** The device loop appends one resource entry per resolved node, in order. */
  lemma {:induction false} DevicesAddedResources(root: Json, stat: string -> Option<StatResult>, nodes: seq<Json>)
    ensures ListAt(DevicesAdded(root, stat, nodes), RESOURCE_DEVICES)
      == ListAt(root, RESOURCE_DEVICES) + ResourceEntries(Resolved(stat, nodes))
    decreases |nodes|
  {
    if nodes != [] {
      var front := nodes[..|nodes| - 1];
      var path := AsString(nodes[|nodes| - 1]);
      var d := GetDevNodeMajorMinor(stat, path);
      var r0 := DevicesAdded(root, stat, front);
      var rs := Resolved(stat, front);
      var tail := if d.Some? then [(path, d.value)] else [];
      var l := ListAt(root, RESOURCE_DEVICES);
      assert ListAt(r0, RESOURCE_DEVICES) == l + ResourceEntries(rs) by {
        DevicesAddedResources(root, stat, front);
      }
      assert ListAt(DevicesAdded(root, stat, nodes), RESOURCE_DEVICES) == ListAt(r0, RESOURCE_DEVICES) + ResourceEntries(tail) by {
        DeviceAddedForResources(r0, path, d);
      }
      assert ResourceEntries(Resolved(stat, nodes)) == ResourceEntries(rs) + ResourceEntries(tail) by {
        DeviceEntriesConcat(rs, tail);
      }
      ConcatAssoc(l, ResourceEntries(rs), ResourceEntries(tail));
    }
  }

  /** The device loop changes nothing outside the two lists. */
  lemma {:induction false} DevicesAddedFrame(root: Json, stat: string -> Option<StatResult>, nodes: seq<Json>, q: seq<string>)
    requires Diverge(q, DEVICES) && Diverge(q, RESOURCE_DEVICES)
    ensures GetPath(DevicesAdded(root, stat, nodes), q) == GetPath(root, q)
    decreases |nodes|
  {
    if nodes != [] {
      var front := nodes[..|nodes| - 1];
      var path := AsString(nodes[|nodes| - 1]);
      var r0 := DevicesAdded(root, stat, front);
      assert GetPath(r0, q) == GetPath(root, q) by {
        DevicesAddedFrame(root, stat, front, q);
      }
      DeviceAddedForElsewhere(r0, path, GetDevNodeMajorMinor(stat, path), q);
    }
  }

  /** What `applyGraphicsConfigToOCIConfig` makes of the root, or None when it reports failure. */
  function GraphicsApplied(root: Json, graphics: Json, stat: string -> Option<StatResult>): (r: Option<Json>)
    ensures r.Some? <==> HasDevNodes(graphics)
  {
    if HasDevNodes(graphics) then Some(DevicesAdded(root, stat, Items(GetPath(graphics, DEV_NODES)))) else None
  }

  /** `applyGraphicsConfigToOCIConfig`: fails exactly when the device node list is missing; otherwise the device loop. */
  method ApplyGraphicsConfig(root0: Json, graphics: Json, stat: string -> Option<StatResult>) returns (ok: bool, root: Json)
    ensures ok <==> HasDevNodes(graphics)
    ensures ok ==> Some(root) == GraphicsApplied(root0, graphics, stat)
    ensures !ok ==> root == root0
  {
    root := root0;
    ok := false;
    if HasLabel(graphics, "vendorGpuSupport") && HasLabel(Get(graphics, "vendorGpuSupport"), "devNodes") {
      var devNodes := Items(Get(Get(graphics, "vendorGpuSupport"), "devNodes"));
      assert devNodes == Items(GetPath(graphics, DEV_NODES));
      for i := 0 to |devNodes|
        invariant root == DevicesAdded(root0, stat, devNodes[..i])
      {
        assert devNodes[..i + 1][..i] == devNodes[..i];
        var devNodePath := AsString(devNodes[i]);
        var d := GetDevNodeMajorMinor(stat, devNodePath);
        if d.Some? {
          root := AppendAt(root, DEVICES, DeviceEntry(devNodePath, d.value));
          root := AppendAt(root, RESOURCE_DEVICES, ResourceEntry(d.value));
        }
      }
      assert devNodes[..|devNodes|] == devNodes;
      ok := true;
    }
  }

  /**
   * With `getDevNodeMajorMinor` as written, which reports success even
   * when `stat` fails, a node that cannot be read still gets a device
   * entry: major 0, minor 0 and a NUL type.
   */
  function DeviceAddedAsWritten(root: Json, stat: string -> Option<StatResult>, path: string): Json
  {
    var (found, d) := GetDevNodeMajorMinorAsWritten(stat, path, DevNode(0, 0, '\0'));
    if found then AppendAt(AppendAt(root, DEVICES, DeviceEntry(path, d)), RESOURCE_DEVICES, ResourceEntry(d)) else root
  }

  lemma DeviceAddedAsWrittenAddsUnreadableNode(root: Json, stat: string -> Option<StatResult>, path: string)
    requires stat(path).None?
    ensures ListAt(DeviceAddedAsWritten(root, stat, path), DEVICES) == ListAt(root, DEVICES) + [DeviceEntry(path, DevNode(0, 0, '\0'))]
    ensures ListAt(DeviceAddedFor(root, path, GetDevNodeMajorMinor(stat, path)), DEVICES) == ListAt(root, DEVICES)
  {
    GetDevNodeMajorMinorAsWrittenHidesFailure(stat, path);
    DeviceAddedForDevices(root, path, Some(DevNode(0, 0, '\0')));
  }

  // ---------------------------------------------------------------------------
  // applyRalfPackageConfigToOCIConfig

  /** The environment entry for one configuration: "key=value". */
  function EnvEntry(config: Json): Json
  {
    JStr(AsString(Get(config, "key")) + "=" + AsString(Get(config, "value")))
  }

  predicate IsKeyValue(config: Json)
  {
    HasLabel(config, "key") && HasLabel(config, "value")
  }

  /** The environment entries of the configurations that carry both a key and a value, in order. */
  function EnvEntries(configs: seq<Json>): (r: seq<Json>)
    ensures |r| <= |configs|
    decreases |configs|
  {
    if configs == [] then []
    else
      var c := configs[|configs| - 1];
      EnvEntries(configs[..|configs| - 1]) + (if IsKeyValue(c) then [EnvEntry(c)] else [])
  }

  /** Configurations that all carry a key and a value each give their own entry, in order. */
  lemma {:induction false} EnvEntriesAll(configs: seq<Json>)
    requires forall i :: 0 <= i < |configs| ==> IsKeyValue(configs[i])
    ensures |EnvEntries(configs)| == |configs|
    ensures forall i :: 0 <= i < |configs| ==> EnvEntries(configs)[i] == EnvEntry(configs[i])
    decreases |configs|
  {
    if configs != [] {
      var front := configs[..|configs| - 1];
      var last := configs[|configs| - 1];
      var ef := EnvEntries(front);
      assert |ef| == |front| && forall i :: 0 <= i < |front| ==> ef[i] == EnvEntry(front[i]) by {
        assert forall i :: 0 <= i < |front| ==> front[i] == configs[i];
        EnvEntriesAll(front);
      }
      assert EnvEntries(configs) == ef + [EnvEntry(last)] by {
        assert IsKeyValue(last);
      }
      forall i | 0 <= i < |configs|
        ensures EnvEntries(configs)[i] == EnvEntry(configs[i])
      {
        if i < |front| {
          assert front[i] == configs[i];
        }
      }
    }
  }

  /** A configuration without a key or a value adds nothing. */
  lemma EnvEntriesSkips(configs: seq<Json>, c: Json)
    requires !IsKeyValue(c)
    ensures EnvEntries(configs + [c]) == EnvEntries(configs)
  {
    assert (configs + [c])[..|configs|] == configs;
  }

  /** The loop over "configurations". */
  method AppendConfigurations(root0: Json, configs: seq<Json>) returns (root: Json)
    ensures root == AppendedAll(root0, ENV, EnvEntries(configs))
  {
    root := root0;
    for i := 0 to |configs|
      invariant root == AppendedAll(root0, ENV, EnvEntries(configs[..i]))
    {
      assert configs[..i + 1][..i] == configs[..i];
      var config := configs[i];
      if HasLabel(config, "key") && HasLabel(config, "value") {
        var envVar := AsString(Get(config, "key")) + "=" + AsString(Get(config, "value"));
        var es := EnvEntries(configs[..i]);
        assert EnvEntries(configs[..i + 1]) == es + [JStr(envVar)];
        assert (es + [JStr(envVar)])[..|es|] == es;
        root := AppendAt(root, ENV, JStr(envVar));
      } else {
        assert EnvEntries(configs[..i + 1]) == EnvEntries(configs[..i]);
      }
    }
    assert configs[..|configs|] == configs;
  }

  /** The entry point, if any, as a new last argument. */
  function EntryPointApplied(root: Json, pkg: Json): Json
  {
    if HasLabel(pkg, "entryPoint") then AppendAt(root, ARGS, Get(pkg, "entryPoint")) else root
  }

  function OptionalItems(pkg: Json, key: string): seq<Json>
  {
    if HasLabel(pkg, key) then Items(Get(pkg, key)) else []
  }

  /** `applyRalfPackageConfigToOCIConfig`: entry point, then permissions as capabilities, then configurations as environment. */
  function PackageConfigApplied(root: Json, pkg: Json): Json
  {
    var r1 := EntryPointApplied(root, pkg);
    var r2 := AppendedAll(r1, CAPABILITIES, OptionalItems(pkg, "permissions"));
    AppendedAll(r2, ENV, EnvEntries(OptionalItems(pkg, "configurations")))
  }

  /** A package adds its entry point to the arguments, its permissions to the capabilities and its settings to the environment. */
  lemma PackageConfigLists(root: Json, pkg: Json)
    ensures ListAt(PackageConfigApplied(root, pkg), ARGS)
      == ListAt(root, ARGS) + (if HasLabel(pkg, "entryPoint") then [Get(pkg, "entryPoint")] else [])
    ensures ListAt(PackageConfigApplied(root, pkg), CAPABILITIES) == ListAt(root, CAPABILITIES) + OptionalItems(pkg, "permissions")
    ensures ListAt(PackageConfigApplied(root, pkg), ENV) == ListAt(root, ENV) + EnvEntries(OptionalItems(pkg, "configurations"))
  {
    var r1 := EntryPointApplied(root, pkg);
    var r2 := AppendedAll(r1, CAPABILITIES, OptionalItems(pkg, "permissions"));
    if HasLabel(pkg, "entryPoint") {
      AppendAtFrame(root, ARGS, Get(pkg, "entryPoint"));
    }
    assert Diverge(ARGS, CAPABILITIES) && Diverge(ARGS, ENV) && Diverge(CAPABILITIES, ARGS);
    assert Diverge(CAPABILITIES, ENV) && Diverge(ENV, ARGS) && Diverge(ENV, CAPABILITIES);
    AppendedAllFrame(r1, CAPABILITIES, OptionalItems(pkg, "permissions"));
    AppendedAllFrame(r2, ENV, EnvEntries(OptionalItems(pkg, "configurations")));
  }

  /** A package touches nothing but the arguments, the capabilities and the environment. */
  lemma PackageConfigFrame(root: Json, pkg: Json, q: seq<string>)
    requires Diverge(q, ARGS) && Diverge(q, CAPABILITIES) && Diverge(q, ENV)
    ensures GetPath(PackageConfigApplied(root, pkg), q) == GetPath(root, q)
  {
    var r1 := EntryPointApplied(root, pkg);
    var r2 := AppendedAll(r1, CAPABILITIES, OptionalItems(pkg, "permissions"));
    if HasLabel(pkg, "entryPoint") {
      AppendAtFrame(root, ARGS, Get(pkg, "entryPoint"));
    }
    AppendedAllFrame(r1, CAPABILITIES, OptionalItems(pkg, "permissions"));
    AppendedAllFrame(r2, ENV, EnvEntries(OptionalItems(pkg, "configurations")));
  }

  /** `applyRalfPackageConfigToOCIConfig`: always reports success. */
  method ApplyRalfPackageConfig(root0: Json, pkg: Json) returns (ok: bool, root: Json)
    ensures ok
    ensures root == PackageConfigApplied(root0, pkg)
  {
    root := root0;
    if HasLabel(pkg, "entryPoint") {
      root := AppendAt(root, ARGS, Get(pkg, "entryPoint"));
    }
    if HasLabel(pkg, "permissions") {
      root := AppendEach(root, CAPABILITIES, Items(Get(pkg, "permissions")));
    } else {
      assert AppendedAll(root, CAPABILITIES, []) == root;
    }
    if HasLabel(pkg, "configurations") {
      root := AppendConfigurations(root, Items(Get(pkg, "configurations")));
    } else {
      assert AppendedAll(root, ENV, EnvEntries([])) == root;
    }
    ok := true;
  }

  // ---------------------------------------------------------------------------
  // generateRalfOCIConfig

  /** The package loop: each package's configuration file loaded and applied, None once a file cannot be loaded. */
  function PackagesApplied(root: Json, packages: seq<PkgInfoPair>, readJson: string -> Option<Json>): Option<Json>
    decreases |packages|
  {
    if packages == [] then Some(root)
    else
      var before := PackagesApplied(root, packages[..|packages| - 1], readJson);
      var pkg := readJson(packages[|packages| - 1].metaDataPath);
      if before.Some? && pkg.Some? then Some(PackageConfigApplied(before.value, pkg.value)) else None
  }

  /** Every package configuration file can be loaded. */
  predicate AllLoadable(packages: seq<PkgInfoPair>, readJson: string -> Option<Json>)
  {
    forall i :: 0 <= i < |packages| ==> readJson(packages[i].metaDataPath).Some?
  }

  /** The package loop fails exactly when one of the package configuration files cannot be loaded. */
  lemma {:induction false} PackagesAppliedSucceeds(root: Json, packages: seq<PkgInfoPair>, readJson: string -> Option<Json>)
    ensures PackagesApplied(root, packages, readJson).Some? <==> AllLoadable(packages, readJson)
    decreases |packages|
  {
    if packages != [] {
      var front := packages[..|packages| - 1];
      var loaded := readJson(packages[|packages| - 1].metaDataPath).Some?;
      assert PackagesApplied(root, packages, readJson).Some? <==> PackagesApplied(root, front, readJson).Some? && loaded;
      assert PackagesApplied(root, front, readJson).Some? <==> AllLoadable(front, readJson) by {
        PackagesAppliedSucceeds(root, front, readJson);
      }
      assert AllLoadable(packages, readJson) <==> AllLoadable(front, readJson) && loaded by {
        assert forall i :: 0 <= i < |front| ==> front[i] == packages[i];
      }
    }
  }

  /**
   * The configuration `generateRalfOCIConfig` builds, before saving:
   * the base specification with the graphics devices, every package's
   * configuration, the hooks and the runtime settings applied in that
   * order; None when a step fails.
   */
  function OciConfig(configFilePath: string, packages: seq<PkgInfoPair>, app: AppConfig,
                     readJson: string -> Option<Json>, stat: string -> Option<StatResult>): Option<Json>
  {
    var base := readJson(RALF_OCI_BASE_SPEC_FILE);
    var graphics := readJson(RALF_GRAPHICS_LAYER_CONFIG);
    if base.None? || graphics.None? then None
    else
      var withDevices := GraphicsApplied(base.value, graphics.value, stat);
      if withDevices.None? then None
      else
        var withPackages := PackagesApplied(withDevices.value, packages, readJson);
        if withPackages.None? then None
        else Some(RuntimeAndAppApplied(GenerateHooks(withPackages.value, configFilePath), app))
  }

  /** `saveOCIConfigToFile`: the tree is written exactly when the file opens; a failed `chown` does not matter. */
  function Saved(canOpen: string -> bool, configFilePath: string, config: Option<Json>): Option<Json>
  {
    if config.Some? && canOpen(configFilePath) then config else None
  }

  /** The two configuration files and every package file load, and the graphics configuration lists its device nodes. */
  predicate InputsUsable(packages: seq<PkgInfoPair>, readJson: string -> Option<Json>)
  {
    && readJson(RALF_OCI_BASE_SPEC_FILE).Some?
    && readJson(RALF_GRAPHICS_LAYER_CONFIG).Some?
    && HasDevNodes(readJson(RALF_GRAPHICS_LAYER_CONFIG).value)
    && AllLoadable(packages, readJson)
  }

  /** The generator fails exactly when one of its inputs is unusable. */
  lemma OciConfigSucceeds(configFilePath: string, packages: seq<PkgInfoPair>, app: AppConfig,
                          readJson: string -> Option<Json>, stat: string -> Option<StatResult>)
    ensures OciConfig(configFilePath, packages, app, readJson, stat).Some? <==> InputsUsable(packages, readJson)
  {
    var base := readJson(RALF_OCI_BASE_SPEC_FILE);
    var graphics := readJson(RALF_GRAPHICS_LAYER_CONFIG);
    if base.Some? && graphics.Some? && HasDevNodes(graphics.value) {
      PackagesAppliedSucceeds(GraphicsApplied(base.value, graphics.value, stat).value, packages, readJson);
    }
  }

  /** The four hook lists lie apart from everything the runtime step sets. */
  lemma HooksApartFromRuntime(q: seq<string>)
    requires q == ["hooks", "createRuntime"] || q == ["hooks", "createContainer"] || q == ["hooks", "poststart"] || q == ["hooks", "poststop"]
    ensures Diverge(q, ["process", "user"]) && Diverge(q, ["hostname"]) && Diverge(q, ["process", "cwd"])
    ensures Diverge(q, UID_MAPPINGS) && Diverge(q, GID_MAPPINGS) && Diverge(q, ENV) && Diverge(q, MOUNTS)
  {
  }

  /**
   * What a generated configuration looks like: the four Dobby hooks run
   * on the config file, the container user is root with the video group
   * in HOME, the host is named after the app, and the environment and
   * mounts end with the runtime's entries.
   */
  ghost predicate Generated(r: Json, configFilePath: string, app: AppConfig)
  {
    && GetPath(r, ["hooks", "createRuntime"]) == JArr([HookEntry("createRuntime", configFilePath)])
    && GetPath(r, ["hooks", "createContainer"]) == JArr([HookEntry("createContainer", configFilePath)])
    && GetPath(r, ["hooks", "poststart"]) == JArr([HookEntry("poststart", configFilePath)])
    && GetPath(r, ["hooks", "poststop"]) == JArr([HookEntry("poststop", configFilePath)])
    && GetPath(r, ["process", "user", "uid"]) == JNum(0)
    && GetPath(r, ["process", "user", "gid"]) == JNum(0)
    && GetPath(r, ["process", "cwd"]) == JStr(HOME_PATH)
    && Get(r, "hostname") == JStr(app.appId)
    && (exists e :: ListAt(r, ENV) == e + RuntimeEnv(app))
    && (exists m :: ListAt(r, MOUNTS) == m + RuntimeMounts(app))
  }

  /** The last two steps of the generator give a generated configuration, whatever the packages produced. */
  lemma FinishedContent(withPackages: Json, configFilePath: string, app: AppConfig)
    ensures Generated(RuntimeAndAppApplied(GenerateHooks(withPackages, configFilePath), app), configFilePath, app)
  {
    var hooked := GenerateHooks(withPackages, configFilePath);
    var r := RuntimeAndAppApplied(hooked, app);
    GenerateHooksInstalled(withPackages, configFilePath);
    assert GetPath(r, ["hooks", "createRuntime"]) == GetPath(hooked, ["hooks", "createRuntime"]) by {
      HooksApartFromRuntime(["hooks", "createRuntime"]);
      RuntimeAndAppFrame(hooked, app, ["hooks", "createRuntime"]);
    }
    assert GetPath(r, ["hooks", "createContainer"]) == GetPath(hooked, ["hooks", "createContainer"]) by {
      HooksApartFromRuntime(["hooks", "createContainer"]);
      RuntimeAndAppFrame(hooked, app, ["hooks", "createContainer"]);
    }
    assert GetPath(r, ["hooks", "poststart"]) == GetPath(hooked, ["hooks", "poststart"]) by {
      HooksApartFromRuntime(["hooks", "poststart"]);
      RuntimeAndAppFrame(hooked, app, ["hooks", "poststart"]);
    }
    assert GetPath(r, ["hooks", "poststop"]) == GetPath(hooked, ["hooks", "poststop"]) by {
      HooksApartFromRuntime(["hooks", "poststop"]);
      RuntimeAndAppFrame(hooked, app, ["hooks", "poststop"]);
    }
    RuntimeAndAppUser(hooked, app);
    RuntimeAndAppLists(hooked, app);
  }

  /** A generated configuration has the content its last two steps give it. */
  lemma OciConfigContent(configFilePath: string, packages: seq<PkgInfoPair>, app: AppConfig,
                         readJson: string -> Option<Json>, stat: string -> Option<StatResult>)
    requires OciConfig(configFilePath, packages, app, readJson, stat).Some?
    ensures Generated(OciConfig(configFilePath, packages, app, readJson, stat).value, configFilePath, app)
  {
    var base := readJson(RALF_OCI_BASE_SPEC_FILE).value;
    var graphics := readJson(RALF_GRAPHICS_LAYER_CONFIG).value;
    var withPackages := PackagesApplied(GraphicsApplied(base, graphics, stat).value, packages, readJson).value;
    assert OciConfig(configFilePath, packages, app, readJson, stat).value
      == RuntimeAndAppApplied(GenerateHooks(withPackages, configFilePath), app);
    FinishedContent(withPackages, configFilePath, app);
  }

  /** The package loop of `generateRalfOCIConfig`: stops at the first package file that cannot be loaded. */
  method ApplyPackages(root0: Json, packages: seq<PkgInfoPair>, readJson: string -> Option<Json>)
    returns (ok: bool, root: Json)
    ensures ok <==> AllLoadable(packages, readJson)
    ensures ok ==> PackagesApplied(root0, packages, readJson) == Some(root)
  {
    root := root0;
    PackagesAppliedSucceeds(root0, packages, readJson);
    for i := 0 to |packages|
      invariant PackagesApplied(root0, packages[..i], readJson) == Some(root)
    {
      assert packages[..i + 1][..i] == packages[..i];
      var pkg := readJson(packages[i].metaDataPath);
      if pkg.None? {
        return false, root;
      }
      var pkgOk;
      pkgOk, root := ApplyRalfPackageConfig(root, pkg.value);
    }
    assert packages[..|packages|] == packages;
    ok := true;
  }

  /**
   * `generateRalfOCIConfig`, with the configuration file path and the
   * package list passed in. `readJson` stands for `JsonFromFile`, `stat`
   * for the device nodes, `canOpen` for whether the output file opens.
   * The result is true exactly when the configuration is written, and
   * what is written is `OciConfig`.
   */
  method GenerateRalfOciConfig(configFilePath: string, packages: seq<PkgInfoPair>, app: AppConfig,
                               readJson: string -> Option<Json>, stat: string -> Option<StatResult>,
                               canOpen: string -> bool)
    returns (ok: bool, written: Option<Json>)
    ensures written == Saved(canOpen, configFilePath, OciConfig(configFilePath, packages, app, readJson, stat))
    ensures ok <==> written.Some?
  {
    var base := readJson(RALF_OCI_BASE_SPEC_FILE);
    if base.None? {
      return false, None;
    }
    var graphics := readJson(RALF_GRAPHICS_LAYER_CONFIG);
    if graphics.None? {
      return false, None;
    }
    var applied, root := ApplyGraphicsConfig(base.value, graphics.value, stat);
    if !applied {
      return false, None;
    }
    var loaded;
    loaded, root := ApplyPackages(root, packages, readJson);
    if !loaded {
      PackagesAppliedSucceeds(GraphicsApplied(base.value, graphics.value, stat).value, packages, readJson);
      return false, None;
    }
    root := GenerateHooks(root, configFilePath);
    root := RuntimeAndAppApplied(root, app);
    if canOpen(configFilePath) {
      return true, Some(root);
    }
    return false, None;
  }
}
