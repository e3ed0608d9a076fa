/**
 * `ralf::RalfPackageBuilder`: turns a RALF package list into an overlay
 * root filesystem for an app instance and an OCI configuration beside it.
 * The lower layers of the overlay are the graphics layer followed by each
 * package's mount path, joined with ':'.
 */
module RalfPackageBuilder {
  import opened Core
  import opened Text
  import opened JsonTree
  import opened RalfSupport
  import opened RalfOciConfigGenerator

  /** The layer string: `base`, then ":" and each package's mount path, in package order. */
  function PackageLayers(base: string, packages: seq<PkgInfoPair>): string
    decreases |packages|
  {
    if packages == [] then base
    else PackageLayers(base, packages[..|packages| - 1]) + ":" + packages[|packages| - 1].mountPath
  }

  /** The loop of `generateOCIRootfsPackage` that builds the layer string. */
  method BuildPackageLayers(base: string, packages: seq<PkgInfoPair>) returns (layers: string)
    ensures layers == PackageLayers(base, packages)
  {
    layers := base;
    for i := 0 to |packages|
      invariant layers == PackageLayers(base, packages[..i])
    {
      assert packages[..i + 1][..i] == packages[..i];
      layers := layers + ":" + packages[i].mountPath;
    }
    assert packages[..|packages|] == packages;
  }

  /** How an overlay reads "lowerdir": the parts between the ':' separators. */
  function SplitLayers(s: string): (r: seq<string>)
    ensures |r| >= 1
    decreases |s|
  {
    var i := Find(s, ':', 0);
    if i == |s| then [s] else [s[..i]] + SplitLayers(s[i + 1..])
  }

  function MountPaths(packages: seq<PkgInfoPair>): (r: seq<string>)
    ensures |r| == |packages|
    ensures forall i :: 0 <= i < |packages| ==> r[i] == packages[i].mountPath
  {
    seq(|packages|, i requires 0 <= i < |packages| => packages[i].mountPath)
  }

  /** Appending ":" and a part without ':' adds exactly that part to the split. */
  lemma {:induction false} SplitLayersAppend(a: string, b: string)
    requires ':' !in b
    ensures SplitLayers(a + ":" + b) == SplitLayers(a) + [b]
    decreases |a|
  {
    var t := ":" + b;
    var s := a + t;
    assert a + ":" + b == s;
    FindAppend(a, t, ':', 0);
    FindAbsent(b, ':', 0);
    var i := Find(a, ':', 0);
    if i == |a| {
      assert Find(t, ':', 0) == 0;
      assert s[..|a|] == a;
      assert s[|a| + 1..] == b;
    } else {
      assert s[..i] == a[..i];
      assert s[i + 1..] == a[i + 1..] + ":" + b;
      SplitLayersAppend(a[i + 1..], b);
    }
  }

  /**
   * With no ':' inside the base or a mount path, the overlay reads the
   * layer string back as the base followed by every mount path, in order.
   */
  lemma {:induction false} PackageLayersRoundTrip(base: string, packages: seq<PkgInfoPair>)
    requires ':' !in base
    requires forall i :: 0 <= i < |packages| ==> ':' !in packages[i].mountPath
    ensures SplitLayers(PackageLayers(base, packages)) == [base] + MountPaths(packages)
    decreases |packages|
  {
    if packages == [] {
      FindAbsent(base, ':', 0);
    } else {
      var front := packages[..|packages| - 1];
      var last := packages[|packages| - 1];
      var pf := PackageLayers(base, front);
      assert SplitLayers(pf) == [base] + MountPaths(front) by {
        assert forall i :: 0 <= i < |front| ==> front[i] == packages[i];
        PackageLayersRoundTrip(base, front);
      }
      assert SplitLayers(PackageLayers(base, packages)) == SplitLayers(pf) + [last.mountPath] by {
        SplitLayersAppend(pf, last.mountPath);
      }
      assert MountPaths(packages) == MountPaths(front) + [last.mountPath];
      ConcatAssoc([base], MountPaths(front), [last.mountPath]);
    }
  }

  /** The graphics layer's path has no ':' in it, so it stays one layer. */
  lemma GraphicsLayerIsOneLayer()
    ensures ':' !in RALF_GRAPHICS_LAYER_ROOTFS
  {
    assert RALF_GRAPHICS_LAYER_ROOTFS == "/usr/share/gpu-layer/rootfs";
  }

  /**
   * `generateOCIRootfsPackage`: mounts the overlay of the graphics layer
   * and the packages' mount paths; the output path is set only when the
   * mount succeeds.
   */
  method GenerateOciRootfsPackage(appInstanceId: string, packages: seq<PkgInfoPair>, ociRootfsPath0: string,
                                  mkdir: (string, int) -> MkdirResult, mount: MountRequest -> bool)
    returns (ok: bool, ociRootfsPath: string)
    ensures var request := OverlayMount(appInstanceId, PackageLayers(RALF_GRAPHICS_LAYER_ROOTFS, packages));
      && (ok <==> mount(request))
      && (ok ==> ociRootfsPath == request.target)
      && (!ok ==> ociRootfsPath == ociRootfsPath0)
  {
    var packageLayers := BuildPackageLayers(RALF_GRAPHICS_LAYER_ROOTFS, packages);
    var request, tried;
    ok, ociRootfsPath, request, tried := GenerateOciRootfs(appInstanceId, packageLayers, ociRootfsPath0, mkdir, mount);
  }

  /** The configuration file of an instance: "config.json" in its work directory. */
  function ConfigFilePath(appInstanceId: string): (r: string)
    ensures r == WorkDir(appInstanceId) + "/config.json"
  {
    RALF_APP_ROOTFS_DIR + appInstanceId + "/config.json"
  }

  /** The configuration file sits beside the overlay's mount point, not inside the merged tree. */
  lemma ConfigBesideRootfs(appInstanceId: string)
    ensures ConfigFilePath(appInstanceId) != OverlayMount(appInstanceId, "").target
  {
    var w := WorkDir(appInstanceId);
    assert ConfigFilePath(appInstanceId)[|w| + 1] == 'c';
    assert OverlayMount(appInstanceId, "").target[|w| + 1] == 'r';
  }

  /**
   * `generateRalfPackageConfig`: true straight away when a configuration
   * file already exists (`configExists` stands for opening it), otherwise
   * whatever the generator reports; `written` is the configuration it
   * writes, if any.
   */
  method GenerateRalfPackageConfig(configFilePath: string, packages: seq<PkgInfoPair>, app: AppConfig,
                                   configExists: string -> bool, readJson: string -> Option<Json>,
                                   stat: string -> Option<StatResult>, canOpen: string -> bool)
    returns (ok: bool, written: Option<Json>)
    ensures configExists(configFilePath) ==> ok && written == None
    ensures !configExists(configFilePath) ==>
      written == Saved(canOpen, configFilePath, OciConfig(configFilePath, packages, app, readJson, stat))
      && (ok <==> written.Some?)
  {
    if configExists(configFilePath) {
      return true, None;
    }
    ok, written := GenerateRalfOciConfig(configFilePath, packages, app, readJson, stat, canOpen);
  }

  /** Whether the per-instance pipeline gets through the extraction and the mount. */
  predicate RootfsReady(appInstanceId: string, ralfPkgPath: string, readJson: string -> Option<Json>,
                        mount: MountRequest -> bool)
  {
    var root := LoadedRoot(readJson, ralfPkgPath);
    HasLabel(root, "packages")
    && mount(OverlayMount(appInstanceId, PackageLayers(RALF_GRAPHICS_LAYER_ROOTFS, PackagePairs(root))))
  }

  /**
   * `generateOCIRootfsPackageForAppInstance`: extract the package list,
   * mount the overlay, then generate the configuration beside it; false
   * at the first step that fails.
   */
  method GenerateOciRootfsPackageForAppInstance(appInstanceId: string, ralfPkgPath: string, ociRootfsPath0: string,
                                                app: AppConfig, readJson: string -> Option<Json>,
                                                mkdir: (string, int) -> MkdirResult, mount: MountRequest -> bool,
                                                configExists: string -> bool, stat: string -> Option<StatResult>,
                                                canOpen: string -> bool)
    returns (ok: bool, ociRootfsPath: string, written: Option<Json>)
    ensures var root := LoadedRoot(readJson, ralfPkgPath);
      var packages := PackagePairs(root);
      var path := ConfigFilePath(appInstanceId);
      && (ok <==> RootfsReady(appInstanceId, ralfPkgPath, readJson, mount)
                  && (configExists(path) || Saved(canOpen, path, OciConfig(path, packages, app, readJson, stat)).Some?))
      && (RootfsReady(appInstanceId, ralfPkgPath, readJson, mount) ==>
            ociRootfsPath == OverlayMount(appInstanceId, PackageLayers(RALF_GRAPHICS_LAYER_ROOTFS, packages)).target)
      && (!RootfsReady(appInstanceId, ralfPkgPath, readJson, mount) ==> ociRootfsPath == ociRootfsPath0 && written == None)
      && (RootfsReady(appInstanceId, ralfPkgPath, readJson, mount) && !configExists(path) ==>
            written == Saved(canOpen, path, OciConfig(path, packages, app, readJson, stat)))
  {
    written := None;
    var extracted, packages := ParseRalPkgInfo(ralfPkgPath, readJson, []);
    if !extracted {
      return false, ociRootfsPath0, None;
    }
    assert packages == PackagePairs(LoadedRoot(readJson, ralfPkgPath));
    var mounted;
    mounted, ociRootfsPath := GenerateOciRootfsPackage(appInstanceId, packages, ociRootfsPath0, mkdir, mount);
    if !mounted {
      return false, ociRootfsPath, None;
    }
    var configFilePath := RALF_APP_ROOTFS_DIR + appInstanceId + "/config.json";
    ok, written := GenerateRalfPackageConfig(configFilePath, packages, app, configExists, readJson, stat, canOpen);
  }

  /** `generateRalfDobbySpec` is not implemented and always reports failure. */
  function GenerateRalfDobbySpec(app: AppConfig): (r: bool)
    ensures !r
  {
    false
  }
}
