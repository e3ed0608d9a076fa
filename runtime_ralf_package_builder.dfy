/**
 * The RuntimeManager's own `RalfPackageBuilder`: reads the package list
 * from a file as text, mounts the same overlay as the ralf copy and does
 * not generate a configuration yet.
 */
module RuntimeRalfPackageBuilder {
  import opened Core
  import opened JsonTree
  import opened RalfSupport
  import opened RuntimeRalfSupport
  import RalfPackageBuilder

  const GRAPHICS_LAYER_ROOTFS: string := "/usr/share/gpu-layer/rootfs"

  /** This copy spells out the same graphics layer the ralf copy derives from its base path. */
  lemma SameGraphicsLayer()
    ensures GRAPHICS_LAYER_ROOTFS == RALF_GRAPHICS_LAYER_ROOTFS
  {
    assert RALF_GRAPHICS_LAYER_ROOTFS == "/usr/share/gpu-layer/" + "rootfs";
  }

  /**
   * `extractRalfPackagesFromConfig`: false when the file does not open
   * (`readFile` stands for reading it whole), otherwise what `parseConfig`
   * makes of its text.
   */
  method ExtractRalfPackagesFromConfig(ralfPkgInfo: string, readFile: string -> Option<string>,
                                       parse: string -> Option<Json>, packages0: seq<PkgInfoPair>)
    returns (ok: bool, packages: seq<PkgInfoPair>)
    ensures ok <==> readFile(ralfPkgInfo).Some? && parse(readFile(ralfPkgInfo).value).Some?
    ensures ok ==> packages == packages0 + PackagePairs(parse(readFile(ralfPkgInfo).value).value)
    ensures !ok ==> packages == packages0
  {
    var file := readFile(ralfPkgInfo);
    if file.None? {
      return false, packages0;
    }
    ok, packages := ParseConfig(file.value, parse, packages0);
  }

  /** `generateOCIRootfsPackage`: the overlay of this copy's graphics layer and the packages' mount paths. */
  method GenerateOciRootfsPackage(appInstanceId: string, packages: seq<PkgInfoPair>, ociRootfsPath0: string,
                                  mkdir: (string, int) -> MkdirResult, mount: MountRequest -> bool)
    returns (ok: bool, ociRootfsPath: string)
    ensures var request := RootfsRequest(appInstanceId, packages);
      && (ok <==> mount(request))
      && (ok ==> ociRootfsPath == request.target)
      && (!ok ==> ociRootfsPath == ociRootfsPath0)
  {
    var packageLayers := RalfPackageBuilder.BuildPackageLayers(GRAPHICS_LAYER_ROOTFS, packages);
    var request, tried;
    ok, ociRootfsPath, request, tried := GenerateOciRootfs(appInstanceId, packageLayers, ociRootfsPath0, mkdir, mount);
  }

  /** `generateRalfPackageConfig` is not implemented here and always reports success. */
  function GenerateRalfPackageConfig(ociRootfsPath: string, packages: seq<PkgInfoPair>): (r: bool)
    ensures r
  {
    true
  }

  /** The package list the pipeline extracts, when it extracts one. */
  function ExtractedPackages(ralfPkgPath: string, readFile: string -> Option<string>, parse: string -> Option<Json>)
    : Option<seq<PkgInfoPair>>
  {
    if readFile(ralfPkgPath).Some? && parse(readFile(ralfPkgPath).value).Some?
    then Some(PackagePairs(parse(readFile(ralfPkgPath).value).value))
    else None
  }

  /** The overlay mount this copy asks for. */
  function RootfsRequest(appInstanceId: string, packages: seq<PkgInfoPair>): MountRequest
  {
    OverlayMount(appInstanceId, RalfPackageBuilder.PackageLayers(GRAPHICS_LAYER_ROOTFS, packages))
  }

  /**
   * `generateOCIRootfsPackageForAppInstance`: true exactly when the list
   * is extracted and the overlay mounts, since the configuration step
   * always succeeds.
   */
  method GenerateOciRootfsPackageForAppInstance(appInstanceId: string, ralfPkgPath: string, ociRootfsPath0: string,
                                                readFile: string -> Option<string>, parse: string -> Option<Json>,
                                                mkdir: (string, int) -> MkdirResult, mount: MountRequest -> bool)
    returns (ok: bool, ociRootfsPath: string)
    ensures var packages := ExtractedPackages(ralfPkgPath, readFile, parse);
      && (ok <==> packages.Some? && mount(RootfsRequest(appInstanceId, packages.value)))
      && (ok ==> ociRootfsPath == RootfsRequest(appInstanceId, packages.value).target)
      && (!ok ==> ociRootfsPath == ociRootfsPath0)
  {
    var extracted, packages := ExtractRalfPackagesFromConfig(ralfPkgPath, readFile, parse, []);
    if !extracted {
      return false, ociRootfsPath0;
    }
    assert [] + PackagePairs(parse(readFile(ralfPkgPath).value).value) == PackagePairs(parse(readFile(ralfPkgPath).value).value);
    assert ExtractedPackages(ralfPkgPath, readFile, parse) == Some(packages);
    var mounted;
    mounted, ociRootfsPath := GenerateOciRootfsPackage(appInstanceId, packages, ociRootfsPath0, mkdir, mount);
    if !mounted {
      return false, ociRootfsPath;
    }
    ok := GenerateRalfPackageConfig(ociRootfsPath, packages);
  }
}
