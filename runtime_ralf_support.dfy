/**
 * The RuntimeManager's own copy of the RALF helpers. `create_directories`
 * and `generateOCIRootfs` there build the same paths and make the same
 * calls as the ralf copy, so the model uses `RalfSupport.CreateDirectories`
 * and `RalfSupport.GenerateOciRootfs` for both; what differs is
 * `parseConfig`, which reads the package list from a string and does not
 * insist on a "packages" member.
 */
module RuntimeRalfSupport {
  import opened Core
  import opened JsonTree
  import opened RalfSupport

  /**
   * `parseConfig`: false exactly when the text does not parse (`parse`
   * stands for `Json::Reader::parse`); otherwise the pairs of the
   * "packages" array are appended in order, none when it is missing.
   */
  method ParseConfig(configData: string, parse: string -> Option<Json>, packages0: seq<PkgInfoPair>)
    returns (ok: bool, packages: seq<PkgInfoPair>)
    ensures ok <==> parse(configData).Some?
    ensures ok ==> packages == packages0 + PackagePairs(parse(configData).value)
    ensures !ok ==> packages == packages0
  {
    var root := parse(configData);
    if root.None? {
      return false, packages0;
    }
    packages := AppendPackagePairs(root.value, packages0);
    ok := true;
  }

  /**
   * A document without "packages" is accepted with no pairs, where the
   * ralf copy's `parseRalPkgInfo` refuses it.
   */
  lemma MissingPackagesAccepted(root: Json)
    requires !HasLabel(root, "packages")
    ensures PackagePairs(root) == []
    ensures !HasLabel(LoadedRoot(_ => Some(root), ""), "packages")
  {
    assert Items(Get(root, "packages")) == [];
  }

  /** A package list document gives back its pairs through `parseConfig`'s reading too. */
  lemma ParseConfigRoundTrip(pairs: seq<PkgInfoPair>)
    ensures PackagePairs(PackagesDocument(pairs)) == pairs
  {
    PackagePairsRoundTrip(pairs);
  }
}
