/**
 * The modpack record of the modpack service (`ModpackInfo`, `ModpackType`)
 * and the pure decisions made while filling it in: recognising Minecraft
 * version strings, classifying modloaders, choosing the version and file
 * to describe, and mapping a Minecraft version to the Java version the
 * server needs (`_detect_java_version`).
 */
module Modpack {
  import opened Wrappers
  import opened PyStr
  import opened ModpackSource

  /** `ModpackType`: the supported modloaders. */
  datatype ModpackType = Forge | Fabric | NeoForge | Quilt | Vanilla

  /** The enum's string value. */
  function LoaderValue(t: ModpackType): string {
    match t
    case Forge => "forge"
    case Fabric => "fabric"
    case NeoForge => "neoforge"
    case Quilt => "quilt"
    case Vanilla => "vanilla"
  }

  /**
   * `ModpackInfo`. The `mods` list is never filled in by the service and is
   * not part of the model.
   */
  datatype ModpackInfo = ModpackInfo(
    name: string,
    source: Source,
    sourceUrl: string,
    slug: string,
    projectId: string,
    minecraftVersion: Option<string>,
    modloader: Option<ModpackType>,
    modloaderVersion: Option<string>,
    javaVersion: int,
    description: Option<string>,
    iconUrl: Option<string>,
    author: Option<string>,
    modCount: int,
    downloadUrl: Option<string>,
    fileId: Option<string>)

  /** `ModpackInfo(source=..., source_url=..., slug=...)`: every other field at its default. */
  function NewInfo(source: Source, url: string, slug: string): (info: ModpackInfo)
    ensures info.source == source && info.sourceUrl == url && info.slug == slug
    ensures info.name == "Unknown Modpack" && info.javaVersion == 17 && info.modCount == 0
    ensures info.minecraftVersion.None? && info.modloader.None? && info.modloaderVersion.None?
  {
    ModpackInfo("Unknown Modpack", source, url, slug, "", None, None, None, 17, None, None, None, 0, None, None)
  }

  // ------------------------------------------------- Minecraft version strings

  /** A non-empty run of decimal digits: `\d+`. */
  predicate IsDigits(s: string) {
    |s| > 0 && forall k :: 0 <= k < |s| ==> IsDigit(s[k])
  }

  /** `\d+\.\d+(\.\d+)?` spanning the whole of `s`. */
  predicate IsVersionNumber(s: string) {
    var parts := Split(s, ".");
    (|parts| == 2 || |parts| == 3) && forall k :: 0 <= k < |parts| ==> IsDigits(parts[k])
  }

  /**
   * `re.match(r"^\d+\.\d+(\.\d+)?$", v)`: `$` also matches just before a
   * newline that ends the string.
   */
  predicate IsMinecraftVersion(v: string) {
    IsVersionNumber(v) || (|v| > 0 && v[|v| - 1] == '\n' && IsVersionNumber(v[..|v| - 1]))
  }

  /**
   * `[v for v in game_versions if re.match(...)]`, first element: the
   * first recognised version string in the list.
   */
  function FirstMinecraftVersion(versions: seq<string>): (r: Option<string>)
    ensures r.Some? ==> IsMinecraftVersion(r.value)
    ensures r.Some? ==>
      exists k :: 0 <= k < |versions| && versions[k] == r.value && IsMinecraftVersion(r.value) &&
        forall j :: 0 <= j < k ==> !IsMinecraftVersion(versions[j])
    ensures r.None? ==> forall k :: 0 <= k < |versions| ==> !IsMinecraftVersion(versions[k])
  {
    if versions == [] then None
    else if IsMinecraftVersion(versions[0]) then Some(versions[0])
    else
      var r := FirstMinecraftVersion(versions[1..]);
      assert forall k :: 1 <= k < |versions| ==> versions[k] == versions[1..][k - 1];
      r
  }

  // ----------------------------------------------------------- Java version

  /** The Java table for a parsed `major.minor`. */
  function JavaFor(major: int, minor: int): int {
    if major == 1 then
      if minor >= 21 then 21
      else if minor >= 18 then 17
      else if minor >= 17 then 16
      else if minor >= 12 then 11
      else 8
    else 21
  }

  /**
   * `_detect_java_version`: the first two dot-separated pieces are read with
   * `int()` (a missing minor counts as 0) before the table is consulted, so
   * an unreadable minor gives 17 even when the major is not 1.
   */
  function DetectJavaVersion(mv: Option<string>): (r: int)
    ensures r in {8, 11, 16, 17, 21}
    ensures !Truthy(mv) ==> r == 17
  {
    if !Truthy(mv) then 17 else JavaOfParts(Split(mv.value, "."))
  }

  /** The table applied to the `split(".")` pieces of a version string. */
  function JavaOfParts(parts: seq<string>): (r: int)
    requires |parts| >= 1
    ensures r in {8, 11, 16, 17, 21}
  {
    match ParseInt(parts[0])
    case None => 17
    case Some(major) =>
      if |parts| > 1 then
        match ParseInt(parts[1])
        case None => 17
        case Some(minor) => JavaFor(major, minor)
      else JavaFor(major, 0)
  }

  /** Digit pieces are read as their decimal values. */
  lemma JavaOfDigitParts(parts: seq<string>)
    requires |parts| >= 2 && IsDigits(parts[0]) && IsDigits(parts[1])
    ensures JavaOfParts(parts) == JavaFor(DigitsValue(parts[0]), DigitsValue(parts[1]))
  {
    ParseDigits(parts[0]);
    ParseDigits(parts[1]);
  }

  /** The table gives Java 17 or newer exactly for 1.18 and later, and for every other major. */
  lemma JavaModernIff(major: int, minor: int)
    ensures JavaFor(major, minor) >= 17 <==> major != 1 || minor >= 18
  {
  }

  /** Within major version 1, a later minor never needs an older Java. */
  lemma JavaMonotone(minor: int, minor': int)
    requires minor <= minor'
    ensures JavaFor(1, minor) <= JavaFor(1, minor')
  {
  }

  /** A piece made of digits has no dot in it. */
  lemma DigitsHaveNoDot(s: string)
    requires IsDigits(s)
    ensures !Contains(s, ".")
  {
    ContainsIff(s, ".");
    forall k | 0 <= k < |s| ensures !OccursAt(s, ".", k) {
      assert s[k..k + 1][0] == s[k];
    }
  }

  /** Splitting `a + "." + rest` on dots when `a` has no dot. */
  lemma SplitDot(a: string, rest: string)
    requires !Contains(a, ".")
    ensures Split(a + "." + rest, ".") == [a] + Split(rest, ".")
  {
    var s := a + "." + rest;
    assert OccursAt(s, ".", |a|) by { assert s[|a|..|a| + 1] == "."; }
    forall k | 0 <= k < |a| && OccursAt(s, ".", k) ensures false {
      assert s[k..k + 1] == a[k..k + 1];
      ContainsAt(a, ".", k);
    }
    assert Find(s, ".") == Some(|a|);
    assert s[..|a|] == a;
    assert s[|a| + 1..] == rest;
  }

  /** A piece without a dot splits to itself. */
  lemma SplitNoDot(a: string)
    requires !Contains(a, ".")
    ensures Split(a, ".") == [a]
  {
  }

  /**
   * For a recognised `major.minor[.patch]` string the Java version is the
   * table entry for the two numbers it starts with.
   */
  lemma JavaOfVersionNumber(v: string)
    requires IsVersionNumber(v)
    ensures var parts := Split(v, ".");
      DetectJavaVersion(Some(v)) == JavaFor(DigitsValue(parts[0]), DigitsValue(parts[1]))
  {
    var parts := Split(v, ".");
    JavaOfDigitParts(parts);
  }

  /** The patch component never changes the Java version. */
  lemma PatchIgnored(major: string, minor: string, patch: string)
    requires IsDigits(major) && IsDigits(minor) && IsDigits(patch)
    ensures DetectJavaVersion(Some(major + "." + minor + "." + patch))
         == DetectJavaVersion(Some(major + "." + minor))
  {
    var v3, v2 := major + "." + minor + "." + patch, major + "." + minor;
    SplitThree(major, minor, patch);
    SplitTwo(major, minor);
    assert v3 != [] && v2 != [];
    JavaOfDigitParts([major, minor, patch]);
    JavaOfDigitParts([major, minor]);
  }

  lemma SplitTwo(major: string, minor: string)
    requires IsDigits(major) && IsDigits(minor)
    ensures Split(major + "." + minor, ".") == [major, minor]
  {
    DigitsHaveNoDot(major);
    DigitsHaveNoDot(minor);
    SplitDot(major, minor);
    SplitNoDot(minor);
  }

  lemma SplitThree(major: string, minor: string, patch: string)
    requires IsDigits(major) && IsDigits(minor) && IsDigits(patch)
    ensures Split(major + "." + minor + "." + patch, ".") == [major, minor, patch]
  {
    DigitsHaveNoDot(major);
    SplitTwo(minor, patch);
    assert major + "." + minor + "." + patch == major + "." + (minor + "." + patch);
    SplitDot(major, minor + "." + patch);
  }

  // ---------------------------------------------------------- modloaders

  /** "neoforge" contains "forge": every NeoForge name also passes a Forge test. */
  lemma NeoForgeContainsForge(s: string)
    requires Contains(s, "neoforge")
    ensures Contains(s, "forge")
  {
    var i := Find(s, "neoforge").value;
    assert s[i..i + 8] == "neoforge";
    assert s[i + 3..i + 8] == "neoforge"[3..];
    ContainsAt(s, "forge", i + 3);
  }

  /**
   * The Modrinth branch's test of `loaders[0].lower()`: fabric, forge,
   * neoforge, quilt, in that order.
   */
  function ModrinthLoader(loaders: seq<string>): Option<ModpackType> {
    if loaders == [] then None
    else
      var l := Lower(loaders[0]);
      if Contains(l, "fabric") then Some(Fabric)
      else if Contains(l, "forge") then Some(Forge)
      else if Contains(l, "neoforge") then Some(NeoForge)
      else if Contains(l, "quilt") then Some(Quilt)
      else None
  }

  /** The Modrinth branch never produces NEOFORGE: a NeoForge loader is classified FORGE. */
  lemma ModrinthNeverNeoForge(loaders: seq<string>)
    ensures ModrinthLoader(loaders) != Some(NeoForge)
    ensures loaders != [] && Contains(Lower(loaders[0]), "neoforge") && !Contains(Lower(loaders[0]), "fabric")
      ==> ModrinthLoader(loaders) == Some(Forge)
  {
    if loaders != [] && Contains(Lower(loaders[0]), "neoforge") {
      NeoForgeContainsForge(Lower(loaders[0]));
    }
  }

  /** The CurseForge branch's test of one game-version string: fabric, neoforge, forge, quilt. */
  function ClassifyGameVersion(v: string): Option<ModpackType> {
    var l := Lower(v);
    if Contains(l, "fabric") then Some(Fabric)
    else if Contains(l, "neoforge") then Some(NeoForge)
    else if Contains(l, "forge") then Some(Forge)
    else if Contains(l, "quilt") then Some(Quilt)
    else None
  }

  /** The classification of the first game-version string that names a modloader. */
  function CurseForgeLoader(versions: seq<string>): (r: Option<ModpackType>)
    ensures r.Some? ==>
      exists k :: 0 <= k < |versions| && ClassifyGameVersion(versions[k]) == r &&
        forall j :: 0 <= j < k ==> ClassifyGameVersion(versions[j]).None?
    ensures r.None? ==> forall k :: 0 <= k < |versions| ==> ClassifyGameVersion(versions[k]).None?
    ensures r != Some(Vanilla)
  {
    if versions == [] then None
    else if ClassifyGameVersion(versions[0]).Some? then ClassifyGameVersion(versions[0])
    else
      var r := CurseForgeLoader(versions[1..]);
      assert forall k :: 1 <= k < |versions| ==> versions[k] == versions[1..][k - 1];
      r
  }

  /**
   * The modloader loop over a CurseForge file's game versions: the first
   * string that names a loader decides, and the loop stops there.
   */
  method ScanGameVersions(versions: seq<string>, current: Option<ModpackType>) returns (loader: Option<ModpackType>)
    ensures loader == if CurseForgeLoader(versions).Some? then CurseForgeLoader(versions) else current
  {
    loader := current;
    var k := 0;
    while k < |versions|
      invariant 0 <= k <= |versions|
      invariant loader == current
      invariant CurseForgeLoader(versions) == CurseForgeLoader(versions[k..])
    {
      assert versions[k..][1..] == versions[k + 1..];
      var c := ClassifyGameVersion(versions[k]);
      if c.Some? {
        loader := c;
        break;
      }
      k := k + 1;
    }
  }

  /** Unlike the Modrinth branch, the CurseForge branch does report NeoForge. */
  lemma CurseForgeSeesNeoForge(v: string)
    requires Contains(Lower(v), "neoforge") && !Contains(Lower(v), "fabric")
    ensures CurseForgeLoader([v]) == Some(NeoForge)
  {
    assert [v][1..] == [];
  }

  /** The modloader names are told apart. */
  lemma LoaderValueInjective(a: ModpackType, b: ModpackType)
    requires a != b
    ensures LoaderValue(a) != LoaderValue(b)
  {
  }

  // ------------------------------------------------- Modrinth dependencies

  /** One entry of a Modrinth version's `dependencies`. An absent `project_id` reads as "". */
  datatype Dependency = Dependency(projectId: string, versionId: Option<string>)

  /** Dependencies on Fabric API are skipped. */
  predicate IsFabricApi(d: Dependency) {
    d.projectId in ["P7dR8mSH", "fabric-api"]
  }

  /** A dependency whose version id may become the modloader version. */
  predicate GivesLoaderVersion(d: Dependency) {
    !IsFabricApi(d) && Truthy(d.versionId)
  }

  /** The version id of the last dependency that gives a loader version. */
  function LastLoaderVersion(deps: seq<Dependency>): (r: Option<string>)
    ensures r.Some? ==>
      exists k :: 0 <= k < |deps| && GivesLoaderVersion(deps[k]) && deps[k].versionId == r &&
        forall j :: k < j < |deps| ==> !GivesLoaderVersion(deps[j])
    ensures r.None? ==> forall k :: 0 <= k < |deps| ==> !GivesLoaderVersion(deps[k])
    ensures r.Some? ==> Truthy(r)
  {
    if deps == [] then None
    else if GivesLoaderVersion(deps[|deps| - 1]) then deps[|deps| - 1].versionId
    else
      var r := LastLoaderVersion(deps[..|deps| - 1]);
      assert forall k :: 0 <= k < |deps| - 1 ==> deps[k] == deps[..|deps| - 1][k];
      r
  }

  /**
   * The dependency loop of the Modrinth branch: every dependency that is
   * not Fabric API and has a version id overwrites the modloader version,
   * but only when a modloader was found.
   */
  method ScanDependencies(deps: seq<Dependency>, hasLoader: bool, current: Option<string>)
    returns (loaderVersion: Option<string>)
    ensures loaderVersion == if hasLoader && LastLoaderVersion(deps).Some? then LastLoaderVersion(deps) else current
  {
    loaderVersion := current;
    var k := 0;
    while k < |deps|
      invariant 0 <= k <= |deps|
      invariant loaderVersion ==
        if hasLoader && LastLoaderVersion(deps[..k]).Some? then LastLoaderVersion(deps[..k]) else current
    {
      assert deps[..k + 1][..k] == deps[..k];
      var dep := deps[k];
      if !IsFabricApi(dep) {
        var vid := dep.versionId;
        if Truthy(vid) && hasLoader {
          loaderVersion := vid;
        }
      }
      k := k + 1;
    }
    assert deps[..|deps|] == deps;
  }

  /** A Fabric API dependency never supplies the loader version. */
  lemma FabricApiSkipped(deps: seq<Dependency>, d: Dependency)
    requires IsFabricApi(d)
    ensures LastLoaderVersion(deps + [d]) == LastLoaderVersion(deps)
  {
    assert (deps + [d])[..|deps|] == deps;
  }

  // --------------------------------------------------- version and file choice

  /** A Modrinth version record: the keys the service reads, absent lists as []. */
  datatype ModrinthVersion = ModrinthVersion(
    id: Option<string>,
    versionNumber: Option<string>,
    gameVersions: seq<string>,
    loaders: seq<string>,
    files: seq<ModrinthFile>,
    dependencies: seq<Dependency>)

  /** A file of a Modrinth version; `primary` is its truthiness. */
  datatype ModrinthFile = ModrinthFile(primary: bool, url: Option<string>)

  predicate IsRequestedVersion(v: ModrinthVersion, versionId: string) {
    v.id == Some(versionId) || v.versionNumber == Some(versionId)
  }

  /** The index of the first element satisfying the requested-version test. */
  function FindVersion(versions: seq<ModrinthVersion>, versionId: string): (r: Option<nat>)
    ensures r.Some? ==> (r.value < |versions| && IsRequestedVersion(versions[r.value], versionId) &&
      forall j :: 0 <= j < r.value ==> !IsRequestedVersion(versions[j], versionId))
    ensures r.None? ==> forall j :: 0 <= j < |versions| ==> !IsRequestedVersion(versions[j], versionId)
  {
    if versions == [] then None
    else if IsRequestedVersion(versions[0], versionId) then Some(0)
    else
      var r := FindVersion(versions[1..], versionId);
      assert forall j :: 1 <= j < |versions| ==> versions[j] == versions[1..][j - 1];
      if r.Some? then Some(r.value + 1) else None
  }

  /**
   * The version the Modrinth branch describes: the first one whose id or
   * version number is the requested id, otherwise the latest (the first).
   */
  function SelectVersion(versions: seq<ModrinthVersion>, versionId: Option<string>): (v: ModrinthVersion)
    requires |versions| > 0
    ensures v in versions
    ensures Truthy(versionId) && (exists k :: 0 <= k < |versions| && IsRequestedVersion(versions[k], versionId.value))
      ==> IsRequestedVersion(v, versionId.value)
    ensures !Truthy(versionId) ==> v == versions[0]
    ensures Truthy(versionId) && (forall k :: 0 <= k < |versions| ==> !IsRequestedVersion(versions[k], versionId.value))
      ==> v == versions[0]
    ensures Truthy(versionId) && (exists k :: 0 <= k < |versions| && IsRequestedVersion(versions[k], versionId.value))
      ==> exists k :: 0 <= k < |versions| && v == versions[k] && IsRequestedVersion(versions[k], versionId.value) &&
            forall j :: 0 <= j < k ==> !IsRequestedVersion(versions[j], versionId.value)
  {
    if Truthy(versionId) then
      match FindVersion(versions, versionId.value)
      case Some(k) => versions[k]
      case None => versions[0]
    else versions[0]
  }

  /** `next((f for f in files if f.get("primary")), files[0])` */
  function PrimaryFile(files: seq<ModrinthFile>): (f: ModrinthFile)
    requires |files| > 0
    ensures f in files
    ensures f.primary <==> exists k :: 0 <= k < |files| && files[k].primary
    ensures f.primary ==>
      exists k :: 0 <= k < |files| && files[k] == f &&
        forall j :: 0 <= j < k ==> !files[j].primary
    ensures !f.primary ==> f == files[0]
  {
    if files[0].primary || |files| == 1 then files[0]
    else
      var f := PrimaryFile(files[1..]);
      assert forall k :: 1 <= k < |files| ==> files[k] == files[1..][k - 1];
      if f.primary then f else files[0]
  }
}
