/**
 * How the modpack service fills in a `ModpackInfo` from a URL
 * (`fetch_modpack_info`, `_fetch_modrinth_info`, `_fetch_curseforge_info`).
 * The HTTP exchanges are not performed here: each reply the service would
 * receive is a parameter, either the exception the call raised (network
 * failure, a body that is not JSON) or a status code and the decoded body.
 */
module ModpackFetch {
  import opened Wrappers
  import opened PyStr
  import opened ModpackSource
  import opened Modpack

  /** The outcome of one HTTP request and `.json()` of its body. */
  datatype Response<T> = Raised(error: string) | Reply(status: int, body: T)

  /** `d.get(key, default)` for a key that may be absent. */
  function GetOr(o: Option<string>, default: string): (r: string)
    ensures o.Some? ==> r == o.value
    ensures o.None? ==> r == default
  {
    match o
    case Some(v) => v
    case None => default
  }

  // ------------------------------------------------------------------ Modrinth

  /** The keys of a Modrinth project the service reads. */
  datatype ModrinthProject = ModrinthProject(
    title: Option<string>, id: Option<string>, description: Option<string>, iconUrl: Option<string>)

  /** Fields taken from a project reply with status 200. */
  function WithModrinthProject(info: ModpackInfo, p: ModrinthProject): ModpackInfo {
    info.(name := GetOr(p.title, info.slug), projectId := GetOr(p.id, ""),
          description := Some(GetOr(p.description, "")), iconUrl := p.iconUrl)
  }

  /** Fields taken from the chosen version. */
  function WithModrinthVersion(info: ModpackInfo, v: ModrinthVersion): ModpackInfo {
    var mc := FirstMinecraftVersion(v.gameVersions);
    var loader := ModrinthLoader(v.loaders);
    var i1 := info.(fileId := v.id);
    var i2 := if mc.Some? then i1.(minecraftVersion := mc) else i1;
    var i3 := if loader.Some? then i2.(modloader := loader) else i2;
    var i4 := if v.files != [] then i3.(downloadUrl := PrimaryFile(v.files).url) else i3;
    var lv := LastLoaderVersion(v.dependencies);
    if i4.modloader.Some? && lv.Some? then i4.(modloaderVersion := lv) else i4
  }

  /** The `except` branch of the Modrinth fetch: fields already set are kept. */
  function ModrinthFallback(info: ModpackInfo, slug: string, e: string): ModpackInfo {
    info.(name := Title(ReplaceChar(slug, '-', ' ')),
          description := Some("Modrinth modpack: " + slug + " (Error fetching details: " + e + ")"))
  }

  /** What `_fetch_modrinth_info` returns, given the project and versions replies. */
  function FetchModrinth(slug: string, versionId: Option<string>, url: string,
                         project: Response<ModrinthProject>, versions: Response<seq<ModrinthVersion>>): ModpackInfo
  {
    var base := NewInfo(Modrinth, url, slug);
    match project
    case Raised(e) => ModrinthFallback(base, slug, e)
    case Reply(status, p) =>
      var i1 := if status == 200 then WithModrinthProject(base, p) else base;
      match versions
      case Raised(e) => ModrinthFallback(i1, slug, e)
      case Reply(status', vs) =>
        var i2 := if status' == 200 && vs != [] then WithModrinthVersion(i1, SelectVersion(vs, versionId)) else i1;
        i2.(javaVersion := DetectJavaVersion(i2.minecraftVersion))
  }

  /** `_fetch_modrinth_info`: the fields are set one by one, as the replies are read. */
  method FetchModrinthInfo(slug: string, versionId: Option<string>, url: string,
                           project: Response<ModrinthProject>, versions: Response<seq<ModrinthVersion>>)
    returns (info: ModpackInfo)
    ensures info == FetchModrinth(slug, versionId, url, project, versions)
  {
    info := NewInfo(Modrinth, url, slug);
    if project.Raised? {
      info := info.(name := Title(ReplaceChar(slug, '-', ' ')));
      info := info.(description := Some("Modrinth modpack: " + slug + " (Error fetching details: " + project.error + ")"));
      return;
    }
    if project.status == 200 {
      var data := project.body;
      info := info.(name := GetOr(data.title, slug));
      info := info.(projectId := GetOr(data.id, ""));
      info := info.(description := Some(GetOr(data.description, "")));
      info := info.(iconUrl := data.iconUrl);
    }
    if versions.Raised? {
      info := info.(name := Title(ReplaceChar(slug, '-', ' ')));
      info := info.(description := Some("Modrinth modpack: " + slug + " (Error fetching details: " + versions.error + ")"));
      return;
    }
    if versions.status == 200 && versions.body != [] {
      var version := SelectVersion(versions.body, versionId);
      info := info.(fileId := version.id);
      var mc := FirstMinecraftVersion(version.gameVersions);
      if mc.Some? {
        info := info.(minecraftVersion := mc);
      }
      var loader := ModrinthLoader(version.loaders);
      if loader.Some? {
        info := info.(modloader := loader);
      }
      if version.files != [] {
        info := info.(downloadUrl := PrimaryFile(version.files).url);
      }
      var lv := ScanDependencies(version.dependencies, info.modloader.Some?, info.modloaderVersion);
      info := info.(modloaderVersion := lv);
    }
    info := info.(javaVersion := DetectJavaVersion(info.minecraftVersion));
  }

  // ---------------------------------------------------------------- CurseForge

  /** A CurseForge file record: `id`, `downloadUrl`, `gameVersions`. */
  datatype CurseForgeFile = CurseForgeFile(id: Option<int>, downloadUrl: Option<string>, gameVersions: seq<string>)

  /** A CurseForge author record. */
  datatype Author = Author(name: Option<string>)

  /** A CurseForge mod record; `logoUrl` is `logo.url` of a non-empty logo. */
  datatype CurseForgeMod = CurseForgeMod(
    id: Option<int>, name: Option<string>, summary: Option<string>, logoUrl: Option<string>,
    authors: seq<Author>, latestFiles: seq<CurseForgeFile>)

  /** `str(x.get("id", ""))` */
  function IdString(id: Option<int>): string {
    match id
    case Some(n) => IntToString(n)
    case None => ""
  }

  predicate IsRequestedFile(f: CurseForgeFile, fileId: string) {
    f.id.Some? && IntToString(f.id.value) == fileId
  }

  /** The index of the first file whose id prints as `fileId`. */
  function FindFile(files: seq<CurseForgeFile>, fileId: string): (r: Option<nat>)
    ensures r.Some? ==> r.value < |files| && IsRequestedFile(files[r.value], fileId)
    ensures r.Some? ==> forall j :: 0 <= j < r.value ==> !IsRequestedFile(files[j], fileId)
    ensures r.None? ==> forall j :: 0 <= j < |files| ==> !IsRequestedFile(files[j], fileId)
  {
    if files == [] then None
    else if IsRequestedFile(files[0], fileId) then Some(0)
    else
      var r := FindFile(files[1..], fileId);
      assert forall j :: 1 <= j < |files| ==> files[j] == files[1..][j - 1];
      if r.Some? then Some(r.value + 1) else None
  }

  /** The requested file if it is among the latest files, else the first of them. */
  function SelectFile(files: seq<CurseForgeFile>, fileId: Option<string>): (f: CurseForgeFile)
    requires |files| > 0
    ensures f in files
    ensures Truthy(fileId) && (exists k :: 0 <= k < |files| && IsRequestedFile(files[k], fileId.value))
      ==> IsRequestedFile(f, fileId.value)
    ensures !Truthy(fileId) ==> f == files[0]
    ensures Truthy(fileId) && (forall k :: 0 <= k < |files| ==> !IsRequestedFile(files[k], fileId.value))
      ==> f == files[0]
    ensures Truthy(fileId) && (exists k :: 0 <= k < |files| && IsRequestedFile(files[k], fileId.value))
      ==> exists k :: 0 <= k < |files| && f == files[k] && IsRequestedFile(files[k], fileId.value) &&
            forall j :: 0 <= j < k ==> !IsRequestedFile(files[j], fileId.value)
  {
    if Truthy(fileId) then
      match FindFile(files, fileId.value)
      case Some(k) => files[k]
      case None => files[0]
    else files[0]
  }

  /** Fields taken from the file the CurseForge branch describes. */
  function WithCurseForgeFile(info: ModpackInfo, f: CurseForgeFile): ModpackInfo {
    var mc := FirstMinecraftVersion(f.gameVersions);
    var loader := CurseForgeLoader(f.gameVersions);
    var i1 := info.(fileId := Some(IdString(f.id)), downloadUrl := f.downloadUrl);
    var i2 := if mc.Some? then i1.(minecraftVersion := mc) else i1;
    if loader.Some? then i2.(modloader := loader) else i2
  }

  /** Fields taken from the first search hit. */
  function WithCurseForgeMod(info: ModpackInfo, m: CurseForgeMod, fileId: Option<string>): ModpackInfo {
    var i1 := info.(projectId := IdString(m.id), name := GetOr(m.name, info.slug),
                    description := Some(GetOr(m.summary, "")), iconUrl := m.logoUrl);
    var i2 := if m.authors != [] then i1.(author := m.authors[0].name) else i1;
    if m.latestFiles != [] then WithCurseForgeFile(i2, SelectFile(m.latestFiles, fileId)) else i2
  }

  /** The name both CurseForge fallbacks give: the slug with dashes as spaces, title-cased. */
  function SlugTitle(slug: string): string {
    Title(ReplaceChar(slug, '-', ' '))
  }

  /** What `_fetch_curseforge_info` returns, given the configured key and the search reply. */
  function FetchCurseForge(slug: string, fileId: Option<string>, url: string,
                           apiKey: string, search: Response<seq<CurseForgeMod>>): ModpackInfo
  {
    var base := NewInfo(CurseForge, url, slug);
    if apiKey == "" then
      base.(name := SlugTitle(slug),
            description := Some("CurseForge modpack: " + slug + " (API key not configured)"))
    else
      match search
      case Raised(e) =>
        base.(name := SlugTitle(slug), description := Some("CurseForge modpack: " + slug + " (Error: " + e + ")"))
      case Reply(status, mods) =>
        var i1 := if status == 200 && mods != [] then WithCurseForgeMod(base, mods[0], fileId) else base;
        i1.(javaVersion := DetectJavaVersion(i1.minecraftVersion))
  }

  /** `_fetch_curseforge_info`, with the modloader loop over the file's game versions. */
  method FetchCurseForgeInfo(slug: string, fileId: Option<string>, url: string,
                             apiKey: string, search: Response<seq<CurseForgeMod>>)
    returns (info: ModpackInfo)
    ensures info == FetchCurseForge(slug, fileId, url, apiKey, search)
  {
    info := NewInfo(CurseForge, url, slug);
    if apiKey == "" {
      info := info.(name := Title(ReplaceChar(slug, '-', ' ')));
      info := info.(description := Some("CurseForge modpack: " + slug + " (API key not configured)"));
      return;
    }
    if search.Raised? {
      info := info.(name := Title(ReplaceChar(slug, '-', ' ')));
      info := info.(description := Some("CurseForge modpack: " + slug + " (Error: " + search.error + ")"));
      return;
    }
    if search.status == 200 && search.body != [] {
      var m := search.body[0];
      info := info.(projectId := IdString(m.id));
      info := info.(name := GetOr(m.name, slug));
      info := info.(description := Some(GetOr(m.summary, "")));
      info := info.(iconUrl := m.logoUrl);
      if m.authors != [] {
        info := info.(author := m.authors[0].name);
      }
      if m.latestFiles != [] {
        var target := SelectFile(m.latestFiles, fileId);
        info := info.(fileId := Some(IdString(target.id)));
        info := info.(downloadUrl := target.downloadUrl);
        var mc := FirstMinecraftVersion(target.gameVersions);
        if mc.Some? {
          info := info.(minecraftVersion := mc);
        }
        var loader := ScanGameVersions(target.gameVersions, info.modloader);
        info := info.(modloader := loader);
      }
    }
    info := info.(javaVersion := DetectJavaVersion(info.minecraftVersion));
  }

  // ------------------------------------------------------------------ dispatch

  /** Everything the outside world would answer during one `fetch_modpack_info`. */
  datatype Upstream = Upstream(
    modrinthProject: Response<ModrinthProject>,
    modrinthVersions: Response<seq<ModrinthVersion>>,
    curseForgeApiKey: string,
    curseForgeSearch: Response<seq<CurseForgeMod>>)

  const UnknownDescription := "Unable to parse modpack URL. Please provide a valid CurseForge or Modrinth URL."

  /** What `fetch_modpack_info(url)` returns. */
  function FetchInfo(url: string, up: Upstream): ModpackInfo {
    var d := Detect(url);
    if d.source == Modrinth && Truthy(d.slug) then
      FetchModrinth(d.slug.value, d.id, url, up.modrinthProject, up.modrinthVersions)
    else if d.source == CurseForge && Truthy(d.slug) then
      FetchCurseForge(d.slug.value, d.id, url, up.curseForgeApiKey, up.curseForgeSearch)
    else
      NewInfo(d.source, url, "").(description := Some(UnknownDescription))
  }

  /** `fetch_modpack_info`: classify the URL, then ask the matching platform. */
  method FetchModpackInfo(url: string, up: Upstream) returns (info: ModpackInfo)
    ensures info == FetchInfo(url, up)
  {
    var d := DetectSource(url);
    if d.source == Modrinth && Truthy(d.slug) {
      info := FetchModrinthInfo(d.slug.value, d.id, url, up.modrinthProject, up.modrinthVersions);
    } else if d.source == CurseForge && Truthy(d.slug) {
      info := FetchCurseForgeInfo(d.slug.value, d.id, url, up.curseForgeApiKey, up.curseForgeSearch);
    } else {
      info := NewInfo(d.source, url, "").(description := Some(UnknownDescription));
    }
  }

  // -------------------------------------------------------------------- lemmas

  /** A record whose fields the fetches keep consistent. */
  predicate WellFormed(info: ModpackInfo) {
    && (info.minecraftVersion.Some? ==> IsMinecraftVersion(info.minecraftVersion.value))
    && (info.modloaderVersion.Some? ==> info.modloader.Some? && Truthy(info.modloaderVersion))
    && info.modloader != Some(Vanilla)
    && info.modCount == 0
    && info.javaVersion in {8, 11, 16, 17, 21}
  }

  /** The fields a chosen Modrinth version fills in stay consistent, and never say NeoForge. */
  lemma WithModrinthVersionFacts(info: ModpackInfo, v: ModrinthVersion)
    requires WellFormed(info) && info.modloader.None? && info.modloaderVersion.None?
    ensures var r := WithModrinthVersion(info, v);
      && WellFormed(r) && r.modloader != Some(NeoForge)
      && r.source == info.source && r.sourceUrl == info.sourceUrl && r.slug == info.slug
  {
    var mc := FirstMinecraftVersion(v.gameVersions);
    var loader := ModrinthLoader(v.loaders);
    ModrinthNeverNeoForge(v.loaders);
    var i1 := info.(fileId := v.id);
    var i2 := if mc.Some? then i1.(minecraftVersion := mc) else i1;
    assert WellFormed(i2);
    var i3 := if loader.Some? then i2.(modloader := loader) else i2;
    assert WellFormed(i3) && i3.modloader != Some(NeoForge);
    var i4 := if v.files != [] then i3.(downloadUrl := PrimaryFile(v.files).url) else i3;
    assert WellFormed(i4);
    assert i4.source == info.source && i4.sourceUrl == info.sourceUrl && i4.slug == info.slug;
    var lv := LastLoaderVersion(v.dependencies);
    assert WithModrinthVersion(info, v) == if i4.modloader.Some? && lv.Some? then i4.(modloaderVersion := lv) else i4;
  }

  /** The error fallback's description names the platform and the slug. */
  lemma ModrinthFallbackFacts(info: ModpackInfo, slug: string, e: string)
    ensures var r := ModrinthFallback(info, slug, e);
      && r.name == SlugTitle(slug)
      && r.description.Some? && StartsWith(r.description.value, "Modrinth modpack: " + slug)
      && r.javaVersion == info.javaVersion
  {
    var p := "Modrinth modpack: " + slug;
    var d := p + " (Error fetching details: " + e + ")";
    assert d == p + (" (Error fetching details: " + e + ")");
    assert d[..|p|] == p;
  }

  /**
   * The Modrinth fetch keeps the URL and slug, never reports NeoForge, only
   * keeps a recognised Minecraft version, only records a loader version
   * next to a loader, and either derives the Java version from the
   * Minecraft version or, after an exception, falls back to the title-cased
   * slug and Java 17.
   */
  lemma ModrinthFetchFacts(slug: string, versionId: Option<string>, url: string,
                           project: Response<ModrinthProject>, versions: Response<seq<ModrinthVersion>>)
    ensures var r := FetchModrinth(slug, versionId, url, project, versions);
      && r.source == Modrinth && r.sourceUrl == url && r.slug == slug
      && r.modloader != Some(NeoForge)
      && WellFormed(r)
      && (project.Raised? || versions.Raised? ==>
            r.name == SlugTitle(slug) && r.javaVersion == 17 &&
            r.description.Some? && StartsWith(r.description.value, "Modrinth modpack: " + slug))
      && (project.Reply? && versions.Reply? ==> r.javaVersion == DetectJavaVersion(r.minecraftVersion))
  {
    var base := NewInfo(Modrinth, url, slug);
    match project
    case Raised(e) =>
      ModrinthFallbackFacts(base, slug, e);
    case Reply(status, p) =>
      var i1 := if status == 200 then WithModrinthProject(base, p) else base;
      match versions
      case Raised(e) =>
        ModrinthFallbackFacts(i1, slug, e);
      case Reply(status', vs) =>
        if status' == 200 && vs != [] {
          WithModrinthVersionFacts(i1, SelectVersion(vs, versionId));
        }
  }

  /** Without an API key the CurseForge fetch makes no request: the record depends on the slug alone. */
  lemma CurseForgeNoKey(slug: string, fileId: Option<string>, url: string, search: Response<seq<CurseForgeMod>>)
    ensures var r := FetchCurseForge(slug, fileId, url, "", search);
      && r == NewInfo(CurseForge, url, slug).(name := SlugTitle(slug),
                description := Some("CurseForge modpack: " + slug + " (API key not configured)"))
      && r.javaVersion == 17
  {
  }

  /** The fields the first search hit fills in stay consistent, and never hold a loader version. */
  lemma WithCurseForgeModFacts(info: ModpackInfo, m: CurseForgeMod, fileId: Option<string>)
    requires WellFormed(info) && info.modloaderVersion.None?
    ensures var r := WithCurseForgeMod(info, m, fileId);
      && WellFormed(r) && r.modloaderVersion.None?
      && r.source == info.source && r.sourceUrl == info.sourceUrl && r.slug == info.slug
  {
    var i1 := info.(projectId := IdString(m.id), name := GetOr(m.name, info.slug),
                    description := Some(GetOr(m.summary, "")), iconUrl := m.logoUrl);
    var i2 := if m.authors != [] then i1.(author := m.authors[0].name) else i1;
    assert WellFormed(i2) && i2.modloaderVersion.None?;
    if m.latestFiles != [] {
      WithCurseForgeFileFacts(i2, SelectFile(m.latestFiles, fileId));
    }
  }

  /** The fields a CurseForge file fills in stay consistent. */
  lemma WithCurseForgeFileFacts(info: ModpackInfo, f: CurseForgeFile)
    requires WellFormed(info) && info.modloaderVersion.None?
    ensures var r := WithCurseForgeFile(info, f);
      && WellFormed(r) && r.modloaderVersion.None?
      && r.source == info.source && r.sourceUrl == info.sourceUrl && r.slug == info.slug
  {
  }

  /**
   * The CurseForge fetch keeps the URL and slug, never sets a loader
   * version, only keeps a recognised Minecraft version, and derives the
   * Java version from it once a reply arrived.
   */
  lemma CurseForgeFetchFacts(slug: string, fileId: Option<string>, url: string,
                             apiKey: string, search: Response<seq<CurseForgeMod>>)
    ensures var r := FetchCurseForge(slug, fileId, url, apiKey, search);
      && r.source == CurseForge && r.sourceUrl == url && r.slug == slug
      && r.modloaderVersion.None?
      && WellFormed(r)
      && (apiKey != "" && search.Reply? ==> r.javaVersion == DetectJavaVersion(r.minecraftVersion))
      && (apiKey != "" && search.Raised? ==> r.name == SlugTitle(slug) && r.javaVersion == 17)
  {
    var base := NewInfo(CurseForge, url, slug);
    if apiKey != "" && search.Reply? && search.status == 200 && search.body != [] {
      WithCurseForgeModFacts(base, search.body[0], fileId);
    }
  }

  /**
   * `fetch_modpack_info` reports the source `detect_source` found; an
   * unrecognised URL gives the "Unknown Modpack" placeholder, never an error.
   */
  lemma FetchInfoFacts(url: string, up: Upstream)
    ensures var r := FetchInfo(url, up);
      && r.source == Detect(url).source && r.sourceUrl == url
      && WellFormed(r)
      && (r.source == Modrinth ==> r.modloader != Some(NeoForge))
      && (Detect(url).source == Unknown ==>
            r.name == "Unknown Modpack" && r.description == Some(UnknownDescription) && r.javaVersion == 17)
  {
    var d := Detect(url);
    DetectShape(url);
    if d.source == Modrinth {
      ModrinthFetchFacts(d.slug.value, d.id, url, up.modrinthProject, up.modrinthVersions);
    } else if d.source == CurseForge {
      CurseForgeFetchFacts(d.slug.value, d.id, url, up.curseForgeApiKey, up.curseForgeSearch);
    }
  }
}
