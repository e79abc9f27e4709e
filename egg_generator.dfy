/**
 * Egg synthesis of the modpack service (`generate_egg_json` and its
 * helpers): the Pterodactyl/Pelican egg document for a `ModpackInfo`,
 * with its docker-image map, startup command, install-script choice and
 * ordered list of environment variables. The bodies of the install
 * scripts are fixed bash text; only which template is chosen and the
 * values interpolated into it are modelled.
 */
module EggGenerator {
  import opened Wrappers
  import opened PyStr
  import opened Modpack

  // ----------------------------------------------------------- docker images

  const Yolks := "ghcr.io/pterodactyl/yolks"

  /** The entry `f"Java {v}": f"{base}:java_{v}"`. */
  function ImageEntry(v: int): (string, string) {
    ("Java " + IntToString(v), Yolks + ":java_" + IntToString(v))
  }

  /** The keys of an ordered JSON object are pairwise distinct. */
  predicate DistinctKeys(m: seq<(string, string)>) {
    forall i, j :: 0 <= i < j < |m| ==> m[i].0 != m[j].0
  }

  /** The value stored under `key`, reading an ordered object as a dict. */
  function Lookup(m: seq<(string, string)>, key: string): Option<string> {
    if m == [] then None else if m[0].0 == key then Some(m[0].1) else Lookup(m[1..], key)
  }

  lemma SeventeenAndTwentyOne()
    ensures IntToString(17) == "17" && IntToString(21) == "21"
  {
    assert NatToString(1) == "1" && NatToString(2) == "2";
    assert NatToString(17) == NatToString(1) + [DigitChar(7)];
    assert NatToString(21) == NatToString(2) + [DigitChar(1)];
  }

  /** The key for Java `v` is "Java 17" or "Java 21" only when `v` is 17 or 21. */
  lemma FallbackKeys(v: int)
    ensures ImageEntry(v).0 == "Java 17" <==> v == 17
    ensures ImageEntry(v).0 == "Java 21" <==> v == 21
  {
    SeventeenAndTwentyOne();
    if v != 17 {
      IntToStringInjective(v, 17);
      assert ("Java " + IntToString(v))[5..] == IntToString(v);
    }
    if v != 21 {
      IntToStringInjective(v, 21);
      assert ("Java " + IntToString(v))[5..] == IntToString(v);
    }
  }

  /**
   * `_get_docker_images(v)`: the image for `v` first, then Java 17 and
   * Java 21 as fallbacks unless `v` is one of them, in insertion order.
   */
  function DockerImages(v: int): (images: seq<(string, string)>)
    ensures |images| >= 1 && images[0] == ImageEntry(v)
    ensures DistinctKeys(images)
    ensures |images| == if v == 17 || v == 21 then 2 else 3
  {
    FallbackKeys(v);
    [ImageEntry(v)]
      + (if v != 17 then [("Java 17", Yolks + ":java_17")] else [])
      + (if v != 21 then [("Java 21", Yolks + ":java_21")] else [])
  }

  /** Read as a dict, the images map Java `v`, 17 and 21 each to its yolks image. */
  lemma {:induction false} DockerImagesLookup(v: int)
    ensures Lookup(DockerImages(v), "Java " + IntToString(v)) == Some(Yolks + ":java_" + IntToString(v))
    ensures Lookup(DockerImages(v), "Java 17") == Some(Yolks + ":java_17")
    ensures Lookup(DockerImages(v), "Java 21") == Some(Yolks + ":java_21")
  {
    SeventeenAndTwentyOne();
    FallbackKeys(v);
    var m := DockerImages(v);
    var e17 := ("Java 17", Yolks + ":java_17");
    var e21 := ("Java 21", Yolks + ":java_21");
    assert "Java 17" != "Java 21" by { assert "Java 17"[6] != "Java 21"[6]; }
    assert ":java_" + "17" == ":java_17" && ":java_" + "21" == ":java_21";
    assert "Java " + "17" == "Java 17" && "Java " + "21" == "Java 21";
    assert Yolks + ":java_" + "17" == Yolks + (":java_" + "17");
    assert Yolks + ":java_" + "21" == Yolks + (":java_" + "21");
    if v == 17 {
      assert ImageEntry(v) == e17;
      assert m == [e17, e21];
      assert m[1..] == [e21];
    } else if v == 21 {
      assert ImageEntry(v) == e21;
      assert m == [ImageEntry(v), e17];
      assert m[1..] == [e17];
    } else {
      assert m == [ImageEntry(v), e17, e21];
      assert m[1..] == [e17, e21];
      assert m[1..][1..] == [e21];
      assert Lookup(m[1..], "Java 21") == Lookup(m[1..][1..], "Java 21");
    }
  }

  // --------------------------------------------------------- startup command

  const MemoryFlags := "-Xms128M -Xmx{{SERVER_MEMORY}}M"

  /** Flags for Java 17 and newer. */
  const ModernJvmFlagsList := [
    "-XX:+UseG1GC",
    "-XX:+ParallelRefProcEnabled",
    "-XX:MaxGCPauseMillis=200",
    "-XX:+UnlockExperimentalVMOptions",
    "-XX:+DisableExplicitGC",
    "-XX:+AlwaysPreTouch",
    "-XX:G1HeapWastePercent=5",
    "-XX:G1MixedGCCountTarget=4",
    "-XX:G1MixedGCLiveThresholdPercent=90",
    "-XX:G1RSetUpdatingPauseTimePercent=5",
    "-XX:SurvivorRatio=32",
    "-XX:+PerfDisableSharedMem",
    "-XX:MaxTenuringThreshold=1"]
  const ModernJvmFlags := Join(ModernJvmFlagsList, " ")

  /** Flags for older Java versions. */
  const LegacyJvmFlagsList := [
    "-XX:+UseG1GC",
    "-XX:+UnlockExperimentalVMOptions",
    "-XX:MaxGCPauseMillis=100",
    "-XX:+DisableExplicitGC",
    "-XX:TargetSurvivorRatio=90",
    "-XX:G1NewSizePercent=50",
    "-XX:G1MaxNewSizePercent=80",
    "-XX:G1HeapWastePercent=5",
    "-XX:+UseStringDeduplication"]
  const LegacyJvmFlags := Join(LegacyJvmFlagsList, " ")

  function JvmFlags(java: int): string {
    if java >= 17 then ModernJvmFlags else LegacyJvmFlags
  }

  /** The two flag sets already differ in their second flag. */
  lemma FlagSetsDiffer()
    ensures ModernJvmFlags != LegacyJvmFlags
  {
    JoinsDiffer(ModernJvmFlagsList, LegacyJvmFlagsList, " ", 5);
  }

  /** Joins whose first pieces agree and whose second pieces differ at `k` differ. */
  lemma JoinsDiffer(m: seq<string>, l: seq<string>, sep: string, k: nat)
    requires |m| >= 2 && |l| >= 2 && m[0] == l[0]
    requires k < |m[1]| && k < |l[1]| && m[1][k] != l[1][k]
    ensures Join(m, sep) != Join(l, sep)
  {
    JoinSecondPiece(m, sep, k);
    JoinSecondPiece(l, sep, k);
  }

  /** The second piece of a join follows the first piece and the separator. */
  lemma JoinSecondPiece(parts: seq<string>, sep: string, k: nat)
    requires |parts| >= 2 && k < |parts[1]|
    ensures |parts[0]| + |sep| + k < |Join(parts, sep)|
    ensures Join(parts, sep)[|parts[0]| + |sep| + k] == parts[1][k]
  {
    var rest := parts[1..];
    assert rest[0] == parts[1];
    if |rest| > 1 {
      assert Join(rest, sep) == rest[0] + sep + Join(rest[1..], sep);
    }
    assert Join(rest, sep)[k] == parts[1][k];
  }

  /** What every startup command begins with: `java -Xms128M -Xmx{{SERVER_MEMORY}}M `. */
  const StartupHead := "java " + MemoryFlags + " "
  /** What every startup command ends with. */
  const StartupTail := " -jar {{SERVER_JARFILE}}"

  /**
   * `_get_startup_command`: the memory flags, the JVM flags for the Java
   * version and the jar. The modloader argument is not used.
   */
  function StartupCommand(modloader: ModpackType, java: int): (r: string)
    ensures |r| == |StartupHead| + |JvmFlags(java)| + |StartupTail|
    ensures StartsWith(r, StartupHead) && EndsWith(r, StartupTail)
    ensures r[|StartupHead|..|r| - |StartupTail|] == JvmFlags(java)
  {
    ThreeParts(StartupHead, JvmFlags(java), StartupTail);
    StartupHead + JvmFlags(java) + StartupTail
  }

  /** The three pieces of a concatenation can be read back from it. */
  lemma ThreeParts(a: string, b: string, c: string)
    ensures var s := a + b + c;
      && StartsWith(s, a) && EndsWith(s, c) && s[|a|..|s| - |c|] == b
  {
    var s := a + b + c;
    assert s[..|a|] == a;
    assert s[|s| - |c|..] == c;
    assert s[|a|..|s| - |c|] == b;
  }

  /**
   * Two startup commands are the same exactly when both Java versions are on
   * the same side of 17: the modloader never matters.
   */
  lemma StartupDependsOnlyOnThreshold(m: ModpackType, m': ModpackType, java: int, java': int)
    ensures StartupCommand(m, java) == StartupCommand(m', java') <==> (java >= 17 <==> java' >= 17)
  {
    if (java >= 17) != (java' >= 17) {
      FlagSetsDiffer();
      assert JvmFlags(java) != JvmFlags(java');
    }
  }

  // ---------------------------------------------------------- recommended memory

  /** `_get_recommended_memory`: the memory in MB suggested for a number of mods. */
  function RecommendedMemory(modCount: int): (r: string)
    ensures r in ["1536", "2048", "3072", "4096", "6144"]
  {
    if modCount > 200 then "6144"
    else if modCount > 100 then "4096"
    else if modCount > 50 then "3072"
    else if modCount > 20 then "2048"
    else "1536"
  }

  /** Appending a digit multiplies the value by ten and adds the digit. */
  lemma DigitsValueSnoc(s: string, c: char)
    requires IsDigit(c)
    ensures DigitsValue(s + [c]) == DigitsValue(s) * 10 + (c as int - '0' as int)
  {
    assert (s + [c])[..|s + [c]| - 1] == s;
  }

  /** The value of four digits. */
  lemma FourDigitsValue(a: char, b: char, c: char, d: char)
    requires IsDigit(a) && IsDigit(b) && IsDigit(c) && IsDigit(d)
    ensures DigitsValue([a, b, c, d]) == 1000 * (a as int - 48) + 100 * (b as int - 48)
                                         + 10 * (c as int - 48) + (d as int - 48)
  {
    DigitsValueSnoc([], a);
    DigitsValueSnoc([a], b);
    DigitsValueSnoc([a, b], c);
    DigitsValueSnoc([a, b, c], d);
    assert [] + [a] == [a] && [a] + [b] == [a, b] && [a, b] + [c] == [a, b, c] && [a, b, c] + [d] == [a, b, c, d];
  }

  /** The recommended memory is a decimal number of megabytes. */
  lemma MemoryValue(modCount: int)
    ensures IsDigits(RecommendedMemory(modCount))
    ensures DigitsValue(RecommendedMemory(modCount)) ==
      if modCount > 200 then 6144 else if modCount > 100 then 4096
      else if modCount > 50 then 3072 else if modCount > 20 then 2048 else 1536
  {
    var r := RecommendedMemory(modCount);
    assert r == [r[0], r[1], r[2], r[3]];
    FourDigitsValue(r[0], r[1], r[2], r[3]);
  }

  /**
   * More mods never get less memory, and every recommendation meets the
   * `min:512` rule of the SERVER_MEMORY variable.
   */
  lemma MemoryMonotone(a: int, b: int)
    requires a <= b
    ensures 512 <= DigitsValue(RecommendedMemory(a)) <= DigitsValue(RecommendedMemory(b))
  {
    MemoryValue(a);
    MemoryValue(b);
  }

  // ------------------------------------------------------------ install script

  /**
   * The install script, by what is interpolated into it: the template for
   * the modloader, the modpack's name and source URL, the Minecraft version
   * and (for every template but Vanilla) the loader version.
   */
  datatype InstallScript = InstallScript(
    template: ModpackType, modpackName: string, sourceUrl: string, mcVersion: string, loaderVersion: Option<string>)

  const DefaultMinecraftVersion := "1.20.1"

  /** `_get_install_script`: exactly one template per modloader. */
  function InstallScriptFor(info: ModpackInfo, modloader: ModpackType): (s: InstallScript)
    ensures s.template == modloader
    ensures s.modpackName == info.name && s.sourceUrl == info.sourceUrl
    ensures s.mcVersion == Or(info.minecraftVersion, DefaultMinecraftVersion)
    ensures s.loaderVersion.None? <==> modloader == Vanilla
    ensures modloader != Vanilla ==> s.loaderVersion == Some(Or(info.modloaderVersion, "latest"))
  {
    var mc := Or(info.minecraftVersion, DefaultMinecraftVersion);
    var lv := Or(info.modloaderVersion, "latest");
    match modloader
    case Fabric => InstallScript(Fabric, info.name, info.sourceUrl, mc, Some(lv))
    case Forge => InstallScript(Forge, info.name, info.sourceUrl, mc, Some(lv))
    case NeoForge => InstallScript(NeoForge, info.name, info.sourceUrl, mc, Some(lv))
    case Quilt => InstallScript(Quilt, info.name, info.sourceUrl, mc, Some(lv))
    case Vanilla => InstallScript(Vanilla, info.name, info.sourceUrl, mc, None)
  }

  // ---------------------------------------------------------------- variables

  /** One egg variable. Every variable the service emits is user-viewable with a text field. */
  datatype Variable = Variable(
    name: string, description: string, envVariable: string, defaultValue: string,
    userViewable: bool, userEditable: bool, rules: string, fieldType: string)

  function TextVariable(name: string, description: string, env: string, default: string,
                        editable: bool, rules: string): Variable {
    Variable(name, description, env, default, true, editable, rules, "text")
  }

  /** The descriptions and validation rules of the variables. */
  const JarDescription := "The name of the server jarfile to run."
  const MemoryDescription := "The maximum amount of memory (in MB) for the server."
  const MinecraftDescription := "The Minecraft version for the server."
  const FabricDescription := "The version of Fabric loader to install."
  const ForgeDescription := "The version of Forge to install."
  const NeoForgeDescription := "The version of NeoForge to install."
  const QuiltDescription := "The version of Quilt loader to install."
  const UrlDescription := "Direct download URL for the modpack."
  const JarRules := "required|string|max:50"
  const MemoryRules := "required|numeric|min:512"
  const VersionRules := "required|string|max:20"
  const UrlRules := "nullable|url"

  /** SERVER_JARFILE, SERVER_MEMORY and MINECRAFT_VERSION. */
  function BaseVariables(info: ModpackInfo): seq<Variable> {
    [ TextVariable("Server Jar File", JarDescription, "SERVER_JARFILE",
                   "server.jar", true, JarRules),
      TextVariable("Server Memory", MemoryDescription, "SERVER_MEMORY",
                   RecommendedMemory(info.modCount), false, MemoryRules),
      TextVariable("Minecraft Version", MinecraftDescription, "MINECRAFT_VERSION",
                   Or(info.minecraftVersion, DefaultMinecraftVersion), true, VersionRules) ]
  }

  /** The environment variable naming the loader version, for every loader but Vanilla. */
  function LoaderEnv(m: ModpackType): string {
    match m
    case Fabric => "FABRIC_VERSION"
    case Forge => "FORGE_VERSION"
    case NeoForge => "NEOFORGE_VERSION"
    case Quilt => "QUILT_VERSION"
    case Vanilla => ""
  }

  /** The loader-specific variable, if any. */
  function LoaderVariables(info: ModpackInfo, m: ModpackType): seq<Variable> {
    match m
    case Fabric => [TextVariable("Fabric Version", FabricDescription,
                      "FABRIC_VERSION", Or(info.modloaderVersion, "latest"), true, VersionRules)]
    case Forge => [TextVariable("Forge Version", ForgeDescription,
                      "FORGE_VERSION", Or(info.modloaderVersion, "recommended"), true, VersionRules)]
    case NeoForge => [TextVariable("NeoForge Version", NeoForgeDescription,
                      "NEOFORGE_VERSION", Or(info.modloaderVersion, "latest"), true, VersionRules)]
    case Quilt => [TextVariable("Quilt Version", QuiltDescription,
                      "QUILT_VERSION", Or(info.modloaderVersion, "latest"), true, VersionRules)]
    case Vanilla => []
  }

  /** MODPACK_URL, when there is a download URL. */
  function UrlVariables(info: ModpackInfo): seq<Variable> {
    if Truthy(info.downloadUrl) then
      [TextVariable("Modpack URL", UrlDescription, "MODPACK_URL",
                    info.downloadUrl.value, true, UrlRules)]
    else []
  }

  /** The environment names of a variable list. */
  function EnvNames(vars: seq<Variable>): seq<string> {
    seq(|vars|, k requires 0 <= k < |vars| => vars[k].envVariable)
  }

  lemma EnvNamesAppend(a: seq<Variable>, b: seq<Variable>)
    ensures EnvNames(a + b) == EnvNames(a) + EnvNames(b)
  {
  }

  /** The environment names a variable list has, in order. */
  function ExpectedEnvNames(modloader: ModpackType, hasUrl: bool): seq<string> {
    ["SERVER_JARFILE", "SERVER_MEMORY", "MINECRAFT_VERSION"]
      + (if modloader == Vanilla then [] else [LoaderEnv(modloader)])
      + (if hasUrl then ["MODPACK_URL"] else [])
  }

  /**
   * `_get_variables`: three fixed variables, at most one loader variable,
   * and MODPACK_URL last exactly when the download URL is truthy. The Java
   * version argument is not used.
   */
  function Variables(info: ModpackInfo, modloader: ModpackType, java: int): (vars: seq<Variable>)
    ensures EnvNames(vars) == ExpectedEnvNames(modloader, Truthy(info.downloadUrl))
    ensures |vars| >= 3 && vars[1].defaultValue == RecommendedMemory(info.modCount)
    ensures vars[2].defaultValue == Or(info.minecraftVersion, DefaultMinecraftVersion)
    ensures Truthy(info.downloadUrl) ==> vars[|vars| - 1].defaultValue == info.downloadUrl.value
    ensures modloader != Vanilla ==>
      && |vars| >= 4
      && vars[3].defaultValue == Or(info.modloaderVersion, if modloader == Forge then "recommended" else "latest")
  {
    var base := BaseVariables(info);
    var loader := LoaderVariables(info, modloader);
    var url := UrlVariables(info);
    EnvNamesAppend(base, loader);
    EnvNamesAppend(base + loader, url);
    assert EnvNames(base) == ["SERVER_JARFILE", "SERVER_MEMORY", "MINECRAFT_VERSION"];
    assert EnvNames(loader) == if modloader == Vanilla then [] else [LoaderEnv(modloader)];
    assert EnvNames(url) == if Truthy(info.downloadUrl) then ["MODPACK_URL"] else [];
    var vars := base + loader + url;
    assert vars[1] == base[1] && vars[2] == base[2];
    assert Truthy(info.downloadUrl) ==> vars[|vars| - 1] == url[0];
    assert modloader != Vanilla ==> vars[3] == loader[0];
    vars
  }

  /** No two names in the list are equal. */
  predicate AllDistinct(names: seq<string>) {
    forall i, j :: 0 <= i < j < |names| ==> names[i] != names[j]
  }

  /**
   * The variable list has 3 to 5 entries with distinct environment names,
   * starts with SERVER_JARFILE, SERVER_MEMORY and MINECRAFT_VERSION, has a
   * loader variable for every loader but Vanilla, and ends with MODPACK_URL
   * exactly when the download URL is truthy.
   */
  lemma VariablesShape(info: ModpackInfo, modloader: ModpackType, java: int)
    ensures var names := EnvNames(Variables(info, modloader, java));
      && 3 <= |names| <= 5
      && names[..3] == ["SERVER_JARFILE", "SERVER_MEMORY", "MINECRAFT_VERSION"]
      && (names[|names| - 1] == "MODPACK_URL" <==> Truthy(info.downloadUrl))
      && (modloader == Vanilla <==> |names| == 3 + (if Truthy(info.downloadUrl) then 1 else 0))
      && AllDistinct(names)
  {
    ExpectedEnvNamesShape(modloader, Truthy(info.downloadUrl));
  }

  lemma ExpectedEnvNamesShape(modloader: ModpackType, hasUrl: bool)
    ensures var names := ExpectedEnvNames(modloader, hasUrl);
      && 3 <= |names| <= 5
      && names[..3] == ["SERVER_JARFILE", "SERVER_MEMORY", "MINECRAFT_VERSION"]
      && (names[|names| - 1] == "MODPACK_URL" <==> hasUrl)
      && (modloader == Vanilla <==> |names| == 3 + (if hasUrl then 1 else 0))
      && AllDistinct(names)
  {
    var names := ExpectedEnvNames(modloader, hasUrl);
    var l := if modloader == Vanilla then [] else [LoaderEnv(modloader)];
    var u := if hasUrl then ["MODPACK_URL"] else [];
    assert names == ["SERVER_JARFILE", "SERVER_MEMORY", "MINECRAFT_VERSION"] + l + u;
    forall i, j | 0 <= i < j < |names| ensures |names[i]| != |names[j]| || names[i][0] != names[j][0] {
    }
  }

  // --------------------------------------------------------------------- egg

  /** The egg document; `meta.update_url` is always null and is left implicit. */
  datatype Egg = Egg(
    comment: string,
    metaVersion: string,
    exportedAt: string,
    name: string,
    author: string,
    description: string,
    features: seq<string>,
    dockerImages: seq<(string, string)>,
    fileDenylist: seq<string>,
    startup: string,
    configFiles: ConfigDocument,
    configStartup: ConfigDocument,
    configLogs: ConfigDocument,
    configStop: string,
    installScript: InstallScript,
    installContainer: string,
    installEntrypoint: string,
    variables: seq<Variable>)

  /**
   * The three fixed JSON texts of the egg's `config` block, held by name;
   * `ConfigText` spells each one out.
   */
  datatype ConfigDocument = ServerPropertiesFiles | DoneMarker | LatestLogs

  function ConfigText(d: ConfigDocument): string {
    match d
    case ServerPropertiesFiles => "{\r\n    \"server.properties\": {\r\n        \"parser\": \"properties\",\r\n        \"find\": {\r\n            \"server-port\": \"{{server.build.default.port}}\",\r\n            \"enable-query\": \"true\",\r\n            \"query.port\": \"{{server.build.default.port}}\"\r\n        }\r\n    }\r\n}"
    case DoneMarker => "{\r\n    \"done\": \")! For help, type \"\r\n}"
    case LatestLogs => "{\r\n    \"custom\": false,\r\n    \"location\": \"logs/latest.log\"\r\n}"
  }

  /** The fixed header fields of a generated egg, and the install image's name prefix. */
  const EggComment := "DO NOT EDIT: FILE GENERATED AUTOMATICALLY BY HATCHERY"
  const MetaVersion := "PTDL_v2"
  const EggAuthor := "hatchery@generated.local"
  const EggFeatures := ["eula", "java_version", "pid_limit"]
  const TemurinPrefix := "eclipse-temurin:"

  /** `java_version or modpack_info.java_version`: an override of 0 counts as none. */
  function EffectiveJava(info: ModpackInfo, javaOverride: Option<int>): (j: int)
    ensures javaOverride.Some? && javaOverride.value != 0 ==> j == javaOverride.value
    ensures javaOverride.None? || javaOverride.value == 0 ==> j == info.javaVersion
  {
    if javaOverride.Some? && javaOverride.value != 0 then javaOverride.value else info.javaVersion
  }

  /** `modpack_info.modloader or ModpackType.FORGE` */
  function EffectiveLoader(info: ModpackInfo): (m: ModpackType)
    ensures info.modloader.Some? ==> m == info.modloader.value
    ensures info.modloader.None? ==> m == Forge
  {
    if info.modloader.Some? then info.modloader.value else Forge
  }

  /**
   * `generate_egg_json(info, java_version)`; `exportedAt` stands for the
   * current time, which is the only input not taken from the arguments.
   */
  function GenerateEgg(info: ModpackInfo, javaOverride: Option<int>, exportedAt: string): (egg: Egg)
    ensures egg.exportedAt == exportedAt
  {
    var java := EffectiveJava(info, javaOverride);
    var loader := EffectiveLoader(info);
    Egg(
      EggComment,
      MetaVersion,
      exportedAt,
      info.name,
      EggAuthor,
      Or(info.description, "Generated " + Title(LoaderValue(loader)) + " server for " + info.name),
      EggFeatures,
      DockerImages(java),
      [],
      StartupCommand(loader, java),
      ServerPropertiesFiles,
      DoneMarker,
      LatestLogs,
      "stop",
      InstallScriptFor(info, loader),
      TemurinPrefix + IntToString(java) + "-jdk",
      "bash",
      Variables(info, loader, java))
  }

  /**
   * The egg carries the modpack's name, the generator's author and format,
   * the override Java version whenever it is non-zero (else the detected
   * one) in its install container, the install template of the modpack's
   * loader (Forge when it has none), and the modpack's description or, when
   * that is empty, a generated one naming the loader.
   */
  lemma EggFacts(info: ModpackInfo, javaOverride: Option<int>, t: string)
    ensures var egg := GenerateEgg(info, javaOverride, t);
      && egg.name == info.name && egg.author == EggAuthor && egg.metaVersion == MetaVersion
      && egg.installContainer == TemurinPrefix + IntToString(EffectiveJava(info, javaOverride)) + "-jdk"
      && egg.installEntrypoint == "bash"
      && egg.installScript.template == EffectiveLoader(info)
      && (Truthy(info.description) ==> egg.description == info.description.value)
      && (!Truthy(info.description) ==>
            egg.description == "Generated " + Title(LoaderValue(EffectiveLoader(info))) + " server for " + info.name)
  {
  }

  /** Apart from `exported_at`, the egg is a function of the record and the override. */
  lemma EggIgnoresClock(info: ModpackInfo, javaOverride: Option<int>, t: string, t': string)
    ensures GenerateEgg(info, javaOverride, t).(exportedAt := t') == GenerateEgg(info, javaOverride, t')
  {
  }

  /**
   * The egg of a record without a modloader is the Forge egg, and its
   * variables end with FORGE_VERSION (defaulting to "recommended") or MODPACK_URL.
   */
  lemma MissingLoaderIsForge(info: ModpackInfo, javaOverride: Option<int>, t: string)
    requires info.modloader.None?
    ensures var egg := GenerateEgg(info, javaOverride, t);
      && egg.installScript.template == Forge
      && |egg.variables| >= 4
      && egg.variables[3].envVariable == "FORGE_VERSION"
      && egg.variables[3].defaultValue == Or(info.modloaderVersion, "recommended")
  {
    EggFacts(info, javaOverride, t);
    EggLoaderVariable(info, javaOverride, t);
  }

  /**
   * Unless the egg is for Vanilla, its fourth variable is the loader's
   * version variable, defaulting to the record's loader version, else to
   * "recommended" for Forge and "latest" for the other loaders.
   */
  lemma EggLoaderVariable(info: ModpackInfo, javaOverride: Option<int>, t: string)
    ensures var egg := GenerateEgg(info, javaOverride, t);
      var m := EffectiveLoader(info);
      m != Vanilla ==>
        && |egg.variables| >= 4
        && egg.variables[3].envVariable == LoaderEnv(m)
        && egg.variables[3].defaultValue == Or(info.modloaderVersion, if m == Forge then "recommended" else "latest")
  {
    var egg := GenerateEgg(info, javaOverride, t);
    var m := EffectiveLoader(info);
    assert egg.variables == Variables(info, m, EffectiveJava(info, javaOverride));
    if m != Vanilla {
      assert ExpectedEnvNames(m, Truthy(info.downloadUrl))[3] == LoaderEnv(m);
      assert EnvNames(egg.variables)[3] == egg.variables[3].envVariable;
    }
  }

  /**
   * The Java version that reaches the egg is one number throughout: the
   * install container, the first docker image and the startup flags all
   * follow it; the override wins whenever it is non-zero.
   */
  lemma EggJavaAgrees(info: ModpackInfo, javaOverride: Option<int>, t: string)
    ensures var egg := GenerateEgg(info, javaOverride, t);
      var java := EffectiveJava(info, javaOverride);
      && Lookup(egg.dockerImages, "Java " + IntToString(java)) == Some(Yolks + ":java_" + IntToString(java))
      && egg.startup[|StartupHead|..|egg.startup| - |StartupTail|] == JvmFlags(java)
      && egg.installContainer == TemurinPrefix + IntToString(java) + "-jdk"
      && ParseInt(egg.installContainer[|TemurinPrefix|..|egg.installContainer| - 4]) == Some(java)
  {
    EggImagesFollowJava(info, javaOverride, t);
    EggStartupFollowsJava(info, javaOverride, t);
    EggContainerFollowsJava(info, javaOverride, t);
  }

  /** The egg offers the yolks image of its own Java version. */
  lemma EggImagesFollowJava(info: ModpackInfo, javaOverride: Option<int>, t: string)
    ensures var java := EffectiveJava(info, javaOverride);
      Lookup(GenerateEgg(info, javaOverride, t).dockerImages, "Java " + IntToString(java))
        == Some(Yolks + ":java_" + IntToString(java))
  {
    DockerImagesLookup(EffectiveJava(info, javaOverride));
  }

  /** The startup command carries the flag set of the egg's Java version. */
  lemma EggStartupFollowsJava(info: ModpackInfo, javaOverride: Option<int>, t: string)
    ensures var egg := GenerateEgg(info, javaOverride, t);
      egg.startup[|StartupHead|..|egg.startup| - |StartupTail|] == JvmFlags(EffectiveJava(info, javaOverride))
  {
  }

  /** The install container is the Temurin JDK image of the egg's Java version, which its name gives back. */
  lemma EggContainerFollowsJava(info: ModpackInfo, javaOverride: Option<int>, t: string)
    ensures var egg := GenerateEgg(info, javaOverride, t);
      var java := EffectiveJava(info, javaOverride);
      && egg.installContainer == TemurinPrefix + IntToString(java) + "-jdk"
      && ParseInt(egg.installContainer[|TemurinPrefix|..|egg.installContainer| - 4]) == Some(java)
  {
    var java := EffectiveJava(info, javaOverride);
    var c := TemurinPrefix + IntToString(java) + "-jdk";
    assert GenerateEgg(info, javaOverride, t).installContainer == c;
    assert c[|TemurinPrefix|..|c| - 4] == IntToString(java);
    ParseIntOfIntToString(java);
  }

  /** A record produced by the fetches has no mod count, so the memory default is always 1536 MB. */
  lemma FetchedEggMemory(info: ModpackInfo, javaOverride: Option<int>, t: string)
    requires info.modCount == 0
    ensures GenerateEgg(info, javaOverride, t).variables[1].defaultValue == "1536"
  {
  }
}
