# Hatchery backend core in Dafny

Hatchery turns a CurseForge or Modrinth modpack URL into a Pterodactyl
"egg", which is a JSON server definition. It stores eggs and Pterodactyl
panel instances per user. It can also ask an OpenAI-compatible language
model to clean names, write descriptions, guess the modloader or Java
version, and repair a broken config snippet. This project models that
backend core in Dafny and proves properties of the model:

- **URL recognition, `detect_source`.** The three regular expressions are
  searched leftmost-first, in order, with greedy character-class runs
  (`modpack_source.dfy`).
- **Modpack metadata.** This covers the `ModpackInfo` record, the Java
  version table, the modloader classification of both registries, and the
  choice of version, file and loader version (`modpack_service.dfy`).
- **The two registry fetches and the dispatch between them**
  (`modpack_fetch.dfy`). The HTTP replies are inputs, and an exception is
  one of those inputs.
- **Egg generation** (`egg_generator.dfy`): Docker images, startup
  command, memory default, install-script dispatch and the variable list.
  The three fixed config documents are the values of `ConfigDocument`, and
  `ConfigText` gives their exact text.
- **The AI service** (`ai_service.dfy`):
  - prompt building and endpoint normalisation;
  - the outgoing request and the handling of the reply;
  - the five task helpers and their result filters;
  - the service object with its configuration and client flag.
- **The `/ai` router** (`ai_api.dfy`):
  - the per-user configuration table and its redacted view;
  - the gate on the AI task endpoints;
  - the AI task results and `/test`.
- **The `/eggs` and `/panels` routers** (`eggs_api.dfy`, `panels_api.dfy`):
  - access rules, with 404 before 403;
  - listing with paging;
  - partial updates, deletion, export and regeneration.
  - `api_common.dfy` holds what the routers share: HTTP outcomes, callers
    and paging.
- **Settings** (`config.dfy`): `is_sqlite` and `async_database_url`.

Supporting modules:
- `python_str.dfy` models the Python string operations the code relies on:
  - `startswith`, `endswith`, `in`, `find`, `split`, `join`;
  - `strip`, `rstrip`, `lower`, `title`, `replace`;
  - `str(int)` and `int(str)`.
- `json.dfy` models JSON documents and their truthiness.
- `wrappers.dfy` holds `Option`.

Stateful parts of the source are classes whose methods are proved against
specification functions:
- the AI service object;
- the per-user configuration dict;
- the egg and panel tables;
- the loops that scan game versions and dependencies;
- the fetches that set fields one by one.

The network, the clock and `json.loads` are parameters. Database tables
are sequences of rows in insertion order.

The operations model the code as written, including the five defects
listed under "## Findings". Each defect also has a corrected definition,
used only to state the intended property. Other behaviours of the code
that the model keeps:
- An unrecognised URL yields an "Unknown Modpack" placeholder, not an
  error.
- A missing CurseForge key yields a placeholder record, not a
  missing-credential error.
- A record without a modloader gets the Forge egg, not a vanilla script.
- Registry failures are not retried.

## Model

| member | source | states |
|---|---|---|
| ModpackSource.SearchFrom | backend/app/services/modpack_service.py:88-96 | `re.search` finds the leftmost position where the pattern matches; no earlier position matches, and `None` means no position matches |
| ModpackSource.DetectSource | backend/app/services/modpack_service.py:81-98 | the loop over the pattern lists with early return computes exactly `Detect(url)` |
| ModpackSource.MatchAtShape | backend/app/services/modpack_service.py:56-63 | a match yields a non-empty `[a-zA-Z0-9-]` slug right after the prefix, and an id of the pattern's class right after the marker |
| ModpackSource.MatchAtSlug | backend/app/services/modpack_service.py:57 | the slug group is a non-empty `[a-zA-Z0-9-]` run directly after the prefix |
| ModpackSource.MatchAtId | backend/app/services/modpack_service.py:57 | the optional id group is a non-empty run of the id class directly after the marker |
| ModpackSource.SearchShape | backend/app/services/modpack_service.py:56-63 | a found pattern's groups are non-empty, drawn from the right character classes, and occur in the URL after the prefix |
| ModpackSource.SearchNoneIff | backend/app/services/modpack_service.py:88-96 | a pattern is not found if and only if it matches at no position |
| ModpackSource.FirstMatchFound | backend/app/services/modpack_service.py:88-96 | the pattern list finds something if and only if some pattern is found, and the result is that pattern's groups |
| ModpackSource.FirstMatchWitness | backend/app/services/modpack_service.py:88-96 | what the pattern list finds is what one of its patterns finds |
| ModpackSource.FirstMatchNone | backend/app/services/modpack_service.py:88-96 | when the pattern list finds nothing, none of its patterns finds anything |
| ModpackSource.DetectShape | backend/app/services/modpack_service.py:81-98 | UNKNOWN if and only if there is no slug; a CurseForge result has a digit id, a Modrinth one an alphanumeric id; the slug follows the prefix in the URL |
| ModpackSource.DetectPriority | backend/app/services/modpack_service.py:81-98 | CurseForge is tried first and wins whenever it matches; Modrinth is reported only when CurseForge does not match; otherwise (UNKNOWN, None, None) |
| ModpackSource.LongerPrefixMatch | backend/app/services/modpack_service.py:56-59 | where a pattern with a longer prefix matches, the shorter one matches further on with the same groups |
| ModpackSource.ModrinthListIsPattern | backend/app/services/modpack_service.py:61-63 | the one-entry Modrinth list finds what its pattern finds |
| ModpackSource.LegacyPatternUnreachable | backend/app/services/modpack_service.py:56-59 | the legacy CurseForge pattern never decides the result: the list finds exactly what the first pattern finds |
| ModpackSource.DetectUnknownIff | backend/app/services/modpack_service.py:81-98 | UNKNOWN if and only if none of the three patterns matches anywhere in the URL |
| Modpack.NewInfo | backend/app/services/modpack_service.py:29-48 | a fresh `ModpackInfo` is named "Unknown Modpack", has Java 17 and no mod count, version or loader |
| Modpack.FirstMinecraftVersion | backend/app/services/modpack_service.py:160-163 | the first list entry matching `^\d+\.\d+(\.\d+)?$`, or none when no entry matches |
| Modpack.DetectJavaVersion | backend/app/services/modpack_service.py:294-318 | the result is always one of 8, 11, 16, 17 and 21; a missing or empty version gives 17 |
| Modpack.JavaOfParts | backend/app/services/modpack_service.py:299-318 | an unparsable major or minor gives 17, and every result is in the table |
| Modpack.JavaOfDigitParts | backend/app/services/modpack_service.py:300-316 | digit pieces are read as their decimal values and looked up in the table |
| Modpack.JavaModernIff | backend/app/services/modpack_service.py:302-316 | the table gives at least Java 17 if and only if the major is not 1 or the minor is at least 18 |
| Modpack.JavaMonotone | backend/app/services/modpack_service.py:302-314 | for major 1 the Java version never decreases as the minor grows |
| Modpack.JavaOfVersionNumber | backend/app/services/modpack_service.py:294-318 | a recognised version string maps to the table entry of its first two numbers |
| Modpack.PatchIgnored | backend/app/services/modpack_service.py:300-316 | a patch number never changes the Java version |
| Modpack.SplitTwo | backend/app/services/modpack_service.py:300 | a "major.minor" version splits on "." into its two numbers |
| Modpack.SplitThree | backend/app/services/modpack_service.py:300 | a "major.minor.patch" version splits on "." into its three numbers |
| Modpack.NeoForgeContainsForge | backend/app/services/modpack_service.py:169-176 | a string containing "neoforge" contains "forge" |
| Modpack.ModrinthNeverNeoForge | backend/app/services/modpack_service.py:165-176 | the Modrinth classification never yields NEOFORGE; a NeoForge loader without "fabric" is classified FORGE |
| Modpack.CurseForgeLoader | backend/app/services/modpack_service.py:270-283 | the classification of the first game-version string naming a loader, none when no string does; never VANILLA |
| Modpack.ScanGameVersions | backend/app/services/modpack_service.py:270-283 | the loop with `break` sets the loader to `CurseForgeLoader` when there is one, else keeps the old value |
| Modpack.CurseForgeSeesNeoForge | backend/app/services/modpack_service.py:270-283 | on CurseForge a NeoForge game-version string gives NEOFORGE |
| Modpack.LoaderValueInjective | backend/app/services/modpack_service.py:20-26 | distinct modloaders have distinct string values |
| Modpack.LastLoaderVersion | backend/app/services/modpack_service.py:185-192 | the version id of the last dependency that is not Fabric API and has a truthy version id |
| Modpack.ScanDependencies | backend/app/services/modpack_service.py:185-192 | the dependency loop overwrites the loader version exactly as `LastLoaderVersion` says, and only when a loader is set |
| Modpack.FabricApiSkipped | backend/app/services/modpack_service.py:187-189 | a Fabric API dependency never changes the loader version |
| Modpack.FindVersion | backend/app/services/modpack_service.py:152-153 | the first version whose id or version number is the requested one |
| Modpack.SelectVersion | backend/app/services/modpack_service.py:151-155 | the first version whose id or version number is the requested id; the latest (first) version when no id is given or none matches |
| Modpack.PrimaryFile | backend/app/services/modpack_service.py:179-182 | the first primary file, or the first file when none is primary |
| ModpackFetch.GetOr | backend/app/services/modpack_service.py:138-140 | `dict.get(key, default)`: the value when present, else the default |
| ModpackFetch.FetchModrinthInfo | backend/app/services/modpack_service.py:125-202 | the field-by-field fetch computes exactly `FetchModrinth` of the replies |
| ModpackFetch.FindFile | backend/app/services/modpack_service.py:256 | the first latest file whose id as a string is the requested one |
| ModpackFetch.SelectFile | backend/app/services/modpack_service.py:254-258 | the first latest file whose id prints as the requested id; the first latest file when no id is given or none matches |
| ModpackFetch.FetchCurseForgeInfo | backend/app/services/modpack_service.py:204-292 | the field-by-field fetch computes exactly `FetchCurseForge` of the key and the reply |
| ModpackFetch.FetchModpackInfo | backend/app/services/modpack_service.py:100-123 | dispatch on `detect_source` computes exactly `FetchInfo` |
| ModpackFetch.WithModrinthVersionFacts | backend/app/services/modpack_service.py:149-192 | a chosen Modrinth version keeps the record consistent and never sets NEOFORGE |
| ModpackFetch.ModrinthFallbackFacts | backend/app/services/modpack_service.py:197-200 | after an exception the name is the title-cased slug and the description names Modrinth and the slug |
| ModpackFetch.ModrinthFetchFacts | backend/app/services/modpack_service.py:125-202 | the fetch keeps URL and slug and never reports NEOFORGE; Java comes from the Minecraft version, or is 17 after an exception |
| ModpackFetch.CurseForgeNoKey | backend/app/services/modpack_service.py:212-217 | without an API key no request is made: a title-cased name, the "API key not configured" description and Java 17 |
| ModpackFetch.WithCurseForgeModFacts | backend/app/services/modpack_service.py:236-283 | the first search hit keeps the record consistent and sets no loader version |
| ModpackFetch.WithCurseForgeFileFacts | backend/app/services/modpack_service.py:253-283 | the chosen file keeps the record consistent and sets no loader version |
| ModpackFetch.CurseForgeFetchFacts | backend/app/services/modpack_service.py:204-292 | the fetch keeps URL and slug and never sets a loader version; Java comes from the Minecraft version, or is 17 after an exception |
| ModpackFetch.FetchInfoFacts | backend/app/services/modpack_service.py:100-123 | the source is what `detect_source` found; an unknown URL gives the placeholder record, never an error |
| EggGenerator.FallbackKeys | backend/app/services/modpack_service.py:378-382 | the main label is "Java 17" or "Java 21" exactly when the version is 17 or 21 |
| EggGenerator.DockerImages | backend/app/services/modpack_service.py:371-384 | the version's own image comes first, the labels are distinct, and there are 2 entries for Java 17 or 21 and 3 otherwise |
| EggGenerator.DockerImagesLookup | backend/app/services/modpack_service.py:371-384 | the map sends the version's label, "Java 17" and "Java 21" to the matching yolks images |
| EggGenerator.StartupCommand | backend/app/services/modpack_service.py:386-396 | the command is the fixed head, then the JVM flags for the Java version, then the fixed tail |
| EggGenerator.StartupDependsOnlyOnThreshold | backend/app/services/modpack_service.py:386-396 | two startup commands are equal if and only if both Java versions are on the same side of 17; the loader never matters |
| EggGenerator.FlagSetsDiffer | backend/app/services/modpack_service.py:391-394 | the Aikar flag set for Java 17 and later differs from the flag set for older Java |
| EggGenerator.RecommendedMemory | backend/app/services/modpack_service.py:826-837 | the memory default is one of 1536, 2048, 3072, 4096 and 6144 |
| EggGenerator.MemoryValue | backend/app/services/modpack_service.py:826-837 | the memory string is decimal and gives the table's value for the mod count |
| EggGenerator.MemoryMonotone | backend/app/services/modpack_service.py:826-837 | more mods never mean less memory |
| EggGenerator.InstallScriptFor | backend/app/services/modpack_service.py:398-414 | the template follows the loader; the Minecraft version defaults to 1.20.1 and the loader version to "latest"; Vanilla gets no loader version |
| EggGenerator.EnvNamesAppend | backend/app/services/modpack_service.py:725-824 | the environment names of a concatenation are the concatenation of the names |
| EggGenerator.Variables | backend/app/services/modpack_service.py:725-824 | the variable names are the expected list; memory and Minecraft-version defaults come from the record; the loader variable defaults to the record's loader version, else "recommended" for Forge and "latest" for the others; MODPACK_URL carries the download URL |
| EggGenerator.VariablesShape | backend/app/services/modpack_service.py:725-824 | 3 to 5 distinct names, starting SERVER_JARFILE, SERVER_MEMORY, MINECRAFT_VERSION; a loader variable unless Vanilla; MODPACK_URL last exactly when the URL is truthy |
| EggGenerator.ExpectedEnvNamesShape | backend/app/services/modpack_service.py:725-824 | the same shape for the expected name list |
| EggGenerator.EffectiveJava | backend/app/services/modpack_service.py:336 | `java_version or modpack_info.java_version`: an override of 0 or none falls back to the detected version |
| EggGenerator.EffectiveLoader | backend/app/services/modpack_service.py:337 | `modloader or FORGE` |
| EggGenerator.GenerateEgg | backend/app/services/modpack_service.py:320-369 | the egg's `exported_at` is the clock input |
| EggGenerator.EggFacts | backend/app/services/modpack_service.py:320-369 | name, the fixed author address and `PTDL_v2` format, install container for the effective Java version, template of the effective loader, and the description or its generated fallback |
| EggGenerator.EggIgnoresClock | backend/app/services/modpack_service.py:320-369 | apart from `exported_at` the egg depends only on the record and the override |
| EggGenerator.MissingLoaderIsForge | backend/app/services/modpack_service.py:337 | a record without a loader gets the Forge egg, with a FORGE_VERSION variable defaulting to "recommended" |
| EggGenerator.EggLoaderVariable | backend/app/services/modpack_service.py:767-810 | in every egg but a Vanilla one the fourth variable is the loader's version variable, with the loader-specific default |
| EggGenerator.EggJavaAgrees | backend/app/services/modpack_service.py:320-369 | one Java version throughout: the docker image for it, its startup flags, and the install container `eclipse-temurin:<java>-jdk` |
| EggGenerator.EggImagesFollowJava | backend/app/services/modpack_service.py:371-384 | the egg offers the yolks image of its own Java version |
| EggGenerator.EggStartupFollowsJava | backend/app/services/modpack_service.py:386-396 | the startup command carries the flag set of the egg's Java version |
| EggGenerator.EggContainerFollowsJava | backend/app/services/modpack_service.py:362 | the install container is `eclipse-temurin:<java>-jdk` for the egg's Java version, and the version reads back from the name |
| EggGenerator.FetchedEggMemory | backend/app/services/modpack_service.py:826-837 | a fetched record has no mod count, so the memory default is 1536 |
| AIService.Template | backend/app/services/ai_service.py:57-75 | every task's template has an input slot |
| AIService.ContextLines | backend/app/services/ai_service.py:125-126 | one "k: v" line per context entry, in order |
| AIService.ContextStringEmptyIff | backend/app/services/ai_service.py:124-126 | the context text is empty if and only if there is no context |
| AIService.CorrectedInputLimit | backend/app/services/ai_service.py:265 | corrected: 1000 characters for FIX_PARSE_ERROR, as `fix_parse_error` prepares, and 500 otherwise |
| AIService.RenderContainsInput | backend/app/services/ai_service.py:128-131 | a rendered template with an input slot contains the input |
| AIService.PromptContainsInput | backend/app/services/ai_service.py:119-131 | the prompt contains the input cut to 500 characters, for every task |
| AIService.PromptIgnoresTail | backend/app/services/ai_service.py:128-131 | input past the 500th character never reaches the prompt |
| AIService.PromptsAgree | backend/app/services/ai_service.py:129 | the corrected prompt equals the prompt as written except for a fix snippet longer than 500 characters |
| AIService.NormalizeEndpoint | backend/app/services/ai_service.py:168-171 | the endpoint ends with "/chat/completions" and starts with the configured one minus trailing slashes |
| AIService.NormalizeIdempotent | backend/app/services/ai_service.py:168-171 | normalising twice is normalising once |
| AIService.Headers | backend/app/services/ai_service.py:147-153 | Content-Type first, the two OpenRouter headers last, 4 headers with a key and 3 without |
| AIService.AuthorizationIff | backend/app/services/ai_service.py:148-149 | an Authorization header is sent if and only if the key is non-empty, and it is "Bearer " + key |
| AIService.ReplyResponse | backend/app/services/ai_service.py:179-206 | success carries a non-empty trimmed result and no error; failure carries an error; a non-200 status always fails |
| AIService.ProcessSpec | backend/app/services/ai_service.py:133-206 | disabled: failure and no request; enabled: a request to the normalised endpoint with the model and the prompt as written (input cut to 500 characters); success implies a trimmed result |
| AIService.Keys | backend/app/services/ai_service.py:219-223 | the keys of a context, in order |
| AIService.DescriptionContext | backend/app/services/ai_service.py:215-223 | "existing" is present if and only if the description is truthy, and then holds exactly its first 200 characters; "modloader" is present if and only if it is truthy |
| AIService.TaskRequest | backend/app/services/ai_service.py:210-266 | the fix request carries exactly the first 1000 characters of the snippet; the Java request carries the Minecraft version as context |
| AIService.TextResult | backend/app/services/ai_service.py:210-228 | `response.result if response.success else None` |
| AIService.LoaderResult | backend/app/services/ai_service.py:230-237 | the result is present only for a successful reply and is one of forge, fabric, neoforge and quilt |
| AIService.LoaderResultIsModloader | backend/app/services/ai_service.py:233-236 | every accepted answer is the value of a non-vanilla modloader |
| AIService.LoaderResultIgnoresCase | backend/app/services/ai_service.py:233-236 | the answer's letter case never matters |
| AIService.LoaderResultAccepts | backend/app/services/ai_service.py:233-236 | each non-vanilla modloader's own name is accepted |
| AIService.JavaResult | backend/app/services/ai_service.py:250-255 | a number only from a successful reply with a result |
| AIService.JavaResultOfNumber | backend/app/services/ai_service.py:250-253 | a reply that is a decimal number gives that number |
| AIService.FixText | backend/app/services/ai_service.py:270-277 | the text handed to `json.loads` is trimmed; without a fence it is the stripped reply |
| AIService.SliceFree | backend/app/services/ai_service.py:273-274 | a slice of a string without the fence has no fence |
| AIService.StripIsSlice | backend/app/services/ai_service.py:277 | `strip` returns the slice between the leading and the trailing whitespace |
| AIService.StripFree | backend/app/services/ai_service.py:277 | stripping a string without the fence leaves no fence |
| AIService.FencedPieceFree | backend/app/services/ai_service.py:273-276 | with a fence there are at least two pieces, and the second piece, without "json", holds no fence |
| AIService.FixTextFenceFree | backend/app/services/ai_service.py:270-277 | the text handed to `json.loads` never contains a fence |
| AIService.FindFence | backend/app/services/ai_service.py:273-274 | the first fence is found right after a fence-free prefix |
| AIService.FixTextFenced | backend/app/services/ai_service.py:273-277 | a reply "a```json b```c" is reduced to `b` stripped |
| AIService.SecondFencePiece | backend/app/services/ai_service.py:273-274 | the second piece of splitting on the fence is the text between the first two fences |
| AIService.FixResult | backend/app/services/ai_service.py:268-280 | a document only from a successful reply, and then `json.loads` of the cleaned text; a decoded `null` is `None`; a successful truthy reply that decodes to anything else gives that document |
| AIService.TaskOutcome | backend/app/services/ai_service.py:210-280 | a failed reply never yields a value; the modloader task yields only a known loader name |
| AIService.Service.constructor | backend/app/services/ai_service.py:89-91 | the service starts with the given configuration and no client |
| AIService.Service.Configure | backend/app/services/ai_service.py:93-97 | the new configuration is stored and the client is dropped |
| AIService.Service.Close | backend/app/services/ai_service.py:113-117 | the client is dropped and the configuration kept |
| AIService.Service.Process | backend/app/services/ai_service.py:133-206 | the response and the request sent are exactly `ProcessSpec`; a client is created only when enabled |
| AIService.Service.RunTask | backend/app/services/ai_service.py:210-280 | a task helper's value is `TaskOutcome` of the processed request |
| AIService.DisabledYieldsNothing | backend/app/services/ai_service.py:139-140 | a disabled service sends nothing and every task yields None |
| AIService.FixPromptCarriesSnippet | backend/app/services/ai_service.py:265 | corrected: the fix prompt contains the first 1000 characters of the snippet |
| AIService.FixPromptAsWrittenDropsTail | backend/app/services/ai_service.py:129 | as written, two snippets that agree on their first 500 characters give the same prompt |
| AIApi.ConfigStore.constructor | backend/app/api/ai.py:87 | the table starts empty |
| AIApi.ConfigStore.Get | backend/app/api/ai.py:90-92 | `dict.get`: the entry if and only if the user has one |
| AIApi.ConfigStore.Set | backend/app/api/ai.py:95-97 | the user's entry becomes the new configuration; no other user's entry changes |
| AIApi.ConfigStore.Remove | backend/app/api/ai.py:176-177 | the user's entry is gone if it was there, else nothing changes; no other user's entry changes |
| AIApi.View | backend/app/api/ai.py:107-125 | `has_api_key` holds if and only if a non-empty key is stored; no configuration gives the fixed defaults |
| AIApi.MissingViewIsDefault | backend/app/api/ai.py:108-116 | the view of no configuration is the view of the default configuration |
| AIApi.ViewHidesKey | backend/app/api/ai.py:118-125 | the view never depends on the key itself, only on whether there is one |
| AIApi.GetAIConfig | backend/app/api/ai.py:100-125 | the caller's redacted configuration |
| AIApi.UpdateAIConfig | backend/app/api/ai.py:128-170 | stores the configuration for the caller and returns its redacted view |
| AIApi.DisableAI | backend/app/api/ai.py:173-178 | removes the caller's entry, with the message "AI configuration cleared" |
| AIApi.GateWithoutEndpoint | backend/app/api/ai.py:226-228 | passing the router's gate does not enable the service: without an endpoint or model nothing is sent and the AI task yields None |
| AIApi.TaskResultAsWritten | backend/app/api/ai.py:235-237 | as written: success if and only if there is a value; no error if and only if the value is truthy; the failure message when there is no value |
| AIApi.TaskResult | backend/app/api/ai.py:235-237 | corrected: success if and only if there is a value if and only if there is no error |
| AIApi.TaskResultAgrees | backend/app/api/ai.py:235-237 | both agree except on a present but falsy value |
| AIApi.TaskResponse | backend/app/api/ai.py:75-81 | a 500 exactly when there is a value that `result`, typed as `str`, `dict` or `None`, refuses (the suggested `int`, or a decoded JSON list, number or boolean); otherwise the result built as written |
| AIApi.EmptyObjectSuccessWithError | backend/app/api/ai.py:345-349 | as written, a `{}` reply to `/fix-parse-error` gives success together with an error |
| AIApi.NullFixAnswerFails | backend/app/api/ai.py:345-349 | a `null` reply to `/fix-parse-error` is reported as a failure with no result and the fix task's message |
| AIApi.DecodedNullIsNoResult | backend/app/services/ai_service.py:268-279 | any answer the fix task decodes to `null` gives no result |
| AIApi.SuggestJavaNeverSucceeds | backend/app/api/ai.py:319-321 | as written, `/suggest-java` never reports a success, and every version the service suggests ends in a 500 |
| AIApi.TaskResponseCorrected | backend/app/api/ai.py:75-81 | corrected: with the suggested `int` admitted by the result field, a 500 exactly for a decoded JSON list, number or boolean |
| AIApi.SuggestJavaCorrectedReturnsVersion | backend/app/api/ai.py:319-321 | corrected: a suggested version is reported as a success carrying that version |
| AIApi.TaskEndpoint | backend/app/api/ai.py:214-237 | 400 "AI not configured" unless the settings exist and are switched on; otherwise the service is configured with them, and the answer is the result built as written, or a 500 when the result field refuses the value |
| AIApi.TestOutcome | backend/app/api/ai.py:200-211 | success reports the result and tokens; failure is 502 "AI connection failed: " + error |
| AIApi.TestEndpoint | backend/app/api/ai.py:181-211 | 400 unless configured and enabled; otherwise one name-cleaning request and its outcome |
| AIApi.TestSuccessHasAnswer | backend/app/api/ai.py:200-206 | a successful `/test` always carries a non-empty trimmed answer |
| ApiCommon.PageStart | backend/app/api/eggs.py:96-98 | the offset, clamped to the number of rows |
| ApiCommon.Page | backend/app/api/eggs.py:96-98 | `.offset(skip).limit(limit)`: a contiguous run from the clamped offset, of `limit` rows or up to the end |
| ApiCommon.PagesTile | backend/app/api/panels.py:53 | a page followed by everything after it is everything from the page's start |
| EggsApi.ChangeIsStricter | backend/app/api/eggs.py:126-131 | whoever may change an egg may view it; public visibility grants viewing only |
| EggsApi.Authorize | backend/app/api/eggs.py:119-131 | 404 "Egg not found" for a missing egg before any permission check; then allowed or 403 |
| EggsApi.IndexOf | backend/app/api/eggs.py:115-118 | the position of the row with the id, or none when there is no such row |
| EggsApi.Select | backend/app/api/eggs.py:83-100 | a row is listed if and only if the caller may view it and it passes the visibility filter |
| EggsApi.SelectIsViewable | backend/app/api/eggs.py:85-92 | without a filter the list holds exactly the eggs the caller may view |
| EggsApi.ApplyUpdate | backend/app/api/eggs.py:166-168 | each field the request set takes the new value; every other field keeps its value |
| EggsApi.EmptyUpdate | backend/app/api/eggs.py:166-168 | an update that sets nothing changes nothing |
| EggsApi.CreateJava | backend/app/api/eggs.py:42 | the requested Java version if truthy, else the detected one |
| EggsApi.NewRowJavaAgrees | backend/app/api/eggs.py:42-58 | the stored Java version is the one the stored egg's container and first image use |
| EggsApi.EggStore.constructor | backend/app/api/eggs.py:22-66 | the table starts empty |
| EggsApi.EggStore.Create | backend/app/api/eggs.py:22-66 | appends the row built from the fetched record with the caller as owner and the next id, which then advances, keeping ids increasing |
| EggsApi.EggStore.List | backend/app/api/eggs.py:69-100 | only listed rows from the table, at most `limit` of them |
| EggsApi.EggStore.Get | backend/app/api/eggs.py:103-133 | an egg is returned only if it is the row with that id and the caller may view it |
| EggsApi.EggStore.Export | backend/app/api/eggs.py:212-240 | the stored document, under the same rule as `get_egg` |
| EggsApi.EggStore.Update | backend/app/api/eggs.py:136-176 | on success only that row changes, to the update plus `updated_at`; otherwise nothing changes |
| EggsApi.EggStore.Delete | backend/app/api/eggs.py:179-209 | on success only that row is removed; otherwise nothing changes |
| EggsApi.EggStore.Regenerate | backend/app/api/eggs.py:243-287 | on success only `json_data` and `updated_at` of that row change, using the stored URL and Java version |
| EggsApi.RegeneratedJava | backend/app/api/eggs.py:274-280 | the regenerated egg's container uses the stored Java version |
| PanelsApi.OwnerIsUnique | backend/app/api/panels.py:28-31 | a panel's owner column names one user only |
| PanelsApi.IndexOf | backend/app/api/panels.py:77-80 | the position of the row with the id, or none when there is no such row |
| PanelsApi.Authorize | backend/app/api/panels.py:82-93 | corrected: 404 "Panel not found" first, then allowed if and only if admin or owner, else 403 |
| PanelsApi.AuthorizeAsWritten | backend/app/api/panels.py:82-93 | as written: 404 "Panel not found" first, then only an admin passes, everyone else gets 403 with the action's verb |
| PanelsApi.AuthorizeAsWrittenStricter | backend/app/api/panels.py:89 | the check as written lets through only what the corrected check does, and agrees with it for an admin |
| PanelsApi.Select | backend/app/api/panels.py:51-61 | a row is listed if and only if the caller is admin or its owner column is the caller's id |
| PanelsApi.AdminSelectsAll | backend/app/api/panels.py:51-54 | an admin's list is the whole table |
| PanelsApi.ApplyUpdate | backend/app/api/panels.py:127-129 | each field the request set takes the new value; every other field keeps its value |
| PanelsApi.PanelStore.constructor | backend/app/api/panels.py:19-37 | the table starts empty |
| PanelsApi.PanelStore.Create | backend/app/api/panels.py:19-37 | appends an active panel holding the request's fields, owned by the decimal text of the caller's id, with the next id, which then advances |
| PanelsApi.PanelStore.List | backend/app/api/panels.py:40-63 | only listed rows from the table, at most `limit` of them |
| PanelsApi.PanelStore.Get | backend/app/api/panels.py:66-95 | as written: the row with that id, for an admin only; a non-admin always gets 403 or 404 |
| PanelsApi.PanelStore.Test | backend/app/api/panels.py:172-206 | the check as written, as in `get_panel`, then the placeholder answer |
| PanelsApi.PanelStore.Update | backend/app/api/panels.py:98-137 | succeeds exactly when the check as written passes (an admin, existing row); then only that row changes, to the update plus `updated_at`; otherwise nothing changes |
| PanelsApi.PanelStore.Delete | backend/app/api/panels.py:140-169 | succeeds exactly when the check as written passes (an admin, existing row); then only that row is removed; otherwise nothing changes |
| PanelsApi.RowFindsMember | backend/app/api/panels.py:77-80 | in a table with increasing ids, the lookup by a row's id finds that row |
| PanelsApi.CreatorLockedOutAsWritten | backend/app/api/panels.py:89-93 | as written, a non-admin owner finds their panel in the store's list but the store's `get_panel` refuses it with 403 |
| PanelsApi.CreatorMayAccess | backend/app/api/panels.py:28-31 | corrected: the owner of a stored panel passes every check on it |
| Config.ReplaceAllLeading | backend/app/core/config.py:60 | `replace` on a string that starts with the pattern puts the replacement first |
| Config.ReplaceAllSkips | backend/app/core/config.py:60 | a prefix where no occurrence begins is copied unchanged |
| Config.AsyncDatabaseUrlAsWritten | backend/app/core/config.py:56-64 | a URL that is neither SQLite nor `postgresql://` is returned unchanged |
| Config.AsyncSqliteUrlRewrittenAgain | backend/app/core/config.py:58-60 | as written, an already-async SQLite URL is rewritten again and names the driver twice |
| Config.AsyncDatabaseUrl | backend/app/core/config.py:56-64 | corrected: a leading `sqlite:///` becomes `sqlite+aiosqlite:///`, a leading `postgresql://` becomes `postgresql+asyncpg://`, everything else is unchanged; `is_sqlite` is preserved |
| Config.DefaultAsyncUrl | backend/app/core/config.py:29 | the default URL is SQLite and maps to `sqlite+aiosqlite:///hatchery.db` |
| Config.AsyncDatabaseUrlIdempotent | backend/app/core/config.py:56-64 | rewriting an already rewritten URL changes nothing |
| Config.AsyncDatabaseUrlAgrees | backend/app/core/config.py:56-64 | where no scheme occurs past the start, the corrected URL is the one the code as written produces |
| Config.RewriteLeadingOnly | backend/app/core/config.py:58-63 | `replace` on a URL whose only occurrence is at the start rewrites only that one |

## Left out

- HTTP, the database session, `async`, and the module-level service singletons are left out. Replies are inputs, and tables are sequences of rows.
- Timestamps come from `datetime.now` in the source. They are string parameters (`now`, `exportedAt`).
- `json.loads` is the parameter `loads` and is not modelled.
- JSON replies with explicit `null` or wrong types are not modelled. An absent and a present field are distinguished, and floats are not modelled.
- `AIConfig.temperature` is a float passed straight through. It is not modelled.
- Regex `\d`, `int()`, `str.lower()` and `str.title()` are modelled on ASCII. Python also accepts Unicode digits and letters.
- Pydantic validation of requests is not modelled:
  - field bounds such as `java_version` 8..25;
  - minimum lengths.
- Validation of `AITaskResult` is modelled only as which kinds of value `result: str | dict | None` admits. Floats never arise in the model.
- An explicit `null` for a non-nullable update field is not modelled.
- Rows are listed in insertion order, since the queries have no `ORDER BY`.
- SQLite assigns ids as the largest id so far plus one. The model only keeps ids increasing; it does not reuse the id of a deleted last row.
- Panel owner ids are stored as the decimal text of the caller's id. The model assumes SQLite's text affinity on that column.
- The bodies of the five install-script templates are opaque bash text. The model keeps the template choice and its interpolated parameters.
- `ModpackInfo.mods` is never filled by the fetches, and `meta.update_url` is always `null`. Neither is modelled.
- `_get_client` is modelled as the `hasClient` flag, and `close` as clearing it.
- The `{input_text}` fallback template of `_build_prompt` cannot be reached, because every task has a template.
- HTTP headers are an ordered sequence of pairs, not a dictionary.
- `users.py`, `admin.py`, `auth.py` and `security.py` are not part of this model. Authentication turns into the `Caller` value.
- AIApi.TaskEndpoint: the request bodies' own length limits are not modelled. Only the service's cuts are.

## Findings

| source | as written | input that shows it | evidently intended | confidence | as-written member | corrected member |
|---|---|---|---|---|---|---|
| backend/app/core/config.py:58-60 | every `sqlite:///` in a SQLite URL is replaced, including the one inside `sqlite+aiosqlite:///` | `DATABASE_URL=sqlite+aiosqlite:///hatchery.db` becomes `sqlite+aiosqlite+aiosqlite:///hatchery.db` | rewrite only a leading `sqlite:///`, so that rewriting is idempotent | high, not executed | Config.AsyncSqliteUrlRewrittenAgain | Config.AsyncDatabaseUrlIdempotent |
| backend/app/api/panels.py:89 | `panel.owner_id != current_user.id` compares the `str` column with an `int` id, which is never equal (same at lines 121, 162 and 196) | a member with id 5 creates a panel; `GET /panels` lists it, `GET /panels/{id}` answers 403 | admin or the owner whose id the column holds, matching the list query | medium, not executed | PanelsApi.CreatorLockedOutAsWritten | PanelsApi.CreatorMayAccess |
| backend/app/api/ai.py:345-349 | `success=result is not None` but `error=None if result else ...`, so a falsy value is a success with an error. The other task handlers share the code but cannot show it: their values are non-empty texts, and `/suggest-java`'s `int` fails validation first | `/fix-parse-error` where the model answers `{}` | the error is present exactly when there is no result | high, not executed | AIApi.EmptyObjectSuccessWithError | AIApi.TaskResult |
| backend/app/api/ai.py:319-321 | `suggest_java_version` returns an `int`, but `AITaskResult.result` (line 81) admits only a `str`, a `dict` or `None`, so building the result raises and the client gets a 500 | `/suggest-java` where the model answers `17` | the result carries the suggested version | medium, not executed | AIApi.SuggestJavaNeverSucceeds | AIApi.SuggestJavaCorrectedReturnsVersion |
| backend/app/services/ai_service.py:129 | `_build_prompt` cuts every input to 500 characters, so only 500 of the 1000 snippet characters `fix_parse_error` prepares (line 265) reach the model | two config snippets of 1000 characters that differ only after the 500th give the same prompt | the fix task sends up to 1000 characters, as its endpoint documents | medium, not executed | AIService.FixPromptAsWrittenDropsTail | AIService.FixPromptCarriesSnippet |
