/**
 * The optional AI helper: a client for any OpenAI-compatible chat endpoint
 * that sends one short prompt per task and filters the answer.
 *
 * The HTTP exchange is an input (`PostOutcome`): what the endpoint answered,
 * or how the call failed. `json.loads` on the fixed-up configuration text is
 * a parameter (`loads`) as well.
 */
module AIService {
  import opened Wrappers
  import opened PyStr
  import opened Modpack
  import opened JsonData

  // ------------------------------------------------------------------ types

  datatype AITask = CleanName | EnhanceDescription | DetectModloader | SuggestJavaVersion | FixParseError

  /** A user's AI settings. The sampling temperature is passed through untouched and not modelled. */
  datatype AIConfig = AIConfig(enabled: bool, apiEndpoint: string, apiKey: string, model: string, maxTokens: int)

  /** `AIConfig()` with every field at its default. */
  const DefaultConfig := AIConfig(false, "", "", "", 150)

  /** One request: the AI task, its input text and the context hints, in insertion order. */
  datatype AIRequest = AIRequest(task: AITask, inputText: string, context: seq<(string, string)>)

  datatype AIResponse = AIResponse(success: bool, result: Option<string>, error: Option<string>, tokensUsed: Option<int>)

  function Failure(error: string): AIResponse {
    AIResponse(false, None, Some(error), None)
  }

  // ------------------------------------------------------------ enablement

  /** `is_enabled`: a configuration exists, is switched on, and names both an endpoint and a model. */
  predicate Enabled(config: Option<AIConfig>) {
    config.Some? && config.value.enabled && config.value.apiEndpoint != "" && config.value.model != ""
  }

  // ---------------------------------------------------------------- prompts

  /** A prompt template: literal text and the two `format` slots. */
  datatype Piece = Lit(text: string) | InputSlot | ContextSlot

  const CleanNameText := "Clean this modpack name. Remove version numbers, underscores, dashes, and formatting artifacts. Return ONLY the cleaned name, nothing else.\n\nInput: "
  const DescriptionText := "Write a brief 1-2 sentence description for this Minecraft modpack. Be concise and informative. Return ONLY the description.\n\nModpack name: "
  const ModloaderText := "What modloader does this modpack use? Respond with ONLY one word: forge, fabric, neoforge, quilt, or unknown.\n\nModpack info: "
  const JavaHeadText := "What Java version is needed for Minecraft "
  const JavaTailText := "? Respond with ONLY the number (8, 11, 16, 17, or 21).\n\nAdditional info: "
  const FixSnippetText := "This modpack config has an error. Extract the key information and return as JSON with these fields only: name, minecraft_version, modloader (forge/fabric/neoforge/quilt), modloader_version. Return ONLY valid JSON.\n\nConfig snippet: "

  /** `TASK_PROMPTS[task]`; every task has an entry, so the bare `{input_text}` fallback is never taken. */
  function Template(task: AITask): (t: seq<Piece>)
    ensures InputSlot in t
  {
    match task
    case CleanName => [Lit(CleanNameText), InputSlot]
    case EnhanceDescription => [Lit(DescriptionText), InputSlot, Lit("\n"), ContextSlot]
    case DetectModloader => [Lit(ModloaderText), InputSlot]
    case SuggestJavaVersion => [Lit(JavaHeadText), ContextSlot, Lit(JavaTailText), InputSlot]
    case FixParseError => [Lit(FixSnippetText), InputSlot]
  }

  /** `template.format(input_text=..., context=...)`: the arguments are inserted verbatim. */
  function Render(t: seq<Piece>, input: string, context: string): string {
    if t == [] then ""
    else
      var head := match t[0] case Lit(x) => x case InputSlot => input case ContextSlot => context;
      head + Render(t[1..], input, context)
  }

  /** The context hints as `k: v` lines joined by newlines. */
  function ContextLines(context: seq<(string, string)>): (lines: seq<string>)
    ensures |lines| == |context|
    ensures forall i :: 0 <= i < |context| ==> lines[i] == context[i].0 + ": " + context[i].1
  {
    seq(|context|, i requires 0 <= i < |context| => context[i].0 + ": " + context[i].1)
  }

  function ContextString(context: seq<(string, string)>): string {
    if context == [] then "" else Join(ContextLines(context), "\n")
  }

  /** The rendered context is empty exactly when there are no hints (every line holds at least ": "). */
  lemma ContextStringEmptyIff(context: seq<(string, string)>)
    ensures ContextString(context) == "" <==> context == []
  {
    if context != [] {
      var lines := ContextLines(context);
      assert |lines[0]| >= 2;
      if |lines| > 1 {
        assert Join(lines, "\n") == lines[0] + "\n" + Join(lines[1..], "\n");
      }
    }
  }

  /** `_build_prompt` cuts the input text to this many characters, whatever the AI task. */
  const PromptLimit := 500

  /** `_build_prompt`: the AI task's template filled with the cut input text and the context lines. */
  function BuildPrompt(req: AIRequest): string {
    Render(Template(req.task), Take(req.inputText, PromptLimit), ContextString(req.context))
  }

  /**
   * The corrected cut: the 1000 characters `fix_parse_error` keeps for its
   * snippet, and 500 for the other tasks.
   */
  function CorrectedInputLimit(task: AITask): (n: nat)
    ensures n >= PromptLimit
    ensures task == FixParseError ==> n == 1000
  {
    if task == FixParseError then 1000 else PromptLimit
  }

  /** `_build_prompt` with the corrected cut. */
  function BuildPromptCorrected(req: AIRequest): string {
    Render(Template(req.task), Take(req.inputText, CorrectedInputLimit(req.task)), ContextString(req.context))
  }

  lemma ContainsInfix(a: string, x: string, b: string)
    ensures Contains(a + x + b, x)
  {
    assert (a + x + b)[|a|..|a| + |x|] == x;
    ContainsAt(a + x + b, x, |a|);
  }

  /** A rendered template holds its input verbatim whenever the template has an input slot. */
  lemma {:induction false} RenderContainsInput(t: seq<Piece>, input: string, context: string)
    requires InputSlot in t
    ensures Contains(Render(t, input, context), input)
  {
    var rest := Render(t[1..], input, context);
    if t[0] == InputSlot {
      ContainsInfix("", input, rest);
      assert "" + input + rest == Render(t, input, context);
    } else {
      RenderContainsInput(t[1..], input, context);
      var i := Find(rest, input).value;
      var head := Render(t, input, context)[..|Render(t, input, context)| - |rest|];
      assert Render(t, input, context) == head + rest;
      assert (head + rest)[|head| + i..|head| + i + |input|] == rest[i..i + |input|];
      ContainsAt(head + rest, input, |head| + i);
    }
  }

  /** Every prompt carries the input text cut to 500 characters. */
  lemma PromptContainsInput(req: AIRequest)
    ensures Contains(BuildPrompt(req), Take(req.inputText, PromptLimit))
  {
    assert InputSlot in Template(req.task);
    RenderContainsInput(Template(req.task), Take(req.inputText, PromptLimit), ContextString(req.context));
  }

  /** Text past the 500th character never reaches the prompt: replacing it changes nothing. */
  lemma PromptIgnoresTail(req: AIRequest, tail: string)
    requires |req.inputText| >= PromptLimit
    ensures BuildPrompt(req.(inputText := req.inputText[..PromptLimit] + tail)) == BuildPrompt(req)
  {
    var s := req.inputText[..PromptLimit] + tail;
    assert Take(s, PromptLimit) == s[..PromptLimit] == req.inputText[..PromptLimit] == Take(req.inputText, PromptLimit);
  }

  // -------------------------------------------------------------- endpoint

  const Completions := "/chat/completions"

  /** `api_endpoint.rstrip("/")`, then `/chat/completions` appended unless it is already there. */
  function NormalizeEndpoint(e: string): (r: string)
    ensures EndsWith(r, Completions)
    ensures StartsWith(r, RStripChar(e, '/'))
  {
    var t := RStripChar(e, '/');
    if EndsWith(t, Completions) then t
    else
      assert (t + Completions)[..|t|] == t;
      assert (t + Completions)[|t + Completions| - |Completions|..] == Completions;
      t + Completions
  }

  /** Normalising a normalised endpoint changes nothing. */
  lemma NormalizeIdempotent(e: string)
    ensures NormalizeEndpoint(NormalizeEndpoint(e)) == NormalizeEndpoint(e)
  {
    var r := NormalizeEndpoint(e);
    assert r[|r| - 1] == Completions[|Completions| - 1] == 's';
    assert RStripChar(r, '/') == r;
  }

  // ---------------------------------------------------------- chat request

  datatype Message = Message(role: string, content: string)

  /** What `process` posts: the URL, the headers in insertion order and the JSON payload. */
  datatype ChatRequest = ChatRequest(endpoint: string, headers: seq<(string, string)>,
                                     model: string, messages: seq<Message>, maxTokens: int)

  const SystemPrompt := "You are a helpful assistant for Minecraft server configuration. Give minimal, direct responses."

  function Headers(apiKey: string): (h: seq<(string, string)>)
    ensures |h| == if apiKey != "" then 4 else 3
    ensures h[0] == ("Content-Type", "application/json")
    ensures h[|h| - 2] == ("HTTP-Referer", "https://github.com/hatchery") && h[|h| - 1] == ("X-Title", "Hatchery")
  {
    [("Content-Type", "application/json")]
    + (if apiKey != "" then [("Authorization", "Bearer " + apiKey)] else [])
    + [("HTTP-Referer", "https://github.com/hatchery"), ("X-Title", "Hatchery")]
  }

  /** An `Authorization` header is sent exactly when an API key is configured, and then it carries that key. */
  lemma AuthorizationIff(apiKey: string)
    ensures (exists i :: 0 <= i < |Headers(apiKey)| && Headers(apiKey)[i].0 == "Authorization") <==> apiKey != ""
    ensures apiKey != "" ==> Headers(apiKey)[1] == ("Authorization", "Bearer " + apiKey)
  {
    var h := Headers(apiKey);
    if apiKey == "" {
      forall i | 0 <= i < |h| ensures h[i].0 != "Authorization" {
        assert h[i].0 in ["Content-Type", "HTTP-Referer", "X-Title"];
      }
    } else {
      assert h[1].0 == "Authorization";
    }
  }

  function MakeChatRequest(c: AIConfig, prompt: string): ChatRequest {
    ChatRequest(NormalizeEndpoint(c.apiEndpoint), Headers(c.apiKey), c.model,
                [Message("system", SystemPrompt), Message("user", prompt)], c.maxTokens)
  }

  // ----------------------------------------------------------- the exchange

  /** The decoded 200 body: each choice's `message.content` (absent reads as ""), and `usage.total_tokens`. */
  datatype ChatBody = Malformed(message: string) | ChatBody(choices: seq<Option<string>>, totalTokens: Option<int>)

  /** What the network did with the request. `Failed` is any other exception, with its text. */
  datatype PostOutcome = TimedOut | Failed(message: string) | Replied(status: int, text: string, body: ChatBody)

  /** The response `process` builds once the request was posted. */
  function ReplyResponse(net: PostOutcome): (r: AIResponse)
    ensures r.success ==> r.result.Some? && r.result.value != "" && Trimmed(r.result.value) && r.error.None?
    ensures !r.success ==> r.result.None? && r.error.Some?
    ensures net.Replied? && net.status != 200 ==> !r.success
    ensures r.success ==> net.Replied? && net.body.ChatBody? && r.tokensUsed == net.body.totalTokens
  {
    match net
    case TimedOut => Failure("AI request timed out")
    case Failed(e) => Failure("AI error: " + e)
    case Replied(status, text, body) =>
      if status != 200 then Failure("API error: " + IntToString(status) + " - " + Take(text, 200))
      else match body
        case Malformed(e) => Failure("AI error: " + e)
        case ChatBody(choices, tokens) =>
          var result := if choices != [] then Strip(Or(choices[0], "")) else "";
          if result == "" then Failure("Empty response from AI")
          else AIResponse(true, Some(result), None, tokens)
  }

  /** The answer and, when one was posted, the request. */
  datatype Exchange = Exchange(response: AIResponse, sent: Option<ChatRequest>)

  function ProcessSpec(config: Option<AIConfig>, req: AIRequest, net: PostOutcome): (x: Exchange)
    ensures !Enabled(config) ==> x == Exchange(Failure("AI service not configured or disabled"), None)
    ensures Enabled(config) ==> x.sent.Some? && EndsWith(x.sent.value.endpoint, Completions)
    ensures Enabled(config) ==> x.sent.value.model == config.value.model
    ensures Enabled(config) ==> |x.sent.value.messages| == 2 && x.sent.value.messages[1] == Message("user", BuildPrompt(req))
    ensures x.response.success ==> x.sent.Some? && x.response.result.Some? && Trimmed(x.response.result.value)
  {
    if !Enabled(config) then Exchange(Failure("AI service not configured or disabled"), None)
    else Exchange(ReplyResponse(net), Some(MakeChatRequest(config.value, BuildPrompt(req))))
  }

  // --------------------------------------------------------- task helpers

  /** The five task calls of the service with their arguments. */
  datatype TaskCall =
    | CleanNameCall(rawName: string)
    | EnhanceCall(name: string, existing: Option<string>, modloader: Option<string>)
    | DetectCall(hints: string)
    | JavaCall(minecraftVersion: string, additionalInfo: string)
    | FixCall(snippet: string)

  /** The keys of a list of context hints, in order. */
  function Keys(ctx: seq<(string, string)>): (keys: seq<string>)
    ensures |keys| == |ctx| && forall i :: 0 <= i < |ctx| ==> keys[i] == ctx[i].0
  {
    seq(|ctx|, i requires 0 <= i < |ctx| => ctx[i].0)
  }

  /** The hints `enhance_description` sends: the first 200 characters of a non-empty description, then a non-empty modloader. */
  function DescriptionContext(existing: Option<string>, modloader: Option<string>): (ctx: seq<(string, string)>)
    ensures "existing" in Keys(ctx) <==> Truthy(existing)
    ensures "modloader" in Keys(ctx) <==> Truthy(modloader)
    ensures forall i :: 0 <= i < |ctx| && ctx[i].0 == "existing" ==> ctx[i].1 == Take(existing.value, 200)
    ensures forall i :: 0 <= i < |ctx| && ctx[i].0 == "existing" ==> |ctx[i].1| <= 200 && StartsWith(existing.value, ctx[i].1)
    ensures forall i :: 0 <= i < |ctx| && ctx[i].0 == "modloader" ==> ctx[i].1 == modloader.value
  {
    var e := if Truthy(existing) then [("existing", Take(existing.value, 200))] else [];
    var m := if Truthy(modloader) then [("modloader", modloader.value)] else [];
    assert "existing" != "modloader" by { assert "existing"[0] != "modloader"[0]; }
    assert Keys(e + m) == (if Truthy(existing) then ["existing"] else []) + (if Truthy(modloader) then ["modloader"] else []);
    e + m
  }

  function TaskRequest(t: TaskCall): (req: AIRequest)
    ensures t.FixCall? ==> req.inputText == Take(t.snippet, 1000)
    ensures t.FixCall? ==> |req.inputText| <= 1000 && StartsWith(t.snippet, req.inputText)
    ensures t.JavaCall? ==> req.inputText != "" && req.context == [("minecraft_version", t.minecraftVersion)]
  {
    match t
    case CleanNameCall(raw) => AIRequest(CleanName, raw, [])
    case EnhanceCall(name, existing, modloader) => AIRequest(EnhanceDescription, name, DescriptionContext(existing, modloader))
    case DetectCall(hints) => AIRequest(DetectModloader, hints, [])
    case JavaCall(mv, info) => AIRequest(SuggestJavaVersion, if info != "" then info else "No additional info", [("minecraft_version", mv)])
    case FixCall(snippet) => AIRequest(FixParseError, Take(snippet, 1000), [])
  }

  /** The result of `clean_name` and `enhance_description`: the answer when the call succeeded. */
  function TextResult(resp: AIResponse): (r: Option<string>)
    ensures r.Some? <==> resp.success && resp.result.Some?
    ensures r.Some? ==> r == resp.result
  {
    if resp.success then resp.result else None
  }

  const KnownLoaders := ["forge", "fabric", "neoforge", "quilt"]

  /** `detect_modloader`'s filter: the lower-cased, trimmed answer if it names one of four loaders. */
  function LoaderResult(resp: AIResponse): (r: Option<string>)
    ensures r.Some? ==> r.value in KnownLoaders && resp.success
  {
    if resp.success && Truthy(resp.result) then
      var t := Strip(Lower(resp.result.value));
      if t in KnownLoaders then Some(t) else None
    else None
  }

  /** Every accepted answer is the value of a modloader the egg generator knows, and never "vanilla". */
  lemma LoaderResultIsModloader(resp: AIResponse)
    requires LoaderResult(resp).Some?
    ensures exists t :: t != Vanilla && LoaderValue(t) == LoaderResult(resp).value
  {
    var v := LoaderResult(resp).value;
    if v == "forge" { assert LoaderValue(Forge) == v; }
    else if v == "fabric" { assert LoaderValue(Fabric) == v; }
    else if v == "neoforge" { assert LoaderValue(NeoForge) == v; }
    else { assert LoaderValue(Quilt) == v; }
  }

  lemma LowerIdempotent(s: string)
    ensures Lower(Lower(s)) == Lower(s)
  {
  }

  /** Upper- and lower-case answers are treated alike. */
  lemma LoaderResultIgnoresCase(resp: AIResponse)
    requires resp.result.Some?
    ensures LoaderResult(resp) == LoaderResult(resp.(result := Some(Lower(resp.result.value))))
  {
    LowerIdempotent(resp.result.value);
  }

  /** Each loader name, answered as is, comes back unchanged. */
  lemma LoaderResultAccepts(resp: AIResponse, t: ModpackType)
    requires resp.success && resp.result == Some(LoaderValue(t)) && t != Vanilla
    ensures LoaderResult(resp) == Some(LoaderValue(t))
  {
    var v := LoaderValue(t);
    assert Lower(v) == v;
    StripTrimmed(v);
  }

  /** `suggest_java_version`'s filter: `int(result.strip())` of a successful answer. */
  function JavaResult(resp: AIResponse): (r: Option<int>)
    ensures r.Some? ==> resp.success && resp.result.Some?
  {
    if resp.success && Truthy(resp.result) then ParseInt(Strip(resp.result.value)) else None
  }

  /** An answer that is the decimal text of a number yields that number. */
  lemma JavaResultOfNumber(resp: AIResponse, n: int)
    requires resp.success && resp.result == Some(IntToString(n))
    ensures JavaResult(resp) == Some(n)
  {
    var s := IntToString(n);
    ParseIntOfIntToString(n);
    StripIdempotent(s);
  }

  const Fence := "```"

  predicate NoBacktick(s: string) {
    forall i :: 0 <= i < |s| ==> s[i] != '`'
  }

  /** The text `fix_parse_error` hands to `json.loads`: the body of the first fenced block, without a leading "json", trimmed. */
  function FixText(s: string): (r: string)
    ensures Trimmed(r)
    ensures !Contains(s, Fence) ==> r == Strip(s)
  {
    if Contains(s, Fence) then
      SplitHead(s, Fence);
      var p := Split(s, Fence)[1];
      Strip(if StartsWith(p, "json") then p[4..] else p)
    else Strip(s)
  }

  /** A slice of a string holds no occurrence that the string does not. */
  lemma SliceFree(s: string, p: string, i: nat, j: nat)
    requires i <= j <= |s| && !Contains(s, p)
    ensures !Contains(s[i..j], p)
  {
    forall k | 0 <= k && k + |p| <= j - i ensures !OccursAt(s[i..j], p, k) {
      assert !OccursAt(s, p, i + k);
      var u, w := s[i..j][k..k + |p|], s[i + k..i + k + |p|];
      forall m | 0 <= m < |p| ensures u[m] == w[m] {
        assert u[m] == s[i + k + m];
      }
      assert u == w;
    }
    ContainsIff(s[i..j], p);
  }

  /** `strip` returns the slice of `s` between the whitespace it drops. */
  lemma StripIsSlice(s: string)
    ensures |Strip(s)| <= |RStrip(s)| <= |s|
    ensures Strip(s) == s[|RStrip(s)| - |Strip(s)|..|RStrip(s)|]
  {
    var r := RStrip(s);
    var l := LStrip(r);
    assert l == Strip(s);
    assert s[..|r|][|r| - |l|..] == s[|r| - |l|..|r|];
  }

  /** Stripping keeps a string free of a pattern it was free of. */
  lemma StripFree(s: string, p: string)
    requires !Contains(s, p)
    ensures !Contains(Strip(s), p)
  {
    StripIsSlice(s);
    SliceFree(s, p, |RStrip(s)| - |Strip(s)|, |RStrip(s)|);
  }

  /** The piece between the first two fences, without a leading "json", holds no fence. */
  lemma FencedPieceFree(s: string)
    requires Contains(s, Fence)
    ensures |Split(s, Fence)| >= 2
    ensures var p := Split(s, Fence)[1];
      !Contains(if StartsWith(p, "json") then p[4..] else p, Fence)
  {
    SplitHead(s, Fence);
    var p := Split(s, Fence)[1];
    SplitPiecesFree(s, Fence, 1);
    if StartsWith(p, "json") {
      SliceFree(p, Fence, 4, |p|);
      assert p[4..|p|] == p[4..];
    } else {
      SliceFree(p, Fence, 0, |p|);
      assert p[0..|p|] == p;
    }
  }

  /** The text handed to `json.loads` never contains a fence. */
  lemma FixTextFenceFree(s: string)
    ensures !Contains(FixText(s), Fence)
  {
    if Contains(s, Fence) {
      FencedPieceFree(s);
      var p := Split(s, Fence)[1];
      StripFree(if StartsWith(p, "json") then p[4..] else p, Fence);
    } else {
      StripFree(s, Fence);
    }
  }

  /** The first fence after backtick-free text starts right after it. */
  lemma FindFence(a: string, t: string)
    requires NoBacktick(a)
    ensures Find(a + Fence + t, Fence) == Some(|a|)
  {
    var s := a + Fence + t;
    assert s[|a|..|a| + 3] == Fence;
    assert OccursAt(s, Fence, |a|);
    var f := FindFrom(s, Fence, 0);
    assert f.Some?;
    var r := f.value;
    assert OccursAt(s, Fence, r);
    assert s[r..r + 3][0] == s[r] == '`';
  }

  /** A reply ```` a```json b``` c ```` yields the trimmed body `b` when `a` and `b` hold no backtick. */
  lemma FixTextFenced(a: string, b: string, c: string)
    requires NoBacktick(a) && NoBacktick(b)
    ensures FixText(a + Fence + "json" + b + Fence + c) == Strip(b)
  {
    var s := a + Fence + "json" + b + Fence + c;
    SecondFencePiece(a, "json" + b, c);
    assert a + Fence + ("json" + b) + Fence + c == s;
    assert ("json" + b)[4..] == b;
  }

  /** Between the first two fences of `a```m```c` lies `m`, when `a` and `m` hold no backtick. */
  lemma SecondFencePiece(a: string, m: string, c: string)
    requires NoBacktick(a) && NoBacktick(m)
    ensures var s := a + Fence + m + Fence + c;
      Contains(s, Fence) && |Split(s, Fence)| >= 2 && Split(s, Fence)[1] == m
  {
    var s := a + Fence + m + Fence + c;
    var rest := m + Fence + c;
    assert s == a + Fence + rest;
    FindFence(a, rest);
    FindFence(m, c);
    assert s[|a| + 3..] == rest;
    ContainsAt(s, Fence, |a|);
    SplitHead(s, Fence);
    assert rest[..|m|] == m;
  }

  /**
   * `fix_parse_error`'s result: the decoded fenced text of a successful
   * answer; `None` when decoding fails, and also when the text decodes to
   * `null`, which `json.loads` returns as `None`.
   */
  function FixResult(resp: AIResponse, loads: string -> Option<Json>): (r: Option<Json>)
    ensures r.Some? ==> resp.success && resp.result.Some? && r == loads(FixText(resp.result.value)) && r.value != JNull
    ensures (resp.success && Truthy(resp.result) && loads(FixText(resp.result.value)).Some? &&
             loads(FixText(resp.result.value)).value != JNull) ==> r == loads(FixText(resp.result.value))
  {
    if resp.success && Truthy(resp.result) then
      match loads(FixText(resp.result.value))
      case Some(JNull) => None
      case decoded => decoded
    else None
  }

  /** What a task endpoint gets back: text, a number or a decoded document. */
  datatype TaskValue = Text(text: string) | Number(n: int) | Document(doc: Json)

  function TaskOutcome(t: TaskCall, resp: AIResponse, loads: string -> Option<Json>): (r: Option<TaskValue>)
    ensures !resp.success ==> r.None?
    ensures t.DetectCall? && r.Some? ==> r.value.Text? && r.value.text in KnownLoaders
  {
    match t
    case CleanNameCall(_) => (match TextResult(resp) case Some(s) => Some(Text(s)) case None => None)
    case EnhanceCall(_, _, _) => (match TextResult(resp) case Some(s) => Some(Text(s)) case None => None)
    case DetectCall(_) => (match LoaderResult(resp) case Some(s) => Some(Text(s)) case None => None)
    case JavaCall(_, _) => (match JavaResult(resp) case Some(n) => Some(Number(n)) case None => None)
    case FixCall(_) => (match FixResult(resp, loads) case Some(j) => Some(Document(j)) case None => None)
  }

  // -------------------------------------------------------------- service

  /** The service object: its configuration and whether it holds an open HTTP client. */
  class Service {
    var config: Option<AIConfig>
    var hasClient: bool

    constructor(config: Option<AIConfig>)
      ensures this.config == config && !hasClient
    {
      this.config := config;
      hasClient := false;
    }

    predicate IsEnabled()
      reads this
    {
      Enabled(config)
    }

    /** `configure`: install a configuration and drop the client. */
    method Configure(c: AIConfig)
      modifies this
      ensures config == Some(c) && !hasClient
    {
      config := Some(c);
      hasClient := false;
    }

    /** `close`: drop the client, keep the configuration. */
    method Close()
      modifies this
      ensures config == old(config) && !hasClient
    {
      hasClient := false;
    }

    /** `process`: build and post the request when enabled, then read the answer. */
    method Process(req: AIRequest, net: PostOutcome) returns (resp: AIResponse, sent: Option<ChatRequest>)
      modifies this
      ensures config == old(config)
      ensures hasClient == (old(hasClient) || Enabled(config))
      ensures Exchange(resp, sent) == ProcessSpec(config, req, net)
    {
      if !IsEnabled() {
        resp := Failure("AI service not configured or disabled");
        sent := None;
        return;
      }
      hasClient := true;
      var c := config.value;
      var prompt := BuildPrompt(req);
      var headers := [("Content-Type", "application/json")];
      if c.apiKey != "" {
        headers := headers + [("Authorization", "Bearer " + c.apiKey)];
      }
      headers := headers + [("HTTP-Referer", "https://github.com/hatchery"), ("X-Title", "Hatchery")];
      var endpoint := RStripChar(c.apiEndpoint, '/');
      if !EndsWith(endpoint, Completions) {
        endpoint := endpoint + Completions;
      }
      assert headers == Headers(c.apiKey);
      assert endpoint == NormalizeEndpoint(c.apiEndpoint);
      sent := Some(ChatRequest(endpoint, headers, c.model,
                               [Message("system", SystemPrompt), Message("user", prompt)], c.maxTokens));
      resp := ReplyResponse(net);
    }

    /** One of the AI task helpers: `process` on the AI task's request, then the AI task's filter. */
    method RunTask(t: TaskCall, net: PostOutcome, loads: string -> Option<Json>) returns (r: Option<TaskValue>)
      modifies this
      ensures config == old(config)
      ensures hasClient == (old(hasClient) || Enabled(config))
      ensures r == TaskOutcome(t, ProcessSpec(config, TaskRequest(t), net).response, loads)
    {
      var resp, _ := Process(TaskRequest(t), net);
      r := TaskOutcome(t, resp, loads);
    }
  }

  /** A disabled service never posts, so no task yields a value. */
  lemma DisabledYieldsNothing(config: Option<AIConfig>, t: TaskCall, net: PostOutcome, loads: string -> Option<Json>)
    requires !Enabled(config)
    ensures TaskOutcome(t, ProcessSpec(config, TaskRequest(t), net).response, loads).None?
    ensures ProcessSpec(config, TaskRequest(t), net).sent.None?
  {
  }

  /** With the corrected cut, the snippet `fix_parse_error` prepares reaches the prompt whole, up to 1000 characters. */
  lemma FixPromptCarriesSnippet(snippet: string)
    ensures Contains(BuildPromptCorrected(TaskRequest(FixCall(snippet))), Take(snippet, 1000))
  {
    var req := TaskRequest(FixCall(snippet));
    assert InputSlot in Template(req.task);
    assert Take(req.inputText, CorrectedInputLimit(req.task)) == Take(snippet, 1000);
    RenderContainsInput(Template(req.task), Take(snippet, 1000), ContextString(req.context));
  }

  /** The corrected prompt differs only for a fix snippet longer than 500 characters. */
  lemma PromptsAgree(req: AIRequest)
    requires req.task != FixParseError || |req.inputText| <= PromptLimit
    ensures BuildPromptCorrected(req) == BuildPrompt(req)
  {
    assert Take(req.inputText, CorrectedInputLimit(req.task)) == Take(req.inputText, PromptLimit);
  }

  /**
   * As written, the prompt cuts every input to 500 characters, so the
   * characters 500 to 999 that `fix_parse_error` keeps never reach the
   * endpoint: two snippets that differ only there give the same prompt.
   */
  lemma FixPromptAsWrittenDropsTail(snippet: string, other: string)
    requires |snippet| > 500 && |other| > 500 && snippet[..500] == other[..500]
    ensures BuildPrompt(TaskRequest(FixCall(snippet))) == BuildPrompt(TaskRequest(FixCall(other)))
  {
    assert Take(Take(snippet, 1000), 500) == snippet[..500];
    assert Take(Take(other, 1000), 500) == other[..500];
  }
}
