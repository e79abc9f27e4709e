/**
 * The `/ai` endpoints: a per-user table of AI settings kept in memory, the
 * redacted view of a user's settings, and the AI task endpoints that are gated
 * on the user's settings being switched on.
 */
module AIApi {
  import opened Wrappers
  import opened ApiCommon
  import opened PyStr
  import opened JsonData
  import opened AIService

  // ------------------------------------------------------------ the store

  /** `_user_ai_configs`: the settings of each user, by user id. */
  class ConfigStore {
    var configs: map<int, AIConfig>

    constructor()
      ensures configs == map[]
    {
      configs := map[];
    }

    /** `get_user_ai_config` */
    function Get(user: int): (c: Option<AIConfig>)
      reads this
      ensures c.Some? <==> user in configs
      ensures c.Some? ==> c.value == configs[user]
    {
      if user in configs then Some(configs[user]) else None
    }

    /** `set_user_ai_config`: the user's entry becomes `c`; nobody else's changes. */
    method Set(user: int, c: AIConfig)
      modifies this
      ensures configs == old(configs)[user := c]
      ensures Get(user) == Some(c)
      ensures forall u :: u != user ==> Get(u) == old(Get(u))
    {
      configs := configs[user := c];
    }

    /** The `del` in `disable_ai`: the user's entry goes if it is there; nobody else's changes. */
    method Remove(user: int)
      modifies this
      ensures configs == old(configs) - {user}
      ensures Get(user) == None
      ensures forall u :: u != user ==> Get(u) == old(Get(u))
    {
      if user in configs {
        configs := configs - {user};
      }
    }
  }

  // ------------------------------------------------------- redacted view

  /** `AIConfigResponse`: the settings without the key, which is reported only as present or not. */
  datatype AIConfigView = AIConfigView(enabled: bool, apiEndpoint: string, hasApiKey: bool, model: string, maxTokens: int)

  function View(config: Option<AIConfig>): (v: AIConfigView)
    ensures v.hasApiKey <==> config.Some? && config.value.apiKey != ""
    ensures config.None? ==> v == AIConfigView(false, "", false, "", 150)
  {
    match config
    case None => AIConfigView(false, "", false, "", 150)
    case Some(c) => AIConfigView(c.enabled, c.apiEndpoint, c.apiKey != "", c.model, c.maxTokens)
  }

  /** The view of a missing configuration is the view of one left at every default. */
  lemma MissingViewIsDefault()
    ensures View(None) == View(Some(DefaultConfig))
  {
  }

  /** The view never depends on which key is stored, only on whether one is. */
  lemma ViewHidesKey(c: AIConfig, key: string)
    requires (c.apiKey == "") == (key == "")
    ensures View(Some(c)) == View(Some(c.(apiKey := key)))
  {
  }

  /** `get_ai_config` */
  method GetAIConfig(store: ConfigStore, user: int) returns (v: AIConfigView)
    ensures v == View(store.Get(user))
  {
    v := View(store.Get(user));
  }

  /** `update_ai_config`: store the new settings, answer with their redacted view. */
  method UpdateAIConfig(store: ConfigStore, user: int, c: AIConfig) returns (v: AIConfigView)
    modifies store
    ensures store.configs == old(store.configs)[user := c]
    ensures v == View(store.Get(user))
  {
    store.Set(user, c);
    v := View(Some(c));
  }

  /** `disable_ai` */
  method DisableAI(store: ConfigStore, user: int) returns (message: string)
    modifies store
    ensures store.configs == old(store.configs) - {user}
    ensures message == "AI configuration cleared"
  {
    store.Remove(user);
    message := "AI configuration cleared";
  }

  // ------------------------------------------------------------- the gate

  /** `not config or not config.enabled` fails: the endpoints check less than `is_enabled` does. */
  predicate Gate(config: Option<AIConfig>) {
    config.Some? && config.value.enabled
  }

  /** Passing the gate does not make the service enabled: an empty endpoint or model still sends nothing. */
  lemma GateWithoutEndpoint(config: Option<AIConfig>, t: TaskCall, net: PostOutcome, loads: string -> Option<Json>)
    requires Gate(config) && (config.value.apiEndpoint == "" || config.value.model == "")
    ensures !Enabled(config)
    ensures ProcessSpec(config, TaskRequest(t), net).sent.None?
    ensures TaskOutcome(t, ProcessSpec(config, TaskRequest(t), net).response, loads).None?
  {
  }

  // -------------------------------------------------------- task results

  datatype AITaskResult = AITaskResult(success: bool, result: Option<TaskValue>, error: Option<string>, tokensUsed: Option<int>)

  /** Python truthiness of a task's value. */
  predicate ValueTruthy(v: TaskValue) {
    match v
    case Text(s) => s != ""
    case Number(n) => n != 0
    case Document(j) => JsonTruthy(j)
  }

  /** The message each endpoint reports when the AI task yields nothing. */
  function FailureMessage(t: TaskCall): string {
    match t
    case DetectCall(_) => "AI processing failed or unknown modloader"
    case FixCall(_) => "AI could not extract valid information"
    case _ => "AI processing failed"
  }

  /**
   * `AITaskResult(success=result is not None, result=result, error=None if result else msg)`
   * as written: a value that is present but falsy is a success that also reports an error.
   */
  function TaskResultAsWritten(r: Option<TaskValue>, message: string): (res: AITaskResult)
    ensures res.success <==> r.Some?
    ensures !res.success ==> res.error == Some(message)
    ensures res.error.None? <==> r.Some? && ValueTruthy(r.value)
    ensures res.result == r && res.tokensUsed.None?
  {
    AITaskResult(r.Some?, r, if r.Some? && ValueTruthy(r.value) then None else Some(message), None)
  }

  /** The corrected task result: the error is reported exactly when there is no value. */
  function TaskResult(r: Option<TaskValue>, message: string): (res: AITaskResult)
    ensures res.success <==> r.Some?
    ensures res.success <==> res.error.None?
    ensures !res.success ==> res.error == Some(message)
    ensures res.result == r && res.tokensUsed.None?
  {
    AITaskResult(r.Some?, r, if r.Some? then None else Some(message), None)
  }

  /** The two agree except on a present, falsy value. */
  lemma TaskResultAgrees(r: Option<TaskValue>, message: string)
    requires r.None? || ValueTruthy(r.value)
    ensures TaskResultAsWritten(r, message) == TaskResult(r, message)
  {
  }

  /**
   * Whether pydantic accepts a value for `AITaskResult.result`, declared
   * `str | dict | None`: text and objects pass; a number, a list or a
   * boolean does not, and no value is coerced.
   */
  predicate FitsResultField(v: TaskValue) {
    match v
    case Text(_) => true
    case Number(_) => false
    case Document(j) => j.JString? || j.JObject?
  }

  /** An exception escaping a handler reaches the client as FastAPI's 500. */
  const ServerError: Http<AITaskResult> := Rejected(500, "Internal Server Error")

  /**
   * What a task handler answers once the service has run: the
   * `AITaskResult(...)` it builds as written, or a 500 when building it
   * fails validation.
   */
  function TaskResponse(r: Option<TaskValue>, message: string): (res: Http<AITaskResult>)
    ensures res.Rejected? <==> r.Some? && !FitsResultField(r.value)
    ensures res.Rejected? ==> res == ServerError
    ensures res.Ok? ==> res.body == TaskResultAsWritten(r, message)
  {
    if r.Some? && !FitsResultField(r.value) then ServerError
    else Ok(TaskResultAsWritten(r, message))
  }

  /** `{}` and `null` hold no fence and no surrounding space, so the fix task decodes them as they are. */
  lemma FixTextOfShortDocument(s: string)
    requires s == "{}" || s == "null"
    ensures FixText(s) == s
  {
    assert !Contains(s, Fence) by {
      forall k | 0 <= k ensures !OccursAt(s, Fence, k) {
        if k + |Fence| <= |s| {
          assert s[k..k + |Fence|][0] == s[k] != '`';
        }
      }
      ContainsIff(s, Fence);
    }
    assert Trimmed(s);
    StripTrimmed(s);
  }

  /**
   * A reply of `{}` to `/fix-parse-error` decodes to an empty object, and the
   * endpoint as written then reports success together with an error.
   */
  lemma EmptyObjectSuccessWithError(snippet: string, loads: string -> Option<Json>)
    requires loads("{}") == Some(JObject([]))
    ensures var resp := AIResponse(true, Some("{}"), None, None);
      var res := TaskResponse(TaskOutcome(FixCall(snippet), resp, loads), FailureMessage(FixCall(snippet)));
      res.Ok? && res.body.success && res.body.error == Some("AI could not extract valid information")
  {
    FixTextOfShortDocument("{}");
  }

  /** A reply of `null` to `/fix-parse-error` decodes to `None`, which the endpoint reports as a failure. */
  lemma NullFixAnswerFails(snippet: string, loads: string -> Option<Json>)
    requires loads("null") == Some(JNull)
    ensures var resp := AIResponse(true, Some("null"), None, None);
      var res := TaskResponse(TaskOutcome(FixCall(snippet), resp, loads), FailureMessage(FixCall(snippet)));
      res.Ok? && !res.body.success && res.body.result.None?
      && res.body.error == Some("AI could not extract valid information")
  {
    FixTextOfShortDocument("null");
    DecodedNullIsNoResult(snippet, loads, "null");
  }

  /** An answer the fix task decodes to `null` gives no result. */
  lemma DecodedNullIsNoResult(snippet: string, loads: string -> Option<Json>, text: string)
    requires text != "" && loads(FixText(text)) == Some(JNull)
    ensures TaskOutcome(FixCall(snippet), AIResponse(true, Some(text), None, None), loads).None?
  {
    assert FixResult(AIResponse(true, Some(text), None, None), loads).None?;
  }

  /**
   * `suggest_java_version` returns an `int`, which `AITaskResult.result`
   * refuses: as written `/suggest-java` never reports a success, and every
   * version the service suggests ends in a 500.
   */
  lemma SuggestJavaNeverSucceeds(t: TaskCall, resp: AIResponse, loads: string -> Option<Json>)
    requires t.JavaCall?
    ensures var res := TaskResponse(TaskOutcome(t, resp, loads), FailureMessage(t));
      && (res.Ok? ==> !res.body.success)
      && (JavaResult(resp).Some? ==> res == ServerError)
  {
  }

  /** The result field with the suggested version admitted: `str | int | dict | None`. */
  predicate FitsResultFieldCorrected(v: TaskValue) {
    v.Number? || FitsResultField(v)
  }

  /** `TaskResponse` with the corrected result field. */
  function TaskResponseCorrected(r: Option<TaskValue>, message: string): (res: Http<AITaskResult>)
    ensures res.Rejected? <==> r.Some? && !FitsResultFieldCorrected(r.value)
    ensures res.Ok? ==> res.body == TaskResultAsWritten(r, message)
  {
    if r.Some? && !FitsResultFieldCorrected(r.value) then ServerError
    else Ok(TaskResultAsWritten(r, message))
  }

  /** With the corrected field, `/suggest-java` reports the version the service suggests. */
  lemma SuggestJavaCorrectedReturnsVersion(t: TaskCall, resp: AIResponse, loads: string -> Option<Json>, n: int)
    requires t.JavaCall? && JavaResult(resp) == Some(n)
    ensures var res := TaskResponseCorrected(TaskOutcome(t, resp, loads), FailureMessage(t));
      res.Ok? && res.body.success && res.body.result == Some(Number(n))
  {
  }

  // ------------------------------------------------------------ endpoints

  /**
   * The five task endpoints: 400 unless the caller's settings exist and are
   * switched on; otherwise the shared service is configured with them and
   * runs the AI task.
   */
  method TaskEndpoint(store: ConfigStore, ai: Service, user: int, t: TaskCall, net: PostOutcome,
                      loads: string -> Option<Json>) returns (r: Http<AITaskResult>)
    modifies ai
    ensures !Gate(store.Get(user)) ==> r == Rejected(400, "AI not configured") && unchanged(ai)
    ensures Gate(store.Get(user)) ==>
      && ai.config == store.Get(user)
      && r == TaskResponse(TaskOutcome(t, ProcessSpec(store.Get(user), TaskRequest(t), net).response, loads), FailureMessage(t))
  {
    var config := store.Get(user);
    if !Gate(config) {
      return Rejected(400, "AI not configured");
    }
    ai.Configure(config.value);
    var value := ai.RunTask(t, net, loads);
    r := TaskResponse(value, FailureMessage(t));
  }

  /** What `/test` reports when the service answered. */
  datatype TestReport = TestReport(message: string, testResult: Option<string>, tokensUsed: Option<int>)

  const TestRequest := AIRequest(CleanName, "Test_Modpack_v1.0", [])

  /** `/test`'s answer to the service's response: the result on success, 502 with the error otherwise. */
  function TestOutcome(resp: AIResponse): (r: Http<TestReport>)
    ensures r.Ok? <==> resp.success
    ensures r.Ok? ==> r.body.testResult == resp.result && r.body.tokensUsed == resp.tokensUsed
    ensures r.Rejected? ==> r.status == 502 && StartsWith(r.detail, "AI connection failed: ")
  {
    if resp.success then Ok(TestReport("AI connection successful", resp.result, resp.tokensUsed))
    else
      var e := match resp.error case Some(e) => e case None => "None";
      assert ("AI connection failed: " + e)[..22] == "AI connection failed: ";
      Rejected(502, "AI connection failed: " + e)
  }

  /** `/test`: the same gate, then one name-cleaning request. */
  method TestEndpoint(store: ConfigStore, ai: Service, user: int, net: PostOutcome) returns (r: Http<TestReport>)
    modifies ai
    ensures !Gate(store.Get(user)) ==> r == Rejected(400, "AI not configured. Set up AI configuration first.") && unchanged(ai)
    ensures Gate(store.Get(user)) ==>
      ai.config == store.Get(user) && r == TestOutcome(ProcessSpec(store.Get(user), TestRequest, net).response)
  {
    var config := store.Get(user);
    if !Gate(config) {
      return Rejected(400, "AI not configured. Set up AI configuration first.");
    }
    ai.Configure(config.value);
    var resp, _ := ai.Process(TestRequest, net);
    r := TestOutcome(resp);
  }

  /** A successful `/test` always carries a non-empty, trimmed answer. */
  lemma TestSuccessHasAnswer(config: Option<AIConfig>, net: PostOutcome)
    requires TestOutcome(ProcessSpec(config, TestRequest, net).response).Ok?
    ensures var b := TestOutcome(ProcessSpec(config, TestRequest, net).response).body;
      b.testResult.Some? && b.testResult.value != "" && Trimmed(b.testResult.value)
  {
  }
}
