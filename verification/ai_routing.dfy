/** `analyze_cv_with_ai` and the three provider functions: the prompt, the choice
    of provider from the model id, the provider's own model id, the API-key
    checks, and the shared path from reply text to analysis. The HTTP exchange,
    `json.loads` and the pydantic constructor are parameters. */
module AiRouting {
  import opened Wrappers
  import opened Text
  import opened Analysis
  import AiReply

  datatype Provider = Gemini | Claude | OpenRouter

  // ---------------------------------------------------------------------------
  // Prompt
  // ---------------------------------------------------------------------------

  /** The instruction text that opens each prompt; its wording is not part of
      this model. `matching` asks for scores against a job description,
      `plain` does not. */
  datatype Templates = Templates(matching: string, plain: string)

  const CvHeading := "CV Content:\n"
  const JdHeading := "Job Description:\n"

  /** The prompt: the job description is included, with the matching
      instructions, exactly when it is non-empty; the CV text always closes it. */
  function Prompt(t: Templates, cv: string, jd: string): (p: string)
    ensures EndsWith(p, CvHeading + cv + "\n")
    ensures jd != "" ==> StartsWith(p, t.matching + JdHeading + jd)
    ensures jd == "" ==> StartsWith(p, t.plain + CvHeading)
  {
    if jd != "" then
      var head := t.matching + JdHeading + jd;
      var p := head + "\n\n" + (CvHeading + cv + "\n");
      StartsWithAppend(head, "\n\n" + (CvHeading + cv + "\n"));
      assert p == head + ("\n\n" + (CvHeading + cv + "\n"));
      EndsWithAppend(head + "\n\n", CvHeading + cv + "\n");
      p
    else
      var p := t.plain + (CvHeading + cv + "\n");
      StartsWithAppend(t.plain + CvHeading, cv + "\n");
      assert p == (t.plain + CvHeading) + (cv + "\n");
      EndsWithAppend(t.plain, CvHeading + cv + "\n");
      p
  }

  /** Everything in the prompt before the CV text. */
  function PromptHead(t: Templates, jd: string): string {
    if jd != "" then t.matching + JdHeading + jd + "\n\n" + CvHeading else t.plain + CvHeading
  }

  lemma PromptShape(t: Templates, cv: string, jd: string)
    ensures Prompt(t, cv, jd) == PromptHead(t, jd) + cv + "\n"
  {
    if jd != "" {
      var head := t.matching + JdHeading + jd;
      assert head + "\n\n" + (CvHeading + cv + "\n") == (head + "\n\n" + CvHeading) + cv + "\n";
    } else {
      assert t.plain + (CvHeading + cv + "\n") == (t.plain + CvHeading) + cv + "\n";
    }
  }

  /** Equal texts with the same frame have equal middles. */
  lemma FrameCancel(h: string, x: string, y: string, tail: string)
    requires h + x + tail == h + y + tail
    ensures x == y
  {
    var p := h + x + tail;
    assert |x| == |y|;
    assert x == p[|h|..|h| + |x|];
    assert y == (h + y + tail)[|h|..|h| + |y|];
  }

  /** The CV text can be read back from the prompt: two prompts with the same
      templates and job description are equal only for equal CVs. */
  lemma PromptDeterminesCv(t: Templates, cv1: string, cv2: string, jd: string)
    requires Prompt(t, cv1, jd) == Prompt(t, cv2, jd)
    ensures cv1 == cv2
  {
    PromptShape(t, cv1, jd);
    PromptShape(t, cv2, jd);
    FrameCancel(PromptHead(t, jd), cv1, cv2, "\n");
  }

  // ---------------------------------------------------------------------------
  // Routing
  // ---------------------------------------------------------------------------

  const UnsupportedModel := "Model không hỗ trợ: "

  /** The provider for a model id, tested in this order: a `gemini` prefix, the
      exact id `claude-sonnet`, an `openrouter` prefix; any other id is a 400. */
  function Route(model: string): (r: Result<Provider, Failure>)
    ensures r == Success(Gemini) <==> StartsWith(model, "gemini")
    ensures r == Success(Claude) <==> model == "claude-sonnet"
    ensures r == Success(OpenRouter) <==>
      !StartsWith(model, "gemini") && model != "claude-sonnet" && StartsWith(model, "openrouter")
    ensures r.Failure? ==> r.error == HttpError(400, Detail(UnsupportedModel + model))
  {
    if StartsWith(model, "gemini") then
      assert model[0] == 'g';
      Success(Gemini)
    else if model == "claude-sonnet" then Success(Claude)
    else if StartsWith(model, "openrouter") then Success(OpenRouter)
    else Failure(HttpError(400, Detail(UnsupportedModel + model)))
  }

  /** The six ids the model list offers: three go to Gemini and three to
      OpenRouter. `claude-sonnet` is routed but not offered, and the Claude
      route needs that exact id, so a longer one is refused. */
  lemma OfferedModelsRoute()
    ensures Route("gemini-2.0-flash") == Success(Gemini)
    ensures Route("gemini-2.5-flash") == Success(Gemini)
    ensures Route("gemini-2.5-pro") == Success(Gemini)
    ensures Route("openrouter-claude") == Success(OpenRouter)
    ensures Route("openrouter-gpt4") == Success(OpenRouter)
    ensures Route("openrouter-llama") == Success(OpenRouter)
    ensures Route("claude-sonnet") == Success(Claude)
    ensures Route("claude-sonnet-4").Failure?
  {
    assert "gemini-2.0-flash"[..6] == "gemini";
    assert "gemini-2.5-flash"[..6] == "gemini";
    assert "gemini-2.5-pro"[..6] == "gemini";
    assert "openrouter-claude"[..10] == "openrouter" && "openrouter-claude"[0] != 'g';
    assert "openrouter-gpt4"[..10] == "openrouter" && "openrouter-gpt4"[0] != 'g';
    assert "openrouter-llama"[..10] == "openrouter" && "openrouter-llama"[0] != 'g';
  }

  const DefaultOpenRouterModel := "anthropic/claude-3.5-sonnet"

  /** OpenRouter's model id: three known ids, and Claude 3.5 Sonnet for any
      other, including ids the routing let through only by their prefix. */
  function OpenRouterModel(model: string): (id: string)
    ensures model !in {"openrouter-claude", "openrouter-gpt4", "openrouter-llama"} ==>
      id == DefaultOpenRouterModel
    ensures id == "openai/gpt-4-turbo" <==> model == "openrouter-gpt4"
    ensures id == "meta-llama/llama-3.1-70b-instruct" <==> model == "openrouter-llama"
  {
    var mapping := map[
      "openrouter-claude" := DefaultOpenRouterModel,
      "openrouter-gpt4" := "openai/gpt-4-turbo",
      "openrouter-llama" := "meta-llama/llama-3.1-70b-instruct"];
    if model in mapping then mapping[model] else DefaultOpenRouterModel
  }

  const ClaudeModel := "claude-3-5-sonnet-20241022"

  /** The model id sent to the provider: Gemini gets the requested id in its
      URL, Claude always the one dated snapshot, and OpenRouter one of three
      vendor ids, never the id that was requested. */
  function ProviderModel(p: Provider, model: string): (id: string)
    ensures p == Gemini ==> id == model
    ensures p == Claude ==> id == ClaudeModel
    ensures p == OpenRouter ==>
      id in {DefaultOpenRouterModel, "openai/gpt-4-turbo", "meta-llama/llama-3.1-70b-instruct"}
    ensures p == OpenRouter && StartsWith(model, "openrouter") ==> id != model
  {
    match p
    case Gemini => model
    case Claude => ClaudeModel
    case OpenRouter =>
      var id := OpenRouterModel(model);
      assert StartsWith(model, "openrouter") ==> model[6] == 'u' && id[6] != 'u';
      id
  }

  /** Each offered id reaches its provider under the vendor's own id; the
      OpenRouter Claude entry and any unknown OpenRouter id share Claude 3.5
      Sonnet. */
  lemma OfferedProviderModels()
    ensures ProviderModel(Gemini, "gemini-2.5-pro") == "gemini-2.5-pro"
    ensures ProviderModel(OpenRouter, "openrouter-claude") == DefaultOpenRouterModel
    ensures ProviderModel(OpenRouter, "openrouter-gpt4") == "openai/gpt-4-turbo"
    ensures ProviderModel(OpenRouter, "openrouter-llama") == "meta-llama/llama-3.1-70b-instruct"
    ensures ProviderModel(OpenRouter, "openrouter-mistral") == DefaultOpenRouterModel
  {
  }

  // ---------------------------------------------------------------------------
  // One provider call
  // ---------------------------------------------------------------------------

  /** The API keys from the environment; `None` when unset. */
  datatype ApiKeys = ApiKeys(anthropic: Option<string>, openrouter: Option<string>)

  /** A key is usable when set, non-empty and not the sample value. */
  predicate Usable(key: Option<string>, sample: string) {
    key.Some? && key.value != "" && key.value != sample
  }

  const ClaudeKeyMissing :=
    "Claude API key chưa được cấu hình. Vui lòng dùng Gemini models hoặc thêm ANTHROPIC_API_KEY vào file .env"
  const OpenRouterKeyMissing :=
    "OpenRouter API key chưa được cấu hình. Lấy miễn phí tại: https://openrouter.ai/keys"

  /** The 400 a provider raises before any request when its key is unusable;
      the Gemini path checks nothing. */
  function KeyProblem(p: Provider, keys: ApiKeys): (f: Option<Failure>)
    ensures f.Some? <==>
      (p == Claude && !Usable(keys.anthropic, "your_anthropic_api_key_here"))
      || (p == OpenRouter && !Usable(keys.openrouter, "your_openrouter_api_key_here"))
    ensures f.Some? ==> f.value.HttpError? && f.value.status == 400
  {
    match p
    case Gemini => None
    case Claude =>
      if Usable(keys.anthropic, "your_anthropic_api_key_here") then None
      else Some(HttpError(400, Detail(ClaudeKeyMissing)))
    case OpenRouter =>
      if Usable(keys.openrouter, "your_openrouter_api_key_here") then None
      else Some(HttpError(400, Detail(OpenRouterKeyMissing)))
  }

  /** The `error` field of a JSON object body: absent, an object with or
      without a `message`, or some other JSON value named by its Python type. */
  datatype ErrorField = NoErrorField | ErrorObject(message: Option<string>) | ErrorScalar(typeName: string)

  /** The body of a reply, as `response.json() if response.text else {}` sees
      it: empty, not JSON at all (the decode error's message), a JSON object,
      or another JSON value named by its Python type. */
  datatype ErrorBody =
    | EmptyBody
    | Unparsed(decodeError: string)
    | ObjectBody(error: ErrorField)
    | OtherBody(typeName: string)

  /** What `requests.post` brought back: the status, the reason phrase
      `raise_for_status` reports, the body as an error reply would be read, and
      the reply text the provider's JSON carries. */
  datatype Exchange = Exchange(status: int, reason: string, body: ErrorBody, content: string)

  /** The foreign parts of a provider call: the HTTP exchange (or the message
      of the `RequestException` it raised), `json.loads` (its error message on
      failure) and the pydantic constructor. */
  datatype Services = Services(
    post: (Provider, string, string) -> Result<Exchange, string>,
    loads: string -> Result<AiReply.Reply, string>,
    build: AiReply.Reply -> Result<AnalysisResult, Failure>)

  const ClaudeApiError := "Claude API error: "
  const OpenRouterApiError := "OpenRouter API error: "
  const ClaudeConnectionError := "Lỗi kết nối Claude API: "
  const OpenRouterConnectionError := "Lỗi kết nối OpenRouter API: "

  /** The error body yields a message: it is empty, or a JSON object whose
      `error` is absent or itself an object. */
  predicate Readable(body: ErrorBody) {
    body.EmptyBody? || (body.ObjectBody? && !body.error.ErrorScalar?)
  }

  /** `error_detail.get('error', {}).get('message', fallback)` on a readable body. */
  function ErrorText(body: ErrorBody, fallback: string): (m: string)
    requires Readable(body)
    ensures body.ObjectBody? && body.error.ErrorObject? && body.error.message.Some? ==>
              m == body.error.message.value
    ensures !(body.ObjectBody? && body.error.ErrorObject? && body.error.message.Some?) ==> m == fallback
  {
    match body
    case ObjectBody(ErrorObject(Some(m))) => m
    case _ => fallback
  }

  /** How a Claude or OpenRouter call fails on a status other than 200: a 400
      quoting the provider's message when the body can be read; a 500
      "connection" error when the body is not JSON, since the decode error is
      one of `requests`' own exceptions; and an `AttributeError` when `.get`
      meets a JSON value that is not an object. */
  function StatusFailure(prefix: string, fallback: string, connection: string, body: ErrorBody): (f: Failure)
    ensures Readable(body) ==> f == HttpError(400, Detail(prefix + ErrorText(body, fallback)))
    ensures body.Unparsed? ==> f == HttpError(500, Detail(connection + body.decodeError))
    ensures body.OtherBody? ==> f == AiReply.NoGet(body.typeName)
    ensures body.ObjectBody? && body.error.ErrorScalar? ==> f == AiReply.NoGet(body.error.typeName)
  {
    match body
    case Unparsed(e) => HttpError(500, Detail(connection + e))
    case OtherBody(t) => AiReply.NoGet(t)
    case ObjectBody(ErrorScalar(t)) => AiReply.NoGet(t)
    case _ => HttpError(400, Detail(prefix + ErrorText(body, fallback)))
  }

  /** The statuses `raise_for_status` raises on: client errors 400-499 and
      server errors 500-599. Any other status passes, whatever its number. */
  predicate RaisesForStatus(status: int) {
    400 <= status < 600
  }

  /** The reply text of a request, or what was raised. Gemini lets `requests`
      raise, on a connection error or a status in 400-599; Claude and
      OpenRouter refuse every status but 200, with a 400 of their own when the
      error body can be read, and turn a connection error into a 500. */
  function Fetch(p: Provider, providerModel: string, prompt: string, sv: Services): (r: Result<string, Failure>)
    ensures sv.post(p, providerModel, prompt).Failure? ==>
      r.Failure? && (r.error.HttpError? <==> p != Gemini) && (r.error.HttpError? ==> r.error.status == 500)
    ensures sv.post(p, providerModel, prompt).Success? ==>
      var x := sv.post(p, providerModel, prompt).value;
      && (r.Success? <==> (if p == Gemini then !RaisesForStatus(x.status) else x.status == 200))
      && (r.Success? ==> r.value == x.content)
      && (r.Failure? && p == Gemini ==> r.error == Raised(x.reason))
      && (r.Failure? && p != Gemini ==>
            && (r.error.HttpError? && r.error.status == 400 <==> Readable(x.body))
            && (r.error.HttpError? && r.error.status == 500 <==> x.body.Unparsed?)
            && (r.error.Raised? <==> !Readable(x.body) && !x.body.Unparsed?))
    ensures sv.post(p, providerModel, prompt).Success? && p == Claude ==>
      var x := sv.post(p, providerModel, prompt).value;
      x.status != 200 && Readable(x.body) ==>
        r == Failure(HttpError(400, Detail(ClaudeApiError + ErrorText(x.body, "Invalid API key or request"))))
    ensures sv.post(p, providerModel, prompt).Success? && p == OpenRouter ==>
      var x := sv.post(p, providerModel, prompt).value;
      x.status != 200 && Readable(x.body) ==>
        r == Failure(HttpError(400, Detail(OpenRouterApiError + ErrorText(x.body, "Invalid request"))))
  {
    match sv.post(p, providerModel, prompt)
    case Failure(e) =>
      (match p
       case Gemini => Failure(Raised(e))
       case Claude => Failure(HttpError(500, Detail(ClaudeConnectionError + e)))
       case OpenRouter => Failure(HttpError(500, Detail(OpenRouterConnectionError + e))))
    case Success(x) =>
      match p
      case Gemini => if RaisesForStatus(x.status) then Failure(Raised(x.reason)) else Success(x.content)
      case Claude =>
        if x.status != 200
        then Failure(StatusFailure(ClaudeApiError, "Invalid API key or request", ClaudeConnectionError, x.body))
        else Success(x.content)
      case OpenRouter =>
        if x.status != 200
        then Failure(StatusFailure(OpenRouterApiError, "Invalid request", OpenRouterConnectionError, x.body))
        else Success(x.content)
  }

  /** An error reply whose body is not JSON cannot be told from a failed
      connection: Claude and OpenRouter report both as the same 500. */
  lemma UndecodableBodyLooksLikeNoConnection(p: Provider, model: string, prompt: string,
                                             sv1: Services, sv2: Services, x: Exchange, e: string)
    requires p != Gemini
    requires sv1.post(p, model, prompt) == Success(x) && x.status != 200 && x.body == Unparsed(e)
    requires sv2.post(p, model, prompt) == Failure(e)
    ensures Fetch(p, model, prompt, sv1) == Fetch(p, model, prompt, sv2)
    ensures Fetch(p, model, prompt, sv1).error.HttpError? && Fetch(p, model, prompt, sv1).error.status == 500
  {
  }

  /** A string-valued `error` field is not a 400 at all: `.get` on it raises. */
  lemma StringErrorFieldRaises(p: Provider, model: string, prompt: string, sv: Services, x: Exchange)
    requires p != Gemini
    requires sv.post(p, model, prompt) == Success(x) && x.status != 200
    requires x.body == ObjectBody(ErrorScalar("str"))
    ensures Fetch(p, model, prompt, sv) == Failure(AiReply.NoGet("str"))
  {
  }

  /** The providers differ on success statuses: a 201 is read from Gemini and
      refused from the other two. */
  lemma Status201(model: string, prompt: string, sv: Services, x: Exchange)
    requires sv.post(Gemini, model, prompt) == Success(x) && x.status == 201
    requires sv.post(Claude, model, prompt) == Success(x)
    ensures Fetch(Gemini, model, prompt, sv) == Success(x.content)
    ensures Fetch(Claude, model, prompt, sv).Failure?
  {
  }

  const ParseFailed := "Lỗi parse JSON từ AI: "

  function JsonError(message: string): Failure {
    HttpError(500, Detail(ParseFailed + message))
  }

  /** `analyze_with_gemini`, `analyze_with_claude`, `analyze_with_openrouter`:
      key check, request, then clean-up, parse, normalise and construct. */
  function CallProvider(p: Provider, providerModel: string, prompt: string, keys: ApiKeys,
                        sv: Services): (r: Result<AnalysisResult, Failure>)
    ensures KeyProblem(p, keys).Some? ==> r == Failure(KeyProblem(p, keys).value)
    ensures KeyProblem(p, keys).None? && Fetch(p, providerModel, prompt, sv).Failure? ==>
      r == Failure(Fetch(p, providerModel, prompt, sv).error)
    ensures KeyProblem(p, keys).None? && Fetch(p, providerModel, prompt, sv).Success? ==>
      var text := AiReply.CleanReply(Fetch(p, providerModel, prompt, sv).value);
      && (sv.loads(text).Failure? ==> r == Failure(JsonError(sv.loads(text).error)))
      && (sv.loads(text).Success? ==>
            var normal := AiReply.Normalise(sv.loads(text).value);
            && (normal.Failure? ==> r == Failure(normal.error))
            && (normal.Success? ==> r == sv.build(normal.value)))
  {
    if KeyProblem(p, keys).Some? then Failure(KeyProblem(p, keys).value)
    else
      var raw :- Fetch(p, providerModel, prompt, sv);
      var parsed :- sv.loads(AiReply.CleanReply(raw)).MapFailure(JsonError);
      var normal :- AiReply.Normalise(parsed);
      sv.build(normal)
  }

  /** Without a usable key the request is never made: the outcome is the same
      whatever the services would have done. */
  lemma MissingKeySendsNothing(p: Provider, providerModel: string, prompt: string, keys: ApiKeys,
                               sv1: Services, sv2: Services)
    requires KeyProblem(p, keys).Some?
    ensures CallProvider(p, providerModel, prompt, keys, sv1)
         == CallProvider(p, providerModel, prompt, keys, sv2)
  {
  }

  // ---------------------------------------------------------------------------
  // analyze_cv_with_ai
  // ---------------------------------------------------------------------------

  /** `HTTPException(500, "Lỗi phân tích AI: ...")` around whatever was raised. */
  function AiError(f: Failure): Failure {
    HttpError(500, AiFailed(f))
  }

  /** Builds the prompt, routes, calls the provider, and turns every failure,
      the routing's own 400 included, into a 500. */
  function AnalyseWithAi(t: Templates, cv: string, model: string, jd: string, keys: ApiKeys,
                         sv: Services): (r: Result<AnalysisResult, Failure>)
    ensures r.Failure? ==> r.error.HttpError? && r.error.status == 500 && r.error.reason.AiFailed?
    ensures Route(model).Failure? ==>
      r == Failure(AiError(HttpError(400, Detail(UnsupportedModel + model))))
    ensures Route(model).Success? ==>
      var p := Route(model).value;
      r == CallProvider(p, ProviderModel(p, model), Prompt(t, cv, jd), keys, sv).MapFailure(AiError)
  {
    match Route(model)
    case Failure(e) => Failure(AiError(e))
    case Success(p) => CallProvider(p, ProviderModel(p, model), Prompt(t, cv, jd), keys, sv).MapFailure(AiError)
  }

  /** The AI is consulted with the routed provider's own model id and the
      prompt; an unsupported id never reaches any provider. */
  lemma UnsupportedModelSendsNothing(t: Templates, cv: string, model: string, jd: string,
                                     keys: ApiKeys, sv1: Services, sv2: Services)
    requires Route(model).Failure?
    ensures AnalyseWithAi(t, cv, model, jd, keys, sv1) == AnalyseWithAi(t, cv, model, jd, keys, sv2)
  {
  }
}
