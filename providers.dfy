// The AI back ends: the response record and configuration check shared by
// all providers (`ai/base.py`), and the three clients DevBlogger registers,
// in their synchronous variants (`ai/openai_client.py`, `ai/gemini_client.py`,
// `ai/ollama_client.py`).  The SDKs and HTTP servers are outside the model:
// whether a library imported and what a server answers are parameters.
module AiProviders {
  import opened Wrappers
  import opened Text
  import opened Settings

  datatype Kind = ChatGpt | Gemini | Ollama

  /** The name each client registers under. */
  function KindName(k: Kind): string
  {
    match k
    case ChatGpt => "chatgpt"
    case Gemini => "gemini"
    case Ollama => "ollama"
  }

  /** The model each client starts with, and the default of `update_config`. */
  function DefaultModel(k: Kind): string
  {
    match k
    case ChatGpt => "gpt-4"
    case Gemini => "gemini-pro"
    case Ollama => "llama2"
  }

  /** "http://localhost:11434", written as its scheme, separator and host. */
  const DefaultBaseUrl: string := "http" + "://" + "localhost:11434"

  lemma {:induction false} KindNameInjective(a: Kind, b: Kind)
    ensures KindName(a) == KindName(b) <==> a == b
  {
  }

  /**
   * What lies outside the program: whether the client's SDK imported
   * (`OPENAI_AVAILABLE`, `GENAI_AVAILABLE`), whether `genai.GenerativeModel`
   * can be built, and whether the server answers the connection test.
   */
  datatype Environment = Environment(libraryAvailable: bool, modelBuilds: bool, serverAnswers: bool)

  // ------------------------------------------------------------ responses

  datatype AIResponse = AIResponse(
    text: string, model: string, provider: string,
    tokensUsed: Option<int>, finishReason: Option<string>,
    metadata: map<string, Atom>)

  /** The `AIResponse` dataclass constructor: metadata not given becomes `{}`. */
  function NewResponse(text: string, model: string, provider: string, tokensUsed: Option<int>,
                       finishReason: Option<string>, metadata: Option<map<string, Atom>>): (r: AIResponse)
    ensures metadata.None? ==> r.metadata == map[]
    ensures metadata.Some? ==> r.metadata == metadata.value
    ensures r.text == text && r.model == model && r.provider == provider
    ensures r.tokensUsed == tokensUsed && r.finishReason == finishReason
  {
    AIResponse(text, model, provider, tokensUsed, finishReason, metadata.GetOr(map[]))
  }

  function OptInt(x: Option<int>): Atom
  {
    match x
    case None => ANone
    case Some(n) => AInt(n)
  }

  function OptStr(x: Option<string>): Atom
  {
    match x
    case None => ANone
    case Some(s) => AStr(s)
  }

  // ------------------------------------------------------------ key and URL formats

  /** `OpenAIProvider.validate_api_key`. */
  function ValidOpenAiKey(key: string): (r: bool)
    ensures key == [] ==> !r
    ensures r <==> |key| > 20 && key[..3] == "sk-"
  {
    if key == [] then false else StartsWith(key, "sk-") && |key| > 20
  }

  /** `GeminiProvider.validate_api_key`. */
  function ValidGeminiKey(key: string): (r: bool)
    ensures key == [] ==> !r
    ensures r <==> |key| == 39 && key[..4] == "AIza"
  {
    if key == [] then false else StartsWith(key, "AIza") && |key| == 39
  }

  predicate IsAsciiLetter(c: char) { 'a' <= c <= 'z' || 'A' <= c <= 'Z' }

  /** The characters `urllib.parse` accepts in a scheme. */
  predicate IsSchemeChar(c: char)
  {
    IsAsciiLetter(c) || IsDigit(c) || c == '+' || c == '-' || c == '.'
  }

  /** The index of the first character of `s` in `cs`, or `|s|`. */
  function FirstOf(s: string, cs: set<char>): (i: nat)
    ensures i <= |s|
    ensures forall j | 0 <= j < i :: s[j] !in cs
    ensures i < |s| ==> s[i] in cs
  {
    if s == [] || s[0] in cs then 0 else 1 + FirstOf(s[1..], cs)
  }

  /** The scheme and network location `urlsplit` finds, or None where it raises ValueError. */
  datatype UrlParts = UrlParts(scheme: string, netloc: string)

  /** `url[:i]` is a scheme: it starts with a letter and holds only scheme characters. */
  predicate SchemeBefore(url: string, i: nat)
    requires i <= |url|
  {
    0 < i && IsAsciiLetter(url[0]) && forall j | 0 <= j < i :: IsSchemeChar(url[j])
  }

  /** The network location after a leading "//": up to the first '/', '?' or '#'. */
  function NetlocOf(rest: string): (r: string)
    requires StartsWith(rest, "//")
  {
    rest[2..][..FirstOf(rest[2..], {'/', '?', '#'})]
  }

  /** The characters `urlsplit` deletes from anywhere in a URL before it splits it. */
  const UnsafeUrlChars: set<char> := {'\t', '\r', '\n'}

  /** The URL without its tab, CR and LF characters, the rest in order. */
  function WithoutUnsafe(url: string): (r: string)
    ensures |r| <= |url|
    ensures forall c :: c in r <==> c in url && c !in UnsafeUrlChars
  {
    if url == [] then [] else (if url[0] in UnsafeUrlChars then [] else [url[0]]) + WithoutUnsafe(url[1..])
  }

  lemma {:induction false} WithoutUnsafeAppend(a: string, b: string)
    ensures WithoutUnsafe(a + b) == WithoutUnsafe(a) + WithoutUnsafe(b)
  {
    if a == [] {
      assert a + b == b;
    } else {
      assert (a + b)[1..] == a[1..] + b;
      WithoutUnsafeAppend(a[1..], b);
    }
  }

  /** A text without tab, CR and LF is left as it is. */
  lemma {:induction false} WithoutUnsafeKeeps(s: string)
    requires forall j | 0 <= j < |s| :: s[j] !in UnsafeUrlChars
    ensures WithoutUnsafe(s) == s
  {
    if s != [] {
      WithoutUnsafeKeeps(s[1..]);
      assert [s[0]] + s[1..] == s;
    }
  }

  /** Text made only of printable ASCII characters holds no tab, CR or LF. */
  lemma {:induction false} PrintableKeeps(s: string)
    requires forall j | 0 <= j < |s| :: ' ' <= s[j] <= '~'
    ensures WithoutUnsafe(s) == s
  {
    WithoutUnsafeKeeps(s);
  }

  /** `urlsplit`: the tab, CR and LF characters are deleted, then the URL is split. */
  function UrlSplit(url: string): Option<UrlParts>
  {
    SplitClean(WithoutUnsafe(url))
  }

  /** The splitting of a URL that holds no tab, CR or LF. */
  function SplitClean(url: string): Option<UrlParts>
  {
    var i := FirstOf(url, {':'});
    var hasScheme := i < |url| && SchemeBefore(url, i);
    var scheme := if hasScheme then Lower(url[..i]) else "";
    var rest := if hasScheme then url[i + 1..] else url;
    if StartsWith(rest, "//") then
      var netloc := NetlocOf(rest);
      if ('[' in netloc) != (']' in netloc) then None
      else Some(UrlParts(scheme, netloc))
    else Some(UrlParts(scheme, ""))
  }

  /** `OllamaProvider.validate_base_url`: a scheme and a host, and never the empty string. */
  function ValidBaseUrl(url: string): (r: bool)
    ensures url == [] ==> !r
  {
    if url == [] then false
    else match UrlSplit(url)
      case None => false
      case Some(p) => p.scheme != [] && p.netloc != []
  }

  /**
   * The URL is judged as `urlsplit` reads it, without its tab, CR and LF
   * characters; a URL made of nothing else has no scheme.
   */
  lemma {:induction false} UnsafeCharsIgnored(url: string)
    requires url != []
    ensures ValidBaseUrl(url) <==> WithoutUnsafe(url) != [] && ValidBaseUrl(WithoutUnsafe(url))
  {
    var u := WithoutUnsafe(url);
    assert forall j | 0 <= j < |u| :: u[j] !in UnsafeUrlChars by {
      forall j | 0 <= j < |u| ensures u[j] !in UnsafeUrlChars {
        assert u[j] in u;
      }
    }
    WithoutUnsafeKeeps(u);
    if u == [] {
      assert FirstOf(u, {':'}) == 0;
      assert !StartsWith(u, "//");
    }
  }

  /** A tab, CR or LF anywhere before the URL makes no difference to the verdict. */
  lemma {:induction false} UnsafeCharIgnored(c: char, url: string)
    requires c in UnsafeUrlChars
    ensures ValidBaseUrl([c] + url) <==> ValidBaseUrl(url)
  {
    assert ([c] + url)[1..] == url;
    assert WithoutUnsafe([c] + url) == WithoutUnsafe(url);
    UnsafeCharsIgnored([c] + url);
    if url != [] {
      UnsafeCharsIgnored(url);
    }
  }

  /** A tab before the default address is deleted, and the address is valid. */
  lemma {:induction false} LeadingTabIgnored()
    ensures ValidBaseUrl("\t" + DefaultBaseUrl)
  {
    UnsafeCharIgnored('\t', DefaultBaseUrl);
    DefaultBaseUrlValid();
  }

  /** The first-occurrence search stops at `n` when nothing before it matches and `s[n]` does. */
  lemma {:induction false} FirstOfIs(s: string, cs: set<char>, n: nat)
    requires n <= |s| && (forall j | 0 <= j < n :: s[j] !in cs) && (n < |s| ==> s[n] in cs)
    ensures FirstOf(s, cs) == n
  {
  }

  /** The host of "//host/path" is its network location. */
  lemma {:induction false} NetlocOfHost(host: string, path: string)
    requires forall j | 0 <= j < |host| :: host[j] != '/' && host[j] != '?' && host[j] != '#'
    requires path == [] || path[0] == '/'
    ensures StartsWith("//" + host + path, "//") && NetlocOf("//" + host + path) == host
  {
    var rest := "//" + host + path;
    assert rest[..2] == "//";
    var t := rest[2..];
    assert t == host + path;
    FirstOfIs(t, {'/', '?', '#'}, |host|);
    assert t[..|host|] == host;
  }

  /** The split of "scheme://host/path" has that scheme, lower-cased, and that host. */
  lemma {:induction false} CleanBaseUrlSplits(scheme: string, host: string, path: string)
    requires scheme != [] && forall j | 0 <= j < |scheme| :: IsAsciiLetter(scheme[j])
    requires forall j | 0 <= j < |host| :: host[j] != '/' && host[j] != '?' && host[j] != '#'
    requires '[' !in host && ']' !in host
    requires path == [] || path[0] == '/'
    ensures SplitClean(scheme + "://" + host + path) == Some(UrlParts(Lower(scheme), host))
  {
    var rest := "//" + host + path;
    var url := scheme + ":" + rest;
    assert url == scheme + "://" + host + path;
    assert url[..|scheme|] == scheme;
    assert url[|scheme|] == ':';
    FirstOfIs(url, {':'}, |scheme|);
    assert SchemeBefore(url, |scheme|);
    assert url[|scheme| + 1..] == rest;
    NetlocOfHost(host, path);
  }

  /**
   * Every URL made of a scheme of letters, "://", a host that, without its
   * tab, CR and LF, is not empty and holds no path, query, fragment or bracket
   * character, and an optional path passes.
   */
  lemma {:induction false} BaseUrlAccepted(scheme: string, host: string, path: string)
    requires scheme != [] && forall j | 0 <= j < |scheme| :: IsAsciiLetter(scheme[j])
    requires var h := WithoutUnsafe(host);
      h != [] && '[' !in h && ']' !in h &&
      forall j | 0 <= j < |h| :: h[j] != '/' && h[j] != '?' && h[j] != '#'
    requires path == [] || path[0] == '/'
    ensures ValidBaseUrl(scheme + "://" + host + path)
  {
    var h, p := WithoutUnsafe(host), WithoutUnsafe(path);
    WithoutUnsafeKeeps(scheme);
    PrintableKeeps("://");
    WithoutUnsafeAppend(scheme, "://");
    WithoutUnsafeAppend(scheme + "://", host);
    WithoutUnsafeAppend(scheme + "://" + host, path);
    assert p == [] || p[0] == '/';
    CleanBaseUrlSplits(scheme, h, p);
  }

  /** The default Ollama address is a valid base URL. */
  lemma {:induction false} DefaultBaseUrlValid()
    ensures ValidBaseUrl(DefaultBaseUrl)
  {
    var scheme, host := "http", "localhost:11434";
    assert forall j | 0 <= j < |scheme| :: IsAsciiLetter(scheme[j]);
    assert forall j | 0 <= j < |host| :: ' ' <= host[j] <= '~' && host[j] != '/' && host[j] != '?' && host[j] != '#';
    assert '[' !in host && ']' !in host;
    PrintableHostAccepted(scheme, host);
  }

  /** A scheme of letters, "://" and a printable host without path, query, fragment or bracket characters pass. */
  lemma {:induction false} PrintableHostAccepted(scheme: string, host: string)
    requires scheme != [] && forall j | 0 <= j < |scheme| :: IsAsciiLetter(scheme[j])
    requires host != [] && '[' !in host && ']' !in host
    requires forall j | 0 <= j < |host| :: ' ' <= host[j] <= '~' && host[j] != '/' && host[j] != '?' && host[j] != '#'
    ensures ValidBaseUrl(scheme + "://" + host)
  {
    PrintableKeeps(host);
    BaseUrlAccepted(scheme, host, "");
    assert scheme + "://" + host + "" == scheme + "://" + host;
  }

  // ------------------------------------------------------------ model tables

  datatype ModelInfo = ModelInfo(
    name: string, provider: string, family: string,
    contextLength: int, maxTokens: Atom, description: string)

  /** `OpenAIProvider.get_model_info`. */
  function OpenAiModelInfo(model: string): (r: ModelInfo)
    ensures r.name == model && r.maxTokens == AInt(4096)
    ensures r.contextLength == if Contains(model, "gpt-3.5") then 8192 else 128000
  {
    ModelInfo(model, "OpenAI", "chat", if Contains(model, "gpt-3.5") then 8192 else 128000,
              AInt(4096), "OpenAI " + model + " model")
  }

  /** `GeminiProvider.get_model_info`: two table entries, then a default entry under the model's own name. */
  function GeminiModelInfo(model: string): (r: ModelInfo)
    ensures r.name == model && r.maxTokens == AInt(2048)
    ensures r.contextLength == if model == "gemini-pro-vision" then 16384 else 30720
    ensures r.family == if model == "gemini-pro-vision" then "multimodal" else "chat"
  {
    if model == "gemini-pro" then
      ModelInfo("gemini-pro", "Google", "chat", 30720, AInt(2048), "Google Gemini Pro model for text generation")
    else if model == "gemini-pro-vision" then
      ModelInfo("gemini-pro-vision", "Google", "multimodal", 16384, AInt(2048),
                "Google Gemini Pro Vision model for text and image understanding")
    else
      ModelInfo(model, "Google", "chat", 30720, AInt(2048), "Google " + model + " model")
  }

  /** `OllamaProvider.get_model_info`: the configured max_tokens, a context of 4096. */
  function OllamaModelInfo(model: string, maxTokens: Atom): (r: ModelInfo)
    ensures r.name == model && r.maxTokens == maxTokens && r.contextLength == 4096
  {
    ModelInfo(model, "Ollama", "local", 4096, maxTokens, "Local Ollama " + model + " model")
  }

  // ------------------------------------------------------------ argument defaulting

  /** `max_tokens or self.max_tokens`: None and 0 both fall back to the configured value. */
  function EffectiveMaxTokens(arg: Option<int>, configured: Atom): (r: Atom)
    ensures arg.Some? && arg.value != 0 ==> r == AInt(arg.value)
    ensures arg.None? || arg.value == 0 ==> r == configured
  {
    if arg.Some? && arg.value != 0 then AInt(arg.value) else configured
  }

  /** `temperature if temperature is not None else self.temperature`: an explicit 0.0 is kept. */
  function EffectiveTemperature(arg: Option<real>, configured: Atom): (r: Atom)
    ensures arg.Some? ==> r == AReal(arg.value)
    ensures arg.None? ==> r == configured
  {
    match arg
    case None => configured
    case Some(t) => AReal(t)
  }

  /** The two rules differ exactly on zero: max_tokens 0 is dropped, temperature 0.0 is sent. */
  lemma {:induction false} ZeroArguments(configured: Atom)
    requires configured != AInt(0) && configured != AReal(0.0)
    ensures EffectiveMaxTokens(Some(0), configured) != AInt(0)
    ensures EffectiveTemperature(Some(0.0), configured) == AReal(0.0)
  {
  }

  /** The parameters of one generation request. */
  datatype Request = Request(model: string, prompt: string, maxTokens: Atom, temperature: Atom)

  /**
   * What the remote model answered to a request, or the message of the exception its SDK or HTTP call raised.
   * `fields` holds the other members of Ollama's JSON answer.
   */
  datatype Reply =
    | Raised(message: string)
    | Answered(content: Option<string>, usage: Option<Usage>, finishReason: Option<string>,
               id: Option<string>, model: Option<string>, fields: map<string, Atom>)

  /** Token counts a service reports. */
  datatype Usage = Usage(prompt: int, completion: int, total: int)

  /** A generation call: the request, if one went out, and what `generate_text` returned or raised. */
  datatype Dispatch = Dispatch(sent: Option<Request>, result: Result<AIResponse>)

  // ------------------------------------------------------------ the clients

  /**
   * One registered client.  `apiKey` belongs to ChatGPT and Gemini,
   * `baseUrl` to Ollama; `client` and `syncClient` are the OpenAI SDK
   * objects and `modelInstance` Gemini's `GenerativeModel`, each present or not.
   */
  class Provider {
    const kind: Kind
    const name: string
    const env: Environment
    const settings: Settings
    var apiKey: string
    var baseUrl: string
    var model: string
    var maxTokens: Atom
    var temperature: Atom
    var client: bool
    var syncClient: bool
    var modelInstance: bool

    /**
     * The constructor, given the values `_load_config` read (the key or base
     * URL, the model, max_tokens and temperature): the OpenAI clients exist
     * when the SDK imported and the key is non-empty, and so does Gemini's
     * model object when it can be built.
     */
    constructor (kind: Kind, env: Environment, settings: Settings,
                 credential: string, model: string, maxTokens: Atom, temperature: Atom)
      ensures this.kind == kind && name == KindName(kind) && this.env == env && this.settings == settings
      ensures apiKey == (if kind == Ollama then "" else credential)
      ensures baseUrl == (if kind == Ollama then credential else "")
      ensures this.model == model && this.maxTokens == maxTokens && this.temperature == temperature
      ensures client == (kind == ChatGpt && env.libraryAvailable && credential != "")
      ensures syncClient == client
      ensures modelInstance == (kind == Gemini && env.libraryAvailable && credential != "" && env.modelBuilds)
      ensures Valid()
    {
      this.kind := kind;
      name := KindName(kind);
      this.env := env;
      this.settings := settings;
      apiKey := if kind == Ollama then "" else credential;
      baseUrl := if kind == Ollama then credential else "";
      this.model := model;
      this.maxTokens := maxTokens;
      this.temperature := temperature;
      client := kind == ChatGpt && env.libraryAvailable && credential != "";
      syncClient := kind == ChatGpt && env.libraryAvailable && credential != "";
      modelInstance := kind == Gemini && env.libraryAvailable && credential != "" && env.modelBuilds;
    }

    /** The SDK objects exist only for their own client, and only where the SDK imported. */
    predicate Valid()
      reads this
    {
      && name == KindName(kind)
      && (client || syncClient ==> kind == ChatGpt && env.libraryAvailable)
      && (modelInstance ==> kind == Gemini && env.libraryAvailable && env.modelBuilds)
    }

    /** `is_configured` of each client. */
    predicate IsConfigured()
      reads this
    {
      match kind
      case ChatGpt => apiKey != "" && env.libraryAvailable
      case Gemini => apiKey != "" && env.libraryAvailable && modelInstance
      case Ollama => baseUrl != "" && model != ""
    }

    /**
     * `test_connection`: false for an unconfigured client; ChatGPT checks the
     * key's format without a network call, the others ask the server.
     */
    predicate TestConnection()
      reads this
    {
      match kind
      case ChatGpt => IsConfigured() && client && ValidOpenAiKey(apiKey)
      case Gemini => IsConfigured() && env.serverAnswers
      case Ollama => IsConfigured() && env.serverAnswers
    }

    /** A client whose test passes is configured; ChatGPT's test needs no server. */
    lemma {:induction false} WorkingIsConfigured()
      ensures TestConnection() ==> IsConfigured()
      ensures kind == ChatGpt ==> (TestConnection() <==> IsConfigured() && client && |apiKey| > 20 && apiKey[..3] == "sk-")
    {
    }

    /** `validate_config`. */
    function ValidateConfig(): (issues: seq<string>)
      reads this
      ensures issues == [] <==> IsConfigured()
      ensures !IsConfigured() ==> issues == [name + " provider is not configured"]
    {
      if IsConfigured() then [] else [name + " provider is not configured"]
    }

    /** `get_model_info` of this client's kind. */
    function ModelInfoFor(m: string): (r: ModelInfo)
      reads this
      ensures r.name == m
      ensures kind == Ollama ==> r.maxTokens == maxTokens
      ensures r.contextLength >= 4096
    {
      match kind
      case ChatGpt => OpenAiModelInfo(m)
      case Gemini => GeminiModelInfo(m)
      case Ollama => OllamaModelInfo(m, maxTokens)
    }

    /** `OpenAIProvider.get_usage_info`: exactly `{"configured": False}` without a client. */
    function OpenAiUsageInfo(): (r: map<string, Atom>)
      reads this
      requires kind == ChatGpt
      ensures !client ==> r == map["configured" := ABool(false)]
      ensures client ==> "configured" in r && r["configured"] == ABool(true)
      ensures client ==> "api_key_valid" in r && r["api_key_valid"] == ABool(ValidOpenAiKey(apiKey))
    {
      if !client then map["configured" := ABool(false)]
      else map["configured" := ABool(true), "model" := AStr(model), "max_tokens" := maxTokens,
               "temperature" := temperature, "api_key_valid" := ABool(ValidOpenAiKey(apiKey))]
    }

    /**
     * `GeminiProvider.get_available_models`, given the names the service
     * lists (None when listing raises): nothing without the SDK, the two
     * known models as a fallback, else the last path segment of each name
     * mentioning "gemini".
     */
    function GeminiAvailableModels(listed: Option<seq<string>>): (r: seq<string>)
      reads this
      requires kind == Gemini
      ensures !env.libraryAvailable ==> r == []
      ensures env.libraryAvailable && listed.None? ==> r == ["gemini-pro", "gemini-pro-vision"]
      ensures env.libraryAvailable && listed.Some? ==> |r| <= |listed.value|
    {
      if !env.libraryAvailable then []
      else match listed
        case None => ["gemini-pro", "gemini-pro-vision"]
        case Some(names) => LastSegments(names)
    }

    /** The request `generate_text` sends, with its arguments defaulted from the configuration. */
    function RequestFor(prompt: string, maxArg: Option<int>, tempArg: Option<real>): (q: Request)
      reads this
      ensures q.model == model && q.prompt == prompt
      ensures q.maxTokens == EffectiveMaxTokens(maxArg, maxTokens)
      ensures q.temperature == EffectiveTemperature(tempArg, temperature)
    {
      Request(model, prompt, EffectiveMaxTokens(maxArg, maxTokens), EffectiveTemperature(tempArg, temperature))
    }

    /** The guard `generate_text` checks before sending anything. */
    predicate CanSend()
      reads this
    {
      match kind
      case ChatGpt => syncClient
      case Gemini => modelInstance
      case Ollama => true
    }

    /**
     * `generate_text` of the synchronous clients, with `reply` the answer to
     * the request sent: the guard errors, the SDK's or server's error wrapped
     * with the client's prefix, or the response with the stripped text.
     */
    function GenerateText(prompt: string, maxArg: Option<int>, tempArg: Option<real>, reply: Reply): (d: Dispatch)
      reads this
      ensures d.sent.Some? <==> CanSend()
      ensures d.sent.Some? ==> d.sent.value == RequestFor(prompt, maxArg, tempArg)
      ensures kind == ChatGpt && !syncClient ==> d.result == Failure("OpenAI client not initialized")
      ensures kind == Gemini && !modelInstance ==> d.result == Failure("Gemini model not initialized")
      ensures reply.Raised? ==> d.result.Failure?
      ensures d.result.Success? ==> d.result.value.provider == name && d.result.value.model == model
      ensures d.result.Success? ==> Trimmed(d.result.value.text)
      ensures kind == Ollama && reply.Answered? ==> d.result.Success?
    {
      if !CanSend() then
        Dispatch(None, Failure(if kind == ChatGpt then "OpenAI client not initialized" else "Gemini model not initialized"))
      else
        Dispatch(Some(RequestFor(prompt, maxArg, tempArg)), Answer(prompt, reply))
    }

    /** How each client turns the service's answer into an `AIResponse`. */
    function Answer(prompt: string, reply: Reply): (r: Result<AIResponse>)
      reads this
      ensures reply.Raised? ==> r == Failure(ErrorPrefix(kind) + reply.message)
      ensures r.Success? ==> r.value.provider == name && r.value.model == model && Trimmed(r.value.text)
      ensures kind == Ollama && reply.Answered? ==>
        && r.Success?
        && r.value.text == Strip(reply.content.GetOr(""))
        && "prompt_tokens" in r.value.metadata && "completion_tokens" in r.value.metadata
        && r.value.metadata["prompt_tokens"] == AInt(|Words(prompt)|)
        && r.value.metadata["completion_tokens"] == AInt(|Words(r.value.text)|)
        && r.value.tokensUsed.Some?
        && r.value.tokensUsed.value == r.value.metadata["prompt_tokens"].i + r.value.metadata["completion_tokens"].i
        && (forall k <- OllamaTimingKeys :: k in r.value.metadata && r.value.metadata[k] == Field(reply.fields, k))
    {
      match reply
      case Raised(m) => Failure(ErrorPrefix(kind) + m)
      case Answered(content, usage, finish, id, respModel, fields) =>
        if kind == Ollama then
          var text := Strip(content.GetOr(""));
          Success(OllamaResponse(text, |Words(prompt)|, |Words(text)|, model, name, fields))
        else if content.None? then
          Failure(ErrorPrefix(kind) + "'NoneType' object has no attribute 'strip'")
        else
          Success(SdkResponse(kind == ChatGpt, Strip(content.value), model, name, usage, finish, id, respModel))
    }

    /**
     * `update_config`: the new key (or base URL) and model are set, the
     * configuration is persisted with the unchanged max_tokens and
     * temperature, and the SDK objects are rebuilt.  Both OpenAI clients are
     * rebuilt here; the source rebuilds only the asynchronous one (see
     * `UpdateConfigAsWritten`).  `ok` is false where the settings write raises
     * TypeError, which leaves the SDK objects as they were.
     */
    method UpdateConfig(credential: string, newModel: string) returns (ok: bool)
      requires Valid() && settings.Valid() && name != "ai" && name != "providers"
      modifies this, settings
      ensures Valid() && settings.Valid() && settings.root == old(settings.root) && settings.defaults == old(settings.defaults)
      ensures apiKey == (if kind == Ollama then old(apiKey) else credential)
      ensures baseUrl == (if kind == Ollama then credential else old(baseUrl))
      ensures model == newModel && maxTokens == old(maxTokens) && temperature == old(temperature)
      ensures SetOutcome(settings.heap, settings.next, ok) ==
        StoreProviderConfig(old(settings.heap), old(settings.next), settings.root, name,
                            AsDict(Persisted(kind, credential, newModel, maxTokens, temperature)))
      ensures ok ==> settings.ProviderConfig(name) == Found(Ref(old(settings.next)))
      ensures ok ==> settings.heap[old(settings.next)] == AsDict(Persisted(kind, credential, newModel, maxTokens, temperature))
      ensures client == (if ok && kind == ChatGpt && env.libraryAvailable then true else old(client))
      ensures syncClient == (if ok && kind == ChatGpt && env.libraryAvailable then true else old(syncClient))
      ensures modelInstance == (if ok && kind == Gemini && env.libraryAvailable then env.modelBuilds else old(modelInstance))
      ensures ok && kind == ChatGpt ==> (IsConfigured() <==> CanSend() && credential != "")
    {
      ok := Store(credential, newModel);
      if ok && kind == ChatGpt && env.libraryAvailable {
        client := true;
        syncClient := true;
      }
      if ok && kind == Gemini && env.libraryAvailable {
        modelInstance := env.modelBuilds;
      }
    }

    /** `update_config` as the source has it: the synchronous OpenAI client is never rebuilt. */
    method UpdateConfigAsWritten(credential: string, newModel: string) returns (ok: bool)
      requires Valid() && settings.Valid() && name != "ai" && name != "providers"
      modifies this, settings
      ensures Valid() && settings.Valid() && settings.root == old(settings.root) && settings.defaults == old(settings.defaults)
      ensures apiKey == (if kind == Ollama then old(apiKey) else credential)
      ensures baseUrl == (if kind == Ollama then credential else old(baseUrl))
      ensures model == newModel && maxTokens == old(maxTokens) && temperature == old(temperature)
      ensures SetOutcome(settings.heap, settings.next, ok) ==
        StoreProviderConfig(old(settings.heap), old(settings.next), settings.root, name,
                            AsDict(Persisted(kind, credential, newModel, maxTokens, temperature)))
      ensures ok ==> settings.ProviderConfig(name) == Found(Ref(old(settings.next)))
      ensures ok ==> settings.heap[old(settings.next)] == AsDict(Persisted(kind, credential, newModel, maxTokens, temperature))
      ensures client == (if ok && kind == ChatGpt && env.libraryAvailable then true else old(client))
      ensures syncClient == old(syncClient)
      ensures modelInstance == (if ok && kind == Gemini && env.libraryAvailable then env.modelBuilds else old(modelInstance))
    {
      ok := Store(credential, newModel);
      if ok && kind == ChatGpt && env.libraryAvailable {
        client := true;
      }
      if ok && kind == Gemini && env.libraryAvailable {
        modelInstance := env.modelBuilds;
      }
    }

    /** The field updates and the settings write both versions of `update_config` share. */
    method Store(credential: string, newModel: string) returns (ok: bool)
      requires settings.Valid() && name != "ai" && name != "providers"
      modifies this, settings
      ensures settings.Valid() && settings.root == old(settings.root) && settings.defaults == old(settings.defaults)
      ensures apiKey == (if kind == Ollama then old(apiKey) else credential)
      ensures baseUrl == (if kind == Ollama then credential else old(baseUrl))
      ensures model == newModel && maxTokens == old(maxTokens) && temperature == old(temperature)
      ensures client == old(client) && syncClient == old(syncClient) && modelInstance == old(modelInstance)
      ensures SetOutcome(settings.heap, settings.next, ok) ==
        StoreProviderConfig(old(settings.heap), old(settings.next), settings.root, name,
                            AsDict(Persisted(kind, credential, newModel, maxTokens, temperature)))
      ensures ok ==> settings.ProviderConfig(name) == Found(Ref(old(settings.next)))
      ensures ok ==> settings.heap[old(settings.next)] == AsDict(Persisted(kind, credential, newModel, maxTokens, temperature))
    {
      if kind == Ollama {
        baseUrl := credential;
      } else {
        apiKey := credential;
      }
      model := newModel;
      var config := Persisted(kind, credential, newModel, maxTokens, temperature);
      ProviderConfigReadsBack(settings.heap, settings.next, settings.root, name, config);
      ok := settings.SetProviderConfig(name, config);
    }
  }

  /** The dictionary `update_config` persists: the new key or base URL and model, with the current max_tokens and temperature. */
  function Persisted(kind: Kind, credential: string, model: string, maxTokens: Atom, temperature: Atom): (c: map<string, Atom>)
    ensures c.Keys == {if kind == Ollama then "base_url" else "api_key", "model", "max_tokens", "temperature"}
    ensures c["model"] == AStr(model) && c["max_tokens"] == maxTokens && c["temperature"] == temperature
    ensures c[if kind == Ollama then "base_url" else "api_key"] == AStr(credential)
  {
    map[if kind == Ollama then "base_url" else "api_key" := AStr(credential), "model" := AStr(model),
        "max_tokens" := maxTokens, "temperature" := temperature]
  }

  /** The prefix each client puts on the message of an exception from its service. */
  function ErrorPrefix(k: Kind): string
  {
    match k
    case ChatGpt => "OpenAI API error: "
    case Gemini => "Gemini API error: "
    case Ollama => "Ollama API error: "
  }

  /** No whitespace at either end, as `strip()` leaves it. */
  predicate Trimmed(t: string)
  {
    t == [] || (!IsSpace(t[0]) && !IsSpace(t[|t| - 1]))
  }

  /**
   * The response of the OpenAI or Gemini SDK: tokens_used is OpenAI's
   * total_tokens or Gemini's prompt plus candidate counts, when usage is
   * reported; the metadata's "model" is the one OpenAI answers with, or
   * Gemini's configured one.
   */
  function SdkResponse(openAi: bool, text: string, model: string, name: string, usage: Option<Usage>,
                       finish: Option<string>, id: Option<string>, respModel: Option<string>): (r: AIResponse)
    ensures r.text == text && r.model == model && r.provider == name && r.finishReason == finish
    ensures usage.None? ==> r.tokensUsed.None?
    ensures usage.Some? ==> r.tokensUsed == Some(if openAi then usage.value.total else usage.value.prompt + usage.value.completion)
  {
    var tokens := if usage.None? then None
      else Some(if openAi then usage.value.total else usage.value.prompt + usage.value.completion);
    var counts := if usage.None? then (ANone, ANone) else (AInt(usage.value.prompt), AInt(usage.value.completion));
    var metadata := map["prompt_tokens" := counts.0, "completion_tokens" := counts.1,
                        "model" := if openAi then OptStr(respModel) else AStr(model), "id" := OptStr(id)];
    NewResponse(text, model, name, tokens, finish, Some(metadata))
  }

  /** The members of Ollama's answer that `generate_text` copies into the metadata. */
  const OllamaTimingKeys: set<string> := {"total_duration", "load_duration", "eval_duration", "eval_count"}

  /** `data.get(key)`: None for a missing member. */
  function Field(data: map<string, Atom>, key: string): Atom
  {
    if key in data then data[key] else ANone
  }

  /**
   * Ollama's response: word counts stand in for tokens, the finish reason is
   * always "stop", and the server's timing members `data` carries are copied.
   */
  function OllamaResponse(text: string, promptWords: nat, textWords: nat, model: string, name: string,
                          data: map<string, Atom>): (r: AIResponse)
    ensures r.text == text && r.tokensUsed == Some(promptWords + textWords)
    ensures r.metadata.Keys == {"prompt_tokens", "completion_tokens"} + OllamaTimingKeys
    ensures r.metadata["prompt_tokens"] == AInt(promptWords)
    ensures r.metadata["completion_tokens"] == AInt(textWords)
    ensures forall k <- OllamaTimingKeys :: r.metadata[k] == Field(data, k)
    ensures r.tokensUsed == Some(r.metadata["prompt_tokens"].i + r.metadata["completion_tokens"].i)
  {
    var metadata := map["prompt_tokens" := AInt(promptWords), "completion_tokens" := AInt(textWords),
                        "total_duration" := Field(data, "total_duration"),
                        "load_duration" := Field(data, "load_duration"),
                        "eval_duration" := Field(data, "eval_duration"),
                        "eval_count" := Field(data, "eval_count")];
    NewResponse(text, model, name, Some(promptWords + textWords), Some("stop"), Some(metadata))
  }

  /** `name.split("/")[-1]` of every listed name that mentions "gemini". */
  function LastSegments(names: seq<string>): (r: seq<string>)
    ensures |r| <= |names|
    ensures forall k | 0 <= k < |r| :: '/' !in r[k]
  {
    if names == [] then []
    else
      var rest := LastSegments(names[1..]);
      if Contains(names[0], "gemini") then [LastSegment(names[0])] + rest else rest
  }

  /** The text after the last '/', or all of `s` without one. */
  function LastSegment(s: string): (r: string)
    ensures '/' !in r && EndsWith(s, r)
    ensures |r| < |s| ==> s[|s| - |r| - 1] == '/'
    decreases |s|
  {
    if s == [] then []
    else if s[|s| - 1] == '/' then []
    else LastSegment(s[..|s| - 1]) + [s[|s| - 1]]
  }

  // ---------------------------------------------- the stale synchronous client

  /**
   * A ChatGPT client started without a key and given a valid one through
   * `update_config` as written: it reports itself configured and its
   * connection test passes, yet generation is refused because the
   * synchronous client it sends with was never built.
   */
  method StaleSyncClientAfterUpdate(settings: Settings, env: Environment, key: string)
    returns (ok: bool, p: Provider, d: Dispatch)
    requires settings.Valid() && env.libraryAvailable && ValidOpenAiKey(key)
    modifies settings
    ensures ok ==> p.IsConfigured() && p.TestConnection()
    ensures ok ==> d == Dispatch(None, Failure("OpenAI client not initialized"))
  {
    p := new Provider(ChatGpt, env, settings, "", DefaultModel(ChatGpt), AInt(2000), AReal(0.7));
    ok := p.UpdateConfigAsWritten(key, DefaultModel(ChatGpt));
    d := p.GenerateText("Hello", None, None, Answered(Some("Hi"), None, None, None, None, map[]));
  }

  /** The same sequence with both OpenAI clients rebuilt: the request goes out and the answer comes back. */
  method SyncClientRebuiltAfterUpdate(settings: Settings, env: Environment, key: string)
    returns (ok: bool, p: Provider, d: Dispatch)
    requires settings.Valid() && env.libraryAvailable && ValidOpenAiKey(key)
    modifies settings
    ensures ok ==> p.IsConfigured() && p.TestConnection()
    ensures ok ==> d.sent == Some(Request(DefaultModel(ChatGpt), "Hello", AInt(2000), AReal(0.7)))
    ensures ok ==> d.result.Success? && d.result.value.provider == "chatgpt"
  {
    p := new Provider(ChatGpt, env, settings, "", DefaultModel(ChatGpt), AInt(2000), AReal(0.7));
    ok := p.UpdateConfig(key, DefaultModel(ChatGpt));
    d := p.GenerateText("Hello", None, None, Answered(Some("Hi"), None, None, None, None, map[]));
  }
}
