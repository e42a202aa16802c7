/**
  The crawler service around the crawl engine: reading the markdown the engine
  returns, mapping LLM providers, assembling the engine's parameters, shaping the
  crawl result, the size and filename decisions of the resource download, and the
  object-storage path scheme. The engine, HTTP responses, `json.loads`, `int()`,
  `urlparse`, random tokens and today's date are parameters.
*/
module CrawlerService {
  import opened Wrappers
  import opened Json
  import opened Text
  import opened Paths

  // ---------------------------------------------------------------------------
  // extract_markdown_string

  /**
    What the engine leaves in `result.markdown`: nothing, a string, or a generation
    result object. For each of the object's three attributes, `None` means the object
    lacks it and `Some(v)` that it holds `v` (itself possibly Python's `None`);
    `repr` is what `str()` makes of the object.
  */
  datatype Markdown =
    | NoMarkdown
    | MarkdownText(text: string)
    | MarkdownResult(raw: Option<Option<string>>, fit: Option<Option<string>>,
                     citations: Option<Option<string>>, repr: string)

  /** `extract_markdown_string`: raw markdown first, then fit markdown, then citations. */
  function ExtractMarkdownString(m: Markdown): (r: Option<string>)
    ensures m.NoMarkdown? ==> r.None?
    ensures m.MarkdownText? ==> r == Some(m.text)
    ensures m.MarkdownResult? && m.raw.Some? ==> r == m.raw.value
    ensures m.MarkdownResult? && m.raw.None? && m.fit.Some? ==> r == m.fit.value
    ensures m.MarkdownResult? && m.raw.None? && m.fit.None? && m.citations.Some? ==> r == m.citations.value
    // An object with none of the attributes still yields a string, its `str()`.
    ensures m.MarkdownResult? && m.raw.None? && m.fit.None? && m.citations.None? ==> r == Some(m.repr)
  {
    match m
    case NoMarkdown => None
    case MarkdownText(text) => Some(text)
    case MarkdownResult(raw, fit, citations, repr) =>
      if raw.Some? then raw.value
      else if fit.Some? then fit.value
      else if citations.Some? then citations.value
      else Some(repr)
  }

  /** Once `raw_markdown` exists, nothing else about the object matters. */
  lemma RawMarkdownWins(raw: Option<string>, m1: Markdown, m2: Markdown)
    requires m1.MarkdownResult? && m2.MarkdownResult? && m1.raw == Some(raw) && m2.raw == Some(raw)
    ensures ExtractMarkdownString(m1) == ExtractMarkdownString(m2) == raw
  {
  }

  // ---------------------------------------------------------------------------
  // LLM providers

  datatype ProviderConfig = ProviderConfig(modelPrefix: string, baseUrl: Option<string>)

  /** Providers addressed through an OpenAI-compatible or their own LiteLLM route. */
  const ChineseLlmProviders: map<string, ProviderConfig> := map[
    "qwen" := ProviderConfig("openai/", Some("https://dashscope.aliyuncs.com/compatible-mode/v1")),
    "ernie" := ProviderConfig("openai/", Some("https://aip.baidubce.com/rpc/2.0/ai_custom/v1/wenxinworkshop/chat")),
    "deepseek" := ProviderConfig("deepseek/", None)
  ]

  /** The provider string handed to the extraction strategy. */
  function ExtractionProvider(provider: string, model: string): (r: string)
    // A table provider (in any letter case) names the model behind its prefix.
    ensures Lower(provider) in ChineseLlmProviders ==> r == ChineseLlmProviders[Lower(provider)].modelPrefix + model
    // Any other provider passes through, and the model plays no part.
    ensures Lower(provider) !in ChineseLlmProviders ==> r == provider
  {
    var lower := Lower(provider);
    if lower in ChineseLlmProviders then
      var config := ChineseLlmProviders[lower];
      if config.modelPrefix != "" then config.modelPrefix + model else model
    else provider
  }

  /** The caller's params after `base_url` is written for a table provider that has one. */
  function WithBaseUrl(params: map<string, Json>, provider: string): (r: map<string, Json>)
    ensures r.Keys == params.Keys || r.Keys == params.Keys + {"base_url"}
    ensures forall k :: k in params && k != "base_url" ==> r[k] == params[k]
    // `base_url` is written exactly for a table provider with an endpoint of its own, and holds that endpoint.
    ensures Lower(provider) in ChineseLlmProviders && ChineseLlmProviders[Lower(provider)].baseUrl.Some? ==>
              "base_url" in r && r["base_url"] == JString(ChineseLlmProviders[Lower(provider)].baseUrl.value)
    ensures !(Lower(provider) in ChineseLlmProviders && ChineseLlmProviders[Lower(provider)].baseUrl.Some?) ==> r == params
  {
    var lower := Lower(provider);
    if lower in ChineseLlmProviders && ChineseLlmProviders[lower].baseUrl.Some? then
      params["base_url" := JString(ChineseLlmProviders[lower].baseUrl.value)]
    else params
  }

  /** Deepseek keeps its default endpoint: the caller's params are left as they were. */
  lemma DeepseekWritesNoBaseUrl(params: map<string, Json>, provider: string)
    requires Lower(provider) == "deepseek"
    ensures WithBaseUrl(params, provider) == params
    ensures ExtractionProvider(provider, "deepseek-chat") == "deepseek/deepseek-chat"
  {
  }

  /** Qwen, however it is capitalised, goes through the OpenAI-compatible route. */
  lemma QwenUsesCompatibleEndpoint(params: map<string, Json>, provider: string, model: string)
    requires Lower(provider) == "qwen"
    ensures WithBaseUrl(params, provider)["base_url"] == JString("https://dashscope.aliyuncs.com/compatible-mode/v1")
    ensures ExtractionProvider(provider, model) == "openai/" + model
  {
  }

  /** The keyword names the strategy is called with explicitly besides `**params`. */
  const StrategyKeywords: set<string> := {"provider", "api_token", "instruction", "schema"}

  // ---------------------------------------------------------------------------
  // crawl_url

  /** The caller's params dict, shared by reference with the stored task. */
  class Params {
    var entries: map<string, Json>

    constructor (entries: map<string, Json>)
      ensures this.entries == entries
    {
      this.entries := entries;
    }
  }

  /** The `llm_config` dict; `None` fields are absent keys. */
  datatype LlmConfig = LlmConfig(provider: Option<string>, model: Option<string>, params: Option<Params>)

  /** A dict is truthy when it has a key. */
  predicate LlmConfigGiven(llm: Option<LlmConfig>) {
    llm.Some? && (llm.value.provider.Some? || llm.value.model.Some? || llm.value.params.Some?)
  }

  function CallerParams(llm: Option<LlmConfig>): set<object> {
    if llm.Some? && llm.value.params.Some? then {llm.value.params.value} else {}
  }

  datatype Strategy = Strategy(provider: string, apiToken: Json, instruction: string, schema: Json, extra: map<string, Json>)

  /** The keyword arguments of `arun`; the cache mode is always BYPASS and is left implicit. */
  datatype CrawlParams = CrawlParams(
    url: string, jsCode: Option<Json>, waitFor: Option<Json>, cssSelector: Option<Json>,
    screenshot: bool, pdf: bool, strategy: Option<Strategy>)

  /** An optional parameter is passed on only when the configuration's value is truthy. */
  function OptionalParam(config: map<string, Json>, key: string): (r: Option<Json>)
    ensures r.Some? <==> Truthy(Get(config, key))
    ensures r.Some? ==> key in config && r.value == config[key]
  {
    if Truthy(Get(config, key)) then Some(config[key]) else None
  }

  /** A strategy is built when an LLM configuration and a non-empty prompt are given. */
  predicate StrategyRequested(llm: Option<LlmConfig>, prompt: Option<string>) {
    LlmConfigGiven(llm) && prompt.Some? && prompt.value != ""
  }

  /** The provider the strategy is built for, "openai" when the configuration names none. */
  function ProviderOf(llm: Option<LlmConfig>): string {
    if llm.Some? then llm.value.provider.GetOr("openai") else "openai"
  }

  /** What the caller's params dict holds; no dict reads as an empty one. */
  function ParamsEntries(llm: Option<LlmConfig>): map<string, Json>
    reads CallerParams(llm)
  {
    if llm.Some? && llm.value.params.Some? then llm.value.params.value.entries else map[]
  }

  /** The caller's params after one `crawl_url`: `base_url` is written into the shared dict. */
  function ParamsAfter(llm: Option<LlmConfig>, prompt: Option<string>, before: map<string, Json>): map<string, Json> {
    if StrategyRequested(llm, prompt) && llm.value.params.Some? then WithBaseUrl(before, ProviderOf(llm)) else before
  }

  /**
    The parameters `crawl_url` hands the engine, given what the caller's params dict
    holds beforehand. A failure carries the keywords that the params would pass twice
    to the strategy, which raises `TypeError`.
  */
  function CrawlParamsOf(url: string, config: map<string, Json>, llm: Option<LlmConfig>, prompt: Option<string>,
                         schema: Json, before: map<string, Json>): (r: Result<CrawlParams, set<string>>)
    ensures r.Success? ==>
              r.value.url == url && r.value.jsCode == OptionalParam(config, "js_code") &&
              r.value.waitFor == OptionalParam(config, "wait_for") &&
              r.value.cssSelector == OptionalParam(config, "css_selector") &&
              r.value.screenshot == Truthy(Get(config, "screenshot")) && r.value.pdf == Truthy(Get(config, "pdf"))
    // Without both an LLM configuration and a prompt there is no strategy.
    ensures !StrategyRequested(llm, prompt) ==> r.Success? && r.value.strategy.None?
    // With them, the strategy fails exactly on a clash with its explicit keywords.
    ensures StrategyRequested(llm, prompt) ==>
              var provider := ProviderOf(llm);
              var model := llm.value.model.GetOr("gpt-4");
              (r.Failure? <==> before.Keys * StrategyKeywords != {}) &&
              (r.Failure? ==> r.error == before.Keys * StrategyKeywords) &&
              (r.Success? ==>
                 r.value.strategy == Some(Strategy(ExtractionProvider(provider, model), Get(before, "api_key"),
                                                   prompt.value, schema, WithBaseUrl(before, provider))))
  {
    var params := CrawlParams(url, OptionalParam(config, "js_code"), OptionalParam(config, "wait_for"),
                              OptionalParam(config, "css_selector"), Truthy(Get(config, "screenshot")),
                              Truthy(Get(config, "pdf")), None);
    if !StrategyRequested(llm, prompt) then Success(params)
    else
      var provider := ProviderOf(llm);
      var after := WithBaseUrl(before, provider);
      var clashes := after.Keys * StrategyKeywords;
      if clashes != {} then Failure(clashes)
      else
        Success(params.(strategy := Some(Strategy(ExtractionProvider(provider, llm.value.model.GetOr("gpt-4")),
                                                  Get(before, "api_key"), prompt.value, schema, after))))
  }

  /**
    Writing `base_url` again changes nothing: every `crawl_url` of a run assembles the
    same parameters from the shared dict as the first one.
  */
  lemma CrawlParamsStable(url: string, config: map<string, Json>, llm: Option<LlmConfig>, prompt: Option<string>,
                          schema: Json, before: map<string, Json>)
    ensures ParamsAfter(llm, prompt, ParamsAfter(llm, prompt, before)) == ParamsAfter(llm, prompt, before)
    ensures CrawlParamsOf(url, config, llm, prompt, schema, ParamsAfter(llm, prompt, before)) ==
            CrawlParamsOf(url, config, llm, prompt, schema, before)
  {
    if StrategyRequested(llm, prompt) && llm.value.params.Some? {
      var provider := ProviderOf(llm);
      var after := WithBaseUrl(before, provider);
      assert WithBaseUrl(after, provider) == after;
      assert "api_key" != "base_url";
      assert Get(after, "api_key") == Get(before, "api_key");
      assert after.Keys * StrategyKeywords == before.Keys * StrategyKeywords;
    }
  }

  /**
    The parameter assembly of `crawl_url`: `base_url` is written into the caller's dict
    before the strategy is built, so it stays written when the strategy then fails.
  */
  method BuildCrawlParams(url: string, config: map<string, Json>, llm: Option<LlmConfig>,
                          prompt: Option<string>, schema: Json)
    returns (r: Result<CrawlParams, set<string>>)
    modifies CallerParams(llm)
    ensures r == CrawlParamsOf(url, config, llm, prompt, schema, old(ParamsEntries(llm)))
    ensures ParamsEntries(llm) == ParamsAfter(llm, prompt, old(ParamsEntries(llm)))
    ensures !StrategyRequested(llm, prompt) ==> unchanged(CallerParams(llm))
  {
    var params := CrawlParams(url, OptionalParam(config, "js_code"), OptionalParam(config, "wait_for"),
                              OptionalParam(config, "css_selector"), Truthy(Get(config, "screenshot")),
                              Truthy(Get(config, "pdf")), None);
    if LlmConfigGiven(llm) && prompt.Some? && prompt.value != "" {
      var provider := llm.value.provider.GetOr("openai");
      var model := llm.value.model.GetOr("gpt-4");
      var dict: Params;
      if llm.value.params.Some? {
        dict := llm.value.params.value;
      } else {
        dict := new Params(map[]);
      }
      var apiKey := Get(dict.entries, "api_key");
      var fullModel := provider;
      var lower := Lower(provider);
      if lower in ChineseLlmProviders {
        var providerConfig := ChineseLlmProviders[lower];
        if providerConfig.modelPrefix != "" {
          fullModel := providerConfig.modelPrefix + model;
        } else {
          fullModel := model;
        }
        if providerConfig.baseUrl.Some? {
          dict.entries := dict.entries["base_url" := JString(providerConfig.baseUrl.value)];
        }
      }
      var clashes := dict.entries.Keys * StrategyKeywords;
      if clashes != {} {
        return Failure(clashes);
      }
      params := params.(strategy := Some(Strategy(fullModel, apiKey, prompt.value, schema, dict.entries)));
    }
    return Success(params);
  }

  /** What the engine's `arun` gives back; `EngineRaised` is an exception. */
  datatype EngineOutcome =
    | EngineRaised(message: string)
    | EngineResult(
        success: bool, errorMessage: Json, html: Json, markdown: Markdown, cleanedHtml: Json,
        title: Json, description: Json, language: Json, keywords: Json,
        links: map<string, Json>, media: map<string, Json>,
        extractedContent: Json, screenshot: Json, pdf: Json)

  /** `d.get(key, default)`. */
  function GetOr(fields: map<string, Json>, key: string, default: Json): Json {
    if key in fields then fields[key] else default
  }

  /** The error entry of a crawl whose strategy could not be built. */
  const DuplicateKeywordMessage := "got multiple values for keyword argument"

  function FailedCrawl(url: string, error: Json): (r: map<string, Json>)
    ensures r.Keys == {"success", "url", "error"} && r["success"] == JBool(false)
  {
    map["success" := JBool(false), "url" := JString(url), "error" := error]
  }

  /** The `TypeError` message of `json.loads` given a value that is not text. */
  function LoadsTypeMessage(v: Json): string {
    "the JSON object must be str, bytes or bytearray, not " + TypeName(v)
  }

  /** What `json.loads` makes of extracted content, falling back to `{'raw': content}`. */
  function StructuredData(content: string, parse: string -> Option<Json>): (r: Json)
    ensures parse(content).Some? ==> r == parse(content).value
    ensures parse(content).None? ==> r == JObject(map["raw" := JString(content)]) && Truthy(r)
  {
    match parse(content)
    case Some(decoded) => decoded
    case None =>
      assert "raw" in map["raw" := JString(content)];
      JObject(map["raw" := JString(content)])
  }

  /** The dict of a successful crawl before the extracted content is parsed. */
  function SuccessfulCrawl(url: string, config: map<string, Json>, outcome: EngineOutcome): (r: map<string, Json>)
    requires outcome.EngineResult?
    ensures {"success", "url", "markdown", "metadata", "media", "screenshot", "pdf"} <= r.Keys
    ensures "structured_data" !in r
    ensures r["success"] == JBool(true) && r["url"] == JString(url)
    ensures r["markdown"] == OfOptString(ExtractMarkdownString(outcome.markdown))
    ensures r["metadata"].JObject? && r["media"].JObject?
    ensures r["screenshot"] == (if Truthy(Get(config, "screenshot")) then outcome.screenshot else JNull)
    ensures r["pdf"] == (if Truthy(Get(config, "pdf")) then outcome.pdf else JNull)
  {
    map[
      "success" := JBool(true),
      "url" := JString(url),
      "html" := outcome.html,
      "markdown" := OfOptString(ExtractMarkdownString(outcome.markdown)),
      "cleaned_html" := outcome.cleanedHtml,
      "metadata" := JObject(map["title" := outcome.title, "description" := outcome.description,
                                "language" := outcome.language, "keywords" := outcome.keywords]),
      "links" := JObject(map["internal" := GetOr(outcome.links, "internal", JArray([])),
                             "external" := GetOr(outcome.links, "external", JArray([]))]),
      "media" := JObject(map["images" := GetOr(outcome.media, "images", JArray([])),
                             "videos" := GetOr(outcome.media, "videos", JArray([])),
                             "audios" := GetOr(outcome.media, "audios", JArray([]))]),
      "extracted_content" := outcome.extractedContent,
      "screenshot" := if Truthy(Get(config, "screenshot")) then outcome.screenshot else JNull,
      "pdf" := if Truthy(Get(config, "pdf")) then outcome.pdf else JNull]
  }

  /** The result dict `crawl_url` builds from the engine's outcome. */
  function CrawlResult(url: string, config: map<string, Json>, outcome: EngineOutcome, parse: string -> Option<Json>)
    : (r: map<string, Json>)
    ensures "success" in r && "url" in r && r["url"] == JString(url) && r["success"].JBool?
    // A raised or reported failure is exactly the three-key error dict.
    ensures !r["success"].b ==> r.Keys == {"success", "url", "error"}
    ensures outcome.EngineRaised? ==> r == FailedCrawl(url, JString(outcome.message))
    ensures outcome.EngineResult? && !outcome.success ==> r == FailedCrawl(url, outcome.errorMessage)
    ensures r["success"].b ==>
              outcome.EngineResult? && outcome.success && {"markdown", "screenshot", "pdf"} <= r.Keys &&
              r["markdown"] == OfOptString(ExtractMarkdownString(outcome.markdown)) &&
              r["screenshot"] == (if Truthy(Get(config, "screenshot")) then outcome.screenshot else JNull) &&
              r["pdf"] == (if Truthy(Get(config, "pdf")) then outcome.pdf else JNull)
    ensures r["success"].b ==>
              "metadata" in r && r["metadata"].JObject? && "media" in r && r["media"].JObject?
    // Structured data appears exactly for truthy extracted text, parsed or wrapped.
    ensures r["success"].b ==>
              ("structured_data" in r <==> Truthy(outcome.extractedContent)) &&
              ("structured_data" in r ==>
                 outcome.extractedContent.JString? && r["structured_data"] == StructuredData(outcome.extractedContent.s, parse))
    // Truthy extracted content that is not text makes `json.loads` raise.
    ensures outcome.EngineResult? && outcome.success && Truthy(outcome.extractedContent) ==>
              outcome.extractedContent.JString? ||
              r == FailedCrawl(url, JString(LoadsTypeMessage(outcome.extractedContent)))
  {
    match outcome
    case EngineRaised(message) => FailedCrawl(url, JString(message))
    case EngineResult(_, _, _, _, _, _, _, _, _, _, _, _, _, _) =>
      if !outcome.success then FailedCrawl(url, outcome.errorMessage)
      else
        var base := SuccessfulCrawl(url, config, outcome);
        if !Truthy(outcome.extractedContent) then base
        else if !outcome.extractedContent.JString? then FailedCrawl(url, JString(LoadsTypeMessage(outcome.extractedContent)))
        else base["structured_data" := StructuredData(outcome.extractedContent.s, parse)]
  }

  /**
    The dict `crawl_url` returns for the outcome of its parameter assembly: the engine
    runs on the assembled parameters, and a strategy that cannot be built is the
    duplicate-keyword error.
  */
  function CrawlOutcome(url: string, config: map<string, Json>, params: Result<CrawlParams, set<string>>,
                        engine: CrawlParams -> EngineOutcome, parse: string -> Option<Json>): (r: map<string, Json>)
    ensures params.Success? ==> r == CrawlResult(url, config, engine(params.value), parse)
    ensures params.Failure? ==> r == FailedCrawl(url, JString(DuplicateKeywordMessage))
    ensures "success" in r && r["success"].JBool? && "url" in r && r["url"] == JString(url)
    ensures !r["success"].b ==> r.Keys == {"success", "url", "error"}
    ensures r["success"].b ==>
              "metadata" in r && r["metadata"].JObject? && "media" in r && r["media"].JObject?
  {
    match params
    case Success(p) => CrawlResult(url, config, engine(p), parse)
    case Failure(_) => FailedCrawl(url, JString(DuplicateKeywordMessage))
  }

  /**
    `crawl_url`: assembles the parameters, runs the engine on them and shapes the
    result; every exception becomes the three-key error dict.
  */
  method CrawlUrl(url: string, config: map<string, Json>, llm: Option<LlmConfig>, prompt: Option<string>,
                  schema: Json, engine: CrawlParams -> EngineOutcome, parse: string -> Option<Json>)
    returns (r: map<string, Json>)
    modifies CallerParams(llm)
    ensures r == CrawlOutcome(url, config, CrawlParamsOf(url, config, llm, prompt, schema, old(ParamsEntries(llm))),
                              engine, parse)
    ensures ParamsEntries(llm) == ParamsAfter(llm, prompt, old(ParamsEntries(llm)))
    ensures !StrategyRequested(llm, prompt) ==> unchanged(CallerParams(llm))
  {
    var params := BuildCrawlParams(url, config, llm, prompt, schema);
    if params.Failure? {
      return FailedCrawl(url, JString(DuplicateKeywordMessage));
    }
    r := CrawlResult(url, config, engine(params.value), parse);
  }

  // ---------------------------------------------------------------------------
  // download_resource

  const MiB := 1048576

  /** An HTTP response, or an exception raised while getting one. */
  datatype Response =
    | Unreachable
    | Response(status: int, contentLength: Option<string>, contentType: Option<string>, content: seq<bv8>)

  /** A download `download_resource` reports as successful. */
  datatype Download = Download(content: seq<bv8>, sizeBytes: nat, mimeType: string, filename: string)

  /** `Path(p).name`: the last component pathlib keeps, or "" when there is none. */
  function PathName(p: string): (r: string)
    ensures r == "" <==> Components(p) == []
    ensures r != "" ==> r == Components(p)[|Components(p)| - 1]
  {
    var parts := Components(p);
    if parts == [] then "" else parts[|parts| - 1]
  }

  /** The size the HEAD response declares, when it declares a readable one. */
  function DeclaredSize(head: Response, toInt: string -> Option<int>): (r: Option<int>)
    ensures r.Some? ==>
              head.Response? && head.contentLength.Some? && head.contentLength.value != "" &&
              toInt(head.contentLength.value) == r
    ensures head.Response? && head.contentLength.Some? && head.contentLength.value != "" ==>
              r == toInt(head.contentLength.value)
  {
    if head.Unreachable? || head.contentLength.None? || head.contentLength.value == "" then None
    else toInt(head.contentLength.value)
  }

  /** `raise_for_status` lets only 2xx answers through. */
  predicate Successful(response: Response) {
    response.Response? && 200 <= response.status < 300
  }

  /**
    `download_resource`: the HEAD answer can veto an oversized resource (its failures
    are ignored), the GET answer must succeed and fit the cap, and the file name is the
    last component of the URL's path or `resource_<token>`.
  */
  function DownloadResource(url: string, maxSizeMb: int, head: Response, get: Response,
                            toInt: string -> Option<int>, urlPath: string -> string, token: string)
    : (r: Option<Download>)
    ensures r.None? <==>
              (DeclaredSize(head, toInt).Some? && DeclaredSize(head, toInt).value > maxSizeMb * MiB) ||
              !Successful(get) || |get.content| > maxSizeMb * MiB
    ensures r.Some? ==> r.value.content == get.content && r.value.sizeBytes == |get.content| <= maxSizeMb * MiB
    ensures r.Some? ==> r.value.mimeType == get.contentType.GetOr("application/octet-stream")
    ensures r.Some? ==> r.value.filename != ""
    ensures r.Some? ==>
              r.value.filename == (if PathName(urlPath(url)) != "" then PathName(urlPath(url)) else "resource_" + token)
  {
    var declared := DeclaredSize(head, toInt);
    if declared.Some? && declared.value > maxSizeMb * MiB then None
    else if !Successful(get) then None
    else if |get.content| > maxSizeMb * MiB then None
    else
      var name := PathName(urlPath(url));
      Some(Download(get.content, |get.content|, get.contentType.GetOr("application/octet-stream"),
                    if name != "" then name else "resource_" + token))
  }

  /** A resource within the cap behind a reachable server is downloaded whatever HEAD says below the cap. */
  lemma HeadFailureIgnored(url: string, maxSizeMb: int, get: Response, toInt: string -> Option<int>,
                           urlPath: string -> string, token: string)
    requires Successful(get) && |get.content| <= maxSizeMb * MiB
    ensures DownloadResource(url, maxSizeMb, Unreachable, get, toInt, urlPath, token).Some?
  {
  }

  /** Joining with "/" and splitting again gives the segments back. */
  lemma {:induction false} SplitJoinedSegments(xs: seq<string>)
    requires |xs| >= 1 && forall i :: 0 <= i < |xs| ==> '/' !in xs[i]
    ensures Split(Join(xs, "/"), "/") == xs
  {
    assert ['/'] + "" == "/";
    SplitJoin("", xs, '/', "");
    assert "" + Join(xs, "/") == Join(xs, "/");
    var rest := PrefixAll("", xs[1..]);
    assert rest == xs[1..] by {
      forall i | 0 <= i < |rest| ensures rest[i] == xs[1..][i] {
        assert "" + xs[1..][i] == xs[1..][i];
      }
    }
    assert "" + xs[0] == xs[0];
    assert [xs[0]] + xs[1..] == xs;
  }

  lemma {:induction false} KeptAppend(xs: seq<string>, name: string)
    requires name != "" && name != "."
    ensures Kept(xs + [name]) == Kept(xs) + [name]
  {
    if xs == [] {
      assert [] + [name] == [name];
      assert Kept([name]) == [name] + Kept([]);
    } else {
      assert (xs + [name])[1..] == xs[1..] + [name];
      KeptAppend(xs[1..], name);
    }
  }

  /** The file name of a URL path is its last segment. */
  lemma PathNameIsLastSegment(dirs: seq<string>, name: string)
    requires forall i :: 0 <= i < |dirs| ==> '/' !in dirs[i]
    requires '/' !in name && name != "" && name != "."
    ensures PathName(Join(dirs + [name], "/")) == name
  {
    var c := Components(Join(dirs + [name], "/"));
    ComponentsOfJoined(dirs, name);
    assert c[|c| - 1] == name;
  }

  lemma ComponentsOfJoined(dirs: seq<string>, name: string)
    requires forall i :: 0 <= i < |dirs| ==> '/' !in dirs[i]
    requires '/' !in name && name != "" && name != "."
    ensures Components(Join(dirs + [name], "/")) == Kept(dirs) + [name]
  {
    var segs := dirs + [name];
    assert forall i :: 0 <= i < |segs| ==> '/' !in segs[i];
    SplitJoinedSegments(segs);
    KeptAppend(dirs, name);
  }

  // ---------------------------------------------------------------------------
  // generate_minio_path

  /** `generate_minio_path`, with today's date (`%Y-%m-%d`) as a parameter. */
  function MinioPath(today: string, runId: string, resourceType: string, filename: string): (r: string)
    ensures StartsWith(r, today + "/" + runId + "/")
  {
    today + "/" + runId + "/" + resourceType + "/" + filename
  }

  /** With slash-free parts the object path splits back into date, run, type and name. */
  lemma MinioPathSegments(today: string, runId: string, resourceType: string, filename: string)
    requires '/' !in today && '/' !in runId && '/' !in resourceType && '/' !in filename
    ensures Split(MinioPath(today, runId, resourceType, filename), "/") == [today, runId, resourceType, filename]
  {
    SplitJoinedSegments([today, runId, resourceType, filename]);
    assert Join([today, runId, resourceType, filename], "/") == MinioPath(today, runId, resourceType, filename) by {
      assert [today, runId, resourceType, filename][1..] == [runId, resourceType, filename];
      assert [runId, resourceType, filename][1..] == [resourceType, filename];
      assert [resourceType, filename][1..] == [filename];
      assert Join([resourceType, filename], "/") == resourceType + "/" + filename;
      assert Join([runId, resourceType, filename], "/") == runId + "/" + (resourceType + "/" + filename);
    }
  }
}
