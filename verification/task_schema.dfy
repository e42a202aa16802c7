/**
  Validation of task definitions: the crawl configuration with its defaults, the task
  configuration with its bounds, defaults and URL check, and the partial update
  request. Values arrive as decoded JSON; each validator either returns the validated
  value or the list of field errors, in declaration order.
*/
module TaskSchema {
  import opened Wrappers
  import opened Json
  import opened Text
  import ContentSelector

  const MaxNameLength := 255
  const DefaultFallbackMaxSizeMb := 10

  datatype FieldError =
    | Missing(field: string)
    | WrongType(field: string)
    | NameTooShort
    | NameTooLong
    | NoUrls
    | InvalidUrl(url: string)

  // ---------------------------------------------------------------------------
  // CrawlConfigSchema

  /** The crawl options a task may carry; anything else in the input is dropped. */
  datatype CrawlConfig = CrawlConfig(
    jsCode: Option<string>, waitFor: Option<string>, cssSelector: Option<string>,
    screenshot: bool, pdf: bool, verbose: bool)

  const DefaultCrawlConfig := CrawlConfig(None, None, None, false, false, true)

  const CrawlConfigKeys: set<string> := {"js_code", "wait_for", "css_selector", "screenshot", "pdf", "verbose"}

  /** An optional string field: absent and null are `None`. */
  function StringField(m: map<string, Json>, key: string): (r: Result<Option<string>, FieldError>)
    ensures r.Success? <==> Get(m, key).JNull? || Get(m, key).JString?
    ensures r.Success? ==> (r.value.None? <==> Get(m, key) == JNull)
    ensures r.Success? && r.value.Some? ==> Get(m, key) == JString(r.value.value)
  {
    match Get(m, key)
    case JNull => Success(None)
    case JString(s) => Success(Some(s))
    case _ => Failure(WrongType(key))
  }

  /** A boolean field with a default for an absent key. */
  function BoolField(m: map<string, Json>, key: string, default: bool): (r: Result<bool, FieldError>)
    ensures key !in m ==> r == Success(default)
    ensures key in m ==> (r.Success? <==> m[key].JBool?)
    ensures key in m && r.Success? ==> m[key] == JBool(r.value)
  {
    if key !in m then Success(default)
    else if m[key].JBool? then Success(m[key].b)
    else Failure(WrongType(key))
  }

  /** The errors of one field, as a list of zero or one. */
  function ErrorsOf<T>(r: Result<T, FieldError>): seq<FieldError> {
    if r.Failure? then [r.error] else []
  }

  /** `CrawlConfigSchema(**m)`. */
  function ParseCrawlConfig(m: map<string, Json>): (r: Result<CrawlConfig, seq<FieldError>>)
    // Valid exactly when every text field is text or null and every flag given is a boolean.
    ensures r.Success? <==>
              (Get(m, "js_code").JNull? || Get(m, "js_code").JString?) &&
              (Get(m, "wait_for").JNull? || Get(m, "wait_for").JString?) &&
              (Get(m, "css_selector").JNull? || Get(m, "css_selector").JString?) &&
              ("screenshot" in m ==> m["screenshot"].JBool?) &&
              ("pdf" in m ==> m["pdf"].JBool?) &&
              ("verbose" in m ==> m["verbose"].JBool?)
    ensures r.Failure? ==> r.error != []
    ensures r.Success? ==>
              OfOptString(r.value.jsCode) == Get(m, "js_code") &&
              OfOptString(r.value.waitFor) == Get(m, "wait_for") &&
              OfOptString(r.value.cssSelector) == Get(m, "css_selector") &&
              r.value.screenshot == (if "screenshot" in m then m["screenshot"] == JBool(true) else false) &&
              r.value.pdf == (if "pdf" in m then m["pdf"] == JBool(true) else false) &&
              r.value.verbose == (if "verbose" in m then m["verbose"] == JBool(true) else true)
  {
    var js := StringField(m, "js_code");
    var wait := StringField(m, "wait_for");
    var css := StringField(m, "css_selector");
    var shot := BoolField(m, "screenshot", false);
    var pdf := BoolField(m, "pdf", false);
    var verbose := BoolField(m, "verbose", true);
    var errors := ErrorsOf(js) + ErrorsOf(wait) + ErrorsOf(css) + ErrorsOf(shot) + ErrorsOf(pdf) + ErrorsOf(verbose);
    if errors != [] then Failure(errors)
    else Success(CrawlConfig(js.value, wait.value, css.value, shot.value, pdf.value, verbose.value))
  }

  /** `model_dump()` of a crawl configuration: all six keys, nothing else. */
  function DumpCrawlConfig(c: CrawlConfig): (r: map<string, Json>)
    ensures r.Keys == CrawlConfigKeys
  {
    map["js_code" := OfOptString(c.jsCode), "wait_for" := OfOptString(c.waitFor),
        "css_selector" := OfOptString(c.cssSelector), "screenshot" := JBool(c.screenshot),
        "pdf" := JBool(c.pdf), "verbose" := JBool(c.verbose)]
  }

  /** Dumping and re-validating a crawl configuration gives it back. */
  lemma CrawlConfigRoundTrip(c: CrawlConfig)
    ensures ParseCrawlConfig(DumpCrawlConfig(c)) == Success(c)
  {
    var m := DumpCrawlConfig(c);
    assert StringField(m, "js_code") == Success(c.jsCode);
    assert StringField(m, "wait_for") == Success(c.waitFor);
    assert StringField(m, "css_selector") == Success(c.cssSelector);
  }

  /** Keys outside the schema never influence validation. */
  lemma CrawlConfigIgnoresExtraKeys(m: map<string, Json>, extra: map<string, Json>)
    requires extra.Keys !! CrawlConfigKeys
    ensures ParseCrawlConfig(m + extra) == ParseCrawlConfig(m)
  {
    assert forall k :: k in CrawlConfigKeys ==> Get(m + extra, k) == Get(m, k) && (k in m + extra <==> k in m);
  }

  /**
    A stored crawl configuration has no `content_selector` key, so the selector chosen
    for a task created through the API is the legacy `css_selector` or the heuristic,
    never a user-provided content selector.
  */
  lemma StoredConfigNeverSelectsUserContentSelector(c: CrawlConfig)
    ensures "content_selector" !in DumpCrawlConfig(c)
    ensures ContentSelector.SelectContentSelector(DumpCrawlConfig(c)).reason != ContentSelector.UserProvidedReason
  {
    var m := DumpCrawlConfig(c);
    assert Get(m, "content_selector") == JNull;
    assert ContentSelector.UserProvidedReason != ContentSelector.LegacyReason;
    assert ContentSelector.UserProvidedReason != ContentSelector.HeuristicReason;
  }

  // ---------------------------------------------------------------------------
  // TaskConfigSchema

  predicate IsHttpUrl(url: string) {
    StartsWith(url, "http://") || StartsWith(url, "https://")
  }

  /** The index of the first URL with neither accepted scheme. */
  function FirstInvalidUrl(urls: seq<string>): (r: Option<nat>)
    ensures r.None? <==> forall i :: 0 <= i < |urls| ==> IsHttpUrl(urls[i])
    ensures r.Some? ==> r.value < |urls| && !IsHttpUrl(urls[r.value])
    ensures r.Some? ==> forall j :: 0 <= j < r.value ==> IsHttpUrl(urls[j])
  {
    if urls == [] then None
    else if !IsHttpUrl(urls[0]) then Some(0)
    else match FirstInvalidUrl(urls[1..])
      case None => None
      case Some(i) => Some(i + 1)
  }

  /** `validate_urls`: a non-empty list of http(s) URLs passes unchanged. */
  function ValidateUrls(urls: seq<string>): (r: Result<seq<string>, FieldError>)
    ensures urls == [] ==> r == Failure(NoUrls)
    ensures r.Success? <==> urls != [] && forall i :: 0 <= i < |urls| ==> IsHttpUrl(urls[i])
    ensures r.Success? ==> r.value == urls
    // The error names the first offending URL.
    ensures r.Failure? && urls != [] ==>
              exists i :: 0 <= i < |urls| && r.error == InvalidUrl(urls[i]) && !IsHttpUrl(urls[i]) &&
                          forall j :: 0 <= j < i ==> IsHttpUrl(urls[j])
  {
    if urls == [] then Failure(NoUrls)
    else match FirstInvalidUrl(urls)
      case None => Success(urls)
      case Some(i) => Failure(InvalidUrl(urls[i]))
  }

  function ValidateName(name: string): (r: Result<string, FieldError>)
    ensures r.Success? <==> 1 <= |name| <= MaxNameLength
    ensures r.Success? ==> r.value == name
  {
    if |name| < 1 then Failure(NameTooShort)
    else if |name| > MaxNameLength then Failure(NameTooLong)
    else Success(name)
  }

  /** Whether an optional field was left out, given as null, or given a value. */
  datatype Field<T> = Absent | Null | Given(value: T)

  /**
    The fields of a task definition as they arrive. The cut-off date `only_after_date`
    is carried as the text it arrives as.
  */
  datatype TaskInput = TaskInput(
    name: Option<string>, description: Option<string>, urls: Option<seq<string>>,
    crawlConfig: Field<map<string, Json>>,
    llmProvider: Option<string>, llmModel: Option<string>, llmParams: Option<map<string, Json>>,
    promptTemplate: Option<string>, outputSchema: Option<map<string, Json>>,
    deduplicationEnabled: Option<bool>, onlyAfterDate: Option<string>,
    fallbackDownloadEnabled: Option<bool>, fallbackMaxSizeMb: Option<int>)

  /** A validated task definition. */
  datatype TaskConfig = TaskConfig(
    name: string, description: Option<string>, urls: seq<string>,
    crawlConfig: Option<CrawlConfig>,
    llmProvider: Option<string>, llmModel: Option<string>, llmParams: Option<map<string, Json>>,
    promptTemplate: Option<string>, outputSchema: Option<map<string, Json>>,
    deduplicationEnabled: bool, onlyAfterDate: Option<string>,
    fallbackDownloadEnabled: bool, fallbackMaxSizeMb: int)

  function NameErrors(name: Option<string>): seq<FieldError> {
    if name.None? then [Missing("name")] else ErrorsOf(ValidateName(name.value))
  }

  function UrlErrors(urls: Option<seq<string>>): seq<FieldError> {
    if urls.None? then [Missing("urls")] else ErrorsOf(ValidateUrls(urls.value))
  }

  function CrawlConfigErrors(c: Field<map<string, Json>>): seq<FieldError> {
    if c.Given? && ParseCrawlConfig(c.value).Failure? then ParseCrawlConfig(c.value).error else []
  }

  /** `TaskConfigSchema(**input)`. */
  function ValidateTask(input: TaskInput): (r: Result<TaskConfig, seq<FieldError>>)
    ensures r.Success? <==>
              input.name.Some? && 1 <= |input.name.value| <= MaxNameLength &&
              input.urls.Some? && ValidateUrls(input.urls.value).Success? &&
              (input.crawlConfig.Given? ==> ParseCrawlConfig(input.crawlConfig.value).Success?)
    ensures r.Failure? ==> r.error != []
    ensures r.Success? ==>
              r.value.name == input.name.value && r.value.urls == input.urls.value &&
              r.value.deduplicationEnabled == input.deduplicationEnabled.GetOr(true) &&
              r.value.onlyAfterDate == input.onlyAfterDate && r.value.description == input.description &&
              r.value.llmProvider == input.llmProvider && r.value.llmModel == input.llmModel &&
              r.value.llmParams == input.llmParams && r.value.promptTemplate == input.promptTemplate &&
              r.value.outputSchema == input.outputSchema &&
              r.value.fallbackDownloadEnabled == input.fallbackDownloadEnabled.GetOr(true) &&
              r.value.fallbackMaxSizeMb == input.fallbackMaxSizeMb.GetOr(DefaultFallbackMaxSizeMb) &&
              r.value.crawlConfig == (match input.crawlConfig
                                      case Absent => Some(DefaultCrawlConfig)
                                      case Null => None
                                      case Given(m) => Some(ParseCrawlConfig(m).value))
  {
    var errors := NameErrors(input.name) + UrlErrors(input.urls) + CrawlConfigErrors(input.crawlConfig);
    if errors != [] then Failure(errors)
    else
      var crawl := match input.crawlConfig
        case Absent => Some(DefaultCrawlConfig)
        case Null => None
        case Given(m) => Some(ParseCrawlConfig(m).value);
      Success(TaskConfig(
        input.name.value, input.description, input.urls.value, crawl,
        input.llmProvider, input.llmModel, input.llmParams, input.promptTemplate, input.outputSchema,
        input.deduplicationEnabled.GetOr(true), input.onlyAfterDate, input.fallbackDownloadEnabled.GetOr(true),
        input.fallbackMaxSizeMb.GetOr(DefaultFallbackMaxSizeMb)))
  }

  /** Every URL of an accepted task has an http or https scheme, and there is at least one. */
  lemma AcceptedTaskHasHttpUrls(input: TaskInput)
    requires ValidateTask(input).Success?
    ensures var urls := ValidateTask(input).value.urls;
      urls != [] && forall i :: 0 <= i < |urls| ==> IsHttpUrl(urls[i])
  {
  }

  // ---------------------------------------------------------------------------
  // TaskUpdateRequest

  const UpdateKeys: set<string> := {
    "name", "description", "urls", "crawl_config", "llm_provider", "llm_model", "llm_params",
    "prompt_template", "output_schema", "deduplication_enabled", "only_after_date",
    "fallback_download_enabled", "fallback_max_size_mb"}

  // Every update field is optional: null, or a value of the declared type.
  predicate OptText(v: Json) { v.JNull? || v.JString? }
  predicate OptTextList(v: Json) { v.JNull? || (v.JArray? && forall j :: 0 <= j < |v.items| ==> v.items[j].JString?) }
  predicate OptFlag(v: Json) { v.JNull? || v.JBool? }
  predicate OptWhole(v: Json) { v.JNull? || v.JInt? }
  predicate OptDict(v: Json) { v.JNull? || v.JObject? }
  /** A date is accepted as text or as a number (a timestamp). */
  predicate OptDate(v: Json) { v.JNull? || v.JString? || v.JInt? }

  /** Each declared update field holds a value of its declared type. */
  predicate UpdateWellTyped(m: map<string, Json>) {
    OptText(Get(m, "name")) && OptText(Get(m, "description")) && OptTextList(Get(m, "urls")) &&
    OptDict(Get(m, "crawl_config")) && OptText(Get(m, "llm_provider")) && OptText(Get(m, "llm_model")) &&
    OptDict(Get(m, "llm_params")) && OptText(Get(m, "prompt_template")) && OptDict(Get(m, "output_schema")) &&
    OptFlag(Get(m, "deduplication_enabled")) && OptDate(Get(m, "only_after_date")) &&
    OptFlag(Get(m, "fallback_download_enabled")) && OptWhole(Get(m, "fallback_max_size_mb"))
  }

  /** The type error of one field, if any. */
  function TypeError(typed: bool, key: string): (r: seq<FieldError>)
    ensures r == [] <==> typed
  {
    if typed then [] else [WrongType(key)]
  }

  /**
    The errors of an update, field by field in declaration order: a wrongly typed field
    reports its type, a name its bounds and a crawl configuration its own errors.
  */
  function UpdateErrors(m: map<string, Json>): (r: seq<FieldError>)
    ensures r == [] <==>
              UpdateWellTyped(m) &&
              (Get(m, "name").JString? ==> 1 <= |Get(m, "name").s| <= MaxNameLength) &&
              (Get(m, "crawl_config").JObject? ==> ParseCrawlConfig(Get(m, "crawl_config").fields).Success?)
  {
    var name := Get(m, "name");
    var crawl := Get(m, "crawl_config");
    (if !OptText(name) then [WrongType("name")] else if name.JString? then ErrorsOf(ValidateName(name.s)) else []) +
    TypeError(OptText(Get(m, "description")), "description") +
    TypeError(OptTextList(Get(m, "urls")), "urls") +
    (if !OptDict(crawl) then [WrongType("crawl_config")]
     else if crawl.JObject? && ParseCrawlConfig(crawl.fields).Failure? then ParseCrawlConfig(crawl.fields).error
     else []) +
    TypeError(OptText(Get(m, "llm_provider")), "llm_provider") +
    TypeError(OptText(Get(m, "llm_model")), "llm_model") +
    TypeError(OptDict(Get(m, "llm_params")), "llm_params") +
    TypeError(OptText(Get(m, "prompt_template")), "prompt_template") +
    TypeError(OptDict(Get(m, "output_schema")), "output_schema") +
    TypeError(OptFlag(Get(m, "deduplication_enabled")), "deduplication_enabled") +
    TypeError(OptDate(Get(m, "only_after_date")), "only_after_date") +
    TypeError(OptFlag(Get(m, "fallback_download_enabled")), "fallback_download_enabled") +
    TypeError(OptWhole(Get(m, "fallback_max_size_mb")), "fallback_max_size_mb")
  }

  /**
    The crawl configuration of an update as `model_dump(exclude_unset=True)` writes it:
    the nested model also keeps only the keys that were given, so no default is filled in.
  */
  function GivenCrawlKeys(fields: map<string, Json>): (r: map<string, Json>)
    ensures r.Keys == fields.Keys * CrawlConfigKeys
    ensures forall k :: k in r ==> r[k] == fields[k]
  {
    map k | k in fields.Keys * CrawlConfigKeys :: fields[k]
  }

  /**
    `TaskUpdateRequest(**m).model_dump(exclude_unset=True)`: the declared keys that were
    given, with a non-null crawl configuration validated and cut down to the crawl keys
    it gave. Every field is type-checked and the name is bounded; the URLs are not
    checked as URLs.
  */
  function ValidateUpdate(m: map<string, Json>): (r: Result<map<string, Json>, seq<FieldError>>)
    ensures r.Success? <==>
              UpdateWellTyped(m) &&
              (Get(m, "name").JString? ==> 1 <= |Get(m, "name").s| <= MaxNameLength) &&
              (Get(m, "crawl_config").JObject? ==> ParseCrawlConfig(Get(m, "crawl_config").fields).Success?)
    ensures r.Success? ==> r.value.Keys == m.Keys * UpdateKeys
    ensures r.Success? ==> forall k :: k in r.value && k != "crawl_config" ==> r.value[k] == m[k]
    ensures r.Success? && Get(m, "crawl_config").JObject? ==>
              r.value["crawl_config"] == JObject(GivenCrawlKeys(Get(m, "crawl_config").fields))
    ensures r.Failure? ==> r.error != []
  {
    var errors := UpdateErrors(m);
    if errors != [] then Failure(errors)
    else
      var crawl := Get(m, "crawl_config");
      var kept := map k | k in m.Keys * UpdateKeys :: m[k];
      if crawl.JObject? then Success(kept["crawl_config" := JObject(GivenCrawlKeys(crawl.fields))])
      else Success(kept)
  }

  /**
    The stored crawl configuration of an accepted update validates to the same
    configuration as the one given: dropping unknown keys loses nothing.
  */
  lemma UpdateCrawlConfigRevalidates(m: map<string, Json>)
    requires ValidateUpdate(m).Success? && Get(m, "crawl_config").JObject?
    ensures ValidateUpdate(m).value["crawl_config"].JObject?
    ensures ParseCrawlConfig(ValidateUpdate(m).value["crawl_config"].fields) == ParseCrawlConfig(Get(m, "crawl_config").fields)
  {
    var given := Get(m, "crawl_config").fields;
    var kept := GivenCrawlKeys(given);
    var extra := map k | k in given.Keys - CrawlConfigKeys :: given[k];
    assert kept + extra == given;
    CrawlConfigIgnoresExtraKeys(kept, extra);
  }

  /**
    An update giving only a CSS selector stores just that selector: the other five
    crawl keys are neither defaulted nor kept from the task.
  */
  lemma UpdateStoresOnlyGivenCrawlKeys(selector: string)
    ensures var given := map["crawl_config" := JObject(map["css_selector" := JString(selector)])];
            ValidateUpdate(given) == Success(given)
  {
    var crawl := map["css_selector" := JString(selector)];
    var given := map["crawl_config" := JObject(crawl)];
    assert ParseCrawlConfig(crawl).Success?;
    assert UpdateWellTyped(given);
    assert UpdateErrors(given) == [];
    assert GivenCrawlKeys(crawl) == crawl;
    var kept := map k | k in given.Keys * UpdateKeys :: given[k];
    assert kept == given;
    assert kept["crawl_config" := JObject(GivenCrawlKeys(crawl))] == given;
  }

  /** An update may empty the URL list or store text that creation would refuse as a URL. */
  lemma UpdateSkipsUrlValidation(urls: seq<string>)
    ensures var given := JArray(seq(|urls|, j requires 0 <= j < |urls| => JString(urls[j])));
            ValidateUpdate(map["urls" := given]) == Success(map["urls" := given])
  {
    var given := JArray(seq(|urls|, j requires 0 <= j < |urls| => JString(urls[j])));
    var m := map["urls" := given];
    assert OptTextList(given);
    assert UpdateErrors(m) == [];
    assert !Get(m, "crawl_config").JObject?;
    assert (map k | k in m.Keys * UpdateKeys :: m[k]) == m;
  }
}
