# mercury4ai crawl pipeline — a Dafny model

This project models the core of mercury4ai, a crawling service. Users define crawl
tasks: URLs, crawl options, an optional LLM extraction prompt and output schema. A
worker then runs each task:

- it skips URLs already registered for the task;
- it crawls each remaining URL;
- it stores a document row per page, uploads the page's objects and records the
  page's images;
- it registers each crawled URL;
- it writes a run manifest and a resource index, and ends the run `completed` or
  `failed`.

Around that loop sit:

- the crawler service: markdown extraction, the LLM provider table, crawl parameters,
  the resource download and the object paths;
- the template loader and resolver, for `@prompt_templates/…` and `@schemas/…`
  references;
- the task service tables: tasks, runs, documents, images, attachments and the URL
  registry;
- task validation;
- the content cleaner;
- the schema filter and the content-selector choice used by the extraction tests.

The model is split into modules by component:

| file | contents |
|---|---|
| `wrappers.dfy` | Option and Result |
| `json.dfy` | decoded JSON values and Python truthiness |
| `text.dfy` | the `str` operations used: `startswith`, `split`, `join`, `strip`, `lower` |
| `paths.dfy` | pathlib lookups on an in-memory file system |
| `schema_filter.dfy` | `filter_by_schema` |
| `content_selector.dfy` | `select_content_selector` |
| `template_loader.dfy` | `resolve_prompt_template`, `resolve_output_schema`, `get_default_prompt_from_env` |
| `template_resolver.dfy` | `resolve_file_reference`, `resolve_schema_reference`, `resolve_template_in_task_data` |
| `task_schema.dfy` | `CrawlConfigSchema`, `TaskConfigSchema`, `TaskUpdateRequest` |
| `task_service.dfy` | the database as a class whose tables are fields; the task, run, document and registry services as its methods |
| `crawler_service.dfy` | `extract_markdown_string`, `crawl_url`, `download_resource`, `generate_minio_path` |
| `content_cleaner.dfy` | `clean_markdown`, `extract_main_content`, `generate_cleaned_json` |
| `crawl_worker.dfy` | `process_image`, the URL loop, `generate_run_manifest`, `generate_resource_index`, `execute_crawl_task_async` |

External systems are parameters of the model:

- **Crawl engine:** a function from URL position and crawl parameters to an outcome.
- **HTTP responses:** values.
- **Object store:** represented by the list of object names written, plus the number of
  uploads that succeed before one raises.
- **Database:** in-memory tables. Injected faults say where a call raises.
- **Clock:** values. `today` is the local date used in object names; `utcToday` is the
  UTC date used in the run's paths.
- **Other parameters:** the random tokens, `json.loads`, `int()` and `urlparse`.

Code that changes state in the source is imperative in the model:

- the database tables are fields of `TaskService.Database`;
- the caller's LLM params dict is the `CrawlerService.Params` class;
- the task data dict is the `TemplateResolver.TaskData` class;
- the URL loop, the image loop, the cleaning passes and the line scans are loops.

Each such method is proved equal to a function, and the properties are proved about
that function.

## Model

| member | source | states |
|---|---|---|
| SchemaFilter.Project | test_schema_filtering.py:49-53 | a key is kept exactly when it is declared and present in the data, and keeps the data's value |
| SchemaFilter.MissingRequired | test_schema_filtering.py:55-56 | a name is reported missing exactly when it is required and was not kept; the report is a subsequence of `required` |
| SchemaFilter.FilterSpec | test_schema_filtering.py:38-58 | these cases pass the data through with nothing missing: no schema, non-dict data, or no declared properties. Otherwise the result is a dict of exactly the declared keys present in the data, with their values, and `missing` lists exactly the required names not kept |
| SchemaFilter.FilterBySchema | test_schema_filtering.py:17-58 | the loop over the declared names returns exactly what `FilterSpec` describes |
| SchemaFilter.FilterIdempotent | test_schema_filtering.py:50-53 | filtering an already filtered result against the same schema changes neither the data nor the missing list |
| SchemaFilter.ExtraErrorFieldDropped | test_integration_fixes.py:104-126 | the output `{title, error}`, under a schema that declares and requires only `title`, filters to `{title}` with nothing missing |
| ContentSelector.SelectContentSelector | test_integration_fixes.py:44-64 | the choice is, in order: a truthy `content_selector` with the user reason; a truthy `css_selector` with the compatibility reason; the heuristic group with its reason. The chosen selector is never falsy |
| ContentSelector.HeuristicSelectorNonEmpty | test_integration_fixes.py:57-63 | the heuristic selector is non-empty and starts with `article` |
| ContentSelector.StripAll | test_integration_fixes.py:63 | stripping keeps the length, and each item is the stripped original |
| ContentSelector.SplitStripInvertsJoin | test_integration_fixes.py:63 | take a non-empty list of comma-free names without surrounding whitespace and join it with `", "`; splitting on `,` and stripping each piece gives the list back |
| ContentSelector.PiecesOfJoin | test_integration_fixes.py:63 | splitting such a join on `,` gives the first name, then each later name behind one space |
| ContentSelector.PieceStrips | test_integration_fixes.py:63 | each of those pieces strips to its name |
| ContentSelector.CandidatesWellFormed | test_integration_fixes.py:57-61 | no default candidate contains a comma or surrounding whitespace |
| ContentSelector.HeuristicSelectorSplitsIntoCandidates | test_integration_fixes.py:57-64 | the heuristic selector splits back into the 14 candidates, with `article` first |
| Text.Strip | app/services/content_cleaner.py:121 | the result is no longer than the input and has no whitespace at either end |
| Text.StripTrimmed | app/services/content_cleaner.py:121 | text with no whitespace at either end strips to itself |
| Text.Split | app/services/content_cleaner.py:165 | splitting always gives at least one piece |
| Text.JoinSplit | app/services/content_cleaner.py:165-174 | joining the pieces of a one-character split with that character gives the text back |
| Text.SplitJoin | test_integration_fixes.py:63 | splitting on `c` the text `p`, then pieces free of `c` joined by `c` plus `q`, gives `p` with the first piece, then each later piece behind `q` |
| Text.SplitOnce | app/core/template_resolver.py:48 | `split(c, 1)` gives two parts exactly when `c` occurs; the text is the first part, `c` and the second part, and the first part has no `c` |
| Text.Lower | app/services/crawler_service.py:136 | the result has the input's length and no upper-case ASCII letter; every other character is kept, and each upper-case letter becomes its lower-case form |
| Paths.WalkWithoutParentSteps | app/services/template_loader.py:50-54 | a lookup along names without `..` reaches, if anything, exactly the lexical concatenation |
| Paths.LocateStaysUnder | app/services/template_loader.py:50-66 | a relative name without `..` that resolves to a path resolves under the directory it is joined to |
| Paths.PlainNameComponents | app/services/template_loader.py:50 | a single plain file name is a single path component |
| Paths.Components | app/services/template_loader.py:50 | the components of a relative string never include an empty or `.` part |
| Paths.JoinPath | app/services/template_loader.py:50 | the relative string's components come last; a relative string extends the base and an absolute one replaces it |
| Paths.Walk | app/services/template_loader.py:54-73 | a lookup reaches only paths that exist, at most one segment longer per step; with nothing left to follow it reaches the current path exactly when that exists |
| Paths.Locate | app/services/template_loader.py:54-73 | a located path exists and is no longer than the lexical path; the empty path locates the root |
| TemplateLoader.LoadConfined | app/services/template_loader.py:47-78 | text is returned exactly when the joined path exists, is a regular file with UTF-8 text, and resolves inside the directory; the text is that file's |
| TemplateLoader.ResolvePromptTemplate | app/services/template_loader.py:21-82 | `None` and empty give `(None, None)`; other text without the prefix comes back with source `inline`. A reference gives text exactly when its file is confined to the templates directory, and then the source is the reference. The value is `None` exactly when the source is |
| TemplateLoader.PromptReferenceLoads | app/services/template_loader.py:47-74 | a `@prompt_templates/` reference gives the confined file's text with the reference as source, or `(None, None)` |
| TemplateLoader.EscapingReferenceRefused | app/services/template_loader.py:64-69 | a reference whose file resolves outside the templates directory gives `(None, None)`, even though the file exists and is readable |
| TemplateLoader.ResolveOutputSchemaAsWritten | app/services/template_loader.py:85-157 | models the code as written. Falsy gives `(None, None)`, a dict gives itself with `inline`, another non-reference gives `(None, None)`. A confined schema file that parses gives its value, or `None` for a file holding `null`, with the reference as source. A source is given only for a reference whose confined file parses |
| TemplateLoader.NullSchemaFileBreaksPairing | app/services/template_loader.py:136-140 | a confined schema file that decodes to `null` gives no value but the reference as source |
| TemplateLoader.ResolveOutputSchema | app/services/template_loader.py:85-157 | falsy gives `(None, None)`; a dict gives itself with `inline`; a non-dict other than a `@schemas/` string gives `(None, None)`. A confined schema file that parses to a non-null value gives that value with the reference as source, and a resolved reference always has such a file. The value is `None` exactly when the source is |
| TemplateLoader.ResolveOutputSchemaAgrees | app/services/template_loader.py:85-157 | the corrected resolution equals the code as written, except where that gives a source without a value |
| TemplateLoader.InvalidSchemaJsonUnresolved | app/services/template_loader.py:142-145 | a confined schema file that is not valid JSON gives `(None, None)` |
| TemplateLoader.DefaultPromptFromEnv | app/services/template_loader.py:160-191 | an inline default wins over a reference. A reference counts when it loads non-empty text, and its source names the setting and the reference. With neither set the result is `(None, None)`. The value is `None` exactly when the source is |
| TemplateLoader.BrokenDefaultReferenceGivesNothing | app/services/template_loader.py:181-189 | a default reference whose file is missing or outside the directory gives `(None, None)` |
| TemplateResolver.LoadReference | app/core/template_resolver.py:46-80 | no `/` after the `@` is a format error, and the split is at the first `/`. A directory other than `prompt_templates` or `schemas` is refused. A missing path is not found, a path that is not a file is refused, and undecodable text is a decode error. It succeeds exactly when there is a `/`, the directory is known and the joined path reaches a readable regular file, wherever it lies; the text is that file's |
| TemplateResolver.ResolveFileReference | app/core/template_resolver.py:24-80 | anything but a non-empty `@` string comes back unchanged. A reference succeeds exactly when `LoadReference` does, with that text, and otherwise raises `LoadReference`'s error |
| TemplateResolver.PromptReferenceParts | app/core/template_resolver.py:48-52 | `@prompt_templates/` plus a name splits into that directory and the whole rest of the name |
| TemplateResolver.PromptReferenceReads | app/core/template_resolver.py:55-76 | a prompt reference reads whatever file the lookup of the joined path reaches, or raises not-found, not-a-file or decode errors |
| TemplateResolver.ReferenceMayEscape | app/core/template_resolver.py:63-76 | a prompt reference whose file lies outside the templates directory is read by the resolver but refused by the loader service |
| TemplateResolver.ResolverAgreesWithLoader | app/core/template_resolver.py:24-80 | for names without `..`, the resolver succeeds exactly when the loader service does, and with the same text |
| TemplateResolver.TraversalComponents | app/core/template_resolver.py:48-63 | `../../../d/f` splits into three parent steps and two names |
| TemplateResolver.TraversalWalk | app/core/template_resolver.py:63-67 | from a templates directory two levels below `/`, those steps reach `/d/f` |
| TemplateResolver.TraversalReadsOutsideRoot | app/core/template_resolver.py:63-76 | `@prompt_templates/../../../d/f` reads the file `/d/f` outside the repository, while the loader service refuses it |
| TemplateResolver.ResolveSchemaReference | app/core/template_resolver.py:83-118 | `None`, dicts and every non-string pass through unchanged. A string without `@` is refused. An `@` string gives the decoded file; an undecodable file is an error, and so is any load error |
| TemplateResolver.ResolvedTaskData | app/core/template_resolver.py:121-163 | the keys stay the same and only the two template keys can change. Falsy entries are left alone. A failed prompt leaves the dict as it was; a failed schema after a resolved prompt leaves the prompt rewritten. There is no error exactly when every truthy entry resolves, and then each is replaced by its resolution |
| TemplateResolver.NoReferencesNoChange | app/core/template_resolver.py:140-163 | task data without references comes back unchanged and without error |
| TemplateResolver.TaskData.constructor | app/core/template_resolver.py:121 | the dict holds the given entries |
| TemplateResolver.TaskData.ResolveTemplates | app/core/template_resolver.py:121-163 | the dict is rewritten in place, as `ResolvedTaskData` says. On success the same dict is returned; otherwise the error it reports is returned |
| TaskSchema.StringField | app/schemas/__init__.py:8-10 | absent and null read as `None` and a string as itself; any other type is refused |
| TaskSchema.BoolField | app/schemas/__init__.py:11-13 | an absent key takes the default; a boolean is itself; any other type is refused |
| TaskSchema.ParseCrawlConfig | app/schemas/__init__.py:6-13 | a config is accepted exactly when each text field is absent, null or text and each flag is absent or a boolean. The text fields hold the input's values. `screenshot` and `pdf` default to false and `verbose` to true. A refused config reports at least one error |
| TaskSchema.DumpCrawlConfig | app/schemas/__init__.py:6-13 | a dumped config holds exactly the six declared keys |
| TaskSchema.CrawlConfigRoundTrip | app/schemas/__init__.py:6-13 | validating a dumped config gives the config back |
| TaskSchema.CrawlConfigIgnoresExtraKeys | app/schemas/__init__.py:6-13 | keys outside the schema never change the validation |
| TaskSchema.StoredConfigNeverSelectsUserContentSelector | app/schemas/__init__.py:6-13 | a dumped config has no `content_selector`, so the selector choice never gives the user-provided reason |
| TaskSchema.FirstInvalidUrl | app/schemas/__init__.py:54-56 | finds the first URL without an http or https scheme, and finds none exactly when all have one |
| TaskSchema.ValidateUrls | app/schemas/__init__.py:49-57 | an empty list is refused. A list is accepted exactly when it is non-empty and every URL starts with `http://` or `https://`, and is then returned unchanged. The error names the first bad URL |
| TaskSchema.ValidateName | app/schemas/__init__.py:27 | a name is accepted exactly when it has 1 to 255 characters |
| TaskSchema.ValidateTask | app/schemas/__init__.py:25-57 | a task is accepted exactly when the name is valid, the URLs are valid, and any given crawl config validates. Dedup, fallback and the 10 MB cap take their defaults. An absent crawl config takes the schema default, and an explicit null stays null. The description, `only_after_date` and the LLM fields are kept as given |
| TaskSchema.AcceptedTaskHasHttpUrls | app/schemas/__init__.py:29-57 | an accepted task has at least one URL, and all of them are http(s) |
| TaskSchema.ValidateUpdate | app/schemas/__init__.py:65-79 | an update is accepted exactly when every given field has its declared type (or null), a given name has 1 to 255 characters, and a given crawl config validates. It keeps exactly the declared keys given, unchanged except a given crawl config, which keeps only the crawl keys it gave: no default is filled in. A refused update reports at least one error |
| TaskSchema.GivenCrawlKeys | app/services/task_service.py:55 | the nested crawl config dumped with `exclude_unset=True` holds exactly the given crawl keys, with their given values |
| TaskSchema.UpdateCrawlConfigRevalidates | app/services/task_service.py:55 | the stored crawl config of an accepted update validates to the same config as the one given |
| TaskSchema.UpdateStoresOnlyGivenCrawlKeys | app/services/task_service.py:55 | an update giving only `{"css_selector": s}` as crawl config is stored as just that, with no defaulted keys |
| TaskSchema.UpdateErrors | app/schemas/__init__.py:65-79 | no error is reported exactly when every field is well typed, the name is in bounds and the crawl config validates |
| TaskSchema.UpdateSkipsUrlValidation | app/schemas/__init__.py:69 | an update may set any list of URL strings, even an empty one or one without an http(s) scheme |
| TaskService.Assigned | app/services/task_service.py:146-148 | exactly the keywords that name attributes are overwritten; every other field keeps its value |
| TaskService.AssignedIdempotent | app/services/task_service.py:146-148 | assigning the same keywords twice is the same as assigning them once |
| TaskService.SetAttributes | app/services/task_service.py:182-184 | the `setattr` loop computes `Assigned` |
| TaskService.FirstMatch | app/services/task_service.py:175-178 | finds the first row matching both key columns, and finds none exactly when no row matches |
| TaskService.FindFirst | app/services/task_service.py:175-178 | the query loop finds `FirstMatch` |
| TaskService.FirstMatchIsFirst | app/services/task_service.py:175-178 | a matching row preceded only by non-matching rows is the one found |
| TaskService.FirstMatchNone | app/services/task_service.py:175-178 | when no row matches, nothing is found |
| TaskService.Upserted | app/services/task_service.py:172-198 | an existing row for the key is updated in place with the keywords that name columns, and its position is returned. Otherwise the defaults, the keywords and the key are appended as one new row at the end; this fails exactly when a keyword names no column. The written row matches the key, and no other row changes |
| TaskService.UpsertKeepsKeysUnique | app/services/task_service.py:172-198 | an upsert never creates a second row for a key |
| TaskService.UpsertIdempotent | app/services/task_service.py:172-198 | repeating an upsert with the same arguments changes nothing |
| TaskService.UpsertedRowColumns | app/services/task_service.py:180-192 | besides the keywords and the key, the written row holds only the columns of the row it updated, or of the defaults on insert |
| TaskService.KeepRowsMembers | app/models/__init__.py:40-147 | the rows left are exactly those whose foreign key names none of the deleted parents |
| TaskService.KeepRowsKeepsKeysUnique | app/services/task_service.py:68-77 | removing rows keeps the upsert keys unique |
| TaskService.DeletionKeepsKeysUnique | app/services/task_service.py:68-77 | the whole cascade of a task deletion keeps every lookup key unique |
| TaskService.UrlIndex | app/services/task_service.py:263-265 | finds the first entry for a URL, whatever its task, and finds none exactly when no entry has the URL |
| TaskService.Registered | app/services/task_service.py:260-281 | a known URL keeps its id, has its count raised by one, its `last_crawled_at` set to now, and is given to the new task, in place. An unknown URL gets one new entry with count 1. Every entry for another URL is unchanged |
| TaskService.RegisterKeepsUrlsUnique | app/models/__init__.py:174 | registration keeps at most one entry per URL, whatever the task |
| TaskService.RegisterThenCrawled | app/services/task_service.py:251-281 | after `register_url(u, t)`, `is_url_crawled(u, t)` holds |
| TaskService.ReRegisterForgetsPreviousTask | app/services/task_service.py:253-271 | registering `u` for another task makes `is_url_crawled(u, t)` false for the earlier task |
| TaskService.RegisterLeavesOtherUrls | app/services/task_service.py:263-277 | registering a URL leaves every other URL's status unchanged, for every task |
| TaskService.RegisterKeepsCrawledForTask | app/services/task_service.py:263-277 | registering keeps every URL the task had already crawled |
| TaskService.RegisterMarksOnlyItsUrl | app/services/task_service.py:263-277 | a registration marks only its own URL, and only for its own task |
| TaskService.Database.constructor | app/models/__init__.py:10-184 | a fresh database with all tables empty, and its keys unique |
| TaskService.Database.UpdateTask | app/services/task_service.py:49-65 | an unknown task gives `NoSuchTask` and changes nothing. An update putting NULL into a not-null column (`id`, `name`, `created_at`, `updated_at`) makes the commit fail: `NotNullViolation`, and the task keeps its row. Otherwise every given column is overwritten. No other table changes |
| TaskService.AcceptedUpdateFailsOnlyOnNullName | app/services/task_service.py:55-62 | of the updates the request schema accepts, exactly those giving `name` as null fail at the commit; a null URL list or crawl config is stored as JSON `null` |
| TaskService.Database.DeleteTask | app/services/task_service.py:68-77 | an unknown task gives `false` and changes nothing. Otherwise the task is removed together with its runs, their documents, those documents' images and attachments, and the registry entries naming the task. The keys stay unique |
| TaskService.RunIdsOf | app/models/__init__.py:40-51 | the ids of exactly the runs of a task |
| TaskService.DocumentIdsOf | app/models/__init__.py:73-86 | the ids of exactly the documents of the given runs |
| TaskService.KeepEntries | app/models/__init__.py:175 | the registry entries left are exactly those naming other tasks |
| TaskService.KeepEntriesKeepsUrlsUnique | app/models/__init__.py:174-175 | removing a task's entries keeps URLs unique |
| TaskService.Database.CreateRun | app/services/task_service.py:121-131 | adds a new `pending` run of the task with the column defaults; nothing else changes |
| TaskService.Database.UpdateRunStatus | app/services/task_service.py:139-152 | an unknown run gives `false` and changes nothing. Otherwise the status is set, keywords naming run columns are assigned, and other keywords are ignored |
| TaskService.Database.UpsertInto | app/services/task_service.py:175-192 | the lookup and the `setattr` loop compute `Upserted` |
| TaskService.Database.UpsertDocument | app/services/task_service.py:172-198 | the documents table becomes `Upserted` on `(run_id, source_url)` and the row written is returned. A refused insert changes nothing. Keys stay unique and no other table changes |
| TaskService.Database.UpsertImage | app/services/task_service.py:201-222 | the same for the images table on `(document_id, original_url)` |
| TaskService.Database.UpsertAttachment | app/services/task_service.py:225-246 | the same for the attachments table on `(document_id, original_url)` |
| TaskService.Database.IsUrlCrawled | app/services/task_service.py:251-257 | true exactly when an entry holds this URL and this task |
| TaskService.Database.RegisterUrl | app/services/task_service.py:260-281 | the registry becomes `Registered`, and the entry returned holds the URL and the task. URLs stay unique and no other table changes |
| CrawlerService.ExtractMarkdownString | app/services/crawler_service.py:16-51 | `None` gives `None` and text gives itself. For a result object the first present of `raw_markdown`, `fit_markdown` and `markdown_with_citations` is used, else its `str()` |
| CrawlerService.RawMarkdownWins | app/services/crawler_service.py:39-40 | once `raw_markdown` exists, the other attributes play no part |
| CrawlerService.ExtractionProvider | app/services/crawler_service.py:136-166 | a table provider, in any letter case, becomes its prefix plus the model; any other provider is passed on as given |
| CrawlerService.WithBaseUrl | app/services/crawler_service.py:136-148 | for a table provider, in any letter case, that has a base URL, the params gain `base_url` with that URL; for any other provider they are unchanged. Every other key is kept |
| CrawlerService.DeepseekWritesNoBaseUrl | app/services/crawler_service.py:64-67 | deepseek leaves the params alone and uses the `deepseek/` prefix |
| CrawlerService.QwenUsesCompatibleEndpoint | app/services/crawler_service.py:56-59 | qwen gets the DashScope compatible endpoint and the `openai/` prefix |
| CrawlerService.Params.constructor | app/services/crawler_service.py:130 | a params dict holding the given entries |
| CrawlerService.OptionalParam | app/services/crawler_service.py:115-120 | an optional parameter is passed exactly when its config value is truthy, and then as given |
| CrawlerService.CrawlParamsOf | app/services/crawler_service.py:106-168 | the optional parameters follow the config. Without an LLM config and a prompt there is no strategy. With them, the strategy gets the mapped provider, the API key, the prompt, the schema and the params with `base_url` written. It fails exactly when a params key is also one of the strategy's own keywords, and the error names those keys |
| CrawlerService.CrawlParamsStable | app/services/crawler_service.py:146-148 | writing `base_url` twice is writing it once, so a second crawl with the same dict builds the same parameters |
| CrawlerService.BuildCrawlParams | app/services/crawler_service.py:106-168 | the parameters are `CrawlParamsOf` the caller's params as they were, and the caller's params become `ParamsAfter` them: `base_url` is written only when a strategy is requested. Without one the caller's params are untouched |
| CrawlerService.FailedCrawl | app/services/crawler_service.py:175-179 | the error result has exactly `success = False`, `url` and `error` |
| CrawlerService.SuccessfulCrawl | app/services/crawler_service.py:185-210 | a successful crawl's dict says `success`, names the URL, carries the markdown string, the metadata and media dicts, and the screenshot and pdf exactly as configured; `structured_data` is added later |
| CrawlerService.StructuredData | app/services/crawler_service.py:212-216 | text that parses becomes the parsed value; anything else becomes `{'raw': text}` |
| CrawlerService.CrawlResult | app/services/crawler_service.py:171-227 | an engine exception or a failed crawl gives exactly the error dict. A success carries the markdown string, the metadata and media dicts, and the screenshot and pdf as configured. `structured_data` is present exactly for truthy extracted text. Truthy extracted content that is not text gives the error dict with `json.loads`' type-error message |
| CrawlerService.CrawlOutcome | app/services/crawler_service.py:171-227 | built parameters give `CrawlResult` of the engine run on them; clashing keywords give the error dict. Every result carries `success` and `url` |
| CrawlerService.CrawlUrl | app/services/crawler_service.py:85-227 | the result is `CrawlOutcome` of `CrawlParamsOf` the caller's params as they were, with the engine's outcome; the caller's params change as `BuildCrawlParams` says |
| CrawlerService.PathName | app/services/crawler_service.py:273 | `Path(p).name` is the last kept path component, and empty exactly when there is none |
| CrawlerService.DeclaredSize | app/services/crawler_service.py:243-256 | a size is declared only by a HEAD answer with a non-empty `content-length`, and is then that header read as an integer |
| CrawlerService.DownloadResource | app/services/crawler_service.py:230-285 | nothing is returned exactly when: HEAD declares a size over the cap, the GET is not 2xx, or the body is over the cap. Otherwise the result holds the body, its length, the content type (default `application/octet-stream`), and the path's file name or else `resource_<token>` |
| CrawlerService.HeadFailureIgnored | app/services/crawler_service.py:253-254 | a HEAD request that raises does not stop a download that fits |
| CrawlerService.SplitJoinedSegments | app/services/crawler_service.py:301 | splitting a `/`-join of slash-free segments on `/` gives the segments back |
| CrawlerService.KeptAppend | app/services/crawler_service.py:273 | a plain final name stays the final kept component |
| CrawlerService.PathNameIsLastSegment | app/services/crawler_service.py:272-273 | the file name of a `/`-joined path is its last segment |
| CrawlerService.MinioPath | app/services/crawler_service.py:288-301 | every object path starts with `date/run_id/` |
| CrawlerService.MinioPathSegments | app/services/crawler_service.py:300-301 | with slash-free parts, the path splits back into date, run, type and name |
| ContentCleaner.ApplyGroup | app/services/content_cleaner.py:78-100 | a group reports at most one name per pattern, all of them its own section; a group with no report leaves the text unchanged |
| ContentCleaner.RunGroup | app/services/content_cleaner.py:83-99 | the loop over one group's patterns computes `ApplyGroup` |
| ContentCleaner.Distinct | app/services/content_cleaner.py:130-138 | the list has no duplicates and holds exactly the sections reported |
| ContentCleaner.Removed | app/services/content_cleaner.py:78-100 | only `navigation`, `footer` and `sidebar` are reported |
| ContentCleaner.Cleaned | app/services/content_cleaner.py:50-140 | empty input gives empty output, no sections and zero statistics. Otherwise the lengths are those of the input and the output, the reduction is computed from them, the output is stripped, and the sections are distinct |
| ContentCleaner.CleanMarkdown | app/services/content_cleaner.py:50-140 | the pattern and rewrite loops compute `Cleaned` |
| ContentCleaner.SectionReportedWhenMatched | app/services/content_cleaner.py:78-100 | a section is listed exactly when one of its patterns matched when its group ran |
| ContentCleaner.SectionsOfGroups | app/services/content_cleaner.py:83-99 | in the concatenated reports, each section name comes from its own group only |
| ContentCleaner.ApplyGroupShortens | app/services/content_cleaner.py:78-100 | with substitutions that only delete, a group never lengthens the text |
| ContentCleaner.RewriteShortens | app/services/content_cleaner.py:102-118 | with rewrites that never lengthen, the rewrites never lengthen the text |
| ContentCleaner.CleaningShortens | app/services/content_cleaner.py:72-123 | with such rules, cleaning never lengthens the text |
| ContentCleaner.ReductionBounds | app/services/content_cleaner.py:124 | a length that did not grow gives a reduction between 0 and 100 |
| ContentCleaner.ReductionIsPercentage | app/services/content_cleaner.py:123-129 | with such rules, the reported reduction lies between 0 and 100 |
| ContentCleaner.BoundaryFrom | app/services/content_cleaner.py:183-194 | finds the leftmost position from which any boundary pattern matches, and finds none exactly when no position matches |
| ContentCleaner.Truncated | app/services/content_cleaner.py:196-198 | the result is stripped, or the content unchanged |
| ContentCleaner.FirstLine | app/services/content_cleaner.py:165-171 | finds the first line with the property, and finds none exactly when no line has it |
| ContentCleaner.MainContent | app/services/content_cleaner.py:142-200 | the result is `None` exactly when the input is empty, and is otherwise stripped |
| ContentCleaner.ContentWithoutHeading | app/services/content_cleaner.py:161-175 | without an H1, the text starts at the first substantial line, or at the top when there is none |
| ContentCleaner.TextAfterLine | app/services/content_cleaner.py:160-179 | the text after the H1 line, stripped, is the following lines joined and stripped |
| ContentCleaner.FirstMatchFrom | app/services/content_cleaner.py:192 | finds the leftmost match of one boundary pattern, and finds none exactly when there is none |
| ContentCleaner.Search | app/services/content_cleaner.py:192 | the scan finds `FirstMatchFrom` |
| ContentCleaner.EarliestIsLeftmost | app/services/content_cleaner.py:190-194 | the smallest start kept over the first k patterns is a match of one of them, and none of them matches earlier |
| ContentCleaner.BoundaryFromIs | app/services/content_cleaner.py:190-194 | a position with no boundary before it, and a boundary at it unless it is the end, is where the content is cut |
| ContentCleaner.EarliestBoundary | app/services/content_cleaner.py:190-194 | the loop over the patterns finds the leftmost boundary, or the length |
| ContentCleaner.ExtractMainContent | app/services/content_cleaner.py:142-200 | the line scan and the boundary loop compute `MainContent` |
| ContentCleaner.FindLine | app/services/content_cleaner.py:167-171 | the scan finds `FirstLine` |
| ContentCleaner.FirstLineIs | app/services/content_cleaner.py:167-171 | a line with the property, preceded only by lines without it, is the one found |
| ContentCleaner.WordInInfix | app/services/content_cleaner.py:182-185 | whitespace followed by a boundary word inside a slice is whitespace and the word in the whole text |
| ContentCleaner.MatchInInfix | app/services/content_cleaner.py:192 | a boundary match inside a slice is a match in the whole text, at the shifted position |
| ContentCleaner.TruncatedHasNoBoundary | app/services/content_cleaner.py:190-198 | the truncated content contains no boundary match |
| ContentCleaner.StrippedPrefixHasNoBoundary | app/services/content_cleaner.py:196-197 | stripping a prefix free of boundaries leaves it free of them |
| ContentCleaner.StripIsInfix | app/services/content_cleaner.py:179 | the stripped text is a slice of the text |
| ContentCleaner.NoBoundaryInInfix | app/services/content_cleaner.py:192-197 | a slice of a boundary-free stretch has no boundary |
| ContentCleaner.NonBlank | app/services/content_cleaner.py:241 | at most one paragraph per chunk, and at least one when the first chunk is not blank |
| ContentCleaner.NonBlankCounts | app/services/content_cleaner.py:241 | the count is exactly the number of positions whose chunk is not empty once stripped |
| ContentCleaner.StatisticsOf | app/services/content_cleaner.py:239-246 | the character count is the length; the line count is the number of newlines plus one; there are at most as many paragraphs as `\n\n` chunks |
| ContentCleaner.ParagraphCount | app/services/content_cleaner.py:239-243 | `paragraph_count` is exactly the number of `\n\n` chunks that are not empty once stripped |
| ContentCleaner.LineCount | app/services/content_cleaner.py:245 | splitting on newlines gives one more piece than there are newlines |
| ContentCleaner.ParagraphOfTrimmedText | app/services/content_cleaner.py:241 | non-empty stripped text has at least one paragraph |
| ContentCleaner.StatisticsCountAParagraph | app/services/content_cleaner.py:219-246 | whenever statistics are present, they count at least one paragraph |
| ContentCleaner.CleanedDocument | app/services/content_cleaner.py:219-250 | `structured_data` is present exactly for truthy data, and `statistics` exactly for non-empty main text. The content holds the main text and its length, or 0. The metadata object is `MetadataObject` of the metadata |
| ContentCleaner.MetadataObject | app/services/content_cleaner.py:221-227 | without metadata, or with an empty dict, the fields are null and the keywords empty. Otherwise `title`, `description` and `language` are copied from the metadata or null, and `keywords` is copied or `[]` |
| ContentCleaner.EmptyMarkdownHasNoStatistics | app/services/content_cleaner.py:156-157 | empty markdown gives null main text, length 0 and no statistics |
| ContentCleaner.CleanedJson | app/services/content_cleaner.py:202-250 | the document always has `metadata` and `content`; `structured_data` exactly for truthy data; `statistics` exactly when the main content is non-empty, which needs non-empty markdown |
| CrawlWorker.ImageKeywordsAreColumns | app/workers/crawl_worker.py:273-283 | every keyword `process_image` passes is an image column |
| CrawlWorker.ImageFields | app/workers/crawl_worker.py:273-283 | the image row holds exactly the six keywords passed besides the key columns |
| CrawlWorker.CrawlerImageName | app/workers/crawl_worker.py:242 | the object name of a crawler-held image is never empty |
| CrawlWorker.ImageRecord | app/workers/crawl_worker.py:216-286 | nothing is recorded for a non-object entry, a URL that is not truthy text, or an upload that raises. Otherwise: the status is `success`, `failed` or `skipped`. A path exists exactly on success, under `date/run_id/`. The method is `crawl4ai` exactly for crawler-held images. Other images are skipped exactly when the fallback is off; with it on, they succeed by `fallback` exactly when the download does |
| CrawlWorker.OversizedImageFails | app/workers/crawl_worker.py:251-268 | an image declared over the cap is recorded as `failed`, not `skipped` |
| CrawlWorker.ImageWritten | app/workers/crawl_worker.py:273-286 | only rows of this document change or appear |
| CrawlWorker.ProcessImage | app/workers/crawl_worker.py:216-286 | the images table becomes `ImageWritten` of `ImageRecord`; no other table changes |
| CrawlWorker.BuildImageRecord | app/workers/crawl_worker.py:221-272 | the statement-by-statement walk through the URL check, the crawler upload and the fallback download yields exactly `ImageRecord`, so it carries every property stated for that function |
| CrawlWorker.ImagesRecorded | app/workers/crawl_worker.py:98-104 | the image loop only changes or adds rows of its document |
| CrawlWorker.ProcessImages | app/workers/crawl_worker.py:98-104 | the loop computes `ImagesRecorded`, and no other table changes |
| CrawlWorker.LlmSettings | app/workers/crawl_worker.py:41-47 | LLM settings exist exactly when both provider and model are set, and carry them. The params are the task's `llm_params` dict when it is non-empty, and `{}` when the task has none |
| CrawlWorker.SettingsOf | app/workers/crawl_worker.py:59-104 | the crawl config is the task's dict, or empty; the prompt is the task's text, present exactly when it is text; dedup and fallback are the truthiness of their columns; the schema and the size cap are passed as stored |
| CrawlWorker.Attempted | app/workers/crawl_worker.py:56-62 | at most one attempt per URL |
| CrawlWorker.Failures | app/workers/crawl_worker.py:73-76 | no more failures than attempts |
| CrawlWorker.Tally | app/workers/crawl_worker.py:50-113 | no more documents than crawled URLs, and no more crawled URLs than attempts. `urls_failed` counts the failed URLs. Every attempt is counted as crawled or failed |
| CrawlWorker.AllSkippedCountsNothing | app/workers/crawl_worker.py:59-62 | a run whose URLs are all skipped leaves every counter at zero |
| CrawlWorker.Counted | app/workers/crawl_worker.py:59-113 | a skipped URL changes no counter. A failure adds one to `urls_failed`; a URL whose crawl succeeded adds one to `urls_crawled`; one whose document was upserted adds one to `documents_created`. No more documents than crawled URLs is kept |
| CrawlWorker.TallyNext | app/workers/crawl_worker.py:56-113 | counting one more URL is counting it after the tally of the ones before |
| CrawlWorker.DocumentKwargs | app/workers/crawl_worker.py:81-89 | the document keywords are columns, and never include `markdown_path` or `json_path` |
| CrawlWorker.DocumentUpsert | app/workers/crawl_worker.py:81-89 | the page's document is in the table at the position returned |
| CrawlWorker.DocumentUpsertSetsNoPaths | app/workers/crawl_worker.py:81-89 | if no document of the run had a storage path before the upsert, none has one after it |
| CrawlWorker.DocumentObjects | app/workers/crawl_worker.py:165-210 | at most four objects, all under `date/run_id/`. The markdown comes first when present. There are none exactly when nothing is truthy |
| CrawlWorker.SavedObjects | app/workers/crawl_worker.py:165-213 | the uploads before one raises: a prefix of the planned objects |
| CrawlWorker.ImageList | app/workers/crawl_worker.py:98-99 | no `media` gives no images. The list cannot be iterated exactly when `media` is not a dict, or its `images` is null, a boolean or a number. A non-empty list comes from an `images` array |
| CrawlWorker.StoreCrawl | app/workers/crawl_worker.py:81-107 | a document upsert that raises writes nothing. Otherwise the document is written, then its objects, then its images. The URL is registered only when everything before succeeded |
| CrawlWorker.StoreDocument | app/workers/crawl_worker.py:81-89 | the documents table becomes `DocumentUpsert`, the id returned is the written row's, and a run without storage paths keeps none |
| CrawlWorker.StoreImagesAndRegister | app/workers/crawl_worker.py:98-107 | a result without an image list fails before anything is written. Otherwise the images become `ImagesRecorded`, and the URL is registered unless registration raises |
| CrawlWorker.StoreOutcome | app/workers/crawl_worker.py:73-113 | after a crawl: a failed crawl fails at the crawl, a raising upsert at the document, a media value that cannot be iterated at the images, a raising registration at the registration; otherwise the page is stored |
| CrawlWorker.UrlOutcomeOf | app/workers/crawl_worker.py:56-113 | a URL that is not text, or a dedup check that raises, fails at the check; a URL already crawled for the task is skipped exactly when dedup is on; otherwise the outcome is `StoreOutcome` of its crawl |
| CrawlWorker.StorePage | app/workers/crawl_worker.py:78-107 | storing a successful crawl ends as `StoreOutcome` says, writes only documents, images and the registry, and leaves a document for a stored page |
| CrawlWorker.CrawlAndStore | app/workers/crawl_worker.py:64-107 | the crawl is `UrlCrawl` with the params dict as it was, and the outcome is `StoreOutcome` of that crawl. A failed crawl writes nothing |
| CrawlWorker.ProcessUrl | app/workers/crawl_worker.py:57-113 | the outcome is `UrlOutcomeOf` the registry before the URL and the URL's crawl, and the crawl returned is that crawl. A skip, a failed check or a failed crawl writes nothing. The URL is registered exactly when stored, and then the page's document is in the table |
| CrawlWorker.UrlLoop | app/workers/crawl_worker.py:56-113 | one outcome per URL |
| CrawlWorker.UrlStepKeepsRegistry | app/workers/crawl_worker.py:59-107 | each iteration keeps every stored URL crawled, and marks only the task's own URLs |
| CrawlWorker.RunUrl | app/workers/crawl_worker.py:56-113 | one pass of the loop body extends `UrlLoop` by one URL: its outcome is taken on the registry the earlier URLs left. It keeps the loop's registry invariants: every stored URL so far is marked crawled for the task, and nothing outside the URLs seen so far is marked. A skip happens only with dedup |
| CrawlWorker.RunUrls | app/workers/crawl_worker.py:50-113 | the outcomes and the final registry are `UrlLoop` of the URLs from the registry before the loop, and the counters are their `Tally`. Skips happen only with dedup. Every stored URL is marked crawled for the task, and nothing else is marked. Only the documents, images, registry and the caller's params change |
| CrawlWorker.RunManifest | app/workers/crawl_worker.py:289-307 | the manifest names the run, the task and its name, carries the counters, and copies the task's URLs, dedup switch, provider and model into its configuration |
| CrawlWorker.SelectRows | app/services/task_service.py:155-167 | a row is selected exactly when its column holds one of the values |
| CrawlWorker.Entries | app/workers/crawl_worker.py:319-346 | one entry per row, in order |
| CrawlWorker.ResourceIndex | app/workers/crawl_worker.py:310-347 | the index names the run, and each of its three lists is no longer than its table |
| CrawlWorker.IndexListsRunDocuments | app/workers/crawl_worker.py:312-328 | an entry is listed exactly when it belongs to a document of the run |
| CrawlWorker.IndexListsRunImages | app/workers/crawl_worker.py:313-337 | an image entry is listed exactly when it is the entry of an image joined to a document of the run |
| CrawlWorker.IndexListsRunAttachments | app/workers/crawl_worker.py:313-346 | an attachment entry is listed exactly when it is the entry of an attachment joined to a document of the run |
| CrawlWorker.ResourceEntriesOfRun | app/workers/crawl_worker.py:330-346 | the entries of the rows joined to the run's documents are exactly the entries of rows naming such a document |
| CrawlWorker.IndexListsNoStoragePaths | app/workers/crawl_worker.py:324-325 | for documents the worker wrote, the index lists `markdown_path` and `json_path` as null |
| CrawlWorker.ManifestUnderLogsPath | app/workers/crawl_worker.py:120-144 | the manifest lies under the run's `logs_path` when the local and UTC dates agree |
| CrawlWorker.UrlsOf | app/workers/crawl_worker.py:56 | a list gives its items; the loop can start exactly for a list or a string |
| CrawlWorker.EarlyFailure | app/workers/crawl_worker.py:55-56 | nothing fails before the first URL exactly when the crawler starts and the URLs are a list or a string; a crawler that raises gives its message, and otherwise the not-iterable message names the type |
| CrawlWorker.RunLogs | app/workers/crawl_worker.py:116-132 | the manifest and the index are written exactly when the run does not fail, both under `date/run_id/` |
| CrawlWorker.FinalRunSettled | app/workers/crawl_worker.py:134-155 | a run that went `running` ends `completed` or `failed`, and `completed` exactly when nothing raised |
| CrawlWorker.StatusUpdated | app/services/task_service.py:139-152 | the status is the one written unless a field names it; fields naming run columns take their values and every other column keeps its own |
| CrawlWorker.FailedRunFields | app/workers/crawl_worker.py:149-155 | a failed run records its completion time and the message of what raised |
| CrawlWorker.CompletedRunPaths | app/workers/crawl_worker.py:134-145 | a completed run records its completion time, `minio_path` as `date/run_id`, `logs_path` under it, and the manifest's object name |
| CrawlWorker.FinalRunKeepsColumns | app/workers/crawl_worker.py:134-155 | the end of a run leaves every column other than the status, times, counters, paths and error as it was |
| CrawlWorker.ManifestAgreesWithRun | app/workers/crawl_worker.py:116-141 | a completed run stores the counters its manifest reports, and they are the tally of its URLs |
| CrawlWorker.FinishRun | app/workers/crawl_worker.py:116-155 | after the loop the run row ends as `FinalRun` and the logs are `RunLogs`; only the run row changes |
| CrawlWorker.RunTask | app/workers/crawl_worker.py:40-155 | the run row ends as `FinalRun`. If the loop cannot start, no URL is processed; otherwise each URL has an outcome. The logs are `RunLogs`, and only the task's URLs are marked |
| CrawlWorker.ExecuteCrawlTask | app/workers/crawl_worker.py:18-157 | a missing task fails the run with `Task not found`; a missing run changes nothing. Otherwise the run goes `running` and ends `completed` or `failed` as `FinalRun` says. Only the task's URLs are marked crawled, and the run's documents never get storage paths |

## Left out

- Real I/O enters the model as parameters:
  - the crawl engine;
  - the HTTP client;
  - the object store;
  - the file system, an in-memory map of paths;
  - the clock, UUIDs and random tokens.
- Redis and RQ are not modelled. `execute_crawl_task` only wraps the async run in an event loop.
- HTTP routers, settings loading and app wiring are not part of this model.
- `create_task`, `get_task`, `list_tasks`, `export_task` and `import_task` are not modelled: they are ORM, YAML and JSON plumbing.
- The async structure is modelled as a sequential loop. Logging is not modelled.
- ContentCleaner.Cleaned: the cleaning regexes are opaque substitutions supplied by the caller, and so are the rewrites. Their own semantics (DOTALL, lazy matching, back-references) are not modelled.
- ContentCleaner.Reduction: the percentage is an exact real. Float division and `round(…, 2)` are not modelled.
- ContentCleaner.Distinct: `list(set(…))` is taken to keep first occurrences; Python's set iteration order is not modelled.
- CrawlerService.DownloadResource:
  - the size cap compares bytes with `max_size_mb * 1048576` as integers, not as float megabytes;
  - `urlparse`, `int()` and `json.loads` are parameters.
- Lower-casing covers ASCII letters only. Path resolution does not follow symbolic links.
- TaskSchema.ParseCrawlConfig: pydantic's lax coercion is not modelled. Only JSON booleans count as booleans, and only strings and null fill string fields. So `"true"` or `1` is refused here, where pydantic accepts it.
- TaskSchema.ValidateUpdate: pydantic's lax coercion is not modelled, as for the crawl config. `only_after_date` is accepted as text or a number without parsing it as a date.
- TaskService.Database: the `Document` class declares a column named `metadata` (app/models/__init__.py:94), a name SQLAlchemy's declarative base reserves, so the class as written raises when the models are imported. The model treats `metadata` as an ordinary document column.
- TaskSchema.ValidateTask: `description` and the LLM fields are passed through without type checks, and `only_after_date` is kept as the text it arrives as, not parsed as a date.
- TaskService.Database:
  - a query returns rows in table order;
  - `onupdate` timestamps are not modelled;
  - rollback after a failed commit is not modelled.
- TaskService.Database.DeleteTask: the ORM and foreign-key cascades are modelled by the rows they remove. Their order and flush timing are not modelled.
- CrawlWorker.UrlsOf: a dict in `task.urls` is treated as not iterable, whereas Python would iterate its keys. The column holds a list.
- CrawlWorker.ProcessUrl: a URL item that is not text counts as failed at the dedup check. In Python its crawl fails instead. Either way `urls_failed` grows by one and nothing is stored.
- CrawlWorker.ImageRecord:
  - an image URL that is not text records nothing;
  - an upload the object store refuses without raising is still recorded as a success, because `upload_data` returns False and nobody checks it.
- CrawlWorker.SettingsOf: a crawl configuration or `llm_params` that is not a dict counts as empty.
- CrawlWorker.LlmSettings: a provider or model that is not text counts as absent, and a truthy `llm_params` that is not a dict counts as `{}`; the column holds a dict.
- CrawlWorker.RunLogs: when the manifest or index upload raises, the model records no log objects. A manifest uploaded before the index upload fails is not modelled.
- CrawlWorker.IdText: a document id that is not text prints as `None`. The worker's ids are always text.
- CrawlWorker.DocumentKwargs: requires the crawl result's metadata dict, which a successful crawl result always carries.
- CrawlerService.CrawlOutcome: the duplicate-keyword error carries only the fixed part of Python's message. Python also names the class and the first clashing key in the params dict's insertion order; the model holds the params as a map without an order, so it names no key. `CrawlParamsOf` still gives the whole set of clashing keys.
- CrawlerService.ExtractMarkdownString: the `str()` fallback is given as a value, so the exception branch at app/services/crawler_service.py:49-51 is not modelled.
- CrawlWorker.ExecuteCrawlTask:
  - "Run not found" is not recorded separately, because the failure handler's update finds no run to change;
  - the local date used in object names and the UTC date used in the run's paths are separate parameters.

## Findings

| source | as written | input that shows it | evidently intended | confidence | as-written member | corrected member |
|---|---|---|---|---|---|---|
| app/services/template_loader.py:136-140 | the parsed schema file is returned with the reference as its source, whatever it parses to | a file `schemas/x.json` containing `null`, referenced as `@schemas/x.json`, gives `(None, "@schemas/x.json")` | a schema file holding `null` gives `(None, None)`, as a file that cannot be read or parsed does | not executed | TemplateLoader.NullSchemaFileBreaksPairing | TemplateLoader.ResolveOutputSchema |
