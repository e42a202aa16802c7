/**
  The crawl worker: the run of one task over its URLs, the recording of each page's
  images, and the manifest and resource index written at the end. The crawler, the
  HTTP fetches, the object store, the clock and the id generator are parameters (the
  `...World` records); the database is the in-memory one of the task service.
*/
module CrawlWorker {
  import opened Wrappers
  import opened Json
  import opened Text
  import TS = TaskService
  import CS = CrawlerService

  // ---------------------------------------------------------------------------
  // process_image

  /**
    What the outside world does for one image: the HEAD and GET answers of a fallback
    download, the random token of a generated file name, whether an upload to the
    object store raises, whether the database write raises, and the new row's id.
  */
  datatype ImageWorld = ImageWorld(
    head: CS.Response, get: CS.Response, token: string, uploadRaises: bool, databaseRaises: bool, rowId: string)

  /** The task's image settings, the run, and the parsers `download_resource` relies on. */
  datatype ImagePolicy = ImagePolicy(
    fallbackEnabled: bool, maxSizeMb: Json, today: string, runId: string,
    toInt: string -> Option<int>, urlPath: string -> string)

  /** `image_info.get('src') or image_info.get('url')`. */
  function ImageUrl(info: map<string, Json>): Json {
    if Truthy(Get(info, "src")) then Get(info, "src") else Get(info, "url")
  }

  /** The crawler already holds the image: a truthy `downloaded_path` or `data`. */
  predicate FetchedByCrawler(info: map<string, Json>) {
    Truthy(Get(info, "downloaded_path")) || Truthy(Get(info, "data"))
  }

  /** The keywords `process_image` passes to `upsert_image`. */
  const ImageKeywords: set<string> :=
    {"minio_path", "alt_text", "size_bytes", "mime_type", "download_status", "download_method"}

  lemma ImageKeywordsAreColumns()
    ensures ImageKeywords <= TS.ImageColumns
  {
  }

  function ImageFields(minioPath: Json, altText: Json, sizeBytes: Json, mimeType: Json, status: string,
                       downloadMethod: Json): (r: TS.Row)
    ensures r.Keys == ImageKeywords
  {
    map["minio_path" := minioPath, "alt_text" := altText, "size_bytes" := sizeBytes, "mime_type" := mimeType,
        "download_status" := JString(status), "download_method" := downloadMethod]
  }

  /**
    `download_resource` with the task's cap. A cap that is not an integer makes the
    size comparison raise inside the download, which then reports nothing.
  */
  function FallbackDownload(url: string, policy: ImagePolicy, world: ImageWorld): Option<CS.Download> {
    if policy.maxSizeMb.JInt? then
      CS.DownloadResource(url, policy.maxSizeMb.i, world.head, world.get, policy.toInt, policy.urlPath, world.token)
    else None
  }

  /** The object name of an image the crawler fetched: the URL's file name, or a generated one. */
  function CrawlerImageName(url: string, token: string): (r: string)
    ensures r != ""
  {
    var name := CS.PathName(url);
    if name != "" then name else "image_" + token + ".jpg"
  }

  /**
    What `process_image` records for one entry of the page's image list: the URL the
    row is keyed by and the keywords of `upsert_image`. Nothing is recorded for an
    entry that is not a dict or has no URL, nor when an upload raises: the error is
    logged and swallowed.
  */
  function ImageRecord(info: Json, policy: ImagePolicy, world: ImageWorld): (r: Option<(string, TS.Row)>)
    ensures r.Some? ==> info.JObject? && ImageUrl(info.fields) == JString(r.value.0) && r.value.0 != ""
    ensures r.Some? ==> r.value.1.Keys == ImageKeywords && r.value.1["alt_text"] == Get(info.fields, "alt")
    // The status is settled: never left `pending`.
    ensures r.Some? ==>
              r.value.1["download_status"] == JString("success") || r.value.1["download_status"] == JString("failed") ||
              r.value.1["download_status"] == JString("skipped")
    // A stored object exists exactly for a successful download.
    ensures r.Some? ==> (r.value.1["download_status"] == JString("success") <==> r.value.1["minio_path"] != JNull)
    ensures r.Some? && r.value.1["minio_path"] != JNull ==>
              r.value.1["minio_path"].JString? &&
              StartsWith(r.value.1["minio_path"].s, policy.today + "/" + policy.runId + "/")
    // What the crawler holds wins; otherwise the fallback download decides, if enabled.
    ensures r.Some? ==> (r.value.1["download_method"] == JString("crawl4ai") <==> FetchedByCrawler(info.fields))
    ensures r.Some? && !FetchedByCrawler(info.fields) ==>
              (r.value.1["download_status"] == JString("skipped") <==> !policy.fallbackEnabled)
    ensures r.Some? && !FetchedByCrawler(info.fields) && policy.fallbackEnabled ==>
              (r.value.1["download_status"] == JString("success") <==> FallbackDownload(r.value.0, policy, world).Some?) &&
              (r.value.1["download_method"] == JString("fallback") <==> FallbackDownload(r.value.0, policy, world).Some?)
    ensures r.None? <==>
              !info.JObject? || !Truthy(ImageUrl(info.fields)) || !ImageUrl(info.fields).JString? ||
              (world.uploadRaises &&
               (FetchedByCrawler(info.fields) ||
                (policy.fallbackEnabled && FallbackDownload(ImageUrl(info.fields).s, policy, world).Some?)))
  {
    if !info.JObject? then None
    else
      var url := ImageUrl(info.fields);
      if !Truthy(url) || !url.JString? then None
      else
        var alt := Get(info.fields, "alt");
        if FetchedByCrawler(info.fields) then
          if world.uploadRaises then None
          else
            var path := CS.MinioPath(policy.today, policy.runId, "images", CrawlerImageName(url.s, world.token));
            Some((url.s, ImageFields(JString(path), alt, JNull, JNull, "success", JString("crawl4ai"))))
        else if policy.fallbackEnabled then
          match FallbackDownload(url.s, policy, world)
          case Some(d) =>
            if world.uploadRaises then None
            else
              var path := CS.MinioPath(policy.today, policy.runId, "images", d.filename);
              Some((url.s, ImageFields(JString(path), alt, JInt(d.sizeBytes), JString(d.mimeType), "success",
                                       JString("fallback"))))
          case None => Some((url.s, ImageFields(JNull, alt, JNull, JNull, "failed", JNull)))
        else Some((url.s, ImageFields(JNull, alt, JNull, JNull, "skipped", JNull)))
  }

  /** An image the server declares larger than the cap is recorded as failed, not skipped. */
  lemma OversizedImageFails(info: map<string, Json>, policy: ImagePolicy, world: ImageWorld, toInt: string -> Option<int>)
    requires ImageUrl(info).JString? && ImageUrl(info).s != "" && !FetchedByCrawler(info)
    requires policy.fallbackEnabled && policy.maxSizeMb.JInt?
    requires CS.DeclaredSize(world.head, policy.toInt).Some? &&
             CS.DeclaredSize(world.head, policy.toInt).value > policy.maxSizeMb.i * CS.MiB
    ensures ImageRecord(JObject(info), policy, world).Some?
    ensures ImageRecord(JObject(info), policy, world).value.1["download_status"] == JString("failed")
  {
  }

  function ImageKey(documentId: Json, url: string): TS.Key {
    TS.Key("document_id", documentId, "original_url", JString(url))
  }

  /** The image table after one `process_image`: the record upserted, unless the write raised. */
  function ImageWritten(images: seq<TS.Row>, documentId: Json, record: Option<(string, TS.Row)>,
                        world: ImageWorld, now: Json): (r: seq<TS.Row>)
    requires record.Some? ==> record.value.1.Keys == ImageKeywords
    ensures |images| <= |r|
    // Only rows of this document can change.
    ensures forall j :: 0 <= j < |images| && Get(images[j], "document_id") != documentId ==> r[j] == images[j]
    ensures forall j :: |images| <= j < |r| ==> Get(r[j], "document_id") == documentId
  {
    match record
    case None => images
    case Some((url, fields)) =>
      if world.databaseRaises then images
      else
        ImageKeywordsAreColumns();
        TS.Upserted(images, ImageKey(documentId, url), fields, TS.ImageColumns,
                    TS.ImageDefaults(now)["id" := JString(world.rowId)]).value.0
  }

  /** `process_image`: the record built step by step, then written unless the database raises. */
  method ProcessImage(db: TS.Database, documentId: Json, info: Json, policy: ImagePolicy, world: ImageWorld, now: Json)
    requires db.Valid()
    modifies db
    ensures db.Valid()
    ensures db.images == ImageWritten(old(db.images), documentId, ImageRecord(info, policy, world), world, now)
    ensures db.tasks == old(db.tasks) && db.runs == old(db.runs) && db.documents == old(db.documents)
    ensures db.attachments == old(db.attachments) && db.registry == old(db.registry)
  {
    var record := BuildImageRecord(info, policy, world);
    if record.None? || world.databaseRaises {
      return;
    }
    ImageKeywordsAreColumns();
    var written := db.UpsertImage(documentId, record.value.0, record.value.1, world.rowId, now);
  }

  /**
    The part of `process_image` before the database write: the URL and alt text, then the
    crawler's upload or the fallback download; `None` when the entry is dropped or an upload raises.
  */
  method BuildImageRecord(info: Json, policy: ImagePolicy, world: ImageWorld) returns (record: Option<(string, TS.Row)>)
    ensures record == ImageRecord(info, policy, world)
  {
    if !info.JObject? {
      return None;
    }
    var imageUrl := ImageUrl(info.fields);
    if !Truthy(imageUrl) || !imageUrl.JString? {
      return None;
    }
    var altText := Get(info.fields, "alt");
    var downloadStatus := "pending";
    var downloadMethod := JNull;
    var minioPath := JNull;
    var sizeBytes := JNull;
    var mimeType := JNull;
    if FetchedByCrawler(info.fields) {
      downloadStatus := "success";
      downloadMethod := JString("crawl4ai");
      minioPath := JString(CS.MinioPath(policy.today, policy.runId, "images", CrawlerImageName(imageUrl.s, world.token)));
      if world.uploadRaises {
        return None;
      }
    } else if policy.fallbackEnabled && downloadStatus == "pending" {
      var download := FallbackDownload(imageUrl.s, policy, world);
      if download.Some? {
        downloadStatus := "success";
        downloadMethod := JString("fallback");
        sizeBytes := JInt(download.value.sizeBytes);
        mimeType := JString(download.value.mimeType);
        minioPath := JString(CS.MinioPath(policy.today, policy.runId, "images", download.value.filename));
        if world.uploadRaises {
          return None;
        }
      } else {
        downloadStatus := "failed";
      }
    } else {
      downloadStatus := "skipped";
    }
    record := Some((imageUrl.s, ImageFields(minioPath, altText, sizeBytes, mimeType, downloadStatus, downloadMethod)));
  }

  /** The image table after `process_image` has run on each entry of `items` in turn. */
  function ImagesRecorded(images: seq<TS.Row>, documentId: Json, items: seq<Json>, policy: ImagePolicy,
                          worlds: nat -> ImageWorld, now: Json): (r: seq<TS.Row>)
    ensures |images| <= |r|
    ensures forall j :: 0 <= j < |images| && Get(images[j], "document_id") != documentId ==> r[j] == images[j]
    ensures forall j :: |images| <= j < |r| ==> Get(r[j], "document_id") == documentId
    decreases |items|
  {
    if items == [] then images
    else
      var k := |items| - 1;
      var before := ImagesRecorded(images, documentId, items[..k], policy, worlds, now);
      ImageWritten(before, documentId, ImageRecord(items[k], policy, worlds(k)), worlds(k), now)
  }

  /** The loop over a page's images. */
  method ProcessImages(db: TS.Database, documentId: Json, items: seq<Json>, policy: ImagePolicy,
                       worlds: nat -> ImageWorld, now: Json)
    requires db.Valid()
    modifies db
    ensures db.Valid()
    ensures db.images == ImagesRecorded(old(db.images), documentId, items, policy, worlds, now)
    ensures db.tasks == old(db.tasks) && db.runs == old(db.runs) && db.documents == old(db.documents)
    ensures db.attachments == old(db.attachments) && db.registry == old(db.registry)
  {
    for k := 0 to |items|
      invariant db.Valid()
      invariant db.images == ImagesRecorded(old(db.images), documentId, items[..k], policy, worlds, now)
      invariant db.tasks == old(db.tasks) && db.runs == old(db.runs) && db.documents == old(db.documents)
      invariant db.attachments == old(db.attachments) && db.registry == old(db.registry)
    {
      assert items[..k + 1][..k] == items[..k];
      ProcessImage(db, documentId, items[k], policy, worlds(k), now);
    }
    assert items[..|items|] == items;
  }

  // ---------------------------------------------------------------------------
  // One URL of execute_crawl_task_async

  /** Where a database call raises while a URL is processed. */
  datatype Fault = NoFault | CheckRaises | UpsertRaises | RegisterRaises

  /**
    The outside world for one URL: the database fault, the generated ids of a new
    document row and registry entry, how many of the document's objects are uploaded
    before an upload raises, and the world of each of its images.
  */
  datatype UrlWorld = UrlWorld(
    fault: Fault, documentRowId: string, registryRowId: string, uploadsBeforeRaise: nat, images: nat -> ImageWorld)

  /**
    The outside world of a run: the clock (`today` is the local date of object names,
    `utcToday` the UTC date of the run's paths, and the times the manifest and the index
    are generated), the crawler per URL position, the
    parsers, the world of each URL, and the messages of exceptions raised when the
    crawler starts or when the manifest and index are saved.
  */
  datatype RunWorld = RunWorld(
    now: Json, startedAt: Json, completedAt: Json, manifestAt: Json, indexAt: Json, today: string, utcToday: string,
    engine: (nat, CS.CrawlParams) -> CS.EngineOutcome, parse: string -> Option<Json>,
    toInt: string -> Option<int>, urlPath: string -> string,
    urls: nat -> UrlWorld, startRaises: Option<string>, finishRaises: Option<string>)

  /** The task attributes the loop reads. */
  datatype Settings = Settings(
    crawlConfig: map<string, Json>, deduplication: bool, prompt: Option<string>, outputSchema: Json,
    fallbackEnabled: bool, maxSizeMb: Json)

  /** `task.crawl_config or {}`, the dedup switch, the prompt, the schema and the image settings. */
  function SettingsOf(task: TS.Row): (r: Settings)
    ensures Get(task, "crawl_config").JObject? ==> r.crawlConfig == Get(task, "crawl_config").fields
    ensures !Get(task, "crawl_config").JObject? ==> r.crawlConfig == map[]
    ensures r.prompt.Some? <==> Get(task, "prompt_template").JString?
    ensures r.prompt.Some? ==> Get(task, "prompt_template") == JString(r.prompt.value)
    ensures r.deduplication == Truthy(Get(task, "deduplication_enabled")) &&
            r.fallbackEnabled == Truthy(Get(task, "fallback_download_enabled"))
    ensures r.outputSchema == Get(task, "output_schema") && r.maxSizeMb == Get(task, "fallback_max_size_mb")
  {
    Settings(
      match Get(task, "crawl_config") case JObject(m) => m case _ => map[],
      Truthy(Get(task, "deduplication_enabled")),
      match Get(task, "prompt_template") case JString(p) => Some(p) case _ => None,
      Get(task, "output_schema"),
      Truthy(Get(task, "fallback_download_enabled")),
      Get(task, "fallback_max_size_mb"))
  }

  function PolicyOf(s: Settings, w: RunWorld, runId: string): ImagePolicy {
    ImagePolicy(s.fallbackEnabled, s.maxSizeMb, w.today, runId, w.toInt, w.urlPath)
  }

  /**
    The provider, model and params of `llm_config`: present only when the task's
    provider and model are both truthy; the params are `task.llm_params or {}`.
  */
  function LlmSettings(task: TS.Row): (r: Option<(string, string, map<string, Json>)>)
    ensures r.Some? <==>
              Truthy(Get(task, "llm_provider")) && Truthy(Get(task, "llm_model")) &&
              Get(task, "llm_provider").JString? && Get(task, "llm_model").JString?
    ensures r.Some? ==> JString(r.value.0) == Get(task, "llm_provider") && JString(r.value.1) == Get(task, "llm_model")
    ensures r.Some? && !Truthy(Get(task, "llm_params")) ==> r.value.2 == map[]
    ensures r.Some? && Truthy(Get(task, "llm_params")) && Get(task, "llm_params").JObject? ==>
              r.value.2 == Get(task, "llm_params").fields
  {
    var provider := Get(task, "llm_provider");
    var model := Get(task, "llm_model");
    if Truthy(provider) && Truthy(model) && provider.JString? && model.JString? then
      var params := Get(task, "llm_params");
      Some((provider.s, model.s, if Truthy(params) && params.JObject? then params.fields else map[]))
    else None
  }

  /** How one URL ended. */
  datatype Stage = AtCheck | AtCrawl | AtDocument | AtImages | AtRegistration
  datatype UrlOutcome = Skipped | Failed(stage: Stage) | Stored

  datatype Counters = Counters(urlsCrawled: nat, urlsFailed: nat, documentsCreated: nat)

  /**
    The counters after one URL: `urls_crawled` once its crawl succeeded,
    `documents_created` once its document is stored, `urls_failed` for a failed crawl
    or any exception, and nothing for a skipped URL.
  */
  function Counted(c: Counters, o: UrlOutcome): (r: Counters)
    ensures r == c <==> o.Skipped?
    ensures r.urlsFailed == c.urlsFailed + (if o.Failed? then 1 else 0)
    ensures r.urlsCrawled == c.urlsCrawled + (if o.Stored? || (o.Failed? && o.stage !in {AtCheck, AtCrawl}) then 1 else 0)
    ensures r.documentsCreated ==
              c.documentsCreated + (if o.Stored? || (o.Failed? && o.stage in {AtImages, AtRegistration}) then 1 else 0)
    ensures c.documentsCreated <= c.urlsCrawled ==> r.documentsCreated <= r.urlsCrawled
  {
    match o
    case Skipped => c
    case Stored => Counters(c.urlsCrawled + 1, c.urlsFailed, c.documentsCreated + 1)
    case Failed(stage) =>
      Counters(c.urlsCrawled + (if stage == AtCheck || stage == AtCrawl then 0 else 1),
               c.urlsFailed + 1,
               c.documentsCreated + (if stage == AtImages || stage == AtRegistration then 1 else 0))
  }

  /** The URLs that were not skipped. */
  function Attempted(outcomes: seq<UrlOutcome>): (r: nat)
    ensures r <= |outcomes|
  {
    if outcomes == [] then 0
    else Attempted(outcomes[..|outcomes| - 1]) + (if outcomes[|outcomes| - 1].Skipped? then 0 else 1)
  }

  /** The URLs that ended in a failed crawl or an exception. */
  function Failures(outcomes: seq<UrlOutcome>): (r: nat)
    ensures r <= Attempted(outcomes)
  {
    if outcomes == [] then 0
    else Failures(outcomes[..|outcomes| - 1]) + (if outcomes[|outcomes| - 1].Failed? then 1 else 0)
  }

  /**
    The counters of a run: no more documents than crawled URLs, every URL that was
    not skipped counted at least once, and none counted twice under one counter.
  */
  function Tally(outcomes: seq<UrlOutcome>): (r: Counters)
    ensures r.documentsCreated <= r.urlsCrawled <= Attempted(outcomes)
    ensures r.urlsFailed == Failures(outcomes)
    ensures Attempted(outcomes) <= r.urlsCrawled + r.urlsFailed
  {
    if outcomes == [] then Counters(0, 0, 0)
    else Counted(Tally(outcomes[..|outcomes| - 1]), outcomes[|outcomes| - 1])
  }

  /** Counting one more outcome is counting it after the tally of the ones before. */
  lemma TallyNext(outcomes: seq<UrlOutcome>, o: UrlOutcome)
    ensures Tally(outcomes + [o]) == Counted(Tally(outcomes), o)
  {
    assert (outcomes + [o])[..|outcomes|] == outcomes;
  }

  /** A run whose URLs were all skipped leaves every counter at zero. */
  lemma {:induction false} AllSkippedCountsNothing(outcomes: seq<UrlOutcome>)
    requires forall j :: 0 <= j < |outcomes| ==> outcomes[j] == Skipped
    ensures Tally(outcomes) == Counters(0, 0, 0)
  {
    if outcomes != [] {
      AllSkippedCountsNothing(outcomes[..|outcomes| - 1]);
    }
  }

  /** The keywords of `upsert_document`, from a successful crawl result. */
  function DocumentKwargs(result: map<string, Json>): (r: TS.Row)
    requires "metadata" in result && result["metadata"].JObject?
    ensures r.Keys <= TS.DocumentColumns && "markdown_path" !in r && "json_path" !in r
  {
    map["title" := Get(result["metadata"].fields, "title"), "content" := Get(result, "markdown"),
        "structured_data" := Get(result, "structured_data"), "metadata" := result["metadata"]]
  }

  function DocumentKey(runId: string, url: string): TS.Key {
    TS.Key("run_id", JString(runId), "source_url", JString(url))
  }

  function DocumentDefaults(rowId: string, now: Json): TS.Row {
    TS.DocumentDefaults(now)["id" := JString(rowId)]
  }

  /** The document table after the upsert, and the position of the page's document. */
  function DocumentUpsert(documents: seq<TS.Row>, runId: string, url: string, result: map<string, Json>,
                          rowId: string, now: Json): (r: (seq<TS.Row>, nat))
    requires "metadata" in result && result["metadata"].JObject?
    ensures r.1 < |r.0| && TS.Matches(r.0[r.1], DocumentKey(runId, url))
  {
    TS.Upserted(documents, DocumentKey(runId, url), DocumentKwargs(result), TS.DocumentColumns,
                DocumentDefaults(rowId, now)).value
  }

  /** The documents of the run hold no object-store paths. */
  predicate NoStoragePaths(documents: seq<TS.Row>, runId: string) {
    forall j :: 0 <= j < |documents| && Get(documents[j], "run_id") == JString(runId) ==>
      "markdown_path" !in documents[j] && "json_path" !in documents[j]
  }

  /** The worker never writes `markdown_path` or `json_path`: its upserts keep them unset. */
  lemma DocumentUpsertSetsNoPaths(documents: seq<TS.Row>, runId: string, url: string, result: map<string, Json>,
                                  rowId: string, now: Json)
    requires "metadata" in result && result["metadata"].JObject?
    requires NoStoragePaths(documents, runId)
    ensures NoStoragePaths(DocumentUpsert(documents, runId, url, result, rowId, now).0, runId)
  {
    var key := DocumentKey(runId, url);
    var kwargs := DocumentKwargs(result);
    var initial := DocumentDefaults(rowId, now);
    var r := DocumentUpsert(documents, runId, url, result, rowId, now);
    TS.UpsertedRowColumns(documents, key, kwargs, TS.DocumentColumns, initial, "markdown_path");
    TS.UpsertedRowColumns(documents, key, kwargs, TS.DocumentColumns, initial, "json_path");
    forall j | 0 <= j < |r.0| && Get(r.0[j], "run_id") == JString(runId)
      ensures "markdown_path" !in r.0[j] && "json_path" !in r.0[j]
    {
      if j != r.1 {
        assert r.0[j] == documents[j];
      }
    }
  }

  /** `f"{document.id}"`; the worker's documents always hold a text id. */
  function IdText(id: Json): string {
    if id.JString? then id.s else "None"
  }

  /** The objects `save_document_to_minio` writes, in order, with their content types. */
  function DocumentObjects(today: string, runId: string, documentId: string, result: map<string, Json>)
    : (r: seq<(string, string)>)
    ensures |r| <= 4
    ensures forall k :: 0 <= k < |r| ==> StartsWith(r[k].0, today + "/" + runId + "/")
    ensures Truthy(Get(result, "markdown")) ==>
              |r| > 0 && r[0] == (CS.MinioPath(today, runId, "markdown", documentId + ".md"), "text/markdown")
    ensures r == [] <==>
              !Truthy(Get(result, "markdown")) && !Truthy(Get(result, "structured_data")) &&
              !Truthy(Get(result, "screenshot")) && !Truthy(Get(result, "pdf"))
  {
    (if Truthy(Get(result, "markdown"))
     then [(CS.MinioPath(today, runId, "markdown", documentId + ".md"), "text/markdown")] else []) +
    (if Truthy(Get(result, "structured_data"))
     then [(CS.MinioPath(today, runId, "json", documentId + ".json"), "application/json")] else []) +
    (if Truthy(Get(result, "screenshot"))
     then [(CS.MinioPath(today, runId, "images", documentId + "_screenshot.png"), "image/png")] else []) +
    (if Truthy(Get(result, "pdf"))
     then [(CS.MinioPath(today, runId, "attachments", documentId + ".pdf"), "application/pdf")] else [])
  }

  /** `save_document_to_minio`: the uploads up to the first that raises; the error is swallowed. */
  function SavedObjects(today: string, runId: string, documentId: string, result: map<string, Json>,
                        uploadsBeforeRaise: nat): (r: seq<(string, string)>)
    ensures |r| <= uploadsBeforeRaise
    ensures r <= DocumentObjects(today, runId, documentId, result)
  {
    var objects := DocumentObjects(today, runId, documentId, result);
    if uploadsBeforeRaise < |objects| then objects[..uploadsBeforeRaise] else objects
  }

  /**
    `crawl_result.get('media', {}).get('images', [])`, as the loop sees it: a list
    gives its entries; a string or a dict gives entries that are text, on which
    `process_image` records nothing; any other value cannot be iterated and raises.
  */
  function ImageList(result: map<string, Json>): (r: Option<seq<Json>>)
    ensures "media" !in result ==> r == Some([])
    ensures r.None? <==>
              "media" in result &&
              (!result["media"].JObject? ||
               ("images" in result["media"].fields &&
                (result["media"].fields["images"].JNull? || result["media"].fields["images"].JBool? ||
                 result["media"].fields["images"].JInt?)))
    ensures r.Some? && r.value != [] ==>
              "media" in result && result["media"].JObject? && "images" in result["media"].fields &&
              result["media"].fields["images"] == JArray(r.value)
  {
    if "media" !in result then Some([])
    else match result["media"]
      case JObject(media) =>
        if "images" !in media then Some([])
        else (match media["images"]
          case JArray(items) => Some(items)
          case JString(_) => Some([])
          case JObject(_) => Some([])
          case _ => None)
      case _ => None
  }

  /**
    The part of one URL's iteration after a successful crawl: the document upsert,
    the object uploads, the images, and the registration, in this order.
  */
  method StoreCrawl(db: TS.Database, s: Settings, taskId: string, runId: string, url: string,
                    result: map<string, Json>, world: UrlWorld, w: RunWorld)
    returns (outcome: UrlOutcome, uploaded: seq<(string, string)>)
    requires db.Valid() && "metadata" in result && result["metadata"].JObject?
    modifies db
    ensures db.Valid()
    ensures db.tasks == old(db.tasks) && db.runs == old(db.runs) && db.attachments == old(db.attachments)
    ensures outcome in {Stored, Failed(AtDocument), Failed(AtImages), Failed(AtRegistration)}
    // The document upsert raises: nothing is written.
    ensures outcome == Failed(AtDocument) <==> world.fault == UpsertRaises
    ensures outcome == Failed(AtDocument) ==>
              db.documents == old(db.documents) && db.images == old(db.images) && db.registry == old(db.registry) &&
              uploaded == []
    // Otherwise the document is stored first, then its objects, then its images.
    ensures outcome != Failed(AtDocument) ==>
              var u := DocumentUpsert(old(db.documents), runId, url, result, world.documentRowId, w.now);
              var documentId := Get(u.0[u.1], "id");
              db.documents == u.0 &&
              uploaded == SavedObjects(w.today, runId, IdText(documentId), result, world.uploadsBeforeRaise) &&
              (outcome == Failed(AtImages) <==> ImageList(result).None?) &&
              db.images == (if ImageList(result).None? then old(db.images)
                            else ImagesRecorded(old(db.images), documentId, ImageList(result).value,
                                                PolicyOf(s, w, runId), world.images, w.now))
    // The URL is registered last, and only when everything before succeeded.
    ensures outcome == Stored <==> world.fault != UpsertRaises && ImageList(result).Some? && world.fault != RegisterRaises
    ensures db.registry == if outcome == Stored then TS.Registered(old(db.registry), url, taskId, w.now, world.registryRowId)
                           else old(db.registry)
    ensures NoStoragePaths(old(db.documents), runId) ==> NoStoragePaths(db.documents, runId)
  {
    uploaded := [];
    if world.fault == UpsertRaises {
      return Failed(AtDocument), [];
    }
    var documentId := StoreDocument(db, runId, url, result, world.documentRowId, w.now);
    uploaded := SavedObjects(w.today, runId, IdText(documentId), result, world.uploadsBeforeRaise);
    outcome := StoreImagesAndRegister(db, s, taskId, runId, url, result, world, w, documentId);
  }

  /** The upsert of the page's document; its id is what the rest of the step refers to. */
  method StoreDocument(db: TS.Database, runId: string, url: string, result: map<string, Json>, rowId: string, now: Json)
    returns (documentId: Json)
    requires db.Valid() && "metadata" in result && result["metadata"].JObject?
    modifies db
    ensures db.Valid()
    ensures db.tasks == old(db.tasks) && db.runs == old(db.runs) && db.attachments == old(db.attachments)
    ensures db.images == old(db.images) && db.registry == old(db.registry)
    ensures var u := DocumentUpsert(old(db.documents), runId, url, result, rowId, now);
            db.documents == u.0 && documentId == Get(u.0[u.1], "id")
    ensures NoStoragePaths(old(db.documents), runId) ==> NoStoragePaths(db.documents, runId)
  {
    var kwargs := DocumentKwargs(result);
    ghost var u := DocumentUpsert(db.documents, runId, url, result, rowId, now);
    var document := db.UpsertDocument(runId, url, kwargs, rowId, now);
    assert db.documents == u.0 && document.value == u.0[u.1];
    documentId := Get(document.value, "id");
    if NoStoragePaths(old(db.documents), runId) {
      DocumentUpsertSetsNoPaths(old(db.documents), runId, url, result, rowId, now);
    }
  }

  /** The images of a stored document, then the registration of its URL. */
  method StoreImagesAndRegister(db: TS.Database, s: Settings, taskId: string, runId: string, url: string,
                                result: map<string, Json>, world: UrlWorld, w: RunWorld, documentId: Json)
    returns (outcome: UrlOutcome)
    requires db.Valid()
    modifies db
    ensures db.Valid()
    ensures db.tasks == old(db.tasks) && db.runs == old(db.runs) && db.attachments == old(db.attachments)
    ensures db.documents == old(db.documents)
    ensures outcome in {Stored, Failed(AtImages), Failed(AtRegistration)}
    ensures outcome == Failed(AtImages) <==> ImageList(result).None?
    ensures db.images == (if ImageList(result).None? then old(db.images)
                          else ImagesRecorded(old(db.images), documentId, ImageList(result).value,
                                              PolicyOf(s, w, runId), world.images, w.now))
    ensures outcome == Stored <==> ImageList(result).Some? && world.fault != RegisterRaises
    ensures db.registry == if outcome == Stored then TS.Registered(old(db.registry), url, taskId, w.now, world.registryRowId)
                           else old(db.registry)
  {
    var images := ImageList(result);
    if images.None? {
      return Failed(AtImages);
    }
    ProcessImages(db, documentId, images.value, PolicyOf(s, w, runId), world.images, w.now);
    if world.fault == RegisterRaises {
      return Failed(AtRegistration);
    }
    var entry := db.RegisterUrl(url, taskId, w.now, world.registryRowId);
    outcome := Stored;
  }

  /** The engine as the crawl of URL `i` meets it. */
  function EngineAt(w: RunWorld, i: nat): CS.CrawlParams -> CS.EngineOutcome {
    (p: CS.CrawlParams) => w.engine(i, p)
  }

  /**
    The result dict of the crawl of URL `i`, given what the caller's params dict holds
    beforehand.
  */
  function UrlCrawl(s: Settings, llm: Option<CS.LlmConfig>, url: string, i: nat, w: RunWorld,
                    params: map<string, Json>): map<string, Json>
  {
    CS.CrawlOutcome(url, s.crawlConfig, CS.CrawlParamsOf(url, s.crawlConfig, llm, s.prompt, s.outputSchema, params),
                    EngineAt(w, i), w.parse)
  }

  /**
    How a URL that got past the dedup check ends, from the result of its crawl: the
    crawl, the document, the images and the registration, each of which ends the URL
    when it fails.
  */
  function StoreOutcome(world: UrlWorld, crawl: map<string, Json>): (r: UrlOutcome)
    ensures r in {Failed(AtCrawl), Failed(AtDocument), Failed(AtImages), Failed(AtRegistration), Stored}
    ensures r == Failed(AtCrawl) <==> Get(crawl, "success") != JBool(true)
    ensures r == Failed(AtDocument) <==> Get(crawl, "success") == JBool(true) && world.fault == UpsertRaises
    ensures r == Stored <==>
              Get(crawl, "success") == JBool(true) && world.fault != UpsertRaises &&
              ImageList(crawl).Some? && world.fault != RegisterRaises
  {
    if Get(crawl, "success") != JBool(true) then Failed(AtCrawl)
    else if world.fault == UpsertRaises then Failed(AtDocument)
    else if ImageList(crawl).None? then Failed(AtImages)
    else if world.fault == RegisterRaises then Failed(AtRegistration)
    else Stored
  }

  /**
    How one URL ends, from whether the registry marks it crawled for the task and from
    the result of its crawl.
  */
  function UrlOutcomeOf(s: Settings, url: Json, crawled: bool, world: UrlWorld, crawl: map<string, Json>)
    : (r: UrlOutcome)
    // A URL that is not text, or a raising check, fails before anything is crawled.
    ensures r == Failed(AtCheck) <==> !url.JString? || (s.deduplication && world.fault == CheckRaises)
    // Skipped exactly when deduplication finds the URL registered for this task.
    ensures r == Skipped <==> url.JString? && s.deduplication && world.fault != CheckRaises && crawled
    // Anything else is decided by the crawl and the storing steps.
    ensures r != Skipped && r != Failed(AtCheck) ==> r == StoreOutcome(world, crawl)
  {
    if !url.JString? then Failed(AtCheck)
    else if s.deduplication && world.fault == CheckRaises then Failed(AtCheck)
    else if s.deduplication && crawled then Skipped
    else StoreOutcome(world, crawl)
  }

  /** The storing of a successfully crawled page, as the URL loop sees it. */
  method StorePage(db: TS.Database, s: Settings, taskId: string, runId: string, url: string,
                   result: map<string, Json>, world: UrlWorld, w: RunWorld)
    returns (outcome: UrlOutcome, uploaded: seq<(string, string)>)
    requires db.Valid() && Get(result, "success") == JBool(true)
    requires "metadata" in result && result["metadata"].JObject?
    modifies db
    ensures db.Valid()
    ensures db.tasks == old(db.tasks) && db.runs == old(db.runs) && db.attachments == old(db.attachments)
    ensures outcome == StoreOutcome(world, result)
    ensures db.registry == if outcome == Stored then TS.Registered(old(db.registry), url, taskId, w.now, world.registryRowId)
                           else old(db.registry)
    ensures outcome == Stored ==>
              exists j :: 0 <= j < |db.documents| && TS.Matches(db.documents[j], DocumentKey(runId, url))
    ensures NoStoragePaths(old(db.documents), runId) ==> NoStoragePaths(db.documents, runId)
  {
    outcome, uploaded := StoreCrawl(db, s, taskId, runId, url, result, world, w);
  }

  /** The crawl of a URL that got past the dedup check, and the storing of its page. */
  method CrawlAndStore(db: TS.Database, llm: Option<CS.LlmConfig>, s: Settings, taskId: string, runId: string,
                       i: nat, url: string, w: RunWorld)
    returns (outcome: UrlOutcome, crawl: map<string, Json>, uploaded: seq<(string, string)>)
    requires db.Valid()
    modifies db, CS.CallerParams(llm)
    ensures db.Valid()
    ensures db.tasks == old(db.tasks) && db.runs == old(db.runs) && db.attachments == old(db.attachments)
    ensures crawl == UrlCrawl(s, llm, url, i, w, old(CS.ParamsEntries(llm)))
    ensures outcome == StoreOutcome(w.urls(i), crawl)
    ensures CS.ParamsEntries(llm) == CS.ParamsAfter(llm, s.prompt, old(CS.ParamsEntries(llm)))
    ensures outcome == Failed(AtCrawl) ==> db.documents == old(db.documents) && db.images == old(db.images) && uploaded == []
    ensures db.registry == if outcome == Stored
                           then TS.Registered(old(db.registry), url, taskId, w.now, w.urls(i).registryRowId)
                           else old(db.registry)
    ensures outcome == Stored ==>
              exists j :: 0 <= j < |db.documents| && TS.Matches(db.documents[j], DocumentKey(runId, url))
    ensures NoStoragePaths(old(db.documents), runId) ==> NoStoragePaths(db.documents, runId)
  {
    crawl := CS.CrawlUrl(url, s.crawlConfig, llm, s.prompt, s.outputSchema, EngineAt(w, i), w.parse);
    if !crawl["success"].b {
      return Failed(AtCrawl), crawl, [];
    }
    outcome, uploaded := StorePage(db, s, taskId, runId, url, crawl, w.urls(i), w);
  }

  /**
    One iteration of the URL loop: the dedup check, the crawl, and on success the
    storing of the page. A skipped URL and a failed crawl change nothing.
  */
  method ProcessUrl(db: TS.Database, llm: Option<CS.LlmConfig>, s: Settings, taskId: string, runId: string,
                    i: nat, url: Json, w: RunWorld)
    returns (outcome: UrlOutcome, result: Option<map<string, Json>>, uploaded: seq<(string, string)>)
    requires db.Valid()
    modifies db, CS.CallerParams(llm)
    ensures db.Valid()
    ensures db.tasks == old(db.tasks) && db.runs == old(db.runs) && db.attachments == old(db.attachments)
    // The outcome follows from the registry before the URL and the crawl's result.
    ensures var crawl := if url.JString? then UrlCrawl(s, llm, url.s, i, w, old(CS.ParamsEntries(llm))) else map[];
            outcome == UrlOutcomeOf(s, url, url.JString? && TS.IsCrawled(old(db.registry), url.s, taskId), w.urls(i), crawl) &&
            (result.Some? ==> result.value == crawl)
    ensures result.None? <==> outcome == Skipped || outcome == Failed(AtCheck)
    ensures CS.ParamsEntries(llm) == if result.Some? then CS.ParamsAfter(llm, s.prompt, old(CS.ParamsEntries(llm)))
                                     else old(CS.ParamsEntries(llm))
    ensures outcome in {Skipped, Failed(AtCheck), Failed(AtCrawl)} ==>
              db.documents == old(db.documents) && db.images == old(db.images) && uploaded == []
    // Registered exactly when stored, and then the page's document is in the table.
    ensures db.registry == if outcome == Stored
                           then TS.Registered(old(db.registry), url.s, taskId, w.now, w.urls(i).registryRowId)
                           else old(db.registry)
    ensures outcome == Stored ==>
              exists j :: 0 <= j < |db.documents| && TS.Matches(db.documents[j], DocumentKey(runId, url.s))
    ensures NoStoragePaths(old(db.documents), runId) ==> NoStoragePaths(db.documents, runId)
  {
    result, uploaded := None, [];
    var world := w.urls(i);
    if !url.JString? {
      return Failed(AtCheck), None, [];
    }
    if s.deduplication {
      if world.fault == CheckRaises {
        return Failed(AtCheck), None, [];
      }
      var crawled := db.IsUrlCrawled(url.s, taskId);
      if crawled {
        return Skipped, None, [];
      }
    }
    var crawl;
    outcome, crawl, uploaded := CrawlAndStore(db, llm, s, taskId, runId, i, url.s, w);
    result := Some(crawl);
  }

  /**
    The URL loop as a whole: the outcome of each URL and the registry the loop leaves,
    each URL seeing the registry the URLs before it left. The crawls all see the
    params dict as it was before the loop (`CrawlParamsStable`).
  */
  function UrlLoop(start: seq<TS.RegistryEntry>, s: Settings, llm: Option<CS.LlmConfig>, urls: seq<Json>,
                   taskId: string, w: RunWorld, params: map<string, Json>)
    : (r: (seq<UrlOutcome>, seq<TS.RegistryEntry>))
    ensures |r.0| == |urls|
    decreases |urls|
  {
    if urls == [] then ([], start)
    else
      var k := |urls| - 1;
      var before := UrlLoop(start, s, llm, urls[..k], taskId, w, params);
      var url := urls[k];
      var crawl := if url.JString? then UrlCrawl(s, llm, url.s, k, w, params) else map[];
      var o := UrlOutcomeOf(s, url, url.JString? && TS.IsCrawled(before.1, url.s, taskId), w.urls(k), crawl);
      (before.0 + [o],
       if o == Stored then TS.Registered(before.1, url.s, taskId, w.now, w.urls(k).registryRowId) else before.1)
  }

  /** The loop over one more URL is the loop so far followed by that URL's step. */
  lemma UrlLoopNext(start: seq<TS.RegistryEntry>, s: Settings, llm: Option<CS.LlmConfig>, urls: seq<Json>, i: nat,
                    taskId: string, w: RunWorld, params: map<string, Json>)
    requires i < |urls|
    ensures var before := UrlLoop(start, s, llm, urls[..i], taskId, w, params);
            var url := urls[i];
            var crawl := if url.JString? then UrlCrawl(s, llm, url.s, i, w, params) else map[];
            var o := UrlOutcomeOf(s, url, url.JString? && TS.IsCrawled(before.1, url.s, taskId), w.urls(i), crawl);
            UrlLoop(start, s, llm, urls[..i + 1], taskId, w, params) ==
            (before.0 + [o], if o == Stored then TS.Registered(before.1, url.s, taskId, w.now, w.urls(i).registryRowId)
                             else before.1)
  {
    assert urls[..i + 1][..i] == urls[..i];
  }

  /**
    Crawling with the params dict as earlier URLs left it is crawling with the dict as
    it was, and writing `base_url` again leaves it as it is.
  */
  lemma UrlCrawlStable(s: Settings, llm: Option<CS.LlmConfig>, url: Json, i: nat, w: RunWorld,
                       params: map<string, Json>, entries: map<string, Json>)
    requires entries == params || entries == CS.ParamsAfter(llm, s.prompt, params)
    ensures CS.ParamsAfter(llm, s.prompt, CS.ParamsAfter(llm, s.prompt, params)) == CS.ParamsAfter(llm, s.prompt, params)
    ensures url.JString? ==> UrlCrawl(s, llm, url.s, i, w, entries) == UrlCrawl(s, llm, url.s, i, w, params)
  {
    CS.CrawlParamsStable(if url.JString? then url.s else "", s.crawlConfig, llm, s.prompt, s.outputSchema, params);
  }

  /** Every stored URL among those with an outcome is marked crawled for the task. */
  predicate StoredAreCrawled(registry: seq<TS.RegistryEntry>, urls: seq<Json>, outcomes: seq<UrlOutcome>, taskId: string)
    requires |outcomes| <= |urls|
  {
    forall j :: 0 <= j < |outcomes| && outcomes[j] == Stored ==>
      urls[j].JString? && TS.IsCrawled(registry, urls[j].s, taskId)
  }

  /** Everything crawled in `after` was crawled in `before` or is one of `urls` for the task. */
  ghost predicate MarksOnlyOwnUrls(before: seq<TS.RegistryEntry>, after: seq<TS.RegistryEntry>, urls: seq<Json>,
                                   taskId: string)
  {
    forall v, t :: TS.IsCrawled(after, v, t) ==> TS.IsCrawled(before, v, t) || (t == taskId && JString(v) in urls)
  }

  /** One iteration keeps both registry invariants of the loop. */
  lemma UrlStepKeepsRegistry(start: seq<TS.RegistryEntry>, before: seq<TS.RegistryEntry>, after: seq<TS.RegistryEntry>,
                             urls: seq<Json>, outcomes: seq<UrlOutcome>, outcome: UrlOutcome, taskId: string,
                             now: Json, newId: string)
    requires |outcomes| < |urls|
    requires StoredAreCrawled(before, urls, outcomes, taskId) && MarksOnlyOwnUrls(start, before, urls[..|outcomes|], taskId)
    requires outcome == Stored ==> urls[|outcomes|].JString?
    requires after == if outcome == Stored then TS.Registered(before, urls[|outcomes|].s, taskId, now, newId) else before
    ensures StoredAreCrawled(after, urls, outcomes + [outcome], taskId)
    ensures MarksOnlyOwnUrls(start, after, urls[..|outcomes| + 1], taskId)
  {
    var i := |outcomes|;
    assert urls[..i + 1] == urls[..i] + [urls[i]];
    if outcome == Stored {
      var u := urls[i].s;
      forall j | 0 <= j < i && outcomes[j] == Stored ensures TS.IsCrawled(after, urls[j].s, taskId) {
        TS.RegisterKeepsCrawledForTask(before, u, taskId, now, newId, urls[j].s);
      }
      TS.RegisterThenCrawled(before, u, taskId, now, newId);
      forall v, t | TS.IsCrawled(after, v, t)
        ensures TS.IsCrawled(start, v, t) || (t == taskId && JString(v) in urls[..i + 1])
      {
        TS.RegisterMarksOnlyItsUrl(before, u, taskId, now, newId, v, t);
      }
    }
  }

  /** One iteration of the loop: the next URL processed, keeping the loop's invariants. */
  method RunUrl(db: TS.Database, llm: Option<CS.LlmConfig>, s: Settings, urls: seq<Json>, outcomes: seq<UrlOutcome>,
                taskId: string, runId: string, w: RunWorld, ghost start: seq<TS.RegistryEntry>,
                ghost params: map<string, Json>)
    returns (outcome: UrlOutcome, uploaded: seq<(string, string)>)
    requires db.Valid() && |outcomes| < |urls|
    requires StoredAreCrawled(db.registry, urls, outcomes, taskId)
    requires MarksOnlyOwnUrls(start, db.registry, urls[..|outcomes|], taskId)
    requires (outcomes, db.registry) == UrlLoop(start, s, llm, urls[..|outcomes|], taskId, w, params)
    requires CS.ParamsEntries(llm) == params || CS.ParamsEntries(llm) == CS.ParamsAfter(llm, s.prompt, params)
    modifies db, CS.CallerParams(llm)
    ensures db.Valid()
    ensures db.tasks == old(db.tasks) && db.runs == old(db.runs) && db.attachments == old(db.attachments)
    ensures outcome == Skipped ==> s.deduplication
    ensures StoredAreCrawled(db.registry, urls, outcomes + [outcome], taskId)
    ensures MarksOnlyOwnUrls(start, db.registry, urls[..|outcomes| + 1], taskId)
    ensures (outcomes + [outcome], db.registry) == UrlLoop(start, s, llm, urls[..|outcomes| + 1], taskId, w, params)
    ensures CS.ParamsEntries(llm) == params || CS.ParamsEntries(llm) == CS.ParamsAfter(llm, s.prompt, params)
    ensures NoStoragePaths(old(db.documents), runId) ==> NoStoragePaths(db.documents, runId)
  {
    var i := |outcomes|;
    ghost var before := db.registry;
    ghost var entries := CS.ParamsEntries(llm);
    UrlCrawlStable(s, llm, urls[i], i, w, params, entries);
    var result;
    outcome, result, uploaded := ProcessUrl(db, llm, s, taskId, runId, i, urls[i], w);
    UrlStepKeepsRegistry(start, before, db.registry, urls, outcomes, outcome, taskId, w.now, w.urls(i).registryRowId);
    UrlLoopNext(start, s, llm, urls, i, taskId, w, params);
  }

  /** The loop over the task's URLs, with the three counters. */
  method RunUrls(db: TS.Database, llm: Option<CS.LlmConfig>, s: Settings, urls: seq<Json>, taskId: string,
                 runId: string, w: RunWorld)
    returns (outcomes: seq<UrlOutcome>, counters: Counters, uploaded: seq<(string, string)>)
    requires db.Valid()
    modifies db, CS.CallerParams(llm)
    ensures db.Valid()
    ensures db.tasks == old(db.tasks) && db.runs == old(db.runs) && db.attachments == old(db.attachments)
    // Each URL ends as the registry left by the URLs before it and its crawl decide.
    ensures (outcomes, db.registry) == UrlLoop(old(db.registry), s, llm, urls, taskId, w, old(CS.ParamsEntries(llm)))
    ensures |outcomes| == |urls| && counters == Tally(outcomes)
    ensures forall j :: 0 <= j < |urls| && outcomes[j] == Skipped ==> s.deduplication
    // Every stored page is marked crawled for this task, so a rerun with dedup skips it.
    ensures forall j :: 0 <= j < |urls| && outcomes[j] == Stored ==>
              urls[j].JString? && TS.IsCrawled(db.registry, urls[j].s, taskId)
    // The run marks only its own URLs, and only for its own task.
    ensures forall v, t :: TS.IsCrawled(db.registry, v, t) ==>
              TS.IsCrawled(old(db.registry), v, t) || (t == taskId && JString(v) in urls)
    ensures NoStoragePaths(old(db.documents), runId) ==> NoStoragePaths(db.documents, runId)
  {
    outcomes, counters, uploaded := [], Counters(0, 0, 0), [];
    ghost var params := CS.ParamsEntries(llm);
    for i := 0 to |urls|
      invariant db.Valid()
      invariant db.tasks == old(db.tasks) && db.runs == old(db.runs) && db.attachments == old(db.attachments)
      invariant |outcomes| == i && counters == Tally(outcomes)
      invariant forall j :: 0 <= j < i && outcomes[j] == Skipped ==> s.deduplication
      invariant StoredAreCrawled(db.registry, urls, outcomes, taskId)
      invariant MarksOnlyOwnUrls(old(db.registry), db.registry, urls[..i], taskId)
      invariant (outcomes, db.registry) == UrlLoop(old(db.registry), s, llm, urls[..i], taskId, w, params)
      invariant CS.ParamsEntries(llm) == params || CS.ParamsEntries(llm) == CS.ParamsAfter(llm, s.prompt, params)
      invariant NoStoragePaths(old(db.documents), runId) ==> NoStoragePaths(db.documents, runId)
    {
      var outcome, more := RunUrl(db, llm, s, urls, outcomes, taskId, runId, w, old(db.registry), params);
      TallyNext(outcomes, outcome);
      outcomes := outcomes + [outcome];
      counters := Counted(counters, outcome);
      uploaded := uploaded + more;
    }
    assert urls[..|urls|] == urls;
  }

  // ---------------------------------------------------------------------------
  // generate_run_manifest and generate_resource_index

  /** The manifest of a run: its counters and the task's configuration. */
  function RunManifest(runId: string, task: TS.Row, c: Counters, generatedAt: Json): (r: map<string, Json>)
    ensures Get(r, "run_id") == JString(runId) && Get(r, "task_id") == Get(task, "id")
    ensures Get(r, "urls_crawled") == JInt(c.urlsCrawled) && Get(r, "urls_failed") == JInt(c.urlsFailed) &&
            Get(r, "documents_created") == JInt(c.documentsCreated)
    ensures Get(r, "task_name") == Get(task, "name") && Get(r, "started_at") == generatedAt
    ensures Get(r, "configuration").JObject? && Get(Get(r, "configuration").fields, "urls") == Get(task, "urls")
    ensures Get(r, "configuration").JObject? &&
            Get(Get(r, "configuration").fields, "deduplication_enabled") == Get(task, "deduplication_enabled") &&
            Get(Get(r, "configuration").fields, "llm_provider") == Get(task, "llm_provider") &&
            Get(Get(r, "configuration").fields, "llm_model") == Get(task, "llm_model")
  {
    map["run_id" := JString(runId), "task_id" := Get(task, "id"), "task_name" := Get(task, "name"),
        // the manifest's `started_at` is the time it is generated
        "started_at" := generatedAt,
        "urls_crawled" := JInt(c.urlsCrawled), "urls_failed" := JInt(c.urlsFailed),
        "documents_created" := JInt(c.documentsCreated),
        "configuration" := JObject(map[
          "urls" := Get(task, "urls"), "deduplication_enabled" := Get(task, "deduplication_enabled"),
          "llm_provider" := Get(task, "llm_provider"), "llm_model" := Get(task, "llm_model")])]
  }

  /** The rows whose `column` holds one of `values`, in table order. */
  function SelectRows(rows: seq<TS.Row>, column: string, values: set<Json>): (r: seq<TS.Row>)
    ensures |r| <= |rows|
    ensures forall x :: x in r <==> x in rows && Get(x, column) in values
  {
    if rows == [] then []
    else (if Get(rows[0], column) in values then [rows[0]] else []) + SelectRows(rows[1..], column, values)
  }

  /** `get_run_documents`: the documents of the run. */
  function RunDocuments(documents: seq<TS.Row>, runId: string): seq<TS.Row> {
    SelectRows(documents, "run_id", {JString(runId)})
  }

  /** `get_run_images` and `get_run_attachments`: the rows joined to a document of the run. */
  function RunResources(rows: seq<TS.Row>, documents: seq<TS.Row>, runId: string): seq<TS.Row> {
    SelectRows(rows, "document_id", TS.DocumentIdsOf(documents, {JString(runId)}))
  }

  function DocumentEntry(d: TS.Row): Json {
    JObject(map["id" := Get(d, "id"), "source_url" := Get(d, "source_url"), "title" := Get(d, "title"),
                "markdown_path" := Get(d, "markdown_path"), "json_path" := Get(d, "json_path")])
  }

  function ResourceEntry(x: TS.Row): Json {
    JObject(map["id" := Get(x, "id"), "original_url" := Get(x, "original_url"), "minio_path" := Get(x, "minio_path"),
                "download_status" := Get(x, "download_status")])
  }

  function Entries(rows: seq<TS.Row>, entry: TS.Row -> Json): (r: seq<Json>)
    ensures |r| == |rows| && forall k :: 0 <= k < |rows| ==> r[k] == entry(rows[k])
  {
    seq(|rows|, k requires 0 <= k < |rows| => entry(rows[k]))
  }

  /** The resource index of a run: one entry per document, image and attachment of the run. */
  function ResourceIndex(documents: seq<TS.Row>, images: seq<TS.Row>, attachments: seq<TS.Row>, runId: string,
                         generatedAt: Json): (r: map<string, Json>)
    ensures Get(r, "run_id") == JString(runId)
    ensures Get(r, "documents").JArray? && Get(r, "images").JArray? && Get(r, "attachments").JArray?
    ensures |Get(r, "documents").items| <= |documents| && |Get(r, "images").items| <= |images| &&
            |Get(r, "attachments").items| <= |attachments|
  {
    map["run_id" := JString(runId), "generated_at" := generatedAt,
        "documents" := JArray(Entries(RunDocuments(documents, runId), DocumentEntry)),
        "images" := JArray(Entries(RunResources(images, documents, runId), ResourceEntry)),
        "attachments" := JArray(Entries(RunResources(attachments, documents, runId), ResourceEntry))]
  }

  /** Every document of the run has its entry in the index, and the index lists no other. */
  lemma IndexListsRunDocuments(documents: seq<TS.Row>, images: seq<TS.Row>, attachments: seq<TS.Row>, runId: string,
                               generatedAt: Json, e: Json)
    ensures e in Get(ResourceIndex(documents, images, attachments, runId, generatedAt), "documents").items <==>
              exists j :: 0 <= j < |documents| && Get(documents[j], "run_id") == JString(runId) &&
                          e == DocumentEntry(documents[j])
  {
    assert Get(ResourceIndex(documents, images, attachments, runId, generatedAt), "documents").items ==
           Entries(RunDocuments(documents, runId), DocumentEntry);
    EntriesOfSelected(documents, "run_id", {JString(runId)}, DocumentEntry, e);
  }

  /** The entries of the selected rows are exactly the entries of rows holding the value. */
  lemma EntriesOfSelected(rows: seq<TS.Row>, column: string, values: set<Json>, entry: TS.Row -> Json, e: Json)
    ensures e in Entries(SelectRows(rows, column, values), entry) <==>
              exists j :: 0 <= j < |rows| && Get(rows[j], column) in values && e == entry(rows[j])
  {
    var selected := SelectRows(rows, column, values);
    var items := Entries(selected, entry);
    if e in items {
      var k :| 0 <= k < |items| && items[k] == e;
      assert selected[k] in selected;
      var j :| 0 <= j < |rows| && rows[j] == selected[k];
    }
    if exists j :: 0 <= j < |rows| && Get(rows[j], column) in values && e == entry(rows[j]) {
      var j :| 0 <= j < |rows| && Get(rows[j], column) in values && e == entry(rows[j]);
      assert rows[j] in selected;
      var k :| 0 <= k < |selected| && selected[k] == rows[j];
      assert items[k] == e;
    }
  }

  /** The image entries of the index are exactly the entries of the images joined to a document of the run. */
  lemma IndexListsRunImages(documents: seq<TS.Row>, images: seq<TS.Row>, attachments: seq<TS.Row>, runId: string,
                            generatedAt: Json, e: Json)
    ensures e in Get(ResourceIndex(documents, images, attachments, runId, generatedAt), "images").items <==>
              exists j, d :: 0 <= j < |images| && d in documents && Get(d, "run_id") == JString(runId) &&
                             Get(images[j], "document_id") == Get(d, "id") && e == ResourceEntry(images[j])
  {
    assert Get(ResourceIndex(documents, images, attachments, runId, generatedAt), "images").items ==
           Entries(RunResources(images, documents, runId), ResourceEntry);
    ResourceEntriesOfRun(images, documents, runId, e);
  }

  /** The attachment entries of the index are exactly the entries of the attachments joined to a document of the run. */
  lemma IndexListsRunAttachments(documents: seq<TS.Row>, images: seq<TS.Row>, attachments: seq<TS.Row>, runId: string,
                                 generatedAt: Json, e: Json)
    ensures e in Get(ResourceIndex(documents, images, attachments, runId, generatedAt), "attachments").items <==>
              exists j, d :: 0 <= j < |attachments| && d in documents && Get(d, "run_id") == JString(runId) &&
                             Get(attachments[j], "document_id") == Get(d, "id") && e == ResourceEntry(attachments[j])
  {
    assert Get(ResourceIndex(documents, images, attachments, runId, generatedAt), "attachments").items ==
           Entries(RunResources(attachments, documents, runId), ResourceEntry);
    ResourceEntriesOfRun(attachments, documents, runId, e);
  }

  /** The entries of the rows joined to a document of the run, by the document they name. */
  lemma ResourceEntriesOfRun(rows: seq<TS.Row>, documents: seq<TS.Row>, runId: string, e: Json)
    ensures e in Entries(RunResources(rows, documents, runId), ResourceEntry) <==>
              exists j, d :: 0 <= j < |rows| && d in documents && Get(d, "run_id") == JString(runId) &&
                             Get(rows[j], "document_id") == Get(d, "id") && e == ResourceEntry(rows[j])
  {
    var ids := TS.DocumentIdsOf(documents, {JString(runId)});
    EntriesOfSelected(rows, "document_id", ids, ResourceEntry, e);
    if e in Entries(RunResources(rows, documents, runId), ResourceEntry) {
      var j :| 0 <= j < |rows| && Get(rows[j], "document_id") in ids && e == ResourceEntry(rows[j]);
      var d :| d in documents && Get(d, "run_id") in {JString(runId)} && Get(rows[j], "document_id") == Get(d, "id");
    }
  }

  /**
    The worker never writes `markdown_path` or `json_path`, so the index lists both as
    null for every document of the run, although the objects are uploaded.
  */
  lemma IndexListsNoStoragePaths(documents: seq<TS.Row>, images: seq<TS.Row>, attachments: seq<TS.Row>, runId: string,
                                 generatedAt: Json, k: nat)
    requires NoStoragePaths(documents, runId)
    requires k < |Get(ResourceIndex(documents, images, attachments, runId, generatedAt), "documents").items|
    ensures var e := Get(ResourceIndex(documents, images, attachments, runId, generatedAt), "documents").items[k];
            e.JObject? && e.fields["markdown_path"] == JNull && e.fields["json_path"] == JNull
  {
    var docs := RunDocuments(documents, runId);
    assert docs[k] in docs;
    var j :| 0 <= j < |documents| && documents[j] == docs[k];
  }

  // ---------------------------------------------------------------------------
  // execute_crawl_task_async

  /** The run row after `update_run_status(run_id, status, **fields)`. */
  function StatusUpdated(run: TS.Row, status: string, fields: TS.Row): (r: TS.Row)
    ensures "status" !in fields ==> Get(r, "status") == JString(status)
    ensures forall k :: k in fields && k in TS.RunColumns ==> k in r && r[k] == fields[k]
    ensures forall k :: k in run && k != "status" && k !in fields ==> k in r && r[k] == run[k]
  {
    TS.Assigned(run["status" := JString(status)], fields, TS.RunColumns)
  }

  function FailureFields(message: string, completedAt: Json): TS.Row {
    map["completed_at" := completedAt, "error_message" := JString(message)]
  }

  function ManifestPath(today: string, runId: string): string {
    CS.MinioPath(today, runId, "logs", "run_manifest.json")
  }

  function IndexPath(today: string, runId: string): string {
    CS.MinioPath(today, runId, "logs", "resource_index.json")
  }

  /** The run's paths use the UTC date; the manifest's object name uses the local one. */
  function CompletionFields(c: Counters, w: RunWorld, runId: string): TS.Row {
    map["completed_at" := w.completedAt, "urls_crawled" := JInt(c.urlsCrawled), "urls_failed" := JInt(c.urlsFailed),
        "documents_created" := JInt(c.documentsCreated), "minio_path" := JString(w.utcToday + "/" + runId),
        "manifest_path" := JString(ManifestPath(w.today, runId)),
        "logs_path" := JString(w.utcToday + "/" + runId + "/logs")]
  }

  /** The manifest lies under the run's `logs_path` when the local and the UTC date agree. */
  lemma ManifestUnderLogsPath(w: RunWorld, runId: string)
    requires w.today == w.utcToday
    ensures var logs := CompletionFields(Counters(0, 0, 0), w, runId)["logs_path"].s;
            StartsWith(ManifestPath(w.today, runId), logs + "/")
  {
    assert ManifestPath(w.today, runId) == (w.utcToday + "/" + runId + "/logs" + "/") + "run_manifest.json";
  }

  /**
    `for url in task.urls`: a list gives its items and a string its characters; any
    other value makes the loop raise before its first iteration.
  */
  function UrlsOf(task: TS.Row): (r: Result<seq<Json>, string>)
    ensures Get(task, "urls").JArray? ==> r == Success(Get(task, "urls").items)
    ensures r.Success? <==> Get(task, "urls").JArray? || Get(task, "urls").JString?
  {
    match Get(task, "urls")
    case JArray(items) => Success(items)
    case JString(text) => Success(seq(|text|, k requires 0 <= k < |text| => JString([text[k]])))
    case v => Failure("'" + TypeName(v) + "' object is not iterable")
  }

  /** The exception raised after the run went `running` and before its first URL, if any. */
  function EarlyFailure(task: TS.Row, w: RunWorld): (r: Option<string>)
    ensures r.None? <==> w.startRaises.None? && (Get(task, "urls").JArray? || Get(task, "urls").JString?)
    ensures w.startRaises.Some? ==> r == w.startRaises
    ensures w.startRaises.None? && r.Some? ==> r.value == "'" + TypeName(Get(task, "urls")) + "' object is not iterable"
  {
    if w.startRaises.Some? then w.startRaises
    else if UrlsOf(task).Failure? then Some(UrlsOf(task).error)
    else None
  }

  /** The message of the exception that fails a run once it is `running`, if any. */
  function RunFailure(task: TS.Row, w: RunWorld): Option<string> {
    if EarlyFailure(task, w).Some? then EarlyFailure(task, w) else w.finishRaises
  }

  /** The columns the end of a run may write; the others keep their value. */
  const FinishedColumns: set<string> := {
    "status", "completed_at", "error_message", "urls_crawled", "urls_failed", "documents_created", "minio_path",
    "manifest_path", "logs_path"}

  /** The run's row at the end, from its row while `running` and the outcomes of its URLs. */
  function FinalRun(running: TS.Row, task: TS.Row, w: RunWorld, outcomes: seq<UrlOutcome>, runId: string): TS.Row {
    match RunFailure(task, w)
    case Some(message) => StatusUpdated(running, "failed", FailureFields(message, w.completedAt))
    case None => StatusUpdated(running, "completed", CompletionFields(Tally(outcomes), w, runId))
  }

  /** A failed run records when it ended and the message of what raised. */
  lemma FailedRunFields(running: TS.Row, task: TS.Row, w: RunWorld, outcomes: seq<UrlOutcome>, runId: string)
    requires RunFailure(task, w).Some?
    ensures var r := FinalRun(running, task, w, outcomes, runId);
            Get(r, "completed_at") == w.completedAt && Get(r, "error_message") == JString(RunFailure(task, w).value)
  {
    var fields := FailureFields(RunFailure(task, w).value, w.completedAt);
    assert FinalRun(running, task, w, outcomes, runId) == StatusUpdated(running, "failed", fields);
    assert "completed_at" in fields && "error_message" in fields;
  }

  /** A completed run records when it ended and the paths of its objects, under the UTC date. */
  lemma CompletedRunPaths(running: TS.Row, task: TS.Row, w: RunWorld, outcomes: seq<UrlOutcome>, runId: string)
    requires RunFailure(task, w).None?
    ensures var r := FinalRun(running, task, w, outcomes, runId);
            Get(r, "completed_at") == w.completedAt &&
            Get(r, "minio_path") == JString(w.utcToday + "/" + runId) &&
            Get(r, "logs_path") == JString(w.utcToday + "/" + runId + "/logs") &&
            Get(r, "manifest_path") == JString(ManifestPath(w.today, runId))
  {
    var fields := CompletionFields(Tally(outcomes), w, runId);
    assert FinalRun(running, task, w, outcomes, runId) == StatusUpdated(running, "completed", fields);
    assert "completed_at" in TS.RunColumns && "minio_path" in TS.RunColumns;
    assert "logs_path" in TS.RunColumns && "manifest_path" in TS.RunColumns;
    assert "completed_at" in fields && "minio_path" in fields && "logs_path" in fields && "manifest_path" in fields;
  }

  /**
    The objects written under the run's `logs`: the manifest, then the index of the
    tables as the loop left them; nothing when the run fails.
  */
  function RunLogs(task: TS.Row, w: RunWorld, outcomes: seq<UrlOutcome>, runId: string, documents: seq<TS.Row>,
                   images: seq<TS.Row>, attachments: seq<TS.Row>): (r: seq<(string, map<string, Json>)>)
    ensures r == [] <==> RunFailure(task, w).Some?
    ensures r != [] ==> |r| == 2 && StartsWith(r[0].0, w.today + "/" + runId + "/") && StartsWith(r[1].0, w.today + "/" + runId + "/")
  {
    if RunFailure(task, w).Some? then []
    else [(ManifestPath(w.today, runId), RunManifest(runId, task, Tally(outcomes), w.manifestAt)),
          (IndexPath(w.today, runId), ResourceIndex(documents, images, attachments, runId, w.indexAt))]
  }

  /** A run that reached `running` ends completed or failed, completed exactly when nothing raised. */
  lemma FinalRunSettled(running: TS.Row, task: TS.Row, w: RunWorld, outcomes: seq<UrlOutcome>, runId: string)
    ensures var status := Get(FinalRun(running, task, w, outcomes, runId), "status");
            (status == JString("completed") || status == JString("failed")) &&
            (status == JString("completed") <==> RunFailure(task, w).None?)
  {
    match RunFailure(task, w)
    case Some(message) =>
      var fields := FailureFields(message, w.completedAt);
      assert fields.Keys == {"completed_at", "error_message"};
    case None =>
      var fields := CompletionFields(Tally(outcomes), w, runId);
      assert fields.Keys == {"completed_at", "urls_crawled", "urls_failed", "documents_created", "minio_path",
                             "manifest_path", "logs_path"};
  }

  /** The end of a run writes only its status, times, counters, paths and error: every other column keeps its value. */
  lemma FinalRunKeepsColumns(running: TS.Row, task: TS.Row, w: RunWorld, outcomes: seq<UrlOutcome>, runId: string,
                             k: string)
    requires k in running && k !in FinishedColumns
    ensures k in FinalRun(running, task, w, outcomes, runId) && FinalRun(running, task, w, outcomes, runId)[k] == running[k]
  {
    if RunFailure(task, w).Some? {
      assert k !in FailureFields(RunFailure(task, w).value, w.completedAt);
    } else {
      assert k !in CompletionFields(Tally(outcomes), w, runId);
    }
  }

  /** A completed run stores the counters its manifest reports, and they are the tally of its URLs. */
  lemma ManifestAgreesWithRun(running: TS.Row, task: TS.Row, w: RunWorld, outcomes: seq<UrlOutcome>, runId: string)
    requires RunFailure(task, w).None?
    ensures var r := FinalRun(running, task, w, outcomes, runId);
            var m := RunManifest(runId, task, Tally(outcomes), w.manifestAt);
            Get(m, "urls_crawled") == Get(r, "urls_crawled") == JInt(Tally(outcomes).urlsCrawled) &&
            Get(m, "urls_failed") == Get(r, "urls_failed") == JInt(Tally(outcomes).urlsFailed) &&
            Get(m, "documents_created") == Get(r, "documents_created") == JInt(Tally(outcomes).documentsCreated)
  {
    var fields := CompletionFields(Tally(outcomes), w, runId);
    assert "urls_crawled" in fields && "urls_failed" in fields && "documents_created" in fields;
  }

  /**
    The run once it is `running`: the LLM settings, the loop over the URLs, then the
    manifest and the index, or the failure of whatever raised.
  */
  method RunTask(db: TS.Database, task: TS.Row, taskId: string, runId: string, w: RunWorld)
    returns (outcomes: seq<UrlOutcome>, logs: seq<(string, map<string, Json>)>, uploaded: seq<(string, string)>)
    requires db.Valid() && runId in db.runs
    modifies db
    ensures db.Valid()
    ensures db.tasks == old(db.tasks) && db.attachments == old(db.attachments)
    ensures db.runs == old(db.runs)[runId := FinalRun(old(db.runs)[runId], task, w, outcomes, runId)]
    ensures EarlyFailure(task, w).Some? ==>
              outcomes == [] && uploaded == [] && db.documents == old(db.documents) &&
              db.images == old(db.images) && db.registry == old(db.registry)
    ensures EarlyFailure(task, w).None? ==> |outcomes| == |UrlsOf(task).value|
    ensures logs == RunLogs(task, w, outcomes, runId, db.documents, db.images, db.attachments)
    ensures forall v, t :: TS.IsCrawled(db.registry, v, t) ==> TS.IsCrawled(old(db.registry), v, t) || t == taskId
    ensures NoStoragePaths(old(db.documents), runId) ==> NoStoragePaths(db.documents, runId)
  {
    outcomes, logs, uploaded := [], [], [];
    var llm: Option<CS.LlmConfig> := None;
    var llmSettings := LlmSettings(task);
    if llmSettings.Some? {
      var params := new CS.Params(llmSettings.value.2);
      llm := Some(CS.LlmConfig(Some(llmSettings.value.0), Some(llmSettings.value.1), Some(params)));
    }
    var early := EarlyFailure(task, w);
    if early.Some? {
      var _ := db.UpdateRunStatus(runId, "failed", FailureFields(early.value, w.completedAt));
      return;
    }
    var counters;
    outcomes, counters, uploaded := RunUrls(db, llm, SettingsOf(task), UrlsOf(task).value, taskId, runId, w);
    logs := FinishRun(db, task, runId, w, outcomes, counters);
  }

  /** After the loop: the manifest and the index, then the run's final status. */
  method FinishRun(db: TS.Database, task: TS.Row, runId: string, w: RunWorld, outcomes: seq<UrlOutcome>,
                   counters: Counters)
    returns (logs: seq<(string, map<string, Json>)>)
    requires db.Valid() && runId in db.runs && EarlyFailure(task, w).None? && counters == Tally(outcomes)
    modifies db
    ensures db.Valid()
    ensures db.tasks == old(db.tasks) && db.documents == old(db.documents) && db.images == old(db.images)
    ensures db.attachments == old(db.attachments) && db.registry == old(db.registry)
    ensures db.runs == old(db.runs)[runId := FinalRun(old(db.runs)[runId], task, w, outcomes, runId)]
    ensures logs == RunLogs(task, w, outcomes, runId, db.documents, db.images, db.attachments)
  {
    if w.finishRaises.Some? {
      assert RunFailure(task, w) == w.finishRaises;
      SetRunStatus(db, runId, "failed", FailureFields(w.finishRaises.value, w.completedAt));
      return [];
    }
    assert RunFailure(task, w).None?;
    var manifest := RunManifest(runId, task, counters, w.manifestAt);
    var index := ResourceIndex(db.documents, db.images, db.attachments, runId, w.indexAt);
    logs := [(ManifestPath(w.today, runId), manifest), (IndexPath(w.today, runId), index)];
    SetRunStatus(db, runId, "completed", CompletionFields(counters, w, runId));
  }

  /** `update_crawl_task_run_status` on a run that exists, with fields that do not name the status. */
  method SetRunStatus(db: TS.Database, runId: string, status: string, fields: TS.Row)
    requires db.Valid() && runId in db.runs
    requires fields.Keys <= {"completed_at", "error_message", "urls_crawled", "urls_failed", "documents_created",
                             "minio_path", "manifest_path", "logs_path"}
    modifies db
    ensures db.Valid()
    ensures db.tasks == old(db.tasks) && db.documents == old(db.documents) && db.images == old(db.images)
    ensures db.attachments == old(db.attachments) && db.registry == old(db.registry)
    ensures db.runs == old(db.runs)[runId := StatusUpdated(old(db.runs)[runId], status, fields)]
  {
    var _ := db.UpdateRunStatus(runId, status, fields);
  }

  lemma UpdateTwice<K, V>(m: map<K, V>, k: K, a: V, b: V)
    ensures m[k := a][k := b] == m[k := b]
  {
  }

  /**
    One run of a task. A missing task fails the run and a missing run changes nothing;
    otherwise the run goes `running` and ends as `RunTask` leaves it.
  */
  method ExecuteCrawlTask(db: TS.Database, taskId: string, runId: string, w: RunWorld)
    returns (outcomes: seq<UrlOutcome>, logs: seq<(string, map<string, Json>)>, uploaded: seq<(string, string)>)
    requires db.Valid()
    modifies db
    ensures db.Valid()
    ensures db.tasks == old(db.tasks) && db.attachments == old(db.attachments)
    ensures taskId !in old(db.tasks) ==>
              db.runs == if runId in old(db.runs)
                         then old(db.runs)[runId := StatusUpdated(old(db.runs)[runId], "failed",
                                                                  FailureFields("Task not found: " + taskId, w.completedAt))]
                         else old(db.runs)
    ensures taskId in old(db.tasks) && runId !in old(db.runs) ==> db.runs == old(db.runs)
    ensures taskId in old(db.tasks) && runId in old(db.runs) ==>
              var running := StatusUpdated(old(db.runs)[runId], "running", map["started_at" := w.startedAt]);
              db.runs == old(db.runs)[runId := FinalRun(running, old(db.tasks)[taskId], w, outcomes, runId)] &&
              logs == RunLogs(old(db.tasks)[taskId], w, outcomes, runId, db.documents, db.images, db.attachments)
    // No URL is processed when the task or the run is missing or the loop cannot start.
    ensures (taskId !in old(db.tasks) || runId !in old(db.runs) || EarlyFailure(old(db.tasks)[taskId], w).Some?) ==>
              outcomes == [] && logs == [] && uploaded == [] && db.documents == old(db.documents) &&
              db.images == old(db.images) && db.registry == old(db.registry)
    ensures taskId in old(db.tasks) && runId in old(db.runs) && EarlyFailure(old(db.tasks)[taskId], w).None? ==>
              |outcomes| == |UrlsOf(old(db.tasks)[taskId]).value|
    // The run ends completed or failed.
    ensures runId in old(db.runs) ==>
              runId in db.runs &&
              (Get(db.runs[runId], "status") == JString("completed") || Get(db.runs[runId], "status") == JString("failed"))
    // Only the task's own URLs are marked crawled.
    ensures forall v, t :: TS.IsCrawled(db.registry, v, t) ==> TS.IsCrawled(old(db.registry), v, t) || t == taskId
    ensures NoStoragePaths(old(db.documents), runId) ==> NoStoragePaths(db.documents, runId)
  {
    outcomes, logs, uploaded := [], [], [];
    if taskId !in db.tasks {
      var _ := db.UpdateRunStatus(runId, "failed", FailureFields("Task not found: " + taskId, w.completedAt));
      if runId in old(db.runs) {
        assert "status" !in FailureFields("Task not found: " + taskId, w.completedAt);
      }
      return;
    }
    var task := db.tasks[taskId];
    if runId !in db.runs {
      // the failure handler's update finds no run
      return;
    }
    ghost var running := StatusUpdated(db.runs[runId], "running", map["started_at" := w.startedAt]);
    var _ := db.UpdateRunStatus(runId, "running", map["started_at" := w.startedAt]);
    assert db.runs == old(db.runs)[runId := running];
    outcomes, logs, uploaded := RunTask(db, task, taskId, runId, w);
    ghost var final := FinalRun(running, task, w, outcomes, runId);
    UpdateTwice(old(db.runs), runId, running, final);
    FinalRunSettled(running, task, w, outcomes, runId);
  }
}
