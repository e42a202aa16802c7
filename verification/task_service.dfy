/**
  The task, run, document and URL-registry services over an in-memory database.
  Rows of the ORM tables are attribute maps (a missing key reads as SQL NULL); the
  URL registry has typed entries. Timestamps and generated ids are parameters.
*/
module TaskService {
  import opened Wrappers
  import opened Json
  import TaskSchema

  type Row = map<string, Json>

  const TaskColumns: set<string> := {
    "id", "name", "description", "urls", "crawl_config", "llm_provider", "llm_model", "llm_params",
    "prompt_template", "output_schema", "deduplication_enabled", "only_after_date",
    "fallback_download_enabled", "fallback_max_size_mb", "created_at", "updated_at"}

  /**
    The task columns declared `nullable=False` whose type writes Python's `None` as SQL
    NULL. The JSON columns `urls` and `crawl_config` are also declared not null, but a
    JSON column writes `None` as the JSON value `null`, which the constraint accepts.
  */
  const TaskNotNullColumns: set<string> := {"id", "name", "created_at", "updated_at"}

  /** Whether committing these assignments would put NULL into a not-null task column. */
  predicate NullsRequiredColumn(update: Row) {
    exists k :: k in update && k in TaskNotNullColumns && update[k] == JNull
  }

  /**
    Of the updates the request schema accepts, exactly those giving `name` as null make
    the commit fail: the other not-null columns cannot be named by an update, and a null
    URL list or crawl configuration is stored as JSON `null`.
  */
  lemma AcceptedUpdateFailsOnlyOnNullName(m: map<string, Json>)
    requires TaskSchema.ValidateUpdate(m).Success?
    ensures NullsRequiredColumn(TaskSchema.ValidateUpdate(m).value) <==> "name" in m && m["name"] == JNull
  {
    NullsOnlyName(m, TaskSchema.ValidateUpdate(m).value);
  }

  /**
    An update holding the declared keys of a request, with their values apart from the
    crawl configuration, puts NULL into a not-null column only through `name`.
  */
  lemma NullsOnlyName(m: map<string, Json>, u: Row)
    requires u.Keys == m.Keys * TaskSchema.UpdateKeys
    requires forall k :: k in u && k != "crawl_config" ==> u[k] == m[k]
    ensures NullsRequiredColumn(u) <==> "name" in m && m["name"] == JNull
  {
    if "name" in m && m["name"] == JNull {
      assert "name" in u && u["name"] == JNull;
    }
    if NullsRequiredColumn(u) {
      var k :| k in u && k in TaskNotNullColumns && u[k] == JNull;
      assert k in TaskSchema.UpdateKeys;
      assert k == "name";
    }
  }

  /** What `update_task` comes to: the task updated, no such task, or a refused commit. */
  datatype UpdateOutcome = Updated | NoSuchTask | NotNullViolation

  const RunColumns: set<string> := {
    "id", "task_id", "status", "started_at", "completed_at", "urls_crawled", "urls_failed",
    "documents_created", "minio_path", "manifest_path", "logs_path", "error_message", "created_at"}

  const DocumentColumns: set<string> := {
    "id", "run_id", "source_url", "title", "content", "structured_data", "metadata", "crawled_at",
    "markdown_path", "json_path", "created_at", "updated_at"}

  const ImageColumns: set<string> := {
    "id", "document_id", "original_url", "minio_path", "alt_text", "size_bytes", "mime_type",
    "download_status", "download_method", "created_at"}

  const AttachmentColumns: set<string> := {
    "id", "document_id", "original_url", "minio_path", "filename", "size_bytes", "mime_type",
    "download_status", "download_method", "created_at"}

  /** Column defaults applied when a row is inserted. */
  function RunDefaults(now: Json): Row {
    map["status" := JString("pending"), "urls_crawled" := JInt(0), "urls_failed" := JInt(0),
        "documents_created" := JInt(0), "created_at" := now]
  }

  function DocumentDefaults(now: Json): Row {
    map["crawled_at" := now, "created_at" := now, "updated_at" := now]
  }

  function ImageDefaults(now: Json): Row {
    map["download_status" := JString("pending"), "created_at" := now]
  }

  function AttachmentDefaults(now: Json): Row {
    map["download_status" := JString("pending"), "created_at" := now]
  }

  // ---------------------------------------------------------------------------
  // setattr loops

  /**
    The row after `setattr(row, key, value)` for every keyword whose key names an
    attribute: those keys take the new values and every other column keeps its value.
  */
  function Assigned(row: Row, kwargs: Row, attributes: set<string>): (r: Row)
    ensures r.Keys == row.Keys + (kwargs.Keys * attributes)
    ensures forall k :: k in kwargs && k in attributes ==> r[k] == kwargs[k]
    ensures forall k :: k in row && !(k in kwargs && k in attributes) ==> r[k] == row[k]
  {
    map k | k in row.Keys + (kwargs.Keys * attributes) :: if k in kwargs && k in attributes then kwargs[k] else row[k]
  }

  /** Assigning the same keywords twice is assigning them once. */
  lemma AssignedIdempotent(row: Row, kwargs: Row, attributes: set<string>)
    ensures Assigned(Assigned(row, kwargs, attributes), kwargs, attributes) == Assigned(row, kwargs, attributes)
  {
  }

  /** `for key, value in kwargs.items(): if hasattr(row, key): setattr(row, key, value)`. */
  method SetAttributes(row: Row, kwargs: Row, attributes: set<string>) returns (r: Row)
    ensures r == Assigned(row, kwargs, attributes)
  {
    r := row;
    var pending := kwargs.Keys;
    while pending != {}
      invariant pending <= kwargs.Keys
      invariant r == Assigned(row, kwargs - pending, attributes)
      decreases pending
    {
      var key :| key in pending;
      AssignedOneMore(row, kwargs - pending, key, kwargs[key], attributes);
      assert kwargs - (pending - {key}) == (kwargs - pending)[key := kwargs[key]];
      if key in attributes {
        r := r[key := kwargs[key]];
      }
      pending := pending - {key};
    }
    assert kwargs - {} == kwargs;
  }

  /** One more keyword assigns its column when it is an attribute and changes nothing otherwise. */
  lemma AssignedOneMore(row: Row, done: Row, key: string, value: Json, attributes: set<string>)
    requires key !in done
    ensures Assigned(row, done[key := value], attributes) ==
            if key in attributes then Assigned(row, done, attributes)[key := value] else Assigned(row, done, attributes)
  {
  }

  // ---------------------------------------------------------------------------
  // Keyed lookups and upserts

  /** The two key columns of an upsert and the values looked up. */
  datatype Key = Key(column1: string, value1: Json, column2: string, value2: Json)

  predicate Matches(row: Row, key: Key) {
    Get(row, key.column1) == key.value1 && Get(row, key.column2) == key.value2
  }

  /** `query.filter(key).first()`: the first matching row, by position. */
  function FirstMatch(table: seq<Row>, key: Key): (r: Option<nat>)
    ensures r.Some? ==> r.value < |table| && Matches(table[r.value], key)
    ensures r.Some? ==> forall j :: 0 <= j < r.value ==> !Matches(table[j], key)
    ensures r.None? ==> forall j :: 0 <= j < |table| ==> !Matches(table[j], key)
  {
    if table == [] then None
    else if Matches(table[0], key) then Some(0)
    else match FirstMatch(table[1..], key)
      case None => None
      case Some(i) => Some(i + 1)
  }

  method FindFirst(table: seq<Row>, key: Key) returns (r: Option<nat>)
    ensures r == FirstMatch(table, key)
  {
    var i := 0;
    while i < |table|
      invariant 0 <= i <= |table|
      invariant forall j :: 0 <= j < i ==> !Matches(table[j], key)
    {
      if Matches(table[i], key) {
        FirstMatchIsFirst(table, key, i);
        return Some(i);
      }
      i := i + 1;
    }
    FirstMatchNone(table, key);
    return None;
  }

  lemma FirstMatchIsFirst(table: seq<Row>, key: Key, i: nat)
    requires i < |table| && Matches(table[i], key)
    requires forall j :: 0 <= j < i ==> !Matches(table[j], key)
    ensures FirstMatch(table, key) == Some(i)
  {
  }

  lemma FirstMatchNone(table: seq<Row>, key: Key)
    requires forall j :: 0 <= j < |table| ==> !Matches(table[j], key)
    ensures FirstMatch(table, key) == None
  {
  }

  /** No two rows share both key values. */
  predicate UniqueKeys(table: seq<Row>, column1: string, column2: string) {
    forall i, j :: 0 <= i < j < |table| ==>
      !(Get(table[i], column1) == Get(table[j], column1) && Get(table[i], column2) == Get(table[j], column2))
  }

  /** Why the constructor on the insert path raises: a keyword that names no column. */
  datatype UpsertError = InvalidKeyword

  /**
    An upsert: the first row with the key is updated with the keywords naming columns;
    without one, a new row is built from the defaults, the id, the keywords and the key,
    which the constructor refuses when a keyword names no column.
    The result is the new table and the position of the row written.
  */
  function Upserted(table: seq<Row>, key: Key, kwargs: Row, columns: set<string>, initial: Row)
    : (r: Result<(seq<Row>, nat), UpsertError>)
    requires key.column1 !in kwargs && key.column2 !in kwargs && key.column1 != key.column2
    ensures r.Success? ==> |table| <= |r.value.0| && r.value.1 < |r.value.0| && Matches(r.value.0[r.value.1], key)
    ensures r.Success? ==> kwargs.Keys * columns <= r.value.0[r.value.1].Keys
    ensures FirstMatch(table, key).Some? ==> r.Success? && |r.value.0| == |table|
    ensures FirstMatch(table, key).None? ==> (r.Success? <==> kwargs.Keys <= columns)
    ensures r.Success? ==> forall k :: k in kwargs && k in columns ==> r.value.0[r.value.1][k] == kwargs[k]
    // Every other row is untouched.
    ensures r.Success? ==> forall j :: 0 <= j < |table| && j != r.value.1 ==> r.value.0[j] == table[j]
    // The first matching row is updated in place with the keywords naming columns ...
    ensures FirstMatch(table, key).Some? ==>
              var i := FirstMatch(table, key).value;
              r == Success((table[i := Assigned(table[i], kwargs, columns)], i))
    // ... and otherwise the new row, keyed, is appended.
    ensures FirstMatch(table, key).None? && kwargs.Keys <= columns ==>
              r == Success((table + [initial + kwargs + map[key.column1 := key.value1, key.column2 := key.value2]], |table|))
  {
    match FirstMatch(table, key)
    case Some(i) => Success((table[i := Assigned(table[i], kwargs, columns)], i))
    case None =>
      if !(kwargs.Keys <= columns) then Failure(InvalidKeyword)
      else Success((table + [initial + kwargs + map[key.column1 := key.value1, key.column2 := key.value2]], |table|))
  }

  /** An upsert never creates a second row for a key. */
  lemma UpsertKeepsKeysUnique(table: seq<Row>, key: Key, kwargs: Row, columns: set<string>, initial: Row)
    requires key.column1 !in kwargs && key.column2 !in kwargs
    requires key.column1 in columns && key.column2 in columns && key.column1 != key.column2
    requires UniqueKeys(table, key.column1, key.column2)
    ensures var r := Upserted(table, key, kwargs, columns, initial);
      r.Success? ==> UniqueKeys(r.value.0, key.column1, key.column2)
  {
    var r := Upserted(table, key, kwargs, columns, initial);
    if r.Success? {
      var t := r.value.0;
      var c1, c2 := key.column1, key.column2;
      match FirstMatch(table, key)
      case Some(i) =>
        var row := Assigned(table[i], kwargs, columns);
        assert Get(row, c1) == Get(table[i], c1) && Get(row, c2) == Get(table[i], c2);
      case None =>
        var row := initial + kwargs + map[c1 := key.value1, c2 := key.value2];
        assert t == table + [row];
        forall i, j | 0 <= i < j < |t|
          ensures !(Get(t[i], c1) == Get(t[j], c1) && Get(t[i], c2) == Get(t[j], c2))
        {
          if j == |table| {
            assert !Matches(table[i], key);
          }
        }
    }
  }

  /** Repeating an upsert with the same arguments changes nothing more. */
  lemma UpsertIdempotent(table: seq<Row>, key: Key, kwargs: Row, columns: set<string>, initial: Row, initial2: Row)
    requires key.column1 !in kwargs && key.column2 !in kwargs && key.column1 != key.column2
    requires Upserted(table, key, kwargs, columns, initial).Success?
    ensures var once := Upserted(table, key, kwargs, columns, initial).value;
      Upserted(once.0, key, kwargs, columns, initial2) == Success(once)
  {
    var once := Upserted(table, key, kwargs, columns, initial).value;
    var i := once.1;
    assert FirstMatch(once.0, key) == Some(i) by {
      assert forall j :: 0 <= j < i ==> once.0[j] == table[j];
      if FirstMatch(table, key).None? {
        assert i == |table|;
      }
      FirstMatchIsFirst(once.0, key, i);
    }
    if FirstMatch(table, key).Some? {
      AssignedIdempotent(table[i], kwargs, columns);
    } else {
      var row := once.0[i];
      assert forall k :: k in kwargs ==> row[k] == kwargs[k];
      assert Assigned(row, kwargs, columns) == row;
    }
    assert once.0[i := Assigned(once.0[i], kwargs, columns)] == once.0;
  }

  /**
    The row an upsert writes holds only the columns of the row it updated (or of the
    defaults, on insert), the keywords and the two key columns.
  */
  lemma UpsertedRowColumns(table: seq<Row>, key: Key, kwargs: Row, columns: set<string>, initial: Row, column: string)
    requires key.column1 !in kwargs && key.column2 !in kwargs && key.column1 != key.column2
    requires Upserted(table, key, kwargs, columns, initial).Success?
    requires column !in kwargs && column != key.column1 && column != key.column2
    ensures var r := Upserted(table, key, kwargs, columns, initial).value;
      column in r.0[r.1] ==>
        match FirstMatch(table, key)
        case Some(i) => i == r.1 && column in table[i]
        case None => column in initial
  {
  }

  /** The rows of `table` whose `column` holds none of `values`, in order. */
  function KeepRows(table: seq<Row>, column: string, values: set<Json>): (r: seq<Row>)
    ensures |r| <= |table|
  {
    if table == [] then []
    else if Get(table[0], column) in values then KeepRows(table[1..], column, values)
    else [table[0]] + KeepRows(table[1..], column, values)
  }

  /** The rows kept are exactly those whose `column` holds none of `values`. */
  lemma {:induction false} KeepRowsMembers(table: seq<Row>, column: string, values: set<Json>)
    ensures forall row :: row in KeepRows(table, column, values) <==> row in table && Get(row, column) !in values
  {
    if table != [] {
      KeepRowsMembers(table[1..], column, values);
      assert table == [table[0]] + table[1..];
    }
  }

  /** Dropping rows keeps the remaining keys unique. */
  lemma {:induction false} KeepRowsKeepsKeysUnique(table: seq<Row>, column: string, values: set<Json>, c1: string, c2: string)
    requires UniqueKeys(table, c1, c2)
    ensures UniqueKeys(KeepRows(table, column, values), c1, c2)
  {
    if table != [] {
      var rest := table[1..];
      assert UniqueKeys(rest, c1, c2) by {
        forall i, j | 0 <= i < j < |rest|
          ensures !(Get(rest[i], c1) == Get(rest[j], c1) && Get(rest[i], c2) == Get(rest[j], c2))
        {
          assert rest[i] == table[i + 1] && rest[j] == table[j + 1];
        }
      }
      KeepRowsKeepsKeysUnique(rest, column, values, c1, c2);
      KeepRowsMembers(rest, column, values);
      var kept := KeepRows(rest, column, values);
      if Get(table[0], column) !in values {
        var r := [table[0]] + kept;
        forall i, j | 0 <= i < j < |r|
          ensures !(Get(r[i], c1) == Get(r[j], c1) && Get(r[i], c2) == Get(r[j], c2))
        {
          if i == 0 {
            assert r[j] in kept;
            var k :| 0 <= k < |rest| && rest[k] == r[j];
            assert table[k + 1] == r[j];
          } else {
            assert r[i] == kept[i - 1] && r[j] == kept[j - 1];
          }
        }
      }
    }
  }

  // ---------------------------------------------------------------------------
  // URL registry

  datatype RegistryEntry = RegistryEntry(
    id: string, url: string, taskId: string, firstCrawledAt: Json, lastCrawledAt: Json, crawlCount: int)

  /** The registry's unique constraint on `url`. */
  predicate UniqueUrls(registry: seq<RegistryEntry>) {
    forall i, j :: 0 <= i < j < |registry| ==> registry[i].url != registry[j].url
  }

  /** `is_url_crawled`: an entry for this URL that names this task. */
  predicate IsCrawled(registry: seq<RegistryEntry>, url: string, taskId: string) {
    exists i :: 0 <= i < |registry| && registry[i].url == url && registry[i].taskId == taskId
  }

  function UrlIndex(registry: seq<RegistryEntry>, url: string): (r: Option<nat>)
    ensures r.Some? ==> r.value < |registry| && registry[r.value].url == url
    ensures r.Some? ==> forall j :: 0 <= j < r.value ==> registry[j].url != url
    ensures r.None? ==> forall j :: 0 <= j < |registry| ==> registry[j].url != url
  {
    if registry == [] then None
    else if registry[0].url == url then Some(0)
    else match UrlIndex(registry[1..], url)
      case None => None
      case Some(i) => Some(i + 1)
  }

  /**
    `register_url`, looked up by URL alone: a known URL is counted once more, stamped
    and handed to the current task; an unknown URL gets a new entry with count 1.
  */
  function Registered(registry: seq<RegistryEntry>, url: string, taskId: string, now: Json, newId: string)
    : (r: seq<RegistryEntry>)
    ensures UrlIndex(registry, url).Some? ==>
              var i := UrlIndex(registry, url).value;
              |r| == |registry| && r[i].crawlCount == registry[i].crawlCount + 1 &&
              r[i].taskId == taskId && r[i].url == url && r[i].firstCrawledAt == registry[i].firstCrawledAt &&
              r[i].lastCrawledAt == now && r[i].id == registry[i].id
    ensures UrlIndex(registry, url).None? ==>
              r == registry + [RegistryEntry(newId, url, taskId, now, now, 1)]
    ensures forall j :: 0 <= j < |registry| && registry[j].url != url ==> r[j] == registry[j]
  {
    match UrlIndex(registry, url)
    case Some(i) => registry[i := registry[i].(crawlCount := registry[i].crawlCount + 1, lastCrawledAt := now, taskId := taskId)]
    case None => registry + [RegistryEntry(newId, url, taskId, now, now, 1)]
  }

  /** Registration keeps at most one entry per URL, whatever the task. */
  lemma RegisterKeepsUrlsUnique(registry: seq<RegistryEntry>, url: string, taskId: string, now: Json, newId: string)
    requires UniqueUrls(registry)
    ensures UniqueUrls(Registered(registry, url, taskId, now, newId))
  {
    var r := Registered(registry, url, taskId, now, newId);
    forall i, j | 0 <= i < j < |r| ensures r[i].url != r[j].url {
      if UrlIndex(registry, url).Some? {
        var k := UrlIndex(registry, url).value;
        assert r[i].url == registry[i].url by {
          if i == k {
          } else {
            assert r[i] == registry[i];
          }
        }
        assert r[j].url == registry[j].url by {
          if j != k {
            assert r[j] == registry[j];
          }
        }
      }
    }
  }

  /** After `register_url(u, t)`, `is_url_crawled(u, t)` holds. */
  lemma RegisterThenCrawled(registry: seq<RegistryEntry>, url: string, taskId: string, now: Json, newId: string)
    ensures IsCrawled(Registered(registry, url, taskId, now, newId), url, taskId)
  {
    var r := Registered(registry, url, taskId, now, newId);
    if UrlIndex(registry, url).Some? {
      var i := UrlIndex(registry, url).value;
      assert r[i].url == url && r[i].taskId == taskId;
    } else {
      assert r[|registry|].url == url && r[|registry|].taskId == taskId;
    }
  }

  /**
    Re-registering a URL under another task takes it away from the first: the ledger
    is keyed by URL alone, so the first task no longer sees it as crawled.
  */
  lemma ReRegisterForgetsPreviousTask(registry: seq<RegistryEntry>, url: string, t1: string, t2: string, now: Json, newId: string)
    requires UniqueUrls(registry) && t1 != t2
    ensures !IsCrawled(Registered(registry, url, t2, now, newId), url, t1)
  {
    var r := Registered(registry, url, t2, now, newId);
    RegisterKeepsUrlsUnique(registry, url, t2, now, newId);
    RegisterThenCrawled(registry, url, t2, now, newId);
  }

  /** Registering one URL leaves every other URL's status as it was. */
  lemma RegisterLeavesOtherUrls(registry: seq<RegistryEntry>, url: string, taskId: string, now: Json, newId: string,
                                other: string, otherTask: string)
    requires other != url
    ensures IsCrawled(Registered(registry, url, taskId, now, newId), other, otherTask) == IsCrawled(registry, other, otherTask)
  {
    var r := Registered(registry, url, taskId, now, newId);
    if IsCrawled(registry, other, otherTask) {
      var i :| 0 <= i < |registry| && registry[i].url == other && registry[i].taskId == otherTask;
      assert r[i] == registry[i];
    }
    if IsCrawled(r, other, otherTask) {
      var i :| 0 <= i < |r| && r[i].url == other && r[i].taskId == otherTask;
      assert i < |registry| && r[i] == registry[i];
    }
  }

  /** Registering a URL for a task keeps every URL that task had crawled. */
  lemma RegisterKeepsCrawledForTask(registry: seq<RegistryEntry>, url: string, taskId: string, now: Json, newId: string,
                                    other: string)
    requires IsCrawled(registry, other, taskId)
    ensures IsCrawled(Registered(registry, url, taskId, now, newId), other, taskId)
  {
    if other == url {
      RegisterThenCrawled(registry, url, taskId, now, newId);
    } else {
      RegisterLeavesOtherUrls(registry, url, taskId, now, newId, other, taskId);
    }
  }

  /** A registration marks one URL, for the registering task, and nothing else. */
  lemma RegisterMarksOnlyItsUrl(registry: seq<RegistryEntry>, url: string, taskId: string, now: Json, newId: string,
                                other: string, otherTask: string)
    requires IsCrawled(Registered(registry, url, taskId, now, newId), other, otherTask)
    ensures IsCrawled(registry, other, otherTask) || (other == url && otherTask == taskId)
  {
    if other != url {
      RegisterLeavesOtherUrls(registry, url, taskId, now, newId, other, otherTask);
    } else if otherTask != taskId {
      var r := Registered(registry, url, taskId, now, newId);
      var j :| 0 <= j < |r| && r[j].url == other && r[j].taskId == otherTask;
      match UrlIndex(registry, url)
      case Some(i) =>
        assert j != i && r[j] == registry[j];
      case None =>
    }
  }

  // ---------------------------------------------------------------------------
  // The database

  class Database {
    var tasks: map<string, Row>
    var runs: map<string, Row>
    var documents: seq<Row>
    var images: seq<Row>
    var attachments: seq<Row>
    var registry: seq<RegistryEntry>

    /** The keys the services look rows up by are unique. */
    predicate Valid()
      reads this
    {
      KeysUnique(documents, images, attachments, registry)
    }

    constructor ()
      ensures Valid()
      ensures tasks == map[] && runs == map[] && documents == [] && images == [] && attachments == [] && registry == []
    {
      tasks, runs := map[], map[];
      documents, images, attachments := [], [], [];
      registry := [];
    }

    /**
      `update_task`: every given column is overwritten. An unknown task is reported, and
      a NULL for a not-null column makes the commit fail, so the task keeps its row.
    */
    method UpdateTask(id: string, update: Row) returns (r: UpdateOutcome)
      modifies this
      ensures r.NoSuchTask? <==> id !in old(tasks)
      ensures r.NotNullViolation? <==> id in old(tasks) && NullsRequiredColumn(update)
      ensures tasks == if r.Updated? then old(tasks)[id := Assigned(old(tasks)[id], update, TaskColumns)] else old(tasks)
      ensures runs == old(runs) && documents == old(documents) && images == old(images)
      ensures attachments == old(attachments) && registry == old(registry)
    {
      if id !in tasks {
        return NoSuchTask;
      }
      if exists k :: k in update && k in TaskNotNullColumns && update[k] == JNull {
        return NotNullViolation;
      }
      var row := SetAttributes(tasks[id], update, TaskColumns);
      tasks := tasks[id := row];
      return Updated;
    }

    /**
      `delete_task`: the task goes, and with it its runs, their documents, those
      documents' images and attachments, and the registry entries naming the task.
    */
    method DeleteTask(id: string) returns (deleted: bool)
      requires Valid()
      modifies this
      ensures Valid()
      ensures deleted == (id in old(tasks))
      ensures !deleted ==> tasks == old(tasks) && runs == old(runs) && documents == old(documents) &&
                           images == old(images) && attachments == old(attachments) && registry == old(registry)
      ensures deleted ==> tasks == old(tasks) - {id}
      ensures deleted ==> runs == KeepRuns(old(runs), id)
      ensures deleted ==> documents == KeepRows(old(documents), "run_id", RunIdsOf(old(runs), id))
      ensures deleted ==> images == KeepRows(old(images), "document_id", DocumentIdsOf(old(documents), RunIdsOf(old(runs), id)))
      ensures deleted ==> attachments == KeepRows(old(attachments), "document_id", DocumentIdsOf(old(documents), RunIdsOf(old(runs), id)))
      ensures deleted ==> registry == KeepEntries(old(registry), id)
    {
      if id !in tasks {
        return false;
      }
      DeletionKeepsKeysUnique(runs, documents, images, attachments, registry, id);
      tasks, runs, documents, images, attachments, registry :=
        tasks - {id}, KeepRuns(runs, id),
        KeepRows(documents, "run_id", RunIdsOf(runs, id)),
        KeepRows(images, "document_id", DocumentIdsOf(documents, RunIdsOf(runs, id))),
        KeepRows(attachments, "document_id", DocumentIdsOf(documents, RunIdsOf(runs, id))),
        KeepEntries(registry, id);
      return true;
    }

    /** `create_run`: a new run of the task, `pending`, with zeroed counters. */
    method CreateRun(taskId: string, newId: string, now: Json) returns (id: string)
      requires newId !in runs
      modifies this
      ensures id == newId && runs == old(runs)[id := RunDefaults(now)["id" := JString(id)]["task_id" := JString(taskId)]]
      ensures runs[id]["status"] == JString("pending")
      ensures tasks == old(tasks) && documents == old(documents) && images == old(images)
      ensures attachments == old(attachments) && registry == old(registry)
    {
      id := newId;
      runs := runs[id := RunDefaults(now)["id" := JString(id)]["task_id" := JString(taskId)]];
    }

    /**
      `update_run_status`: the status, then every keyword naming a run column; unknown
      keywords are ignored, and an unknown run changes nothing.
    */
    method UpdateRunStatus(id: string, status: string, kwargs: Row) returns (found: bool)
      requires "status" !in kwargs
      modifies this
      ensures found == (id in old(runs))
      ensures runs == if found then old(runs)[id := Assigned(old(runs)[id]["status" := JString(status)], kwargs, RunColumns)]
                      else old(runs)
      ensures found ==> runs[id]["status"] == JString(status)
      ensures tasks == old(tasks) && documents == old(documents) && images == old(images)
      ensures attachments == old(attachments) && registry == old(registry)
    {
      if id !in runs {
        return false;
      }
      var row := SetAttributes(runs[id]["status" := JString(status)], kwargs, RunColumns);
      runs := runs[id := row];
      return true;
    }

    /** The shared body of the three upserts, over one table's rows. */
    static method UpsertInto(table: seq<Row>, key: Key, kwargs: Row, columns: set<string>, initial: Row)
      returns (r: Result<(seq<Row>, nat), UpsertError>)
      requires key.column1 !in kwargs && key.column2 !in kwargs && key.column1 != key.column2
      ensures r == Upserted(table, key, kwargs, columns, initial)
    {
      var found := FindFirst(table, key);
      match found
      case Some(i) =>
        var row := SetAttributes(table[i], kwargs, columns);
        r := Success((table[i := row], i));
      case None =>
        if !(kwargs.Keys <= columns) {
          r := Failure(InvalidKeyword);
        } else {
          r := Success((table + [initial + kwargs + map[key.column1 := key.value1, key.column2 := key.value2]], |table|));
        }
    }

    /** `upsert_document`, keyed by run and source URL; returns the row written. */
    method UpsertDocument(runId: string, sourceUrl: string, kwargs: Row, newId: string, now: Json)
      returns (r: Result<Row, UpsertError>)
      requires Valid() && "run_id" !in kwargs && "source_url" !in kwargs
      modifies this
      ensures Valid()
      ensures var key := Key("run_id", JString(runId), "source_url", JString(sourceUrl));
        var u := Upserted(old(documents), key, kwargs, DocumentColumns, DocumentDefaults(now)["id" := JString(newId)]);
        (r.Success? <==> u.Success?) &&
        (u.Success? ==> documents == u.value.0 && r.value == u.value.0[u.value.1]) &&
        (u.Failure? ==> documents == old(documents))
      ensures tasks == old(tasks) && runs == old(runs) && images == old(images)
      ensures attachments == old(attachments) && registry == old(registry)
    {
      var key := Key("run_id", JString(runId), "source_url", JString(sourceUrl));
      var u := UpsertInto(documents, key, kwargs, DocumentColumns, DocumentDefaults(now)["id" := JString(newId)]);
      UpsertKeepsKeysUnique(documents, key, kwargs, DocumentColumns, DocumentDefaults(now)["id" := JString(newId)]);
      if u.Failure? {
        return Failure(u.error);
      }
      documents := u.value.0;
      return Success(u.value.0[u.value.1]);
    }

    /** `upsert_image`, keyed by document and original URL. */
    method UpsertImage(documentId: Json, originalUrl: string, kwargs: Row, newId: string, now: Json)
      returns (r: Result<Row, UpsertError>)
      requires Valid() && "document_id" !in kwargs && "original_url" !in kwargs
      modifies this
      ensures Valid()
      ensures var key := Key("document_id", documentId, "original_url", JString(originalUrl));
        var u := Upserted(old(images), key, kwargs, ImageColumns, ImageDefaults(now)["id" := JString(newId)]);
        (r.Success? <==> u.Success?) &&
        (u.Success? ==> images == u.value.0 && r.value == u.value.0[u.value.1]) &&
        (u.Failure? ==> images == old(images))
      ensures tasks == old(tasks) && runs == old(runs) && documents == old(documents)
      ensures attachments == old(attachments) && registry == old(registry)
    {
      var key := Key("document_id", documentId, "original_url", JString(originalUrl));
      var u := UpsertInto(images, key, kwargs, ImageColumns, ImageDefaults(now)["id" := JString(newId)]);
      UpsertKeepsKeysUnique(images, key, kwargs, ImageColumns, ImageDefaults(now)["id" := JString(newId)]);
      if u.Failure? {
        return Failure(u.error);
      }
      images := u.value.0;
      return Success(u.value.0[u.value.1]);
    }

    /** `upsert_attachment`, keyed by document and original URL. */
    method UpsertAttachment(documentId: Json, originalUrl: string, kwargs: Row, newId: string, now: Json)
      returns (r: Result<Row, UpsertError>)
      requires Valid() && "document_id" !in kwargs && "original_url" !in kwargs
      modifies this
      ensures Valid()
      ensures var key := Key("document_id", documentId, "original_url", JString(originalUrl));
        var u := Upserted(old(attachments), key, kwargs, AttachmentColumns, AttachmentDefaults(now)["id" := JString(newId)]);
        (r.Success? <==> u.Success?) &&
        (u.Success? ==> attachments == u.value.0 && r.value == u.value.0[u.value.1]) &&
        (u.Failure? ==> attachments == old(attachments))
      ensures tasks == old(tasks) && runs == old(runs) && documents == old(documents)
      ensures images == old(images) && registry == old(registry)
    {
      var key := Key("document_id", documentId, "original_url", JString(originalUrl));
      var u := UpsertInto(attachments, key, kwargs, AttachmentColumns, AttachmentDefaults(now)["id" := JString(newId)]);
      UpsertKeepsKeysUnique(attachments, key, kwargs, AttachmentColumns, AttachmentDefaults(now)["id" := JString(newId)]);
      if u.Failure? {
        return Failure(u.error);
      }
      attachments := u.value.0;
      return Success(u.value.0[u.value.1]);
    }

    /** `is_url_crawled`. */
    method IsUrlCrawled(url: string, taskId: string) returns (crawled: bool)
      ensures crawled == IsCrawled(registry, url, taskId)
    {
      var i := 0;
      while i < |registry|
        invariant 0 <= i <= |registry|
        invariant forall j :: 0 <= j < i ==> !(registry[j].url == url && registry[j].taskId == taskId)
      {
        if registry[i].url == url && registry[i].taskId == taskId {
          return true;
        }
        i := i + 1;
      }
      return false;
    }

    /** `register_url`. */
    method RegisterUrl(url: string, taskId: string, now: Json, newId: string) returns (entry: RegistryEntry)
      requires Valid()
      modifies this
      ensures Valid()
      ensures registry == Registered(old(registry), url, taskId, now, newId)
      ensures entry.url == url && entry.taskId == taskId && entry in registry
      ensures tasks == old(tasks) && runs == old(runs) && documents == old(documents)
      ensures images == old(images) && attachments == old(attachments)
    {
      RegisterKeepsUrlsUnique(registry, url, taskId, now, newId);
      var i := 0;
      while i < |registry|
        invariant 0 <= i <= |registry|
        invariant forall j :: 0 <= j < i ==> registry[j].url != url
      {
        if registry[i].url == url {
          assert UrlIndex(registry, url) == Some(i);
          entry := registry[i].(crawlCount := registry[i].crawlCount + 1, lastCrawledAt := now, taskId := taskId);
          registry := registry[i := entry];
          return;
        }
        i := i + 1;
      }
      assert UrlIndex(registry, url) == None;
      entry := RegistryEntry(newId, url, taskId, now, now, 1);
      registry := registry + [entry];
    }
  }

  /** The ids of the runs of a task, as stored in `run_id` columns. */
  function RunIdsOf(runs: map<string, Row>, taskId: string): (r: set<Json>)
    ensures forall v :: v in r <==> exists id :: id in runs && Get(runs[id], "task_id") == JString(taskId) && v == JString(id)
  {
    set id | id in runs && Get(runs[id], "task_id") == JString(taskId) :: JString(id)
  }

  /** The keys the services look rows up by are unique in every table. */
  predicate KeysUnique(documents: seq<Row>, images: seq<Row>, attachments: seq<Row>, registry: seq<RegistryEntry>) {
    UniqueKeys(documents, "run_id", "source_url") &&
    UniqueKeys(images, "document_id", "original_url") &&
    UniqueKeys(attachments, "document_id", "original_url") &&
    UniqueUrls(registry)
  }

  /** The cascade of `delete_task` keeps every lookup key unique. */
  lemma DeletionKeepsKeysUnique(runs: map<string, Row>, documents: seq<Row>, images: seq<Row>,
                                attachments: seq<Row>, registry: seq<RegistryEntry>, taskId: string)
    requires KeysUnique(documents, images, attachments, registry)
    ensures KeysUnique(KeepRows(documents, "run_id", RunIdsOf(runs, taskId)),
                       KeepRows(images, "document_id", DocumentIdsOf(documents, RunIdsOf(runs, taskId))),
                       KeepRows(attachments, "document_id", DocumentIdsOf(documents, RunIdsOf(runs, taskId))),
                       KeepEntries(registry, taskId))
  {
    var removedRuns := RunIdsOf(runs, taskId);
    var removedDocuments := DocumentIdsOf(documents, removedRuns);
    KeepRowsKeepsKeysUnique(documents, "run_id", removedRuns, "run_id", "source_url");
    KeepRowsKeepsKeysUnique(images, "document_id", removedDocuments, "document_id", "original_url");
    KeepRowsKeepsKeysUnique(attachments, "document_id", removedDocuments, "document_id", "original_url");
    KeepEntriesKeepsUrlsUnique(registry, taskId);
  }

  /** The runs that do not belong to the task. */
  function KeepRuns(runs: map<string, Row>, taskId: string): map<string, Row> {
    map r | r in runs && Get(runs[r], "task_id") != JString(taskId) :: runs[r]
  }

  /** The ids of the documents of the given runs. */
  function DocumentIdsOf(documents: seq<Row>, runIds: set<Json>): (r: set<Json>)
    ensures forall v :: v in r <==> exists d :: d in documents && Get(d, "run_id") in runIds && v == Get(d, "id")
  {
    set d | d in documents && Get(d, "run_id") in runIds :: Get(d, "id")
  }

  /** The registry entries not naming the task. */
  function KeepEntries(registry: seq<RegistryEntry>, taskId: string): (r: seq<RegistryEntry>)
    ensures forall e :: e in r <==> e in registry && e.taskId != taskId
  {
    if registry == [] then []
    else if registry[0].taskId == taskId then KeepEntries(registry[1..], taskId)
    else [registry[0]] + KeepEntries(registry[1..], taskId)
  }

  lemma {:induction false} KeepEntriesKeepsUrlsUnique(registry: seq<RegistryEntry>, taskId: string)
    requires UniqueUrls(registry)
    ensures UniqueUrls(KeepEntries(registry, taskId))
  {
    if registry != [] {
      var rest := registry[1..];
      assert UniqueUrls(rest) by {
        forall i, j | 0 <= i < j < |rest| ensures rest[i].url != rest[j].url {
          assert rest[i] == registry[i + 1] && rest[j] == registry[j + 1];
        }
      }
      KeepEntriesKeepsUrlsUnique(rest, taskId);
      var kept := KeepEntries(rest, taskId);
      if registry[0].taskId != taskId {
        var r := [registry[0]] + kept;
        forall i, j | 0 <= i < j < |r| ensures r[i].url != r[j].url {
          if i == 0 {
            assert r[j] in kept;
            var k :| 0 <= k < |rest| && rest[k] == r[j];
            assert registry[k + 1] == r[j];
          } else {
            assert r[i] == kept[i - 1] && r[j] == kept[j - 1];
          }
        }
      }
    }
  }
}
