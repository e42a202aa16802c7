/**
  The template resolver applied to task definitions: `@directory/filename` references
  in a task's `prompt_template` and `output_schema` are replaced by the referenced
  file's text (or decoded JSON), and each failure is raised as an error.
*/
module TemplateResolver {
  import opened Wrappers
  import opened Json
  import opened Text
  import opened Paths
  import TemplateLoader

  /** The exceptions the resolver raises. */
  datatype ResolveError =
    | InvalidReferenceFormat   // ValueError: no '/' after the '@'
    | InvalidDirectory         // ValueError: neither prompt_templates nor schemas
    | FileNotFound             // FileNotFoundError
    | NotAFile                 // ValueError: the path is a directory
    | Undecodable              // UnicodeDecodeError from read_text
    | InvalidJson              // ValueError: the schema file is not JSON
    | InvalidSchemaFormat      // ValueError: a string that is not a reference

  predicate IsReference(value: Json) {
    Truthy(value) && value.JString? && StartsWith(value.s, "@")
  }

  /**
    The text of the file `@directory/filename` names: the reference is split on its
    first '/', the directory must be one of the two known names, and the file name is
    joined to it verbatim.
  */
  function LoadReference(fs: FileSystem, root: Path, reference: string): (r: Result<string, ResolveError>)
    requires StartsWith(reference, "@")
    ensures '/' !in reference[1..] ==> r == Failure(InvalidReferenceFormat)
    ensures '/' in reference[1..] ==>
              var parts := SplitOnce(reference[1..], '/').value;
              (parts.0 != "prompt_templates" && parts.0 != "schemas" ==> r == Failure(InvalidDirectory)) &&
              ((parts.0 == "prompt_templates" || parts.0 == "schemas") ==>
                 var target := Locate(fs, JoinPath(root + [parts.0], parts.1));
                 (target.None? ==> r == Failure(FileNotFound)) &&
                 (target.Some? && !IsFile(fs, target.value) ==> r == Failure(NotAFile)) &&
                 (target.Some? && IsFile(fs, target.value) && fs[target.value].text.None? ==> r == Failure(Undecodable)))
    // Success means exactly that the named path reaches a readable file, wherever that file lies.
    ensures r.Success? <==>
              '/' in reference[1..] &&
              var parts := SplitOnce(reference[1..], '/').value;
              (parts.0 == "prompt_templates" || parts.0 == "schemas") &&
              var target := Locate(fs, JoinPath(root + [parts.0], parts.1));
              target.Some? && IsFile(fs, target.value) && fs[target.value].text.Some?
    ensures r.Success? ==>
              var parts := SplitOnce(reference[1..], '/').value;
              var target := Locate(fs, JoinPath(root + [parts.0], parts.1));
              target.Some? && fs[target.value].text == Some(r.value)
  {
    match SplitOnce(reference[1..], '/')
    case None => Failure(InvalidReferenceFormat)
    case Some(parts) =>
      var (directory, filename) := parts;
      if directory != "prompt_templates" && directory != "schemas" then Failure(InvalidDirectory)
      else match Locate(fs, JoinPath(root + [directory], filename))
        case None => Failure(FileNotFound)
        case Some(p) =>
          if !IsFile(fs, p) then Failure(NotAFile)
          else match fs[p].text
            case None => Failure(Undecodable)
            case Some(text) => Success(text)
  }

  /** `resolve_file_reference`: anything but a non-empty '@' string comes back as it was. */
  function ResolveFileReference(fs: FileSystem, root: Path, value: Json): (r: Result<Json, ResolveError>)
    ensures !IsReference(value) ==> r == Success(value)
    // A reference becomes the text of its file, or fails as loading the file fails.
    ensures IsReference(value) ==>
              (r.Success? <==> LoadReference(fs, root, value.s).Success?) &&
              (r.Success? ==> r.value == JString(LoadReference(fs, root, value.s).value)) &&
              (r.Failure? ==> r.error == LoadReference(fs, root, value.s).error)
  {
    if !IsReference(value) then Success(value)
    else match LoadReference(fs, root, value.s)
      case Failure(e) => Failure(e)
      case Success(text) => Success(JString(text))
  }

  /** How a `@prompt_templates/` reference is taken apart. */
  lemma PromptReferenceParts(rel: string)
    ensures var s := TemplateLoader.PromptPrefix + rel;
      StartsWith(s, "@") && SplitOnce(s[1..], '/') == Some(("prompt_templates", rel))
  {
    var s := TemplateLoader.PromptPrefix + rel;
    assert s[1..] == "prompt_templates" + ['/'] + rel;
    SplitOnceAt("prompt_templates", '/', rel);
  }

  /** A `@prompt_templates/` reference reads the file its name reaches from the templates directory. */
  lemma PromptReferenceReads(fs: FileSystem, root: Path, rel: string)
    ensures ResolveFileReference(fs, root, JString(TemplateLoader.PromptPrefix + rel)) ==
      match Locate(fs, JoinPath(TemplateLoader.TemplatesDir(root), rel))
      case None => Failure(FileNotFound)
      case Some(p) =>
        if !IsFile(fs, p) then Failure(NotAFile)
        else if fs[p].text.None? then Failure(Undecodable)
        else Success(JString(fs[p].text.value))
  {
    var s := TemplateLoader.PromptPrefix + rel;
    assert IsReference(JString(s)) by {
      PromptReferenceParts(rel);
    }
    assert LoadReference(fs, root, s) ==
      match Locate(fs, JoinPath(TemplateLoader.TemplatesDir(root), rel))
      case None => Failure(FileNotFound)
      case Some(p) =>
        if !IsFile(fs, p) then Failure(NotAFile)
        else if fs[p].text.None? then Failure(Undecodable)
        else Success(fs[p].text.value)
    by {
      PromptReferenceParts(rel);
      assert root + ["prompt_templates"] == TemplateLoader.TemplatesDir(root);
    }
  }

  /**
    No containment check: a file name with `..` components reads whatever file the
    walk reaches, even one the loader service refuses as lying outside the directory.
  */
  lemma ReferenceMayEscape(fs: FileSystem, root: Path, rel: string, p: Path, text: string)
    requires Locate(fs, JoinPath(TemplateLoader.TemplatesDir(root), rel)) == Some(p)
    requires p in fs && fs[p] == File(Some(text)) && !(TemplateLoader.TemplatesDir(root) <= p)
    ensures ResolveFileReference(fs, root, JString(TemplateLoader.PromptPrefix + rel)) == Success(JString(text))
    ensures TemplateLoader.ResolvePromptTemplate(fs, root, Some(TemplateLoader.PromptPrefix + rel)) == TemplateLoader.Unresolved()
  {
    PromptReferenceReads(fs, root, rel);
    TemplateLoader.EscapingReferenceRefused(fs, root, rel, p);
  }

  /**
    For a file name without `..` components the resolver and the loader service read
    the same file: the containment check only ever refuses escaping names.
  */
  lemma ResolverAgreesWithLoader(fs: FileSystem, root: Path, rel: string)
    requires forall i :: 0 <= i < |root| ==> root[i] != ".."
    requires !StartsWith(rel, "/") && ".." !in Components(rel)
    ensures var resolved := ResolveFileReference(fs, root, JString(TemplateLoader.PromptPrefix + rel));
      var loaded := TemplateLoader.ResolvePromptTemplate(fs, root, Some(TemplateLoader.PromptPrefix + rel));
      (resolved.Success? <==> loaded.value.Some?) &&
      (resolved.Success? ==> resolved.value == JString(loaded.value.value))
  {
    var dir := TemplateLoader.TemplatesDir(root);
    PromptReferenceReads(fs, root, rel);
    TemplateLoader.PromptReferenceLoads(fs, root, rel);
    assert forall i :: 0 <= i < |dir| ==> dir[i] != "..";
    LocateStaysUnder(fs, dir, rel);
  }

  /** `../../../d/f` splits into three parent steps and two names. */
  lemma TraversalComponents(d: string, f: string)
    requires '/' !in d && '/' !in f && d != "" && d != "." && f != "" && f != "."
    ensures Components("../../../" + d + "/" + f) == ["..", "..", "..", d, f]
  {
    TraversalSplit(d, f);
    assert Kept([f]) == [f];
    assert Kept([d, f]) == [d, f];
    assert Kept(["..", d, f]) == ["..", d, f];
    assert Kept(["..", "..", d, f]) == ["..", "..", d, f];
  }

  lemma TraversalSplit(d: string, f: string)
    requires '/' !in d && '/' !in f
    ensures Split("../../../" + d + "/" + f, "/") == ["..", "..", "..", d, f]
  {
    var t0 := d + "/" + f;
    assert "/" == ['/'];
    assert t0 == d + ['/'] + f;
    SplitWithoutSeparator(f, '/');
    SplitAtFirst(d, '/', f);
    var t1 := "../" + t0;
    var t2 := "../" + t1;
    ParentStepSplit(t0);
    ParentStepSplit(t1);
    ParentStepSplit(t2);
    TraversalText(d, f);
  }

  lemma TraversalText(d: string, f: string)
    ensures "../../../" + d + "/" + f == "../" + ("../" + ("../" + (d + "/" + f)))
  {
    var p := "../";
    assert "../../../" == p + p + p;
  }

  /** A leading `../` splits off as one parent step. */
  lemma ParentStepSplit(t: string)
    ensures Split("../" + t, "/") == [".."] + Split(t, "/")
  {
    assert "/" == ['/'];
    assert "../" + t == ".." + ['/'] + t;
    SplitAtFirst("..", '/', t);
  }

  /** The physical walk behind the traversal: three parent steps from the templates directory reach "/". */
  lemma TraversalWalk(a: string, b: string, d: string, f: string, text: string)
    requires d != ".." && f != ".." && a != d && a != ".." && b != ".."
    ensures var fs := map[[a] := Directory, [a, b] := Directory, [a, b, "prompt_templates"] := Directory,
                          [d] := Directory, [d, f] := File(Some(text))];
      Locate(fs, [a, b, "prompt_templates", "..", "..", "..", d, f]) == Some([d, f])
  {
    var fs := map[[a] := Directory, [a, b] := Directory, [a, b, "prompt_templates"] := Directory,
                  [d] := Directory, [d, f] := File(Some(text))];
    var segs := [a, b, "prompt_templates", "..", "..", "..", d, f];
    assert fs[[a]] == Directory && fs[[a, b]] == Directory;
    assert fs[[a, b, "prompt_templates"]] == Directory;
    assert [a] + [b] == [a, b];
    TraversalWalkDown(a, b, d, f, text);
    assert Parent([a]) == [] && Parent([a, b]) == [a] && Parent([a, b, "prompt_templates"]) == [a, b];
    assert Walk(fs, [a], ["..", d, f]) == Some([d, f]);
    assert Walk(fs, [a, b], ["..", "..", d, f]) == Some([d, f]);
    assert Walk(fs, [a, b, "prompt_templates"], ["..", "..", "..", d, f]) == Some([d, f]);
    assert [a, b] + ["prompt_templates"] == [a, b, "prompt_templates"];
    assert Walk(fs, [a, b], ["prompt_templates", "..", "..", "..", d, f]) == Some([d, f]);
    assert Walk(fs, [a], [b, "prompt_templates", "..", "..", "..", d, f]) == Some([d, f]);
    assert [] + [a] == [a] && segs[0] == a && segs[1..] == [b, "prompt_templates", "..", "..", "..", d, f];
  }

  /** From "/" the walk goes down into `d` and reaches the file `d/f`. */
  lemma TraversalWalkDown(a: string, b: string, d: string, f: string, text: string)
    requires d != ".." && f != ".."
    ensures var fs := map[[a] := Directory, [a, b] := Directory, [a, b, "prompt_templates"] := Directory,
                          [d] := Directory, [d, f] := File(Some(text))];
      Walk(fs, [], [d, f]) == Some([d, f])
  {
    var fs := map[[a] := Directory, [a, b] := Directory, [a, b, "prompt_templates"] := Directory,
                  [d] := Directory, [d, f] := File(Some(text))];
    assert fs[[d]] == Directory;
    assert [d] + [f] == [d, f] && [] + [d] == [d];
    assert Walk(fs, [d, f], []) == Some([d, f]);
    assert Walk(fs, [d], [f]) == Some([d, f]);
  }

  /**
    With the repository two directories below "/", `@prompt_templates/../../../d/f`
    reads the file `/d/f`, which the loader service refuses.
  */
  lemma TraversalReadsOutsideRoot(a: string, b: string, d: string, f: string, text: string)
    requires '/' !in d && '/' !in f && d != "" && d != "." && d != ".." && f != "" && f != "." && f != ".."
    requires a != d && a != ".." && b != ".."
    ensures var root := [a, b];
      var fs := map[[a] := Directory, [a, b] := Directory, [a, b, "prompt_templates"] := Directory,
                    [d] := Directory, [d, f] := File(Some(text))];
      var reference := TemplateLoader.PromptPrefix + "../../../" + d + "/" + f;
      ResolveFileReference(fs, root, JString(reference)) == Success(JString(text)) &&
      TemplateLoader.ResolvePromptTemplate(fs, root, Some(reference)) == TemplateLoader.Unresolved()
  {
    var root := [a, b];
    var fs := map[[a] := Directory, [a, b] := Directory, [a, b, "prompt_templates"] := Directory,
                  [d] := Directory, [d, f] := File(Some(text))];
    var rel := "../../../" + d + "/" + f;
    assert JoinPath(TemplateLoader.TemplatesDir(root), rel) == [a, b, "prompt_templates", "..", "..", "..", d, f] by {
      TraversalComponents(d, f);
      assert rel[0] == '.';
    }
    TraversalWalk(a, b, d, f, text);
    assert TemplateLoader.PromptPrefix + "../../../" + d + "/" + f == TemplateLoader.PromptPrefix + rel;
    ReferenceMayEscape(fs, root, rel, [d, f], text);
  }

  /** `resolve_schema_reference`. */
  function ResolveSchemaReference(fs: FileSystem, root: Path, parse: string -> Option<Json>, value: Json)
    : (r: Result<Json, ResolveError>)
    ensures value == JNull || value.JObject? ==> r == Success(value)
    ensures value.JString? && !StartsWith(value.s, "@") ==> r == Failure(InvalidSchemaFormat)
    // Booleans, numbers and lists are neither refused nor resolved.
    ensures !value.JString? ==> r == Success(value)
    ensures value.JString? && StartsWith(value.s, "@") ==>
              match LoadReference(fs, root, value.s)
              case Failure(e) => r == Failure(e)
              case Success(text) => r == (if parse(text).Some? then Success(parse(text).value) else Failure(InvalidJson))
  {
    if value.JString? then
      if StartsWith(value.s, "@") then
        match LoadReference(fs, root, value.s)
        case Failure(e) => Failure(e)
        case Success(text) =>
          match parse(text)
          case None => Failure(InvalidJson)
          case Some(schema) => Success(schema)
      else Failure(InvalidSchemaFormat)
    else Success(value)
  }

  /**
    The task dictionary after `resolve_template_in_task_data`, and the error it raised:
    a truthy `prompt_template` is resolved first, then a truthy `output_schema`; an
    error stops the rewriting where it happened.
  */
  function ResolvedTaskData(fs: FileSystem, root: Path, parse: string -> Option<Json>, data: map<string, Json>)
    : (r: (map<string, Json>, Option<ResolveError>))
    ensures r.0.Keys == data.Keys
    // Only the two template keys can change.
    ensures forall k :: k in data && k != "prompt_template" && k != "output_schema" ==> r.0[k] == data[k]
    // Falsy or absent entries are left alone.
    ensures !Truthy(Get(data, "prompt_template")) ==> Get(r.0, "prompt_template") == Get(data, "prompt_template")
    ensures !Truthy(Get(data, "output_schema")) ==> Get(r.0, "output_schema") == Get(data, "output_schema")
    // A failed prompt leaves the dictionary as it was.
    ensures Truthy(Get(data, "prompt_template")) && ResolveFileReference(fs, root, data["prompt_template"]).Failure? ==>
              r == (data, Some(ResolveFileReference(fs, root, data["prompt_template"]).error))
    // A failed schema leaves the prompt already rewritten.
    ensures (Truthy(Get(data, "prompt_template")) ==> ResolveFileReference(fs, root, data["prompt_template"]).Success?) &&
            Truthy(Get(data, "output_schema")) &&
            ResolveSchemaReference(fs, root, parse, data["output_schema"]).Failure? ==>
              r.1 == Some(ResolveSchemaReference(fs, root, parse, data["output_schema"]).error) &&
              r.0 == (if Truthy(Get(data, "prompt_template"))
                      then data["prompt_template" := ResolveFileReference(fs, root, data["prompt_template"]).value]
                      else data)
    // No error exactly when every truthy entry resolves.
    ensures r.1.None? <==>
              (Truthy(Get(data, "prompt_template")) ==> ResolveFileReference(fs, root, data["prompt_template"]).Success?) &&
              (Truthy(Get(data, "output_schema")) ==> ResolveSchemaReference(fs, root, parse, data["output_schema"]).Success?)
    // Without an error both truthy entries hold their resolutions.
    ensures r.1.None? ==>
              (Truthy(Get(data, "prompt_template")) ==>
                ResolveFileReference(fs, root, data["prompt_template"]) == Success(r.0["prompt_template"])) &&
              (Truthy(Get(data, "output_schema")) ==>
                ResolveSchemaReference(fs, root, parse, data["output_schema"]) == Success(r.0["output_schema"]))
  {
    var afterPrompt :=
      if Truthy(Get(data, "prompt_template")) then
        match ResolveFileReference(fs, root, data["prompt_template"])
        case Failure(e) => (data, Some(e))
        case Success(v) => (data["prompt_template" := v], None)
      else (data, None);
    if afterPrompt.1.Some? then afterPrompt
    else
      var current := afterPrompt.0;
      if Truthy(Get(current, "output_schema")) then
        match ResolveSchemaReference(fs, root, parse, current["output_schema"])
        case Failure(e) => (current, Some(e))
        case Success(v) => (current["output_schema" := v], None)
      else (current, None)
  }

  /** Task data without references passes through unchanged. */
  lemma NoReferencesNoChange(fs: FileSystem, root: Path, parse: string -> Option<Json>, data: map<string, Json>)
    requires !IsReference(Get(data, "prompt_template"))
    requires Get(data, "output_schema").JObject? || !Truthy(Get(data, "output_schema"))
    ensures ResolvedTaskData(fs, root, parse, data) == (data, None)
  {
    if Truthy(Get(data, "prompt_template")) {
      assert data["prompt_template" := data["prompt_template"]] == data;
    }
    if Truthy(Get(data, "output_schema")) {
      assert data["output_schema" := data["output_schema"]] == data;
    }
  }

  /** A task dictionary that the resolver rewrites in place. */
  class TaskData {
    var fields: map<string, Json>

    constructor (fields: map<string, Json>)
      ensures this.fields == fields
    {
      this.fields := fields;
    }

    /** `resolve_template_in_task_data`: rewrites this dictionary and returns it. */
    method ResolveTemplates(fs: FileSystem, root: Path, parse: string -> Option<Json>)
      returns (r: Result<TaskData, ResolveError>)
      modifies this
      ensures (fields, if r.Failure? then Some(r.error) else None) == ResolvedTaskData(fs, root, parse, old(fields))
      ensures r.Success? ==> r.value == this
    {
      if Truthy(Get(fields, "prompt_template")) {
        var resolved := ResolveFileReference(fs, root, fields["prompt_template"]);
        if resolved.Failure? {
          return Failure(resolved.error);
        }
        fields := fields["prompt_template" := resolved.value];
      }
      if Truthy(Get(fields, "output_schema")) {
        var resolved := ResolveSchemaReference(fs, root, parse, fields["output_schema"]);
        if resolved.Failure? {
          return Failure(resolved.error);
        }
        fields := fields["output_schema" := resolved.value];
      }
      return Success(this);
    }
  }
}
