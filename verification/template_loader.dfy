/**
  The template loader service: a prompt or output schema given inline or as an
  `@prompt_templates/…` / `@schemas/…` reference to a file under the repository root,
  resolved to a (value, source) pair where `(None, None)` reports every failure.
  The repository root is a parameter; reading a file is a lookup in a `FileSystem`,
  and `json.loads` is the `parse` parameter (`None` for a decode error).
*/
module TemplateLoader {
  import opened Wrappers
  import opened Json
  import opened Text
  import opened Paths

  const PromptPrefix := "@prompt_templates/"
  const SchemaPrefix := "@schemas/"
  const InlineSource := "inline"
  const DefaultPromptSource := "DEFAULT_PROMPT_TEMPLATE"

  /** The (value, source) pair the loader returns. */
  datatype Resolution<T> = Resolution(value: Option<T>, source: Option<string>)

  function Unresolved<T>(): Resolution<T> {
    Resolution(None, None)
  }

  /** The prompt templates directory under the repository root. */
  function TemplatesDir(root: Path): Path {
    root + ["prompt_templates"]
  }

  function SchemasDir(root: Path): Path {
    root + ["schemas"]
  }

  /** The file `dir / rel` reaches is a regular, decodable file lying under `dir` itself. */
  predicate ConfinedFile(fs: FileSystem, dir: Path, rel: string, text: string) {
    var target := Locate(fs, JoinPath(dir, rel));
    target.Some? && IsFile(fs, target.value) && dir <= target.value
    && fs[target.value].text == Some(text)
  }

  /**
    The text behind `dir / rel` after the checks both loaders make: the path exists, is
    a regular file, resolves inside `dir`, and reads as UTF-8.
  */
  function LoadConfined(fs: FileSystem, dir: Path, rel: string): (r: Option<string>)
    ensures r.Some? ==> ConfinedFile(fs, dir, rel, r.value)
    ensures (exists text :: ConfinedFile(fs, dir, rel, text)) ==> r.Some?
  {
    match Locate(fs, JoinPath(dir, rel))
    case None => None
    case Some(p) =>
      if !IsFile(fs, p) then None
      else if !(dir <= p) then None
      else fs[p].text
  }

  /** `resolve_prompt_template`. */
  function ResolvePromptTemplate(fs: FileSystem, root: Path, prompt: Option<string>): (r: Resolution<string>)
    ensures prompt == None || prompt == Some("") ==> r == Unresolved()
    ensures prompt.Some? && prompt.value != "" && !StartsWith(prompt.value, PromptPrefix) ==>
              r == Resolution(prompt, Some(InlineSource))
    // A reference yields the referenced text exactly when that file is confined to the
    // templates directory, and then names the reference itself as the source.
    ensures prompt.Some? && StartsWith(prompt.value, PromptPrefix) ==>
              var rel := prompt.value[|PromptPrefix|..];
              (r.value.Some? <==> exists text :: ConfinedFile(fs, TemplatesDir(root), rel, text)) &&
              (r.value.Some? ==> r.source == prompt && ConfinedFile(fs, TemplatesDir(root), rel, r.value.value))
    ensures r.value.None? <==> r.source.None?
  {
    match prompt
    case None => Unresolved()
    case Some(p) =>
      if p == "" then Unresolved()
      else if StartsWith(p, PromptPrefix) then
        match LoadConfined(fs, TemplatesDir(root), p[|PromptPrefix|..])
        case None => Unresolved()
        case Some(text) => Resolution(Some(text), Some(p))
      else Resolution(Some(p), Some(InlineSource))
  }

  /**
    `resolve_output_schema` as written. A schema file whose JSON is `null` is decoded
    to Python's `None`, so the pair comes back with no value but with the reference as
    its source.
  */
  function ResolveOutputSchemaAsWritten(fs: FileSystem, root: Path, parse: string -> Option<Json>, schema: Json)
    : (r: Resolution<Json>)
    ensures !Truthy(schema) ==> r == Unresolved()
    ensures schema.JObject? && Truthy(schema) ==> r == Resolution(Some(schema), Some(InlineSource))
    ensures !schema.JObject? && !(schema.JString? && StartsWith(schema.s, SchemaPrefix)) ==> r == Unresolved()
    // A confined, decodable schema file gives its JSON, `null` becoming no value, with the reference as source.
    ensures schema.JString? && StartsWith(schema.s, SchemaPrefix) ==>
              forall text :: ConfinedFile(fs, SchemasDir(root), schema.s[|SchemaPrefix|..], text) && parse(text).Some? ==>
                r == Resolution(if parse(text).value == JNull then None else parse(text), Some(schema.s))
    // Anything else behind a reference gives nothing at all.
    ensures schema.JString? && StartsWith(schema.s, SchemaPrefix) && r.source.Some? ==>
              exists text :: ConfinedFile(fs, SchemasDir(root), schema.s[|SchemaPrefix|..], text) && parse(text).Some?
    ensures r.source.None? ==> r.value.None?
    ensures r.value.Some? ==> r.value.value != JNull
  {
    if !Truthy(schema) then Unresolved()
    else if schema.JString? && StartsWith(schema.s, SchemaPrefix) then
      match LoadConfined(fs, SchemasDir(root), schema.s[|SchemaPrefix|..])
      case None => Unresolved()
      case Some(text) =>
        match parse(text)
        case None => Unresolved()
        case Some(decoded) => Resolution(if decoded == JNull then None else Some(decoded), Some(schema.s))
    else if schema.JObject? then Resolution(Some(schema), Some(InlineSource))
    else Unresolved()
  }

  /** A schema file holding `null` breaks the pairing of value and source. */
  lemma NullSchemaFileBreaksPairing(fs: FileSystem, root: Path, parse: string -> Option<Json>, rel: string, text: string)
    requires ConfinedFile(fs, SchemasDir(root), rel, text) && parse(text) == Some(JNull)
    ensures var r := ResolveOutputSchemaAsWritten(fs, root, parse, JString(SchemaPrefix + rel));
      r.value.None? && r.source == Some(SchemaPrefix + rel)
  {
    var s := SchemaPrefix + rel;
    assert StartsWith(s, SchemaPrefix) && s[|SchemaPrefix|..] == rel;
  }

  /**
    `resolve_output_schema` with a `null` schema file reported as a failure, so that
    the value is absent exactly when the source is.
  */
  function ResolveOutputSchema(fs: FileSystem, root: Path, parse: string -> Option<Json>, schema: Json)
    : (r: Resolution<Json>)
    ensures !Truthy(schema) ==> r == Unresolved()
    ensures schema.JObject? && Truthy(schema) ==> r == Resolution(Some(schema), Some(InlineSource))
    // Any other string, and any other type, is refused.
    ensures !schema.JObject? && !(schema.JString? && StartsWith(schema.s, SchemaPrefix)) ==> r == Unresolved()
    // A reference yields the decoded file only when the file is confined to the schemas
    // directory and decodes; the source is then the reference.
    ensures schema.JString? && StartsWith(schema.s, SchemaPrefix) && r.value.Some? ==>
              r.source == Some(schema.s) &&
              exists text :: ConfinedFile(fs, SchemasDir(root), schema.s[|SchemaPrefix|..], text) && parse(text) == r.value
    // ... and a confined file that decodes to anything but `null` always yields it.
    ensures schema.JString? && StartsWith(schema.s, SchemaPrefix) ==>
              forall text :: ConfinedFile(fs, SchemasDir(root), schema.s[|SchemaPrefix|..], text) &&
                             parse(text).Some? && parse(text).value != JNull ==>
                r == Resolution(parse(text), Some(schema.s))
    ensures r.value.None? <==> r.source.None?
    ensures r.value.Some? ==> r.value.value != JNull
  {
    var written := ResolveOutputSchemaAsWritten(fs, root, parse, schema);
    if written.value.None? then Unresolved() else written
  }

  /** The correction changes nothing but the `null` case. */
  lemma ResolveOutputSchemaAgrees(fs: FileSystem, root: Path, parse: string -> Option<Json>, schema: Json)
    ensures var written := ResolveOutputSchemaAsWritten(fs, root, parse, schema);
      written.value.Some? || written.source.None? ==> ResolveOutputSchema(fs, root, parse, schema) == written
  {
  }

  /** An undecodable schema file is reported as a failure. */
  lemma InvalidSchemaJsonUnresolved(fs: FileSystem, root: Path, parse: string -> Option<Json>, rel: string, text: string)
    requires ConfinedFile(fs, SchemasDir(root), rel, text) && parse(text) == None
    ensures ResolveOutputSchema(fs, root, parse, JString(SchemaPrefix + rel)) == Unresolved()
  {
    var s := SchemaPrefix + rel;
    assert StartsWith(s, SchemaPrefix) && s[|SchemaPrefix|..] == rel;
  }

  /** The two environment settings the default prompt is read from. */
  datatype EnvSettings = EnvSettings(defaultPromptTemplate: Option<string>, defaultPromptTemplateRef: Option<string>)

  predicate Set(v: Option<string>) {
    v.Some? && v.value != ""
  }

  /** `get_default_prompt_from_env`. */
  function DefaultPromptFromEnv(fs: FileSystem, root: Path, env: EnvSettings): (r: Resolution<string>)
    // An inline default wins over a reference, whatever the reference holds.
    ensures Set(env.defaultPromptTemplate) ==>
              r == Resolution(env.defaultPromptTemplate, Some(DefaultPromptSource))
    ensures !Set(env.defaultPromptTemplate) && Set(env.defaultPromptTemplateRef) ==>
              var loaded := ResolvePromptTemplate(fs, root, env.defaultPromptTemplateRef).value;
              r == if Set(loaded)
                   then Resolution(loaded, Some("DEFAULT_PROMPT_TEMPLATE_REF (" + env.defaultPromptTemplateRef.value + ")"))
                   else Unresolved()
    ensures !Set(env.defaultPromptTemplate) && !Set(env.defaultPromptTemplateRef) ==> r == Unresolved()
    ensures r.value.None? <==> r.source.None?
    ensures r.value.Some? ==> r.value.value != ""
  {
    if Set(env.defaultPromptTemplate) then
      Resolution(env.defaultPromptTemplate, Some(DefaultPromptSource))
    else if Set(env.defaultPromptTemplateRef) then
      var ref := env.defaultPromptTemplateRef.value;
      var loaded := ResolvePromptTemplate(fs, root, Some(ref)).value;
      if Set(loaded) then Resolution(loaded, Some("DEFAULT_PROMPT_TEMPLATE_REF (" + ref + ")"))
      else Unresolved()
    else Unresolved()
  }

  /** A reference whose file is missing or escapes the directory leaves no default prompt. */
  lemma BrokenDefaultReferenceGivesNothing(fs: FileSystem, root: Path, rel: string)
    requires forall text :: !ConfinedFile(fs, TemplatesDir(root), rel, text)
    ensures DefaultPromptFromEnv(fs, root, EnvSettings(None, Some(PromptPrefix + rel))) == Unresolved()
  {
    var s := PromptPrefix + rel;
    assert StartsWith(s, PromptPrefix) && s[|PromptPrefix|..] == rel;
  }

  /** A `@prompt_templates/` reference loads the confined file its name reaches. */
  lemma PromptReferenceLoads(fs: FileSystem, root: Path, rel: string)
    ensures ResolvePromptTemplate(fs, root, Some(PromptPrefix + rel)) ==
      match LoadConfined(fs, TemplatesDir(root), rel)
      case None => Unresolved()
      case Some(text) => Resolution(Some(text), Some(PromptPrefix + rel))
  {
    var s := PromptPrefix + rel;
    assert StartsWith(s, PromptPrefix) && s[|PromptPrefix|..] == rel;
  }

  /**
    A reference that walks out of the templates directory is refused even though the
    file it reaches exists and is readable.
  */
  lemma EscapingReferenceRefused(fs: FileSystem, root: Path, rel: string, p: Path)
    requires Locate(fs, JoinPath(TemplatesDir(root), rel)) == Some(p)
    requires IsFile(fs, p) && fs[p].text.Some? && !(TemplatesDir(root) <= p)
    ensures ResolvePromptTemplate(fs, root, Some(PromptPrefix + rel)) == Unresolved()
  {
    PromptReferenceLoads(fs, root, rel);
  }
}
