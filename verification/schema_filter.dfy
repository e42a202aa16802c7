/**
  Strict schema filtering of an extractor's output (`filter_by_schema`): keep only the
  properties a JSON Schema declares and report the required ones that are missing.
*/
module SchemaFilter {
  import opened Wrappers
  import opened Json

  /**
    The two parts of an output schema that filtering reads: the property names declared
    under "properties", in declaration order, and the "required" list. A schema without
    one of the keys has the empty sequence there.
  */
  datatype Schema = Schema(properties: seq<string>, required: seq<string>)

  /** The pair `filter_by_schema` returns. */
  datatype Filtered = Filtered(data: Json, missing: seq<string>)

  /**
    The fields of `data` whose names are declared in `props`, built as the source's loop
    builds them: one declared name after another.
  */
  function Project(data: map<string, Json>, props: seq<string>): (r: map<string, Json>)
    ensures forall k :: k in r <==> k in data && k in props
    ensures forall k :: k in r ==> r[k] == data[k]
    decreases |props|
  {
    if props == [] then map[]
    else
      var kept := Project(data, props[..|props| - 1]);
      var key := props[|props| - 1];
      assert props == props[..|props| - 1] + [key];
      if key in data then kept[key := data[key]] else kept
  }

  /** `s` is `t` with some elements deleted, the rest kept in order. */
  predicate IsSubsequence(s: seq<string>, t: seq<string>) {
    if s == [] then true
    else if t == [] then false
    else if s[0] == t[0] then IsSubsequence(s[1..], t[1..])
    else IsSubsequence(s, t[1..])
  }

  /** The required names absent from `kept`, in the order (and multiplicity) of `required`. */
  function MissingRequired(required: seq<string>, kept: map<string, Json>): (r: seq<string>)
    ensures forall f :: f in r <==> f in required && f !in kept
    ensures IsSubsequence(r, required)
    decreases |required|
  {
    if required == [] then []
    else
      var rest := MissingRequired(required[1..], kept);
      if required[0] !in kept then [required[0]] + rest else rest
  }

  /** What `filter_by_schema` returns, as one expression. */
  function FilterSpec(data: Json, schema: Option<Schema>): (r: Filtered)
    // No schema, non-dict data, or a schema that declares no properties: passthrough.
    ensures (schema.None? || !data.JObject? || schema.value.properties == [])
              ==> r.data == data && r.missing == []
    // Otherwise the result is a dict holding exactly the declared keys present in the
    // input, each with the input's value, and `missing` lists exactly the required
    // names that were not kept, in the order of `required`.
    ensures (schema.Some? && data.JObject? && schema.value.properties != [])
              ==> && r.data.JObject?
                  && (forall k :: k in r.data.fields <==> k in data.fields && k in schema.value.properties)
                  && (forall k :: k in r.data.fields ==> r.data.fields[k] == data.fields[k])
                  && (forall f :: f in r.missing <==> f in schema.value.required && f !in r.data.fields)
                  && IsSubsequence(r.missing, schema.value.required)
  {
    if schema.None? || !data.JObject? || schema.value.properties == [] then Filtered(data, [])
    else
      var kept := Project(data.fields, schema.value.properties);
      Filtered(JObject(kept), MissingRequired(schema.value.required, kept))
  }

  /** `filter_by_schema`: the dict is built by the source's loop over the declared names. */
  method FilterBySchema(data: Json, schema: Option<Schema>) returns (filtered: Json, missingRequired: seq<string>)
    ensures Filtered(filtered, missingRequired) == FilterSpec(data, schema)
  {
    if schema.None? || !data.JObject? {
      return data, [];
    }
    var properties := schema.value.properties;
    var required := schema.value.required;
    if properties == [] {
      return data, [];
    }
    var kept: map<string, Json> := map[];
    var i := 0;
    while i < |properties|
      invariant 0 <= i <= |properties|
      invariant kept == Project(data.fields, properties[..i])
    {
      var key := properties[i];
      assert properties[..i + 1][..i] == properties[..i];
      if key in data.fields {
        kept := kept[key := data.fields[key]];
      }
      i := i + 1;
    }
    assert properties[..i] == properties;
    filtered := JObject(kept);
    missingRequired := MissingRequired(required, kept);
  }

  /** Filtering an already filtered result against the same schema changes nothing. */
  lemma FilterIdempotent(data: Json, schema: Option<Schema>)
    ensures FilterSpec(FilterSpec(data, schema).data, schema) == FilterSpec(data, schema)
  {
    var once := FilterSpec(data, schema);
    if schema.Some? && data.JObject? && schema.value.properties != [] {
      var props := schema.value.properties;
      assert Project(once.data.fields, props) == once.data.fields;
    }
  }

  /**
    An output `{title, error}` checked against a schema that declares and requires only
    `title` filters to exactly `{title}` with nothing missing.
  */
  lemma ExtraErrorFieldDropped(title: Json, error: Json)
    ensures var out := FilterSpec(JObject(map["title" := title, "error" := error]),
                                  Some(Schema(["title"], ["title"])));
            out == Filtered(JObject(map["title" := title]), [])
  {
    var data := map["title" := title, "error" := error];
    var kept := Project(data, ["title"]);
    assert kept == map["title" := title];
    assert MissingRequired(["title"], kept) == [];
  }
}
