/** The schema `ToolRegistry.register` derives from a function's signature
    (registry.py, lines 16-37) and the JSON text of the schema list that
    `get_tools_json` returns (line 44).

    Python's run-time introspection (`inspect.signature`, `__name__`,
    `__doc__`) is replaced by an explicit `Signature` value. */
module Schema {
  import opened Wrappers
  import opened Text
  import opened Json

  /** A parameter's annotation as far as the registry distinguishes it:
      `int`, `bool`, any other annotation (`float`, `str`, `list`, ...), or
      none at all. */
  datatype Annotation = IntType | BoolType | OtherType(name: string) | Unannotated

  datatype Param = Param(name: string, annotation: Annotation, hasDefault: bool)

  /** What `inspect.signature(func)`, `func.__name__` and `func.__doc__` report. */
  datatype Signature = Signature(name: string, params: seq<Param>, doc: Option<string>)

  /** One entry of `parameters["properties"]`. */
  datatype Property = Property(typeTag: string, description: string)

  /** `{"type": "object", "properties": ..., "required": ...}`. */
  datatype Parameters = Parameters(properties: seq<(string, Property)>, required: seq<string>)

  /** The schema record appended to `schemas`. */
  datatype ToolSchema = ToolSchema(name: string, description: string, parameters: Parameters)

  /** The JSON type name of an annotation: only `int` and `bool` are told
      apart, everything else (floats and unannotated parameters included)
      is a string. */
  function TypeTag(a: Annotation): (t: string)
    ensures t == "integer" <==> a == IntType
    ensures t == "boolean" <==> a == BoolType
    ensures t == "string" <==> a != IntType && a != BoolType
  {
    if a == IntType then "integer" else if a == BoolType then "boolean" else "string"
  }

  function PropertyOf(p: Param): Property {
    Property(TypeTag(p.annotation), "Argument: " + p.name)
  }

  /** One property per parameter, in signature order. */
  function PropertiesOf(params: seq<Param>): (r: seq<(string, Property)>)
    ensures |r| == |params|
    ensures forall i :: 0 <= i < |params| ==> r[i] == (params[i].name, PropertyOf(params[i]))
    decreases |params|
  {
    if params == [] then []
    else
      var init := params[..|params| - 1];
      var last := params[|params| - 1];
      var r := PropertiesOf(init) + [(last.name, PropertyOf(last))];
      assert forall i :: 0 <= i < |init| ==> params[i] == init[i];
      r
  }

  /** The names of the parameters without a default, in signature order. */
  function RequiredOf(params: seq<Param>): (r: seq<string>)
    ensures |r| <= |params|
    ensures forall n :: n in r ==> exists i :: 0 <= i < |params| && params[i].name == n && !params[i].hasDefault
    decreases |params|
  {
    if params == [] then []
    else
      var init := params[..|params| - 1];
      var last := params[|params| - 1];
      var r := RequiredOf(init) + (if last.hasDefault then [] else [last.name]);
      assert forall i :: 0 <= i < |init| ==> params[i] == init[i];
      r
  }

  /** Every parameter without a default is required. */
  lemma {:induction false} RequiredComplete(params: seq<Param>, i: nat)
    requires i < |params| && !params[i].hasDefault
    ensures params[i].name in RequiredOf(params)
    decreases |params|
  {
    var init := params[..|params| - 1];
    if i < |params| - 1 {
      assert init[i] == params[i];
      RequiredComplete(init, i);
    }
  }

  /** The required names of the first `k` parameters come first: the list
      keeps signature order. */
  lemma {:induction false} RequiredInOrder(params: seq<Param>, k: nat)
    requires k <= |params|
    ensures RequiredOf(params[..k]) <= RequiredOf(params)
    decreases |params|
  {
    if k < |params| {
      var init := params[..|params| - 1];
      assert init[..k] == params[..k];
      RequiredInOrder(init, k);
    } else {
      assert params[..k] == params;
    }
  }

  function ParametersOf(params: seq<Param>): Parameters {
    Parameters(PropertiesOf(params), RequiredOf(params))
  }

  /** The loop of `register` (lines 19-31): the type tag is "string" unless
      one of the two tests for `int` and `bool` applies, and a parameter
      without a default is appended to `required`. */
  method BuildParameters(params: seq<Param>) returns (p: Parameters)
    ensures p == ParametersOf(params)
  {
    var properties: seq<(string, Property)> := [];
    var required: seq<string> := [];
    var i := 0;
    while i < |params|
      invariant 0 <= i <= |params|
      invariant properties == PropertiesOf(params[..i])
      invariant required == RequiredOf(params[..i])
    {
      var param := params[i];
      var paramType := "string";
      if param.annotation == IntType { paramType := "integer"; }
      if param.annotation == BoolType { paramType := "boolean"; }
      properties := properties + [(param.name, Property(paramType, "Argument: " + param.name))];
      if !param.hasDefault {
        required := required + [param.name];
      }
      assert params[..i + 1][..i] == params[..i];
      i := i + 1;
    }
    assert params[..i] == params;
    p := Parameters(properties, required);
  }

  /** `func.__doc__.strip().split('\n')[0] if func.__doc__ else "No
      description"`: a missing or empty docstring gives "No description";
      otherwise the result is the stripped docstring up to its first line
      break, which is text of the docstring without leading white space. */
  function Description(doc: Option<string>): (r: string)
    ensures doc.None? || doc.value == [] ==> r == "No description"
    ensures doc.Some? && doc.value != [] ==>
      var t := Strip(doc.value);
      |r| <= |t| && r == t[..|r|] && '\n' !in r && (|r| == |t| || t[|r|] == '\n')
    ensures doc.Some? && doc.value != [] ==>
      (r == [] || !IsSpace(r[0])) && Contains(doc.value, r)
  {
    if doc.None? || doc.value == [] then "No description"
    else
      StripFirstLine(doc.value);
      FirstLine(Strip(doc.value))
  }

  /** A one-line docstring without surrounding white space is its own description. */
  lemma DescriptionOfLine(d: string)
    requires d != [] && '\n' !in d && !IsSpace(d[0]) && !IsSpace(d[|d| - 1])
    ensures Description(Some(d)) == d
  {
    StripTrimmed(d);
    FirstLineWhole(d);
  }

  /** The record `register` builds (lines 33-37): it carries the
      function's name and the description of its docstring, one property
      per parameter in signature order, described as "Argument: " and the
      parameter's name, and lists as required exactly the parameters
      without a default. */
  function Describe(sig: Signature): (r: ToolSchema)
    ensures r.name == sig.name
    ensures r.description == Description(sig.doc)
    ensures |r.parameters.properties| == |sig.params|
    ensures forall i :: 0 <= i < |sig.params| ==>
      r.parameters.properties[i].0 == sig.params[i].name
      && r.parameters.properties[i].1.typeTag == TypeTag(sig.params[i].annotation)
      && r.parameters.properties[i].1.description == "Argument: " + sig.params[i].name
    ensures forall i :: 0 <= i < |sig.params| ==>
      (sig.params[i].name in r.parameters.required <== !sig.params[i].hasDefault)
    ensures forall n :: n in r.parameters.required ==>
      exists i :: 0 <= i < |sig.params| && sig.params[i].name == n && !sig.params[i].hasDefault
  {
    forall i | 0 <= i < |sig.params| && !sig.params[i].hasDefault
      ensures sig.params[i].name in RequiredOf(sig.params)
    {
      RequiredComplete(sig.params, i);
    }
    ToolSchema(sig.name, Description(sig.doc), ParametersOf(sig.params))
  }

  // ---------------------------------------------------------------------
  // The record as the JSON value `json.dumps` writes (keys in insertion order).

  function PropertyValue(p: Property): Json {
    JObject([("type", JString(p.typeTag)), ("description", JString(p.description))])
  }

  function ParametersValue(p: Parameters): Json {
    var ps := p.properties;
    var names := p.required;
    JObject([
      ("type", JString("object")),
      ("properties", JObject(seq(|ps|, i requires 0 <= i < |ps| => (ps[i].0, PropertyValue(ps[i].1))))),
      ("required", JArray(seq(|names|, i requires 0 <= i < |names| => JString(names[i]))))
    ])
  }

  function SchemaValue(s: ToolSchema): Json {
    JObject([
      ("name", JString(s.name)),
      ("description", JString(s.description)),
      ("parameters", ParametersValue(s.parameters))
    ])
  }

  function CatalogValue(schemas: seq<ToolSchema>): Json {
    JArray(seq(|schemas|, i requires 0 <= i < |schemas| => SchemaValue(schemas[i])))
  }

  /** `json.dumps(self.schemas)`. */
  function CatalogJson(schemas: seq<ToolSchema>): string {
    Encode(CatalogValue(schemas))
  }

  /** Where the record of tool `i` starts in the catalog. */
  function EntryOffset(schemas: seq<ToolSchema>, i: nat): nat
    requires i < |schemas|
  {
    ArrayOffset(CatalogValue(schemas).items, i)
  }

  /** The record of tool `i` is written, whole, at `EntryOffset(schemas, i)`. */
  lemma CatalogEntry(schemas: seq<ToolSchema>, i: nat)
    requires i < |schemas|
    ensures EntryOffset(schemas, i) + |Encode(SchemaValue(schemas[i]))| <= |CatalogJson(schemas)|
    ensures CatalogJson(schemas)[EntryOffset(schemas, i)..EntryOffset(schemas, i) + |Encode(SchemaValue(schemas[i]))|]
         == Encode(SchemaValue(schemas[i]))
  {
    ArrayAt(CatalogValue(schemas).items, i);
  }

  /** Records appear in registration order: the record of tool `i` ends
      before the record of every later tool starts. */
  lemma CatalogOrder(schemas: seq<ToolSchema>, i: nat, j: nat)
    requires i < j < |schemas|
    ensures EntryOffset(schemas, i) + |Encode(SchemaValue(schemas[i]))| < EntryOffset(schemas, j)
  {
    ArrayOrder(CatalogValue(schemas).items, i, j);
  }

  /** The catalog names every registered tool and gives its description. */
  lemma CatalogListsTool(schemas: seq<ToolSchema>, i: nat)
    requires i < |schemas|
    ensures Contains(CatalogJson(schemas), Quote(schemas[i].name))
    ensures Contains(CatalogJson(schemas), Quote(schemas[i].description))
  {
    var s := schemas[i];
    var e := Encode(SchemaValue(s));
    CatalogEntry(schemas, i);
    ContainsSlice(CatalogJson(schemas), EntryOffset(schemas, i), e);
    var members := SchemaValue(s).members;
    ObjectContains(members, 0);
    assert Encode(members[0].1) == Quote(s.name);
    ContainsTransitive(CatalogJson(schemas), e, Quote(s.name));
    ObjectContains(members, 1);
    assert Encode(members[1].1) == Quote(s.description);
    ContainsTransitive(CatalogJson(schemas), e, Quote(s.description));
  }

  lemma CatalogListsAll(schemas: seq<ToolSchema>)
    ensures forall i :: 0 <= i < |schemas| ==>
      Contains(CatalogJson(schemas), Quote(schemas[i].name))
      && Contains(CatalogJson(schemas), Quote(schemas[i].description))
  {
    forall i | 0 <= i < |schemas|
      ensures Contains(CatalogJson(schemas), Quote(schemas[i].name))
      ensures Contains(CatalogJson(schemas), Quote(schemas[i].description))
    {
      CatalogListsTool(schemas, i);
    }
  }

  /** A plain name or description appears in the catalog as it is. */
  lemma CatalogMentions(schemas: seq<ToolSchema>, i: nat)
    requires i < |schemas|
    ensures IsPlain(schemas[i].name) ==> Contains(CatalogJson(schemas), schemas[i].name)
    ensures IsPlain(schemas[i].description) ==> Contains(CatalogJson(schemas), schemas[i].description)
  {
    CatalogListsTool(schemas, i);
    if IsPlain(schemas[i].name) {
      QuotedPlain(schemas[i].name);
      ContainsTransitive(CatalogJson(schemas), Quote(schemas[i].name), schemas[i].name);
    }
    if IsPlain(schemas[i].description) {
      QuotedPlain(schemas[i].description);
      ContainsTransitive(CatalogJson(schemas), Quote(schemas[i].description), schemas[i].description);
    }
  }

  /** Plain text appears in the catalog as it is, between quotes. */
  lemma QuotedPlain(s: string)
    requires IsPlain(s)
    ensures Contains(Quote(s), s)
  {
    EscapePlain(s);
    assert Quote(s)[1..1 + |s|] == s;
    ContainsSlice(Quote(s), 1, s);
  }
}
