/** `ToolRegistry` (registry.py): the table of registered tools and the
    ordered list of their schema records. */
module Registry {
  import opened Text
  import opened Json
  import opened Schema
  import CallSyntax
  import opened Execution

  /** The name table after registering `tools` one after the other into an
      empty registry: each registration overwrites the entry of its name. */
  function MapAfter(tools: seq<Tool>): map<string, Tool>
    decreases |tools|
  {
    if tools == [] then map[]
    else
      var last := tools[|tools| - 1];
      MapAfter(tools[..|tools| - 1])[last.sig.name := last]
  }

  /** The schema list after registering `tools`: one record per
      registration, in registration order. */
  function SchemasAfter(tools: seq<Tool>): (r: seq<ToolSchema>)
    ensures |r| == |tools|
    ensures forall i :: 0 <= i < |tools| ==> r[i] == Describe(tools[i].sig)
  {
    seq(|tools|, i requires 0 <= i < |tools| => Describe(tools[i].sig))
  }

  lemma MapAfterAppend(tools: seq<Tool>, f: Tool)
    ensures MapAfter(tools + [f]) == MapAfter(tools)[f.sig.name := f]
  {
    assert (tools + [f])[..|tools|] == tools;
  }

  lemma SchemasAfterAppend(tools: seq<Tool>, f: Tool)
    ensures SchemasAfter(tools + [f]) == SchemasAfter(tools) + [Describe(f.sig)]
  {
  }

  /** `tools[i]` is the last registration of its name. */
  predicate LastOfName(tools: seq<Tool>, i: nat)
    requires i < |tools|
  {
    forall j :: i < j < |tools| ==> tools[j].sig.name != tools[i].sig.name
  }

  /** A name is in the table exactly when some registration used it. */
  lemma {:induction false} MapAfterDomain(tools: seq<Tool>, name: string)
    ensures name in MapAfter(tools) <==> exists i :: 0 <= i < |tools| && tools[i].sig.name == name
    decreases |tools|
  {
    if tools != [] {
      var init := tools[..|tools| - 1];
      MapAfterDomain(init, name);
      if name != tools[|tools| - 1].sig.name && exists i :: 0 <= i < |tools| && tools[i].sig.name == name {
        var i :| 0 <= i < |tools| && tools[i].sig.name == name;
        assert init[i] == tools[i];
      }
      if name in MapAfter(init) {
        var i :| 0 <= i < |init| && init[i].sig.name == name;
        assert tools[i] == init[i];
      }
    }
  }

  /** The last registration of a name is the one the table holds. */
  lemma {:induction false} MapAfterLast(tools: seq<Tool>, i: nat)
    requires i < |tools| && LastOfName(tools, i)
    ensures tools[i].sig.name in MapAfter(tools) && MapAfter(tools)[tools[i].sig.name] == tools[i]
    decreases |tools|
  {
    if i < |tools| - 1 {
      var init := tools[..|tools| - 1];
      assert init[i] == tools[i];
      assert LastOfName(init, i) by {
        assert forall j :: i < j < |init| ==> init[j] == tools[j];
      }
      MapAfterLast(init, i);
    }
  }

  /** A name is in the table exactly when some registration used it, and
      it maps to the latest of them (last wins). */
  lemma MapAfterLookup(tools: seq<Tool>, name: string)
    ensures name in MapAfter(tools) <==> exists i :: 0 <= i < |tools| && tools[i].sig.name == name
    ensures forall i :: 0 <= i < |tools| && tools[i].sig.name == name && LastOfName(tools, i) ==>
      name in MapAfter(tools) && MapAfter(tools)[name] == tools[i]
  {
    MapAfterDomain(tools, name);
    forall i | 0 <= i < |tools| && tools[i].sig.name == name && LastOfName(tools, i)
      ensures name in MapAfter(tools) && MapAfter(tools)[name] == tools[i]
    {
      MapAfterLast(tools, i);
    }
  }

  /** Registering the same name twice keeps both schema records, in order,
      while the table holds the second function only. */
  lemma {:induction false} DuplicateRegistration(tools: seq<Tool>, i: nat, j: nat)
    requires i < j < |tools| && tools[i].sig.name == tools[j].sig.name && LastOfName(tools, j)
    ensures SchemasAfter(tools)[i].name == SchemasAfter(tools)[j].name == tools[j].sig.name
    ensures tools[j].sig.name in MapAfter(tools) && MapAfter(tools)[tools[j].sig.name] == tools[j]
  {
    MapAfterLookup(tools, tools[j].sig.name);
  }

  class ToolRegistry {
    var toolsMap: map<string, Tool>
    var schemas: seq<ToolSchema>
    /** The functions registered so far, in order. */
    ghost var registered: seq<Tool>

    ghost predicate Valid()
      reads this
    {
      toolsMap == MapAfter(registered) && schemas == SchemasAfter(registered)
    }

    /** `__init__` (lines 7-9): an empty table and an empty list. */
    constructor ()
      ensures Valid() && registered == []
      ensures toolsMap == map[] && schemas == []
    {
      toolsMap := map[];
      schemas := [];
      registered := [];
    }

    /** `register` (lines 11-40): the name now maps to `f`, every other
        entry is unchanged, and exactly one record, the one `Describe`
        derives from the signature, is appended to the list. */
    method Register(f: Tool) returns (g: Tool)
      requires Valid()
      modifies this
      ensures Valid() && registered == old(registered) + [f]
      ensures toolsMap == old(toolsMap)[f.sig.name := f]
      ensures schemas == old(schemas) + [Describe(f.sig)]
      ensures g == f
    {
      MapAfterAppend(registered, f);
      SchemasAfterAppend(registered, f);
      toolsMap := toolsMap[f.sig.name := f];
      var parameters := BuildParameters(f.sig.params);
      var schema := ToolSchema(f.sig.name, Description(f.sig.doc), parameters);
      schemas := schemas + [schema];
      registered := registered + [f];
      g := f;
    }

    /** `get_tools_json` (lines 42-44): the JSON text of the schema list,
        which names every registered tool and gives its description. */
    function GetToolsJson(): (r: string)
      reads this
      ensures r == CatalogJson(schemas)
      ensures forall i :: 0 <= i < |schemas| ==>
        Contains(r, Quote(schemas[i].name)) && Contains(r, Quote(schemas[i].description))
    {
      CatalogListsAll(schemas);
      CatalogJson(schemas)
    }

    /** `execute` (lines 46-53) with the current table as the namespace. */
    function Execute(text: string): (r: string)
      reads this
      ensures Evaluate(toolsMap, text).Err? ==> StartsWith(r, ErrorPrefix)
      ensures Evaluate(toolsMap, text).Ok? && CallSyntax.Str(Evaluate(toolsMap, text).value).Ok? ==>
        r == CallSyntax.Str(Evaluate(toolsMap, text).value).value
      ensures Evaluate(toolsMap, text).Ok? && CallSyntax.Str(Evaluate(toolsMap, text).value).Err? ==>
        StartsWith(r, ErrorPrefix)
    {
      Execution.Execute(toolsMap, text)
    }
  }
}
