/**
 * The tool registry (`TOOLS` in ProjectMCP_Relay/tools_registry.py): a
 * dictionary from tool name to the registered function, its description and
 * its input schema, filled by the `mcp_tool` decorator. Python dictionaries
 * iterate in insertion order and overwriting a key keeps its place, so the
 * registry is modelled as a map together with the sequence of its keys in
 * insertion order.
 */
module ToolsRegistry {
  import opened Wrappers

  /** A JSON-like Python value, as passed for `input_schema`. */
  datatype Json =
    | JNone
    | JBool(b: bool)
    | JInt(i: int)
    | JStr(s: string)
    | JList(elems: seq<Json>)
    | JDict(fields: map<string, Json>)

  /** Python truthiness, which `input_schema or {...}` tests. */
  predicate Truthy(v: Json) {
    match v
    case JNone => false
    case JBool(b) => b
    case JInt(i) => i != 0
    case JStr(s) => s != ""
    case JList(es) => es != []
    case JDict(fs) => fs != map[]
  }

  /** `{"type": "object", "properties": {}, "required": []}`. */
  function DefaultSchema(): Json {
    JDict(map["type" := JStr("object"), "properties" := JDict(map[]), "required" := JList([])])
  }

  /** `name or func.__name__`: the given name unless it is missing or empty. */
  function ToolName(name: Option<string>, funcName: string): (r: string)
    ensures name.Some? && name.value != "" ==> r == name.value
    ensures name.None? || name.value == "" ==> r == funcName
  {
    match name
    case Some(n) => if n != "" then n else funcName
    case None => funcName
  }

  /** `input_schema or {...}`: the given schema unless it is falsy; the stored schema is never falsy. */
  function EffectiveSchema(schema: Json): (r: Json)
    ensures Truthy(r)
    ensures Truthy(schema) ==> r == schema
    ensures !Truthy(schema) ==> r == DefaultSchema()
  {
    if Truthy(schema) then schema
    else
      assert "type" in DefaultSchema().fields;
      DefaultSchema()
  }

  /** A Python function object; `markedAsTool` is its `_is_mcp_tool` attribute. */
  class PyFunction {
    const name: string
    var markedAsTool: bool

    constructor (name: string)
      ensures this.name == name && !markedAsTool
    {
      this.name := name;
      markedAsTool := false;
    }
  }

  /** One value of `TOOLS`: a dictionary whose `description` and `inputSchema` keys may in principle be absent. */
  datatype ToolEntry = ToolEntry(callable: PyFunction, description: Option<string>, inputSchema: Option<Json>)

  /** The contents of `TOOLS`: its entries and its keys in iteration order. */
  datatype Catalog = Catalog(tools: map<string, ToolEntry>, order: seq<string>) {
    /** The keys are listed once each, and they are exactly the keys of the map. */
    ghost predicate Valid() {
      && (forall i, j :: 0 <= i < j < |order| ==> order[i] != order[j])
      && (forall k :: k in tools <==> k in order)
    }
  }

  /** The empty registry. */
  function EmptyCatalog(): Catalog {
    Catalog(map[], [])
  }

  /**
   * `TOOLS[key] = entry`: the entry is stored under `key`, replacing any entry
   * already there; every other entry stays as it was, existing keys keep
   * their place in iteration order and a new key comes last.
   */
  function Registered(c: Catalog, key: string, entry: ToolEntry): (r: Catalog)
    requires c.Valid()
    ensures r.Valid()
    ensures key in r.tools && r.tools[key] == entry
    ensures forall k :: k != key ==> (k in r.tools <==> k in c.tools)
    ensures forall k :: k != key && k in c.tools ==> r.tools[k] == c.tools[k]
    ensures |r.order| == if key in c.tools then |c.order| else |c.order| + 1
    ensures forall i :: 0 <= i < |c.order| ==> r.order[i] == c.order[i]
  {
    Catalog(c.tools[key := entry], if key in c.tools then c.order else c.order + [key])
  }

  /** The module-level `TOOLS` dictionary and the decorator that fills it. */
  class ToolRegistry {
    var tools: map<string, ToolEntry>
    var order: seq<string>

    function Snapshot(): Catalog
      reads this
    {
      Catalog(tools, order)
    }

    ghost predicate Valid()
      reads this
    {
      Snapshot().Valid()
    }

    constructor ()
      ensures Valid() && Snapshot() == EmptyCatalog()
    {
      tools := map[];
      order := [];
    }

    /**
     * `@mcp_tool(name, description, input_schema)` applied to `func`: register
     * `func` under its tool name with its description and effective schema,
     * and hand back the very same function.
     */
    method McpTool(name: Option<string>, description: string, inputSchema: Json, func: PyFunction)
      returns (f: PyFunction)
      requires Valid()
      modifies this
      ensures Valid()
      ensures f == func
      ensures Snapshot() == Registered(old(Snapshot()), ToolName(name, func.name),
                                       ToolEntry(func, Some(description), Some(EffectiveSchema(inputSchema))))
    {
      var toolName := ToolName(name, func.name);
      var entry := ToolEntry(func, Some(description), Some(EffectiveSchema(inputSchema)));
      if toolName !in tools {
        order := order + [toolName];
      }
      tools := tools[toolName := entry];
      f := func;
    }
  }

  /** `mark_as_tool`: set the function's `_is_mcp_tool` flag and hand back the same function. */
  method MarkAsTool(func: PyFunction) returns (f: PyFunction)
    modifies func
    ensures f == func && func.markedAsTool
  {
    func.markedAsTool := true;
    f := func;
  }
}
