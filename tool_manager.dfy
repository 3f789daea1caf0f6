/**
 * The read-only queries over the tool registry
 * (ProjectMCP_Relay/tool_manager.py): the tool listing, the registry itself
 * and the membership test.
 */
module ToolManager {
  import opened Wrappers
  import opened ToolsRegistry

  /** One record of the `tools/list` answer. */
  datatype ToolInfo = ToolInfo(name: string, description: string, inputSchema: Json)

  /** The record for the entry `e` stored under `name`, with `""` and `{}` for a missing description or schema. */
  function Info(name: string, e: ToolEntry): ToolInfo {
    ToolInfo(name, e.description.GetOr(""), e.inputSchema.GetOr(JDict(map[])))
  }

  /** A sequence whose elements are pairwise distinct has as many elements as the set of them. */
  lemma {:induction false} DistinctKeysCount(order: seq<string>, keys: set<string>)
    requires forall i, j :: 0 <= i < j < |order| ==> order[i] != order[j]
    requires forall k :: k in keys <==> k in order
    ensures |keys| == |order|
    decreases |order|
  {
    if order != [] {
      var n := |order| - 1;
      var last := order[n];
      var rest := keys - {last};
      forall k ensures k in rest <==> k in order[..n] {
        if k in order {
          var i :| 0 <= i < |order| && order[i] == k;
          assert k != last ==> i < n;
        }
        if k in order[..n] {
          var i :| 0 <= i < n && order[..n][i] == k;
          assert order[i] != order[n];
        }
      }
      DistinctKeysCount(order[..n], rest);
    }
  }

  /**
   * `list_tools`: one record per registered tool, in registry iteration
   * order, so as many records as tools and no name twice.
   */
  function ListTools(c: Catalog): (r: seq<ToolInfo>)
    requires c.Valid()
    ensures |r| == |c.order| == |c.tools|
    ensures forall i :: 0 <= i < |r| ==> r[i].name == c.order[i]
    ensures forall i :: 0 <= i < |r| ==> r[i].name in c.tools && r[i] == Info(r[i].name, c.tools[r[i].name])
    ensures forall i, j :: 0 <= i < j < |r| ==> r[i].name != r[j].name
  {
    DistinctKeysCount(c.order, c.tools.Keys);
    seq(|c.order|, i requires 0 <= i < |c.order| => Info(c.order[i], c.tools[c.order[i]]))
  }

  /** `tool_exists`: `name` is a key of the registry, that is one of the names it lists. */
  function ToolExists(c: Catalog, name: string): (r: bool)
    ensures c.Valid() ==> (r <==> name in c.order)
  {
    name in c.tools
  }

  /** `get_tool_metadata_dict`: the registry itself, every entry as stored. */
  function GetToolMetadataDict(c: Catalog): (m: map<string, ToolEntry>)
    ensures forall n :: n in m <==> ToolExists(c, n)
    ensures forall n :: n in m ==> n in c.tools && m[n] == c.tools[n]
  {
    c.tools
  }

  /** A tool exists exactly when the listing has a record with its name. */
  lemma ToolExistsIffListed(c: Catalog, name: string)
    requires c.Valid()
    ensures ToolExists(c, name) <==> exists i :: 0 <= i < |ListTools(c)| && ListTools(c)[i].name == name
  {
    var r := ListTools(c);
    if name in c.tools {
      var i :| 0 <= i < |c.order| && c.order[i] == name;
      assert r[i].name == name;
    }
  }

  /**
   * The listing after a registration: a new name adds its record at the end;
   * an existing name has its record replaced in place and nothing else moves.
   */
  lemma {:induction false} ListToolsAfterRegister(c: Catalog, key: string, entry: ToolEntry)
    requires c.Valid()
    ensures key !in c.tools ==> ListTools(Registered(c, key, entry)) == ListTools(c) + [Info(key, entry)]
    ensures key in c.tools ==>
      var before, after := ListTools(c), ListTools(Registered(c, key, entry));
      |after| == |before| &&
      forall i :: 0 <= i < |after| ==> after[i] == if before[i].name == key then Info(key, entry) else before[i]
  {
  }
}
