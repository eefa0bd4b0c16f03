/** The node-graph document submitted to the inference server: node id to node record.
    A node record has a type tag (`class_type`) and a dict of named inputs; either may
    be absent, which the handler's `.get(..., default)` calls allow for. Other parts of
    a node record (its `_meta` title) are never read or written and are not modelled. */
module Graphs {
  import opened Values

  datatype Node = Node(classType: Option<string>, inputs: Option<map<string, Value>>)

  type Graph = map<string, Node>

  /** `g[id]["inputs"][field] = v`: one input of one node overwritten in place. */
  function SetInput(g: Graph, id: string, field: string, v: Value): (r: Graph)
    requires id in g && g[id].inputs.Some?
    ensures r.Keys == g.Keys
    ensures r[id] == Node(g[id].classType, Some(g[id].inputs.value[field := v]))
    ensures forall other :: other in g && other != id ==> r[other] == g[other]
  {
    g[id := g[id].(inputs := Some(g[id].inputs.value[field := v]))]
  }
}
