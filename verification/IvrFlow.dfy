/** The flow graph an IVR call walks. */
module IvrFlow {
  import opened CallTypes

  type NodeId = string

  datatype NodeType = StartNode | Menu | Play | Transfer | Hangup | Unknown

  datatype Node = Node(
    id: NodeId,
    kind: NodeType,
    noInput: Option<string>,
    digits: map<string, NodeId>)  // the older routing table of a menu
  {
    predicate Replays() { noInput.None? || noInput.value == "replay" }
  }

  datatype Edge = Edge(source: NodeId, handle: string, target: NodeId)

  /** `audible` are the nodes with audio. Of two nodes with one id the later
      stands. */
  datatype Flow = Flow(list: seq<Node>, edges: seq<Edge>, audible: set<NodeId>, errorAudio: bool) {
    function Get(id: NodeId): Option<Node> { Find(list, id) }

    predicate AudioPlay(id: NodeId) { Get(id).Some? && Get(id).value.kind == Play && id in audible }

    predicate AudioMenu(id: NodeId) { Get(id).Some? && Get(id).value.kind == Menu && id in audible }

    function FirstOfKind(kind: NodeType): (r: Option<NodeId>)
      ensures r.Some? ==> Get(r.value).Some? && Get(r.value).value.kind == kind
    {
      FirstFrom(0, kind)
    }

    function FirstFrom(i: nat, kind: NodeType): (r: Option<NodeId>)
      requires i <= |list|
      ensures r.Some? ==> Get(r.value).Some? && Get(r.value).value.kind == kind
      decreases |list| - i
    {
      if i == |list| then None
      else if Get(list[i].id).Some? && Get(list[i].id).value.kind == kind then Some(list[i].id)
      else FirstFrom(i + 1, kind)
    }

    function Out(id: NodeId): Option<NodeId> { FirstTarget(edges, id, None) }

    /** Where a digit leads from a menu: the first edge of that digit, else the
        menu's own table if it names a node there is. */
    function Route(id: NodeId, digit: string): Option<NodeId> {
      var edge := FirstTarget(edges, id, Some(digit));
      if edge.Some? && edge.value != "" then edge
      else if Get(id).Some? && digit in Get(id).value.digits && Get(id).value.digits[digit] != ""
              && Get(Get(id).value.digits[digit]).Some?
      then Some(Get(id).value.digits[digit])
      else None
    }
  }

  function Find(list: seq<Node>, id: NodeId): (r: Option<Node>)
    ensures r.Some? ==> r.value.id == id
  {
    if list == [] then None
    else if list[|list| - 1].id == id then Some(list[|list| - 1])
    else Find(list[..|list| - 1], id)
  }

  /** The target of the first edge out of a node, for one handle or for any. */
  function FirstTarget(edges: seq<Edge>, source: NodeId, handle: Option<string>): Option<NodeId> {
    if edges == [] then None
    else if edges[0].source == source && (handle.None? || edges[0].handle == handle.value) then Some(edges[0].target)
    else FirstTarget(edges[1..], source, handle)
  }
}
