/**
 * The global-ID fixture of the node test: IDs of the form `TypeName:id`, a
 * registration-time side-table from type name to a constructor, and the `node`
 * lookup that chains parsing, the table and the constructor.
 */
module NodeData {
  import opened Wrappers

  const SEPARATOR: char := ':'

  /** The position of the first separator in s, or |s| when there is none. */
  function FirstSeparator(s: string): (k: nat)
    ensures k <= |s|
    ensures k < |s| ==> s[k] == SEPARATOR
    ensures forall j :: 0 <= j < k ==> s[j] != SEPARATOR
  {
    if s == [] then 0
    else if s[0] == SEPARATOR then 0
    else 1 + FirstSeparator(s[1..])
  }

  /** All the pieces `s.split(':')` yields, in order. */
  function Split(s: string): (parts: seq<string>)
    ensures |parts| >= 1
    ensures forall i :: 0 <= i < |parts| ==> SEPARATOR !in parts[i]
    decreases |s|
  {
    var k := FirstSeparator(s);
    if k == |s| then [s] else [s[..k]] + Split(s[k + 1..])
  }

  /** `id.split(':')`: an iterator that hands out one piece per `next()`. */
  class SplitIter {
    const haystack: string
    var pos: nat
    var finished: bool

    ghost predicate Valid()
      reads this
    {
      pos <= |haystack|
    }

    /** The pieces still to come. */
    ghost function Remaining(): seq<string>
      reads this
      requires Valid()
    {
      if finished then [] else Split(haystack[pos..])
    }

    constructor (s: string)
      ensures Valid() && haystack == s
      ensures Remaining() == Split(s)
    {
      haystack := s;
      pos := 0;
      finished := false;
    }

    /** `next()`: the next piece, or `None` once every piece has been handed out. */
    method Next() returns (piece: Option<string>)
      requires Valid()
      modifies this
      ensures Valid()
      ensures old(Remaining()) == [] ==> piece == None && Remaining() == []
      ensures old(Remaining()) != [] ==> piece == Some(old(Remaining())[0]) && Remaining() == old(Remaining())[1..]
    {
      if finished {
        return None;
      }
      var k := FindSeparator(haystack, pos);
      SplitFrom(haystack, pos, k);
      piece := Some(haystack[pos..k]);
      if k == |haystack| {
        finished := true;
      } else {
        pos := k + 1;
      }
    }
  }

  /** The scan `split` performs: the position of the first separator at or after `from`, or |s| when there is none. */
  method FindSeparator(s: string, from: nat) returns (k: nat)
    requires from <= |s|
    ensures from <= k <= |s|
    ensures forall j :: from <= j < k ==> s[j] != SEPARATOR
    ensures k < |s| ==> s[k] == SEPARATOR
  {
    k := from;
    while k < |s| && s[k] != SEPARATOR
      invariant from <= k <= |s|
      invariant forall j :: from <= j < k ==> s[j] != SEPARATOR
    {
      k := k + 1;
    }
  }

  /** Splitting from `pos`, where the first separator is at `k`: the piece before it, then the pieces after it. */
  lemma SplitFrom(s: string, pos: nat, k: nat)
    requires pos <= k <= |s|
    requires forall j :: pos <= j < k ==> s[j] != SEPARATOR
    requires k < |s| ==> s[k] == SEPARATOR
    ensures Split(s[pos..])[0] == s[pos..k]
    ensures k == |s| ==> |Split(s[pos..])| == 1
    ensures k < |s| ==> Split(s[pos..])[1..] == Split(s[k + 1..])
  {
    var rest := s[pos..];
    assert forall j :: 0 <= j < k - pos ==> rest[j] == s[pos + j];
    assert FirstSeparator(rest) == k - pos;
    assert rest[..k - pos] == s[pos..k];
    if k < |s| {
      assert rest[k - pos + 1..] == s[k + 1..];
    }
  }

  /** `parse_id` as a function: the first two pieces, if there are two. */
  function ParsedId(id: string): (r: Option<(string, string)>)
    ensures r.Some? ==> SEPARATOR !in r.value.0 && SEPARATOR !in r.value.1
    ensures r.None? <==> SEPARATOR !in id
  {
    var parts := Split(id);
    if |parts| >= 2 then Some((parts[0], parts[1])) else None
  }

  /** `parse_id`: advance the split iterator twice. */
  method ParseId(id: string) returns (r: Option<(string, string)>)
    ensures r == ParsedId(id)
  {
    var split := new SplitIter(id);
    var name := split.Next();
    if name.None? {
      return None;
    }
    var rest := split.Next();
    if rest.None? {
      return None;
    }
    r := Some((name.value, rest.value));
  }

  /** `format_id`: the type name, the separator, then the id. */
  function FormatId(typeName: string, id: string): (r: string)
    ensures |r| == |typeName| + 1 + |id|
    ensures r[..|typeName|] == typeName && r[|typeName|] == SEPARATOR && r[|typeName| + 1..] == id
  {
    typeName + [SEPARATOR] + id
  }

  /** A string without a separator splits into itself alone. */
  lemma SplitWithoutSeparator(s: string)
    requires SEPARATOR !in s
    ensures Split(s) == [s]
  {
    assert forall j :: 0 <= j < |s| ==> s[j] != SEPARATOR;
  }

  /** Splitting `a:rest` with no separator in `a` yields `a`, then the pieces of `rest`. */
  lemma SplitAfterFirst(a: string, rest: string)
    requires SEPARATOR !in a
    ensures Split(a + [SEPARATOR] + rest) == [a] + Split(rest)
  {
    var s := a + [SEPARATOR] + rest;
    assert forall j :: 0 <= j < |a| ==> s[j] == a[j] && s[j] != SEPARATOR;
    assert s[|a|] == SEPARATOR;
    var k := FirstSeparator(s);
    assert k == |a|;
    assert s[..k] == a;
    assert s[k + 1..] == rest;
  }

  /** Round trip: parsing a formatted id gives back the name and the id. */
  lemma ParseFormatRoundTrip(typeName: string, id: string)
    requires SEPARATOR !in typeName && SEPARATOR !in id
    ensures ParsedId(FormatId(typeName, id)) == Some((typeName, id))
  {
    SplitAfterFirst(typeName, id);
    SplitWithoutSeparator(id);
  }

  /** Pieces after the second are ignored. */
  lemma ParseIgnoresExtraPieces(typeName: string, id: string, extra: string)
    requires SEPARATOR !in typeName && SEPARATOR !in id
    ensures ParsedId(typeName + [SEPARATOR] + id + [SEPARATOR] + extra) == Some((typeName, id))
  {
    var tail := id + [SEPARATOR] + extra;
    assert typeName + [SEPARATOR] + id + [SEPARATOR] + extra == typeName + [SEPARATOR] + tail;
    SplitAfterFirst(typeName, tail);
    SplitAfterFirst(id, extra);
    var parts := Split(typeName + [SEPARATOR] + tail);
    assert parts == [typeName] + ([id] + Split(extra));
    assert parts[0] == typeName && parts[1] == id;
  }

  // ---------------------------------------------------------------------------
  // The side-table and the lookup
  // ---------------------------------------------------------------------------

  /** The `FooNode` object of the fixture. */
  datatype FooNode = FooNode(id: string, name: string)

  /** `Instance<'static, dyn Node>`; `FooNode` is the fixture's only implementer. */
  datatype NodeInstance = FooNodeInstance(foo: FooNode)

  /** `GetNode = fn(&str) -> Option<Instance<dyn Node>>`. */
  type GetNode = string -> Option<NodeInstance>

  /** `NodeData`: type name to constructor. */
  type NodeTable = map<string, GetNode>

  /** `<FooNode as Object>::get_object_type_name()` and `FooNode::get_name()`. */
  const FOO_NODE: string := "FooNode"

  /** `Node::get_id` for an instance. */
  function GetId(n: NodeInstance): (id: string)
    ensures id == n.foo.id
  {
    match n
    case FooNodeInstance(foo) => foo.id
  }

  /** `Node::get_name` for an instance's type. */
  function GetName(n: NodeInstance): (name: string)
    ensures name == FOO_NODE
  {
    match n
    case FooNodeInstance(_) => FOO_NODE
  }

  /** The interface's default `id` field: `format_id(self)`. */
  function IdField(n: NodeInstance): (r: string)
    ensures r == FormatId(GetName(n), GetId(n))
  {
    FormatId(GetName(n), GetId(n))
  }

  /** The `id` field is a global ID that `parse_id` maps back to the node's type name and id. */
  lemma IdFieldParsesBack(n: NodeInstance)
    requires SEPARATOR !in GetId(n)
    ensures ParsedId(IdField(n)) == Some((GetName(n), GetId(n)))
  {
    assert SEPARATOR !in FOO_NODE;
    ParseFormatRoundTrip(GetName(n), GetId(n));
  }

  /** The constructor `RegisterFooNode` stores: every id gives a `FooNode` named "foo". */
  function GetFooNode(id: string): (r: Option<NodeInstance>)
    ensures r.Some? && GetId(r.value) == id && r.value.foo.name == "foo"
  {
    Some(FooNodeInstance(FooNode(id, "foo")))
  }

  /** `NodeQuery::node`: parse the id, find the table, find the type's constructor, call it. */
  function NodeLookup(nodeData: Option<NodeTable>, id: string): (r: Option<NodeInstance>)
    ensures ParsedId(id).None? || nodeData.None? ==> r == None
    ensures ParsedId(id).Some? && nodeData.Some? && ParsedId(id).value.0 !in nodeData.value ==> r == None
    ensures ParsedId(id).Some? && nodeData.Some? && ParsedId(id).value.0 in nodeData.value ==>
              r == nodeData.value[ParsedId(id).value.0](ParsedId(id).value.1)
  {
    match ParsedId(id)
    case None => None
    case Some((name, rest)) =>
      match nodeData
      case None => None
      case Some(table) =>
        if name in table then table[name](rest) else None
  }

  /** The registry, reduced to the `NodeData` slot of its side-table. */
  class Registry {
    var nodeData: Option<NodeTable>

    constructor ()
      ensures nodeData == None
    {
      nodeData := None;
    }
  }

  /** `RegisterFooNode::register`: get or create the table, then map `FooNode` to its constructor. */
  method RegisterFooNode(registry: Registry)
    modifies registry
    ensures registry.nodeData.Some?
    ensures FOO_NODE in registry.nodeData.value && registry.nodeData.value[FOO_NODE] == GetFooNode
    ensures old(registry.nodeData).Some? ==>
              forall name :: name in old(registry.nodeData).value && name != FOO_NODE ==>
                name in registry.nodeData.value && registry.nodeData.value[name] == old(registry.nodeData).value[name]
    ensures old(registry.nodeData).None? ==> registry.nodeData.value.Keys == {FOO_NODE}
    ensures old(registry.nodeData).Some? ==> registry.nodeData.value.Keys == old(registry.nodeData).value.Keys + {FOO_NODE}
  {
    if registry.nodeData.None? {
      registry.nodeData := Some(map[]);
    }
    var table := registry.nodeData.value;
    registry.nodeData := Some(table[FOO_NODE := GetFooNode]);
  }

  /** Once `FooNode` is registered, looking up a formatted `FooNode` id yields that node. */
  lemma NodeFindsRegisteredFooNode(table: NodeTable, id: string)
    requires FOO_NODE in table && table[FOO_NODE] == GetFooNode
    requires SEPARATOR !in id
    ensures NodeLookup(Some(table), FormatId(FOO_NODE, id)) == Some(FooNodeInstance(FooNode(id, "foo")))
    ensures IdField(NodeLookup(Some(table), FormatId(FOO_NODE, id)).value) == FormatId(FOO_NODE, id)
  {
    ParseFormatRoundTrip(FOO_NODE, id);
  }

  /** The query of the node test: `node(id: "FooNode:1") { id name }` answers "FooNode:1" and "foo". */
  method NodeScenario() returns (idField: string, nameField: string)
    ensures idField == "FooNode:1" && nameField == "foo"
  {
    var registry := new Registry();
    RegisterFooNode(registry);
    assert FormatId(FOO_NODE, "1") == "FooNode:1";
    NodeFindsRegisteredFooNode(registry.nodeData.value, "1");
    var node := NodeLookup(registry.nodeData, "FooNode:1");
    idField := IdField(node.value);
    nameField := node.value.foo.name;
  }
}
