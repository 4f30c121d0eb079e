/** The document tree's node kinds and the child-list container of node.go. */
module Nodes {

  datatype Option<T> = None | Some(value: T)

  /** `nodeType` is a plain Go int; the five named kinds are the values 0..4. */
  type NodeType = int

  const NodeList: NodeType := 0
  const NodeText: NodeType := 1
  const NodeElement: NodeType := 2
  const NodeComment: NodeType := 3
  const NodeDocument: NodeType := 4

  /** `nodeTypeMap`: the printable name of each named kind. */
  const NodeTypeMap: map<NodeType, string> :=
    map[NodeList := "list", NodeText := "text", NodeElement := "element",
        NodeComment := "comment", NodeDocument := "document"]

  /** Indexing `nodeTypeMap`; like any Go map it yields "" for a kind it does not hold. */
  function TypeName(t: NodeType): (name: string)
    ensures name != "" <==> NodeList <= t <= NodeDocument
  {
    if t in NodeTypeMap then NodeTypeMap[t] else ""
  }

  /** The five named kinds have five different names. */
  lemma TypeNamesDistinct()
    ensures forall t, u | NodeList <= t < u <= NodeDocument :: TypeName(t) != TypeName(u)
  {
  }

  /**
   * The two node kinds the parser builds, `*elementNode` and `*documentNode`.
   * Both carry the text the parser collected for them; an element's attribute
   * map is never filled in and is not modelled.
   */
  datatype Node = Element(data: string) | Document(data: string)
  {
    function Type(): (t: NodeType)
      ensures t in NodeTypeMap
      ensures t == NodeElement <==> Element?
      ensures t == NodeDocument <==> Document?
    {
      if Element? then NodeElement else NodeDocument
    }

    /** `Data()` gives back the node's text: the kind and the text rebuild the node. */
    function Data(): (d: string)
      ensures Element? ==> this == Element(d)
      ensures Document? ==> this == Document(d)
    {
      data
    }

    /** `String()` looks the node's kind up in `nodeTypeMap`. */
    function String(): (name: string)
      ensures name == "element" <==> Element?
      ensures name == "document" <==> Document?
    {
      TypeName(Type())
    }
  }

  /** Each node gives back the text it was built with, and names its own kind. */
  lemma NodeAccessors(s: string)
    ensures Element(s).Data() == s && Document(s).Data() == s
    ensures Element(s).Type() == NodeElement && Element(s).String() == "element"
    ensures Document(s).Type() == NodeDocument && Document(s).String() == "document"
  {
  }

  /**
   * `listNode`: the children appended so far, the most recently appended one
   * (`nextChild`, nil before the first append) and their count `pos`.
   */
  class ListNode {
    const nodeType: NodeType
    var children: seq<Node>
    var nextChild: Option<Node>
    var pos: int

    /** The three fields agree: `pos` counts the children and `nextChild` is the last one. */
    ghost predicate Valid()
      reads this
    {
      pos == |children| &&
      nextChild == if pos == 0 then None else Some(children[pos - 1])
    }

    /** The composite literal `&listNode{nodeType: nodeList, pos: 0}`. */
    constructor ()
      ensures nodeType == NodeList && children == [] && nextChild == None && pos == 0
      ensures Valid()
    {
      nodeType := NodeList;
      children := [];
      nextChild := None;
      pos := 0;
    }

    /** `append` adds `n` at the end, remembers it as the next child and counts it. */
    method Append(n: Node)
      modifies this
      ensures children == old(children) + [n]
      ensures nextChild == Some(n)
      ensures pos == old(pos) + 1
      ensures old(Valid()) ==> Valid() && Next() == n && LastChild() == n
    {
      children := children + [n];
      nextChild := Some(n);
      pos := pos + 1;
    }

    /** `Next` dereferences `nextChild`, which panics while it is nil. */
    function Next(): (n: Node)
      reads this
      requires nextChild.Some?
      ensures Valid() ==> n == children[|children| - 1]
    {
      nextChild.value
    }

    /** `lastChild` indexes `children[pos-1]`, which panics unless `1 <= pos <= len(children)`. */
    function LastChild(): (n: Node)
      reads this
      requires 1 <= pos <= |children|
      ensures Valid() ==> n == children[|children| - 1] && n == Next()
    {
      children[pos - 1]
    }
  }

  /** `tree`: the document tree, whose root list is set by the parser. */
  class Tree {
    var root: ListNode?

    constructor ()
      ensures root == null
    {
      root := null;
    }

    /** `newList` makes an empty list of kind `nodeList`; the tree itself is not touched. */
    method NewList() returns (l: ListNode)
      ensures fresh(l)
      ensures l.nodeType == NodeList && l.children == [] && l.nextChild == None && l.pos == 0
      ensures l.Valid()
    {
      l := new ListNode();
    }
  }
}
