/**
 * `cmd/gen/html.go`: searches over the parsed documentation page. The
 * page is a tree of nodes; a node's following siblings are passed where
 * the search needs them, since a value tree has no sibling links.
 */
module Html {
  /** `html.NodeType`. */
  datatype NodeType = ErrorNode | TextNode | DocumentNode | ElementNode | CommentNode | DoctypeNode | RawNode

  datatype Attribute = Attribute(namespace: string, key: string, val: string)

  /** `html.Node`: its type, its data (the tag of an element, the text of a text node), its attributes and its children in order. */
  datatype Node = Node(nodeType: NodeType, data: string, attrs: seq<Attribute>, children: seq<Node>)

  /** The nodes of a tree in pre-order: the node, then each child's tree in turn. */
  function PreOrder(n: Node): (r: seq<Node>)
    ensures |r| > 0 && r[0] == n
    decreases n, 1
  {
    [n] + PreOrderAll(n.children, n)
  }

  /** The pre-orders of a list of trees, one after the other. */
  function PreOrderAll(cs: seq<Node>, ghost parent: Node): seq<Node>
    requires forall i :: 0 <= i < |cs| ==> cs[i] < parent
    decreases parent, 0, |cs|
  {
    if cs == [] then [] else PreOrderAll(cs[..|cs| - 1], parent) + PreOrder(cs[|cs| - 1])
  }

  /** An element node whose tag is one of the tags (`slices.Contains`). */
  predicate IsTagged(n: Node, tags: seq<string>) {
    n.nodeType == ElementNode && n.data in tags
  }

  /** The tagged nodes of a list, in order. */
  function Select(s: seq<Node>, tags: seq<string>): (r: seq<Node>)
    ensures |r| <= |s|
  {
    if s == [] then [] else (if IsTagged(s[0], tags) then [s[0]] else []) + Select(s[1..], tags)
  }

  /** `Select` keeps exactly the tagged nodes. */
  lemma {:induction false} SelectMembers(s: seq<Node>, tags: seq<string>)
    ensures forall x :: x in Select(s, tags) <==> x in s && IsTagged(x, tags)
  {
    if s != [] {
      SelectMembers(s[1..], tags);
      assert forall x :: x in s <==> x == s[0] || x in s[1..];
    }
  }

  lemma {:induction false} SelectAppend(a: seq<Node>, b: seq<Node>, tags: seq<string>)
    ensures Select(a + b, tags) == Select(a, tags) + Select(b, tags)
  {
    if a == [] {
      assert a + b == b;
    } else {
      var head := if IsTagged(a[0], tags) then [a[0]] else [];
      assert (a + b)[0] == a[0] && (a + b)[1..] == a[1..] + b;
      assert Select(a + b, tags) == head + Select(a[1..] + b, tags);
      SelectAppend(a[1..], b, tags);
      assert Select(a, tags) == head + Select(a[1..], tags);
    }
  }

  /** `findNodes`: the tagged nodes of the tree in pre-order, the root included. */
  function FindNodes(root: Node, tags: seq<string>): seq<Node> {
    Select(PreOrder(root), tags)
  }

  /** `findNodes` finds exactly the tagged nodes of the tree, and a tagged root comes first. */
  lemma FindNodesMembers(root: Node, tags: seq<string>)
    ensures forall x :: x in FindNodes(root, tags) <==> x in PreOrder(root) && IsTagged(x, tags)
    ensures IsTagged(root, tags) ==> FindNodes(root, tags) != [] && FindNodes(root, tags)[0] == root
  {
    SelectMembers(PreOrder(root), tags);
    var p := PreOrder(root);
    assert p == [root] + p[1..];
    SelectAppend([root], p[1..], tags);
    assert [root][1..] == [];
  }

  /** One more child extends the pre-order of the children by that child's tree. */
  lemma PreOrderAllStep(cs: seq<Node>, i: nat, parent: Node)
    requires i < |cs| && forall j :: 0 <= j < |cs| ==> cs[j] < parent
    ensures PreOrderAll(cs[..i + 1], parent) == PreOrderAll(cs[..i], parent) + PreOrder(cs[i])
  {
    assert cs[..i + 1][..i] == cs[..i];
  }

  /** The recursive walk of `findNodes`, appending to the slice it is given. */
  method WalkNodes(node: Node, tags: seq<string>, acc: seq<Node>) returns (nodes: seq<Node>)
    ensures nodes == acc + Select(PreOrder(node), tags)
    decreases node
  {
    ghost var own := Select([node], tags);
    assert [node][0] == node && [node][1..] == [];
    nodes := acc;
    if IsTagged(node, tags) {
      nodes := nodes + [node];
    }
    assert nodes == acc + own;
    for i := 0 to |node.children|
      invariant nodes == acc + own + Select(PreOrderAll(node.children[..i], node), tags)
    {
      PreOrderAllStep(node.children, i, node);
      SelectAppend(PreOrderAll(node.children[..i], node), PreOrder(node.children[i]), tags);
      nodes := WalkNodes(node.children[i], tags, nodes);
    }
    assert node.children[..|node.children|] == node.children;
    SelectAppend([node], PreOrderAll(node.children, node), tags);
  }

  /** `findNodes` as the source runs it: a walk from the root into an empty slice. */
  method FindNodesWalk(root: Node, tags: seq<string>) returns (nodes: seq<Node>)
    ensures nodes == FindNodes(root, tags)
  {
    nodes := WalkNodes(root, tags, []);
  }

  /** What one node adds to `findText`: a text node its data, a `br` element a line break, any other node nothing. */
  function Piece(n: Node): string {
    if n.nodeType == TextNode then n.data
    else if n.nodeType == ElementNode && n.data == "br" then "\n"
    else ""
  }

  /** The pieces of a list of nodes, concatenated. */
  function Emit(s: seq<Node>): string {
    if s == [] then "" else Piece(s[0]) + Emit(s[1..])
  }

  lemma {:induction false} EmitAppend(a: seq<Node>, b: seq<Node>)
    ensures Emit(a + b) == Emit(a) + Emit(b)
  {
    if a == [] {
      assert a + b == b;
    } else {
      assert (a + b)[0] == a[0] && (a + b)[1..] == a[1..] + b;
      EmitAppend(a[1..], b);
    }
  }

  /** `findText`: the pieces of the tree's nodes in pre-order. */
  function FindText(n: Node): string {
    Emit(PreOrder(n))
  }

  /** The text of a node is its own piece followed by the texts of its children in order. */
  function TextOf(n: Node): string
    decreases n, 1
  {
    Piece(n) + TextOfAll(n.children, n)
  }

  function TextOfAll(cs: seq<Node>, ghost parent: Node): string
    requires forall i :: 0 <= i < |cs| ==> cs[i] < parent
    decreases parent, 0, |cs|
  {
    if cs == [] then "" else TextOfAll(cs[..|cs| - 1], parent) + TextOf(cs[|cs| - 1])
  }

  /** The two readings of `findText` agree: the pieces in pre-order, and each node's piece before its children's texts. */
  lemma {:induction false} FindTextIsTextOf(n: Node)
    ensures FindText(n) == TextOf(n)
    decreases n, 1
  {
    EmitAppend([n], PreOrderAll(n.children, n));
    FindTextAll(n.children, n);
  }

  lemma {:induction false} FindTextAll(cs: seq<Node>, parent: Node)
    requires forall i :: 0 <= i < |cs| ==> cs[i] < parent
    ensures Emit(PreOrderAll(cs, parent)) == TextOfAll(cs, parent)
    decreases parent, 0, |cs|
  {
    if cs != [] {
      var init := cs[..|cs| - 1];
      FindTextAll(init, parent);
      EmitAppend(PreOrderAll(init, parent), PreOrder(cs[|cs| - 1]));
      FindTextIsTextOf(cs[|cs| - 1]);
    }
  }

  /** A leaf text node reads as its data, and a leaf `br` as a line break. */
  lemma LeafText(n: Node)
    requires n.children == []
    ensures n.nodeType == TextNode ==> FindText(n) == n.data
    ensures n.nodeType == ElementNode && n.data == "br" ==> FindText(n) == "\n"
  {
    assert PreOrder(n) == [n];
    assert Emit([n]) == Piece(n) + Emit([]);
  }

  /** A tree's text is the root's piece followed by the text of its children's trees. */
  lemma EmitPreOrder(n: Node)
    ensures Emit(PreOrder(n)) == Piece(n) + Emit(PreOrderAll(n.children, n))
  {
    EmitAppend([n], PreOrderAll(n.children, n));
    assert [n][0] == n && [n][1..] == [];
    assert Emit([n]) == Piece(n) + Emit([]);
    assert Piece(n) + "" == Piece(n);
  }

  /** The `switch` of the walk: what one node appends. */
  method WalkPiece(n: Node, acc: string) returns (text: string)
    ensures text == acc + Piece(n)
  {
    text := acc;
    if n.nodeType == TextNode {
      text := text + n.data;
    } else if n.nodeType == ElementNode && n.data == "br" {
      text := text + "\n";
    }
  }

  /** The recursive walk of `findText`, appending to the bytes it is given. */
  method WalkText(n: Node, acc: string) returns (text: string)
    ensures text == acc + Emit(PreOrder(n))
    decreases n
  {
    text := WalkPiece(n, acc);
    ghost var start := text;
    for i := 0 to |n.children|
      invariant text == start + Emit(PreOrderAll(n.children[..i], n))
    {
      PreOrderAllStep(n.children, i, n);
      EmitAppend(PreOrderAll(n.children[..i], n), PreOrder(n.children[i]));
      text := WalkText(n.children[i], text);
    }
    assert n.children[..|n.children|] == n.children;
    EmitPreOrder(n);
  }

  /** `findText` as the source runs it: a walk into an empty buffer. */
  method FindTextWalk(n: Node) returns (text: string)
    ensures text == FindText(n)
  {
    text := WalkText(n, "");
  }

  /** Where `findNodesSibling` stops: a sibling with the root's data, or any two-character data starting with `h` (a heading), whatever the node's type. */
  predicate StopsScan(root: Node, node: Node) {
    node.data == root.data || (|node.data| == 2 && node.data[0] == 'h')
  }

  /** The index of the first sibling that stops the scan, or the number of siblings. */
  function StopIndex(root: Node, following: seq<Node>): (k: nat)
    ensures k <= |following|
    ensures k < |following| ==> StopsScan(root, following[k])
    ensures forall j :: 0 <= j < k ==> !StopsScan(root, following[j])
  {
    if following == [] then 0
    else if StopsScan(root, following[0]) then 0
    else 1 + StopIndex(root, following[1..])
  }

  /**
   * `findNodesSibling`, given the siblings that follow the root in order:
   * the tagged siblings before the first one that stops the scan.
   */
  method FindNodesSibling(root: Node, following: seq<Node>, tags: seq<string>) returns (nodes: seq<Node>)
    ensures nodes == Select(following[..StopIndex(root, following)], tags)
  {
    nodes := [];
    var k := StopIndex(root, following);
    for i := 0 to |following|
      invariant i <= k
      invariant nodes == Select(following[..i], tags)
    {
      var node := following[i];
      if node.data == root.data {
        break;
      }
      if |node.data| == 2 && node.data[0] == 'h' {
        break;
      }
      assert i < k;
      assert following[..i + 1] == following[..i] + [node];
      SelectAppend(following[..i], [node], tags);
      if node.nodeType == ElementNode && node.data in tags {
        nodes := nodes + [node];
      }
    }
  }

  /** `findAttr`: the value of the first attribute with the key, or "" when there is none. */
  method FindAttr(node: Node, key: string) returns (val: string)
    ensures (forall i :: 0 <= i < |node.attrs| ==> node.attrs[i].key != key) ==> val == ""
    ensures (exists i :: 0 <= i < |node.attrs| && node.attrs[i].key == key) ==>
      exists i :: 0 <= i < |node.attrs| && node.attrs[i].key == key && val == node.attrs[i].val
        && forall j :: 0 <= j < i ==> node.attrs[j].key != key
  {
    for i := 0 to |node.attrs|
      invariant forall j :: 0 <= j < i ==> node.attrs[j].key != key
    {
      if node.attrs[i].key == key {
        return node.attrs[i].val;
      }
    }
    return "";
  }
}
