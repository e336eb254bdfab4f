/**
 * The parsed XML tree as the client sees it through `xml.dom.minidom`:
 * text, CDATA, comment and element nodes, a document holding the top-level
 * nodes, attribute lookup, and `getElementsByTagName`.
 */
module Dom {

  datatype Node =
    | Text(data: string)
    | CData(data: string)
    | Comment(data: string)
    | Element(tagName: string, attributes: map<string, string>, children: seq<Node>)

  /** What `parse` returns; `childNodes` holds the root element (and any comment beside it). */
  datatype Document = Document(childNodes: seq<Node>)

  /** `node.nodeType in [Node.TEXT_NODE, Node.CDATA_SECTION_NODE]` */
  predicate IsCharData(n: Node)
  {
    n.Text? || n.CData?
  }

  /** `node.childNodes`: the children of an element, an empty list for the other node types. */
  function ChildNodes(n: Node): seq<Node>
  {
    if n.Element? then n.children else []
  }

  /** `element.hasAttribute(name)` */
  predicate HasAttribute(e: Node, name: string)
    requires e.Element?
  {
    name in e.attributes
  }

  /** `element.getAttribute(name)`: minidom answers the empty string for a missing attribute. */
  function GetAttribute(e: Node, name: string): string
    requires e.Element?
  {
    if name in e.attributes then e.attributes[name] else ""
  }

  /**
   * `getElementsByTagName(name)` on a node whose children are `cs`: every
   * element strictly below the node with that tag name, in document order
   * (an element, then what lies inside it, then its later siblings).
   * The wildcard name "*" is never passed by the client and is not modelled.
   */
  function ElementsByTagName(cs: seq<Node>, name: string): (r: seq<Node>)
    ensures forall i :: 0 <= i < |r| ==> r[i].Element? && r[i].tagName == name
  {
    if cs == [] then []
    else
      (if cs[0].Element? && cs[0].tagName == name then [cs[0]] else [])
      + (if cs[0].Element? then ElementsByTagName(cs[0].children, name) else [])
      + ElementsByTagName(cs[1..], name)
  }

  /** Every element strictly below a node with children `cs`, in document order (pre-order). */
  function Descendants(cs: seq<Node>): (r: seq<Node>)
    ensures forall i :: 0 <= i < |r| ==> r[i].Element?
  {
    if cs == [] then []
    else (if cs[0].Element? then [cs[0]] + Descendants(cs[0].children) else []) + Descendants(cs[1..])
  }

  /** The elements of `ns` called `name`, order kept. */
  function Named(ns: seq<Node>, name: string): seq<Node>
  {
    if ns == [] then []
    else (if ns[0].Element? && ns[0].tagName == name then [ns[0]] else []) + Named(ns[1..], name)
  }

  lemma {:induction false} NamedAppend(a: seq<Node>, b: seq<Node>, name: string)
    ensures Named(a + b, name) == Named(a, name) + Named(b, name)
  {
    if a == [] {
      assert a + b == b;
    } else {
      assert (a + b)[1..] == a[1..] + b;
      NamedAppend(a[1..], b, name);
    }
  }

  /**
   * `getElementsByTagName` selects, in document order, exactly the descendants
   * that are elements with the requested name.
   */
  lemma {:induction false} ElementsByTagNameSelectsDescendants(cs: seq<Node>, name: string)
    ensures ElementsByTagName(cs, name) == Named(Descendants(cs), name)
  {
    if cs != [] {
      var head := if cs[0].Element? then [cs[0]] + Descendants(cs[0].children) else [];
      ElementsByTagNameSelectsDescendants(cs[1..], name);
      NamedAppend(head, Descendants(cs[1..]), name);
      if cs[0].Element? {
        ElementsByTagNameSelectsDescendants(cs[0].children, name);
        NamedAppend([cs[0]], Descendants(cs[0].children), name);
      }
    }
  }
}
