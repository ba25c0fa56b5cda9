/**
 * The part of the DOM the response interpreter uses: an element tree,
 * getElementsByTagName as a search in document order, and getTextContent.
 * Parsing itself is an oracle (Parser) supplied by the caller.
 */
module Xml {

  import opened Wrappers

  datatype Node = Element(tag: string, children: seq<Node>) | Text(text: string)

  /** DocumentBuilder.parse on a response body: the document element, or None when the body is not well-formed. */
  type Parser = string -> Option<Node>

  /** Document.getElementsByTagName: the node itself when it matches, then its descendants, in document order. */
  function ElementsByTag(n: Node, tag: string): (r: seq<Node>)
    ensures forall i :: 0 <= i < |r| ==> r[i].Element? && r[i].tag == tag
    decreases n, 1
  {
    match n
    case Text(_) => []
    case Element(t, cs) => (if t == tag then [n] else []) + ElementsIn(cs, tag)
  }

  /** The matching elements of a list of sibling subtrees, in document order. */
  function ElementsIn(ns: seq<Node>, tag: string): (r: seq<Node>)
    ensures forall i :: 0 <= i < |r| ==> r[i].Element? && r[i].tag == tag
    decreases ns, 0
  {
    if ns == [] then [] else ElementsByTag(ns[0], tag) + ElementsIn(ns[1..], tag)
  }

  /** Element.getElementsByTagName: the matching descendants, the element itself excluded. */
  function Descendants(e: Node, tag: string): (r: seq<Node>)
    ensures forall i :: 0 <= i < |r| ==> r[i].Element? && r[i].tag == tag
  {
    match e
    case Text(_) => []
    case Element(_, cs) => ElementsIn(cs, tag)
  }

  /** Reference definition: some element of the subtree has the tag. */
  predicate HasTag(n: Node, tag: string)
    decreases n
  {
    n.Element? && (n.tag == tag || exists i :: 0 <= i < |n.children| && HasTag(n.children[i], tag))
  }

  /** The search finds an element exactly when the tree holds one, wherever it sits. */
  lemma {:induction false} ElementsByTagFinds(n: Node, tag: string)
    ensures |ElementsByTag(n, tag)| > 0 <==> HasTag(n, tag)
    decreases n, 1
  {
    match n
    case Text(_) =>
    case Element(t, cs) => ElementsInFinds(cs, tag);
  }

  lemma {:induction false} ElementsInFinds(ns: seq<Node>, tag: string)
    ensures |ElementsIn(ns, tag)| > 0 <==> exists i :: 0 <= i < |ns| && HasTag(ns[i], tag)
    decreases ns, 0
  {
    if ns != [] {
      ElementsByTagFinds(ns[0], tag);
      ElementsInFinds(ns[1..], tag);
      if exists i :: 0 <= i < |ns| && HasTag(ns[i], tag) {
        var i :| 0 <= i < |ns| && HasTag(ns[i], tag);
        if i > 0 {
          assert ns[1..][i - 1] == ns[i];
        }
      }
      if exists i :: 0 <= i < |ns[1..]| && HasTag(ns[1..][i], tag) {
        var i :| 0 <= i < |ns[1..]| && HasTag(ns[1..][i], tag);
        assert ns[i + 1] == ns[1..][i];
      }
    }
  }

  /** Node.getTextContent: the text of every descendant text node, in document order. */
  function TextContent(n: Node): string
    decreases n, 1
  {
    match n
    case Text(s) => s
    case Element(_, cs) => TextContentIn(cs)
  }

  function TextContentIn(ns: seq<Node>): string
    decreases ns, 0
  {
    if ns == [] then "" else TextContent(ns[0]) + TextContentIn(ns[1..])
  }
}
