/**
 * A Common Alerting Protocol document (OASIS CAP 1.2, section 3.2) after an
 * XML library has turned it into plain values, in the shape both libraries
 * the parsers use produce when a lone child is not wrapped in an array:
 * the text of a leaf element, an element whose children are keyed by tag
 * name, or a list standing for a tag that occurs more than once. A leaf can
 * also be a number: fast-xml-parser, as the back end calls it, turns a leaf
 * whose text reads as a number into that number (`<value>771204</value>`
 * gives 771204); xml2js, as the netlify reader calls it, keeps every leaf as
 * text. Which texts the library converts is its own rule; here the tree
 * records the outcome.
 */
module CapTree {
  import opened Wrappers

  datatype Node =
    | Text(text: string)
    | Num(value: real)   // a leaf the library turned into a number
    | Element(children: map<string, Node>)
    | List(items: seq<Node>)

  /** `n?.key`: the child called `key`, or `undefined` when `n` is not an element or has no such child. */
  function Get(n: Node, key: string): (r: Option<Node>)
    ensures r.Some? <==> n.Element? && key in n.children
  {
    if n.Element? && key in n.children then Some(n.children[key]) else None
  }

  /** `o?.key` on a value that may itself be `undefined`. */
  function GetIn(o: Option<Node>, key: string): (r: Option<Node>)
    ensures r.Some? ==> o.Some?
  {
    if o.Some? then Get(o.value, key) else None
  }

  /** JavaScript truthiness of a value read from the tree: only the empty string and the number 0 are falsy. */
  predicate Truthy(n: Node) {
    !(n.Text? && n.text == "") && !(n.Num? && n.value == 0.0)
  }

  /** Truthiness of a value that may be `undefined`. */
  predicate Present(o: Option<Node>) {
    o.Some? && Truthy(o.value)
  }

  /** `Array.isArray(n) ? n : [n]` */
  function AsList(n: Node): (r: seq<Node>)
    ensures n.List? ==> r == n.items
    ensures !n.List? ==> r == [n]
  {
    if n.List? then n.items else [n]
  }

  /** `o === 'literal'` */
  predicate IsText(o: Option<Node>, literal: string) {
    o == Some(Text(literal))
  }

  /** Position of the first node whose `valueName` is `name` (what `find` stops at); `|nodes|` when there is none. */
  function FirstNamed(nodes: seq<Node>, name: string): (i: nat)
    ensures i <= |nodes|
    ensures forall k :: 0 <= k < i ==> !IsText(Get(nodes[k], "valueName"), name)
    ensures i < |nodes| ==> IsText(Get(nodes[i], "valueName"), name)
  {
    if nodes == [] then 0
    else if IsText(Get(nodes[0], "valueName"), name) then 0
    else 1 + FirstNamed(nodes[1..], name)
  }

  /** `nodes.find(n => n?.valueName === name)` */
  function FindNamed(nodes: seq<Node>, name: string): Option<Node> {
    var i := FirstNamed(nodes, name);
    if i < |nodes| then Some(nodes[i]) else None
  }
}
