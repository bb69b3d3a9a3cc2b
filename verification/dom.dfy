/** The parsed SVG document the renderer walks: an immutable tree of nodes.
    Parsing markup text into this tree is not part of this model. */
module Dom {
  import opened JsValues

  /** One DOM node. `kind` is its `nodeName`: a tag name such as "rect" or
      "clipPath", or "#text", "#cdata-section", "#comment" for character
      data. `attributes` are the node's XML attributes; `style` is its inline
      style declaration, `None` for a node that has no style object (a text
      node, or an element in no namespace or in one without a style
      interface); `text` is the
      character data of a text node. */
  datatype Node = Node(
    kind: string,
    attributes: map<string, string>,
    style: Option<map<string, string>>,
    children: seq<Node>,
    text: string)

  /** `element.id`: the `id` attribute, or "" when there is none. */
  function Id(n: Node): (r: string)
    ensures "id" in n.attributes ==> r == n.attributes["id"]
    ensures "id" !in n.attributes ==> r == ""
  {
    if "id" in n.attributes then n.attributes["id"] else ""
  }

  /** `element.style[name]` on a node that has a style object: the declared
      inline value, "" when the property is not declared. */
  function InlineStyle(n: Node, name: string): (r: string)
    ensures n.style.Some? && name in n.style.value ==> r == n.style.value[name]
    ensures n.style.None? || name !in n.style.value ==> r == ""
  {
    match n.style
    case None => ""
    case Some(declared) => if name in declared then declared[name] else ""
  }

  predicate IsCharacterData(n: Node)
  {
    n.kind == "#text" || n.kind == "#cdata-section"
  }

  /** `node.textContent`: the character data of a text node, or the
      concatenated character data of all descendant text nodes. */
  function TextContent(n: Node): string
    decreases n
  {
    if IsCharacterData(n) then n.text else TextContentAll(n.children)
  }

  function TextContentAll(nodes: seq<Node>): string
    decreases nodes
  {
    if |nodes| == 0 then "" else TextContent(nodes[0]) + TextContentAll(nodes[1..])
  }

  /** Number of nodes in a tree; the structural part of the walk's
      termination measure. */
  function Size(n: Node): (r: nat)
    ensures r >= 1
    decreases n
  {
    1 + SizeAll(n.children)
  }

  function SizeAll(nodes: seq<Node>): (r: nat)
    ensures |nodes| > 0 ==> r >= Size(nodes[0]) + SizeAll(nodes[1..])
    decreases nodes
  {
    if |nodes| == 0 then 0 else Size(nodes[0]) + SizeAll(nodes[1..])
  }
}
