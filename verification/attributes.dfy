/** Attribute resolution: reading a presentation attribute with a fallback
    to the inline style (`getAttr`), unwrapping `url(#id)` references
    (`getUrlAttr`), and the per-shape attribute record (`getAttrs`). */
module Attributes {
  import opened JsValues
  import opened JsStrings
  import opened Dom

  /** `getAttr(element, name)`: the attribute's value when the element has
      the attribute at all (even an empty one); otherwise the inline style
      value when it is non-empty; otherwise `null`. */
  function GetAttr(n: Node, name: string): (r: Option<string>)
    ensures name in n.attributes ==> r == Some(n.attributes[name])
    ensures name !in n.attributes ==> (r.Some? <==> InlineStyle(n, name) != "")
    ensures name !in n.attributes && r.Some? ==> r.value == InlineStyle(n, name)
  {
    if name in n.attributes then Some(n.attributes[name])
    else if n.style.Some? && InlineStyle(n, name) != "" then Some(InlineStyle(n, name))
    else None
  }

  /** The three rewrites `getUrlAttr` applies to a non-empty value: drop the
      first `url(`, then the first `)`, then one leading `#`. */
  function NormalizeUrl(s: string): string
  {
    StripLeading(RemoveFirst(RemoveFirst(s, "url("), ")"), '#')
  }

  /** `getUrlAttr(element, name)`: `getAttr`, with a truthy value normalised
      from reference syntax to a bare id; `null` and "" pass through. */
  function GetUrlAttr(n: Node, name: string): (r: Option<string>)
    ensures r.None? <==> GetAttr(n, name).None?
    ensures GetAttr(n, name) == Some("") ==> r == Some("")
    ensures Truthy(GetAttr(n, name)) ==> r == Some(NormalizeUrl(GetAttr(n, name).value))
  {
    var raw := GetAttr(n, name);
    if Truthy(raw) then Some(NormalizeUrl(raw.value)) else raw
  }

  /** The record `getAttrs` builds: the four properties every shape reads,
      and one property per requested attribute name. */
  datatype Attrs = Attrs(
    stroke: Option<string>,
    strokeWidth: Option<string>,
    fill: Option<string>,
    clipPath: Option<string>,
    named: map<string, JsValue>)
  {
    /** Property lookup; a property that was never set reads as `undefined`. */
    function Get(name: string): JsValue
    {
      if name in named then named[name] else Undefined
    }
  }

  /** `getAttrs(element, names)`. */
  function GetAttrs(n: Node, names: seq<string>): (r: Attrs)
    ensures r.stroke == GetAttr(n, "stroke")
    ensures r.strokeWidth == GetAttr(n, "stroke-width")
    ensures r.fill == GetAttr(n, "fill")
    ensures r.clipPath == GetUrlAttr(n, "clip-path")
    ensures forall name {:trigger r.Get(name)} :: r.Get(name) == (if name in names then OfOption(GetAttr(n, name)) else Undefined)
  {
    Attrs(
      GetAttr(n, "stroke"),
      GetAttr(n, "stroke-width"),
      GetAttr(n, "fill"),
      GetUrlAttr(n, "clip-path"),
      map name | name in names :: OfOption(GetAttr(n, name)))
  }

  // ---------------------------------------------------------------------
  // Resolution order
  // ---------------------------------------------------------------------

  /** A non-empty value resolves the same whether it is given as an
      attribute or only as an inline style. */
  lemma StyleAttributeEquivalence(n: Node, name: string, v: string)
    requires v != ""
    ensures GetAttr(n.(attributes := n.attributes[name := v]), name)
         == GetAttr(n.(attributes := n.attributes - {name}, style := Some(StyleWith(n, name, v))), name)
         == Some(v)
  {
  }

  /** `n`'s inline style with `name` declared as `v`. */
  function StyleWith(n: Node, name: string, v: string): (r: map<string, string>)
    ensures name in r && r[name] == v
  {
    match n.style
    case None => map[name := v]
    case Some(declared) => declared[name := v]
  }

  /** The attribute shadows the style: while the attribute is present, no
      change to the inline style changes what `getAttr` returns. */
  lemma AttributeShadowsStyle(n: Node, name: string, style: Option<map<string, string>>)
    requires name in n.attributes
    ensures GetAttr(n.(style := style), name) == GetAttr(n, name)
  {
  }

  /** `getAttr` never yields an empty inline style value: "" comes back
      only from an attribute that is literally empty. */
  lemma EmptyOnlyFromAttribute(n: Node, name: string)
    requires GetAttr(n, name) == Some("")
    ensures name in n.attributes && n.attributes[name] == ""
  {
  }

  // ---------------------------------------------------------------------
  // Reference syntax
  // ---------------------------------------------------------------------

  /** `url(#id)` normalises to `id` when `id` holds no `)`. */
  lemma UrlHashForm(id: string)
    requires ')' !in id
    ensures NormalizeUrl("url(#" + id + ")") == id
  {
    assert "url(#" + id + ")" == "url(" + ("#" + id + ")");
    RemoveLeading("url(", "#" + id + ")");
    assert ("#" + id) + [')'] == "#" + id + ")";
    RemoveTrailingChar("#" + id, ')');
    assert ("#" + id)[1..] == id;
  }

  /** `url(id)` normalises to `id` when `id` holds no `)` and does not
      start with `#`. */
  lemma UrlPlainForm(id: string)
    requires ')' !in id && (|id| == 0 || id[0] != '#')
    ensures NormalizeUrl("url(" + id + ")") == id
  {
    assert "url(" + id + ")" == "url(" + (id + ")");
    RemoveLeading("url(", id + ")");
    assert id + [')'] == id + ")";
    RemoveTrailingChar(id, ')');
  }

  /** `#id` normalises to `id` when `id` holds no `)` and no `url(`. */
  lemma HashForm(id: string)
    requires ')' !in id && !Contains(id, "url(")
    ensures NormalizeUrl("#" + id) == id
  {
    assert "#" + id == ['#'] + id;
    NoNewOccurrence('#', id, "url(");
    NoCharNoOccurrence("#" + id, ")", 0, ')');
    assert ("#" + id)[1..] == id;
  }

  /** A bare id with none of the decoration is left as it is. */
  lemma BareForm(id: string)
    requires ')' !in id && !Contains(id, "url(") && (|id| == 0 || id[0] != '#')
    ensures NormalizeUrl(id) == id
  {
    NoCharNoOccurrence(id, ")", 0, ')');
  }

  /** The forms at the level of a node: a `clip-path` written as
      `url(#id)`, `url(id)` or `#id` resolves to `id`. */
  lemma ClipPathReference(n: Node, id: string, written: string)
    requires ')' !in id && !Contains(id, "url(") && (|id| == 0 || id[0] != '#')
    requires written == "url(#" + id + ")" || written == "url(" + id + ")" || written == "#" + id
    requires "clip-path" in n.attributes && n.attributes["clip-path"] == written
    ensures GetUrlAttr(n, "clip-path") == Some(id)
  {
    UrlHashForm(id);
    UrlPlainForm(id);
    HashForm(id);
    assert written != "";
  }

  /** An element without the attribute or a non-empty style value has no
      reference. */
  lemma AbsentReference(n: Node, name: string)
    requires name !in n.attributes && InlineStyle(n, name) == ""
    ensures GetUrlAttr(n, name).None?
  {
  }
}
