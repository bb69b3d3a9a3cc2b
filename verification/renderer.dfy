/** The tree walk: `drawElement` dispatches on the node name, `drawAtomic`
    wraps a drawing in save/restore with an optional clip, `drawContainer`
    walks the children, `clip` replays a registered clip path, and `render`
    sizes the canvas and draws the root with an empty clip-path registry. */
module Renderer {
  import opened JsValues
  import opened Dom
  import opened Attributes
  import opened Canvas
  import opened Shapes

  datatype Shape = TextShape | LineShape | PolylineShape | PolygonShape | PathShape | RectShape | CircleShape | EllipseShape

  /** The drawing function `drawElement` hands to `drawAtomic`. */
  datatype DrawFunc = ContainerFunc | ShapeFunc(shape: Shape)

  datatype Kind =
      /** Drawn inside a save/restore bracket by the given function. */
    | Drawn(func: DrawFunc)
      /** Registers its children as a clip path; draws nothing. */
    | ClipPathKind
      /** `title` and text nodes: skipped. */
    | Inert
      /** Anything else: reported on the console and skipped. */
    | Unsupported

  /** Every node name `drawElement` has a case for. */
  const KnownNames: set<string> :=
    {"defs", "svg", "g", "text", "line", "polyline", "polygon", "path", "rect", "circle", "ellipse",
     "clipPath", "title", "#text"}

  /** The `switch (element.nodeName)` of `drawElement`. */
  function Classify(name: string): (k: Kind)
    ensures k == Drawn(ContainerFunc) <==> name in {"defs", "svg", "g"}
    ensures k.ClipPathKind? <==> name == "clipPath"
    ensures k.Inert? <==> name in {"title", "#text"}
    ensures k == Drawn(ShapeFunc(TextShape)) <==> name == "text"
    ensures k == Drawn(ShapeFunc(LineShape)) <==> name == "line"
    ensures k == Drawn(ShapeFunc(PolylineShape)) <==> name == "polyline"
    ensures k == Drawn(ShapeFunc(PolygonShape)) <==> name == "polygon"
    ensures k == Drawn(ShapeFunc(PathShape)) <==> name == "path"
    ensures k == Drawn(ShapeFunc(RectShape)) <==> name == "rect"
    ensures k == Drawn(ShapeFunc(CircleShape)) <==> name == "circle"
    ensures k == Drawn(ShapeFunc(EllipseShape)) <==> name == "ellipse"
    ensures k.Unsupported? <==> name !in KnownNames
  {
    match name
    case "defs" => Drawn(ContainerFunc)
    case "svg" => Drawn(ContainerFunc)
    case "g" => Drawn(ContainerFunc)
    case "text" => Drawn(ShapeFunc(TextShape))
    case "line" => Drawn(ShapeFunc(LineShape))
    case "polyline" => Drawn(ShapeFunc(PolylineShape))
    case "polygon" => Drawn(ShapeFunc(PolygonShape))
    case "path" => Drawn(ShapeFunc(PathShape))
    case "rect" => Drawn(ShapeFunc(RectShape))
    case "circle" => Drawn(ShapeFunc(CircleShape))
    case "ellipse" => Drawn(ShapeFunc(EllipseShape))
    case "clipPath" => ClipPathKind
    case "title" => Inert
    case "#text" => Inert
    case _ => Unsupported
  }

  /** `scope.defs.clipPaths`: clip-path id to the registered child list. It
      is one object for the whole render, so a registration made anywhere
      is seen by every later lookup. */
  type Registry = map<string, seq<Node>>

  /** Where a walk ends: normally, with the registry as it left it and the
      calls it made; or with an uncaught exception, the calls made up to
      the throw. */
  datatype Outcome = Done(registry: Registry, ops: seq<Op>) | Failed(error: Error, ops: seq<Op>)

  function Prepend(pre: seq<Op>, o: Outcome): (r: Outcome)
    ensures r.Done? <==> o.Done?
    ensures r.ops == pre + o.ops
    ensures r.Done? ==> r.registry == o.registry
    ensures r.Failed? ==> r.error == o.error
  {
    match o
    case Done(reg, ops) => Done(reg, pre + ops)
    case Failed(e, ops) => Failed(e, pre + ops)
  }

  /** The `restore()` that follows a drawing, reached only when the drawing
      did not throw. */
  function Close(o: Outcome): (r: Outcome)
    ensures o.Done? ==> r == Done(o.registry, o.ops + [Restore])
    ensures o.Failed? ==> r == o
  {
    match o
    case Done(reg, ops) => Done(reg, ops + [Restore])
    case Failed(_, _) => o
  }

  /** The drawing function of a shape. A shape only paints: saving,
      restoring and clipping are left to the walk around it. */
  function DrawShape(env: Env, s: Shape, n: Node): (r: Painting)
    ensures PaintOnly(r.ops)
    ensures s !in {TextShape, PolylineShape, PolygonShape, CircleShape} ==> r.fault.None?
  {
    match s
    case TextShape => DrawText(env, n)
    case LineShape => Painted(DrawLine(n))
    case PolylineShape => DrawPolyline(env, n)
    case PolygonShape => DrawPolygon(env, n)
    case PathShape => Painted(DrawPath(n))
    case RectShape => Painted(DrawRectangle(n))
    case CircleShape => DrawCircle(n)
    case EllipseShape => Painted(DrawEllipse(n))
  }

  /** `drawElement(element, scope)`. The fuel counts how deep clip paths
      may be expanded inside one another; structural recursion into
      children is measured by size. */
  function DrawElement(env: Env, n: Node, reg: Registry, fuel: nat): Outcome
    decreases fuel, Size(n), 3
  {
    match Classify(n.kind)
    case Drawn(f) => DrawAtomic(env, f, n, reg, fuel)
    case ClipPathKind => Done(reg[Id(n) := n.children], [])
    case Inert => Done(reg, [])
    case Unsupported => Done(reg, [])
  }

  /** `drawAtomic(drawFunc, element, scope)`: save, clip when the element
      names a clip path, draw, restore. */
  function DrawAtomic(env: Env, f: DrawFunc, n: Node, reg: Registry, fuel: nat): Outcome
    decreases fuel, Size(n), 2
  {
    var ref := GetUrlAttr(n, "clip-path");
    var clipped := if Truthy(ref) then ApplyClip(env, ref.value, reg, fuel) else Done(reg, []);
    match clipped
    case Failed(e, ops) => Failed(e, [Save] + ops)
    case Done(reg', ops) => Prepend([Save] + ops, Close(DrawBody(env, f, n, reg', fuel)))
  }

  /** `drawFunc.call(this, element, scope)`. */
  function DrawBody(env: Env, f: DrawFunc, n: Node, reg: Registry, fuel: nat): Outcome
    decreases fuel, Size(n), 1
  {
    match f
    case ContainerFunc => DrawContainer(env, n, reg, fuel)
    case ShapeFunc(s) =>
      var p := DrawShape(env, s, n);
      if p.fault.Some? then Failed(p.fault.value, p.ops) else Done(reg, p.ops)
  }

  /** `drawContainer(element, scope)`: clips once more when the element
      names a clip path, then draws the children in document order. */
  function DrawContainer(env: Env, n: Node, reg: Registry, fuel: nat): Outcome
    decreases fuel, Size(n), 0
  {
    var a := GetAttrs(n, []);
    var clipped := if Truthy(a.clipPath) then ApplyClip(env, a.clipPath.value, reg, fuel) else Done(reg, []);
    match clipped
    case Failed(e, ops) => Failed(e, ops)
    case Done(reg', ops) => Prepend(ops, DrawList(env, n.children, reg', fuel))
  }

  /** The loop over a child list, threading the registry. */
  function DrawList(env: Env, nodes: seq<Node>, reg: Registry, fuel: nat): Outcome
    decreases fuel, SizeAll(nodes), 4
  {
    if |nodes| == 0 then Done(reg, [])
    else
      match DrawElement(env, nodes[0], reg, fuel)
      case Failed(e, ops) => Failed(e, ops)
      case Done(reg', ops) => Prepend(ops, DrawList(env, nodes[1..], reg', fuel))
  }

  /** `clip(clipPaths[id], scope)`: a new path, every registered element
      drawn as usual, then `clip()`. An id never registered makes the loop
      iterate `undefined`, which throws after the `beginPath`. */
  function ApplyClip(env: Env, id: string, reg: Registry, fuel: nat): Outcome
    decreases fuel, 0, 0
  {
    if id !in reg then Failed(UnregisteredClip(id), [BeginPath])
    else if fuel == 0 then Failed(Exhausted, [BeginPath])
    else
      match DrawList(env, reg[id], reg, fuel - 1)
      case Failed(e, ops) => Failed(e, [BeginPath] + ops)
      case Done(reg', ops) => Done(reg', [BeginPath] + ops + [Clip])
  }

  /** `getAttr(svgElement, name) || 2000`, as the canvas attribute string. */
  function CanvasExtent(root: Node, name: string): (r: string)
    ensures Truthy(GetAttr(root, name)) ==> r == GetAttr(root, name).value
    ensures !Truthy(GetAttr(root, name)) ==> r == "2000"
  {
    var given := GetAttr(root, name);
    if Truthy(given) then given.value else "2000"
  }

  /** The canvas after a render: its size attributes and what was drawn. */
  datatype Rendering = Rendering(height: string, width: string, outcome: Outcome)

  /** `render(svgText)` on the parsed document's root element. */
  function Render(env: Env, root: Node, fuel: nat): (r: Rendering)
    ensures r.height == CanvasExtent(root, "height") && r.width == CanvasExtent(root, "width")
  {
    Rendering(CanvasExtent(root, "height"), CanvasExtent(root, "width"), DrawElement(env, root, map[], fuel))
  }
}
