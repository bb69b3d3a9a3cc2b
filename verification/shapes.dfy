/** The per-shape emitters of the renderer: each turns one element and its
    resolved attributes into canvas calls. */
module Shapes {
  import opened JsValues
  import opened Dom
  import opened Attributes
  import opened Canvas

  /** The exceptions that end a render in the source. None of them is
      caught anywhere, so each one aborts the whole render. */
  datatype Error =
      /** `clip` iterates `clipPaths[id]`, which is `undefined`. */
    | UnregisteredClip(id: string)
      /** `getFont` assigns to its `const fontSize`. */
    | NumericFontSize(size: string)
      /** `getFont` indexes `element.style` on a node without a style object. */
    | NoStyleObject
      /** `drawText` calls `strokeText` on an undeclared `context`. */
    | StrokedText
      /** `drawPolyline` / `drawPolygon` read `points[0][0]` of an empty list. */
    | NoPoints
      /** `drawCircle` hands `arc` a finite centre and a finite negative
          radius, which the canvas rejects with an `IndexSizeError`. */
    | NegativeRadius(r: real)
      /** Clip expansion nested deeper than the fuel allows; the source
          recurses without bound here when a clip path refers to itself. */
    | Exhausted

  datatype Result<T> = Ok(value: T) | Err(error: Error)

  /** The calls into code outside this model: the canvas's text measurement
      (`measureText(text).width` under a font) and the points-list parser
      `parseSvgPoints`. */
  datatype Env = Env(measureText: (string, string) -> real, parseSvgPoints: JsValue -> seq<Point>)

  /** What a shape emitter did: the calls it made, and the exception it
      ended with, if any. */
  datatype Painting = Painting(ops: seq<Op>, fault: Option<Error>)

  /** Paints a trace that cannot go wrong. */
  function Painted(ops: seq<Op>): Painting
  {
    Painting(ops, None)
  }

  /** The number the canvas receives for the attribute `name` of `n`: its
      resolved value converted by ToNumber, `null` reading as 0. */
  function AttrNumber(n: Node, name: string): Number
  {
    ToNumberOf(OfOption(GetAttr(n, name)))
  }

  /** `strokeAndFill(attrs)`: fill when a fill is set, stroke when a stroke
      is set, each decided on its own, fill first. */
  function StrokeAndFill(fill: Option<string>, stroke: Option<string>): (r: seq<Op>)
    ensures PaintOnly(r)
    ensures Fill in r <==> Truthy(fill)
    ensures Stroke in r <==> Truthy(stroke)
    ensures forall i :: 0 <= i < |r| ==> r[i] == Fill || r[i] == Stroke
    ensures |r| <= 2 && (|r| == 2 ==> r == [Fill, Stroke])
  {
    (if Truthy(fill) then [Fill] else []) + (if Truthy(stroke) then [Stroke] else [])
  }

  /** `strokeAndFill(attrs)` on the element's resolved attributes. */
  function FinishOf(n: Node): seq<Op>
  {
    StrokeAndFill(GetAttr(n, "fill"), GetAttr(n, "stroke"))
  }

  /** `setContext(context, attrs)` on the element's resolved attributes:
      line width, stroke colour and fill colour, each as resolved (an
      unset one is passed as `null`). */
  function StyleOf(n: Node): Op
  {
    SetStyle(GetAttr(n, "stroke-width"), GetAttr(n, "stroke"), GetAttr(n, "fill"))
  }

  // ---------------------------------------------------------------------
  // Shapes
  //
  // Each emitter reads its attributes as `getAttrs` resolves them: the
  // value of `attrs[name]` is `GetAttr(n, name)` (see `GetAttrs`), and a
  // numeric argument is what the canvas makes of it (`AttrNumber`).
  // ---------------------------------------------------------------------

  /** `drawRectangle`: adds the rectangle to the current path (it opens no
      new path) and fills/strokes it. */
  function DrawRectangle(n: Node): (r: seq<Op>)
    ensures PaintOnly(r)
  {
    [StyleOf(n), Rect(AttrNumber(n, "x"), AttrNumber(n, "y"), AttrNumber(n, "width"), AttrNumber(n, "height"))]
    + FinishOf(n)
  }

  /** `drawLine`: one segment from (x1, y1) to (x2, y2) in a new path. */
  function DrawLine(n: Node): (r: seq<Op>)
    ensures PaintOnly(r)
  {
    [StyleOf(n), BeginPath, MoveTo(AttrNumber(n, "x1"), AttrNumber(n, "y1")),
     LineTo(AttrNumber(n, "x2"), AttrNumber(n, "y2"))] + FinishOf(n)
  }

  /** `lineTo` for every point after the first. */
  function LinesThrough(points: seq<Point>): (r: seq<Op>)
    requires |points| > 0
    ensures |r| == |points| - 1
    ensures PaintOnly(r)
    ensures forall i :: 1 <= i < |points| ==> r[i - 1] == LineTo(points[i].x, points[i].y)
  {
    seq(|points| - 1, i requires 0 <= i < |points| - 1 => LineTo(points[i + 1].x, points[i + 1].y))
  }

  /** The vertices of a polyline or polygon, as the points parser reads
      the `points` attribute. */
  function PointsOf(env: Env, n: Node): seq<Point>
  {
    env.parseSvgPoints(OfOption(GetAttr(n, "points")))
  }

  /** `drawPolyline`: an open path through the points, always stroked and
      never filled, whatever the attributes say. */
  function DrawPolyline(env: Env, n: Node): (r: Painting)
    ensures PaintOnly(r.ops)
    ensures r.fault.Some? <==> |PointsOf(env, n)| == 0
    ensures r.fault.Some? ==> r == Painting([StyleOf(n), BeginPath], Some(NoPoints))
  {
    var points := PointsOf(env, n);
    if |points| == 0 then Painting([StyleOf(n), BeginPath], Some(NoPoints))
    else Painted([StyleOf(n), BeginPath, MoveTo(points[0].x, points[0].y)] + LinesThrough(points) + [Stroke])
  }

  /** `drawPolygon`: the same path closed, then filled/stroked as set. */
  function DrawPolygon(env: Env, n: Node): (r: Painting)
    ensures PaintOnly(r.ops)
    ensures r.fault.Some? <==> |PointsOf(env, n)| == 0
    ensures r.fault.Some? ==> r == Painting([StyleOf(n), BeginPath], Some(NoPoints))
  {
    var points := PointsOf(env, n);
    if |points| == 0 then Painting([StyleOf(n), BeginPath], Some(NoPoints))
    else Painted([StyleOf(n), BeginPath, MoveTo(points[0].x, points[0].y)] + LinesThrough(points)
                 + [ClosePath] + FinishOf(n))
  }

  /** Whether the canvas's `arc(x, y, radius, …)` throws an
      `IndexSizeError`: it first returns without effect when any argument
      is NaN or infinite, and only then rejects a negative radius. The
      angles `drawCircle` passes are always finite. */
  predicate ArcRejects(x: Number, y: Number, radius: Number)
  {
    x.Finite? && y.Finite? && radius.Finite? && radius.value < 0.0
  }

  /** `drawCircle`: a full anticlockwise arc of radius r about (cx, cy).
      The canvas throws when cx, cy and r are all finite and r is negative. */
  function DrawCircle(n: Node): (r: Painting)
    ensures PaintOnly(r.ops)
    ensures var (cx, cy, radius) := (AttrNumber(n, "cx"), AttrNumber(n, "cy"), AttrNumber(n, "r"));
            r.fault.Some? <==> cx.Finite? && cy.Finite? && radius.Finite? && radius.value < 0.0
    ensures r.fault.Some? ==> r == Painting([StyleOf(n), BeginPath], Some(NegativeRadius(AttrNumber(n, "r").value)))
  {
    var (cx, cy, radius) := (AttrNumber(n, "cx"), AttrNumber(n, "cy"), AttrNumber(n, "r"));
    if ArcRejects(cx, cy, radius) then Painting([StyleOf(n), BeginPath], Some(NegativeRadius(radius.value)))
    else Painted([StyleOf(n), BeginPath, Arc(cx, cy, radius, true), ClosePath] + FinishOf(n))
  }

  const One: Number := Finite(1.0)

  /** Where the context's transform, after `translate(t)` then `scale(s)`,
      puts the user-space point (u, v). */
  function Place(t: Op, s: Op, u: real, v: real): (real, real)
    requires t.Translate? && t.x.Finite? && t.y.Finite?
    requires s.Scale? && s.x.Finite? && s.y.Finite?
  {
    (t.x.value + s.x.value * u, t.y.value + s.y.value * v)
  }

  /** `drawOval(cx, cy, rx, ry)`: a unit circle about (1, 1), moved by
      (cx - rx, cy - ry) and stretched by (rx, ry); with finite arguments
      the circle's centre lands on (cx, cy). */
  function DrawOval(cx: Number, cy: Number, rx: Number, ry: Number): (r: seq<Op>)
    ensures PaintOnly(r)
    ensures |r| == 4 && r[0] == BeginPath && r[3] == Arc(One, One, One, false)
    ensures r[1] == Translate(Sub(cx, rx), Sub(cy, ry)) && r[2] == Scale(rx, ry)
    ensures cx.Finite? && cy.Finite? && rx.Finite? && ry.Finite? ==>
              Place(r[1], r[2], 1.0, 1.0) == (cx.value, cy.value)
  {
    [BeginPath, Translate(Sub(cx, rx), Sub(cy, ry)), Scale(rx, ry), Arc(One, One, One, false)]
  }

  /** `drawEllipse`. */
  function DrawEllipse(n: Node): (r: seq<Op>)
    ensures PaintOnly(r)
  {
    [StyleOf(n)] + DrawOval(AttrNumber(n, "cx"), AttrNumber(n, "cy"), AttrNumber(n, "rx"), AttrNumber(n, "ry"))
    + FinishOf(n)
  }

  /** `drawPath`: hands the path data to the instruction-list painter with
      the stroke, the stroke width and the fill, an unset fill becoming
      `#000`. Nothing else is called. */
  function DrawPath(n: Node): (r: seq<Op>)
    ensures PaintOnly(r)
    ensures |r| == 1 && r[0].DrawInstructions?
    ensures r[0].pathData == OfOption(GetAttr(n, "d"))
    ensures r[0].style.strokeColor == GetAttr(n, "stroke")
    ensures r[0].style.strokeWidth == GetAttr(n, "stroke-width")
    ensures r[0].style.fillColor == (if Truthy(GetAttr(n, "fill")) then GetAttr(n, "fill").value else "#000")
  {
    var fill := GetAttr(n, "fill");
    [DrawInstructions(OfOption(GetAttr(n, "d")), PathStyle(GetAttr(n, "stroke"), GetAttr(n, "stroke-width"),
                                                           if Truthy(fill) then fill.value else "#000"))]
  }

  // ---------------------------------------------------------------------
  // Text
  // ---------------------------------------------------------------------

  /** `getAttr(element, name) || element.style[name] || fallback`. The
      middle operand indexes the style object without the guard `getAttr`
      has, so it fails on a node that has none. */
  function FontPart(n: Node, name: string, fallback: string): (r: Result<string>)
    ensures Truthy(GetAttr(n, name)) ==> r == Ok(GetAttr(n, name).value)
    ensures !Truthy(GetAttr(n, name)) && n.style.None? ==> r == Err(NoStyleObject)
    ensures !Truthy(GetAttr(n, name)) && n.style.Some? ==>
              r == Ok(if InlineStyle(n, name) != "" then InlineStyle(n, name) else fallback)
  {
    var resolved := GetAttr(n, name);
    if Truthy(resolved) then Ok(resolved.value)
    else if n.style.None? then Err(NoStyleObject)
    else
      var inline := InlineStyle(n, name);
      Ok(if inline != "" then inline else fallback)
  }

  /** `getFont(element)`: "<size> <family>", defaulting to 16px Times New
      Roman. A size that converts to a number ("12", not "12px") makes the
      source assign to a constant, which throws. */
  function GetFont(n: Node): (r: Result<string>)
    ensures r.Ok? <==> FontPart(n, "font-family", "Times New Roman").Ok?
                       && FontPart(n, "font-size", "16px").Ok?
                       && ToNumber(FontPart(n, "font-size", "16px").value).NaN?
    ensures r.Ok? ==> r.value == FontPart(n, "font-size", "16px").value + " "
                                 + FontPart(n, "font-family", "Times New Roman").value
    ensures r.Err? && r.error.NumericFontSize? ==> !ToNumber(r.error.size).NaN?
  {
    match FontPart(n, "font-family", "Times New Roman")
    case Err(e) => Err(e)
    case Ok(family) =>
      match FontPart(n, "font-size", "16px")
      case Err(e) => Err(e)
      case Ok(size) =>
        if !ToNumber(size).NaN? then Err(NumericFontSize(size))
        else Ok(size + " " + family)
  }

  /** `normalizeTextCoordinates(attrs, width)`: for anchor `middle` the x
      property becomes `parseFloat(x) - width / 2`, for `end` it becomes
      `parseFloat(x) - width`; any other anchor returns the record as it is. */
  function NormalizeTextCoordinates(a: Attrs, width: real): (r: Attrs)
    ensures r.stroke == a.stroke && r.strokeWidth == a.strokeWidth && r.fill == a.fill && r.clipPath == a.clipPath
    ensures forall k :: k != "x" ==> r.Get(k) == a.Get(k)
    ensures a.Get("text-anchor") == Str("middle") ==> r.Get("x") == Num(Sub(ParseFloatOf(a.Get("x")), Finite(width / 2.0)))
    ensures a.Get("text-anchor") == Str("end") ==> r.Get("x") == Num(Sub(ParseFloatOf(a.Get("x")), Finite(width)))
    ensures a.Get("text-anchor") != Str("middle") && a.Get("text-anchor") != Str("end") ==> r == a
  {
    var anchor := a.Get("text-anchor");
    if anchor == Str("middle") then
      a.(named := a.named["x" := Num(Sub(ParseFloatOf(a.Get("x")), Finite(width / 2.0)))])
    else if anchor == Str("end") then
      a.(named := a.named["x" := Num(Sub(ParseFloatOf(a.Get("x")), Finite(width)))])
    else a
  }

  /** Where text of the given width starts, by its anchor: the number
      `parseFloat` reads from `x`, moved left by half the width for
      `middle` or the whole width for `end`; for any other anchor, `x`
      converted as the canvas converts any argument. */
  function TextX(n: Node, width: real): Number
  {
    var x := OfOption(GetAttr(n, "x"));
    var anchor := GetAttr(n, "text-anchor");
    if anchor == Some("middle") then Sub(ParseFloatOf(x), Finite(width / 2.0))
    else if anchor == Some("end") then Sub(ParseFloatOf(x), Finite(width))
    else ToNumberOf(x)
  }

  /** The coordinate `drawText` passes to `fillText`, computed on the
      attribute record, is the one `TextX` describes. */
  lemma PlacementAgrees(n: Node, width: real)
    ensures ToNumberOf(NormalizeTextCoordinates(GetAttrs(n, ["x", "y", "text-anchor"]), width).Get("x")) == TextX(n, width)
  {
    var a := GetAttrs(n, ["x", "y", "text-anchor"]);
    var x := OfOption(GetAttr(n, "x"));
    var anchor := GetAttr(n, "text-anchor");
    assert a.Get("x") == x && a.Get("text-anchor") == OfOption(anchor) by {
      var names := ["x", "y", "text-anchor"];
      assert names[0] == "x" && names[2] == "text-anchor";
    }
    var placed := NormalizeTextCoordinates(a, width);
    if anchor == Some("middle") {
      assert placed.Get("x") == Num(Sub(ParseFloatOf(x), Finite(width / 2.0)));
    } else if anchor == Some("end") {
      assert placed.Get("x") == Num(Sub(ParseFloatOf(x), Finite(width)));
    } else {
      assert OfOption(anchor) != Str("middle") && OfOption(anchor) != Str("end");
      assert placed == a;
    }
  }

  /** `drawText`: sets the font, measures the text content under it,
      places it by its anchor and fills it. It sets no fill colour of its
      own. With a stroke set, the text is filled and then the render throws. */
  function DrawText(env: Env, n: Node): (r: Painting)
    ensures PaintOnly(r.ops)
    ensures GetFont(n).Err? ==> r == Painting([], Some(GetFont(n).error))
    ensures GetFont(n).Ok? ==>
              var font := GetFont(n).value;
              var width := env.measureText(font, TextContent(n));
              r.ops == [SetFont(font), FillText(TextContent(n), TextX(n, width), AttrNumber(n, "y"))]
    ensures GetFont(n).Ok? ==> (r.fault == Some(StrokedText) <==> Truthy(GetAttr(n, "stroke")))
    ensures GetFont(n).Ok? ==> (r.fault.None? <==> !Truthy(GetAttr(n, "stroke")))
  {
    var names := ["x", "y", "text-anchor"];
    var a := GetAttrs(n, names);
    assert names[1] == "y";
    match GetFont(n)
    case Err(e) => Painting([], Some(e))
    case Ok(font) =>
      var content := TextContent(n);
      var width := env.measureText(font, content);
      var placed := NormalizeTextCoordinates(a, width);
      PlacementAgrees(n, width);
      assert ToNumberOf(placed.Get("y")) == AttrNumber(n, "y");
      var ops := [SetFont(font), FillText(content, ToNumberOf(placed.Get("x")), ToNumberOf(placed.Get("y")))];
      if Truthy(a.stroke) then Painting(ops, Some(StrokedText)) else Painted(ops)
  }
}
