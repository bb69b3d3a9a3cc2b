/** What the shape emitters guarantee: where text lands for each anchor,
    how the font string is resolved, how polylines and polygons are
    painted, and where the ellipse transform puts the unit circle. */
module ShapeFacts {
  import opened JsValues
  import opened Dom
  import opened Attributes
  import opened Canvas
  import opened Shapes

  // ---------------------------------------------------------------------
  // Painting by attribute
  // ---------------------------------------------------------------------

  /** The closing calls of a shape, after its geometry: filled exactly
      when a fill is set, stroked exactly when a stroke is set, fill
      before stroke, and nothing else. */
  predicate FinishedBy(n: Node, ops: seq<Op>, from: nat)
  {
    && from <= |ops|
    && (Fill in ops[from..] <==> Truthy(GetAttr(n, "fill")))
    && (Stroke in ops[from..] <==> Truthy(GetAttr(n, "stroke")))
    && (forall i :: from <= i < |ops| ==> ops[i] == Fill || ops[i] == Stroke)
    && |ops| <= from + 2
    && (|ops| == from + 2 ==> ops[from..] == [Fill, Stroke])
  }

  lemma Finished(n: Node, head: seq<Op>)
    ensures FinishedBy(n, head + FinishOf(n), |head|)
  {
    assert (head + FinishOf(n))[|head|..] == FinishOf(n);
  }

  /** `drawRectangle` sets the style, adds one rectangle at (x, y) of the
      given width and height to the current path without opening a new
      one, and paints it as the attributes ask. */
  lemma RectanglePaint(n: Node)
    ensures var ops := DrawRectangle(n);
            && |ops| >= 2 && ops[0] == StyleOf(n)
            && ops[1] == Rect(AttrNumber(n, "x"), AttrNumber(n, "y"), AttrNumber(n, "width"), AttrNumber(n, "height"))
            && BeginPath !in ops
            && FinishedBy(n, ops, 2)
  {
    var head := [StyleOf(n), Rect(AttrNumber(n, "x"), AttrNumber(n, "y"), AttrNumber(n, "width"), AttrNumber(n, "height"))];
    assert DrawRectangle(n) == head + FinishOf(n);
    FinishedAfter(n, DrawRectangle(n), head);
  }

  /** `drawLine` opens a new path, moves to (x1, y1), draws to (x2, y2)
      and paints the segment as the attributes ask. */
  lemma LinePaint(n: Node)
    ensures var ops := DrawLine(n);
            && |ops| >= 4 && ops[0] == StyleOf(n) && ops[1] == BeginPath
            && ops[2] == MoveTo(AttrNumber(n, "x1"), AttrNumber(n, "y1"))
            && ops[3] == LineTo(AttrNumber(n, "x2"), AttrNumber(n, "y2"))
            && FinishedBy(n, ops, 4)
  {
    var head := [StyleOf(n), BeginPath, MoveTo(AttrNumber(n, "x1"), AttrNumber(n, "y1")),
                 LineTo(AttrNumber(n, "x2"), AttrNumber(n, "y2"))];
    assert DrawLine(n) == head + FinishOf(n);
    FinishedAfter(n, DrawLine(n), head);
  }

  /** `drawCircle` opens a new path, draws the full circle of radius r
      about (cx, cy) anticlockwise, closes it and paints it as the
      attributes ask; unless cx, cy and r are all finite and r is
      negative, when it throws straight after beginning the path. A NaN
      or infinite coordinate or radius makes `arc` a no-op, so the path
      is still closed and painted. */
  lemma CirclePaint(n: Node)
    ensures var (cx, cy, radius) := (AttrNumber(n, "cx"), AttrNumber(n, "cy"), AttrNumber(n, "r"));
            var c := DrawCircle(n);
            var ops := c.ops;
            if cx.Finite? && cy.Finite? && radius.Finite? && radius.value < 0.0 then
              c.fault == Some(NegativeRadius(radius.value)) && ops == [StyleOf(n), BeginPath]
            else
              && c.fault.None?
              && |ops| >= 4 && ops[0] == StyleOf(n) && ops[1] == BeginPath
              && ops[2] == Arc(cx, cy, radius, true)
              && ops[3] == ClosePath
              && FinishedBy(n, ops, 4)
  {
    var head := [StyleOf(n), BeginPath, Arc(AttrNumber(n, "cx"), AttrNumber(n, "cy"), AttrNumber(n, "r"), true), ClosePath];
    if !ArcRejects(AttrNumber(n, "cx"), AttrNumber(n, "cy"), AttrNumber(n, "r")) {
      assert DrawCircle(n).ops == head + FinishOf(n);
      FinishedAfter(n, DrawCircle(n).ops, head);
    }
  }

  /** `drawEllipse` sets the style, traces the oval for (cx, cy, rx, ry)
      and paints it as the attributes ask. */
  lemma EllipsePaint(n: Node)
    ensures var ops := DrawEllipse(n);
            && |ops| >= 5 && ops[0] == StyleOf(n)
            && ops[1..5] == DrawOval(AttrNumber(n, "cx"), AttrNumber(n, "cy"), AttrNumber(n, "rx"), AttrNumber(n, "ry"))
            && FinishedBy(n, ops, 5)
  {
    var oval := DrawOval(AttrNumber(n, "cx"), AttrNumber(n, "cy"), AttrNumber(n, "rx"), AttrNumber(n, "ry"));
    assert DrawEllipse(n) == [StyleOf(n)] + oval + FinishOf(n);
    FinishedAfter(n, DrawEllipse(n), [StyleOf(n)] + oval);
    assert DrawEllipse(n)[1..5] == oval;
  }

  /** A trace made of a head and then the closing calls is finished after
      the head. */
  lemma FinishedAfter(n: Node, ops: seq<Op>, head: seq<Op>)
    requires ops == head + FinishOf(n)
    ensures FinishedBy(n, ops, |head|)
  {
    Finished(n, head);
  }

  // ---------------------------------------------------------------------
  // Text placement
  // ---------------------------------------------------------------------

  /** A plain decimal `x` (no surrounding blanks, no unit, no radix
      prefix): anchor `middle` centres the text on x, `end` ends it at x,
      and any other anchor starts it at x. */
  lemma TextAnchorPlacement(n: Node, s: string, width: real)
    requires "x" in n.attributes && n.attributes["x"] == s
    requires |s| > 0 && !IsWhite(s[0]) && !IsWhite(s[|s| - 1]) && !HasRadixPrefix(s)
    requires ToNumber(s).Finite?
    ensures GetAttr(n, "text-anchor") == Some("middle") ==> TextX(n, width) == Finite(ToNumber(s).value - width / 2.0)
    ensures GetAttr(n, "text-anchor") == Some("end") ==> TextX(n, width) == Finite(ToNumber(s).value - width)
    ensures GetAttr(n, "text-anchor") != Some("middle") && GetAttr(n, "text-anchor") != Some("end") ==>
              TextX(n, width) == ToNumber(s)
  {
    DecimalAgreement(s);
    assert OfOption(GetAttr(n, "x")) == Str(s);
    assert ParseFloatOf(Str(s)) == ToNumber(s);
    assert ToNumberOf(Str(s)) == ToNumber(s);
  }

  /** An `x` with a unit, such as "10px": with anchor `middle` the text is
      centred on 10 (`parseFloat` reads the number), while with the
      default anchor the canvas receives NaN (`Number` rejects the string)
      and the text is not drawn. */
  lemma TextUnitCoordinate(n: Node, digits: string, unit: string, width: real)
    requires |digits| > 0 && forall i :: 0 <= i < |digits| ==> IsDigit(digits[i])
    requires |unit| > 0 && IsUnitStart(unit[0])
    requires "x" in n.attributes && n.attributes["x"] == digits + unit
    ensures AllDigits(digits, 10)
    ensures GetAttr(n, "text-anchor") == Some("middle") ==>
              TextX(n, width) == Finite(ValueIn(digits, 10) as real - width / 2.0)
    ensures GetAttr(n, "text-anchor").None? ==> TextX(n, width).NaN?
  {
    var v := UnitReading(digits, unit);
    ReadsAs(n, digits + unit, v, width);
  }

  /** The anchor cases for an `x` that `parseFloat` reads as `v` and
      `Number` rejects. */
  lemma ReadsAs(n: Node, x: string, v: real, width: real)
    requires "x" in n.attributes && n.attributes["x"] == x
    requires ParseFloatOf(Str(x)) == Finite(v) && ToNumberOf(Str(x)).NaN?
    ensures GetAttr(n, "text-anchor") == Some("middle") ==> TextX(n, width) == Finite(v - width / 2.0)
    ensures GetAttr(n, "text-anchor").None? ==> TextX(n, width).NaN?
  {
    if GetAttr(n, "text-anchor") == Some("middle") {
      SubFinite(v, width / 2.0);
    }
  }

  lemma UnitReading(digits: string, unit: string) returns (v: real)
    requires |digits| > 0 && forall i :: 0 <= i < |digits| ==> IsDigit(digits[i])
    requires |unit| > 0 && IsUnitStart(unit[0])
    ensures AllDigits(digits, 10) && v == ValueIn(digits, 10) as real
    ensures ParseFloatOf(Str(digits + unit)) == Finite(v)
    ensures ToNumberOf(Str(digits + unit)).NaN?
  {
    NumberWithUnit(digits, unit);
    v := ValueIn(digits, 10) as real;
  }

  lemma SubFinite(a: real, b: real)
    ensures Sub(Finite(a), Finite(b)) == Finite(a - b)
  {
  }

  /** No `x` at all: the default anchor draws at 0 (`null` converts to 0),
      but `middle` and `end` give NaN (`parseFloat(null)` is NaN). */
  lemma TextMissingCoordinate(n: Node, width: real)
    requires "x" !in n.attributes && InlineStyle(n, "x") == ""
    ensures GetAttr(n, "text-anchor").None? ==> TextX(n, width) == Finite(0.0)
    ensures GetAttr(n, "text-anchor") == Some("middle") ==> TextX(n, width).NaN?
    ensures GetAttr(n, "text-anchor") == Some("end") ==> TextX(n, width).NaN?
  {
  }

  // ---------------------------------------------------------------------
  // Fonts
  // ---------------------------------------------------------------------

  /** With neither an attribute nor an inline style for the font, text is
      set in 16px Times New Roman. */
  lemma DefaultFont(n: Node)
    requires n.style.Some?
    requires "font-family" !in n.attributes && InlineStyle(n, "font-family") == ""
    requires "font-size" !in n.attributes && InlineStyle(n, "font-size") == ""
    ensures GetFont(n) == Ok("16px Times New Roman")
  {
    DefaultSizeIsNotNumeric();
    assert FontPart(n, "font-family", "Times New Roman") == Ok("Times New Roman");
    assert FontPart(n, "font-size", "16px") == Ok("16px");
    DefaultFontText();
  }

  lemma DefaultFontText()
    ensures "16px" + " " + "Times New Roman" == "16px Times New Roman"
  {
    var s := "16px" + " " + "Times New Roman";
    assert |s| == 20;
    forall i | 0 <= i < 20 ensures s[i] == "16px Times New Roman"[i] {
      if i < 4 {
        assert s[i] == "16px"[i];
      } else if i == 4 {
        assert s[i] == ' ';
      } else {
        assert s[i] == "Times New Roman"[i - 5];
      }
    }
  }

  lemma DefaultSizeIsNotNumeric()
    ensures ToNumber("16px").NaN?
  {
    assert "16px" == "16" + "px";
    ToNumberRejectsUnit("16", "px");
  }

  /** A font size given with a unit is used as written, before the family. */
  lemma FontSizeWithUnit(n: Node, digits: string, unit: string, family: string)
    requires |digits| > 0 && forall i :: 0 <= i < |digits| ==> IsDigit(digits[i])
    requires |unit| > 0 && IsUnitStart(unit[0])
    requires "font-size" in n.attributes && n.attributes["font-size"] == digits + unit
    requires "font-family" in n.attributes && n.attributes["font-family"] == family && family != ""
    ensures GetFont(n) == Ok(digits + unit + " " + family)
  {
    ToNumberRejectsUnit(digits, unit);
  }

  /** A unitless font size such as "12" makes `getFont` assign to its
      constant, so the text is never drawn. */
  lemma UnitlessFontSize(env: Env, n: Node, digits: string)
    requires |digits| > 0 && forall i :: 0 <= i < |digits| ==> IsDigit(digits[i])
    requires "font-size" in n.attributes && n.attributes["font-size"] == digits
    requires n.style.Some? || Truthy(GetAttr(n, "font-family"))
    ensures GetFont(n) == Err(NumericFontSize(digits))
    ensures DrawText(env, n) == Painting([], Some(NumericFontSize(digits)))
  {
    DigitStringValue(digits);
  }

  /** A node without a style object and without a font family attribute
      cannot resolve a font. */
  lemma FontWithoutStyle(n: Node)
    requires n.style.None? && !Truthy(GetAttr(n, "font-family"))
    ensures GetFont(n) == Err(NoStyleObject)
  {
  }

  // ---------------------------------------------------------------------
  // Polylines and polygons
  // ---------------------------------------------------------------------

  /** The calls before the closing ones: style, new path, the vertices. */
  lemma OutlineHasNoPaint(env: Env, n: Node)
    requires |PointsOf(env, n)| > 0
    ensures var p := PointsOf(env, n);
            var outline := [StyleOf(n), BeginPath, MoveTo(p[0].x, p[0].y)] + LinesThrough(p);
            Fill !in outline && Stroke !in outline && ClosePath !in outline
  {
    var p := PointsOf(env, n);
    var lines := LinesThrough(p);
    forall i | 0 <= i < |lines|
      ensures lines[i].LineTo?
    {
      assert lines[i] == LineTo(p[i + 1].x, p[i + 1].y);
    }
  }

  /** `ops` sets the element's style, begins a path, moves to the first
      vertex and draws a line to each further vertex in document order. */
  predicate TracesVertices(n: Node, p: seq<Point>, ops: seq<Op>)
  {
    && |p| > 0 && |ops| >= |p| + 2
    && ops[0] == StyleOf(n) && ops[1] == BeginPath && ops[2] == MoveTo(p[0].x, p[0].y)
    && forall i :: 1 <= i < |p| ==> ops[i + 2] == LineTo(p[i].x, p[i].y)
  }

  lemma Outline(n: Node, p: seq<Point>, tail: seq<Op>)
    requires |p| > 0
    ensures TracesVertices(n, p, [StyleOf(n), BeginPath, MoveTo(p[0].x, p[0].y)] + LinesThrough(p) + tail)
    ensures |[StyleOf(n), BeginPath, MoveTo(p[0].x, p[0].y)] + LinesThrough(p) + tail| == |p| + 2 + |tail|
  {
    var ops := [StyleOf(n), BeginPath, MoveTo(p[0].x, p[0].y)] + LinesThrough(p) + tail;
    forall i | 1 <= i < |p|
      ensures ops[i + 2] == LineTo(p[i].x, p[i].y)
    {
      assert ops[i + 2] == LinesThrough(p)[i - 1];
    }
  }

  /** A polyline traces its vertices in order as an open path, and is
      stroked once, at the end, never filled or closed, whatever its
      `fill` and `stroke` say. */
  lemma PolylineStrokesOnly(env: Env, n: Node)
    requires |PointsOf(env, n)| > 0
    ensures var p := PointsOf(env, n);
            var ops := DrawPolyline(env, n).ops;
            && TracesVertices(n, p, ops) && |ops| == |p| + 3
            && Fill !in ops && ClosePath !in ops
            && ops[|ops| - 1] == Stroke
            && forall i :: 0 <= i < |ops| - 1 ==> ops[i] != Stroke
  {
    OutlineHasNoPaint(env, n);
    var p := PointsOf(env, n);
    var outline := [StyleOf(n), BeginPath, MoveTo(p[0].x, p[0].y)] + LinesThrough(p);
    var ops := DrawPolyline(env, n).ops;
    assert ops == outline + [Stroke];
    Outline(n, p, [Stroke]);
    forall i | 0 <= i < |ops| - 1
      ensures ops[i] != Stroke
    {
      assert ops[i] == outline[i];
    }
  }

  /** A polygon traces its vertices in order, closes the path back to the
      first one, then is filled exactly when a fill is set and stroked
      exactly when a stroke is set, filling first. */
  lemma PolygonPaint(env: Env, n: Node)
    requires |PointsOf(env, n)| > 0
    ensures var p := PointsOf(env, n);
            var ops := DrawPolygon(env, n).ops;
            && TracesVertices(n, p, ops) && |ops| >= |p| + 3
            && ops[|p| + 2] == ClosePath && FinishedBy(n, ops, |p| + 3)
            && ClosePath in ops
            && (Fill in ops <==> Truthy(GetAttr(n, "fill")))
            && (Stroke in ops <==> Truthy(GetAttr(n, "stroke")))
  {
    OutlineHasNoPaint(env, n);
    var p := PointsOf(env, n);
    var head := [StyleOf(n), BeginPath, MoveTo(p[0].x, p[0].y)] + LinesThrough(p) + [ClosePath];
    Outline(n, p, [ClosePath] + FinishOf(n));
    assert head + FinishOf(n) == [StyleOf(n), BeginPath, MoveTo(p[0].x, p[0].y)] + LinesThrough(p) + ([ClosePath] + FinishOf(n));
    Finished(n, head);
  }

  // ---------------------------------------------------------------------
  // Ellipses
  // ---------------------------------------------------------------------

  /** Under the transform `drawOval` sets up, every point of the unit
      circle about (1, 1) lands on the ellipse with centre (cx, cy) and
      radii rx, ry. */
  lemma OvalTracesEllipse(cx: real, cy: real, rx: real, ry: real, u: real, v: real)
    requires (u - 1.0) * (u - 1.0) + (v - 1.0) * (v - 1.0) == 1.0
    ensures var ops := DrawOval(Finite(cx), Finite(cy), Finite(rx), Finite(ry));
            var (x, y) := Place(ops[1], ops[2], u, v);
            (x - cx) * (x - cx) * (ry * ry) + (y - cy) * (y - cy) * (rx * rx) == (rx * rx) * (ry * ry)
  {
    var ops := DrawOval(Finite(cx), Finite(cy), Finite(rx), Finite(ry));
    var (x, y) := Place(ops[1], ops[2], u, v);
    assert x - cx == rx * (u - 1.0);
    assert y - cy == ry * (v - 1.0);
    calc {
      (x - cx) * (x - cx) * (ry * ry) + (y - cy) * (y - cy) * (rx * rx);
      (rx * (u - 1.0)) * (rx * (u - 1.0)) * (ry * ry) + (ry * (v - 1.0)) * (ry * (v - 1.0)) * (rx * rx);
      (rx * rx) * (ry * ry) * ((u - 1.0) * (u - 1.0) + (v - 1.0) * (v - 1.0));
      (rx * rx) * (ry * ry);
    }
  }
}
