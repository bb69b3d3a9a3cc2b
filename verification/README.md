# svg-to-canvas, modelled in Dafny

This project models the renderer `js/lib/svg-to-canvas.js`. It walks a parsed
SVG document and replays it onto a 2D canvas context:

- `render` sizes the canvas from the root element and draws the root.
- `drawElement` dispatches on the node name.
- `drawAtomic` wraps every drawn element in `save()` / `restore()` and
  applies its `clip-path` first.
- `drawContainer` walks the children of `svg`, `g` and `defs`.
- `clipPath` elements register their children in a per-render
  clip-path registry, and `clip` replays a registered list inside
  `beginPath()` … `clip()`.
- The shape emitters (`drawRectangle`, `drawLine`, `drawPolyline`,
  `drawPolygon`, `drawCircle`, `drawEllipse` / `drawOval`, `drawPath`,
  `drawText`) read their attributes through `getAttrs` / `getAttr` /
  `getUrlAttr`. An attribute wins over the inline style, and `null` means
  "neither".

The canvas is kept abstract. A render's result is the sequence of context
calls it made (`Canvas.Op`). An exception that the source does not catch
becomes `Renderer.Outcome.Failed`. `Failed` keeps the calls made up to the
throw and the reason (`Shapes.Error`).

JavaScript values are modelled to the extent the renderer's control flow
depends on them (`JsValues`):

- attribute strings and `null`;
- `Number(s)` and `parseFloat(s)` over strings, including NaN and the
  infinities;
- truthiness;
- the `-` operator.

These matter for three behaviours: `getFont` throws on a numeric font size,
the text-anchor arithmetic uses `parseFloat` while the canvas binding uses
`Number`, and `null` reads as 0.

Modules, following the program's structure:

- `JsValues`, `JsStrings`: values and conversions; the first-match
  `String.prototype.replace` that `getUrlAttr` uses.
- `Dom`: nodes with attributes, an optional inline style object, children
  and text content.
- `Attributes`: `getAttr`, `getUrlAttr`, `getAttrs`.
- `Canvas`: the context calls and the save/restore depth of a trace.
- `Shapes`: the per-shape emitters, `getFont`,
  `normalizeTextCoordinates`, `strokeAndFill`, `setContext`.
- `Renderer`: the walk, `clip`, `render`, `setCanvasAttributes`.
- `ShapeFacts`, `WalkFacts`: the properties proved about them.

Five behaviours of the code are easy to misread; in the last four the code
does something other than what it evidently intends. The model follows the
code in each:

- Unresolved clip references: `drawAtomic` looks the reference up in the
  registry as it stands when the element is reached (line 116), and `clip`
  then iterates the result (line 194). A clip path used before it is
  defined gives `undefined` there, and iterating it throws. See `WalkFacts.UseBeforeDefinition`.
- Restoring after a failure: the `restore()` at line 119 pairs with the
  `save()` at line 114, but there is no `try`/`finally`. A throw in between
  leaves the state saved, and nothing catches it. See
  `WalkFacts.RenderBrackets`.
- Numeric font sizes: line 167 appends `"px"` to a bare numeric size, but
  it assigns to the `const fontSize`, which throws. See
  `ShapeFacts.UnitlessFontSize`.
- Stroked text: line 297 strokes the text through `context`, a name not
  declared in `drawText` (the context is `scope.context`), which throws
  after the fill. See `Shapes.DrawText`.
- Polylines: `drawPolyline` ends with an unconditional `stroke()`
  (line 231). Every other shape calls `strokeAndFill`, so a polyline is
  always stroked and never filled, whatever its attributes. See
  `ShapeFacts.PolylineStrokesOnly`.

## Model

| member | source | states |
|---|---|---|
| Attributes.GetAttr | js/lib/svg-to-canvas.js:142-151 | a present attribute (even an empty one) gives its value; otherwise a non-empty inline style value; otherwise `null` |
| Attributes.StyleAttributeEquivalence | js/lib/svg-to-canvas.js:142-151 | a property written as an inline style resolves exactly as the same property written as an attribute, as long as the style value is non-empty |
| Attributes.AttributeShadowsStyle | js/lib/svg-to-canvas.js:143-146 | when both are set, the attribute wins over the inline style, even when the attribute is empty |
| Attributes.EmptyOnlyFromAttribute | js/lib/svg-to-canvas.js:143-150 | an empty resolved value can only come from an attribute present with an empty value, never from the style |
| Attributes.GetUrlAttr | js/lib/svg-to-canvas.js:153-161 | `null` and "" pass through unchanged; any other value has the first `url(`, then the first `)`, then one leading `#` removed |
| Attributes.UrlHashForm | js/lib/svg-to-canvas.js:153-161 | `url(#id)` resolves to the bare `id` when the id holds no `)` |
| Attributes.UrlPlainForm | js/lib/svg-to-canvas.js:153-161 | `url(id)` resolves to the bare `id` when the id holds no `)` and does not start with `#` |
| Attributes.HashForm | js/lib/svg-to-canvas.js:153-161 | `#id` resolves to the bare `id` when the id holds neither `)` nor `url(` |
| Attributes.BareForm | js/lib/svg-to-canvas.js:153-161 | an id with none of the decoration passes through unchanged |
| Attributes.ClipPathReference | js/lib/svg-to-canvas.js:153-161 | a `clip-path` written as `url(#id)`, `url(id)` or `#id` resolves to the same registry key, the bare `id` |
| Attributes.AbsentReference | js/lib/svg-to-canvas.js:153-161 | with neither an attribute nor a style, the reference is `null`, so no clip is attempted |
| Attributes.GetAttrs | js/lib/svg-to-canvas.js:129-140 | the record holds stroke, stroke width and fill as `getAttr` resolves them, the clip reference as `getUrlAttr` resolves it, each requested name as `getAttr` resolves it, and `undefined` for every other name |
| JsValues.DigitStringValue | js/lib/svg-to-canvas.js:166 | `Number` and `parseFloat` both read a digit string as the integer it spells |
| JsValues.DecimalAgreement | js/lib/svg-to-canvas.js:304-306 | on a decimal literal with no surrounding blanks, `parseFloat` and `Number` agree |
| JsValues.NumberWithUnit | js/lib/svg-to-canvas.js:166 | on a number followed by a unit (`10px`), `parseFloat` reads the number, while `Number` gives NaN |
| JsValues.TrimStartShape | js/lib/svg-to-canvas.js:304 | the whitespace skipped before `parseFloat` reads is exactly the leading whitespace |
| JsValues.TrimEndShape | js/lib/svg-to-canvas.js:166 | the trimming before `Number` converts removes exactly the trailing whitespace |
| JsStrings.RemoveFirst | js/lib/svg-to-canvas.js:156-157 | `replace` with a plain pattern removes the first occurrence only, and leaves a string without an occurrence unchanged |
| JsStrings.StripLeading | js/lib/svg-to-canvas.js:158 | `replace(/^#/, "")` removes one `#` only, and only at the start |
| Canvas.FlatBalanced | js/lib/svg-to-canvas.js:114-119 | a trace with no save or restore leaves the state stack balanced |
| Canvas.Bracket | js/lib/svg-to-canvas.js:114-119 | save, a balanced trace, restore is balanced |
| Canvas.Sequence | js/lib/svg-to-canvas.js:205-208 | two traces that never underflow, run one after the other, never underflow, and their depths add up |
| Shapes.StrokeAndFill | js/lib/svg-to-canvas.js:183-190 | fill exactly when a fill is set, stroke exactly when a stroke is set, fill first, nothing else |
| Shapes.DrawRectangle | js/lib/svg-to-canvas.js:211-217 | the rectangle only paints: no save, restore or clip |
| ShapeFacts.RectanglePaint | js/lib/svg-to-canvas.js:211-217 | style first, then one `rect(x, y, width, height)` added to the current path without `beginPath`, then the closing calls: one fill exactly when a fill is set and one stroke exactly when a stroke is set, fill first, and nothing after them |
| Shapes.DrawLine | js/lib/svg-to-canvas.js:275-284 | the line only paints |
| ShapeFacts.LinePaint | js/lib/svg-to-canvas.js:275-284 | style, a new path, `moveTo(x1, y1)`, `lineTo(x2, y2)`, then the closing calls: one fill exactly when a fill is set and one stroke exactly when a stroke is set, fill first, and nothing after them |
| Shapes.LinesThrough | js/lib/svg-to-canvas.js:227-229 | one `lineTo` per point after the first, in order |
| Shapes.DrawPolyline | js/lib/svg-to-canvas.js:219-232 | throws exactly when the points list is empty, after the style and `beginPath` |
| ShapeFacts.PolylineStrokesOnly | js/lib/svg-to-canvas.js:219-232 | with points given: style, a new path, `moveTo` the first vertex, one `lineTo` per further vertex in order, then a single `stroke` as the last call; never filled or closed |
| Shapes.DrawPolygon | js/lib/svg-to-canvas.js:234-248 | throws exactly when the points list is empty, after the style and `beginPath` |
| ShapeFacts.PolygonPaint | js/lib/svg-to-canvas.js:234-248 | with points given: style, a new path, `moveTo` the first vertex, one `lineTo` per further vertex in order, `closePath`, then filled exactly when a fill is set and stroked exactly when a stroke is set, fill first |
| Shapes.DrawCircle | js/lib/svg-to-canvas.js:250-259 | the circle only paints; it throws exactly when cx, cy and r are all finite and r is negative, after the style and `beginPath` |
| ShapeFacts.CirclePaint | js/lib/svg-to-canvas.js:250-259 | when cx, cy and r are all finite and r is negative, only style and `beginPath` before the throw; otherwise, including when any of the three is NaN or infinite, style, a new path, a full anticlockwise arc of radius r about (cx, cy), `closePath`, then the closing calls: one fill exactly when a fill is set and one stroke exactly when a stroke is set, fill first, and nothing after them |
| Shapes.DrawOval | js/lib/svg-to-canvas.js:268-273 | a new path, translate by (cx - rx, cy - ry), scale by (rx, ry), the unit circle about (1, 1); with finite arguments that circle's centre lands on (cx, cy) |
| ShapeFacts.OvalTracesEllipse | js/lib/svg-to-canvas.js:268-273 | every point of the unit circle about (1, 1) is mapped onto the ellipse with centre (cx, cy) and radii rx, ry |
| Shapes.DrawEllipse | js/lib/svg-to-canvas.js:261-266 | the ellipse only paints |
| ShapeFacts.EllipsePaint | js/lib/svg-to-canvas.js:261-266 | style, the oval for (cx, cy, rx, ry), then the closing calls: one fill exactly when a fill is set and one stroke exactly when a stroke is set, fill first, and nothing after them |
| Shapes.DrawPath | js/lib/svg-to-canvas.js:312-321 | one call to the instruction-list painter, with the `d` data, the stroke and stroke width as resolved, and the fill, where an unset or empty fill becomes `#000` |
| Shapes.FontPart | js/lib/svg-to-canvas.js:164-165 | attribute, then inline style, then the default; throws on a node without a style object once the attribute is unset |
| Shapes.GetFont | js/lib/svg-to-canvas.js:163-170 | "size family" exactly when both parts resolve and the size is not numeric; a numeric size throws |
| ShapeFacts.DefaultFont | js/lib/svg-to-canvas.js:163-170 | with no font attributes or styles, the font is `16px Times New Roman` |
| ShapeFacts.FontSizeWithUnit | js/lib/svg-to-canvas.js:163-170 | a size with a unit is used as written, before the family |
| ShapeFacts.UnitlessFontSize | js/lib/svg-to-canvas.js:166-167 | a bare numeric size such as `12` throws, so the text is never drawn |
| ShapeFacts.FontWithoutStyle | js/lib/svg-to-canvas.js:164 | a node with no style object and no `font-family` attribute throws |
| Shapes.NormalizeTextCoordinates | js/lib/svg-to-canvas.js:301-310 | anchor `middle` replaces x with `parseFloat(x) - width / 2`, `end` with `parseFloat(x) - width`; every other property is kept, and any other anchor leaves the record as it is |
| Shapes.PlacementAgrees | js/lib/svg-to-canvas.js:293-295 | the x that `fillText` receives is the anchor-dependent position `TextX` |
| Shapes.DrawText | js/lib/svg-to-canvas.js:286-299 | nothing is drawn when the font fails; otherwise the font is set and the text content is filled at the anchored x and the given y, and the render throws exactly when a stroke is set |
| ShapeFacts.TextAnchorPlacement | js/lib/svg-to-canvas.js:301-310 | for a plain decimal x, `middle` starts the text at x - w/2, `end` at x - w, any other anchor at x |
| ShapeFacts.TextUnitCoordinate | js/lib/svg-to-canvas.js:301-310 | for an x with a unit (`10px`), `middle` centres on the number while the default anchor passes NaN |
| ShapeFacts.TextMissingCoordinate | js/lib/svg-to-canvas.js:301-310 | with no x, the default anchor draws at 0 (`null` converts to 0), while `middle` and `end` give NaN |
| Renderer.Classify | js/lib/svg-to-canvas.js:69-110 | `svg`, `g` and `defs`, and only they, are containers; each of the eight shape names, and only it, selects its shape; exactly `clipPath` registers; exactly `title` and `#text` are skipped; a name is unsupported exactly when it is none of these fourteen |
| Renderer.DrawShape | js/lib/svg-to-canvas.js:76-99 | shapes only paint; only text, polyline, polygon and circle can throw |
| Renderer.Render | js/lib/svg-to-canvas.js:43-67 | the canvas is sized by the root's `height` and `width`, or 2000 where unset or empty |
| Renderer.CanvasExtent | js/lib/svg-to-canvas.js:62-67 | a set size is used as written; an unset or empty one becomes "2000" |
| WalkFacts.ElementBrackets | js/lib/svg-to-canvas.js:69-120 | drawing an element that completes leaves saves and restores balanced; one that throws leaves at least one save open, never having restored more than it saved |
| WalkFacts.ListBrackets | js/lib/svg-to-canvas.js:205-208 | the same for a child list |
| WalkFacts.ClipBrackets | js/lib/svg-to-canvas.js:192-198 | expanding a clip path never leaves a save open when it completes |
| WalkFacts.RenderBrackets | js/lib/svg-to-canvas.js:43-60 | a render that completes restores every state it saved; one that throws leaves a state saved |
| WalkFacts.ShapeBracket | js/lib/svg-to-canvas.js:112-120 | a shape drawn without a throw is save, then the clip calls exactly when its `clip-path` resolves, then its own calls, then restore |
| WalkFacts.DrawnBracket | js/lib/svg-to-canvas.js:112-120 | every drawn element, shape or container, that completes starts with its `save`, ends with the matching `restore`, and is balanced in between |
| WalkFacts.UnclippedContainer | js/lib/svg-to-canvas.js:200-209 | a container without a clip reference is `save`, its children in document order, then `restore` once they all completed, leaving the registry its children left |
| WalkFacts.ElementKeeps | js/lib/svg-to-canvas.js:100-103 | no walk ever removes a registered clip path |
| WalkFacts.ClipPathRegisters | js/lib/svg-to-canvas.js:100-127 | a `clipPath` completes, draws nothing, and its only effect is to register its child list under its id ("" without one), every other entry left as it was |
| WalkFacts.SkippedNodes | js/lib/svg-to-canvas.js:104-108 | skipped and unsupported nodes draw nothing and register nothing |
| WalkFacts.ListSplit | js/lib/svg-to-canvas.js:205-208 | drawing a + b is drawing a, then b with the registry a left; a throw in a stops the walk |
| WalkFacts.DefinitionBeforeUse | js/lib/svg-to-canvas.js:100-117 | a clip path defined before its user is found by it |
| WalkFacts.UseBeforeDefinition | js/lib/svg-to-canvas.js:112-117 | a clip path used before its definition throws right after `save` and `beginPath`, and the definition is never reached |
| WalkFacts.GroupedDefinition | js/lib/svg-to-canvas.js:100-209 | a `clipPath` inside a group stays registered after the group's save/restore |
| WalkFacts.SelfReference | js/lib/svg-to-canvas.js:192-198 | a clip path one of whose entries is clipped by the clip path itself, with only skipped nodes (such as whitespace text) before it, never finishes expanding, whatever the fuel |
| WalkFacts.ContainerClipsTwice | js/lib/svg-to-canvas.js:112-204 | a clipped container whose clip expansion completes and leaves the registry as it was applies its clip twice, once in `drawAtomic` and once in `drawContainer`, before its children; it completes exactly when its children do |
| WalkFacts.ElementFuel | js/lib/svg-to-canvas.js:69-120 | a walk that did not run out of fuel has the same result with more fuel, so that result is the source's |
| WalkFacts.ClipFreeNeedsNoFuel | js/lib/svg-to-canvas.js:112-120 | a shape without a clip reference draws the same with any fuel: fuel only bounds clip expansion |
| WalkFacts.RootClipUnresolved | js/lib/svg-to-canvas.js:51-117 | a root that names a clip path throws, because the registry starts empty |
| WalkFacts.CanvasSize | js/lib/svg-to-canvas.js:62-67 | the canvas size is never empty, and a size is "2000" exactly when the root leaves it unset or empty or sets it to "2000": an empty size counts as unset |

## Left out

- Parsing the SVG text (`parseXml`, lines 178-181): the model starts from the document's root node. The root is assumed to be an element. A leading comment, processing instruction or `<!DOCTYPE svg …>` would be `childNodes[0]` in the source, and that case is not modelled. A doctype named `svg` has the node name "svg", so `setCanvasAttributes` would look up attributes on a node that has none and throw at line 63.
- `SvgPathParser`, `InstructionSimplifier` and `CanvasRenderer.drawInstructionList`: these are not part of this model. `drawPath` is modelled up to the call it makes, which carries the path data and the style. Any throw inside those components is not modelled, and the painter is assumed to paint only: `Canvas.DrawInstructions` is one painting call, taken to leave the saved-state stack and the clip region as it found them. The save/restore balance facts (`WalkFacts.ElementBrackets`, `DrawnBracket`, `RenderBrackets`) rely on this.
- `parseSvgPoints` (utilities.js) and `measureText`: these are parameters (`Shapes.Env`), and the model does not constrain what they return. Both are assumed total: `parseSvgPoints` is taken never to throw, including on the `null` that `getAttrs` gives for a missing `points` (lines 221 and 236), and `measureText` is taken never to throw.
- Rasterisation: the model does not compute what the canvas draws, including transforms and clip regions as pixels. A render is the call sequence.
- Number precision: floating-point rounding, negative zero and overflow to Infinity are left out. Numbers are exact reals plus NaN and the infinities.
- CSS value handling by the style object (normalisation, shorthands, computed styles): an inline style is a map from property name to string.
- Registry keys on `Object.prototype` (`constructor`, `__proto__`, …): the source's plain-object registry would find or mishandle these, and the model does not.
- Exceptions raised inside the canvas are modelled for one call only: `arc` (line 255) throws exactly when cx, cy and r are all finite and r is negative, which `Shapes.DrawCircle` reports as `NegativeRadius`; when any of them is NaN or infinite, `arc` returns first and does nothing. The canvas throws nowhere else the renderer reaches: it ignores an invalid colour or font string, and ignores non-finite arguments to its other path calls. The `console.error` report for unsupported elements is left out; only the skip is modelled.
- `create`, `bind` and `init` (lines 9-41): they only wire up the object and are not modelled.
- Clip expansion depth is bounded by a fuel parameter. `Exhausted` stands for the source's unbounded recursion, a stack overflow. `WalkFacts.ElementFuel` shows that any result other than `Exhausted` is the source's.
- Shapes.DrawRectangle: its contract states only that it paints. The calls it makes are stated by `ShapeFacts.RectanglePaint`.
- Shapes.DrawLine: its contract states only that it paints. The calls it makes are stated by `ShapeFacts.LinePaint`.
- Shapes.DrawCircle: its contract states that it paints and when it throws. The calls it makes otherwise are stated by `ShapeFacts.CirclePaint`.
- Shapes.DrawEllipse: its contract states only that it paints. The calls it makes are stated by `ShapeFacts.EllipsePaint`.
- Shapes.DrawPolyline: its contract states the error case only. The calls made for a non-empty point list, vertex by vertex, are stated by `ShapeFacts.PolylineStrokesOnly`.
- Shapes.DrawPolygon: its contract states the error case only. The calls made for a non-empty point list, vertex by vertex, are stated by `ShapeFacts.PolygonPaint`.
