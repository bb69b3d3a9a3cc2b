/** The 2D canvas, kept abstract: the renderer's output is the sequence of
    calls it makes on the context. Numeric arguments are recorded as the
    canvas receives them, after the binding has converted each argument
    with ToNumber. */
module Canvas {
  import opened JsValues

  datatype Point = Point(x: Number, y: Number)

  /** The style record handed to the instruction-list painter. */
  datatype PathStyle = PathStyle(strokeColor: Option<string>, strokeWidth: Option<string>, fillColor: string)

  datatype Op =
    | Save
    | Restore
      /** `lineWidth`, `strokeStyle` and `fillStyle` assigned together. */
    | SetStyle(lineWidth: Option<string>, strokeStyle: Option<string>, fillStyle: Option<string>)
    | SetFont(font: string)
    | BeginPath
    | ClosePath
    | Rect(x: Number, y: Number, width: Number, height: Number)
    | MoveTo(x: Number, y: Number)
    | LineTo(x: Number, y: Number)
      /** `arc(x, y, radius, 0, 2 * Math.PI, anticlockwise)`: every arc the
          renderer draws is a full turn. */
    | Arc(x: Number, y: Number, radius: Number, anticlockwise: bool)
    | Translate(x: Number, y: Number)
    | Scale(x: Number, y: Number)
    | Fill
    | Stroke
    | Clip
    | FillText(text: string, x: Number, y: Number)
      /** The path painter's call: the instruction list is what the path
          parser and simplifier make of `pathData`. */
    | DrawInstructions(pathData: JsValue, style: PathStyle)

  /** A trace with no `Save` and no `Restore` in it. */
  predicate Flat(ops: seq<Op>)
  {
    forall i :: 0 <= i < |ops| ==> ops[i] != Save && ops[i] != Restore
  }

  /** A trace that only paints: it neither saves, restores nor clips. */
  predicate PaintOnly(ops: seq<Op>)
  {
    forall op :: op in ops ==> Paints(op)
  }

  predicate Paints(op: Op)
  {
    !op.Save? && !op.Restore? && !op.Clip?
  }

  function Delta(op: Op): int
  {
    match op
    case Save => 1
    case Restore => -1
    case _ => 0
  }

  /** How many saved states a trace leaves on the canvas's state stack:
      `Save`s minus `Restore`s. */
  function Depth(ops: seq<Op>): int
  {
    if |ops| == 0 then 0 else Depth(ops[..|ops| - 1]) + Delta(ops[|ops| - 1])
  }

  /** No prefix of the trace restores more than it saved. */
  ghost predicate NeverUnderflows(ops: seq<Op>)
  {
    forall k :: 0 <= k <= |ops| ==> Depth(ops[..k]) >= 0
  }

  /** Every `Save` is matched by a later `Restore` and no `Restore` comes
      before its `Save`. */
  ghost predicate Balanced(ops: seq<Op>)
  {
    NeverUnderflows(ops) && Depth(ops) == 0
  }

  lemma {:induction false} DepthConcat(a: seq<Op>, b: seq<Op>)
    ensures Depth(a + b) == Depth(a) + Depth(b)
    decreases |b|
  {
    if |b| > 0 {
      var b' := b[..|b| - 1];
      assert (a + b)[..|a + b| - 1] == a + b';
      DepthConcat(a, b');
    } else {
      assert a + b == a;
    }
  }

  lemma {:induction false} FlatDepth(ops: seq<Op>)
    requires Flat(ops)
    ensures Depth(ops) == 0
    decreases |ops|
  {
    if |ops| > 0 {
      FlatDepth(ops[..|ops| - 1]);
    }
  }

  /** A trace without saves and restores is balanced. */
  lemma FlatBalanced(ops: seq<Op>)
    requires Flat(ops)
    ensures Balanced(ops)
  {
    FlatDepth(ops);
    forall k | 0 <= k <= |ops|
      ensures Depth(ops[..k]) >= 0
    {
      FlatDepth(ops[..k]);
    }
  }

  /** A well-formed prefix followed by a trace that never underflows on its
      own never underflows. */
  lemma Sequence(a: seq<Op>, b: seq<Op>)
    requires NeverUnderflows(a) && NeverUnderflows(b)
    ensures NeverUnderflows(a + b)
    ensures Depth(a + b) == Depth(a) + Depth(b)
  {
    DepthConcat(a, b);
    assert Depth(a[..|a|]) >= 0 by { assert a[..|a|] == a; }
    forall k | 0 <= k <= |a + b|
      ensures Depth((a + b)[..k]) >= 0
    {
      if k <= |a| {
        assert (a + b)[..k] == a[..k];
      } else {
        assert (a + b)[..k] == a + b[..k - |a|];
        DepthConcat(a, b[..k - |a|]);
        assert a[..|a|] == a;
      }
    }
  }

  lemma BalancedConcat(a: seq<Op>, b: seq<Op>)
    requires Balanced(a) && Balanced(b)
    ensures Balanced(a + b)
  {
    Sequence(a, b);
  }

  /** `Save`, a balanced trace, `Restore`: balanced. */
  lemma Bracket(a: seq<Op>)
    requires Balanced(a)
    ensures Balanced([Save] + a + [Restore])
  {
    OpenBracket(a);
    var x := [Save] + a;
    DepthConcat(x, [Restore]);
    assert Depth([Restore]) == -1 by { assert [Restore][..0] == []; }
    forall k | 0 <= k <= |x + [Restore]|
      ensures Depth((x + [Restore])[..k]) >= 0
    {
      if k <= |x| {
        assert (x + [Restore])[..k] == x[..k];
      } else {
        assert (x + [Restore])[..k] == x + [Restore];
      }
    }
  }

  /** `Save` followed by a trace that never underflows: never underflows, and
      leaves one more state saved. */
  lemma OpenBracket(a: seq<Op>)
    requires NeverUnderflows(a)
    ensures NeverUnderflows([Save] + a)
    ensures Depth([Save] + a) == 1 + Depth(a)
  {
    assert Depth([Save]) == 1 by { assert [Save][..0] == []; }
    assert NeverUnderflows([Save]) by {
      forall k | 0 <= k <= 1 ensures Depth([Save][..k]) >= 0 {
        if k == 1 { assert [Save][..k] == [Save]; }
      }
    }
    Sequence([Save], a);
  }
}
