/** What the tree walk guarantees: how it leaves the canvas's state stack,
    how the clip-path registry grows and in what order it is seen, and how
    clip expansion behaves. */
module WalkFacts {
  import opened JsValues
  import opened Dom
  import opened Attributes
  import opened Canvas
  import opened Shapes
  import opened Renderer

  // ---------------------------------------------------------------------
  // The state stack
  // ---------------------------------------------------------------------

  /** A walk that completes leaves the state stack as it found it; one that
      throws never restored more than it saved and leaves at least
      `pending` saves open (the source has no `finally` around `restore`). */
  ghost predicate Leaves(o: Outcome, pending: int)
  {
    && (o.Done? ==> Balanced(o.ops))
    && (o.Failed? ==> NeverUnderflows(o.ops) && Depth(o.ops) >= pending)
  }

  lemma PaintOnlyBalanced(ops: seq<Op>)
    requires PaintOnly(ops)
    ensures Balanced(ops)
  {
    assert Flat(ops) by {
      forall i | 0 <= i < |ops| ensures ops[i] != Save && ops[i] != Restore {
        assert ops[i] in ops;
      }
    }
    FlatBalanced(ops);
  }

  /** Every element: balanced when drawn, at least one save left open when
      drawing it throws. */
  lemma {:induction false} ElementBrackets(env: Env, n: Node, reg: Registry, fuel: nat)
    ensures Leaves(DrawElement(env, n, reg, fuel), 1)
    decreases fuel, Size(n), 3
  {
    match Classify(n.kind)
    case Drawn(f) => AtomicBrackets(env, f, n, reg, fuel);
    case _ => PaintOnlyBalanced([]);
  }

  lemma {:induction false} AtomicBrackets(env: Env, f: DrawFunc, n: Node, reg: Registry, fuel: nat)
    ensures Leaves(DrawAtomic(env, f, n, reg, fuel), 1)
    decreases fuel, Size(n), 2
  {
    var ref := GetUrlAttr(n, "clip-path");
    var clipped := if Truthy(ref) then ApplyClip(env, ref.value, reg, fuel) else Done(reg, []);
    if Truthy(ref) {
      ClipBrackets(env, ref.value, reg, fuel);
    } else {
      PaintOnlyBalanced([]);
    }
    match clipped
    case Failed(_, c) =>
      OpenBracket(c);
    case Done(reg', c) =>
      BodyBrackets(env, f, n, reg', fuel);
      match DrawBody(env, f, n, reg', fuel)
      case Done(_, b) => WrapDone(c, b);
      case Failed(_, b) => WrapFailed(c, b);
  }

  /** `save`, a balanced clip, a balanced drawing, `restore`. */
  lemma WrapDone(c: seq<Op>, b: seq<Op>)
    requires Balanced(c) && Balanced(b)
    ensures Balanced([Save] + c + (b + [Restore]))
  {
    BalancedConcat(c, b);
    Bracket(c + b);
    assert [Save] + c + (b + [Restore]) == [Save] + (c + b) + [Restore];
  }

  /** `save`, a balanced clip, a drawing that threw. */
  lemma WrapFailed(c: seq<Op>, b: seq<Op>)
    requires Balanced(c) && NeverUnderflows(b) && Depth(b) >= 0
    ensures NeverUnderflows([Save] + c + b) && Depth([Save] + c + b) >= 1
  {
    Sequence(c, b);
    OpenBracket(c + b);
    assert [Save] + c + b == [Save] + (c + b);
  }

  lemma {:induction false} BodyBrackets(env: Env, f: DrawFunc, n: Node, reg: Registry, fuel: nat)
    ensures Leaves(DrawBody(env, f, n, reg, fuel), 0)
    decreases fuel, Size(n), 1
  {
    match f
    case ContainerFunc => ContainerBrackets(env, n, reg, fuel);
    case ShapeFunc(s) => PaintOnlyBalanced(DrawShape(env, s, n).ops);
  }

  lemma {:induction false} ContainerBrackets(env: Env, n: Node, reg: Registry, fuel: nat)
    ensures Leaves(DrawContainer(env, n, reg, fuel), 0)
    decreases fuel, Size(n), 0
  {
    var a := GetAttrs(n, []);
    var clipped := if Truthy(a.clipPath) then ApplyClip(env, a.clipPath.value, reg, fuel) else Done(reg, []);
    if Truthy(a.clipPath) {
      ClipBrackets(env, a.clipPath.value, reg, fuel);
    } else {
      PaintOnlyBalanced([]);
    }
    match clipped
    case Failed(_, _) =>
    case Done(reg', c) =>
      ListBrackets(env, n.children, reg', fuel);
      var l := DrawList(env, n.children, reg', fuel);
      if l.Done? {
        BalancedConcat(c, l.ops);
      } else {
        Sequence(c, l.ops);
      }
  }

  lemma {:induction false} ListBrackets(env: Env, nodes: seq<Node>, reg: Registry, fuel: nat)
    ensures Leaves(DrawList(env, nodes, reg, fuel), 1)
    decreases fuel, SizeAll(nodes), 4
  {
    if |nodes| == 0 {
      PaintOnlyBalanced([]);
    } else {
      ElementBrackets(env, nodes[0], reg, fuel);
      match DrawElement(env, nodes[0], reg, fuel)
      case Failed(_, _) =>
      case Done(reg', e) =>
        ListBrackets(env, nodes[1..], reg', fuel);
        Sequence(e, DrawList(env, nodes[1..], reg', fuel).ops);
    }
  }

  lemma {:induction false} ClipBrackets(env: Env, id: string, reg: Registry, fuel: nat)
    ensures Leaves(ApplyClip(env, id, reg, fuel), 0)
    decreases fuel, 0, 0
  {
    PaintOnlyBalanced([BeginPath]);
    if id in reg && fuel > 0 {
      ListBrackets(env, reg[id], reg, fuel - 1);
      var l := DrawList(env, reg[id], reg, fuel - 1);
      if l.Done? {
        BalancedConcat([BeginPath], l.ops);
        FlatBalanced([Clip]);
        BalancedConcat([BeginPath] + l.ops, [Clip]);
      } else {
        Sequence([BeginPath], l.ops);
      }
    }
  }

  /** How a shape's drawing looks once it completed: `save`, then the clip
      calls exactly when its `clip-path` resolves, then the shape's own
      calls, then `restore`. */
  ghost predicate BracketedShape(env: Env, s: Shape, n: Node, reg: Registry, fuel: nat, ops: seq<Op>)
  {
    var ref := GetUrlAttr(n, "clip-path");
    && |ops| >= 2 && ops[0] == Save && ops[|ops| - 1] == Restore
    && (Clip in ops <==> Truthy(ref))
    && (!Truthy(ref) ==> ops == [Save] + DrawShape(env, s, n).ops + [Restore])
    && (Truthy(ref) ==>
          var c := ApplyClip(env, ref.value, reg, fuel).ops;
          && ops == [Save] + c + DrawShape(env, s, n).ops + [Restore]
          && |c| >= 2 && c[0] == BeginPath && c[|c| - 1] == Clip)
  }

  /** A shape that draws without throwing is bracketed by `save` and
      `restore`, with the clip calls in between exactly when its
      `clip-path` resolves. */
  lemma ShapeBracket(env: Env, s: Shape, n: Node, reg: Registry, fuel: nat)
    requires Classify(n.kind) == Drawn(ShapeFunc(s))
    requires DrawElement(env, n, reg, fuel).Done?
    ensures BracketedShape(env, s, n, reg, fuel, DrawElement(env, n, reg, fuel).ops)
  {
    assert DrawElement(env, n, reg, fuel) == DrawAtomic(env, ShapeFunc(s), n, reg, fuel);
    if Truthy(GetUrlAttr(n, "clip-path")) {
      ClippedShape(env, s, n, reg, fuel);
    } else {
      UnclippedShape(env, s, n, reg, fuel);
    }
  }

  lemma ClippedShape(env: Env, s: Shape, n: Node, reg: Registry, fuel: nat)
    requires Truthy(GetUrlAttr(n, "clip-path"))
    requires DrawAtomic(env, ShapeFunc(s), n, reg, fuel).Done?
    ensures BracketedShape(env, s, n, reg, fuel, DrawAtomic(env, ShapeFunc(s), n, reg, fuel).ops)
  {
    var shape := DrawShape(env, s, n).ops;
    var clipped := ApplyClip(env, GetUrlAttr(n, "clip-path").value, reg, fuel);
    assert clipped.Done?;
    ClipEnds(env, GetUrlAttr(n, "clip-path").value, reg, fuel);
    assert DrawBody(env, ShapeFunc(s), n, clipped.registry, fuel) == Done(clipped.registry, shape);
    Wrap(clipped.ops, shape);
  }

  /** A clip that succeeds is a new path, then the clip-path's drawing,
      then `clip()`. */
  lemma ClipEnds(env: Env, id: string, reg: Registry, fuel: nat)
    requires ApplyClip(env, id, reg, fuel).Done?
    ensures var c := ApplyClip(env, id, reg, fuel).ops;
            |c| >= 2 && c[0] == BeginPath && c[|c| - 1] == Clip
  {
  }

  lemma Wrap(c: seq<Op>, shape: seq<Op>)
    requires |c| >= 2 && c[|c| - 1] == Clip
    ensures var ops := [Save] + c + shape + [Restore];
            && [Save] + c + (shape + [Restore]) == ops
            && |ops| >= 2 && ops[0] == Save && ops[|ops| - 1] == Restore
            && Clip in ops
  {
    assert ([Save] + c + shape + [Restore])[|c|] == Clip;
  }

  lemma UnclippedShape(env: Env, s: Shape, n: Node, reg: Registry, fuel: nat)
    requires !Truthy(GetUrlAttr(n, "clip-path"))
    requires DrawAtomic(env, ShapeFunc(s), n, reg, fuel).Done?
    ensures BracketedShape(env, s, n, reg, fuel, DrawAtomic(env, ShapeFunc(s), n, reg, fuel).ops)
  {
    var shape := DrawShape(env, s, n).ops;
    assert DrawBody(env, ShapeFunc(s), n, reg, fuel) == Done(reg, shape);
    assert DrawAtomic(env, ShapeFunc(s), n, reg, fuel) == Prepend([Save] + [], Close(Done(reg, shape)));
    Unclipped(shape);
  }

  lemma Unclipped(shape: seq<Op>)
    requires PaintOnly(shape)
    ensures var ops := [Save] + shape + [Restore];
            && [Save] + [] + (shape + [Restore]) == ops
            && |ops| >= 2 && ops[0] == Save && ops[|ops| - 1] == Restore
            && Clip !in ops
  {
    assert !Paints(Clip);
  }

  /** `ops` opens with a `save`, closes with a `restore`, and is balanced
      in between. */
  ghost predicate Bracketed(ops: seq<Op>)
  {
    |ops| >= 2 && ops[0] == Save && ops[|ops| - 1] == Restore && Balanced(ops[1..|ops| - 1])
  }

  /** Every drawn element, shape or container, that completes starts with
      its `save`, ends with the matching `restore`, and is balanced in
      between. */
  lemma DrawnBracket(env: Env, n: Node, reg: Registry, fuel: nat)
    requires Classify(n.kind).Drawn?
    requires DrawElement(env, n, reg, fuel).Done?
    ensures Bracketed(DrawElement(env, n, reg, fuel).ops)
  {
    var f := Classify(n.kind).func;
    assert DrawElement(env, n, reg, fuel) == DrawAtomic(env, f, n, reg, fuel);
    AtomicBracket(env, f, n, reg, fuel);
  }

  lemma AtomicBracket(env: Env, f: DrawFunc, n: Node, reg: Registry, fuel: nat)
    requires DrawAtomic(env, f, n, reg, fuel).Done?
    ensures Bracketed(DrawAtomic(env, f, n, reg, fuel).ops)
  {
    var c, b := AtomicParts(env, f, n, reg, fuel);
    Ends(c, b);
  }

  /** The two balanced pieces a completed atomic draw is made of: its clip
      and its body. */
  lemma AtomicParts(env: Env, f: DrawFunc, n: Node, reg: Registry, fuel: nat) returns (c: seq<Op>, b: seq<Op>)
    requires DrawAtomic(env, f, n, reg, fuel).Done?
    ensures DrawAtomic(env, f, n, reg, fuel).ops == [Save] + c + (b + [Restore])
    ensures Balanced(c + b)
  {
    var ref := GetUrlAttr(n, "clip-path");
    var clipped := if Truthy(ref) then ApplyClip(env, ref.value, reg, fuel) else Done(reg, []);
    assert clipped.Done?;
    if Truthy(ref) {
      ClipBrackets(env, ref.value, reg, fuel);
    } else {
      FlatBalanced([]);
    }
    var body := DrawBody(env, f, n, clipped.registry, fuel);
    assert body.Done?;
    BodyBrackets(env, f, n, clipped.registry, fuel);
    BalancedConcat(clipped.ops, body.ops);
    c, b := clipped.ops, body.ops;
  }

  lemma Ends(c: seq<Op>, b: seq<Op>)
    requires Balanced(c + b)
    ensures Bracketed([Save] + c + (b + [Restore]))
  {
    var ops := [Save] + c + (b + [Restore]);
    assert ops[1..|ops| - 1] == c + b;
  }

  /** A container without a clip reference: `save`, its children in
      document order, and `restore` once they all completed. */
  lemma UnclippedContainer(env: Env, g: Node, reg: Registry, fuel: nat)
    requires Classify(g.kind) == Drawn(ContainerFunc)
    requires !Truthy(GetUrlAttr(g, "clip-path"))
    ensures var o := DrawElement(env, g, reg, fuel);
            var l := DrawList(env, g.children, reg, fuel);
            && (o.Done? <==> l.Done?)
            && (o.Done? ==> o.registry == l.registry)
            && o.ops == [Save] + l.ops + (if l.Done? then [Restore] else [])
  {
    var l := DrawList(env, g.children, reg, fuel);
    assert GetAttrs(g, []).clipPath == GetUrlAttr(g, "clip-path");
    assert DrawContainer(env, g, reg, fuel) == Prepend([], l);
    assert DrawElement(env, g, reg, fuel) == DrawAtomic(env, ContainerFunc, g, reg, fuel);
    assert DrawAtomic(env, ContainerFunc, g, reg, fuel) == Prepend([Save] + [], Close(Prepend([], l)));
    if l.Done? {
      assert [Save] + [] + ([] + l.ops + [Restore]) == [Save] + l.ops + [Restore];
    } else {
      assert [Save] + [] + ([] + l.ops) == [Save] + l.ops + [];
    }
  }

  /** A render that completes restores every state it saved; one that
      throws leaves the context with at least one state still saved. */
  lemma RenderBrackets(env: Env, root: Node, fuel: nat)
    ensures Leaves(Render(env, root, fuel).outcome, 1)
  {
    ElementBrackets(env, root, map[], fuel);
  }

  // ---------------------------------------------------------------------
  // The registry
  // ---------------------------------------------------------------------

  /** A walk that completes never drops a registered id: registrations
      are only added or overwritten. */
  ghost predicate Keeps(reg: Registry, o: Outcome)
  {
    o.Done? ==> reg.Keys <= o.registry.Keys
  }

  lemma {:induction false} ElementKeeps(env: Env, n: Node, reg: Registry, fuel: nat)
    ensures Keeps(reg, DrawElement(env, n, reg, fuel))
    decreases fuel, Size(n), 3
  {
    if Classify(n.kind).Drawn? {
      AtomicKeeps(env, Classify(n.kind).func, n, reg, fuel);
    }
  }

  lemma {:induction false} AtomicKeeps(env: Env, f: DrawFunc, n: Node, reg: Registry, fuel: nat)
    ensures Keeps(reg, DrawAtomic(env, f, n, reg, fuel))
    decreases fuel, Size(n), 2
  {
    var ref := GetUrlAttr(n, "clip-path");
    if Truthy(ref) {
      ClipKeeps(env, ref.value, reg, fuel);
    }
    var clipped := if Truthy(ref) then ApplyClip(env, ref.value, reg, fuel) else Done(reg, []);
    if clipped.Done? {
      BodyKeeps(env, f, n, clipped.registry, fuel);
    }
  }

  lemma {:induction false} BodyKeeps(env: Env, f: DrawFunc, n: Node, reg: Registry, fuel: nat)
    ensures Keeps(reg, DrawBody(env, f, n, reg, fuel))
    decreases fuel, Size(n), 1
  {
    if f.ContainerFunc? {
      ContainerKeeps(env, n, reg, fuel);
    }
  }

  lemma {:induction false} ContainerKeeps(env: Env, n: Node, reg: Registry, fuel: nat)
    ensures Keeps(reg, DrawContainer(env, n, reg, fuel))
    decreases fuel, Size(n), 0
  {
    var a := GetAttrs(n, []);
    if Truthy(a.clipPath) {
      ClipKeeps(env, a.clipPath.value, reg, fuel);
    }
    var clipped := if Truthy(a.clipPath) then ApplyClip(env, a.clipPath.value, reg, fuel) else Done(reg, []);
    if clipped.Done? {
      ListKeeps(env, n.children, clipped.registry, fuel);
    }
  }

  lemma {:induction false} ListKeeps(env: Env, nodes: seq<Node>, reg: Registry, fuel: nat)
    ensures Keeps(reg, DrawList(env, nodes, reg, fuel))
    decreases fuel, SizeAll(nodes), 4
  {
    if |nodes| > 0 {
      ElementKeeps(env, nodes[0], reg, fuel);
      var e := DrawElement(env, nodes[0], reg, fuel);
      if e.Done? {
        ListKeeps(env, nodes[1..], e.registry, fuel);
      }
    }
  }

  lemma {:induction false} ClipKeeps(env: Env, id: string, reg: Registry, fuel: nat)
    ensures Keeps(reg, ApplyClip(env, id, reg, fuel))
    decreases fuel, 0, 0
  {
    if id in reg && fuel > 0 {
      ListKeeps(env, reg[id], reg, fuel - 1);
    }
  }

  /** A `clipPath` element registers its child list under its id (""
      when it has none), replacing any earlier registration, and draws
      nothing. */
  lemma ClipPathRegisters(env: Env, n: Node, reg: Registry, fuel: nat)
    requires n.kind == "clipPath"
    ensures DrawElement(env, n, reg, fuel) == Done(reg[Id(n) := n.children], [])
  {
  }

  /** `title`, text nodes and every element the renderer does not know
      (`use`, `image`, comments, ...) draw nothing and register nothing. */
  lemma SkippedNodes(env: Env, n: Node, reg: Registry, fuel: nat)
    requires Classify(n.kind).Inert? || Classify(n.kind).Unsupported?
    ensures DrawElement(env, n, reg, fuel) == Done(reg, [])
  {
  }

  // ---------------------------------------------------------------------
  // Document order
  // ---------------------------------------------------------------------

  /** Continues a walk over `rest` from where `o` left off, or keeps `o`'s
      exception. */
  function Then(env: Env, o: Outcome, rest: seq<Node>, fuel: nat): Outcome
  {
    match o
    case Failed(_, _) => o
    case Done(reg, ops) => Prepend(ops, DrawList(env, rest, reg, fuel))
  }

  /** Drawing `a + b` is drawing `a`, then drawing `b` with the registry
      `a` left behind; an exception in `a` means `b` is never reached. */
  lemma {:induction false} ListSplit(env: Env, a: seq<Node>, b: seq<Node>, reg: Registry, fuel: nat)
    ensures DrawList(env, a + b, reg, fuel) == Then(env, DrawList(env, a, reg, fuel), b, fuel)
    decreases |a|
  {
    if |a| == 0 {
      assert a + b == b;
      var l := DrawList(env, b, reg, fuel);
      assert [] + l.ops == l.ops;
      match l
      case Done(_, _) =>
      case Failed(_, _) =>
    } else {
      assert (a + b)[0] == a[0];
      assert (a + b)[1..] == a[1..] + b;
      match DrawElement(env, a[0], reg, fuel)
      case Failed(_, _) =>
      case Done(reg', e) =>
        ListSplit(env, a[1..], b, reg', fuel);
        var t := DrawList(env, a[1..], reg', fuel);
        match t
        case Failed(_, _) =>
        case Done(reg'', ops) =>
          var u := DrawList(env, b, reg'', fuel);
          assert e + (ops + u.ops) == (e + ops) + u.ops;
          match u
          case Done(_, _) =>
          case Failed(_, _) =>
    }
  }

  lemma SingletonList(env: Env, n: Node, reg: Registry, fuel: nat)
    ensures DrawList(env, [n], reg, fuel) == DrawElement(env, n, reg, fuel)
  {
    assert [n][1..] == [];
    var e := DrawElement(env, n, reg, fuel);
    assert e.ops + [] == e.ops;
    match e
    case Done(_, _) =>
    case Failed(_, _) =>
  }

  /** A clip path defined before its user in document order is found: the
      user draws exactly as it would with the definition registered
      beforehand. */
  lemma DefinitionBeforeUse(env: Env, def: Node, user: Node, reg: Registry, fuel: nat)
    requires def.kind == "clipPath"
    ensures DrawList(env, [def, user], reg, fuel) == DrawElement(env, user, reg[Id(def) := def.children], fuel)
  {
    assert [def, user] == [def] + [user];
    ListSplit(env, [def], [user], reg, fuel);
    SingletonList(env, def, reg, fuel);
    SingletonList(env, user, reg[Id(def) := def.children], fuel);
    var u := DrawElement(env, user, reg[Id(def) := def.children], fuel);
    assert [] + u.ops == u.ops;
    match u
    case Done(_, _) =>
    case Failed(_, _) =>
  }

  /** A clip path used before it is defined is not found: the render throws
      right after `save` and `beginPath`, and the definition is never
      reached. */
  lemma UseBeforeDefinition(env: Env, user: Node, def: Node, reg: Registry, fuel: nat)
    requires Classify(user.kind).Drawn?
    requires Truthy(GetUrlAttr(user, "clip-path")) && GetUrlAttr(user, "clip-path").value !in reg
    ensures DrawList(env, [user, def], reg, fuel)
         == Failed(UnregisteredClip(GetUrlAttr(user, "clip-path").value), [Save, BeginPath])
  {
    UnresolvedClip(env, user, reg, fuel);
  }

  lemma UnresolvedClip(env: Env, n: Node, reg: Registry, fuel: nat)
    requires Classify(n.kind).Drawn?
    requires Truthy(GetUrlAttr(n, "clip-path")) && GetUrlAttr(n, "clip-path").value !in reg
    ensures DrawElement(env, n, reg, fuel) == Failed(UnregisteredClip(GetUrlAttr(n, "clip-path").value), [Save, BeginPath])
  {
    var id := GetUrlAttr(n, "clip-path").value;
    assert ApplyClip(env, id, reg, fuel) == Failed(UnregisteredClip(id), [BeginPath]);
    assert [Save] + [BeginPath] == [Save, BeginPath];
    assert DrawAtomic(env, Classify(n.kind).func, n, reg, fuel) == Failed(UnregisteredClip(id), [Save, BeginPath]);
  }

  /** A `clipPath` inside a `defs` or `g` is registered for the whole
      document: the registration outlives the save/restore around the
      group. */
  lemma GroupedDefinition(env: Env, group: Node, def: Node, reg: Registry, fuel: nat)
    requires group.kind in {"defs", "g", "svg"} && group.children == [def]
    requires !Truthy(GetUrlAttr(group, "clip-path"))
    requires def.kind == "clipPath"
    ensures DrawElement(env, group, reg, fuel) == Done(reg[Id(def) := def.children], [Save, Restore])
  {
    SingletonList(env, def, reg, fuel);
    var reg' := reg[Id(def) := def.children];
    assert GetAttrs(group, []).clipPath == GetUrlAttr(group, "clip-path");
    assert DrawContainer(env, group, reg, fuel) == Done(reg', []);
    assert DrawBody(env, ContainerFunc, group, reg, fuel) == Done(reg', []);
    assert [Save] + [] + ([] + [Restore]) == [Save, Restore];
  }

  // ---------------------------------------------------------------------
  // Clip expansion
  // ---------------------------------------------------------------------

  /** An element that names a clip path through `clip-path` directly,
      whether it is drawn as a shape or a container. */
  predicate RefersTo(n: Node, id: string)
  {
    Classify(n.kind).Drawn? && GetUrlAttr(n, "clip-path") == Some(id) && id != ""
  }

  /** A clip path one of whose entries is clipped by the clip path itself,
      with only skipped nodes (whitespace text, titles, unsupported
      elements) before it, never finishes expanding, however much fuel is
      given: in the source the recursion is unbounded. */
  lemma {:induction false} SelfReference(env: Env, id: string, pre: seq<Node>, c: Node, post: seq<Node>,
                                         reg: Registry, fuel: nat)
    requires id in reg && reg[id] == pre + [c] + post && RefersTo(c, id)
    requires forall i :: 0 <= i < |pre| ==> Skipped(pre[i])
    ensures ApplyClip(env, id, reg, fuel).Failed?
    ensures ApplyClip(env, id, reg, fuel).error == Exhausted
    decreases fuel
  {
    if fuel > 0 {
      SelfReference(env, id, pre, c, post, reg, fuel - 1);
      ClipFailureStops(env, c, reg, fuel - 1);
      assert pre + [c] + post == pre + ([c] + post);
      SkipPrefix(env, pre, [c] + post, reg, fuel - 1);
      HeadFails(env, c, post, reg, fuel - 1);
      var l := DrawList(env, reg[id], reg, fuel - 1);
      assert l.Failed? && l.error == Exhausted;
      assert ApplyClip(env, id, reg, fuel) == Failed(l.error, [BeginPath] + l.ops);
    }
  }

  /** A node `drawElement` passes over: it draws and registers nothing. */
  predicate Skipped(n: Node)
  {
    Classify(n.kind).Inert? || Classify(n.kind).Unsupported?
  }

  /** Skipped nodes in front of a list change nothing about drawing it. */
  lemma {:induction false} SkipPrefix(env: Env, pre: seq<Node>, rest: seq<Node>, reg: Registry, fuel: nat)
    requires forall i :: 0 <= i < |pre| ==> Skipped(pre[i])
    ensures DrawList(env, pre + rest, reg, fuel) == DrawList(env, rest, reg, fuel)
    decreases |pre|
  {
    if |pre| == 0 {
      assert pre + rest == rest;
    } else {
      var l := pre + rest;
      assert l[0] == pre[0] && l[1..] == pre[1..] + rest;
      SkippedNodes(env, pre[0], reg, fuel);
      SkipPrefix(env, pre[1..], rest, reg, fuel);
      var o := DrawList(env, rest, reg, fuel);
      assert DrawList(env, l, reg, fuel) == Prepend([], o);
      assert [] + o.ops == o.ops;
    }
  }

  /** A list whose first node throws throws the same exception. */
  lemma HeadFails(env: Env, c: Node, post: seq<Node>, reg: Registry, fuel: nat)
    requires DrawElement(env, c, reg, fuel).Failed?
    ensures DrawList(env, [c] + post, reg, fuel).Failed?
    ensures DrawList(env, [c] + post, reg, fuel).error == DrawElement(env, c, reg, fuel).error
  {
    assert ([c] + post)[0] == c;
  }

  /** A drawn element whose clip throws throws the same exception. */
  lemma ClipFailureStops(env: Env, n: Node, reg: Registry, fuel: nat)
    requires Classify(n.kind).Drawn? && Truthy(GetUrlAttr(n, "clip-path"))
    requires ApplyClip(env, GetUrlAttr(n, "clip-path").value, reg, fuel).Failed?
    ensures DrawElement(env, n, reg, fuel).Failed?
    ensures DrawElement(env, n, reg, fuel).error == ApplyClip(env, GetUrlAttr(n, "clip-path").value, reg, fuel).error
  {
    assert DrawElement(env, n, reg, fuel) == DrawAtomic(env, Classify(n.kind).func, n, reg, fuel);
  }

  /** The ops a container draws when its clip expansion leaves the registry
      unchanged: the clip is applied twice, once by `drawAtomic` and once
      more by `drawContainer`, before the children. */
  lemma ContainerClipsTwice(env: Env, g: Node, reg: Registry, fuel: nat, c: seq<Op>)
    requires Classify(g.kind) == Drawn(ContainerFunc)
    requires Truthy(GetUrlAttr(g, "clip-path"))
    requires ApplyClip(env, GetUrlAttr(g, "clip-path").value, reg, fuel) == Done(reg, c)
    ensures var o := DrawElement(env, g, reg, fuel);
            var l := DrawList(env, g.children, reg, fuel);
            && (o.Done? <==> l.Done?)
            && o.ops == [Save] + c + c + l.ops + (if l.Done? then [Restore] else [])
  {
    ContainerBody(env, g, reg, fuel, c);
    assert DrawElement(env, g, reg, fuel) == DrawAtomic(env, ContainerFunc, g, reg, fuel);
    var l := DrawList(env, g.children, reg, fuel);
    assert DrawAtomic(env, ContainerFunc, g, reg, fuel) == Prepend([Save] + c, Close(Prepend(c, l)));
    ClipTwiceOps(c, l);
  }

  /** `drawContainer` after a clip that left the registry as it was: the
      clip calls, then the children. */
  lemma ContainerBody(env: Env, g: Node, reg: Registry, fuel: nat, c: seq<Op>)
    requires Truthy(GetUrlAttr(g, "clip-path"))
    requires ApplyClip(env, GetUrlAttr(g, "clip-path").value, reg, fuel) == Done(reg, c)
    ensures DrawBody(env, ContainerFunc, g, reg, fuel) == Prepend(c, DrawList(env, g.children, reg, fuel))
  {
    assert GetAttrs(g, []).clipPath == GetUrlAttr(g, "clip-path");
    assert DrawContainer(env, g, reg, fuel) == Prepend(c, DrawList(env, g.children, reg, fuel));
  }

  lemma ClipTwiceOps(c: seq<Op>, l: Outcome)
    ensures var o := Prepend([Save] + c, Close(Prepend(c, l)));
            && (o.Done? <==> l.Done?)
            && o.ops == [Save] + c + c + l.ops + (if l.Done? then [Restore] else [])
  {
    if l.Done? {
      assert [Save] + c + (c + l.ops + [Restore]) == [Save] + c + c + l.ops + [Restore];
    } else {
      assert [Save] + c + (c + l.ops) == [Save] + c + c + l.ops + [];
    }
  }

  // ---------------------------------------------------------------------
  // Fuel
  // ---------------------------------------------------------------------

  predicate RanOut(o: Outcome)
  {
    o.Failed? && o.error == Exhausted
  }

  /** Fuel adequacy: a walk that did not run out of fuel gives the same
      outcome with any larger fuel, so its result is the source's. */
  lemma {:induction false} ElementFuel(env: Env, n: Node, reg: Registry, fuel: nat, more: nat)
    requires fuel <= more
    ensures !RanOut(DrawElement(env, n, reg, fuel)) ==> DrawElement(env, n, reg, more) == DrawElement(env, n, reg, fuel)
    decreases fuel, Size(n), 3
  {
    if Classify(n.kind).Drawn? {
      AtomicFuel(env, Classify(n.kind).func, n, reg, fuel, more);
    }
  }

  lemma {:induction false} AtomicFuel(env: Env, f: DrawFunc, n: Node, reg: Registry, fuel: nat, more: nat)
    requires fuel <= more
    ensures !RanOut(DrawAtomic(env, f, n, reg, fuel)) ==> DrawAtomic(env, f, n, reg, more) == DrawAtomic(env, f, n, reg, fuel)
    decreases fuel, Size(n), 2
  {
    var ref := GetUrlAttr(n, "clip-path");
    if Truthy(ref) {
      ClipFuel(env, ref.value, reg, fuel, more);
    }
    var clipped := if Truthy(ref) then ApplyClip(env, ref.value, reg, fuel) else Done(reg, []);
    if clipped.Done? {
      BodyFuel(env, f, n, clipped.registry, fuel, more);
    }
  }

  lemma {:induction false} BodyFuel(env: Env, f: DrawFunc, n: Node, reg: Registry, fuel: nat, more: nat)
    requires fuel <= more
    ensures !RanOut(DrawBody(env, f, n, reg, fuel)) ==> DrawBody(env, f, n, reg, more) == DrawBody(env, f, n, reg, fuel)
    decreases fuel, Size(n), 1
  {
    if f.ContainerFunc? {
      ContainerFuel(env, n, reg, fuel, more);
    }
  }

  lemma {:induction false} ContainerFuel(env: Env, n: Node, reg: Registry, fuel: nat, more: nat)
    requires fuel <= more
    ensures !RanOut(DrawContainer(env, n, reg, fuel)) ==> DrawContainer(env, n, reg, more) == DrawContainer(env, n, reg, fuel)
    decreases fuel, Size(n), 0
  {
    var a := GetAttrs(n, []);
    if Truthy(a.clipPath) {
      ClipFuel(env, a.clipPath.value, reg, fuel, more);
    }
    var clipped := if Truthy(a.clipPath) then ApplyClip(env, a.clipPath.value, reg, fuel) else Done(reg, []);
    if clipped.Done? {
      ListFuel(env, n.children, clipped.registry, fuel, more);
    }
  }

  lemma {:induction false} ListFuel(env: Env, nodes: seq<Node>, reg: Registry, fuel: nat, more: nat)
    requires fuel <= more
    ensures !RanOut(DrawList(env, nodes, reg, fuel)) ==> DrawList(env, nodes, reg, more) == DrawList(env, nodes, reg, fuel)
    decreases fuel, SizeAll(nodes), 4
  {
    if |nodes| > 0 {
      ElementFuel(env, nodes[0], reg, fuel, more);
      var e := DrawElement(env, nodes[0], reg, fuel);
      if e.Done? {
        ListFuel(env, nodes[1..], e.registry, fuel, more);
      }
    }
  }

  lemma {:induction false} ClipFuel(env: Env, id: string, reg: Registry, fuel: nat, more: nat)
    requires fuel <= more
    ensures !RanOut(ApplyClip(env, id, reg, fuel)) ==> ApplyClip(env, id, reg, more) == ApplyClip(env, id, reg, fuel)
    decreases fuel, 0, 0
  {
    if id in reg && fuel > 0 {
      ListFuel(env, reg[id], reg, fuel - 1, more - 1);
    }
  }

  /** A shape without a clip reference draws the same with any fuel: fuel
      only matters where clip paths are expanded. */
  lemma {:induction false} ClipFreeNeedsNoFuel(env: Env, n: Node, reg: Registry, fuel: nat, more: nat)
    requires Classify(n.kind).Drawn? && Classify(n.kind).func.ShapeFunc?
    requires !Truthy(GetUrlAttr(n, "clip-path"))
    ensures DrawElement(env, n, reg, fuel) == DrawElement(env, n, reg, more)
  {
    var f := Classify(n.kind).func;
    assert DrawBody(env, f, n, reg, fuel) == DrawBody(env, f, n, reg, more);
    assert DrawAtomic(env, f, n, reg, fuel) == DrawAtomic(env, f, n, reg, more);
  }

  // ---------------------------------------------------------------------
  // Render
  // ---------------------------------------------------------------------

  /** The registry starts empty, so a root element that names a clip path
      throws right after its `save` and `beginPath`. */
  lemma RootClipUnresolved(env: Env, root: Node, fuel: nat)
    requires Classify(root.kind).Drawn? && Truthy(GetUrlAttr(root, "clip-path"))
    ensures Render(env, root, fuel).outcome
         == Failed(UnregisteredClip(GetUrlAttr(root, "clip-path").value), [Save, BeginPath])
  {
    UnresolvedClip(env, root, map[], fuel);
  }

  /** The canvas always gets a non-empty size, and a size is 2000 exactly
      when the root leaves it unset or empty, or sets it to "2000" itself:
      an empty attribute counts as unset. */
  lemma CanvasSize(env: Env, root: Node, fuel: nat)
    ensures var r := Render(env, root, fuel);
            var h, w := GetAttr(root, "height"), GetAttr(root, "width");
            && r.height != "" && r.width != ""
            && (r.height == "2000" <==> !Truthy(h) || h.value == "2000")
            && (r.width == "2000" <==> !Truthy(w) || w.value == "2000")
  {
  }
}
