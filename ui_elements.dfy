/**
  The widget tree of the in-game interface (cUIWidget): a percentage-of-parent
  height chain, a width derived through the aspect ratio, and a post-order
  draw that issues one screen quad per widget.

  Children are held by value, so the tree is a datatype. The parent pointer
  becomes the explicit chain of ancestors a widget is placed under, listed
  from the root down to the direct parent; a root has the empty chain.
*/
module UIElements {
  import opened Geometry
  import opened Graphics

  datatype Widget = Widget(
    focusable: bool,
    heightPercent: real,   // fraction of the parent's height (of the window's for a root)
    aspectRatio: real,     // height / width
    textureName: string,
    children: seq<Widget>)

  /** A freshly declared widget: not focusable, full height, square, no texture, no children. */
  const Default := Widget(false, 1.0, 1.0, "", [])

  /** The window size in pixels. */
  datatype Screen = Screen(width: nat, height: nat)

  predicate ValidScreen(s: Screen)
  {
    s.width > 0 && s.height > 0
  }

  function Parent(ancestors: seq<Widget>): Widget
    requires ancestors != []
  {
    ancestors[|ancestors| - 1]
  }

  function Above(ancestors: seq<Widget>): seq<Widget>
    requires ancestors != []
  {
    ancestors[..|ancestors| - 1]
  }

  // ---------------------------------------------------------------------------
  // Layout
  // ---------------------------------------------------------------------------

  /** The product of the height fractions along a chain, taken from the root down. */
  function Fraction(chain: seq<Widget>): real
  {
    if chain == [] then 1.0 else chain[0].heightPercent * Fraction(chain[1..])
  }

  lemma {:induction false} FractionSnoc(chain: seq<Widget>, w: Widget)
    ensures Fraction(chain + [w]) == Fraction(chain) * w.heightPercent
  {
    if chain != [] {
      assert (chain + [w])[1..] == chain[1..] + [w];
      FractionSnoc(chain[1..], w);
    }
  }

  /** Height in pixels, resolved through the parent chain (see HeightIsChainProduct). */
  function HeightPixels(w: Widget, ancestors: seq<Widget>, s: Screen): real
    decreases |ancestors|
  {
    if ancestors == [] then w.heightPercent * s.height as real
    else w.heightPercent * HeightPixels(Parent(ancestors), Above(ancestors), s)
  }

  /** The pixel height is the window height scaled by every fraction from the root down to the widget. */
  lemma {:induction false} HeightIsChainProduct(w: Widget, ancestors: seq<Widget>, s: Screen)
    ensures HeightPixels(w, ancestors, s) == Fraction(ancestors + [w]) * s.height as real
    decreases |ancestors|
  {
    FractionSnoc(ancestors, w);
    if ancestors != [] {
      HeightIsChainProduct(Parent(ancestors), Above(ancestors), s);
      assert Above(ancestors) + [Parent(ancestors)] == ancestors;
    }
  }

  /**
    Height as a fraction of the window; a root returns its percentage unchanged.
    Both branches agree: it is the pixel height over the window height.
  */
  function HeightScreenPercent(w: Widget, ancestors: seq<Widget>, s: Screen): (r: real)
    requires ancestors != [] ==> s.height > 0
    ensures s.height > 0 ==> r * s.height as real == HeightPixels(w, ancestors, s)
  {
    if ancestors == [] then w.heightPercent
    else
      var p := HeightPixels(Parent(ancestors), Above(ancestors), s);
      Cancel(p * w.heightPercent, s.height as real);
      p * w.heightPercent / s.height as real
  }

  /** The width in pixels: the height in pixels over the aspect ratio (height / width). */
  function WidthPixels(w: Widget, ancestors: seq<Widget>, s: Screen): (r: real)
    requires w.aspectRatio != 0.0
    ensures r * w.aspectRatio == HeightPixels(w, ancestors, s)
  {
    Cancel(HeightPixels(w, ancestors, s), w.aspectRatio);
    HeightPixels(w, ancestors, s) / w.aspectRatio
  }

  /** The width as a fraction of the window width. */
  function WidthScreenPercent(w: Widget, ancestors: seq<Widget>, s: Screen): (r: real)
    requires w.aspectRatio != 0.0 && s.width > 0
    ensures r * s.width as real == WidthPixels(w, ancestors, s)
  {
    Cancel(WidthPixels(w, ancestors, s), s.width as real);
    WidthPixels(w, ancestors, s) / s.width as real
  }

  lemma Cancel(x: real, d: real)
    requires d != 0.0
    ensures x / d * d == x
  {
  }

  predicate IsFraction(w: Widget)
  {
    0.0 <= w.heightPercent <= 1.0
  }

  /** Every height fraction of a chain is in [0, 1]. */
  predicate Fractional(chain: seq<Widget>)
  {
    forall i :: 0 <= i < |chain| ==> IsFraction(chain[i])
  }

  /** With fractions in [0, 1], a widget is between zero and the full window height. */
  lemma {:induction false} HeightWithinWindow(w: Widget, ancestors: seq<Widget>, s: Screen)
    requires Fractional(ancestors) && IsFraction(w)
    ensures 0.0 <= HeightPixels(w, ancestors, s) <= s.height as real
    decreases |ancestors|
  {
    var H := s.height as real;
    if ancestors == [] {
      FractionOf(w.heightPercent, H);
      assert HeightPixels(w, ancestors, s) == w.heightPercent * H;
    } else {
      assert IsFraction(ancestors[|ancestors| - 1]);
      var h := HeightPixels(Parent(ancestors), Above(ancestors), s);
      HeightWithinWindow(Parent(ancestors), Above(ancestors), s);
      assert 0.0 <= h <= H;
      FractionOf(w.heightPercent, h);
      assert 0.0 <= w.heightPercent * h <= h;
      assert HeightPixels(w, ancestors, s) == w.heightPercent * h;
    }
  }

  /** With fractions in [0, 1], the height percentage of the window is itself in [0, 1]. */
  lemma ScreenPercentWithin(w: Widget, ancestors: seq<Widget>, s: Screen)
    requires Fractional(ancestors) && IsFraction(w) && s.height > 0
    ensures 0.0 <= HeightScreenPercent(w, ancestors, s) <= 1.0
  {
    var r := HeightScreenPercent(w, ancestors, s);
    var part := HeightPixels(w, ancestors, s);
    HeightWithinWindow(w, ancestors, s);
    PartOfWhole(r, part, s.height as real);
  }

  lemma PartOfWhole(r: real, part: real, whole: real)
    requires 0.0 < whole && r * whole == part && 0.0 <= part <= whole
    ensures 0.0 <= r <= 1.0
  {
  }

  /** A child whose fraction is in [0, 1] is never taller than its parent. */
  lemma ChildNotTaller(child: Widget, ancestors: seq<Widget>, s: Screen)
    requires ancestors != [] && Fractional(ancestors) && IsFraction(child)
    ensures 0.0 <= HeightPixels(child, ancestors, s) <= HeightPixels(Parent(ancestors), Above(ancestors), s)
  {
    assert IsFraction(ancestors[|ancestors| - 1]);
    var h := HeightPixels(Parent(ancestors), Above(ancestors), s);
    HeightWithinWindow(Parent(ancestors), Above(ancestors), s);
    assert HeightPixels(child, ancestors, s) == child.heightPercent * h;
    FractionOf(child.heightPercent, h);
    assert 0.0 <= child.heightPercent * h <= h;
    assert 0.0 <= HeightPixels(child, ancestors, s);
    assert HeightPixels(child, ancestors, s) <= h;
  }

  /** A default root fills the window height and is as wide as it is tall. */
  lemma DefaultRootFillsWindow(s: Screen)
    ensures HeightPixels(Default, [], s) == s.height as real
    ensures HeightScreenPercent(Default, [], s) == 1.0
    ensures WidthPixels(Default, [], s) == s.height as real
    ensures !Default.focusable && Default.children == []
  {
  }

  /** Layout reads only the height fractions: two chains that agree on them resolve to the same height. */
  lemma {:induction false} HeightOnlyReadsFractions(w: Widget, ancestors: seq<Widget>, w': Widget, ancestors': seq<Widget>, s: Screen)
    requires w.heightPercent == w'.heightPercent && |ancestors| == |ancestors'|
    requires forall i :: 0 <= i < |ancestors| ==> ancestors[i].heightPercent == ancestors'[i].heightPercent
    ensures HeightPixels(w, ancestors, s) == HeightPixels(w', ancestors', s)
    decreases |ancestors|
  {
    if ancestors != [] {
      HeightOnlyReadsFractions(Parent(ancestors), Above(ancestors), Parent(ancestors'), Above(ancestors'), s);
    }
  }

  // ---------------------------------------------------------------------------
  // Attaching a child
  // ---------------------------------------------------------------------------

  /** The widget after attaching newChild: a copy of it becomes the last child; nothing else changes. */
  function AddChild(w: Widget, newChild: Widget): (r: Widget)
    ensures |r.children| == |w.children| + 1 && r.children[|w.children|] == newChild
    ensures r.children[..|w.children|] == w.children
    ensures r.(children := w.children) == w
  {
    w.(children := w.children + [newChild])
  }

  // ---------------------------------------------------------------------------
  // Drawing
  // ---------------------------------------------------------------------------

  /** A widget together with the chain it is placed under. */
  datatype Placed = Placed(widget: Widget, ancestors: seq<Widget>)

  /** Children first, in order and each with its own subtree, then the widget itself. */
  function PostOrder(w: Widget, ancestors: seq<Widget>): seq<Placed>
    decreases w, 1
  {
    PostOrderAll(w.children, ancestors + [w]) + [Placed(w, ancestors)]
  }

  function PostOrderAll(cs: seq<Widget>, ancestors: seq<Widget>): seq<Placed>
    decreases cs, 0
  {
    if cs == [] then [] else PostOrderAll(cs[..|cs| - 1], ancestors) + PostOrder(cs[|cs| - 1], ancestors)
  }

  /** The quad of one widget: program, texture, size uniforms, then six indices of the shared quad. */
  function QuadCommands(p: Placed, s: Screen, quadVAO: nat): seq<Command>
    requires ValidScreen(s) && p.widget.aspectRatio != 0.0
  {
    [UseProgram(Debug),
     SetupTexture(p.widget.textureName),
     SetFloat(WidthPercent, WidthScreenPercent(p.widget, p.ancestors, s)),
     SetFloat(HeightPercent, HeightScreenPercent(p.widget, p.ancestors, s)),
     BindVertexArray(quadVAO),
     DrawElements(6),
     BindVertexArray(0)]
  }

  predicate AllProportioned(ps: seq<Placed>)
  {
    forall k :: 0 <= k < |ps| ==> ps[k].widget.aspectRatio != 0.0
  }

  function DrawCommands(ps: seq<Placed>, s: Screen, quadVAO: nat): seq<Command>
    requires ValidScreen(s) && AllProportioned(ps)
  {
    if ps == [] then [] else DrawCommands(ps[..|ps| - 1], s, quadVAO) + QuadCommands(ps[|ps| - 1], s, quadVAO)
  }

  lemma {:induction false} DrawCommandsConcat(a: seq<Placed>, b: seq<Placed>, s: Screen, quadVAO: nat)
    requires ValidScreen(s) && AllProportioned(a) && AllProportioned(b)
    ensures AllProportioned(a + b)
    ensures DrawCommands(a + b, s, quadVAO) == DrawCommands(a, s, quadVAO) + DrawCommands(b, s, quadVAO)
    decreases |b|
  {
    if b == [] {
      assert a + b == a;
    } else {
      var b' := b[..|b| - 1];
      assert (a + b)[..|a + b| - 1] == a + b';
      DrawCommandsConcat(a, b', s, quadVAO);
    }
  }

  /** Child k's traversal comes after those of the children before it and before those of the children after it,
      and the widget itself comes last. */
  lemma PostOrderBlocks(w: Widget, ancestors: seq<Widget>)
    ensures forall k :: 0 <= k < |w.children| ==>
              PostOrder(w, ancestors)
                == PostOrderAll(w.children[..k], ancestors + [w]) + PostOrder(w.children[k], ancestors + [w])
                   + PostOrderAll(w.children[k + 1..], ancestors + [w]) + [Placed(w, ancestors)]
  {
    var cs := w.children;
    forall k | 0 <= k < |cs|
      ensures PostOrder(w, ancestors)
                == PostOrderAll(cs[..k], ancestors + [w]) + PostOrder(cs[k], ancestors + [w])
                   + PostOrderAll(cs[k + 1..], ancestors + [w]) + [Placed(w, ancestors)]
    {
      assert cs == cs[..k] + [cs[k]] + cs[k + 1..];
      PostOrderAllConcat(cs[..k] + [cs[k]], cs[k + 1..], ancestors + [w]);
      PostOrderAllConcat(cs[..k], [cs[k]], ancestors + [w]);
      assert [cs[k]][..0] == [];
    }
  }

  /** Traversing a concatenation of sibling lists traverses each list in turn. */
  lemma {:induction false} PostOrderAllConcat(a: seq<Widget>, b: seq<Widget>, ancestors: seq<Widget>)
    ensures PostOrderAll(a + b, ancestors) == PostOrderAll(a, ancestors) + PostOrderAll(b, ancestors)
    decreases |b|
  {
    if b == [] {
      assert a + b == a;
    } else {
      var b' := b[..|b| - 1];
      var c := b[|b| - 1];
      assert (a + b)[..|a + b| - 1] == a + b';
      assert (a + b)[|a + b| - 1] == c;
      PostOrderAllConcat(a, b', ancestors);
      assert PostOrderAll(a + b, ancestors) == PostOrderAll(a + b', ancestors) + PostOrder(c, ancestors);
      assert PostOrderAll(b, ancestors) == PostOrderAll(b', ancestors) + PostOrder(c, ancestors);
    }
  }

  /** Attaching a child keeps the layout of the widget and of its earlier children, sizes the new child against
      the widget, and draws the new child's subtree after every earlier child and before the widget itself. */
  lemma AddChildPlacesLast(w: Widget, newChild: Widget, ancestors: seq<Widget>, s: Screen)
    ensures HeightPixels(AddChild(w, newChild), ancestors, s) == HeightPixels(w, ancestors, s)
    ensures HeightPixels(newChild, ancestors + [AddChild(w, newChild)], s)
              == newChild.heightPercent * HeightPixels(w, ancestors, s)
    ensures forall k :: 0 <= k < |w.children| ==>
              HeightPixels(w.children[k], ancestors + [AddChild(w, newChild)], s)
                == HeightPixels(w.children[k], ancestors + [w], s)
    ensures PostOrder(AddChild(w, newChild), ancestors)
              == PostOrderAll(w.children, ancestors + [AddChild(w, newChild)])
                 + PostOrder(newChild, ancestors + [AddChild(w, newChild)])
                 + [Placed(AddChild(w, newChild), ancestors)]
  {
    var r := AddChild(w, newChild);
    assert Above(ancestors + [r]) == ancestors;
    assert Above(ancestors + [w]) == ancestors;
    assert r.children[..|r.children| - 1] == w.children;
  }

  /** The state in which one widget's quad is drawn: the debug program, the shared quad, its own texture
      and its own size. */
  predicate QuadState(g: GlState, p: Placed, s: Screen, quadVAO: nat)
    requires ValidScreen(s) && p.widget.aspectRatio != 0.0
  {
    g.program == Debug && g.vao == quadVAO && g.texture2D == p.widget.textureName &&
    WidthPercent in g.floats && g.floats[WidthPercent] == WidthScreenPercent(p.widget, p.ancestors, s) &&
    HeightPercent in g.floats && g.floats[HeightPercent] == HeightScreenPercent(p.widget, p.ancestors, s)
  }

  /** The draws d are six-index quads, one per placed widget in order, each issued in its widget's own state. */
  predicate QuadsMatch(d: seq<Issued>, ps: seq<Placed>, s: Screen, quadVAO: nat)
    requires ValidScreen(s) && AllProportioned(ps)
  {
    |d| == |ps| &&
    forall k :: 0 <= k < |ps| ==> d[k].command == DrawElements(6) && QuadState(d[k].state, ps[k], s, quadVAO)
  }

  lemma QuadsMatchSnoc(d: seq<Issued>, ps: seq<Placed>, x: Issued, p: Placed, s: Screen, quadVAO: nat)
    requires ValidScreen(s) && AllProportioned(ps) && p.widget.aspectRatio != 0.0
    requires QuadsMatch(d, ps, s, quadVAO)
    requires x.command == DrawElements(6) && QuadState(x.state, p, s, quadVAO)
    ensures AllProportioned(ps + [p]) && QuadsMatch(d + [x], ps + [p], s, quadVAO)
  {
    assert forall k :: 0 <= k < |ps| ==> (ps + [p])[k] == ps[k] && (d + [x])[k] == d[k];
  }

  /** From any starting state, the k-th draw of the sequence is the six-index quad of the k-th placed widget,
      issued in that widget's own state. */
  lemma {:induction false} QuadsFollowOrder(st: GlState, ps: seq<Placed>, s: Screen, quadVAO: nat)
    requires ValidScreen(s) && AllProportioned(ps)
    ensures QuadsMatch(DrawsIssued(st, DrawCommands(ps, s, quadVAO)), ps, s, quadVAO)
    decreases |ps|
  {
    if ps != [] {
      var init := ps[..|ps| - 1];
      var p := ps[|ps| - 1];
      assert init + [p] == ps;
      QuadsFollowOrder(st, init, s, quadVAO);
      var before := DrawCommands(init, s, quadVAO);
      DrawsIssuedConcat(st, before, QuadCommands(p, s, quadVAO));
      OneQuad(Run(st, before), p, s, quadVAO);
      var q := DrawsIssued(Run(st, before), QuadCommands(p, s, quadVAO));
      assert q == [q[0]];
      QuadsMatchSnoc(DrawsIssued(st, before), init, q[0], p, s, quadVAO);
    }
  }

  lemma OneQuad(st: GlState, p: Placed, s: Screen, quadVAO: nat)
    requires ValidScreen(s) && p.widget.aspectRatio != 0.0
    ensures |DrawsIssued(st, QuadCommands(p, s, quadVAO))| == 1
    ensures DrawsIssued(st, QuadCommands(p, s, quadVAO))[0].command == DrawElements(6)
    ensures QuadState(DrawsIssued(st, QuadCommands(p, s, quadVAO))[0].state, p, s, quadVAO)
  {
    var width := WidthScreenPercent(p.widget, p.ancestors, s);
    var height := HeightScreenPercent(p.widget, p.ancestors, s);
    var q1 := [UseProgram(Debug)];
    var q2 := q1 + [SetupTexture(p.widget.textureName)];
    var q3 := q2 + [SetFloat(WidthPercent, width)];
    var q4 := q3 + [SetFloat(HeightPercent, height)];
    var q5 := q4 + [BindVertexArray(quadVAO)];
    var q6 := q5 + [DrawElements(6)];
    assert QuadCommands(p, s, quadVAO) == q6 + [BindVertexArray(0)];
    RunSnoc(st, [], UseProgram(Debug));
    assert [] + [UseProgram(Debug)] == q1;
    RunSnoc(st, q1, SetupTexture(p.widget.textureName));
    RunSnoc(st, q2, SetFloat(WidthPercent, width));
    RunSnoc(st, q3, SetFloat(HeightPercent, height));
    RunSnoc(st, q4, BindVertexArray(quadVAO));
    NoDraws(st, q5);
    DrawsIssuedSnoc(st, q5, DrawElements(6));
    DrawsIssuedSnoc(st, q6, BindVertexArray(0));
  }

  /** The widget's own quad, drawn after its children. */
  method DrawQuad(device: Device, here: Placed, s: Screen, quadVAO: nat)
    requires ValidScreen(s) && here.widget.aspectRatio != 0.0
    modifies device
    ensures device.log == old(device.log) + QuadCommands(here, s, quadVAO)
  {
    var height := HeightScreenPercent(here.widget, here.ancestors, s);
    var width := WidthScreenPercent(here.widget, here.ancestors, s);
    device.Issue(UseProgram(Debug));
    device.Issue(SetupTexture(here.widget.textureName));
    device.Issue(SetFloat(WidthPercent, width));
    device.Issue(SetFloat(HeightPercent, height));
    device.Issue(BindVertexArray(quadVAO));
    device.Issue(DrawElements(6));
    device.Issue(BindVertexArray(0));
  }

  /** Every widget of the subtree has a non-zero aspect ratio, so its width is defined. */
  predicate Proportioned(w: Widget)
    decreases w
  {
    w.aspectRatio != 0.0 && forall i :: 0 <= i < |w.children| ==> Proportioned(w.children[i])
  }

  /** What drawing a subtree issues, following the recursion of the draw itself. */
  function DrawTree(w: Widget, ancestors: seq<Widget>, s: Screen, quadVAO: nat): seq<Command>
    requires ValidScreen(s) && Proportioned(w)
    decreases w, 1
  {
    DrawForest(w.children, ancestors + [w], s, quadVAO) + QuadCommands(Placed(w, ancestors), s, quadVAO)
  }

  function DrawForest(cs: seq<Widget>, ancestors: seq<Widget>, s: Screen, quadVAO: nat): seq<Command>
    requires ValidScreen(s) && forall i :: 0 <= i < |cs| ==> Proportioned(cs[i])
    decreases cs, 0
  {
    if cs == [] then []
    else DrawForest(cs[..|cs| - 1], ancestors, s, quadVAO) + DrawTree(cs[|cs| - 1], ancestors, s, quadVAO)
  }

  /** Drawing a subtree issues the quads of its post-order traversal, one after the other. */
  lemma {:induction false} DrawTreeIsPostOrder(w: Widget, ancestors: seq<Widget>, s: Screen, quadVAO: nat)
    requires ValidScreen(s) && Proportioned(w)
    ensures AllProportioned(PostOrder(w, ancestors))
    ensures DrawTree(w, ancestors, s, quadVAO) == DrawCommands(PostOrder(w, ancestors), s, quadVAO)
    decreases w, 1
  {
    var here := Placed(w, ancestors);
    DrawForestIsPostOrder(w.children, ancestors + [w], s, quadVAO);
    assert AllProportioned([here]);
    DrawCommandsConcat(PostOrderAll(w.children, ancestors + [w]), [here], s, quadVAO);
    assert DrawCommands([here], s, quadVAO) == QuadCommands(here, s, quadVAO);
  }

  lemma {:induction false} DrawForestIsPostOrder(cs: seq<Widget>, ancestors: seq<Widget>, s: Screen, quadVAO: nat)
    requires ValidScreen(s) && forall i :: 0 <= i < |cs| ==> Proportioned(cs[i])
    ensures AllProportioned(PostOrderAll(cs, ancestors))
    ensures DrawForest(cs, ancestors, s, quadVAO) == DrawCommands(PostOrderAll(cs, ancestors), s, quadVAO)
    decreases cs, 0
  {
    if cs != [] {
      var init := cs[..|cs| - 1];
      var last := cs[|cs| - 1];
      DrawForestIsPostOrder(init, ancestors, s, quadVAO);
      DrawTreeIsPostOrder(last, ancestors, s, quadVAO);
      DrawCommandsConcat(PostOrderAll(init, ancestors), PostOrder(last, ancestors), s, quadVAO);
    }
  }

  /** Drawing a subtree from any context state issues one six-index quad per widget of its post-order traversal,
      in that order, each in its own widget's program, texture and size. */
  lemma DrawTreeQuads(st: GlState, w: Widget, ancestors: seq<Widget>, s: Screen, quadVAO: nat)
    requires ValidScreen(s) && Proportioned(w)
    ensures AllProportioned(PostOrder(w, ancestors))
    ensures QuadsMatch(DrawsIssued(st, DrawTree(w, ancestors, s, quadVAO)), PostOrder(w, ancestors), s, quadVAO)
  {
    DrawTreeIsPostOrder(w, ancestors, s, quadVAO);
    QuadsFollowOrder(st, PostOrder(w, ancestors), s, quadVAO);
  }

  /** Draws the widget's subtree: every child, in order and recursively, then the widget's own quad. */
  method DrawWidget(device: Device, w: Widget, ancestors: seq<Widget>, s: Screen, quadVAO: nat)
    requires ValidScreen(s) && Proportioned(w)
    modifies device
    ensures device.log == old(device.log) + DrawTree(w, ancestors, s, quadVAO)
    decreases w
  {
    var cs := w.children;
    var inner := ancestors + [w];
    assert cs[..0] == [];
    var i := 0;
    while i < |cs|
      invariant 0 <= i <= |cs|
      invariant device.log == old(device.log) + DrawForest(cs[..i], inner, s, quadVAO)
    {
      assert cs[..i + 1][..i] == cs[..i];
      DrawWidget(device, cs[i], inner, s, quadVAO);
      i := i + 1;
    }
    assert cs[..i] == cs;
    DrawQuad(device, Placed(w, ancestors), s, quadVAO);
  }
}
