/**
  The graphics device as the engine drives it: an ordered log of abstract
  commands, and the part of the GL context state those commands change.
  Uniform values other than floats, vertex-attribute layout and buffer
  contents are not part of the state.
*/
module Graphics {
  import opened Geometry

  datatype DepthTest = Less | LessOrEqual

  /** The shader programs the core selects by name ("scene", "skybox", "debug"). */
  datatype Program = Scene | Skybox | Debug

  /** The uniforms the core sets, by their names in the shaders. */
  datatype Uniform =
    | Projection | View
    | ModelPosition | ModelOrientationX | ModelOrientationY | ModelOrientationZ | ModelScale
    | UseWholeColor | WholeColor
    | WidthPercent | HeightPercent

  /** The matrices the engine uploads, kept symbolic. */
  datatype Matrix =
    | Perspective               // the camera's perspective projection for the window
    | CameraView
    | CameraRotation            // the view matrix with its translation removed
    | RotationX(angle: real)
    | RotationY(angle: real)
    | RotationZ(angle: real)
    | Scaling(factor: Vec3)

  datatype Command =
    | UseProgram(program: Program)
    | SetLightUniforms
    | SetMat4(uniform: Uniform, matrix: Matrix)
    | SetVec3(uniform: Uniform, vec3: Vec3)
    | SetVec4(uniform: Uniform, vec4: Vec4)
    | SetBool(uniform: Uniform, flag: bool)
    | SetFloat(uniform: Uniform, value: real)
    | SetupTexture(texture: string)
    | BindVertexArray(vao: nat)
    | BindArrayBuffer(buffer: nat)
    | EnableOffsetAttribute      // "oOffset": enabled, 4 floats, divisor 1
    | ActiveTexture(unit: nat)
    | BindCubemap(cubemap: nat)
    | DrawElements(count: nat)
    | DrawElementsInstanced(count: nat, instances: nat)
    | DrawArrays(count: nat)
    | DepthFunc(test: DepthTest)

  predicate IsDraw(c: Command)
  {
    c.DrawElements? || c.DrawElementsInstanced? || c.DrawArrays?
  }

  datatype GlState = GlState(
    program: Program,
    vao: nat,
    arrayBuffer: nat,
    texture2D: string,
    cubemap: nat,
    depth: DepthTest,
    floats: map<Uniform, real>)

  /** What one command does to the context state: each piece of state changes only under its own command. */
  function Apply(st: GlState, c: Command): GlState
  {
    GlState(
      program := if c.UseProgram? then c.program else st.program,
      vao := if c.BindVertexArray? then c.vao else st.vao,
      arrayBuffer := if c.BindArrayBuffer? then c.buffer else st.arrayBuffer,
      texture2D := if c.SetupTexture? then c.texture else st.texture2D,
      cubemap := if c.BindCubemap? then c.cubemap else st.cubemap,
      depth := if c.DepthFunc? then c.test else st.depth,
      floats := if c.SetFloat? then st.floats[c.uniform := c.value] else st.floats)
  }

  /** The state after issuing cmds, in order, from st. */
  function Run(st: GlState, cmds: seq<Command>): GlState
  {
    if cmds == [] then st else Apply(Run(st, cmds[..|cmds| - 1]), cmds[|cmds| - 1])
  }

  /** A draw call together with the context state it was issued in. */
  datatype Issued = Issued(state: GlState, command: Command)

  /** The draw calls of cmds, in order, each with the state in effect when it was issued. */
  function DrawsIssued(st: GlState, cmds: seq<Command>): (r: seq<Issued>)
    ensures |r| <= |cmds|
    ensures forall k :: 0 <= k < |r| ==> IsDraw(r[k].command)
  {
    if cmds == [] then []
    else
      var init := cmds[..|cmds| - 1];
      var last := cmds[|cmds| - 1];
      DrawsIssued(st, init) + (if IsDraw(last) then [Issued(Run(st, init), last)] else [])
  }

  /** Issuing one more command takes the state one Apply step further. */
  lemma RunSnoc(st: GlState, a: seq<Command>, c: Command)
    ensures Run(st, a + [c]) == Apply(Run(st, a), c)
  {
    assert (a + [c])[..|a + [c]| - 1] == a;
  }

  /** Issuing one more command records it, in the state before it, exactly when it is a draw. */
  lemma DrawsIssuedSnoc(st: GlState, a: seq<Command>, c: Command)
    ensures DrawsIssued(st, a + [c]) == DrawsIssued(st, a) + (if IsDraw(c) then [Issued(Run(st, a), c)] else [])
  {
    assert (a + [c])[..|a + [c]| - 1] == a;
  }

  /** Commands none of which is a draw issue no draw. */
  lemma {:induction false} NoDraws(st: GlState, cmds: seq<Command>)
    requires forall c :: c in cmds ==> !IsDraw(c)
    ensures DrawsIssued(st, cmds) == []
    decreases |cmds|
  {
    if cmds != [] {
      assert cmds[|cmds| - 1] in cmds;
      assert forall c :: c in cmds[..|cmds| - 1] ==> c in cmds;
      NoDraws(st, cmds[..|cmds| - 1]);
    }
  }

  lemma {:induction false} RunConcat(st: GlState, a: seq<Command>, b: seq<Command>)
    ensures Run(st, a + b) == Run(Run(st, a), b)
    decreases |b|
  {
    if b == [] {
      assert a + b == a;
    } else {
      var b' := b[..|b| - 1];
      assert (a + b)[..|a + b| - 1] == a + b';
      RunConcat(st, a, b');
    }
  }

  lemma {:induction false} DrawsIssuedConcat(st: GlState, a: seq<Command>, b: seq<Command>)
    ensures DrawsIssued(st, a + b) == DrawsIssued(st, a) + DrawsIssued(Run(st, a), b)
    decreases |b|
  {
    if b == [] {
      assert a + b == a;
    } else {
      var b' := b[..|b| - 1];
      assert (a + b)[..|a + b| - 1] == a + b';
      DrawsIssuedConcat(st, a, b');
      RunConcat(st, a, b');
    }
  }

  /** Neither a program switch nor a depth-function change. */
  predicate KeepsProgramAndDepth(c: Command)
  {
    !c.UseProgram? && !c.DepthFunc?
  }

  /** Commands that switch neither program nor depth function leave both as they were, and every draw among
      them is issued under the starting program and depth function. */
  lemma {:induction false} ProgramAndDepthKept(st: GlState, cmds: seq<Command>)
    requires forall k :: 0 <= k < |cmds| ==> KeepsProgramAndDepth(cmds[k])
    ensures Run(st, cmds).program == st.program && Run(st, cmds).depth == st.depth
    ensures forall k :: 0 <= k < |DrawsIssued(st, cmds)| ==>
              DrawsIssued(st, cmds)[k].state.program == st.program && DrawsIssued(st, cmds)[k].state.depth == st.depth
    decreases |cmds|
  {
    if cmds != [] {
      var init := cmds[..|cmds| - 1];
      assert forall k :: 0 <= k < |init| ==> init[k] == cmds[k];
      ProgramAndDepthKept(st, init);
    }
  }

  /** The GL context as seen by the engine: every call it makes, in order. */
  class Device {
    var log: seq<Command>

    constructor ()
      ensures log == []
    {
      log := [];
    }

    method Issue(c: Command)
      modifies this
      ensures log == old(log) + [c]
    {
      log := log + [c];
    }
  }
}
