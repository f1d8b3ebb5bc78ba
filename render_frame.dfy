/**
  The regular render pass of one frame: every scene model through DrawObject,
  then the skybox under a relaxed depth test that is restored afterwards.

  The mesh cache of the model manager is a map from mesh name to the
  description of its sub-meshes; FindModelByName succeeds exactly when the
  name is a key. The camera and light managers are reduced to the commands
  that upload their values.
*/
module Frame {
  import opened Geometry
  import opened Graphics

  /** One entry of a mesh's allMeshesData. */
  datatype SubMesh = SubMesh(textureName: string, vao: nat, numberOfIndices: nat)

  /** What the model manager holds for a loaded mesh. */
  datatype DrawInfo = DrawInfo(allMeshesData: seq<SubMesh>)

  /** The fields of a scene model that DrawObject reads. */
  datatype Model = Model(
    meshName: string,
    position: Vec3,
    orientation: Vec3,          // rotation angles about x, y and z
    scale: Vec3,
    useWholeColor: bool,
    wholeColor: Vec4,
    textureName: string,        // "" means: use each sub-mesh's own texture
    isInstanced: bool,
    instanceOffsetsBufferId: nat,
    instancedNum: nat)

  /** The per-model uniforms, uploaded once before the sub-meshes. */
  function ModelUniforms(m: Model): seq<Command>
  {
    [SetVec3(ModelPosition, m.position),
     SetMat4(ModelOrientationX, RotationX(m.orientation.x)),
     SetMat4(ModelOrientationY, RotationY(m.orientation.y)),
     SetMat4(ModelOrientationZ, RotationZ(m.orientation.z)),
     SetMat4(ModelScale, Scaling(m.scale)),
     SetBool(UseWholeColor, m.useWholeColor),
     SetVec4(WholeColor, m.wholeColor)]
  }

  /** The texture of one sub-mesh: the model's override when it has one. */
  function TextureToUse(m: Model, sub: SubMesh): string
  {
    if m.textureName == "" then sub.textureName else m.textureName
  }

  /** The buffer the per-instance offsets are read from. */
  function OffsetBuffer(m: Model, notInstancedOffsetBufferId: nat): nat
  {
    if m.isInstanced then m.instanceOffsetsBufferId else notInstancedOffsetBufferId
  }

  function SubMeshDraw(m: Model, sub: SubMesh): Command
  {
    if m.isInstanced then DrawElementsInstanced(sub.numberOfIndices, m.instancedNum)
    else DrawElements(sub.numberOfIndices)
  }

  /** Before the draw of a sub-mesh: its texture, its vertex array, and the offset attribute from the right buffer. */
  function SubMeshSetup(m: Model, sub: SubMesh, notInstancedOffsetBufferId: nat): seq<Command>
  {
    [SetupTexture(TextureToUse(m, sub)),
     BindVertexArray(sub.vao),
     BindArrayBuffer(OffsetBuffer(m, notInstancedOffsetBufferId)),
     EnableOffsetAttribute]
  }

  /** One sub-mesh: set up, draw, unbind the vertex array. */
  function SubMeshCommands(m: Model, sub: SubMesh, notInstancedOffsetBufferId: nat): seq<Command>
  {
    SubMeshSetup(m, sub, notInstancedOffsetBufferId) + [SubMeshDraw(m, sub), BindVertexArray(0)]
  }

  /** What DrawObject issues for a loaded model once the sub-meshes subs are drawn: the uniforms, then each
      sub-mesh in order. */
  function LoadedObjectCommands(m: Model, subs: seq<SubMesh>, notInstancedOffsetBufferId: nat): seq<Command>
  {
    if subs == [] then ModelUniforms(m)
    else LoadedObjectCommands(m, subs[..|subs| - 1], notInstancedOffsetBufferId)
         + SubMeshCommands(m, subs[|subs| - 1], notInstancedOffsetBufferId)
  }

  lemma LoadedObjectCommandsStep(log: seq<Command>, m: Model, subs: seq<SubMesh>, i: nat, notInstancedOffsetBufferId: nat)
    requires i < |subs|
    ensures log + LoadedObjectCommands(m, subs[..i + 1], notInstancedOffsetBufferId)
            == log + LoadedObjectCommands(m, subs[..i], notInstancedOffsetBufferId) + SubMeshCommands(m, subs[i], notInstancedOffsetBufferId)
  {
    assert subs[..i + 1][..i] == subs[..i];
  }

  /** Everything DrawObject issues for one model: nothing at all when its mesh is not loaded. */
  function ObjectCommands(m: Model, meshes: map<string, DrawInfo>, notInstancedOffsetBufferId: nat): seq<Command>
  {
    if m.meshName !in meshes then []
    else LoadedObjectCommands(m, meshes[m.meshName].allMeshesData, notInstancedOffsetBufferId)
  }

  /** Draws one model: its uniforms, then one bind-draw-unbind per sub-mesh, in order. */
  method DrawObject(device: Device, m: Model, meshes: map<string, DrawInfo>, notInstancedOffsetBufferId: nat)
    modifies device
    ensures device.log == old(device.log) + ObjectCommands(m, meshes, notInstancedOffsetBufferId)
  {
    if m.meshName in meshes {
      var drawInfo := meshes[m.meshName];
      ghost var start := device.log;
      SetModelUniforms(device, m);
      var subs := drawInfo.allMeshesData;
      var i := 0;
      while i < |subs|
        invariant 0 <= i <= |subs|
        invariant device.log == start + LoadedObjectCommands(m, subs[..i], notInstancedOffsetBufferId)
      {
        LoadedObjectCommandsStep(start, m, subs, i, notInstancedOffsetBufferId);
        DrawSubMesh(device, m, subs[i], notInstancedOffsetBufferId);
        i := i + 1;
      }
      assert subs[..i] == subs;
    }
  }

  method SetModelUniforms(device: Device, m: Model)
    modifies device
    ensures device.log == old(device.log) + ModelUniforms(m)
  {
    device.Issue(SetVec3(ModelPosition, m.position));
    device.Issue(SetMat4(ModelOrientationX, RotationX(m.orientation.x)));
    device.Issue(SetMat4(ModelOrientationY, RotationY(m.orientation.y)));
    device.Issue(SetMat4(ModelOrientationZ, RotationZ(m.orientation.z)));
    device.Issue(SetMat4(ModelScale, Scaling(m.scale)));
    device.Issue(SetBool(UseWholeColor, m.useWholeColor));
    device.Issue(SetVec4(WholeColor, m.wholeColor));
  }

  /** One sub-mesh: its texture, its vertex array, the offset attribute, one indexed draw, then unbind. */
  method DrawSubMesh(device: Device, m: Model, sub: SubMesh, notInstancedOffsetBufferId: nat)
    modifies device
    ensures device.log == old(device.log) + SubMeshCommands(m, sub, notInstancedOffsetBufferId)
  {
    var textureToUse: string;
    if m.textureName == "" {
      textureToUse := sub.textureName;
    } else {
      textureToUse := m.textureName;
    }
    device.Issue(SetupTexture(textureToUse));
    device.Issue(BindVertexArray(sub.vao));
    if m.isInstanced {
      device.Issue(BindArrayBuffer(m.instanceOffsetsBufferId));
      device.Issue(EnableOffsetAttribute);
      device.Issue(DrawElementsInstanced(sub.numberOfIndices, m.instancedNum));
    } else {
      device.Issue(BindArrayBuffer(notInstancedOffsetBufferId));
      device.Issue(EnableOffsetAttribute);
      device.Issue(DrawElements(sub.numberOfIndices));
    }
    device.Issue(BindVertexArray(0));
  }

  /** The draw of sub-mesh sub, issued in state g: the right texture, vertex array and offset buffer, and the
      instanced or plain indexed draw of all of its indices. */
  predicate SubMeshDrawn(d: Issued, m: Model, sub: SubMesh, notInstancedOffsetBufferId: nat)
  {
    d.state.texture2D == (if m.textureName == "" then sub.textureName else m.textureName) &&
    d.state.vao == sub.vao &&
    d.state.arrayBuffer == (if m.isInstanced then m.instanceOffsetsBufferId else notInstancedOffsetBufferId) &&
    d.command == (if m.isInstanced then DrawElementsInstanced(sub.numberOfIndices, m.instancedNum)
                  else DrawElements(sub.numberOfIndices))
  }

  /** The draws d are exactly one per sub-mesh, in order, each drawn as SubMeshDrawn says. */
  predicate SubMeshesDrawn(d: seq<Issued>, m: Model, subs: seq<SubMesh>, notInstancedOffsetBufferId: nat)
  {
    |d| == |subs| && forall i :: 0 <= i < |subs| ==> SubMeshDrawn(d[i], m, subs[i], notInstancedOffsetBufferId)
  }

  /** The set-up of a sub-mesh draws nothing and binds its texture, vertex array and offset buffer. */
  lemma SubMeshSetupRuns(st: GlState, m: Model, sub: SubMesh, notInstancedOffsetBufferId: nat)
    ensures Run(st, SubMeshSetup(m, sub, notInstancedOffsetBufferId))
              == st.(texture2D := TextureToUse(m, sub), vao := sub.vao,
                     arrayBuffer := OffsetBuffer(m, notInstancedOffsetBufferId))
    ensures DrawsIssued(st, SubMeshSetup(m, sub, notInstancedOffsetBufferId)) == []
  {
    assert Run(st, SubMeshSetup(m, sub, notInstancedOffsetBufferId))
             == st.(texture2D := TextureToUse(m, sub), vao := sub.vao,
                    arrayBuffer := OffsetBuffer(m, notInstancedOffsetBufferId)) by {
      var q1 := [SetupTexture(TextureToUse(m, sub))];
      var q2 := q1 + [BindVertexArray(sub.vao)];
      var q3 := q2 + [BindArrayBuffer(OffsetBuffer(m, notInstancedOffsetBufferId))];
      assert SubMeshSetup(m, sub, notInstancedOffsetBufferId) == q3 + [EnableOffsetAttribute];
      RunSnoc(st, [], SetupTexture(TextureToUse(m, sub)));
      assert [] + [SetupTexture(TextureToUse(m, sub))] == q1;
      RunSnoc(st, q1, BindVertexArray(sub.vao));
      RunSnoc(st, q2, BindArrayBuffer(OffsetBuffer(m, notInstancedOffsetBufferId)));
      RunSnoc(st, q3, EnableOffsetAttribute);
    }
    NoDraws(st, SubMeshSetup(m, sub, notInstancedOffsetBufferId));
  }

  /** One sub-mesh is exactly one draw, issued as SubMeshDrawn says, and leaves no vertex array bound. */
  lemma OneSubMesh(st: GlState, m: Model, sub: SubMesh, notInstancedOffsetBufferId: nat)
    ensures Run(st, SubMeshCommands(m, sub, notInstancedOffsetBufferId)).vao == 0
    ensures |DrawsIssued(st, SubMeshCommands(m, sub, notInstancedOffsetBufferId))| == 1
    ensures SubMeshDrawn(DrawsIssued(st, SubMeshCommands(m, sub, notInstancedOffsetBufferId))[0], m, sub,
                         notInstancedOffsetBufferId)
  {
    var setup := SubMeshSetup(m, sub, notInstancedOffsetBufferId);
    var d := setup + [SubMeshDraw(m, sub)];
    assert SubMeshCommands(m, sub, notInstancedOffsetBufferId) == d + [BindVertexArray(0)];
    SubMeshSetupRuns(st, m, sub, notInstancedOffsetBufferId);
    var drawn := [Issued(Run(st, setup), SubMeshDraw(m, sub))];
    DrawsIssuedSnoc(st, setup, SubMeshDraw(m, sub));
    assert DrawsIssued(st, d) == [] + drawn;
    DrawsIssuedSnoc(st, d, BindVertexArray(0));
    assert DrawsIssued(st, d + [BindVertexArray(0)]) == drawn + [];
    RunSnoc(st, d, BindVertexArray(0));
  }

  /** A loaded model issues its seven uniforms first, then six commands per sub-mesh. */
  lemma {:induction false} UniformsFirst(m: Model, subs: seq<SubMesh>, b: nat)
    ensures |LoadedObjectCommands(m, subs, b)| == 7 + 6 * |subs|
    ensures LoadedObjectCommands(m, subs, b)[..7] == ModelUniforms(m)
    decreases |subs|
  {
    if subs != [] {
      var init := LoadedObjectCommands(m, subs[..|subs| - 1], b);
      UniformsFirst(m, subs[..|subs| - 1], b);
      assert (init + SubMeshCommands(m, subs[|subs| - 1], b))[..7] == init[..7];
    }
  }

  lemma SubMeshesDrawnSnoc(d: seq<Issued>, m: Model, subs: seq<SubMesh>, x: Issued, sub: SubMesh, b: nat)
    requires SubMeshesDrawn(d, m, subs, b) && SubMeshDrawn(x, m, sub, b)
    ensures SubMeshesDrawn(d + [x], m, subs + [sub], b)
  {
    assert forall i :: 0 <= i < |subs| ==> (subs + [sub])[i] == subs[i] && (d + [x])[i] == d[i];
  }

  lemma {:induction false} SubMeshesInOrder(st: GlState, m: Model, subs: seq<SubMesh>, b: nat)
    ensures SubMeshesDrawn(DrawsIssued(st, LoadedObjectCommands(m, subs, b)), m, subs, b)
    ensures subs != [] ==> Run(st, LoadedObjectCommands(m, subs, b)).vao == 0
    decreases |subs|
  {
    if subs == [] {
      NoDraws(st, ModelUniforms(m));
    } else {
      var init := subs[..|subs| - 1];
      var sub := subs[|subs| - 1];
      assert init + [sub] == subs;
      SubMeshesInOrder(st, m, init, b);
      var before := LoadedObjectCommands(m, init, b);
      DrawsIssuedConcat(st, before, SubMeshCommands(m, sub, b));
      RunConcat(st, before, SubMeshCommands(m, sub, b));
      OneSubMesh(Run(st, before), m, sub, b);
      var q := DrawsIssued(Run(st, before), SubMeshCommands(m, sub, b));
      assert q == [q[0]];
      SubMeshesDrawnSnoc(DrawsIssued(st, before), m, init, q[0], sub, b);
    }
  }

  /** A model whose mesh is not loaded draws nothing and changes no state. A loaded one draws each sub-mesh once,
      in order, with the texture override, its own vertex array and the instanced or plain draw, and leaves no
      vertex array bound when it has any sub-mesh. */
  lemma ObjectDraws(st: GlState, m: Model, meshes: map<string, DrawInfo>, notInstancedOffsetBufferId: nat)
    ensures m.meshName !in meshes ==>
              DrawsIssued(st, ObjectCommands(m, meshes, notInstancedOffsetBufferId)) == [] &&
              Run(st, ObjectCommands(m, meshes, notInstancedOffsetBufferId)) == st
    ensures m.meshName in meshes ==>
              SubMeshesDrawn(DrawsIssued(st, ObjectCommands(m, meshes, notInstancedOffsetBufferId)), m,
                             meshes[m.meshName].allMeshesData, notInstancedOffsetBufferId)
    ensures m.meshName in meshes && meshes[m.meshName].allMeshesData != [] ==>
              Run(st, ObjectCommands(m, meshes, notInstancedOffsetBufferId)).vao == 0
  {
    if m.meshName in meshes {
      SubMeshesInOrder(st, m, meshes[m.meshName].allMeshesData, notInstancedOffsetBufferId);
    }
  }

  // ---------------------------------------------------------------------------
  // The frame
  // ---------------------------------------------------------------------------

  function ModelsCommands(models: seq<Model>, meshes: map<string, DrawInfo>, notInstancedOffsetBufferId: nat): seq<Command>
  {
    if models == [] then []
    else ModelsCommands(models[..|models| - 1], meshes, notInstancedOffsetBufferId)
         + ObjectCommands(models[|models| - 1], meshes, notInstancedOffsetBufferId)
  }

  /** The scene program with the lights, the projection and the camera view. */
  const ScenePrelude := [UseProgram(Scene), SetLightUniforms, SetMat4(Projection, Perspective), SetMat4(View, CameraView)]

  /** The skybox: a relaxed depth test, its own program and rotation-only view, 36 vertices of the cube with
      the cubemap bound, then the default depth test again. */
  function SkyboxCommands(skyboxVAO: nat, cubemapTexture: nat): seq<Command>
  {
    SkyboxCamera + SkyboxCube(skyboxVAO, cubemapTexture) + [DepthFunc(Less)]
  }

  /** The skybox's program with the rotation-only view, under the relaxed depth test. */
  const SkyboxCamera := [DepthFunc(LessOrEqual), UseProgram(Skybox), SetMat4(View, CameraRotation), SetMat4(Projection, Perspective)]

  /** The cube itself: its vertex array and cubemap, 36 vertices, then unbind. */
  function SkyboxCube(skyboxVAO: nat, cubemapTexture: nat): seq<Command>
  {
    [BindVertexArray(skyboxVAO),
     ActiveTexture(0),
     BindCubemap(cubemapTexture),
     DrawArrays(36),
     BindVertexArray(0)]
  }

  function FrameCommands(models: seq<Model>, meshes: map<string, DrawInfo>, notInstancedOffsetBufferId: nat,
                         skyboxVAO: nat, cubemapTexture: nat): seq<Command>
  {
    ScenePrelude + ModelsCommands(models, meshes, notInstancedOffsetBufferId) + SkyboxCommands(skyboxVAO, cubemapTexture)
  }

  /** The regular pass of one frame: scene program and camera, every model in order, then the skybox. */
  method DrawFrame(device: Device, models: seq<Model>, meshes: map<string, DrawInfo>, notInstancedOffsetBufferId: nat,
                   skyboxVAO: nat, cubemapTexture: nat)
    modifies device
    ensures device.log == old(device.log) + FrameCommands(models, meshes, notInstancedOffsetBufferId, skyboxVAO, cubemapTexture)
  {
    UseSceneCamera(device);
    DrawModels(device, models, meshes, notInstancedOffsetBufferId);
    DrawSkybox(device, skyboxVAO, cubemapTexture);
  }

  /** The scene program, its light uniforms, and the camera's projection and view. */
  method UseSceneCamera(device: Device)
    modifies device
    ensures device.log == old(device.log) + ScenePrelude
  {
    device.Issue(UseProgram(Scene));
    device.Issue(SetLightUniforms);
    device.Issue(SetMat4(Projection, Perspective));
    device.Issue(SetMat4(View, CameraView));
  }

  /** Every scene model through DrawObject, in order. */
  method DrawModels(device: Device, models: seq<Model>, meshes: map<string, DrawInfo>, notInstancedOffsetBufferId: nat)
    modifies device
    ensures device.log == old(device.log) + ModelsCommands(models, meshes, notInstancedOffsetBufferId)
  {
    for i := 0 to |models|
      invariant device.log == old(device.log) + ModelsCommands(models[..i], meshes, notInstancedOffsetBufferId)
    {
      ModelsCommandsStep(old(device.log), models, i, meshes, notInstancedOffsetBufferId);
      DrawObject(device, models[i], meshes, notInstancedOffsetBufferId);
    }
    assert models[..|models|] == models;
  }

  lemma ModelsCommandsStep(log: seq<Command>, models: seq<Model>, i: nat, meshes: map<string, DrawInfo>, notInstancedOffsetBufferId: nat)
    requires i < |models|
    ensures log + ModelsCommands(models[..i + 1], meshes, notInstancedOffsetBufferId)
            == log + ModelsCommands(models[..i], meshes, notInstancedOffsetBufferId) + ObjectCommands(models[i], meshes, notInstancedOffsetBufferId)
  {
    assert models[..i + 1][..i] == models[..i];
  }

  method DrawSkybox(device: Device, skyboxVAO: nat, cubemapTexture: nat)
    modifies device
    ensures device.log == old(device.log) + SkyboxCommands(skyboxVAO, cubemapTexture)
  {
    device.Issue(DepthFunc(LessOrEqual));
    device.Issue(UseProgram(Skybox));
    device.Issue(SetMat4(View, CameraRotation));
    device.Issue(SetMat4(Projection, Perspective));
    device.Issue(BindVertexArray(skyboxVAO));
    device.Issue(ActiveTexture(0));
    device.Issue(BindCubemap(cubemapTexture));
    device.Issue(DrawArrays(36));
    device.Issue(BindVertexArray(0));
    device.Issue(DepthFunc(Less));
  }

  lemma {:induction false} ModelsKeepProgramAndDepth(models: seq<Model>, meshes: map<string, DrawInfo>, b: nat)
    ensures forall k :: 0 <= k < |ModelsCommands(models, meshes, b)| ==>
              KeepsProgramAndDepth(ModelsCommands(models, meshes, b)[k])
    decreases |models|
  {
    if models != [] {
      var init := ModelsCommands(models[..|models| - 1], meshes, b);
      var last := ObjectCommands(models[|models| - 1], meshes, b);
      ModelsKeepProgramAndDepth(models[..|models| - 1], meshes, b);
      if models[|models| - 1].meshName in meshes {
        SubMeshesKeepProgramAndDepth(models[|models| - 1], meshes[models[|models| - 1].meshName].allMeshesData, b);
      }
      assert forall k :: 0 <= k < |last| ==> KeepsProgramAndDepth(last[k]);
      assert forall k :: 0 <= k < |init + last| ==> (init + last)[k] == (if k < |init| then init[k] else last[k - |init|]);
    }
  }

  lemma {:induction false} SubMeshesKeepProgramAndDepth(m: Model, subs: seq<SubMesh>, b: nat)
    ensures forall k :: 0 <= k < |LoadedObjectCommands(m, subs, b)| ==> KeepsProgramAndDepth(LoadedObjectCommands(m, subs, b)[k])
    decreases |subs|
  {
    if subs != [] {
      var init := LoadedObjectCommands(m, subs[..|subs| - 1], b);
      var last := SubMeshCommands(m, subs[|subs| - 1], b);
      SubMeshesKeepProgramAndDepth(m, subs[..|subs| - 1], b);
      assert forall k :: 0 <= k < |init + last| ==> (init + last)[k] == (if k < |init| then init[k] else last[k - |init|]);
    }
  }

  /** Over one frame: every model draw runs under the scene program and the depth test in effect when the frame
      began; the last draw is the skybox's 36 vertices under the skybox program, its vertex array and cubemap,
      with the depth test relaxed to less-or-equal; afterwards the depth test is strict "less" again. */
  lemma FrameOrder(st: GlState, models: seq<Model>, meshes: map<string, DrawInfo>, notInstancedOffsetBufferId: nat,
                   skyboxVAO: nat, cubemapTexture: nat)
    ensures Run(st, FrameCommands(models, meshes, notInstancedOffsetBufferId, skyboxVAO, cubemapTexture)).depth == Less
    ensures DrawsIssued(st, FrameCommands(models, meshes, notInstancedOffsetBufferId, skyboxVAO, cubemapTexture))
              == DrawsIssued(Run(st, ScenePrelude), ModelsCommands(models, meshes, notInstancedOffsetBufferId))
                 + [Issued(Run(Run(st, ScenePrelude), ModelsCommands(models, meshes, notInstancedOffsetBufferId))
                             .(depth := LessOrEqual, program := Skybox, vao := skyboxVAO, cubemap := cubemapTexture),
                           DrawArrays(36))]
    ensures forall k :: 0 <= k < |DrawsIssued(Run(st, ScenePrelude), ModelsCommands(models, meshes, notInstancedOffsetBufferId))| ==>
              DrawsIssued(Run(st, ScenePrelude), ModelsCommands(models, meshes, notInstancedOffsetBufferId))[k].state.program == Scene &&
              DrawsIssued(Run(st, ScenePrelude), ModelsCommands(models, meshes, notInstancedOffsetBufferId))[k].state.depth == st.depth
  {
    var prelude := ScenePrelude;
    var body := ModelsCommands(models, meshes, notInstancedOffsetBufferId);
    var sky := SkyboxCommands(skyboxVAO, cubemapTexture);
    PreludeRuns(st);
    var s0 := st.(program := Scene);
    var s1 := Run(s0, body);
    assert s1.depth == st.depth && forall k :: 0 <= k < |DrawsIssued(s0, body)| ==>
             DrawsIssued(s0, body)[k].state.program == Scene && DrawsIssued(s0, body)[k].state.depth == st.depth by {
      ModelsKeepProgramAndDepth(models, meshes, notInstancedOffsetBufferId);
      ProgramAndDepthKept(s0, body);
    }
    assert Run(st, prelude + body) == s1 by { RunConcat(st, prelude, body); }
    assert DrawsIssued(st, prelude + body) == DrawsIssued(s0, body) by { DrawsIssuedConcat(st, prelude, body); }
    SkyboxDraws(s1, skyboxVAO, cubemapTexture);
    DrawsIssuedConcat(st, prelude + body, sky);
    RunConcat(st, prelude + body, sky);
  }

  /** The prelude draws nothing and changes only the program. */
  lemma PreludeRuns(st: GlState)
    ensures Run(st, ScenePrelude) == st.(program := Scene)
    ensures DrawsIssued(st, ScenePrelude) == []
  {
    assert Run(st, ScenePrelude) == st.(program := Scene) by {
      var p1 := [UseProgram(Scene)];
      var p2 := p1 + [SetLightUniforms];
      var p3 := p2 + [SetMat4(Projection, Perspective)];
      assert ScenePrelude == p3 + [SetMat4(View, CameraView)];
      RunSnoc(st, [], UseProgram(Scene));
      assert [] + [UseProgram(Scene)] == p1;
      RunSnoc(st, p1, SetLightUniforms);
      RunSnoc(st, p2, SetMat4(Projection, Perspective));
      RunSnoc(st, p3, SetMat4(View, CameraView));
    }
    NoDraws(st, ScenePrelude);
  }

  /** The skybox camera draws nothing; it relaxes the depth test and selects the skybox program. */
  lemma SkyboxCameraRuns(st: GlState)
    ensures Run(st, SkyboxCamera) == st.(depth := LessOrEqual, program := Skybox)
    ensures DrawsIssued(st, SkyboxCamera) == []
  {
    assert Run(st, SkyboxCamera) == st.(depth := LessOrEqual, program := Skybox) by {
      var q1 := [DepthFunc(LessOrEqual)];
      var q2 := q1 + [UseProgram(Skybox)];
      var q3 := q2 + [SetMat4(View, CameraRotation)];
      assert SkyboxCamera == q3 + [SetMat4(Projection, Perspective)];
      RunSnoc(st, [], DepthFunc(LessOrEqual));
      assert [] + [DepthFunc(LessOrEqual)] == q1;
      RunSnoc(st, q1, UseProgram(Skybox));
      RunSnoc(st, q2, SetMat4(View, CameraRotation));
      RunSnoc(st, q3, SetMat4(Projection, Perspective));
    }
    NoDraws(st, SkyboxCamera);
  }

  /** The cube is one draw of 36 vertices with its vertex array and cubemap bound; afterwards only the cubemap
      binding remains. */
  lemma SkyboxCubeDraws(st: GlState, skyboxVAO: nat, cubemapTexture: nat)
    ensures Run(st, SkyboxCube(skyboxVAO, cubemapTexture)) == st.(vao := 0, cubemap := cubemapTexture)
    ensures DrawsIssued(st, SkyboxCube(skyboxVAO, cubemapTexture))
              == [Issued(st.(vao := skyboxVAO, cubemap := cubemapTexture), DrawArrays(36))]
  {
    var q1 := [BindVertexArray(skyboxVAO)];
    var q2 := q1 + [ActiveTexture(0)];
    var q3 := q2 + [BindCubemap(cubemapTexture)];
    var q4 := q3 + [DrawArrays(36)];
    assert SkyboxCube(skyboxVAO, cubemapTexture) == q4 + [BindVertexArray(0)];
    var bound := st.(vao := skyboxVAO, cubemap := cubemapTexture);
    assert Run(st, q3) == bound by {
      RunSnoc(st, [], BindVertexArray(skyboxVAO));
      assert [] + [BindVertexArray(skyboxVAO)] == q1;
      RunSnoc(st, q1, ActiveTexture(0));
      RunSnoc(st, q2, BindCubemap(cubemapTexture));
    }
    var drawn := [Issued(bound, DrawArrays(36))];
    assert DrawsIssued(st, q4) == drawn by {
      NoDraws(st, q3);
      DrawsIssuedSnoc(st, q3, DrawArrays(36));
    }
    assert Run(st, q4) == bound by { RunSnoc(st, q3, DrawArrays(36)); }
    DrawsIssuedSnoc(st, q4, BindVertexArray(0));
    RunSnoc(st, q4, BindVertexArray(0));
  }

  /** The skybox issues exactly one draw, of the 36 cube vertices under its own set-up, and leaves the depth
      test strict again. */
  lemma SkyboxDraws(st: GlState, skyboxVAO: nat, cubemapTexture: nat)
    ensures Run(st, SkyboxCommands(skyboxVAO, cubemapTexture)).depth == Less
    ensures DrawsIssued(st, SkyboxCommands(skyboxVAO, cubemapTexture))
              == [Issued(st.(depth := LessOrEqual, program := Skybox, vao := skyboxVAO, cubemap := cubemapTexture),
                         DrawArrays(36))]
  {
    var cube := SkyboxCube(skyboxVAO, cubemapTexture);
    SkyboxCameraRuns(st);
    var relaxed := st.(depth := LessOrEqual, program := Skybox);
    SkyboxCubeDraws(relaxed, skyboxVAO, cubemapTexture);
    RunConcat(st, SkyboxCamera, cube);
    DrawsIssuedConcat(st, SkyboxCamera, cube);
    RunSnoc(st, SkyboxCamera + cube, DepthFunc(Less));
    DrawsIssuedSnoc(st, SkyboxCamera + cube, DepthFunc(Less));
  }
}
