# Magik engine core in Dafny

This project models four pieces of sequential logic in the Magik engine, a C++/OpenGL game engine, and proves properties about them:

- **The bounded particle pool** (`cParticleSpawner`, module `ParticleSpawning`).
  - The pool's capacity is reserved once. A spawn timer allows at most one spawn per update.
  - Each update ages every particle, then erases the expired ones in place: the loop does `erase` and then `i--`. The survivors move.
  - Survivor *i* is written into slot *i* of the GPU buffer.
  - `ParticleSpawner` is a class. Its `particles` field is a `seq`, and its buffer is an `array<Slot>` of `maxParticles` slots.
  - The methods are proved against the value-level functions `TrySpawn`, `Survivors` and `Tick`.
- **The scene manager** (`cSceneManager`, module `SceneManagement`).
  - A weather state machine with fog constants and one snowfall spawner.
  - A per-frame update of every spawner.
  - A table of wild-spawn records keyed on (national dex id, form name).
  - `SceneManager` is a class whose methods are proved against `Transition` and `WithSpawnData`.
- **The interface widget tree** (`cUIWidget`, module `UIElements`).
  - A widget's pixel height is its `heightPercent` times its parent's height. At the root, the window height stands in for the parent's height.
  - Widths follow from the aspect ratio, which is height / width.
  - Drawing is post-order: every child subtree, in order, then the widget's own quad.
  - Children are held by value, so a widget is a datatype. The parent pointer becomes the explicit chain of ancestors.
- **The regular render pass** of `main.cpp` (module `Frame`).
  - `DrawObject` first sets the model's uniforms, then does one bind-draw-unbind per sub-mesh.
  - The frame is: the scene program and camera, every model in order, then the skybox.
  - The skybox is drawn under a relaxed depth test, which is restored afterwards.

GL calls are abstract `Command`s appended to the log of a `Device` (module `Graphics`). `Apply`, `Run` and `DrawsIssued` give those commands a meaning: the context state each draw is issued in, which covers the program, the bound vertex array and array buffer, the 2D texture, the cubemap, the depth function and the float uniforms. The draw-order properties are proved about that meaning.

Floats are `real`. The spawner's random generators become `Draw` parameters. Only `NewParticleInBox` assumes that a draw's components lie in [0, 1]; the spawn and update operations accept any draw. The player position, the window size and the species data that the species loader reports are parameters too.

## Model

| member | source | states |
|---|---|---|
| ParticleSpawning.ParticleSpawner.constructor | NewEngine/source/cParticleSpawner.cpp:12-40 | The spawn position and model are the given ones; the position is not player-relative; spawn rate 0.1, timer 0, no particles; the buffer has exactly maxParticles slots |
| ParticleSpawning.TrySpawn | NewEngine/source/cParticleSpawner.cpp:49-82 | At or over capacity the pool is unchanged; below it exactly one particle, NewParticle, is appended and the old particles keep their places |
| ParticleSpawning.ParticleSpawner.SpawnParticle | NewEngine/source/cParticleSpawner.cpp:49-82 | Returns true exactly when the live count was below maxParticles; the new pool is TrySpawn of the old one; the count stays within capacity |
| ParticleSpawning.NewParticleInBox | NewEngine/source/cParticleSpawner.cpp:57-79 | A new particle has timer 0 and the spawn speed, and lies inside [origin + minOffset, origin + maxOffset], where origin is the spawn position plus the player's when relative |
| ParticleSpawning.OffsetAxisWithin | NewEngine/source/cParticleSpawner.cpp:62-66 | Each offset axis, min + r*(max-min)/(1-0), lies in [min, max] for a draw r in [0, 1] when min <= max |
| ParticleSpawning.ParticleSpawner.SpawnParticles | NewEngine/source/cParticleSpawner.cpp:84-90 | Adds exactly min(n, capacity - size) particles after the old ones, the k-th built from the k-th draw |
| ParticleSpawning.Survivors | NewEngine/source/cParticleSpawner.cpp:106-120 | The survivors are no more than the particles, and every survivor's timer is within the lifetime |
| ParticleSpawning.SurvivorsAtKept | NewEngine/source/cParticleSpawner.cpp:106-120 | Survivor j is the aged and moved particle at the j-th kept position: the filter maps each kept particle exactly once |
| ParticleSpawning.KeptIncreasing | NewEngine/source/cParticleSpawner.cpp:106-116 | The kept positions are strictly increasing, so the filter keeps the pool's relative order |
| ParticleSpawning.KeptExactly | NewEngine/source/cParticleSpawner.cpp:108-116 | A position is kept if and only if its particle's aged timer does not exceed the lifetime |
| ParticleSpawning.VisitErase | NewEngine/source/cParticleSpawner.cpp:110-116 | Erasing an expired particle at index i leaves the survivors so far unchanged and shifts the rest of the pool down by one |
| ParticleSpawning.VisitMove | NewEngine/source/cParticleSpawner.cpp:118-119 | Moving a surviving particle at index i appends it, moved by speed * dt, to the survivors so far |
| ParticleSpawning.VisitAge | NewEngine/source/cParticleSpawner.cpp:108 | The index the loop visits holds the next unvisited particle, and ageing it in place yields the aged particle at that index |
| ParticleSpawning.Tick | NewEngine/source/cParticleSpawner.cpp:92-128 | With a positive rate the timer grows by dt and drops by the rate only when it exceeds the rate and the spawn succeeds; with a rate <= 0 the timer is untouched and nothing spawns; the pool becomes the survivors; at most one particle is added; capacity is kept |
| ParticleSpawning.TickTimerNeverNegative | NewEngine/source/cParticleSpawner.cpp:94-102 | From a non-negative timer and dt, the timer stays non-negative |
| ParticleSpawning.TickManyBounded | NewEngine/source/cParticleSpawner.cpp:51 | Over any run of updates the live count never exceeds the capacity |
| ParticleSpawning.ParticleSpawner.Update | NewEngine/source/cParticleSpawner.cpp:92-128 | The new pool and timer are Tick of the old ones; the settings are unchanged; buffer slot i holds (position, timer) of survivor i; slots past the survivors are untouched |
| ParticleSpawning.ParticleSpawner.AdvanceParticles | NewEngine/source/cParticleSpawner.cpp:104-127 | The erase-and-step-back loop leaves exactly Survivors of the old pool and mirrors each survivor into its slot |
| ParticleSpawning.ParticleSpawner.VisitParticle | NewEngine/source/cParticleSpawner.cpp:106-125 | One loop body: the visited prefix grows by exactly one particle, the index points at the next unvisited one, and the mirrored slots are exactly the survivors so far |
| SceneManagement.SceneManager.constructor | NewEngine/source/cSceneManager.cpp:8-16 | Weather NONE, fog density 0, fog gradient 0.1, wind speed 0.25, no spawners, no spawn records |
| SceneManagement.Transition | NewEngine/source/cSceneManager.cpp:28-115 | Ends in the target weather. The same weather changes nothing. Within a family, fog and spawner are kept. Otherwise the spawner is dropped, and the target's fog constants apply: NONE 0/0.1, SNOW 0.057/0.57 grey with the snowfall spawner, HAIL 0.022/0.48 grey. Every other target keeps the fog and has no spawner |
| SceneManagement.TransitionIdempotent | NewEngine/source/cSceneManager.cpp:30 | Setting a weather twice is setting it once |
| SceneManagement.SnowThenClear | NewEngine/source/cSceneManager.cpp:53-83 | Snowing from a non-snow weather builds the snowfall spawner, and clearing it afterwards removes it and resets the fog to 0/0.1 |
| SceneManagement.OnlySnowSpawns | NewEngine/source/cSceneManager.cpp:53-111 | Without a spawner, no target other than SNOW creates one |
| SceneManagement.NewSnowSpawner | NewEngine/source/cSceneManager.cpp:70-82 | A fresh spawner with origin (0,13,0), capacity 500, offsets -20..20 on x and z, player-relative, speed (0,-3,0), rate 0.05, lifetime 10, the snow model and an empty pool |
| SceneManagement.SceneManager.SetWeather | NewEngine/source/cSceneManager.cpp:28-115 | The scene's weather, fog and weather spawner become Transition of the old ones; the scene stays valid; a spawner afterwards is the old one or a fresh one with a fresh buffer |
| SceneManagement.NewSpawnData | NewEngine/source/cSceneManager.cpp:140-148 | The record carries the requested key |
| SceneManagement.SpriteSheetsFor | NewEngine/source/cSceneManager.cpp:131-138 | The form's sprite sheet is loaded; the female sheet "f" is added if and only if the species' sprite is gender-based and the form is the base form |
| SceneManagement.WithSpawnData | NewEngine/source/cSceneManager.cpp:119-150 | Afterwards the key is loaded; if it was loaded already nothing changes, otherwise exactly the new record is appended |
| SceneManagement.WithSpawnDataIdempotent | NewEngine/source/cSceneManager.cpp:119-125 | A second load of the same key changes nothing, whatever its level and chance fields |
| SceneManagement.WithSpawnDataKeepsKeysDistinct | NewEngine/source/cSceneManager.cpp:119-150 | The table never holds two records with one key |
| SceneManagement.WithSpawnDataExtends | NewEngine/source/cSceneManager.cpp:150 | Existing records are never changed or reordered; at most one is added, at the end |
| SceneManagement.SceneManager.LoadSpawnData | NewEngine/source/cSceneManager.cpp:117-151 | The scan-then-append leaves WithSpawnData of the old table, keeps the scene valid (no two records share a key), and returns the sprite sheets loaded: none for a known key, SpriteSheetsFor otherwise |
| SceneManagement.UpdateEach | NewEngine/source/cSceneManager.cpp:190-193 | Each of the scene's spawners, none sharing an object or buffer, makes exactly one Tick with its own draw, keeps its settings and render model, mirrors its pool, and leaves the slots past its survivors as they were |
| SceneManagement.SceneManager.Process | NewEngine/source/cSceneManager.cpp:183-194 | The weather spawner, if any, and every other spawner each make exactly one update, keeping their settings and render models, mirroring their pools, and leaving the slots past their survivors as they were |
| UIElements.HeightPixels | NewEngine/source/UIElements.cpp:35-40 | `heightPercent` times the parent's pixel height, or times the window height at the root; what that resolves to is stated by HeightIsChainProduct below |
| UIElements.HeightIsChainProduct | NewEngine/source/UIElements.cpp:35-40 | The pixel height is the window height times the product of heightPercent along the chain from the root down to the widget |
| UIElements.HeightOnlyReadsFractions | NewEngine/source/UIElements.cpp:35-40 | The pixel height depends only on the heightPercent values along the chain |
| UIElements.HeightWithinWindow | NewEngine/source/UIElements.cpp:35-40 | With every heightPercent in [0, 1] the pixel height is between 0 and the window height |
| UIElements.ChildNotTaller | NewEngine/source/UIElements.cpp:39 | With fractions in [0, 1], a child is never taller than its parent |
| UIElements.HeightScreenPercent | NewEngine/source/UIElements.cpp:42-49 | In both the root branch (the bare `heightPercent`) and the child branch, the result times the window height is the pixel height, whenever the window height is positive |
| UIElements.ScreenPercentWithin | NewEngine/source/UIElements.cpp:42-49 | With fractions in [0, 1], the height screen percentage is in [0, 1] |
| UIElements.WidthPixels | NewEngine/source/UIElements.cpp:51-54 | The result times the aspect ratio (height / width) is the pixel height |
| UIElements.WidthScreenPercent | NewEngine/source/UIElements.cpp:56-59 | The result times the window width is the pixel width |
| UIElements.DefaultRootFillsWindow | NewEngine/source/UIElements.h:9-12 | A default widget is not focusable and has no children; as a root it is exactly the window height, as wide as it is tall, and its height percentage is 1 |
| UIElements.AddChild | NewEngine/source/UIElements.cpp:29-33 | The new child is appended last, the earlier children are unchanged, and no other field of the widget changes |
| UIElements.AddChildPlacesLast | NewEngine/source/UIElements.cpp:29-33 | After attaching, the widget keeps its height, the earlier children keep theirs, the new child is sized against the widget, and the new subtree is drawn after every earlier child and before the widget |
| UIElements.PostOrderBlocks | NewEngine/source/UIElements.cpp:10-13 | Child k's subtree comes after the earlier children's, before the later children's, and the widget itself comes last |
| UIElements.DrawQuad | NewEngine/source/UIElements.cpp:15-26 | The widget's own quad: debug program, its texture, its width and height percentages, six indices of the shared quad, unbind |
| UIElements.OneQuad | NewEngine/source/UIElements.cpp:15-26 | One quad is exactly one six-index draw, issued under the debug program with the quad's vertex array, the widget's texture and its two size uniforms |
| UIElements.QuadsFollowOrder | NewEngine/source/UIElements.cpp:15-26 | For any list of placed widgets, the k-th draw is the six-index quad of the k-th widget, in its own state |
| UIElements.DrawTreeIsPostOrder | NewEngine/source/UIElements.cpp:8-27 | Drawing a subtree issues the quads of its post-order traversal, one after another |
| UIElements.DrawForestIsPostOrder | NewEngine/source/UIElements.cpp:10-13 | Drawing a list of siblings issues the quads of their post-order traversals in sibling order |
| UIElements.DrawTreeQuads | NewEngine/source/UIElements.cpp:8-27 | Drawing a subtree issues exactly one quad per widget of its post-order traversal, in that order, each with its own texture and size |
| UIElements.DrawWidget | NewEngine/source/UIElements.cpp:8-27 | The recursive draw appends exactly the post-order tree's commands: every child subtree in order, then the widget's own quad |
| Frame.SetModelUniforms | NewEngine/main.cpp:409-416 | The model's position, three axis rotations, scale, whole-colour flag and colour, in that order |
| Frame.DrawSubMesh | NewEngine/main.cpp:447-497 | One sub-mesh: its texture (the model's override if non-empty), its vertex array, the instance or shared offset buffer, the instanced or plain draw of its indices, unbind |
| Frame.SubMeshSetupRuns | NewEngine/main.cpp:450-471 | The set-up draws nothing and binds exactly the chosen texture, the sub-mesh's vertex array and the chosen offset buffer |
| Frame.OneSubMesh | NewEngine/main.cpp:447-497 | A sub-mesh is exactly one draw, issued in the state SubMeshDrawn describes, and leaves no vertex array bound |
| Frame.UniformsFirst | NewEngine/main.cpp:409-498 | A loaded model issues its seven uniforms first, then six commands per sub-mesh |
| Frame.SubMeshesInOrder | NewEngine/main.cpp:445-498 | One draw per entry of allMeshesData, in order, each with its own texture, vertex array, offset buffer and draw kind; no vertex array is bound afterwards |
| Frame.DrawObject | NewEngine/main.cpp:404-500 | Appends nothing when the mesh lookup misses; otherwise the uniforms and then each sub-mesh in order |
| Frame.ObjectDraws | NewEngine/main.cpp:404-500 | A miss draws nothing and leaves the context state as it was; a hit draws each sub-mesh exactly once, in order, as SubMeshDrawn says |
| Frame.UseSceneCamera | NewEngine/main.cpp:258-267 | The scene program, its light uniforms, the projection and the camera view |
| Frame.PreludeRuns | NewEngine/main.cpp:258-267 | The prelude draws nothing and changes only the program, to the scene program |
| Frame.DrawModels | NewEngine/main.cpp:270-273 | Every model goes through DrawObject in list order |
| Frame.ModelsKeepProgramAndDepth | NewEngine/main.cpp:270-273 | No model draw switches the program or the depth function |
| Frame.SubMeshesKeepProgramAndDepth | NewEngine/main.cpp:409-498 | No command of a loaded model switches the program or the depth function |
| Frame.DrawSkybox | NewEngine/main.cpp:275-287 | LEQUAL depth, the skybox program, the rotation-only view, the projection, the cube's vertex array and cubemap, 36 vertices, unbind, then LESS |
| Frame.SkyboxCameraRuns | NewEngine/main.cpp:276-280 | The skybox camera draws nothing; it relaxes the depth test and selects the skybox program |
| Frame.SkyboxCubeDraws | NewEngine/main.cpp:282-286 | The cube is one draw of 36 vertices with its vertex array and cubemap bound, and unbinds afterwards |
| Frame.SkyboxDraws | NewEngine/main.cpp:275-287 | The skybox is exactly one draw, under LEQUAL and the skybox program, and leaves the depth test at LESS |
| Frame.DrawFrame | NewEngine/main.cpp:258-287 | The frame appends the prelude, every model's commands in order, then the skybox |
| Frame.FrameOrder | NewEngine/main.cpp:258-287 | Every model draw runs under the scene program and the starting depth test; the last draw is the skybox's, under LEQUAL; the frame ends with depth test LESS |

## Left out

- Windowing, input, ImGui and the shadow pass: main.cpp does window set-up, input polling and the ImGui panels around the regular pass, and its shadow pass is empty.
- The light's direction update before the regular pass (main.cpp line 250) is not modelled. The light, projection and view values stay symbolic: `SetLightUniforms`, `Perspective`, `CameraView` and `CameraRotation`.
- Float semantics: every float is a `real`, so rounding, infinities and NaN are not modelled.
- The random generators and their `srand(time(0))` seeding: each spawn takes a `Draw` parameter.
- The player position is a parameter.
- The particle buffer's GL set-up and deletion (constructor and destructor) are left out. The buffer is an array of `maxParticles` slots, and the bind/unbind around the loop is not logged.
- ParticleSpawning.ParticleSpawner.SpawnParticle: the vector's capacity after `reserve(maxParticles)` is taken to be exactly `maxParticles`. An implementation may reserve more, and then the source allows more particles than the buffer has slots.
- ParticleSpawning.ParticleSpawner.SpawnParticles: the caller supplies at least `numToSpawn` draws, one per attempted spawn.
- SceneManagement.SceneManager.Process: the caller supplies one draw per owned spawner.
- The destructors, `CreateRoamingWildPokemon` and `ChangeScene` are left out. The first two depend on ownership and on the map manager; the third is empty.
- The same-family weather branches are empty in the source and stay empty here: fog and spawner are kept. The wind speed is set only by the constructor.
- The species loader and the render manager's sprite-sheet loading inside `LoadSpawnData` are external. The species data is a parameter, and the requested sprite sheets are returned as a list.
- The render manager's caches (programs, textures, fonts, uniform locations) are not part of this model. Programs and uniforms are named by datatype constructors.
- The anchors, translation and text widgets of UIWidgets.h are not part of this model.
- UIElements.AddChild: `AddChild` becomes a function on values. The parent pointer becomes the chain of ancestors a widget is placed under. Not modelled: that the source stores a copy of the child whose `parent` points at the widget; that the copy's own children keep pointers to the original; and that those pointers go stale when the vector of children reallocates or the widget is copied.
- The parent pointer has no initialiser in UIElements.h. The model assumes a widget that never went through `AddChild` is a root.
- UIElements layout: the window size is a parameter (the camera singleton is not part of this model). The screen percentages require a non-zero window size, and the widths require a non-zero aspect ratio. The source divides without checking.
- Frame: `FindModelByName` becomes a map lookup from mesh name to the mesh's sub-meshes. The attribute-location query and the pointer and divisor set-up for `oOffset` become the single `EnableOffsetAttribute` command.
- The model, mesh-data and camera classes are not part of this model. Only the fields DrawObject reads are kept.
- The frame follows main.cpp as written. Its regular pass draws the scene models and then the skybox. Particles and interface widgets are not drawn in that pass, so the frame model does not draw them.
- SceneManagement.SceneManager.constructor: the weather spawner pointer is assumed to start null. cSceneManager.cpp:8-16 never writes it, and cSceneManager.h, where its initialiser would be, is not part of this model. Without one, the first weather change out of a family would delete an indeterminate pointer.
- cParticleSpawner.h is not part of this model. Its default field values are not modelled, except what the constructor sets.
