# SpaceObjects core, modelled in Dafny

SpaceObjects is a small OpenGL space shooter. Beneath its GL/GLFW glue is a
set of small, self-contained pieces of game logic, and this project models
them and proves what they promise:

- **Bounding boxes** (`BBoxes`, from `src/BBox.h`): the closed box/box
  overlap test, the slab-method ray test and the zero default box.
- **Objects** (`Objects`, from `src/Object.h`, `src/Object.cpp`):
  - flattening an imported mesh into vertex, texture-coordinate and index
    arrays;
  - an `Object` class with its pose and material accessors;
  - the fixed skybox cube, the particle cloud and the laser's recharge
    counter.
- **Models** (`Models`, from `src/Model.h`, `src/Model.cpp`):
  - loading a model from an imported scene: the directory of the model
    file, one material per scene material, pre-order flattening of the
    node tree into objects, and the bounding box reduced over every vertex;
  - the pose updates `move`, `rotate` and `scale`;
  - the death countdown;
  - the `Asteroid` that flies along its velocity.
- **Factories** (`Factories`, from `src/ModelFactories.h`,
  `src/ModelFactories.cpp`):
  - the seven model names;
  - buffering one loaded template per name;
  - `get_model`, which copies a template and scales, moves and optionally
    rotates it;
  - the random enemy and asteroid spawns. Their `rand()` draws come in as
    non-negative integers, as section 7.22.2.1 of ISO/IEC 9899:2011
    guarantees.
- **Fonts** (`Fonts`, from `src/Font.cpp`): filling the 128-entry glyph
  table, and the cursor loop of `draw`, which emits one textured quad (six
  4-float vertices) per character.
- **Game** (`Game`, from `src/main.cpp`):
  - the keyboard and mouse callbacks, as a state machine over `step`,
    `multiplier`, the camera mode, yaw/pitch and the `shoot` and
    `permitMouseMove` flags;
  - the per-frame exponential smoothing and speed ramp;
  - the initial enemies.

Representation choices:

- `float` is `real` and `GLuint` is `nat`; rounding is not modelled.
- A rotation matrix is kept symbolic: a sequence of `Turn` factors, where
  the empty sequence is the identity.
- Foreign calls become parameters:
  - Assimp's importer gives an `Option<Scene>`;
  - DevIL's texture reader is a `string -> GlName` function;
  - `glm::normalize` is a `Vec3 -> Vec3` function;
  - FreeType's glyph metrics and the generated texture names are sequences.

Entities whose fields the source updates in place are classes: `Object`,
`Model`, `Asteroid`, `ModelFactory`, `Font`, `Controls` (the callbacks'
globals), `Camera` and `GameState`. Their loops (mesh flattening, the bbox
reduction, the material list, the recursive node walk, the factory's
buffering loop, the font table fill, the text layout) are methods with
invariants. Each is proved against a specification function, and the
properties are proved about those functions as lemmas.

## Model

| member | source | states |
|---|---|---|
| BBoxes.Intersect | src/BBox.h:15-19 | For well-formed boxes, the box/box test holds exactly when the corner made of the larger minimum on each axis lies in both boxes. |
| BBoxes.IntersectSymmetric | src/BBox.h:15-19 | Box/box overlap does not depend on argument order. |
| BBoxes.IntersectReflexive | src/BBox.h:15-19 | A box with min ≤ max on every axis overlaps itself. |
| BBoxes.TouchingFacesIntersect | src/BBox.h:16-18 | Boxes that only share a face (`a.max.x == b.min.x`, the other axes overlapping) intersect, since the comparisons are non-strict. |
| BBoxes.SeparatedDoNotIntersect | src/BBox.h:16-18 | Boxes separated on any single axis do not intersect. |
| BBoxes.DefaultBBoxIntersects | src/BBox.h:11-19 | The default zero box intersects a box exactly when that box contains the origin. |
| BBoxes.IntersectIffCommonPoint | src/BBox.h:15-19 | For well-formed boxes, the test holds iff some point lies in both boxes (both directions). |
| BBoxes.IntersectRay | src/BBox.h:21-31 | With nonzero inverse-direction components and a well-formed box, the slab test holds iff some parameter t (of any sign) puts the point `src + t / invDir` inside the box. |
| BBoxes.SlabsMeetIffLineMeetsBox | src/BBox.h:21-31 | The largest slab entry distance is at most the smallest exit distance iff the line through the ray origin meets the box. |
| BBoxes.RayFromInsideHits | src/BBox.h:21-31 | A ray whose origin lies inside the box always hits, because tmin ≤ 0 ≤ tmax. |
| BBoxes.IntersectRayIgnoresDirectionSign | src/BBox.h:21-31 | Negating the ray direction does not change the result: the test is about the whole line. |
| BBoxes.BoxBehindRayHits | src/BBox.h:28-31 | There is no `tmax >= 0` check: any box that the line meets only at t < 0 is reported as hit, although no point of the ray (t ≥ 0) lies in it. |
| BBoxes.BoxBehindRayExample | src/BBox.h:28-31 | Such boxes exist: the cube from (−2, −2, −2) to (−1, −1, −1) lies only behind a ray from the origin along (1, 1, 1). |
| BBoxes.IntersectRaySlabOrderIrrelevant | src/BBox.h:22-26 | Swapping which plane of an axis is "min" does not change the result, because of the per-axis min/max. |
| Objects.FlatVerticesAt | src/Object.cpp:44-50 | The flattened vertex array has 3 floats per vertex, and entries 3i, 3i+1, 3i+2 are vertex i's x, y, z. |
| Objects.FlatUVsAt | src/Object.cpp:51-53 | The texture-coordinate array has 2 floats per vertex, and entries 2i, 2i+1 are UV channel 0's u, v for vertex i. |
| Objects.ConcatLength | src/Object.cpp:57-63 | The index array is as long as the sum of all faces' index counts. |
| Objects.ConcatAt | src/Object.cpp:57-63 | The index array is the in-order concatenation of the faces: index j of face i sits after all indices of faces 0..i-1. |
| Objects.MeshArrays | src/Object.cpp:38-63 | The flattening loops give exactly the flattened vertices, the flattened UV channel 0 and the concatenated faces. They need UV channel 0 to exist for every vertex, since it is read unconditionally. |
| Objects.Object.constructor | src/Object.cpp:5-11 | A new object keeps the arrays and material it is given and starts at the origin with the identity rotation. |
| Objects.Object.Move | src/Object.h:30-32 | `move(t)` adds t to the position and changes nothing else. |
| Objects.Object.Rotate | src/Object.h:34-36 | `rotate` appends one axis-angle factor to the rotation and leaves the position alone. |
| Objects.Object.Clone | src/Object.h:15-27 | The implicit copy of an `Object` carries its arrays, material, world position and rotation. |
| Objects.Object.DiffuseColor | src/Object.h:42-44 | `getDiffuseColor` returns the material's diffuse colour; `Models.HaveTextureIffSceneTexture` gives its alpha of 1 for an object built from a scene material. |
| Objects.Object.Opacity | src/Object.h:46-48 | `getOpacity` returns the material's opacity; `Models.HaveTextureIffSceneTexture` ties it to the scene material. |
| Objects.Object.HaveTexture | src/Object.h:50-52 | `haveTexture` holds iff the texture name is not 0; `Models.HaveTextureIffSceneTexture` ties it to the scene material's texture list. |
| Objects.Object.Create | src/Object.cpp:38-66 | `create` builds a fresh object whose arrays are those of the flattened mesh, with the default pose. |
| Objects.BuiltFromLayout | src/Object.cpp:44-63 | An object built from a mesh has 3 vertex floats and 2 UV floats per mesh vertex, holding that vertex's coordinates and UVs, and as many indices as the faces hold in total. |
| Objects.SkyBoxCorners | src/Object.cpp:103-114 | The vertex array holds 24 floats, and corner k read back from it is the k-th of the eight (±1, ±1, ±1) corners: the front face (z = 1), then the back face (z = −1). |
| Objects.SkyBoxVerticesAreUnit | src/Object.cpp:103-114 | Every skybox coordinate is +1 or −1. |
| Objects.SkyBoxCornersDistinct | src/Object.cpp:103-114 | The 8 corners are pairwise distinct, so they are the 8 corners of the cube. |
| Objects.TrianglesAt | src/Object.cpp:57-63 | In a concatenated list of triangles, index j of triangle i sits at position 3i + j, and the list holds 3 indices per triangle. |
| Objects.SkyBoxElementsAreTriangles | src/Object.cpp:115-134 | The 36-entry index array is the twelve listed triangles, three indices each, in order. |
| Objects.SkyBoxElementsInRange | src/Object.cpp:115-134 | The skybox has 36 indices, each below 8. |
| Objects.SkyBoxTrianglesOnFaces | src/Object.cpp:103-134 | Each of the 12 index triples names three distinct corners lying on one common face of the cube. |
| Objects.SkyBox.constructor | src/Object.cpp:101-134 | The skybox keeps its texture name and holds the fixed cube arrays. |
| Objects.ParticleBufferTooSmallAsWritten | src/Object.cpp:174 | As written, the GL buffer for n > 0 particles gets 3n bytes, while `draw` reads 4 times that (3n floats). |
| Objects.ParticleBufferFitsDrawnPoints | src/Object.cpp:174 | With the size counted in bytes (3n floats × 4 bytes), the buffer holds every point `draw` reads. |
| Objects.Particles.constructor | src/Object.cpp:157-174 | Particle generation produces exactly 3n coordinates, each in [−50, 50). The buffer size is the 3n passed to `glBufferData` as written, so for n > 0 the points `draw` reads take 4 times the bytes allocated. |
| Objects.Laser.constructor | src/Object.h:134 | A laser starts with `recharge == 0`. |
| Models.ObjectsMatchAppend | src/Model.cpp:38-48 | Matching objects to mesh lists composes over concatenation, which lets the node walk be built up child by child. |
| Models.ObjectsMatchWholeTriples | src/Object.cpp:44-54 | Every object built from a mesh has a vertex count divisible by 3, so the bbox loop's `i += 3` sees whole triples. |
| Models.EncloseAppend | src/Model.cpp:27-35 | Reducing the box over two point lists in turn is the same as reducing over their concatenation. |
| Models.EncloseCovers | src/Model.cpp:27-35 | The reduced box contains the starting box and every point. |
| Models.EncloseTight | src/Model.cpp:27-35 | Each face of the reduced box lies on the starting box or on some point: the box is no larger than needed. |
| Models.ModelBoxContainsOriginAndVertices | src/Model.cpp:26-35 | Starting from the zero box, the result is well formed, contains the origin and contains every point. |
| Models.LastIndexOf | src/Model.cpp:13 | The last occurrence of a character, or None exactly when it does not occur (the `npos` case). |
| Models.DirectoryOf | src/Model.cpp:13 | The model location is a prefix of the path. With no '/' it is the whole path; otherwise it ends just before the last '/' of the path. |
| Models.DirectoryOfSplit | src/Model.cpp:13-112 | For a path `dir/file` whose file part has no '/', the model location is `dir`, and a texture path is `dir + "/" + name`. |
| Models.DirectoryOfNoSlash | src/Model.cpp:13 | A path without '/' is kept whole, because `find_last_of` returns npos. |
| Models.MaterialFor | src/Model.cpp:98-114 | The texture name is 0 iff the scene material has no diffuse texture; otherwise it is the texture read from `location + "/" + first texture`. The colour is the diffuse colour with alpha 1.0, and the opacity is carried over. |
| Models.MaterialsForAt | src/Model.cpp:95-116 | One material per scene material, in order. The texture is 0 iff the material has no diffuse texture; otherwise it is the texture read from `location + "/" + first texture`. The colour is the diffuse colour with alpha 1.0, and the opacity is carried over. |
| Models.MaterialsForLength | src/Model.cpp:95-116 | There are exactly as many materials as scene materials. |
| Models.HaveTextureIffSceneTexture | src/Model.cpp:105-113 | An object built with a scene material's material has a texture iff the scene material lists one. Its diffuse alpha is 1 and its opacity is the scene's. |
| Models.TransformedBBoxContains | src/Model.h:47-54 | With identity rotation and positive scale, the world box is well formed and contains the world image `pos + scale·p` of every point of the local box. |
| Models.TransformedBBoxContainsAll | src/Model.h:51-54 | The same containment, for every point of the local box at once. |
| Models.Model.WorldBBox | src/Model.h:51-54 | `getBBox` of an unrotated model with positive scale is well formed and contains `world_pos + scale·p` for every point p of the local box. |
| Models.DieResultsAt | src/Model.h:57-64 | From a countdown c, the k-th `die()` returns true exactly when k == c: from 60, calls 1–59 are false and call 60 is true, and later calls are false again. |
| Models.DieResultsLength | src/Model.h:59-64 | n calls give n results. |
| Models.Model.Load | src/Model.cpp:9-36 | The loaded model has the fresh defaults (scale 1, damage 10, not dead, countdown 60) and the zero pose. Its location is the directory of the path. For a readable scene: one material per scene material, the pre-order objects, and the box reduced from the zero box over every vertex triple. For a failed import: no objects, no materials, the zero box. |
| Models.Model.ComputeBBox | src/Model.cpp:26-35 | The bbox loop yields the zero box enclosed over all vertex triples of all objects, in order. |
| Models.Model.ProcessTextures | src/Model.cpp:95-117 | `process_textures` appends exactly the material list of the scene. |
| Models.Model.ProcessObject | src/Model.cpp:38-48 | The recursive walk appends fresh objects for the node's meshes, in index order, then for each child subtree in order (pre-order), and keeps earlier objects. |
| Models.Model.ProcessMeshes | src/Model.cpp:39-43 | The mesh loop appends one fresh object per mesh of the node, in index order, each built with its mesh's material. |
| Models.Model.ProcessChildren | src/Model.cpp:45-47 | The child loop appends the pre-order listing of every child subtree, in order, after the node's own meshes. |
| Models.Model.ProcessScene | src/Model.cpp:18-24 | Materials and then objects are read only when the import succeeded; otherwise both stay empty. |
| Models.Model.Copy | src/Model.h:12-31 | A copy has fresh objects, each with the same data, world position and rotation as its original, and the same materials, box, pose and countdown state. |
| Models.Model.Move | src/Model.h:35-37 | `move(t)` adds t to `world_pos`; nothing else changes. |
| Models.Model.Rotate | src/Model.h:39-41 | `rotate` appends one axis-angle factor; nothing else changes. |
| Models.Model.Scale | src/Model.h:43-45 | `scale(c)` multiplies `scale_coef` by c, so two calls multiply it by the product; nothing else changes. |
| Models.Model.Die | src/Model.h:59-64 | `die()` decrements the countdown by exactly 1 and returns whether it is now 0: one `DieStep`, the step the die-sequence lemmas iterate. It neither sets `dead` nor stops at 0. |
| Models.LoadedBoxCoversVertices | src/Model.cpp:26-35 | After loading, the box is well formed, contains the origin and contains every vertex triple of every object. |
| Models.FailedImportIsEmpty | src/Model.cpp:18-35 | When the import fails, the model has no objects and no materials, and its box is still the zero box. |
| Models.EncloseTriples | src/Model.cpp:28-34 | The inner `i += 3` loop equals enclosing the box over the vertex triples. |
| Models.EncloseNextTriple | src/Model.cpp:29-33 | One pass of that loop widens the box to take in exactly the next vertex triple. |
| Models.CloneObjects | src/Model.h:20 | Copying the object vector gives fresh objects, one per original, each with its arrays, material, world position and rotation. |
| Models.Asteroid.constructor | src/Model.h:71-79 | The asteroid's body is a fresh copy of the model. Its rotation is pre-multiplied by the turn aligning +z with the velocity, and it keeps the velocity. |
| Models.Asteroid.MoveAuto | src/Model.h:81-83 | `moveAuto(α)` adds α·velocity to the position and leaves the velocity unchanged. |
| Factories.Ordinal | src/ModelFactories.h:8-16 | Model names are numbered consecutively from 0 to 6. |
| Factories.FromOrdinal | src/ModelFactories.h:8-16 | Every number below 7 names a model, the inverse of the numbering. |
| Factories.OrdinalRoundTrip | src/ModelFactories.h:8-16 | Numbering a name and converting back gives the same name. |
| Factories.ModelPathsComplete | src/ModelFactories.cpp:6-14 | The path table has an entry for every one of the seven names. |
| Factories.EnemyOffset | src/ModelFactories.h:27-29 | For any draws, the enemy offset has integer x in [−50, 49] and integer y in [−25, 24], and z is exactly −500. |
| Factories.EnemyOffsetReachable | src/ModelFactories.h:27-29 | Every integer point of that range is produced by some draws, so the bounds are tight. |
| Factories.EnemyChoice | src/ModelFactories.h:31 | The enemy choice is always Repvenator, Fighter or DeathRow. |
| Factories.EnemyChoiceReachable | src/ModelFactories.h:31 | Each of the three enemies is chosen by some draw. |
| Factories.AsteroidOffset | src/ModelFactories.h:37-40 | The asteroid offset has integer x in [−100, 99] and integer y in [−25, 74], and z is exactly −500. |
| Factories.AsteroidOffsetReachable | src/ModelFactories.h:37-40 | Every integer point of that range is produced by some draws. |
| Factories.AsteroidScale | src/ModelFactories.h:39 | The asteroid scale is 0.5 + k/50 for an integer k in [0, 49], hence within [0.5, 1.48]. |
| Factories.AsteroidScaleReachable | src/ModelFactories.h:39 | Each of the 50 scales is produced by some draw. |
| Factories.AsteroidChoice | src/ModelFactories.h:43 | The asteroid choice is always MystAsteroid or Asteroid1. |
| Factories.AsteroidChoiceReachable | src/ModelFactories.h:43 | Both asteroids are chosen by some draw. |
| Factories.DefaultArgumentsKeepPose | src/ModelFactories.cpp:29-36 | With the default arguments (position 0, rotation 0, scale 1), the copy's pose equals the template's. |
| Factories.AllLoadedInsert | src/ModelFactories.cpp:17-22 | Storing a model loaded from a name's path keeps every buffered model loaded from its own path. |
| Factories.BufferAll | src/ModelFactories.cpp:16-22 | The buffering loop ends with an entry for every name, each loaded from that name's path. |
| Factories.BufferOne | src/ModelFactories.cpp:18-21 | One iteration adds exactly the given name to the buffer, loaded from its path. |
| Factories.ModelFactory.constructor | src/ModelFactories.cpp:5-23 | After construction, the path table is the fixed seven-entry table and the buffer has exactly the seven names, each model loaded from its path. |
| Factories.ModelFactory.GetModel | src/ModelFactories.cpp:25-38 | Lookup fails exactly when the name is not buffered, since `at` throws. Otherwise the result is a fresh copy of the template, which is left untouched, with scale multiplied by `scale` and position moved by `position`. The rotation is extended only when the rotation vector is nonzero. |
| Factories.ModelFactory.GetRandomEnemy | src/ModelFactories.h:26-34 | A fresh copy of the chosen enemy template, moved by the random offset plus `position`, with unchanged rotation and scale. It always succeeds on a fully buffered factory. |
| Factories.ModelFactory.GetRandomAsteroid | src/ModelFactories.h:36-46 | A fresh asteroid of the chosen template, moved by the offset plus `position` and scaled by the random scale. Its velocity is the normalised direction from the spawn point to `target`, and its rotation is aligned with that velocity. |
| Fonts.ShiftOf | src/Font.cpp:32 | A glyph advance stored in a `GLuint` is reduced modulo 2^32, and kept as is when it already fits. |
| Fonts.LayoutAt | src/Font.cpp:73-102 | The i-th draw call uses character i's texture and its quad at the cursor reached after the first i characters. |
| Fonts.LayoutLength | src/Font.cpp:74-102 | One draw call per character. |
| Fonts.AdvanceMonotone | src/Font.cpp:73-101 | The cursor starts at 0 and never moves left: it only grows along the text. |
| Fonts.AdvanceNonNegative | src/Font.cpp:73-101 | The cursor is never negative. |
| Fonts.AdvanceAppend | src/Font.cpp:101 | The cursor after `s + t` is the cursor after `s` plus the cursor after `t`: it is the sum of `shift >> 6` over the text. |
| Fonts.QuadInCell | src/Font.cpp:81-92 | For any glyph of non-negative size, including empty ones such as the space, each of the 6 vertices lies inside the cell `[cursor+offset.x, +width] × [offset.y − height, offset.y]`. Its texture coordinates are in {0, 1}², and u = 0 only on the left edge, u = 1 only on the right, v = 0 only on the top and v = 1 only on the bottom. |
| Fonts.QuadEdgesExact | src/Font.cpp:81-92 | For a glyph with a non-empty bitmap, a vertex lies on the left, right, top or bottom edge exactly when u = 0, u = 1, v = 0 or v = 1 respectively. |
| Fonts.CharacterSizeNonNegative | src/Font.cpp:29-30 | Every stored glyph record has a non-negative size, so the cell lemma applies to every character. |
| Fonts.LayoutStep | src/Font.cpp:74-101 | One pass of the `draw` loop emits the next character's quad at the current cursor, then moves the cursor by that character's step. |
| Fonts.Font.constructor | src/Font.cpp:23-47 | The `unsigned char` loop terminates and fills all 128 entries, entry c from glyph c's metrics and texture name. |
| Fonts.Font.Draw | src/Font.cpp:68-106 | `draw` emits exactly the layout of the text. It needs every character code below 128, since `chars[sym]` is unchecked. |
| Game.Clamp | src/main.cpp:54 | `glm::clamp` keeps its result within the bounds and returns the value itself when it is already within them. |
| Game.PressReleaseRestores | src/main.cpp:97-146 | A press then a release of the same key restores `step` and `multiplier` exactly. |
| Game.OppositeKeysCancel | src/main.cpp:97-138 | A press of S undoes a press of W, D undoes A, and F undoes R. |
| Game.IgnoredEventsChangeNothing | src/main.cpp:95-162 | Repeat actions, Escape and unlisted keys leave `step`, `multiplier` and `camera_mode` unchanged. |
| Game.CameraModeKeys | src/main.cpp:147-156 | An F2 press selects first person and an F3 press selects third person; their releases change nothing. |
| Game.ReplayStepsIsNetSum | src/main.cpp:97-138 | After any sequence of key events, `step` is its start plus the net press count of each movement key times its direction. |
| Game.ReplayMultiplierIsPower | src/main.cpp:139-146 | After any sequence of events, `multiplier` is its start doubled once per net shift press (halved when negative). |
| Game.ReplayMultiplierIsProduct | src/main.cpp:139-146 | The same, as `multiplier × 2^net`. |
| Game.ScaleByPow2IsProduct | src/main.cpp:139-146 | Repeated doubling and halving equals multiplying by 2 to the net count. |
| Game.SmoothClosesGap | src/main.cpp:346 | One frame of smoothing shrinks the gap to `step` by the factor 0.95 and never overshoots. |
| Game.SmoothNGap | src/main.cpp:346 | After n frames the gap is 0.95^n times the initial gap. |
| Game.SpeedAfterLinear | src/main.cpp:454 | After n frames `speed_multiplier` has grown by exactly n·0.0001. |
| Game.Controls.constructor | src/main.cpp:33-94 | The callbacks' globals start at their initial values: multiplier 0.1, zero step, third person, no shooting, no mouse look. |
| Game.Controls.MouseMove | src/main.cpp:49-62 | `mx, my` always become 0.01 × the cursor position. Yaw and pitch change only while mouse look is permitted; yaw is then clamped to [−π/2, π/2]. |
| Game.Controls.MouseButtonEvent | src/main.cpp:67-82 | A left press or release sets or clears `permitMouseMove`. A right press sets `shoot`, which nothing resets. |
| Game.Controls.KeyboardControls | src/main.cpp:95-163 | One callback applies the step, multiplier and camera-mode transition of its event; Escape requests closing the window. |
| Game.Camera.constructor | src/Camera.h:23-28 | The camera starts at the origin in third-person mode. |
| Game.Camera.Move | src/Camera.h:30-32 | `move(v)` adds v to the position. |
| Game.GameState.constructor | src/main.cpp:185-334 | Initialisation gives score 0, hp 100, recharge rate 15, zero smoothing and speed vectors, and speed multiplier 1. The main ship is a copy of the E-45 template, and the two initial enemies are placed. |
| Game.GameState.InitObjects | src/main.cpp:290-293 | `init_objects` adds a Repvenator copy at (0, 0, −50) and an Asteroid1 copy at (10, 5, −35). |
| Game.GameState.ModifyEnv | src/main.cpp:343-356 | `smooth_step` moves 5% of the way toward `step`, and `camera_shift` is `multiplier × smooth_step`. The camera takes the mode and yaw/pitch and moves by the shift. |
| Game.GameState.Frame | src/main.cpp:450-454 | One frame applies `modify_env`: the smoothing step, camera shift, camera mode and (yaw, pitch) become what `ModifyEnv` gives. Then the main ship moves by the camera shift, particles advance by `speed_multiplier × enemies_speed`, and `speed_multiplier` grows by 0.0001. |

## Left out

- OpenGL, GLFW, DevIL, FreeType and Assimp calls (buffers, textures, shaders,
  windows, file reading) are foreign calls. Their results are parameters:
  - the imported `Scene`;
  - the texture name read from a path;
  - the glyph metrics and texture names.

  `read_texture`, `init_GL`, `compile_shaders`, `load_skybox`,
  `SkyBox::create`, `Crosshair`, every `draw`/`draw_*` and the shadow-map
  and shader-program files are not part of this model.
- Floating point: `float` is `real`, so rounding, NaN and infinities are not
  modelled. The ray test requires nonzero inverse-direction components.
- glm matrix and quaternion math is kept symbolic:
  - a rotation is a list of `Turn` factors (axis-angle, rotation vector,
    align-z-to-direction);
  - `getWorldTransform` and `Camera::getViewTransform` are not modelled;
  - `Models.Model.WorldBBox` covers `getBBox` only for the identity
    rotation.
- `Factories.ModelFactory.GetModel`: the rotation by `l2Norm(r)` about
  `r / l2Norm(r)` is recorded as one rotation-vector factor, because the
  norm needs a square root.
- `Models.Asteroid.constructor`: the rotation `glm::rotation(+z,
  normalize(velocity))` is recorded as one align-to-direction factor.
  `normalize` in `get_random_asteroid` is a parameter, since it is
  undefined for a zero vector.
- `rand()`, `std::random_device` and `mt19937` are inputs: draws are
  non-negative integers, and particle coordinates are given values in
  [−50, 50).
- `Objects.Particles.constructor`: a negative `nb_particles` (where
  `reserve` would throw) is excluded by the type `nat`.
- `Fonts.Font.Draw`: characters with codes 128 and above (negative `char`
  values, which index outside `chars`) are excluded by its precondition.
- `Game.GameState.ModifyEnv`: the cursor-position query and the
  view/perspective matrices are left out. The camera rotation is the
  (yaw, pitch) pair rather than a quaternion.
- `Game.GameState.constructor`: `init()` calls `model_factory.load()`,
  `crosshair.init()` and `laser.init()` (src/main.cpp:315-320), which the
  factory header and src/Object.h do not declare. The
  factory constructor does the buffering, so the game state takes an
  already built factory.
- `Factories.ModelFactory.constructor`: it does not state that the
  buffered models are freshly allocated. It states that each one is loaded
  from its path.
- `read_texture` is a pure function of the path, so two materials naming
  the same file get the same texture name. In the program every call runs
  `glGenTextures` and returns a fresh name. No contract here relies on
  names being distinct or equal.
- `enemies_speed` is zero and the shown loop never changes it. The loop also
  has no hit-testing, damage, scoring or spawning, so none is modelled.

## Findings

| source | as written | input that shows it | evidently intended | confidence | as-written member | corrected member |
|---|---|---|---|---|---|---|
| src/Object.cpp:174 | `glBufferData(GL_ARRAY_BUFFER, 3 * nb_particles, …)` passes a count of floats where a size in bytes is expected | `nb_particles = 1000` (src/main.cpp:321): 3000 bytes are uploaded, but `draw` reads 1000 points of 3 floats, which is 12000 bytes | `3 * nb_particles * sizeof(GLfloat)` bytes | not executed | Objects.ParticleBufferTooSmallAsWritten | Objects.ParticleBufferFitsDrawnPoints |
