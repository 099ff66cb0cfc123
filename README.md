# OpenGL 3D scene viewer — the core logic

The scene viewer draws a room of models lit by point and spot lights, seen
through an orbit camera that the collision manager keeps inside the room. The
logic between the GL calls is modelled here over real numbers. That logic covers:

- the collision core, with its axis-aligned boxes, spheres, the six-slab room and per-axis sliding;
- the light state and the light list;
- the camera's spherical coordinates and dirty flags;
- the Wavefront OBJ and MTL readers, which work line by line;
- the two model builders: `Model.cpp` over tinyobjloader, and `ModelManager` over the OBJ reader;
- the texture memo cache and the model transform.

One Dafny module per source file:

| module | file | source |
|---|---|---|
| `Vectors`, `Wrappers` | vectors.dfy, wrappers.dfy | vectors, `Math` (uninterpreted sqrt, sin, cos, atan2, acos, normalize), symbolic matrices, Option/Result |
| `Collision` | collision.dfy | `CollisionManager.h` |
| `Light` | light.dfy | `CLight.cpp` |
| `LightManager` | light_manager.dfy | `CLightManager.cpp` |
| `Camera` | camera.dfy | `CCamera.cpp` |
| `Text` | text.dfy | the `>>`/`getline`/`stoi` tokenising and the directory helpers both loaders share |
| `Numbers` | numbers.dfy | `>> float` on a string stream, which both loaders use to read numbers |
| `MtlLoader` | mtl_loader.dfy | `MTLLoader.cpp` |
| `ObjLoader` | obj_loader.dfy | `OBJLoader.cpp` |
| `Transforms` | transform.dfy | `Transform.h` |
| `MeshModel` | mesh_model.dfy | `Model.cpp` |
| `TexturePool` | texture_pool.dfy | `CTexturePool.cpp` |
| `Manager` | model_manager.dfy | `ModelManager.h`, `ModelManger.cpp` |

Objects whose fields the source updates in place are classes. These are
`CollisionManager`, `CLight`, `CLightManager`, `CCamera`, `MTLLoader`,
`OBJLoader`, `Model`, `CTexturePool` and `ModelManager`. Their methods state
the whole new state, usually through a specification function on values,
and the properties of that function are proved as lemmas. The value types are
datatypes: boxes, spheres, faces, materials, transforms and meshes.

How the model stands in for what it cannot see:

- **Files** are a map from path to lines. A missing path is a file that does not open.
- **Transcendental functions** (square roots, sines, `normalize`) are fields of a `Math` record of function values.
- **Matrices** are symbolic terms: `LookAt`, `Perspective`, `Translate`, `Product`, ….
- **Image decoding and texture upload** are function values: `TextureApi`, the `loadTexture` parameter of `Model.LoadModel`, and the loader passed to `GetTexture`.
- **tinyobjloader** is its result value, `TinyObj`.

## Model

| member | source | states |
|---|---|---|
| Collision.ShiftBox | OpenGL4Test/common/CollisionManager.h:25-35 | moving a box keeps its extent and well-formedness, and p is inside the old box iff p + offset is inside the new one |
| Collision.ClosestPoint | OpenGL4Test/common/CollisionManager.h:53-56 | the clamped point lies in a well-formed box and is the centre itself when the centre is inside |
| Collision.LengthBelowIffSquaredBelow | OpenGL4Test/common/CollisionManager.h:47-58 | `length < r` holds exactly when r > 0 and the squared length is below r², so the squared tests are the source's tests |
| Collision.BoxesIntersectSymmetric | OpenGL4Test/common/CollisionManager.h:18-22 | the closed slab test is symmetric |
| Collision.WellFormedBoxIntersectsItself | OpenGL4Test/common/CollisionManager.h:18-22 | a box with min ≤ max intersects itself |
| Collision.SpheresIntersectSymmetric | OpenGL4Test/common/CollisionManager.h:47-50 | sphere–sphere intersection is symmetric |
| Collision.BoxContains | OpenGL4Test/common/CollisionManager.h:25-29 | p is inside the closed box, and only a well-formed box contains a point |
| Collision.BoxesIntersect | OpenGL4Test/common/CollisionManager.h:18-22 | for well-formed boxes, the slab test holds iff the two boxes share a point |
| Collision.SpheresIntersect | OpenGL4Test/common/CollisionManager.h:47-50 | a hit needs a positive radius sum, and spheres with the same centre intersect iff that sum is positive |
| Collision.SphereHitsBox | OpenGL4Test/common/CollisionManager.h:53-58 | a hit needs a positive radius; a sphere whose centre is in the box hits it iff its radius is positive |
| Collision.Collides | OpenGL4Test/common/CollisionManager.h:128-168 | true iff the collider at p hits some wall or some box obstacle; never for radius ≤ 0 |
| Collision.TouchingIsNotCollision | OpenGL4Test/common/CollisionManager.h:53-58 | a distance exactly equal to the radius is not a collision |
| Collision.RoomWalls | OpenGL4Test/common/CollisionManager.h:83-119 | the room has six slabs, each with min ≤ max when half-size and thickness are non-negative |
| Collision.SlideAxes | OpenGL4Test/common/CollisionManager.h:179-196 | each component of the slide is the movement's own component when that axis-only move is free, else 0 |
| Collision.SafeMovement | OpenGL4Test/common/CollisionManager.h:200-211 | the movement unchanged when its target is free, the per-axis slide otherwise |
| Collision.BlockedAxesContributeNothing | OpenGL4Test/common/CollisionManager.h:171-211 | with the target and all three axis moves blocked, the safe movement is zero |
| Collision.RoomCentreIsFree | OpenGL4Test/common/CollisionManager.h:69-76 | with collider radius 1.3 the room centre (0, 10.1, 0) touches no wall |
| Collision.LongStepPassesThroughWall | OpenGL4Test/common/CollisionManager.h:200-207 | a 100-unit step from the centre ends beyond the right wall and is returned whole, although its path is not free: only the target is tested |
| Collision.LongStepPathBlocked | OpenGL4Test/common/CollisionManager.h:200-207 | a tenth of the way along that step, at (10, 10.1, 0), the collider is inside the right wall |
| Collision.SweptSafeMovement | OpenGL4Test/common/CollisionManager.h:200-211 | corrected: a movement whose whole path is free is kept; otherwise only axis moves whose own paths are free survive |
| Collision.SweptStopsLongStep | OpenGL4Test/common/CollisionManager.h:200-211 | corrected: the same long step is stopped entirely |
| Collision.CollisionManager.constructor | OpenGL4Test/common/CollisionManager.h:65-76 | the six default walls, no obstacles, collider radius 1.3; the unused radius 0.3 is kept apart |
| Collision.CollisionManager.InitializeWalls | OpenGL4Test/common/CollisionManager.h:79-120 | the wall list is exactly the six room slabs, so a second call gives the same list |
| Collision.CollisionManager.AddObstacle | OpenGL4Test/common/CollisionManager.h:123-125 | the obstacle is appended |
| Collision.CollisionManager.ClearObstacles | OpenGL4Test/common/CollisionManager.h:237 | no obstacles remain |
| Collision.CollisionManager.GetCameraRadius | OpenGL4Test/common/CollisionManager.h:231 | the collider's radius |
| Collision.CollisionManager.SetCameraRadius | OpenGL4Test/common/CollisionManager.h:234 | only the collider's radius changes |
| Collision.CollisionManager.WallCount | OpenGL4Test/common/CollisionManager.h:240 | the number of walls |
| Collision.CollisionManager.ObstacleCount | OpenGL4Test/common/CollisionManager.h:243 | the number of obstacles |
| Collision.CollisionManager.CheckCameraCollision | OpenGL4Test/common/CollisionManager.h:128-168 | the collider is moved to p, and the answer is true iff some wall or box obstacle is hit; sphere obstacles are not consulted |
| Collision.CollisionManager.CalculateSliding | OpenGL4Test/common/CollisionManager.h:171-197 | the movement when its target is free, else the sum of the free axis-only moves |
| Collision.CollisionManager.GetSafeMovement | OpenGL4Test/common/CollisionManager.h:200-211 | the result is `SafeMovement` of the current walls and obstacles |
| Collision.CollisionManager.Raycast | OpenGL4Test/common/CollisionManager.h:214-228 | a hit iff one of the 20 samples origin + dir·(max/20)·i collides; the hit point is the first such sample, and it is untouched on a miss |
| Light.PinAlpha | OpenGL4Test/common/CLight.cpp:13 | the rgb is kept and w becomes 1 |
| Light.ScaleColour | OpenGL4Test/common/CLight.cpp:64-70 | setIntensity on one colour: w is re-pinned to 1 |
| Light.ScaleColourCompounds | OpenGL4Test/common/CLight.cpp:64-70 | two intensity changes k1, k2 equal one change by k1·k2 |
| Light.ScaleByOneKeepsColour | OpenGL4Test/common/CLight.cpp:64-70 | intensity 1 leaves a colour with w = 1 unchanged |
| Light.AdvanceClock | OpenGL4Test/common/CLight.cpp:206-207 | the clock stays below 4, is non-negative when clock + dt is, and resets to 0 rather than wrapping |
| Light.RotateY | OpenGL4Test/common/CLight.cpp:220-222 | rotating about the y axis keeps y |
| Light.MovedTo | OpenGL4Test/common/CLight.cpp:46-52 | the position is replaced; a spot light is re-aimed at its target, a point light keeps its direction, nothing else changes |
| Light.Step | OpenGL4Test/common/CLight.cpp:197-229 | with motion off nothing changes; otherwise the clock advances and the light moves to rotateY(clock·π/2) of its start; only the clock, position and direction change |
| Light.StepsKeepOrbit | OpenGL4Test/common/CLight.cpp:202-229 | after any number of updates, the clock stays in [0, 4) and the height equals the start height |
| Light.StepsWithoutMotion | OpenGL4Test/common/CLight.cpp:197-200 | with motion off, any number of updates change nothing |
| Light.SpotPart | OpenGL4Test/common/CLight.cpp:117-126 | spot uniforms exist iff the light is a spot light, and they carry its direction and cut-offs |
| Light.ShaderIdUniforms | OpenGL4Test/common/CLight.cpp:85-126 | zero colours while the light is off, the stored colours while it is on |
| Light.UpdateUniforms | OpenGL4Test/common/CLight.cpp:136-179 | the stored colours whatever the on flag; spot lights also send the exponent |
| Light.UploadsAgreeIffOnPoint | OpenGL4Test/common/CLight.cpp:85-179 | the two uploads coincide exactly for a point light that is on |
| Light.OrbitDeterminism | OpenGL4Test/common/CLight.cpp:202-229 | two updates inside one clock period give the same state as one update by their sum |
| Light.NewLightsAimed | OpenGL4Test/common/CLight.cpp:8-41 | both constructors make a light that, if it is a spot light, points from its position to its target |
| Light.MovedToAndTargetSetAim | OpenGL4Test/common/CLight.cpp:46-52 | setPos and setTarget leave any light aimed at its target |
| Light.StepsKeepAim | OpenGL4Test/common/CLight.cpp:197-229 | any number of updates keep an aimed light aimed |
| Light.CutOffKeepsSpotAim | OpenGL4Test/common/CLight.cpp:190-195 | new cut-offs keep an aimed spot light aimed |
| Light.CutOffBreaksAim | OpenGL4Test/common/CLight.cpp:190-195 | as written: a new point light at (1, 1, 0) given cut-offs becomes a spot light that does not point at its target |
| Light.CutOffSetAimed | OpenGL4Test/common/CLight.cpp:190-195 | corrected: the light becomes an aimed spot light, and differs from the source only in its direction, and only for a light that was a point light |
| Light.CLight.PointLight | OpenGL4Test/common/CLight.cpp:8-21 | a POINT light with intensity 1, w pinned to 1, start at the position, motion off, clock 0, lighting on |
| Light.CLight.SpotLight | OpenGL4Test/common/CLight.cpp:29-41 | a SPOT light aimed at its target, with cut-offs stored as cosines |
| Light.CLight.SetPos | OpenGL4Test/common/CLight.cpp:46-52 | the new state is `MovedTo` |
| Light.CLight.SetAmbient | OpenGL4Test/common/CLight.cpp:55 | only the ambient colour changes |
| Light.CLight.SetDiffuse | OpenGL4Test/common/CLight.cpp:58 | only the diffuse colour changes |
| Light.CLight.SetSpecular | OpenGL4Test/common/CLight.cpp:61 | only the specular colour changes |
| Light.CLight.SetIntensity | OpenGL4Test/common/CLight.cpp:64-70 | the three colours are scaled in place, so repeated calls compound |
| Light.CLight.SetAttenuation | OpenGL4Test/common/CLight.cpp:72-74 | only the three attenuation terms change |
| Light.CLight.SetLightOn | OpenGL4Test/common/CLight.cpp:79 | only the on flag changes |
| Light.CLight.ToggleMotion | OpenGL4Test/common/CLight.cpp:82 | the motion flag flips |
| Light.CLight.SetTarget | OpenGL4Test/common/CLight.cpp:184-188 | the light is aimed at the target and becomes SPOT |
| Light.CLight.SetCutOffDeg | OpenGL4Test/common/CLight.cpp:190-195 | cosines of the angles are stored and the light becomes SPOT |
| Light.CLight.Update | OpenGL4Test/common/CLight.cpp:197-200 | the new state is `Step` |
| Light.CLight.UpdateMotion | OpenGL4Test/common/CLight.cpp:202-229 | the new state is `Step` with motion on |
| Light.CLight.SetShaderID | OpenGL4Test/common/CLight.cpp:85-134 | the program and name are stored, and the upload is `ShaderIdUniforms` of the state before the call |
| Light.CLight.UpdateToShader | OpenGL4Test/common/CLight.cpp:136-179 | the upload is `UpdateUniforms` of the state |
| LightManager.ManagerSlot | OpenGL4Test/common/CLightManager.cpp:49-106 | a slot carries the colours (zeros when off), enabled = 1 iff the light is on, and spot data only for spot lights |
| LightManager.OffSlotIsDark | OpenGL4Test/common/CLightManager.cpp:58-61 | a light that is off contributes zero ambient, diffuse and specular and enabled = 0 |
| LightManager.SlotsOf | OpenGL4Test/common/CLightManager.cpp:49 | one slot per light, in list order |
| LightManager.CLightManager.constructor | OpenGL4Test/common/CLightManager.cpp:6-8 | no lights and program 0 |
| LightManager.CLightManager.AddLight | OpenGL4Test/common/CLightManager.cpp:15-19 | appends iff there are fewer than 8 lights and the light is not null, so the list never exceeds 8 |
| LightManager.CLightManager.RemoveLight | OpenGL4Test/common/CLightManager.cpp:21-25 | removes exactly element i and keeps the order; an index out of range is a no-op |
| LightManager.CLightManager.ClearLights | OpenGL4Test/common/CLightManager.cpp:27-29 | the list is empty |
| LightManager.CLightManager.GetLightCount | OpenGL4Test/common/CLightManager.h:35 | the list length |
| LightManager.CLightManager.GetLight | OpenGL4Test/common/CLightManager.cpp:128-133 | element i when in range, else null |
| LightManager.CLightManager.SetShaderID | OpenGL4Test/common/CLightManager.cpp:31-39 | the program is stored, the count is written, and the upload follows |
| LightManager.CLightManager.UpdateAllLightsToShader | OpenGL4Test/common/CLightManager.cpp:41-108 | nothing with program 0; otherwise the count and one `ManagerSlot` per light, for at most 8 lights in order |
| LightManager.CLightManager.Update | OpenGL4Test/common/CLightManager.cpp:110-114 | every light is stepped once per occurrence in the list |
| LightManager.CLightManager.UpdatePrefix | OpenGL4Test/common/CLightManager.cpp:110-114 | the loop over the first n entries steps each light once per occurrence among them |
| LightManager.UpdateAt | OpenGL4Test/common/CLightManager.cpp:111-113 | one pass of the loop steps the i-th light, and no other |
| LightManager.AdvanceOne | OpenGL4Test/common/CLightManager.cpp:110-114 | the loop invariant advances by one light |
| Camera.OrbitOf | OpenGL4Test/common/CCamera.cpp:116-129 | below 1e-5 the orbit is radius 1, theta 0, phi π/2; otherwise the radius is the length of the offset, which is not clamped to 1 |
| Camera.SphericalViewAtRadius | OpenGL4Test/common/CCamera.cpp:140-147 | the re-placed eye is exactly `radius` from the centre |
| Camera.ClampPhi | OpenGL4Test/common/CCamera.cpp:56-57 | phi lies in [0.1, π−0.1] and is unchanged when already inside |
| Camera.RadiusUpdate | OpenGL4Test/common/CCamera.cpp:149-195 | the settled radius is at least 1 |
| Camera.FreeZoomReachesTarget | OpenGL4Test/common/CCamera.cpp:149-182 | an unblocked zoom reaches the point at the new radius |
| Camera.BlockedZoomStays | OpenGL4Test/common/CCamera.cpp:149-182 | a fully blocked zoom leaves the eye in place |
| Camera.NoMovementStays | OpenGL4Test/common/CCamera.cpp:149-195 | a zero safe movement leaves the eye where it was, with its own distance as radius, once that is at least 1 |
| Camera.CCamera.constructor | OpenGL4Test/common/CCamera.cpp:17-34 | eye (5,5,5) looking at the origin, a 60° perspective, type PERSPECTIVE, both flags set |
| Camera.CCamera.UpdatePerspective | OpenGL4Test/common/CCamera.cpp:36-41 | a perspective matrix, type PERSPECTIVE, projection flag set |
| Camera.CCamera.UpdateOrthographic | OpenGL4Test/common/CCamera.cpp:43-48 | an orthographic matrix, type ORTHOGRAPHIC, projection flag set |
| Camera.CCamera.ProcessMouseMovement | OpenGL4Test/common/CCamera.cpp:50-60 | theta += dx·s; phi is clamped from phi − dy·s into [0.1, π−0.1]; the eye is re-placed |
| Camera.CCamera.ProcessMouseScroll | OpenGL4Test/common/CCamera.cpp:62-67 | radius becomes max(radius − delta·s, 1) and the view matrix is rebuilt from the unmoved eye |
| Camera.CCamera.GetViewLocation | OpenGL4Test/common/CCamera.cpp:69-72 | the eye |
| Camera.CCamera.UpdateView | OpenGL4Test/common/CCamera.cpp:74-90 | the eye is replaced and the orbit is `OrbitOf` of the new offset |
| Camera.CCamera.UpdateCenter | OpenGL4Test/common/CCamera.cpp:92-110 | the centre is replaced and the orbit recomputed |
| Camera.CCamera.UpdateViewCenter | OpenGL4Test/common/CCamera.cpp:112-131 | both are replaced and the orbit recomputed |
| Camera.CCamera.Reorbit | OpenGL4Test/common/CCamera.cpp:116-130 | the shared tail of the three setters |
| Camera.CCamera.UpdateViewMatrix | OpenGL4Test/common/CCamera.cpp:133-137 | lookAt of the eye, view flag set |
| Camera.CCamera.UpdateViewMatrixAt | OpenGL4Test/common/CCamera.cpp:140-147 | the eye is placed on the sphere of the given angles |
| Camera.CCamera.UpdateRadius | OpenGL4Test/common/CCamera.cpp:149-195 | the eye moves by the collision manager's safe movement, and the radius ends ≥ 1 |
| Camera.CCamera.GetProjectionMatrix | OpenGL4Test/common/CCamera.cpp:197-200 | the projection matrix |
| Camera.CCamera.GetViewMatrix | OpenGL4Test/common/CCamera.cpp:202-205 | the view matrix |
| Camera.CCamera.GetProjectionType | OpenGL4Test/common/CCamera.cpp:217-220 | the projection type |
| Camera.CCamera.GetViewProjectionMatrix | OpenGL4Test/common/CCamera.cpp:207-215 | recomputes only when a flag is set, then clears both, so a second call changes nothing |
| Text.WordLength | OpenGL4Test/common/OBJLoader.cpp:86-88 | the leading run of non-blanks |
| Text.Tokens | OpenGL4Test/common/OBJLoader.cpp:86-88 | the words `>>` extracts: non-empty and blank-free |
| Text.FirstToken | OpenGL4Test/common/OBJLoader.cpp:86-88 | the prefix word, or "" on a blank line |
| Text.Args | OpenGL4Test/common/OBJLoader.cpp:92-106 | the words after the prefix |
| Text.AfterFirstToken | OpenGL4Test/common/OBJLoader.cpp:111-112 | what getline reads after the prefix |
| Text.TokensAfterFirst | OpenGL4Test/common/OBJLoader.cpp:111-113 | the rest of the line splits into exactly the words after the first |
| Text.GetlineFields | OpenGL4Test/common/OBJLoader.cpp:42 | the '/'-separated fields, none containing '/' |
| Text.DigitsRoundTrip | OpenGL4Test/common/OBJLoader.cpp:44 | reading a printed natural gives it back |
| Text.DigitRun | OpenGL4Test/common/OBJLoader.cpp:44 | the leading digits, all digits, followed by a non-digit |
| Text.IntPrefixOfNumeral | OpenGL4Test/common/OBJLoader.cpp:44 | stoi reads back a printed number and its negation |
| Text.DigitRunUpTo | OpenGL4Test/common/OBJLoader.cpp:44 | a run of digits that ends at a non-digit, or at the end, is exactly the digit run read there |
| Numbers.NumberPrefix | OpenGL4Test/common/OBJLoader.cpp:92-93 | `>> float` takes a non-empty prefix of the word: sign, digits with one point, and an exponent |
| Numbers.ReadReals | OpenGL4Test/common/OBJLoader.cpp:92-94 | always n values; after the first failed read the rest are 0 |
| Numbers.ReadRealsOfNumbers | OpenGL4Test/common/OBJLoader.cpp:92-94 | words that are whole numbers are read in order as their values |
| Numbers.ReadRealsOfNothing | OpenGL4Test/common/MTLLoader.cpp:18-26 | with no words left every value is 0 |
| Numbers.DigitsWordReadsBack | OpenGL4Test/common/OBJLoader.cpp:93 | a word of digits, after an optional minus, reads as the value of its digits |
| Numbers.IntegerWordReadsBack | OpenGL4Test/common/OBJLoader.cpp:93 | a printed integer reads back as itself, with or without a minus |
| Numbers.DecimalWordReadsBack | OpenGL4Test/common/OBJLoader.cpp:93 | a word "i.f" reads back as i plus f over 10 to the number of fraction digits |
| Numbers.DecimalIsFraction | OpenGL4Test/common/OBJLoader.cpp:93 | the mantissa value is the integer part plus the fraction over a power of ten |
| Numbers.NegativeExponentWordReadsBack | OpenGL4Test/common/OBJLoader.cpp:93 | a word "de-k" reads as d over 10 to the k |
| Numbers.DecimalPrefix | OpenGL4Test/common/MTLLoader.cpp:18-26 | a decimal followed by a character that cannot continue a number is read as a prefix, and the rest of the word is left in the stream |
| Numbers.ExponentExample | OpenGL4Test/common/OBJLoader.cpp:90-94 | the words "1e-3 2 3" are read as 0.001, 2 and 3 |
| Numbers.PartialWordExample | OpenGL4Test/common/MTLLoader.cpp:18-26 | the words "0.5x 0.2 0.3" are read as 0.5, 0 and 0: the second read fails on the "x" |
| Text.TrimEnd | OpenGL4Test/common/MTLLoader.cpp:69-70 | a prefix of the line with every trailing " \t\r\n" removed and no other character |
| Text.LastIndexOf | OpenGL4Test/common/Model.cpp:485 | the last occurrence of c, or none when c is absent |
| Text.LastSeparator | OpenGL4Test/common/OBJLoader.cpp:25 | the last '/' or '\\' |
| Text.DirectoryWithSeparator | OpenGL4Test/common/OBJLoader.cpp:24-30 | the prefix up to and including the last separator, else "./"; it always ends in a separator |
| Text.DirectoryOfJoined | OpenGL4Test/common/MTLLoader.cpp:10-16 | the directory of dir + name is dir |
| Text.LastSeparatorOfJoined | OpenGL4Test/common/OBJLoader.cpp:120 | the last separator of dir + name is dir's last character |
| Text.LexTotal | OpenGL4Test/common/MTLLoader.cpp:150-156 | string order is total |
| Text.LexAntisymmetric | OpenGL4Test/common/MTLLoader.cpp:150-156 | string order is antisymmetric |
| Text.LexTransitive | OpenGL4Test/common/MTLLoader.cpp:150-156 | string order is transitive |
| Text.LeastExists | OpenGL4Test/common/MTLLoader.cpp:150-156 | a non-empty set of names has a least element |
| Text.LexReflexive | OpenGL4Test/common/MTLLoader.cpp:150-156 | string order is reflexive |
| Text.Least | OpenGL4Test/common/MTLLoader.cpp:150-156 | the least name of a set |
| Text.SortedStrings | OpenGL4Test/common/MTLLoader.cpp:150-156 | each key once, in ascending order: a std::map's iteration order |
| MtlLoader.DefaultMaterial | OpenGL4Test/common/MTLLoader.h:29-34 | Ka 0.2, Kd 0.8, Ks 1, Ns 32, d 1, no maps |
| MtlLoader.ParseVec3 | OpenGL4Test/common/MTLLoader.cpp:18-26 | the three numbers after the prefix; missing ones are 0 |
| MtlLoader.ThreeNumbersRead | OpenGL4Test/common/MTLLoader.cpp:18-26 | three words that are whole numbers are read as their values |
| MtlLoader.PartialReadExample | OpenGL4Test/common/MTLLoader.cpp:18-26 | "Kd 0.5x 0.2 0.3" gives (0.5, 0, 0) |
| MtlLoader.ParseFloat | OpenGL4Test/common/MTLLoader.cpp:28-36 | the number at the front of the first word after the prefix, or 0 when there is none |
| MtlLoader.ParseString | OpenGL4Test/common/MTLLoader.cpp:38-46 | the first word after the prefix, or "" |
| MtlLoader.ApplyAttribute | OpenGL4Test/common/MTLLoader.cpp:90-115 | the name and `bump` are kept, and both "map_bump" and "bump" set `map_bump` |
| MtlLoader.MtlLine | OpenGL4Test/common/MTLLoader.cpp:66-136 | skipped lines change nothing; newmtl resets the name to the defaults and makes it current; attributes before any newmtl are ignored, and later ones change only the current material |
| MtlLoader.MtlRead | OpenGL4Test/common/MTLLoader.cpp:56-137 | the current material, when there is one, is in the map |
| MtlLoader.NoNewMtlNoMaterials | OpenGL4Test/common/MTLLoader.cpp:90-115 | a file without newmtl yields no materials |
| MtlLoader.BumpNeverWritten | OpenGL4Test/common/MTLLoader.cpp:112-113 | no material's `bump` field is ever set |
| MtlLoader.StoredUnderOwnName | OpenGL4Test/common/MTLLoader.cpp:79-88 | every material is stored under its own name |
| MtlLoader.RedeclarationResets | OpenGL4Test/common/MTLLoader.cpp:79-88 | right after `newmtl N`, N holds the defaults |
| MtlLoader.MTLLoader.constructor | OpenGL4Test/common/MTLLoader.cpp:8 | no materials and an empty base path |
| MtlLoader.MTLLoader.LoadMTL | OpenGL4Test/common/MTLLoader.cpp:48-139 | false with nothing changed iff the file does not open; otherwise the old materials are dropped, and the result is `MtlRead` with the file's directory as base path |
| MtlLoader.MTLLoader.GetMaterial | OpenGL4Test/common/MTLLoader.cpp:142-148 | the named material, or none |
| MtlLoader.MTLLoader.GetMaterialNames | OpenGL4Test/common/MTLLoader.cpp:150-156 | every name once, sorted, as many as `GetMaterialCount` |
| MtlLoader.MTLLoader.GetMaterialCount | OpenGL4Test/common/MTLLoader.cpp:158-160 | the number of materials |
| MtlLoader.MTLLoader.Clear | OpenGL4Test/common/MTLLoader.cpp:162-165 | no materials and an empty base path |
| MtlLoader.MTLLoader.GetBasePath | OpenGL4Test/common/MTLLoader.cpp:167-169 | the base path |
| ObjLoader.Triple.With | OpenGL4Test/common/OBJLoader.cpp:46-52 | one index is replaced and the other two are kept |
| ObjLoader.NewFace | OpenGL4Test/common/OBJLoader.cpp:18-22 | all nine indices are −1 |
| ObjLoader.FaceOf | OpenGL4Test/common/OBJLoader.cpp:32-61 | the face is tagged with the current material |
| ObjLoader.EmptyFaceLine | OpenGL4Test/common/OBJLoader.cpp:32-61 | a face line without words leaves every index at −1 |
| ObjLoader.SkippedTextureField | OpenGL4Test/common/OBJLoader.cpp:42-53 | for "a//c", v = a−1, vt stays −1 and vn = c−1 |
| ObjLoader.ObjLine | OpenGL4Test/common/OBJLoader.cpp:81-133 | an `f` line appends `FaceOf` with the current material; `usemtl X` makes X current; other lines touch neither |
| ObjLoader.ExponentVertexExample | OpenGL4Test/common/OBJLoader.cpp:90-94 | "v 1e-3 2 3" appends the vertex (0.001, 2, 3) |
| ObjLoader.ObjRead | OpenGL4Test/common/OBJLoader.cpp:74-134 | the material library last loaded is a file that opened |
| ObjLoader.FacesTakeCurrentMaterial | OpenGL4Test/common/OBJLoader.cpp:108-133 | until the next `usemtl`, every face carries the current material |
| ObjLoader.UseMtlSetsMaterial | OpenGL4Test/common/OBJLoader.cpp:127-133 | after `usemtl X` the current material is X |
| ObjLoader.CornerData | OpenGL4Test/common/OBJLoader.cpp:153-180 | 8 floats for a valid position and 5 otherwise |
| ObjLoader.FaceData | OpenGL4Test/common/OBJLoader.cpp:152-181 | between 15 and 24 floats for one face |
| ObjLoader.VertexData | OpenGL4Test/common/OBJLoader.cpp:148-183 | between 15·\|faces\| and 24·\|faces\| floats |
| ObjLoader.VertexDataLength | OpenGL4Test/common/OBJLoader.cpp:148-183 | between 15 and 24 floats per face, and exactly 24·\|faces\| iff every position index is valid |
| ObjLoader.GroupName | OpenGL4Test/common/OBJLoader.cpp:220-225 | never empty: "" becomes "default" |
| ObjLoader.Grouped | OpenGL4Test/common/OBJLoader.cpp:217-229 | every group holds at least one face, and only faces of that group |
| ObjLoader.FacesIn | OpenGL4Test/common/OBJLoader.cpp:217-229 | a subsequence of the faces, all in the named group |
| ObjLoader.GroupedIsFiltering | OpenGL4Test/common/OBJLoader.cpp:217-229 | a key exists iff some face is in that group, and each group is that group's faces in file order |
| ObjLoader.FacesInAbsent | OpenGL4Test/common/OBJLoader.cpp:217-229 | an unused name has no faces |
| ObjLoader.GroupSizesSum | OpenGL4Test/common/OBJLoader.cpp:217-229 | the group sizes sum to \|faces\| |
| ObjLoader.GroupSizesEmpty | OpenGL4Test/common/OBJLoader.cpp:217-229 | no faces means empty groups |
| ObjLoader.GroupSizesStep | OpenGL4Test/common/OBJLoader.cpp:217-229 | one more face adds one to its own group |
| ObjLoader.OBJLoader.constructor | OpenGL4Test/common/OBJLoader.h:33-42 | empty data, no current material, a fresh empty MTL loader |
| ObjLoader.OBJLoader.ParseFace | OpenGL4Test/common/OBJLoader.cpp:32-61 | the nested loops produce `FaceOf` |
| ObjLoader.OBJLoader.LoadOBJ | OpenGL4Test/common/OBJLoader.cpp:63-146 | false with nothing changed iff the file does not open; otherwise the data is `ObjRead` over cleared data, and the MTL loader holds the last library that opened |
| ObjLoader.OBJLoader.ReadLine | OpenGL4Test/common/OBJLoader.cpp:81-133 | one pass of the loop is `ObjLine`; the MTL loader is unchanged or holds the library of a file that opened |
| ObjLoader.OBJLoader.GetVertexData | OpenGL4Test/common/OBJLoader.cpp:148-183 | the data is `VertexData` |
| ObjLoader.OBJLoader.CornerOf | OpenGL4Test/common/OBJLoader.cpp:153-180 | the inner loop body gives `CornerData` of the corner |
| ObjLoader.OBJLoader.GetVertexCount | OpenGL4Test/common/OBJLoader.cpp:185-187 | three corners per face |
| ObjLoader.OBJLoader.GetFacesByMaterial | OpenGL4Test/common/OBJLoader.cpp:217-229 | the groups are `Grouped` |
| ObjLoader.OBJLoader.GetMaterialNames | OpenGL4Test/common/OBJLoader.cpp:209-211 | the MTL names, each once, sorted |
| ObjLoader.OBJLoader.GetMaterial | OpenGL4Test/common/OBJLoader.cpp:213-215 | the named MTL material, or none |
| ObjLoader.FaceDataIsCorners | OpenGL4Test/common/OBJLoader.cpp:152-181 | the inner loop's three corners are the face's data |
| Transforms.Transform.SetUniformScale | OpenGL4Test/common/Transform.h:29-31 | all three scale factors are u, and position and rotation are kept |
| Transforms.Transform.SetScale | OpenGL4Test/common/Transform.h:34-36 | only the scale changes |
| Transforms.Transform.SetPosition | OpenGL4Test/common/Transform.h:39-41 | only the position changes |
| Transforms.Transform.SetRotation | OpenGL4Test/common/Transform.h:44-46 | only the rotation changes |
| Transforms.Transform.GetMatrix | OpenGL4Test/common/Transform.h:15-26 | translate · Rx · Ry · Rz · scale, with the angles in radians |
| Transforms.DefaultTransform | OpenGL4Test/common/Transform.h:12 | position 0, rotation 0, scale 1 |
| Transforms.UniformScaleIsScale | OpenGL4Test/common/Transform.h:29-36 | the uniform setter is the three-axis setter with equal factors |
| Transforms.SettersCommute | OpenGL4Test/common/Transform.h:34-46 | setters of different fields commute, and the last write to a field wins |
| Transforms.DefaultMatrix | OpenGL4Test/common/Transform.h:12-26 | the default matrix has zero translation, zero angles and unit scale |
| TexturePool.Lookup | OpenGL4Test/common/CTexturePool.cpp:19-30 | a cached path returns its record with the pool unchanged; otherwise the loaded record is cached; nothing is removed or altered |
| TexturePool.LookupTwice | OpenGL4Test/common/CTexturePool.cpp:19-30 | a second request returns the same record and leaves the pool as it is |
| TexturePool.LookupKeepsOthers | OpenGL4Test/common/CTexturePool.cpp:19-30 | other paths' entries are untouched |
| TexturePool.CTexturePool.constructor | OpenGL4Test/common/CTexturePool.cpp:9 | an empty pool |
| TexturePool.CTexturePool.GetTexture | OpenGL4Test/common/CTexturePool.cpp:19-30 | the result is `Lookup`, and the loader is called once, only for an uncached path |
| TexturePool.CTexturePool.GetTextureData | OpenGL4Test/common/CTexturePool.cpp:32-38 | the cached record or {0,0,0}, reading only |
| TexturePool.CTexturePool.Cleanup | OpenGL4Test/common/CTexturePool.cpp:12-17 | the pool is empty |
| MeshModel.GetDirectory | OpenGL4Test/common/Model.cpp:484-495 | the text before the last '/', else before the last '\\', else "." |
| MeshModel.GetDirectoryOfJoined | OpenGL4Test/common/Model.cpp:484-495 | the directory of dir + "/" + name is dir |
| MeshModel.DirectoryHelpersDiffer | OpenGL4Test/common/Model.cpp:484-495 | unlike the loaders' helper, it prefers '/' and keeps no trailing separator |
| MeshModel.TexPath | OpenGL4Test/common/Model.cpp:86-104 | directory + "/" + name, or "" |
| MeshModel.MaterialOf | OpenGL4Test/common/Model.cpp:67-107 | alpha is the dissolve unless that is ≤ 0, when it is 1, so alpha > 0; the fields are copied, the paths built and the alpha texture is 0 |
| MeshModel.MaterialsOf | OpenGL4Test/common/Model.cpp:67-107 | one material per input, in order |
| MeshModel.VertexOf | OpenGL4Test/common/Model.cpp:125-155 | a missing position is (0,0,0), a missing normal (0,1,0), a missing texcoord (0,0) |
| MeshModel.DedupReadGood | OpenGL4Test/common/Model.cpp:113-170 | the dedup invariant holds after any corners |
| MeshModel.DedupStepGood | OpenGL4Test/common/Model.cpp:158-168 | one corner keeps the invariant |
| MeshModel.DedupCorrect | OpenGL4Test/common/Model.cpp:113-170 | one index per corner naming that corner's vertex; equal keys iff equal indices; every index below \|vertices\|; one vertex per distinct key |
| MeshModel.MaterialIndexOf | OpenGL4Test/common/Model.cpp:174-180 | the first material id when it exists and is ≥ 0, else −1 |
| MeshModel.MeshOf | OpenGL4Test/common/Model.cpp:109-186 | one index per corner, naming a vertex equal to that corner's; two corners share an index iff they share the index triple; the material is `MaterialIndexOf` |
| MeshModel.MeshesOf | OpenGL4Test/common/Model.cpp:53-56 | one mesh per shape, in order |
| MeshModel.FollowStep | OpenGL4Test/common/Model.cpp:579-631 | nothing changes when not following; the heading and target angle are kept, and so is the angle when rotation is not followed |
| MeshModel.WrapOnce | OpenGL4Test/common/Model.cpp:539-541 | the difference shifted by at most one 2π, landing in [−π, π] from within ±3π |
| MeshModel.Turn | OpenGL4Test/common/Model.cpp:517-536 | inside the square, or not heading out, nothing changes; past an edge and heading out, the model is put back on that edge with y kept, the new heading is an axis heading along the edge, and the target angle is that heading's angle; an axis heading turns right |
| MeshModel.AngleStep | OpenGL4Test/common/Model.cpp:538-550 | the target when the wrapped difference is below maxStep; otherwise the angle moves by exactly maxStep, or stays |
| MeshModel.TrackStep | OpenGL4Test/common/Model.cpp:506-553 | the model matrix is translate(position) · rotateY(angle) |
| MeshModel.UpdateMotion | OpenGL4Test/common/Model.cpp:502-560 | with auto-rotate off only the follow step runs |
| MeshModel.TrackStaysOnTrack | OpenGL4Test/common/Model.cpp:506-536 | a model on the ±20 square stays on it, with y kept; the heading is kept or turned right, with target angle 180°, 270°, 0° or 90° |
| MeshModel.FourTurnsCloseTheLoop | OpenGL4Test/common/Model.cpp:517-536 | +X → −Z → −X → +Z → +X |
| MeshModel.AngleStepApproaches | OpenGL4Test/common/Model.cpp:538-550 | one step moves at most maxStep towards the target and never overshoots |
| MeshModel.AngleStepsReachTarget | OpenGL4Test/common/Model.cpp:538-550 | with enough steps the angle reaches the target |
| MeshModel.StaysAtTarget | OpenGL4Test/common/Model.cpp:538-550 | at the target the angle stays |
| MeshModel.Model.constructor | OpenGL4Test/common/Model.h:89 | no meshes or materials; auto-rotate and following are off |
| MeshModel.Model.LoadModel | OpenGL4Test/common/Model.cpp:16-65 | cleans up and records `GetDirectory`; true iff tinyobj succeeded with positions; then materials = `MaterialsOf` and meshes = `MeshesOf` |
| MeshModel.Model.ProcessShapes | OpenGL4Test/common/Model.cpp:53-56 | one mesh per shape appended |
| MeshModel.Model.ProcessMaterials | OpenGL4Test/common/Model.cpp:67-107 | one material per input appended |
| MeshModel.Model.ConvertMaterial | OpenGL4Test/common/Model.cpp:70-104 | one pass of the loop builds exactly `MaterialOf` of the tinyobj material |
| MeshModel.Model.ProcessMesh | OpenGL4Test/common/Model.cpp:109-186 | appends `MeshOf` |
| MeshModel.ProcessTriangle | OpenGL4Test/common/Model.cpp:118-170 | one pass of the triangle loop extends the dedup state exactly as reading its three corners does |
| MeshModel.Model.Cleanup | OpenGL4Test/common/Model.cpp:459-475 | no meshes and no materials |
| MeshModel.Model.GetMaterial | OpenGL4Test/common/Model.cpp:477-482 | out_of_range iff the index ≥ the count, else that material |
| MeshModel.Model.IsLoaded | OpenGL4Test/common/Model.h:111 | true iff there is a mesh |
| MeshModel.Model.SetAutoRotate | OpenGL4Test/common/Model.cpp:497-500 | auto-rotate is on |
| MeshModel.Model.SetFollowCamera | OpenGL4Test/common/Model.cpp:561-577 | the four follow settings are stored |
| MeshModel.Model.SetCameraPos | OpenGL4Test/common/Model.cpp:633-636 | the camera position is stored |
| MeshModel.Model.SetViewMatrix | OpenGL4Test/common/Model.cpp:638-646 | the view matrix is stored |
| MeshModel.Model.UpdateCameraFollow | OpenGL4Test/common/Model.cpp:579-631 | the new motion is `FollowStep` |
| MeshModel.Model.Update | OpenGL4Test/common/Model.cpp:502-560 | the new motion is `UpdateMotion` |
| MeshModel.Model.MoveAlongTrack | OpenGL4Test/common/Model.cpp:504-553 | the new motion is `TrackStep` |
| MeshModel.Model.TurnTowardsTarget | OpenGL4Test/common/Model.cpp:538-553 | one `AngleStep` of at most rotationSpeed·dt |
| Manager.NewMaterial | OpenGL4Test/common/ModelManager.h:31-33 | no textures, ambient 0.2, diffuse 0.8, specular 1, shininess 32, alpha 1 |
| Manager.FormatOf | OpenGL4Test/common/ModelManger.cpp:97-119 | a format exists iff there are 1 to 4 channels |
| Manager.FormatRoundTrip | OpenGL4Test/common/ModelManger.cpp:97-119 | 1/2/3/4 map to RED/RG/RGB/RGBA and back |
| Manager.FirstExisting | OpenGL4Test/common/ModelManger.cpp:51-68 | the first candidate that exists, or none when none does |
| Manager.LoadTextureFromFile | OpenGL4Test/common/ModelManger.cpp:44-151 | an existing path is loaded itself; when no candidate exists the handle is the white default texture |
| Manager.LoadTextureOutcome | OpenGL4Test/common/ModelManger.cpp:44-151 | the handle is the white default or an upload of an existing candidate in the format of its channel count |
| Manager.MaterialFromMtl | OpenGL4Test/common/ModelManger.cpp:177-274 | the Ka/Kd/Ks/Ns/d fields are copied; without map_Kd the diffuse map is a default texture of the diffuse colour; without map_bump or map_Ks those slots are 0 |
| Manager.AddFromMtl | OpenGL4Test/common/ModelManger.cpp:177-192 | a no-op when the name exists, otherwise an insert under the MTL name |
| Manager.AddAllFromMtl | OpenGL4Test/common/ModelManager.h:156-161 | existing names are kept, and every added name is the MTL name of a listed library entry |
| Manager.AddAllFromMtlKeeps | OpenGL4Test/common/ModelManager.h:156-161 | existing materials are kept; exactly the library's listed names are added, each built by `MaterialFromMtl` |
| Manager.SubModelCorner | OpenGL4Test/common/ModelManger.cpp:293-340 | 8 floats per corner, as written |
| Manager.SubModelDataLength | OpenGL4Test/common/ModelManger.cpp:293-344 | the data is 24·\|faces\| floats |
| Manager.IntendedCorner | OpenGL4Test/common/ModelManger.cpp:293-340 | corrected: the corner reads the vertex parseFace stored |
| Manager.IntendedCornerUsesNamedVertex | OpenGL4Test/common/OBJLoader.cpp:44 | corrected: file vertex n puts vertices[n−1] in the corner |
| Manager.IntendedMatchesVertexData | OpenGL4Test/common/ModelManger.cpp:293-344 | corrected, with indices in range, the sub-model data equals getVertexData's |
| Manager.DoubleOffsetShiftsCorners | OpenGL4Test/common/ModelManger.cpp:298-300 | as written, "f 1 2 3" gets the origin and then vertex 1 in place of vertices 1 and 2 |
| Manager.SubModelsOfNonEmpty | OpenGL4Test/common/ModelManager.h:165-178 | with no empty group, one sub-model per key |
| Manager.GroupsNonEmpty | OpenGL4Test/common/ModelManager.h:169 | every face group holds a face |
| Manager.FacesInHas | OpenGL4Test/common/OBJLoader.cpp:217-229 | a face's own group is non-empty |
| Manager.MultipleMaterialsIffFaces | OpenGL4Test/common/ModelManager.h:107-109 | on the material path there is one sub-model per group, so the model has several materials iff the file has a face |
| Manager.SortedKeysCount | OpenGL4Test/common/ModelManager.h:537-551 | a sorted key listing has one entry per key |
| Manager.NoDuplicatesCount | OpenGL4Test/common/ModelManager.h:537-551 | a strictly sorted listing has no repeats |
| Manager.DebugTextureCoordinates | OpenGL4Test/common/ModelManger.cpp:442-460 | nothing for no coordinates; otherwise minU ≤ u ≤ maxU and minV ≤ v ≤ maxV for every coordinate, each bound attained |
| Manager.ModelManager.constructor | OpenGL4Test/common/ModelManager.h:112-116 | empty maps and a fresh loader |
| Manager.ModelManager.CreateMaterial | OpenGL4Test/common/ModelManager.h:223-235 | false with the map unchanged iff the name exists; otherwise the defaults plus a white diffuse texture |
| Manager.ModelManager.LoadDiffuseTexture | OpenGL4Test/common/ModelManager.h:238-256 | true iff the material exists and the handle is non-zero; only then is the diffuse slot replaced |
| Manager.ModelManager.LoadNormalTexture | OpenGL4Test/common/ModelManager.h:259-275 | the same for the normal slot |
| Manager.ModelManager.LoadSpecularTexture | OpenGL4Test/common/ModelManager.h:278-295 | the same for the specular slot |
| Manager.ModelManager.SetMaterialAmbient | OpenGL4Test/common/ModelManager.h:298-303 | only that material's ambient changes; an absent name is a no-op |
| Manager.ModelManager.SetMaterialDiffuse | OpenGL4Test/common/ModelManager.h:305-310 | only the diffuse changes; an absent name is a no-op |
| Manager.ModelManager.SetMaterialSpecular | OpenGL4Test/common/ModelManager.h:312-317 | only the specular changes; an absent name is a no-op |
| Manager.ModelManager.SetMaterialShininess | OpenGL4Test/common/ModelManager.h:319-324 | only the shininess changes; an absent name is a no-op |
| Manager.ModelManager.SetMaterialAlpha | OpenGL4Test/common/ModelManager.h:326-331 | only the alpha changes; an absent name is a no-op |
| Manager.ModelManager.AssignMaterialToModel | OpenGL4Test/common/ModelManager.h:334-341 | the material name is set only when both the model and the material exist |
| Manager.ModelManager.SetModelTransform | OpenGL4Test/common/ModelManager.h:426-431 | only that model's transform changes; an absent name is a no-op |
| Manager.ModelManager.SetModelUniformScale | OpenGL4Test/common/ModelManager.h:434-439 | the transform gets the uniform scale |
| Manager.ModelManager.SetModelScale | OpenGL4Test/common/ModelManager.h:442-447 | the transform gets the scale |
| Manager.ModelManager.SetModelPosition | OpenGL4Test/common/ModelManager.h:450-455 | the transform gets the position |
| Manager.ModelManager.SetModelRotation | OpenGL4Test/common/ModelManager.h:458-463 | the transform gets the rotation |
| Manager.ModelManager.GetModelTransform | OpenGL4Test/common/ModelManager.h:471-477 | the transform, or null when absent |
| Manager.ModelManager.GetModel | OpenGL4Test/common/ModelManager.h:480-486 | the model, or null when absent |
| Manager.ModelManager.GetMaterial | OpenGL4Test/common/ModelManager.h:489-495 | the material, or null when absent |
| Manager.ModelManager.RemoveModel | OpenGL4Test/common/ModelManager.h:508-514 | only that key is erased, and afterwards `HasModel` is false |
| Manager.ModelManager.RemoveMaterial | OpenGL4Test/common/ModelManager.h:516-522 | only that key is erased, and afterwards `HasMaterial` is false |
| Manager.ModelManager.Cleanup | OpenGL4Test/common/ModelManager.h:524-534 | both maps are empty |
| Manager.ModelManager.GetModelNames | OpenGL4Test/common/ModelManager.h:537-543 | each model name once, sorted |
| Manager.ModelManager.GetMaterialNames | OpenGL4Test/common/ModelManager.h:545-551 | each material name once, sorted |
| Manager.ModelManager.CreateMaterialFromMtl | OpenGL4Test/common/ModelManger.cpp:177-274 | the map becomes `AddFromMtl` |
| Manager.ModelManager.CreateSubModel | OpenGL4Test/common/ModelManger.cpp:276-378 | unchanged for no faces; otherwise 3·\|faces\| vertices, the material name and `SubModelData` |
| Manager.ModelManager.FaceVertexData | OpenGL4Test/common/ModelManger.cpp:296-343 | one face's 24 floats |
| Manager.ModelManager.CornerVertexData | OpenGL4Test/common/ModelManger.cpp:298-340 | one corner, with the double offset as written |
| Manager.ModelManager.CreateMaterialsFromLibrary | OpenGL4Test/common/ModelManager.h:153-161 | the map becomes `AddAllFromMtl` over the library's names |
| Manager.ModelManager.BuildSubModels | OpenGL4Test/common/ModelManager.h:164-178 | the sub-models are `SubModelsOf` the groups in key order |
| Manager.ModelManager.BuildModel | OpenGL4Test/common/ModelManager.h:142-214 | with library names: the materials are added and the sub-models built; without: the loader's vertex data and 3·\|faces\| |
| Manager.ModelManager.LoadModel | OpenGL4Test/common/ModelManager.h:140-220 | false with both maps unchanged iff the OBJ file does not open; otherwise the name is bound (replacing any entry) to a model with the default transform, built by `BuildModel` |

## Left out

- All GL work: buffers, vertex arrays, uniform locations, drawing (`draw`, `drawRaw`, `Render`, `SetupMesh`, `renderModel*`, `applyMaterial`, `bindMaterial`), texture creation and deletion (`createDefaultTexture`, `Model::LoadTexture`, `glDeleteTextures` in the cleanups). Handles are naturals, and an upload is the record of values it would send.
- The light's display cube (`_lightObj`) and the `_displayOn` effects beyond storing the flag.
- Floating-point rounding and `float`/`int` widths: numbers are reals, integers are unbounded, and `>> float` is never out of range. `std::stoi` overflow is not modelled; a face field must start with a number, as a precondition.
- The transcendental functions and `glm` matrix algebra are uninterpreted. `SphericalViewAtRadius` assumes sin² + cos² = 1 as a hypothesis.
- Image decoding (`stb_image`) and the file system behind `loadTextureFromFile` are the `TextureApi` function values. Texture widths and heights in `CTexturePool` come from its loader parameter.
- tinyobjloader itself: `Model.LoadModel` takes its result as a value.
- `handleCameraCollision` (CollisionManager.h:288-348): it has no caller, it depends on `normalize`, and line 310 compares z against `wall.min.x`.
- `createWallVisualization`, `printModelInfo`, `printCurrentDirectory` and all console output: presentation only.
- Singletons and globals (`getInstance`, `g_collisionManager`, `g_modelManager`): the objects are passed explicitly. `Camera.CCamera.UpdateRadius` takes the collision manager as a parameter.
- Destructors, copy control and raw-pointer ownership of lights.
- Plain getters that only return a field (`getPos`, `isLightOn`, `getTarget`, `getObstacles`, …) are field reads.
- Camera.CCamera.ProcessMouseScroll: the eye does not move, because the source rebuilds the view from the old eye. The model states this and nothing more.
- MeshModel.Model.constructor: Model.h declares none of the motion fields Model.cpp uses, so their initial values are parameters and auto-rotate/follow start off by choice.
- MeshModel.Model.ProcessMesh: the dedup key is the index triple itself rather than the string the source formats from it. The two are equivalent only because that formatting is injective.
- ObjLoader.OBJLoader.LoadOBJ: a number that does not read stops that line's reading, and the remaining coordinates are 0, where the source leaves them as whatever `>>` wrote.

Behaviour of the source the model keeps as written:

- The `ModelManager` keeps one OBJ loader across loads, and `loadOBJ` does not clear its MTL loader. A model file without `mtllib` therefore still sees the previous file's materials and takes the multi-material path. `ObjLoader.OBJLoader.LoadOBJ` states that the MTL state is unchanged then.
- `Model::GetDirectory` and the loaders' `getDirectoryFromPath` differ, as `MeshModel.DirectoryHelpersDiffer` shows.

## Findings

| source | as written | input that shows it | evidently intended | confidence | as-written member | corrected member |
|---|---|---|---|---|---|---|
| OpenGL4Test/common/CollisionManager.h:200-207 | `getSafeMovement` tests only the target `currentPos + movement` | the room's default walls, collider radius 1.3, from the centre (0, 10.1, 0) a movement (100, 0, 0): the target (100, 10.1, 0) is free, so the whole movement is returned, and the path crosses the right wall at (10, 10.1, 0) | no movement carries the camera through a wall | not executed | Collision.LongStepPassesThroughWall | Collision.SweptStopsLongStep |
| OpenGL4Test/common/CLight.cpp:190-195 | `setCutOffDeg` makes the light SPOT without setting its direction | a light from the point constructor at (1, 1, 0), whose direction and target are both (1, 1, 1) (CLight.cpp:17), given cut-offs: it becomes a spot light pointing along (1, 1, 1), not at its target | a spot light points from its position to its target, as the spot constructor, `setPos` and `setTarget` keep it | not executed | Light.CutOffBreaksAim | Light.CutOffSetAimed |
| OpenGL4Test/common/ModelManger.cpp:298-300 | `createSubModel` subtracts 1 from `face.v[i]`, `face.vt[i]` and `face.vn[i]`, which `parseFace` (OpenGL4Test/common/OBJLoader.cpp:44) already made zero-based | vertices A, B, C and the line "f 1 2 3": corner 1 gets (0,0,0) and corner 2 gets A | each corner reads the vertex the file names, as `getVertexData` does | not executed | Manager.DoubleOffsetShiftsCorners | Manager.IntendedMatchesVertexData |

`Collision.CollisionManager.GetSafeMovement` and `Light.CLight.SetCutOffDeg`
keep the behaviour as written. Beside them, `Collision.SweptSafeMovement`
tests the whole path of a movement, and `Light.CutOffSetAimed` aims the new
spot light at its target.

`Manager.ModelManager.CreateSubModel`, and through it `LoadModel`, keep the
double offset of the source. The corrected layout is `Manager.IntendedSubModelData`.
`Manager.IntendedMatchesVertexData` proves that, whenever every index is in
range, it equals what the single-material path uploads.
