# Scene manager of the CS-330 tabletop scene, modelled in Dafny

`SceneManager.cpp` prepares and renders one static tabletop scene: a desk, a
wall, a mug, a keyboard, a pyramid and a computer monitor. This project
models the parts of it that hold table and state logic:

- **The texture registry.** `m_textureIDs` is a fixed array of sixteen
  `{ID, tag}` records and `m_loadedTextures` is its fill count. The model has
  `CreateGLTexture` (append on success), `FindTextureID` and
  `FindTextureSlot` (first-match scans with the sentinel -1), and
  `BindGLTextures` (texture unit `i` gets record `i`).
- **The material list.** `FindMaterial` is a first-match scan that answers
  `false` only for an empty list. `SetShaderMaterial` publishes what it
  found.
- **The shader-binding setters.** `SetTransformations`, `SetShaderColor`,
  `SetShaderTexture`, `SetTextureUVScale` and `SetShaderMaterial` write
  into the shader's uniform store. The store keeps every value until it is
  overwritten, so each draw sees whatever earlier calls latched.
- **The `drawKeyRow` lambda of `RenderScene`.** It places the keys of one
  keyboard row.
- **`RenderScene` itself.** The model is the sequence of calls and draws
  of one pass, split along the source's `#pragma region` blocks.

The shader collaborator is a class holding a ghost map from uniform name to
value. The mesh collaborator is reduced to an append-only log of draws, and
each draw records the uniform values in effect when it was issued. The GL
context's texture units are a class holding the active unit, the bound
texture per unit, and the sequence of bindings made. Three things the code
receives from outside become parameters of `CreateGLTexture`: whether the
image decoder read the file, the file's channel count, and the name
`glGenTextures` hands out. The uninitialised local `material` in
`SetShaderMaterial` becomes the parameter `indeterminate`.

Two things proved about a whole pass:

- The pass draws 39 primitives and follows `ScenePlan.FramePlan`.
  `FrameDraws` spells out what each draw then sees:
  - lighting is on for the first four draws and off from the foam top to
    the end;
  - every draw sees the UV scale (1, 1) and the same material;
  - draws 7 to 32 are the grey keys and draw 3 is the red cavity;
  - every other draw is textured, and the screen is last.
- The key rows sit where the centring rule puts them.

In three places the model follows the code where the evident intent is
different:

- **The foam top.** The evident intent is to disable lighting for the foam
  top only. In the code no later object sets the flag again, so lighting
  stays off for the rest of the pass (`FrameLatches`) and is still off
  when the next pass starts (`RenderScene`).
- **A material miss.** The evident intent is that a missing material
  overwrites nothing. The code publishes its uninitialised local instead
  (see Findings).
- **Duplicate tags.** Texture tags are evidently meant to be unique. The
  code does not enforce this, and a duplicate tag resolves to its first
  insertion (`DuplicateResolvesToFirst`).

Two more choices follow the code:

- `RenderScene` dereferences the shader pointer without a null check. The
  model therefore requires a shader for the pass, while the null-guarded
  setters are modelled with their guard.
- Texture capacity is sixteen, taken from the comment at
  `SceneManager.cpp:132`. The code never checks it, so a successful load
  requires a free slot.

## Model

| member | source | states |
|---|---|---|
| GlTypes.AsInt32 | 7-1_FinalProjectMilestones/Source/SceneManager.cpp:174 | storing a `GLuint` name into the `int` result keeps its bit pattern: the value is a signed 32-bit integer congruent to the name modulo 2^32, and equal to it below 2^31 |
| GlTypes.ModelMatrix | 7-1_FinalProjectMilestones/Source/SceneManager.cpp:273 | the model matrix as the symbolic product of the translation, the Z, Y and X rotations and the scale; its factor order is stated by ModelMatrixOrder |
| GlTypes.ModelMatrixOrder | 7-1_FinalProjectMilestones/Source/SceneManager.cpp:265-273 | the model matrix is the product translation · Rz · Ry · Rx · scale, in that order |
| GlTypes.TextureUnits.ActiveTexture | 7-1_FinalProjectMilestones/Source/SceneManager.cpp:140 | selecting a texture unit changes the active unit and no binding |
| GlTypes.TextureUnits.BindTexture | 7-1_FinalProjectMilestones/Source/SceneManager.cpp:141 | binding a texture binds it on the active unit only, and records the (unit, texture) pair |
| Lookup.FirstMatch | 7-1_FinalProjectMilestones/Source/SceneManager.cpp:196-205 | the scan's result is -1 or an index holding the tag with no earlier index holding it; it is -1 exactly when no entry holds the tag |
| Lookup.FirstMatchAppend | 7-1_FinalProjectMilestones/Source/SceneManager.cpp:115-117 | appending an entry keeps every tag's existing first match; a tag seen for the first time is found at the new index; any other tag stays missing |
| Lookup.DistinctTagsFound | 7-1_FinalProjectMilestones/Source/SceneManager.cpp:196-205 | when all tags differ, each tag is found at its own index |
| Lookup.DuplicateResolvesToFirst | 7-1_FinalProjectMilestones/Source/SceneManager.cpp:196-205 | a tag stored twice resolves to its earlier occurrence or before |
| TextureRegistry.SlotOf | 7-1_FinalProjectMilestones/Source/SceneManager.cpp:190-208 | the slot of a tag is -1 or the first record carrying it; it is -1 exactly when no record does |
| TextureRegistry.IdOf | 7-1_FinalProjectMilestones/Source/SceneManager.cpp:164-182 | FindTextureID's value: the name of the first record carrying the tag, converted to `int`, or -1 when no record carries it |
| TextureRegistry.SlotAfterLoad | 7-1_FinalProjectMilestones/Source/SceneManager.cpp:114-119 | a load never moves a tag already registered; a tag loaded for the first time gets the new slot; other tags stay missing |
| TextureRegistry.LoadOrderIsSlotOrder | 7-1_FinalProjectMilestones/Source/SceneManager.cpp:164-208 | with distinct tags, the k-th record's tag has slot k, and FindTextureID's value for it is that record's name as an `int` |
| TextureRegistry.PreparedSceneSlots | 7-1_FinalProjectMilestones/Source/SceneManager.cpp:441-446 | after the six loads of the scene succeed, "desk", "wall", "matteBlack", "foam", "pyramid" and "screen" sit in slots 0 to 5, whatever names GL handed out |
| TextureRegistry.UnpreparedTagMissing | 7-1_FinalProjectMilestones/Source/SceneManager.cpp:441-446 | after those loads, any other tag has slot -1 |
| TextureRegistry.BindTwiceSameUnits | 7-1_FinalProjectMilestones/Source/SceneManager.cpp:134-142 | binding the same records twice leaves the same unit-to-texture map as binding them once |
| Materials.MaterialIndex | 7-1_FinalProjectMilestones/Source/SceneManager.cpp:223-238 | the index reached by the material scan is -1 or the first material carrying the tag; it is -1 exactly when none does |
| Materials.CopyValues | 7-1_FinalProjectMilestones/Source/SceneManager.cpp:230-232 | the copy keeps the destination's tag and takes the source's diffuse colour, specular colour and shininess |
| Materials.FoundMaterial | 7-1_FinalProjectMilestones/Source/SceneManager.cpp:225-238 | FindMaterial's out-parameter keeps its own tag; on a miss it is untouched; on a hit it holds the three values of the first material carrying the tag |
| Materials.PublishedAsWritten | 7-1_FinalProjectMilestones/Source/SceneManager.cpp:350-362 | SetShaderMaterial publishes something exactly when the list is non-empty, and on a miss what it publishes is the uninitialised local |
| Materials.PublishedIntended | 7-1_FinalProjectMilestones/Source/SceneManager.cpp:347-363 | the intended publication: present exactly when some material carries the tag, and then the first such material |
| Materials.AsWrittenAgreesOnHit | 7-1_FinalProjectMilestones/Source/SceneManager.cpp:355-361 | when the tag is present, the code as written publishes the intended three values whatever the local held |
| Materials.AsWrittenPublishesOnMiss | 7-1_FinalProjectMilestones/Source/SceneManager.cpp:240 | on a miss in a non-empty list the code publishes the uninitialised local where nothing should be published |
| Materials.MissingMaterialExample | 7-1_FinalProjectMilestones/Source/SceneManager.cpp:350-361 | the list holding only "default", looked up as "missing": the uninitialised local is published |
| Shading.ShaderManager.Set | 7-1_FinalProjectMilestones/Source/SceneManager.cpp:277 | a setter overwrites one uniform and keeps all others |
| Shading.PublishMaterial | 7-1_FinalProjectMilestones/Source/SceneManager.cpp:358-360 | publishing a material sets the diffuse colour, specular colour and shininess uniforms to its values and touches no other uniform; publishing nothing changes nothing |
| Shading.SurfaceEffect | 7-1_FinalProjectMilestones/Source/SceneManager.cpp:287-325 | a colour or texture call touches only `bUseTexture`, `objectColor` and `objectTexture` |
| Shading.LastCallWins | 7-1_FinalProjectMilestones/Source/SceneManager.cpp:287-325 | after any non-empty sequence of colour and texture calls, `bUseTexture` agrees with the last call, the store shows what the last call selected, and no other uniform changed |
| Shading.TextureThenColor | 7-1_FinalProjectMilestones/Source/SceneManager.cpp:535-551 | a texture followed by the red colour leaves texturing off and red in effect |
| Shading.PublishedOnHit | 7-1_FinalProjectMilestones/Source/SceneManager.cpp:355-361 | when the tag is present, the material uniforms after the call as written hold the first matching material's three values |
| KeyLayout.RowOffsetAsWritten | 7-1_FinalProjectMilestones/Source/SceneManager.cpp:620 | the row's first x as computed: for at most ten keys the intended offset; for k > 10 keys the `size_t` difference wraps to 2^64 - (k - 10) half-keys |
| KeyLayout.KeyXAsWritten | 7-1_FinalProjectMilestones/Source/SceneManager.cpp:620-622 | key i's x as computed; for rows of at most ten keys it is the intended x |
| KeyLayout.RowOffset | 7-1_FinalProjectMilestones/Source/SceneManager.cpp:620 | the intended first x: at unit spacing the middle of a k-key row is the middle of the ten-key grid, startX + 4.5 |
| KeyLayout.KeyX | 7-1_FinalProjectMilestones/Source/SceneManager.cpp:620-622 | the intended x of key i: at unit spacing key i and key k - 1 - i are mirror images about startX + 4.5 |
| KeyLayout.OffsetAgreesUpToTen | 7-1_FinalProjectMilestones/Source/SceneManager.cpp:620-622 | for rows of at most ten keys, the offset computed on `size_t` equals the intended one, and so does every key's x |
| KeyLayout.LongRowWraps | 7-1_FinalProjectMilestones/Source/SceneManager.cpp:620 | for an eleven-key row the `size_t` subtraction wraps, and the row lands 2^63 units from where it should |
| KeyLayout.RowLayout | 7-1_FinalProjectMilestones/Source/SceneManager.cpp:620-622 | key 0 of a k-key row sits at startX + (10 - k) / 2 and consecutive keys are spacingX apart |
| KeyLayout.RowsCentred | 7-1_FinalProjectMilestones/Source/SceneManager.cpp:612-622 | with startX = -4.5 and spacing 1, key i and key k - 1 - i of every row are mirror images about x = 0 |
| KeyLayout.SceneRows | 7-1_FinalProjectMilestones/Source/SceneManager.cpp:612-634 | the 7-key row runs from -3 to 3, the 9-key row from -4 to 4 and the 10-key row from -4.5 to 4.5 |
| ScenePlan.FrameLatches | 7-1_FinalProjectMilestones/Source/SceneManager.cpp:462-743 | the planned pass has 39 draws: lighting on for the first four and off from the foam top on; the unit UV scale and one material throughout; grey keys at 7 to 32, red cavity at 3, texture elsewhere; the screen sees the (1, 1) UV scale the bezel left, the same value the previous entry expects |
| ScenePlan.FrameDraws | 7-1_FinalProjectMilestones/Source/SceneManager.cpp:462-743 | what a log that follows the pass shows, draw by draw: the lighting flag, UV scale, material, the grey keys as boxes, the red cavity, texturing on elsewhere, and the screen as the last plane textured with the slot of "screen" |
| Scene.RowPlacedCentred | 7-1_FinalProjectMilestones/Source/SceneManager.cpp:619-634 | a placed row of at most ten keys has each key at its intended centred x, mirrored about x = 0 |
| Scene.SceneManager.constructor | 7-1_FinalProjectMilestones/Source/SceneManager.cpp:36-40 | a new manager holds the given shader, a sixteen-slot registry with a count of 0, no materials and no draws; the count of 0 and the empty list are assumed (see Left out) |
| Scene.SceneManager.CreateGLTexture | 7-1_FinalProjectMilestones/Source/SceneManager.cpp:62-126 | succeeds exactly for a decoded image with 3 or 4 channels; success writes {id, tag} at index `m_loadedTextures`, adds one to the count, keeps all earlier records and gives a new tag the new slot; both failures leave the registry unchanged |
| Scene.SceneManager.BindGLTextures | 7-1_FinalProjectMilestones/Source/SceneManager.cpp:134-142 | every unit i below the count is bound to record i's name, in increasing unit order, and the registry is untouched |
| Scene.SceneManager.FindTextureID | 7-1_FinalProjectMilestones/Source/SceneManager.cpp:164-182 | returns the name stored at the first record carrying the tag, as an `int`, or -1 when no record does |
| Scene.SceneManager.FindTextureSlot | 7-1_FinalProjectMilestones/Source/SceneManager.cpp:190-208 | returns the smallest index below the count whose tag matches, or -1 exactly when none does |
| Scene.SceneManager.FindMaterial | 7-1_FinalProjectMilestones/Source/SceneManager.cpp:216-241 | returns false exactly for an empty list; on a hit the first matching material's three values are copied in, and on a miss the argument comes back untouched |
| Scene.SceneManager.SetTransformations | 7-1_FinalProjectMilestones/Source/SceneManager.cpp:249-279 | publishes the composed model matrix and nothing else, and only when there is a shader |
| Scene.SceneManager.SetShaderColor | 7-1_FinalProjectMilestones/Source/SceneManager.cpp:287-306 | with a shader, texturing is off and the colour is the argument |
| Scene.SceneManager.SetShaderTexture | 7-1_FinalProjectMilestones/Source/SceneManager.cpp:314-325 | with a shader, texturing is on and the sampler is the tag's slot, -1 for an unknown tag |
| Scene.SceneManager.SetTextureUVScale | 7-1_FinalProjectMilestones/Source/SceneManager.cpp:333-339 | with a shader, `UVscale` is (u, v) and nothing else changes |
| Scene.SceneManager.SetShaderMaterial | 7-1_FinalProjectMilestones/Source/SceneManager.cpp:347-363 | the material uniforms are overwritten exactly when the list is non-empty, with the first match's values or, on a miss, the uninitialised local |
| Scene.SceneManager.DrawMesh | 7-1_FinalProjectMilestones/Source/SceneManager.cpp:502 | a draw is appended to the log with the uniforms in effect |
| Scene.SceneManager.DrawKeyRow | 7-1_FinalProjectMilestones/Source/SceneManager.cpp:619-629 | one box per key, each placed at the lambda's x for its index, each drawn grey with texturing off, inheriting lighting, UV scale and material, which the row leaves unchanged |
| Scene.SceneManager.PlaceObject | 7-1_FinalProjectMilestones/Source/SceneManager.cpp:488-497 | the first half of an object block sets the model matrix, the lighting flag when asked, and the material when asked, and keeps texture, colour and UV scale |
| Scene.SceneManager.ShadeObject | 7-1_FinalProjectMilestones/Source/SceneManager.cpp:499-500 | the second half shows the selected colour or texture and resets the UV scale when asked, keeping matrix, lighting and material |
| Scene.SceneManager.DrawObject | 7-1_FinalProjectMilestones/Source/SceneManager.cpp:477-502 | one object block appends one draw that sees the expected lighting, surface, UV scale and material |
| Scene.SceneManager.DrawDeskAndWall | 7-1_FinalProjectMilestones/Source/SceneManager.cpp:476-519 | two textured planes, lit, with the "default" material published before the first |
| Scene.SceneManager.DrawMug | 7-1_FinalProjectMilestones/Source/SceneManager.cpp:522-586 | body, red cavity keeping the previous UV scale, foam top with lighting switched off, handle; lighting is off afterwards |
| Scene.SceneManager.DrawKeyboard | 7-1_FinalProjectMilestones/Source/SceneManager.cpp:588-635 | the base and 26 grey keys follow the keyboard plan; the rows of 7, 9 and 10 keys sit at depths 4, 3 and 2 on the lambda's grid |
| Scene.SceneManager.DrawPyramid | 7-1_FinalProjectMilestones/Source/SceneManager.cpp:638-654 | one textured pyramid inheriting lighting and material |
| Scene.SceneManager.DrawComputer | 7-1_FinalProjectMilestones/Source/SceneManager.cpp:656-737 | four matte-black parts and the screen, which keeps the UV scale the bezel set; the store is left as the screen was drawn with it: the screen's matrix and texture, the (1, 1) UV scale, and the colour, lighting and material found on entry |
| Scene.SceneManager.RenderScene | 7-1_FinalProjectMilestones/Source/SceneManager.cpp:462-743 | one pass appends 39 draws following the frame plan under the "default" material lookup and places the three key rows; every uniform stays latched for the next pass, and the store left behind is the one the screen was drawn with: the screen's model matrix, texturing on with the screen's slot, the keys' grey as the colour, the (1, 1) UV scale, lighting off, and the material the desk's "default" lookup left |
| Scene.SceneManager.NextPassSameMaterial | 7-1_FinalProjectMilestones/Source/SceneManager.cpp:350-362 | for two passes, each with its own uninitialised local: when the material list is empty or holds "default", the next pass republishes the material the first left, so every pass from the second on sees the same material (with an empty list, what the store held before the first pass); after a miss in a non-empty list each pass publishes its own local, so nothing carries over |

## Left out

- Image decoding, the GL texture calls in `CreateGLTexture` (generation, parameters, upload, mipmaps, unbinding) and console output are not modelled. These are foreign calls. Their outcomes are the parameters `decoded`, `channels` and `textureID`.
- Memory and name leaks are not modelled. On the unsupported-channel path the code has already generated a texture name and does not free the image.
- The matrix arithmetic of `SetTransformations` is not modelled. The model matrix is kept as a symbolic product of its glm factors, and the radians conversion and floating-point trigonometry are left out.
- Floats are modelled as reals, so float rounding is not modelled.
- The image dimensions are not modelled.
- `DestroyGLTextures` is not modelled. It asks `glGenTextures` for a new name for every registered record and writes it into that record's ID (line 154), so after it `FindTextureID` returns the new names. Those names come from a foreign call; no GL texture is deleted.
- `SetupSceneLights` is not modelled. It is straight-line writes of constants through the shader collaborator.
- `DefineObjectMaterials` is not modelled either, for the same reason. The material list is a field that any contents can fill.
- `PrepareScene` as a method is not modelled. Its six loads are the subject of `PreparedSceneSlots` and `UnpreparedTagMissing`.
- Mesh loading and the mesh collaborator's drawing are not modelled. A draw is an entry in the draw log.
- The manager's destructor is not modelled.
- `SceneManager.h` is not part of this model. The record layout and the capacity of sixteen come from `SceneManager.cpp`.
- Scene.SceneManager.constructor: its count of 0 and its empty material list are assumed. The constructor at lines 36-40 sets only the shader and mesh pointers, and the initial values of `m_loadedTextures` and `m_objectMaterials` come from the header.
- The texture registry keeps a ghost mirror `records` of the array's registered prefix. Contracts state facts about the array through it. Validity ties the two entry by entry.
- Scene.SceneManager.SetShaderMaterial: a null shader with a non-empty list is excluded by its requires. The code dereferences the pointer there.
- Scene.SceneManager.RenderScene: requires a shader, because the code sets the lighting flag through it without a check. What a pass does with no shader is not modelled.
- KeyLayout.RowOffsetAsWritten: takes `size_t` as 64 bits wide (`SizeModulus` is 2^64), as on a 64-bit build. On a 32-bit build the subtraction wraps modulo 2^32 instead, so the magnitudes stated for long rows (by this member and by `LongRowWraps`) hold for the 64-bit width only; rows of at most ten keys do not wrap at either width.

## Findings

| source | as written | input that shows it | evidently intended | confidence | as-written member | corrected member |
|---|---|---|---|---|---|---|
| 7-1_FinalProjectMilestones/Source/SceneManager.cpp:240 | `FindMaterial` answers true for every non-empty list, hit or miss, so `SetShaderMaterial` publishes its uninitialised local `material` when the tag is absent | materials holding only "default", `SetShaderMaterial("missing")` | publish nothing when no material carries the tag | not executed; high | Materials.MissingMaterialExample | Materials.PublishedIntended |
| 7-1_FinalProjectMilestones/Source/SceneManager.cpp:620 | `10 - keys.size()` is computed on `size_t`, so a row longer than ten keys wraps to 2^64 - (k - 10) on a 64-bit build (2^32 - (k - 10) on a 32-bit one) before the conversion to float | a row of eleven keys | an offset of (10 - k) / 2, half a key to the left for eleven keys | not executed; medium (the scene's rows have at most ten keys) | KeyLayout.LongRowWraps | KeyLayout.RowOffset |
