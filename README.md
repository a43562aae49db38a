# A Dafny model of the RayTracing editor session

RayTracing is an interactive ray-tracing application. Its layer owns a
renderer, a camera, a working scene and a copy of the scene as it was last
loaded or saved. A scene panel edits the working scene and reports edits that
should restart the renderer's accumulation. A serializer writes scenes to
YAML files and reads them back. A second serializer does the same for the
renderer settings. This project models that bookkeeping and proves what it
promises. The ray tracer itself is not part of the model.

The model has nine modules, one per file:

- `Basics` (`basics.dfy`): `Option`, the C++ `int` and `uint32_t` as `Int32`
  and `UInt32`, and the wrap-around conversion `ToInt32`.
- `SceneData` (`scene.dfy`): the scene records and their default values.
  `SceneSlot` is the one shared `Scene` that the layer, the panel and the
  serializer all hold a reference to.
- `Yaml` (`yaml.dfy`): the part of yaml-cpp the serializers use, as a node
  tree:
  - `node[key]` on a non-const node;
  - `as<T>()`, where `None` stands for a thrown exception;
  - `operator bool`;
  - range-for iteration;
  - `LoadFile`, over a map from paths to parsed documents.
- `SceneSerialization` (`scene_serializer.dfy`): writing a scene is a function
  from the scene to a node tree. Reading is a class whose methods update the
  shared scene step by step. Each method is proved equal to a function, so a
  conversion that throws leaves exactly the partial state the C++ code leaves.
- `RendererState` (`renderer.dfy`): the renderer's settings record, its
  frame index and its time.
- `SettingsSerialization` (`settings_serializer.dfy`): the settings file,
  built the same way as the scene serializer.
- `Cameras` (`camera.dfy`): the camera's state.
  - The resize guard.
  - The keyboard and mouse logic of `OnUpdate`.
  - The cache of per-pixel ray directions, filled by a nested loop and proved
    row-major: slot `x + y * width` holds pixel (x, y), and each slot is
    written exactly once.
  - Matrices and directions are symbolic terms. The quaternion rotation is a
    function parameter.
- `ScenePanels` (`scene_panel.dfy`): the scene panel.
  - One frame's widget values and button clicks are an input (`PanelInput`).
  - `OnUIRender` is proved against `PanelFrame`. `PanelFrame` describes the
    three list sections, including the loop that skips the row moved into a
    slot that was just erased.
  - `CheckForChanges` is proved to report a change exactly when the two
    scenes differ.
- `FileNames` and `Session` (`file_names.dfy`, `layer.dfy`): the application
  layer.
  - Frame-index resets.
  - New, save and load.
  - The scene-list filter over a directory listing.
  - The export file name.
  - The listing and the existence of the export folder are inputs.
  - `FileNames` gives the rules of `path::extension`, `path::stem` and
    `std::to_string` that these rely on.

Floats are modelled as exact reals. Most are only copied and compared. A few
places combine them with the arithmetic the source writes:

- `Translated`, for the camera's movement;
- `GetEmission`;
- `PixelCoord`, which divides a pixel coordinate by the viewport extent and
  maps it to [-1, 1);
- `Camera.OnUpdate`, which takes the mouse delta and scales it.

The model follows the code where it differs from the program's described
behaviour:

- A load that throws part-way keeps the fields already assigned. The load
  does not fail cleanly.
- Removing a material does not renumber the spheres' material indices.
- The panel computes its unsaved-changes mark before applying the frame's
  edits.
- The camera rebuilds its view, its projection and the ray cache at the start
  of `OnUpdate`, from the previous frame's position. The cache is therefore
  one frame behind a move.
- The settings flag named `PCHRandom` in `Renderer.h` is the `FastRandom` key
  of the settings file. It is one field, `FastRandom`.

## Model

| member | source | states |
|---|---|---|
| Basics.ToInt32 | RayTracing/src/Renderer/Renderer.h:34 | an integer stored in an `int` keeps its value inside the signed range and is otherwise congruent modulo 2^32; values from 2^31 to 2^32 become negative |
| SceneData.Material.GetEmission | RayTracing/src/Scene/Scene.h:21 | the emission is black when the power is 0 or the colour is black, and equals the colour when the power is 1 |
| SceneData.DefaultValues | RayTracing/src/Scene/Scene.h:10-37 | a default light points along (-1,-1,-1). A default material is white, has roughness 1, metallic 0, black emission and power 0. A default sphere sits at the origin with radius 0.5 and material 0. A default scene is named "Default" and has no spheres, materials or lights |
| SceneData.DefaultMaterialEmitsNothing | RayTracing/src/Scene/Scene.h:14-21 | a default material's emission is black |
| Yaml.Lookup | RayTracing/src/Scene/SceneSerializer.cpp:158-160 | `node[key]` throws on a scalar, finds the key's first entry in a map (undefined when the key is missing), and is undefined on any other node |
| Yaml.AsInt | RayTracing/src/Scene/SceneSerializer.cpp:205 | `as<int>()` succeeds exactly on integer scalars in the range of `int`, and returns that integer |
| Yaml.IterationItems | RayTracing/src/Scene/SceneSerializer.cpp:168 | a range-for visits a sequence's items in order, and fails exactly on a non-empty map |
| Yaml.AsBool | RayTracing/src/Scene/SceneSerializer.cpp:160 | `as<bool>()` succeeds exactly on boolean scalars, and returns that boolean |
| Yaml.AsFloat | RayTracing/src/Scene/SceneSerializer.cpp:204 | `as<float>()` succeeds exactly on float and integer scalars, and returns a float scalar's value |
| Yaml.AsString | RayTracing/src/Scene/SceneSerializer.cpp:144 | `as<std::string>()` succeeds exactly on text scalars and null nodes (a null reads as "null"), and returns a text scalar's text. Number and boolean scalars are a throw here; see Left out |
| Yaml.ReadFile | RayTracing/src/Scene/SceneSerializer.cpp:132-136 | the loader finds a document exactly when the path exists, and otherwise throws |
| SceneSerialization.EncodeVec3 | RayTracing/src/Scene/SceneSerializer.cpp:8-15 | a vector is written as the three-element sequence x, y, z |
| SceneSerialization.DecodeVec3 | RayTracing/src/Scene/SceneSerializer.cpp:17-24 | decoding fails on a non-sequence or a sequence whose length is not 3, and otherwise succeeds exactly when all three items convert to floats, returning them |
| SceneSerialization.Vec3RoundTrip | RayTracing/src/Scene/SceneSerializer.cpp:8-24 | decoding an encoded vector gives the vector back |
| SceneSerialization.EncodeScene | RayTracing/src/Scene/SceneSerializer.cpp:38-55 | the document's root map has the single key "Scene", whose map holds the scene's fields |
| SceneSerialization.SceneDocumentLayout | RayTracing/src/Scene/SceneSerializer.cpp:41-92 | in the written document, "Name" reads back as the name, and "Sky", "Lights", "Spheres" and "Materials" hold the sky and the three encoded lists |
| SceneSerialization.DecodeLight | RayTracing/src/Scene/SceneSerializer.cpp:192-197 | reading a list element appends nothing exactly when its `["Light"]` subscript throws. Any light it appends has the default position |
| SceneSerialization.DecodeSphere | RayTracing/src/Scene/SceneSerializer.cpp:199-206 | it appends nothing exactly when the subscript throws. A sphere left partial keeps the default material index |
| SceneSerialization.DecodeMaterial | RayTracing/src/Scene/SceneSerializer.cpp:208-217 | it appends nothing exactly when the subscript throws. A material left partial keeps emission power 0 |
| SceneSerialization.Fill | RayTracing/src/Scene/SceneSerializer.cpp:168-170 | the loop keeps the list it started from as a prefix and appends at most one element per item. When it finishes, each item decoded completely into the element at its position |
| SceneSerialization.ApplySky | RayTracing/src/Scene/SceneSerializer.cpp:157-163 | a missing Sky section leaves the sky unchanged and succeeds |
| SceneSerialization.FillScene | RayTracing/src/Scene/SceneSerializer.cpp:149-154 | filling the sections never returns false and never changes the name |
| SceneSerialization.DeserializeScene | RayTracing/src/Scene/SceneSerializer.cpp:130-155 | a missing file throws. A file that does not parse returns false. Whenever the load returns false, the scene is unchanged |
| SceneSerialization.LightRoundTrip | RayTracing/src/Scene/SceneSerializer.cpp:94-102 | a written light reads back completely, with its enabled flag and direction and the default position |
| SceneSerialization.SphereRoundTrip | RayTracing/src/Scene/SceneSerializer.cpp:104-114 | a written sphere reads back completely and unchanged |
| SceneSerialization.MaterialRoundTrip | RayTracing/src/Scene/SceneSerializer.cpp:116-128 | a written material reads back completely and unchanged |
| SceneSerialization.FillEncoded | RayTracing/src/Scene/SceneSerializer.cpp:165-172 | reading a list written element by element appends every element, as stored, in order |
| SceneSerialization.SectionRoundTrip | RayTracing/src/Scene/SceneSerializer.cpp:165-190 | a list section that was written element by element reads back in full |
| SceneSerialization.FillSceneSucceeds | RayTracing/src/Scene/SceneSerializer.cpp:149-154 | when all four sections read in full, the load succeeds with exactly what they read |
| SceneSerialization.SkySectionRoundTrip | RayTracing/src/Scene/SceneSerializer.cpp:157-163 | the written sky reads back unchanged, whatever sky was there before |
| SceneSerialization.LightsSectionRoundTrip | RayTracing/src/Scene/SceneSerializer.cpp:165-172 | the written lights read back as their stored forms, in order |
| SceneSerialization.SpheresSectionRoundTrip | RayTracing/src/Scene/SceneSerializer.cpp:174-181 | the written spheres read back unchanged, in order |
| SceneSerialization.MaterialsSectionRoundTrip | RayTracing/src/Scene/SceneSerializer.cpp:183-190 | the written materials read back unchanged, in order |
| SceneSerialization.SceneRoundTrip | RayTracing/src/Scene/SceneSerializer.cpp:38-217 | loading a written scene returns true. It restores the name, the sky, every sphere and material, and every light's enabled flag and direction, all in order. Light positions come back as default |
| SceneSerialization.RoundTripIsExactIffLightsUnmoved | RayTracing/src/Scene/SceneSerializer.cpp:192-197 | a written scene reads back identical exactly when every light has the default position |
| SceneSerialization.MissingSectionsLoadEmpty | RayTracing/src/Scene/SceneSerializer.cpp:144-190 | a document with only a name loads. It keeps the sky and leaves the three lists empty |
| SceneSerialization.FillSceneSections | RayTracing/src/Scene/SceneSerializer.cpp:149-154 | filling succeeds only when each list section was read in full, and each list is then what its section produced |
| SceneSerialization.DeserializeSucceeds | RayTracing/src/Scene/SceneSerializer.cpp:138-154 | a load that returns true found a "Scene" map and a name, and filled the cleared scene from it |
| SceneSerialization.SectionFollowsItems | RayTracing/src/Scene/SceneSerializer.cpp:165-172 | a section read in full from a sequence holds one decoded element per item, in order |
| SceneSerialization.LoadedLightsFollowDocument | RayTracing/src/Scene/SceneSerializer.cpp:145-172 | after a successful load, the lights are exactly the decoded elements of the document's Lights sequence, in document order |
| SceneSerialization.LoadedSpheresFollowDocument | RayTracing/src/Scene/SceneSerializer.cpp:146-181 | after a successful load, the spheres are exactly the decoded elements of the document's Spheres sequence, in document order |
| SceneSerialization.LoadedMaterialsFollowDocument | RayTracing/src/Scene/SceneSerializer.cpp:147-190 | after a successful load, the materials are exactly the decoded elements of the document's Materials sequence, in document order |
| SceneSerialization.MissingSceneKeyKeepsScene | RayTracing/src/Scene/SceneSerializer.cpp:138-140 | a document whose root is a map without a "Scene" key, or is null, makes the load return false and leaves the scene unchanged |
| SceneSerialization.SceneSerializer.constructor | RayTracing/src/Scene/SceneSerializer.cpp:34-36 | the serializer refers to the shared scene |
| SceneSerialization.SceneSerializer.Serialize | RayTracing/src/Scene/SceneSerializer.cpp:38-61 | it returns true and stores the encoded scene at the path. No other path changes |
| SceneSerialization.SceneSerializer.Deserialize | RayTracing/src/Scene/SceneSerializer.cpp:130-155 | the outcome and the new scene are those of `DeserializeScene`, partial state included |
| SceneSerialization.SceneSerializer.DeserializeSky | RayTracing/src/Scene/SceneSerializer.cpp:157-163 | it changes only the sky, as `ApplySky` says |
| SceneSerialization.SceneSerializer.DeserializeLights | RayTracing/src/Scene/SceneSerializer.cpp:165-172 | its loop changes only the lights, as the section reader says |
| SceneSerialization.SceneSerializer.DeserializeLight | RayTracing/src/Scene/SceneSerializer.cpp:192-197 | it appends the decoded light unless the subscript threw, and reports whether the light was read completely |
| SceneSerialization.SceneSerializer.DeserializeSpheres | RayTracing/src/Scene/SceneSerializer.cpp:174-181 | its loop changes only the spheres, as the section reader says |
| SceneSerialization.SceneSerializer.DeserializeSphere | RayTracing/src/Scene/SceneSerializer.cpp:199-206 | it appends the decoded sphere unless the subscript threw |
| SceneSerialization.SceneSerializer.DeserializeMaterials | RayTracing/src/Scene/SceneSerializer.cpp:183-190 | its loop changes only the materials, as the section reader says |
| SceneSerialization.SceneSerializer.DeserializeMaterial | RayTracing/src/Scene/SceneSerializer.cpp:208-217 | it appends the decoded material unless the subscript threw |
| RendererState.DefaultSettingsValues | RayTracing/src/Renderer/Renderer.h:14-24 | all six flags are on, with 5 ray bounces and resolution scale 100 |
| RendererState.Renderer.constructor | RayTracing/src/Renderer/Renderer.h:59-71 | a new renderer has the default settings, frame index 1 and time 0 |
| RendererState.Renderer.ResetFrameIndex | RayTracing/src/Renderer/Renderer.h:33 | the frame index becomes 1, and nothing else changes |
| RendererState.Renderer.GetFrameIndex | RayTracing/src/Renderer/Renderer.h:34 | it returns the frame index as an `int`, negative from 2^31 on, and changes nothing |
| RendererState.Renderer.SetTime | RayTracing/src/Renderer/Renderer.h:39 | the time becomes the argument |
| RendererState.Renderer.GetTime | RayTracing/src/Renderer/Renderer.h:40 | despite its name, it also stores its argument as the time |
| RendererState.ResetThenRead | RayTracing/src/Renderer/Renderer.h:33-34 | reading the frame index right after a reset gives 1, and the settings and the time are untouched |
| SettingsSerialization.EncodeSettings | RayTracing/src/Renderer/Serializer/RendererSettingsSerializer.cpp:9-37 | the document's root map has the single key "Renderer", whose map holds exactly the eight settings keys, in order |
| SettingsSerialization.DecodeSettings | RayTracing/src/Renderer/Serializer/RendererSettingsSerializer.cpp:58-69 | an incomplete read never reaches the last assignment, so it leaves the resolution scale as it was |
| SettingsSerialization.DecodeFlags | RayTracing/src/Renderer/Serializer/RendererSettingsSerializer.cpp:61-66 | the six flag assignments leave both counts unchanged |
| SettingsSerialization.DecodeCounts | RayTracing/src/Renderer/Serializer/RendererSettingsSerializer.cpp:67-68 | a failed read of the counts leaves the resolution scale unchanged |
| SettingsSerialization.DeserializeSettingsFile | RayTracing/src/Renderer/Serializer/RendererSettingsSerializer.cpp:39-56 | a missing file throws. A file that does not parse returns false. Whenever the load returns false, the settings are unchanged |
| SettingsSerialization.DecodeOverwritesAll | RayTracing/src/Renderer/Serializer/RendererSettingsSerializer.cpp:58-69 | whether the read completes, and its result when it does, do not depend on the settings it started from: every field is overwritten |
| SettingsSerialization.FlagsOverwritten | RayTracing/src/Renderer/Serializer/RendererSettingsSerializer.cpp:61-66 | a complete read of the flags sets all six of them from the node, whatever they were |
| SettingsSerialization.MissingRendererKeyKeepsSettings | RayTracing/src/Renderer/Serializer/RendererSettingsSerializer.cpp:47-49 | a document without a "Renderer" key returns false and leaves the settings unchanged |
| SettingsSerialization.FlagsLayout | RayTracing/src/Renderer/Serializer/RendererSettingsSerializer.cpp:29-34 | each flag reads back from the written document as written |
| SettingsSerialization.CountsLayout | RayTracing/src/Renderer/Serializer/RendererSettingsSerializer.cpp:35-36 | both counts read back from the written document as written |
| SettingsSerialization.SettingsRoundTrip | RayTracing/src/Renderer/Serializer/RendererSettingsSerializer.cpp:28-69 | loading written settings returns true and reproduces them exactly, whatever the settings were before |
| SettingsSerialization.RendererSettingsSerializer.constructor | RayTracing/src/Renderer/Serializer/RendererSettingsSerializer.cpp:5-7 | the serializer refers to the renderer |
| SettingsSerialization.RendererSettingsSerializer.Serialize | RayTracing/src/Renderer/Serializer/RendererSettingsSerializer.cpp:9-26 | it returns true and stores the encoded settings at the path |
| SettingsSerialization.RendererSettingsSerializer.Deserialize | RayTracing/src/Renderer/Serializer/RendererSettingsSerializer.cpp:39-56 | the outcome and the new settings are those of `DeserializeSettingsFile` |
| SettingsSerialization.RendererSettingsSerializer.DeserializeSettings | RayTracing/src/Renderer/Serializer/RendererSettingsSerializer.cpp:58-69 | the eight assignments, stopping at the first that throws, give `DecodeSettings` |
| SettingsSerialization.RendererSettingsSerializer.DeserializeFlags | RayTracing/src/Renderer/Serializer/RendererSettingsSerializer.cpp:61-66 | the six flag assignments give `DecodeFlags` |
| SettingsSerialization.RendererSettingsSerializer.DeserializeCounts | RayTracing/src/Renderer/Serializer/RendererSettingsSerializer.cpp:67-68 | the two count assignments give `DecodeCounts` |
| Cameras.DefaultCameraDataValues | RayTracing/src/Scene/Camera.h:6-15 | the camera data defaults are position (0,0,6), field of view 45, near clip 0.1, far clip 100, speeds 5 and 10, and rotation speed 0.3 |
| Cameras.Cross | RayTracing/src/Scene/Camera.cpp:40 | the right vector is orthogonal to both the forward and the up vectors |
| Cameras.PixelCoord | RayTracing/src/Scene/Camera.cpp:119-120 | a pixel coordinate maps into [-1, 1), and the first pixel maps to -1 |
| Cameras.Row | RayTracing/src/Scene/Camera.cpp:118-125 | one row of the table has one direction per column |
| Cameras.RayRows | RayTracing/src/Scene/Camera.cpp:117-126 | the first y rows hold y * width directions |
| Cameras.RayTable | RayTracing/src/Scene/Camera.cpp:114-126 | the table holds width * height directions |
| Cameras.RayRowsSlot | RayTracing/src/Scene/Camera.cpp:117-126 | slot x + y * width of the first rows is in bounds and holds the direction of pixel (x, y) |
| Cameras.RayTableSlot | RayTracing/src/Scene/Camera.cpp:117-126 | the table is row-major: slot x + y * width is in bounds and holds pixel (x, y) |
| Cameras.EmptyViewportEmptyTable | RayTracing/src/Scene/Camera.cpp:115-119 | with a zero width or height the table is empty |
| Cameras.Resized | RayTracing/src/Scene/Camera.cpp:115 | `resize` gives the new length, keeps the leading elements and fills new slots with zero vectors |
| Cameras.Translated | RayTracing/src/Scene/Camera.cpp:40-71 | with no movement key held, the position is unchanged |
| Cameras.FirstKeyOfEachPairWins | RayTracing/src/Scene/Camera.cpp:49-71 | W makes S irrelevant, A makes D irrelevant, and LeftControl makes Space irrelevant |
| Cameras.ShiftSelectsSpeed | RayTracing/src/Scene/Camera.cpp:42-55 | W alone moves the camera forward by speed * ts, where the speed is the fast one exactly when LeftShift is held |
| Cameras.Camera.constructor | RayTracing/src/Scene/Camera.cpp:9-14 | the camera stores the given field of view and clip planes at position (0,0,6). It looks along (0,0,-1) with up (0,1,0), at a 0x0 viewport with an empty cache and identity matrices |
| Cameras.Camera.OnUpdate | RayTracing/src/Scene/Camera.cpp:16-91 | it always records the mouse position. When the viewport is non-empty it rebuilds the matrices from the previous position. Without the right button or focus it reports no movement and changes neither position nor direction. Otherwise it reports movement exactly when a movement key is held or the mouse moved, translates the position, and rotates the direction only when the mouse moved |
| Cameras.Camera.Refresh | RayTracing/src/Scene/Camera.cpp:21-25 | the view, the projection, their inverses and the cache match the current position and viewport |
| Cameras.Camera.Move | RayTracing/src/Scene/Camera.cpp:38-71 | it reports movement exactly when a movement key is held, and changes only the position, by `Translated` |
| Cameras.Camera.OnResize | RayTracing/src/Scene/Camera.cpp:93-102 | a call with the stored size changes nothing. Otherwise it stores the size and rebuilds the projection. The cache always has width * height entries |
| Cameras.Camera.RecalculateProjection | RayTracing/src/Scene/Camera.cpp:104-107 | the projection is the perspective of the field of view, the viewport and the clip planes, and the stored inverse is its inverse |
| Cameras.Camera.RecalculateView | RayTracing/src/Scene/Camera.cpp:109-112 | the view looks from the position along the forward vector with the up vector, and the stored inverse is its inverse |
| Cameras.Camera.RecalculateRayDirections | RayTracing/src/Scene/Camera.cpp:114-126 | the cache becomes the row-major ray table, and every slot is written exactly once |
| Cameras.Camera.WriteRow | RayTracing/src/Scene/Camera.cpp:118-125 | the inner loop writes row y into its own slots, each once, and keeps the rows before it |
| Cameras.Camera.GetPosition | RayTracing/src/Scene/Camera.h:29 | it returns the position and changes nothing |
| Cameras.Camera.GetDirection | RayTracing/src/Scene/Camera.h:30 | it returns the forward vector and changes nothing |
| Cameras.Camera.GetRayDirections | RayTracing/src/Scene/Camera.h:32 | it returns the cache, which is the ray table of the current viewport |
| Cameras.Camera.GetCameraData | RayTracing/src/Scene/Camera.h:34 | it returns the camera data and changes nothing |
| ScenePanels.RemoveAt | RayTracing/src/Panels/ScenePanel.cpp:218-228 | `erase` at an index shortens the list by one, keeps the elements before and after in order, and removes exactly that element |
| ScenePanels.DifferFrom | RayTracing/src/Panels/ScenePanel.cpp:177-181 | the element loop finds a difference exactly when the lists differ at some position from its start on |
| ScenePanels.CheckForChanges | RayTracing/src/Panels/ScenePanel.cpp:164-204 | it reports a change exactly when the two scenes differ in name, sky or any element of the three lists |
| ScenePanels.LengthChangeIsAChange | RayTracing/src/Panels/ScenePanel.cpp:173-195 | lists of different lengths always count as a change |
| ScenePanels.EditLight | RayTracing/src/Panels/ScenePanel.cpp:71-73 | the light widgets never touch the direction |
| ScenePanels.EditSphere | RayTracing/src/Panels/ScenePanel.cpp:99-116 | the widgets set enabled, position and radius. The material index changes only to an index the combo offered, below the material count, and a chosen index that fits in an `int` is stored as is |
| ScenePanels.Rows | RayTracing/src/Panels/ScenePanel.cpp:67-81 | the list never grows, and a removal flag implies a Remove click. Without a removal the length is kept, and each row from the start on holds its widgets' values |
| ScenePanels.LightSection | RayTracing/src/Panels/ScenePanel.cpp:55-81 | the lights section changes only the lights |
| ScenePanels.SphereSection | RayTracing/src/Panels/ScenePanel.cpp:83-124 | the spheres section changes only the spheres |
| ScenePanels.MaterialSection | RayTracing/src/Panels/ScenePanel.cpp:126-156 | the materials section changes only the materials |
| ScenePanels.ResetFlagMeansAddOrRemove | RayTracing/src/Panels/ScenePanel.cpp:12-161 | every Add click raises the reset flag, and the flag is raised only by an Add or a Remove click |
| ScenePanels.EditsKeepLengths | RayTracing/src/Panels/ScenePanel.cpp:67-156 | a frame without Add or Remove clicks keeps every list's length, sets each edited light to its widgets' values, and keeps every light's direction |
| ScenePanels.RemovingMaterialLeavesDanglingIndex | RayTracing/src/Panels/ScenePanel.cpp:226-228 | after a material is removed, a sphere that used the last material holds an index one past the end |
| ScenePanels.ScenePanel.constructor | RayTracing/src/Panels/ScenePanel.cpp:7-9 | the panel refers to the camera, the scene and the loaded scene, and starts with no unsaved changes |
| ScenePanels.ScenePanel.GetUnsavedChanges | RayTracing/src/Panels/ScenePanel.h:14 | it returns the unsaved-changes mark |
| ScenePanels.ScenePanel.OnUIRender | RayTracing/src/Panels/ScenePanel.cpp:11-162 | a hidden panel changes nothing and reports nothing. A shown panel sets the mark from the scenes before the frame's edits, applies the camera edits, and applies the frame to the scene with the reset flag given by `PanelFrame`. The close button hides it |
| ScenePanels.ScenePanel.DrawScene | RayTracing/src/Panels/ScenePanel.cpp:43-156 | the sky edit and the three sections give `PanelFrame` |
| ScenePanels.ScenePanel.DrawLightSection | RayTracing/src/Panels/ScenePanel.cpp:55-81 | the Add button and the rows give `LightSection` |
| ScenePanels.ScenePanel.DrawSphereSection | RayTracing/src/Panels/ScenePanel.cpp:83-124 | the Add button and the rows give `SphereSection` |
| ScenePanels.ScenePanel.DrawMaterialSection | RayTracing/src/Panels/ScenePanel.cpp:126-156 | the Add button and the rows give `MaterialSection` |
| ScenePanels.ScenePanel.DrawLights | RayTracing/src/Panels/ScenePanel.cpp:67-81 | the loop over the lights gives `Rows` over them, and changes nothing else |
| ScenePanels.ScenePanel.DrawSpheres | RayTracing/src/Panels/ScenePanel.cpp:95-124 | the loop over the spheres, with the combo's loop over the materials, gives `Rows` over them, and changes nothing else |
| ScenePanels.ScenePanel.DrawMaterials | RayTracing/src/Panels/ScenePanel.cpp:138-156 | the loop over the materials gives `Rows` over them, and changes nothing else |
| ScenePanels.ScenePanel.AddLight | RayTracing/src/Panels/ScenePanel.cpp:206-208 | exactly one default light is appended, and nothing else changes |
| ScenePanels.ScenePanel.AddSphere | RayTracing/src/Panels/ScenePanel.cpp:210-212 | exactly one default sphere is appended, and nothing else changes |
| ScenePanels.ScenePanel.AddMaterial | RayTracing/src/Panels/ScenePanel.cpp:214-216 | exactly one default material is appended, and nothing else changes |
| ScenePanels.ScenePanel.RemoveLight | RayTracing/src/Panels/ScenePanel.cpp:218-220 | exactly the light at the index is erased, and nothing else changes |
| ScenePanels.ScenePanel.RemoveSphere | RayTracing/src/Panels/ScenePanel.cpp:222-224 | exactly the sphere at the index is erased, and nothing else changes |
| ScenePanels.ScenePanel.RemoveMaterial | RayTracing/src/Panels/ScenePanel.cpp:226-228 | exactly the material at the index is erased. The spheres keep their indices |
| FileNames.Extension | RayTracing/src/RayTracingLayer.cpp:194 | `path::extension` is never longer than the name |
| FileNames.ExtensionShape | RayTracing/src/RayTracingLayer.cpp:194 | the extension is empty or a proper ending of the name that starts with its only '.' |
| FileNames.StemThenExtension | RayTracing/src/RayTracingLayer.cpp:195 | the stem followed by the extension is the name |
| FileNames.ExtensionIs | RayTracing/src/RayTracingLayer.cpp:194 | a name has a given extension exactly when it is longer than the extension and ends with it |
| FileNames.DecimalString | RayTracing/src/RayTracingLayer.cpp:222 | `std::to_string` of a count is a non-empty string of digits, one digit long exactly below 10, ending in the last digit |
| FileNames.DecimalStringInjective | RayTracing/src/RayTracingLayer.cpp:222 | different counts are written differently |
| FileNames.DecimalStringHasNoDot | RayTracing/src/RayTracingLayer.cpp:222 | a written count has no '.' |
| Session.ScenePath | RayTracing/src/RayTracingLayer.cpp:176 | a scene's path starts with "scenes/", ends with ".yaml" and is 12 characters longer than the name |
| Session.SceneNamesMembers | RayTracing/src/RayTracingLayer.cpp:190-203 | a name is listed exactly when it is not "Default" and some ".yaml" entry has it as its stem |
| Session.PngCount | RayTracing/src/RayTracingLayer.cpp:215-220 | the count of ".png" entries is at most the number of entries |
| Session.PngNameHasPngExtension | RayTracing/src/RayTracingLayer.cpp:222 | an exported name has the extension ".png" |
| Session.ExportNameFreshForConsecutive | RayTracing/src/RayTracingLayer.cpp:215-222 | when the folder holds exactly "0.png" to "(n-1).png", all are counted and the export writes a name that is not there yet |
| Session.ExportCanOverwrite | RayTracing/src/RayTracingLayer.cpp:215-222 | with "0.png" and "2.png" in the folder, the export writes "2.png" again |
| Session.SavedSceneLoadsBack | RayTracing/src/RayTracingLayer.cpp:168-180 | saving a scene and loading it by its name returns true with the scene as stored |
| Session.RayTracingLayer.constructor | RayTracing/src/RayTracingLayer.cpp:13-21 | the layer builds the camera with field of view 45 and clip planes 0.1 and 1000. It wires the panel to the camera and both scenes, with the default settings and frame index 1 |
| Session.RayTracingLayer.OnAttach | RayTracing/src/RayTracingLayer.cpp:23-29 | attaching loads scenes/Default.yaml. When the load returns, the loaded scene equals the scene and the frame index is reset. When it throws, neither happens |
| Session.RayTracingLayer.OnUpdate | RayTracing/src/RayTracingLayer.cpp:35-51 | the camera updates as `Camera.OnUpdate` states: it records the mouse, refreshes its matrices from the previous position, and moves and turns only with the right button in a focused viewport. The frame index is reset exactly when the camera moved, and the time becomes ts. Ctrl+N opens the new-scene dialog. Ctrl+S saves, and otherwise the files and the loaded scene are untouched |
| Session.RayTracingLayer.OnUIRender | RayTracing/src/RayTracingLayer.cpp:53-72 | the scene is the new default scene when Create was clicked with a name, otherwise the panel frame's result when the panel was shown, otherwise unchanged. The frame index is reset when either panel reports or a scene is created, and is otherwise unchanged. The dialog flag, the panel's mark and shown flag, and the camera data follow the panels' and the dialog's own contracts. The camera takes the viewport size, and its projection is rebuilt exactly when that size changed |
| Session.RayTracingLayer.DrawPanels | RayTracing/src/RayTracingLayer.cpp:55-62 | the frame index is reset exactly when the settings panel or the shown scene panel reports. The scene is the panel's result. The panel's mark is computed from the scenes before the frame, it hides on Close, and the camera data takes the panel's edit |
| Session.RayTracingLayer.DrawNewSceneModal | RayTracing/src/RayTracingLayer.cpp:74-111 | when the dialog is open, Create with a non-empty name makes a new scene and closes the dialog, and Cancel closes it. Otherwise nothing changes |
| Session.RayTracingLayer.NewScene | RayTracing/src/RayTracingLayer.cpp:161-166 | the scene becomes a default scene with the given name, and the frame index is reset |
| Session.RayTracingLayer.SaveScene | RayTracing/src/RayTracingLayer.cpp:168-172 | the scene is written under its path, the loaded scene equals it, and no unsaved change is reported |
| Session.RayTracingLayer.LoadScene | RayTracing/src/RayTracingLayer.cpp:174-180 | the scene is what the load leaves. When the load returns, with either result, the loaded scene equals it and the frame index is reset. When it throws, neither happens |
| Session.RayTracingLayer.LoadDefaultScene | RayTracing/src/RayTracingLayer.cpp:182-188 | the same as `LoadScene` for scenes/Default.yaml |
| Session.RayTracingLayer.GetAllScenes | RayTracing/src/RayTracingLayer.cpp:190-203 | the loop collects, in listing order, the stem of every ".yaml" entry other than "Default" |
| Session.RayTracingLayer.ExportImage | RayTracing/src/RayTracingLayer.cpp:205-222 | a new folder gets "0.png". Otherwise the name is the count of ".png" entries already there |

## Left out

- ImGui drawing, layout and widget clamp ranges are not modelled. What the widgets return in a frame is an input.
- Real I/O is not modelled: file writes, YAML text formatting and parsing, directory iteration, folder creation and image export. A file is a parsed node tree or `Malformed`. A listing is a sequence of names.
- Floating-point rounding, NaN and infinities are out. Floats are exact reals.
- The glm arithmetic (`perspectiveFov`, `lookAt`, `inverse`, `normalize`, the quaternion rotation) is kept as symbolic terms. The rotation is a function parameter.
- The renderer itself is not modelled: `Renderer::OnResize`, `Renderer::Render`, tracing, accumulation and the image data. `RayTracingLayer::Render` contributes only the camera's resize, and its timer is left out.
- The stats and viewport panels, the about and controls modals, the translation service, the window title, the close-confirmation modal (RayTracingLayer.cpp:113-148) and application close are out. They are user interface or calls into code that is not shown.
- The settings panel's widgets are not modelled. Whether it asked for a reset is an input of `Session.RayTracingLayer.OnUIRender`.
- The camera's matrix getters (`GetProjection`, `GetInverseProjection`, `GetView`, `GetInverseView`) are not modelled. Each returns a field unchanged.
- Cameras.Camera.OnResize: requires width * height below 2^32. The C++ `uint32_t` product would wrap for larger sizes and shrink the cache; that case is not modelled.
- `CheckForChanges` (ScenePanel.cpp:169-198) compares skies, lights, spheres and materials with `==`. Scene/Scene.h defines no `operator==` for them, and that definition is not part of this model. The model assumes it compares every field.
- Yaml.AsString: the model types scalars when the file is parsed. yaml-cpp keeps the text, so `as<std::string>()` of a number or boolean scalar (a file line `Name: 2024`) returns that text, and `as<bool>()`, `as<int>()` and `as<float>()` convert quoted text such as `"true"` or `"5"`. In the model, a number or boolean under a string key throws, and so does a text scalar under a boolean, int or float key. Documents the serializers write are not affected: they write each field with its own type.
- Scene/Scene.h lacks the sky, the enabled flags, the light position and the material name. The model uses a blue enabled sky, enabled lights and spheres, a light at the origin and an empty material name.
- A failed file write is not detected by either serializer, and neither is it here: `Serialize` always stores the document.
- The text round trip through yaml-cpp's emitter and parser is assumed. The emitted document is taken to parse back into the same node tree.
- The exception that escapes a load (a missing file or a failed conversion) is modelled as the `Threw` outcome with the partial state. Its propagation further up, which ends the program, is not modelled.
- The out-of-bounds read in the material combo (ScenePanel.cpp:104), when a sphere's index is past the end, is not modelled as undefined behaviour. `ScenePanels.RemovingMaterialLeavesDanglingIndex` shows how the index gets there.
- `Material::GetEmission` returns a reference to a temporary. The model returns the value.
- The material name field (ScenePanel.cpp:143) hands ImGui a buffer size larger than the string's own storage. The model takes the edited name as an input.
- The new-scene dialog's name buffer holds at most 127 characters. The name is an input of any length.
- Session.RayTracingLayer.ExportImage: the `int` file count is unbounded. The C++ count would overflow past 2^31 - 1 entries.
- Several C++ functions are split into helper methods so that each proof stays small:
  - `ScenePanel::OnUIRender` into `DrawScene` and the section and row methods;
  - `DeserializeSettings` into `DeserializeFlags` and `DeserializeCounts`;
  - `Camera::OnUpdate` into `Refresh` and `Move`;
  - the inner loop of `RecalculateRayDirections` into `WriteRow`.

  The statements and their order are those of the source.
