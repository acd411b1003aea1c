# three-3d-avatar core in Dafny

This project models the logic core of the three-3d-avatar web viewer. The
viewer takes a vector of body measurements from a host app and deforms one
avatar mesh with it.

The model covers:

- **The morph basis** (`ModelMapper`). A host object is laid over all-zero
  defaults. It is then projected to a fixed-order array of 49 morph
  influences:
  - channels 0-30: shape parameters;
  - channels 31-32: `male`/`female`;
  - channels 33-48: 16 indicator-disable flags.

  The asset addresses channels by position, so this layout is the contract.
- **Uniform morph application** (`BaseModels`, `ModelHelper`,
  `ThreeHelper`). One basis array goes to the body mesh and to every
  annotation mesh. The body is the first child named exactly `"body"`; the
  annotations are all other children, in scene order.
- **Single-view loading** (`ThreeHelper`). The body is bound, morphed and
  skinned. Each annotation is labelled at its anchor. The helper mesh's
  bounds tree is built once and refitted afterwards.
- **Annotation label translation** (`AnnotationConfigs`).
- **The dual view** (`DualModelHelpers`):
  - a camera-sync guard with two debounce timers, where a timer's expiry is
    an explicit event;
  - the body-height setter that re-centres both orbit targets, with the sync handlers a "change" from either `update()` runs;
  - the pose `resetView` requests;
  - the teardown loop of a scene.
- **The bootstrap helpers** of `src/main.ts` (`Bootstrap`):
  - the request merge, in which disable flags default to 1;
  - the capped random variation;
  - the ten-keyframe dummy timeline.

`SceneGraph` holds stand-ins for the three.js objects the core touches:
meshes, scenes, cameras and orbit-control targets. `Config` holds the two
constants of `src/config.ts` that the core reads.

How the model represents the source:

- Numbers are `real`.
- A host object is a map from keys to numbers. A key is either a property
  `ModelTargetMapper` declares (`Field`) or any other name. `Object.assign`
  copies the other names too, but `toArray` never reads them.
- `Math.random()` is a parameter: `draws(i, k)` is the draw for key `k` of
  keyframe `i`.
- Calls to `dispose()` are recorded in a ghost log.
- Each place where the source throws becomes an explicit error outcome:
  `None` or `ok == false`. This covers an `undefined` body, and a mesh
  without geometry reaching `geometry.computeBoundingBox()` in a morph pass.
  The source assigns the influences before that call. So a pass that throws
  part-way leaves the meshes before the failing one morphed with new bounds,
  and the failing one holding the new influences with its old bounds.
- A JavaScript object holds one value per property name. So a host object
  never carries an undeclared key spelled like a declared property
  (`WellKeyed`), and `FromInput` asks for that.

Where the two `IModelTargetMapper` interfaces disagree, the model follows
the code:

- `src/models/model-mapper.ts` declares `baseNeckGirth`.
- The dummy timeline in `src/main.ts` writes `neckBaseGirth`.

So that value is copied onto the object but never reaches channel 4
(`NeckBaseGirthNotInBasis`, `DummyNeckBaseChannelZero`).

## Model

| member | source | states |
|---|---|---|
| ModelMapper.FromInput | src/models/model-mapper.ts:56-112 | each declared property is the host value when supplied and its default 0 otherwise; exactly the undeclared host keys are copied, with their values |
| ModelMapper.ToArray | src/models/model-mapper.ts:114-166 | `toArray` returns exactly 49 entries, one per basis channel |
| ModelMapper.ToArrayLayout | src/models/model-mapper.ts:114-166 | channel i holds the property `BasisFields[i]` unchanged (muscular at 0 … outerAnkleHeightR at 30, male 31, female 32, neckIndicatorDisable 33 … backNeckHeightIndicatorDisable 48), with no scaling or clamping |
| ModelMapper.BasisLayout | src/models/model-mapper.ts:110-166 | the basis of a host object holds at channel i the host value for that channel's property if supplied, else 0 |
| ModelMapper.HeightNotInBasis | src/models/model-mapper.ts:108-166 | `heightInM` is stored but is no channel of the basis |
| ModelMapper.BasisIgnoresHeightAndExtras | src/models/model-mapper.ts:108-166 | changing `heightInM` or the copied undeclared keys never changes the basis |
| ModelMapper.NeckBaseGirthNotInBasis | src/models/model-mapper.ts:110-120 | an input carrying `neckBaseGirth` but not `baseNeckGirth` has it copied onto the object, yet channel 4 (`baseNeckGirth`) stays 0 |
| ModelHelper.FindBody | src/model-helper.ts:9 | the index of the first child named exactly "body", or none exactly when no child has that name |
| ModelHelper.Annotations | src/model-helper.ts:15 | the filter keeps exactly the children not named "body": everything kept is such a child and every such child is kept |
| ModelHelper.AnnotationsAppend | src/model-helper.ts:15 | the filter distributes over concatenation, so it keeps scene order |
| ModelHelper.AnnotationsWithoutBody | src/model-helper.ts:15 | a list without a "body" child passes through unchanged |
| ModelHelper.FilterBodyModelFromList | src/model-helper.ts:6-10 | wraps the first "body" child in a fresh model titled "body" with no position; none exactly when there is no such child |
| ModelHelper.ApplyToAll | src/model-helper.ts:30-36 | with no body nothing changes (the frame is empty) and the pass succeeds. With a body, one pass goes over the body and then the annotations passed. It succeeds exactly when all of them have a geometry, and then all carry the same array with bounds recomputed. When it fails at the first mesh without geometry, that mesh carries the array with its old bounds, the meshes before it carry the array with new bounds, and the rest keep their influences and bounds. Visibility and materials are untouched |
| ModelHelper.MorphPass | src/model-helper.ts:31-35 | the body and then each annotation take the array in order, up to and including the first mesh without geometry, which gets no new bounds; the count fully morphed is exactly the prefix with a geometry; every other mesh keeps its influences and bounds; no visibility or material changes |
| ModelHelper.UpdateMorphTargets | src/model-helper.ts:19-37 | the same outcome as `ApplyToAll`, with `toArray` of the parameters overlaid on the defaults as the array |
| BaseModels.BaseModel.constructor | src/models/base-model.ts:15-27 | the title is the mesh's name and the position is unset |
| BaseModels.BaseModel.ApplyMorph | src/models/base-model.ts:29-35 | the influences are replaced wholesale by `data` in every case; it fails (the source's throw in the bounds call) exactly when the mesh has no geometry, and then the bounds keep their old state; otherwise they are recomputed; title, position, visibility and material unchanged |
| BaseModels.BaseModel.SetVisible | src/models/base-model.ts:36-38 | sets `visible` and nothing else of the mesh |
| BaseModels.BaseModel.ApplySkinTexture | src/models/base-model.ts:40-42 | sets `material` and nothing else of the mesh |
| AnnotationConfigs.TranslatedLabel | src/models/annotation-config.ts:30-36 | a string under `name` becomes the label; otherwise (key absent, or value not a string) the old label is kept |
| AnnotationConfigs.TranslationIdempotent | src/models/annotation-config.ts:30-36 | applying the same translation twice equals applying it once |
| AnnotationConfigs.TranslationLocal | src/models/annotation-config.ts:32-35 | entries under other keys never affect the label |
| AnnotationConfigs.AnnotationConfig.constructor | src/models/annotation-config.ts:15-23 | name, label, position, indicator and camera are copied from the JSON unchanged |
| AnnotationConfigs.AnnotationConfig.UpdateTranslation | src/models/annotation-config.ts:30-36 | the new label is the translated label of the old one; name, position, indicator and camera unchanged |
| DualModelHelpers.Step | src/dual-model-helper.ts:88-120 | each event keeps the two timers from being pending together; an expiry clears only its own timer |
| DualModelHelpers.RunKeepsExclusive | src/dual-model-helper.ts:88-120 | no sequence of events ever leaves both timers pending |
| DualModelHelpers.Leader1Holds | src/dual-model-helper.ts:88-103 | while timer 1 is pending, no change in view 2 can arm timer 2, until timer 1 expires |
| DualModelHelpers.Leader2Holds | src/dual-model-helper.ts:105-120 | the mirror image for view 2 |
| DualModelHelpers.SetUpScene | src/dual-model-helper.ts:160-165 | a fresh scene with no children |
| DualModelHelpers.SetUpCamera | src/dual-model-helper.ts:149-158 | a fresh camera at the origin, unrotated |
| DualModelHelpers.SetUpOrbitControl | src/dual-model-helper.ts:203-236 | fresh controls whose target is `INITIAL_CAMERA_TARGET`; the camera moves to `INITIAL_DUAL_CAMERA_POSITION` |
| DualModelHelpers.SetUpView | src/dual-model-helper.ts:67-74 | one view's scene, camera and controls, set up in the source's order |
| DualModelHelpers.DualModelHelper.constructor | src/dual-model-helper.ts:38 | the body height starts at `INITIAL_CAMERA_TARGET.y`; nothing is bound and no timer is pending |
| DualModelHelpers.DualModelHelper.Init | src/dual-model-helper.ts:63-75 | two distinct views, each with an empty scene, a camera at `INITIAL_DUAL_CAMERA_POSITION` and an orbit target at `INITIAL_CAMERA_TARGET`; the guard invariant holds |
| DualModelHelpers.DualModelHelper.SetBodyHeight | src/dual-model-helper.ts:44-52 | the stored height is the new value (what the getter returns), each bound orbit target becomes (0, v/2, 0), and a "change" emitted by either `update()` runs that view's sync handler: the timers advance by `Run` over `UpdateEvents`, camera 2 takes camera 1's pose when controls 1 lead, camera 1 takes camera 2's when only controls 2 do, and otherwise both cameras keep their poses |
| DualModelHelpers.UpdateEvents | src/dual-model-helper.ts:44-52 | the setter emits a control-1 change exactly when controls 1 report one, likewise for controls 2, and controls 1's comes first |
| DualModelHelpers.RunConcat | src/dual-model-helper.ts:76-119 | the handlers' effect on the timers composes: running two event sequences in turn is running their concatenation |
| DualModelHelpers.DualModelHelper.OnControl1Change | src/dual-model-helper.ts:88-103 | a no-op if a camera is missing or timer 2 is pending; otherwise camera 2 takes camera 1's position and quaternion, camera 1 is unchanged and timer 1 is re-armed; the guard invariant is kept |
| DualModelHelpers.DualModelHelper.OnControl2Change | src/dual-model-helper.ts:105-120 | the mirror image of `onControl1Change` |
| DualModelHelpers.DualModelHelper.OnTimer1Expired | src/dual-model-helper.ts:98-100 | timer 1's callback clears timer 1 only |
| DualModelHelpers.DualModelHelper.OnTimer2Expired | src/dual-model-helper.ts:117-119 | timer 2's callback clears timer 2 only |
| DualModelHelpers.DualModelHelper.ResetViewRequest | src/dual-model-helper.ts:332-347 | the requested pose is `INITIAL_DUAL_CAMERA_POSITION` looking at (0, bodyHeight/2, 0); none (the source's throw) exactly when camera 1 or its controls are missing |
| DualModelHelpers.ResetTargetsHeight | src/dual-model-helper.ts:332-347 | after the height setter, `resetView` returns to the very target the setter centred |
| DualModelHelpers.DualModelHelper.DisposeMesh | src/dual-model-helper.ts:189-199 | disposes the geometry if any, then the single material or each material in order |
| DualModelHelpers.DualModelHelper.TearDownLast | src/dual-model-helper.ts:185-199 | one iteration: the last child is removed, the rest keep their order, and its disposals are logged |
| DualModelHelpers.DualModelHelper.UnLoadScene | src/dual-model-helper.ts:182-201 | a no-op on an undefined scene; otherwise no children remain, and each child's geometry and materials are disposed, from the last child to the first |
| SceneGraph.RemoveLastOfDistinct | src/dual-model-helper.ts:184-186 | removing the last child of a list without repeats leaves exactly the preceding children |
| SceneGraph.LocalToWorld | src/three-helper.ts:350 | local-to-world under an unrotated world matrix is translation |
| SceneGraph.GeometryPrefix | src/three-helper.ts:168-170 | the length of the longest prefix of meshes that all have a geometry: every mesh before it has one, and the mesh at it, if any, has none |
| Bootstrap.MergeRequest | src/main.ts:52-78 | host fields override; any other key is present exactly when it is a disable flag, and then it is 1; a well-keyed request stays well-keyed |
| Bootstrap.FlagChannelsDefaultToOne | src/main.ts:52-78 | through the mapper, each flag channel 33-48 of the request's basis is 1 unless the host supplied that flag, and then it is the host's value |
| Bootstrap.ApplyRandomVariation | src/main.ts:155-159 | the result never exceeds 1; it equals value × multiplier whenever that product is at most 1, and is exactly 1 when the product exceeds 1 |
| Bootstrap.VariationBand | src/main.ts:155-159 | for a non-negative value and a draw in [0, 1), the result is the cap or lies within 10% of the value |
| Bootstrap.Varied | src/main.ts:164-197 | exactly the varied measurement keys, each the test value under its own draw |
| Bootstrap.DummyMeasurement | src/main.ts:164-219 | every keyframe's measurements are well-keyed: no undeclared key spells a declared property |
| Bootstrap.GenerateDummyTimeline | src/main.ts:161-228 | exactly 10 keyframes; keyframe i is dated 10000 + 1000·i and carries keyframe i's measurements, so dates strictly increase |
| Bootstrap.DummyKeys | src/main.ts:164-219 | a keyframe holds exactly the flags, the fixed body-type keys and the varied keys |
| Bootstrap.DummyFlagsHidden | src/main.ts:202-218 | every keyframe sets every disable flag to 1 |
| Bootstrap.DummyFixedValue | src/main.ts:167-200 | each fixed body-type key keeps its fixed value in every keyframe |
| Bootstrap.DummyBodyType | src/main.ts:167-200 | every keyframe has `skinny` 0, `male` 1 and `female` 0 |
| Bootstrap.DummyVariedValue | src/main.ts:165-197 | each varied key is the test value under that keyframe's draw for it |
| Bootstrap.DummyValuesCapped | src/main.ts:155-219 | no value of a keyframe exceeds 1 |
| Bootstrap.DummyNeckBaseKeys | src/main.ts:169 | a keyframe carries `neckBaseGirth` and not `baseNeckGirth` |
| Bootstrap.DummyNeckBaseChannelZero | src/main.ts:169 | so channel 4 of every keyframe's basis is 0 |
| ThreeHelper.NextTree | src/three-helper.ts:255-261 | one regeneration builds the tree when absent and refits it once otherwise |
| ThreeHelper.BuiltOnce | src/three-helper.ts:243-265 | after n ≥ 1 regenerations of a fresh helper, the tree was built once and refitted n − 1 times |
| ThreeHelper.LabelsFor | src/three-helper.ts:191-199 | one label per annotation, in order, with the mesh's name as text, placed at the world image of vertex 0 of its morphed geometry |
| ThreeHelper.HelperMesh.constructor | src/three-helper.ts:222-225 | a new helper mesh holds no generated geometry and no bounds tree |
| ThreeHelper.ThreeJSHelper.constructor | src/three-helper.ts:44-78 | a camera at the origin; no body, helper mesh, generator or labels yet |
| ThreeHelper.ThreeJSHelper.UpdateMorphTargets | src/three-helper.ts:84-91 | a no-op without a body; otherwise the body's influences become exactly `values`, bounds not recomputed |
| ThreeHelper.ThreeJSHelper.ApplyMorph | src/three-helper.ts:288-299 | the influences are replaced wholesale by `data` in every case; it fails (the source's throw in the bounds call) exactly when the mesh has no geometry, and then the bounds keep their old state; otherwise they are recomputed; visibility and material unchanged |
| ThreeHelper.ThreeJSHelper.GetPosition | src/three-helper.ts:334-359 | the anchor under the current influences: the label `LabelsFor` gives the mesh under its own influences sits at the result, and under an unrotated world matrix the result is `firstVertex(influences)` shifted by the translation |
| ThreeHelper.ThreeJSHelper.CreateLabel | src/three-helper.ts:318-332 | appends exactly one label with that text and position |
| ThreeHelper.ThreeJSHelper.RegenerateMesh | src/three-helper.ts:243-265 | a no-op without a helper mesh; otherwise the generator, if any, rewrites its geometry, and the tree is built if absent and refitted otherwise |
| ThreeHelper.ThreeJSHelper.MorphAll | src/three-helper.ts:165-171 | succeeds exactly when the body and every annotation have a geometry, and then all carry the same initial array with bounds recomputed. Otherwise the first mesh without geometry carries the array with its old bounds, the meshes before it carry it with new bounds, and the rest keep their influences and bounds. Visibility and materials are untouched |
| ThreeHelper.ThreeJSHelper.MorphPass | src/three-helper.ts:166-170 | the body and then each annotation take the array in order, up to and including the first mesh without geometry, which gets no new bounds; the count fully morphed is exactly the prefix with a geometry; every other mesh keeps its influences and bounds; no visibility or material changes |
| ThreeHelper.ThreeJSHelper.BindAndMorph | src/three-helper.ts:146-171 | succeeds exactly when the scene is loadable. Either way `bodyModel` is the first "body" child (cleared without one), which is shown with its material unchanged, and the pass over it and then the other-named children leaves the outcome `MorphAll` states. No child outside the pass changes its influences or bounds, and no child but the body changes its visibility or material. On success the body and every other-named child carry the array with bounds recomputed |
| ThreeHelper.ThreeJSHelper.FinishLoad | src/three-helper.ts:173-238 | the body gets a fresh single material; the annotations' labels are appended in scene order; the generator merges the annotations; a fresh helper mesh holds their geometry with a tree built once; only the body's material changes among the meshes |
| ThreeHelper.ThreeJSHelper.LabelAll | src/three-helper.ts:191-199 | appends the labels of the annotations, in scene order, to those already present |
| ThreeHelper.ThreeJSHelper.OnLoad | src/three-helper.ts:127-238 | succeeds exactly when a child is named "body" and it and every other-named child have a geometry. Then the first "body" child is bound, visible, morphed and skinned with a fresh material; every other child is morphed and labelled; the generator merges those annotations; the fresh helper mesh holds their geometry and a tree built once. On failure no label, generator or helper mesh changes; `bodyModel` is cleared without a body and otherwise is the shown body with its material unchanged; the morph pass leaves the outcome `MorphAll` states. Either way no child outside the pass changes its influences or bounds, and no child but the body changes its visibility or material |
| ThreeHelper.ThreeJSHelper.PlaceAndParse | src/three-helper.ts:101-240 | the camera moves to z = 10 and the children are loaded with the same outcome as `onLoad`, success and failure alike |
| ThreeHelper.ThreeJSHelper.LoadModel | src/three-helper.ts:93-241 | the camera moves to z = 10, and the children are loaded with `toArray` of the model as the initial array, with the same outcome as `onLoad`, success and failure alike |

## Left out

- Rendering is not modelled: WebGL and CSS2D, the `requestAnimationFrame` loop, `render`, `onWindowResize`, renderer setup and DOM nodes. It is I/O with no logic to state.
- GLTF and Draco parsing are not modelled. The parsed scene's children arrive as a parameter.
- Textures are not modelled. The skin material is a fresh `Material`, and the wireframe helper material is not modelled.
- `scene.add` of the parsed scene, the helper mesh and the BVH helper, and `bvhHelper.update`, are not modelled. They draw and change no state the core reads.
- The OrbitControls distance and polar clamps, `enablePan` and `camera.up` are not modelled. The external library enforces them.
- DualModelHelpers.SetUpOrbitControl: the re-orientation that `controls.update()` performs is not modelled, so the camera quaternion is stated unchanged. No "change" listener is registered yet when it runs.
- DualModelHelpers.DualModelHelper.SetBodyHeight: whether each `update()` re-orients its camera and emits "change" is the library's decision, given as `moved1` and `moved2`. The re-orientation of the updated camera itself is not modelled; the sync handlers that "change" runs are.
- The `gsap` tween in `moveCamera` is not modelled. `ResetViewRequest` models `resetView` as the pose it requests.
- The listeners are not modelled: registration, removal and `setTimeout` scheduling. Timer expiry is an explicit event (`OnTimer1Expired`, `OnTimer2Expired`). Clearing a pending timer and arming a new one leaves the flag set, which is what the model keeps.
- `unloadModel`, `loadDualModel`, `updateMorphTargets1` and `updateMorphTargets2` in `src/dual-model-helper.ts` are not modelled as members. They call `unLoadScene` and `updateMorphTargets` (both modelled) on the two views. Beyond that they clone models, load textures and dispose renderers, none of which is modelled.
- `BodyModel` is modelled as `BaseModel`. In `src/models/body-model.ts:3-10` it is a bare subclass of `THREE.Mesh`: `clone` is inherited, but `applyMorph`, `loadTextures` and `toggleWireFrame`, which `src/model-helper.ts` and `src/dual-model-helper.ts` call on it, are defined in neither it nor `THREE.Mesh`. The model gives the body the `BaseModel` methods those calls evidently mean.
- ModelHelper.FilterBodyModelFromList: returns `None` when no child is named "body". The source passes the found mesh, or `undefined` when there is none, as the geometry argument of a new `THREE.Mesh`. What that constructor of three.js does with either argument is not captured: the model wraps the found mesh itself.
- ModelHelper.ApplyToAll: the source hands one array object to every mesh, so a later in-place write to one mesh's influences would show on all of them. The model copies a value, so that aliasing is not captured; no code in the core writes into the array.
- ThreeHelper.ThreeJSHelper.MorphAll: the same array aliasing as `ApplyToAll` is not captured.
- ThreeHelper.ThreeJSHelper.LoadModel: the source runs `onLoad` as the loader's callback (`src/three-helper.ts:240`), after `loadModel` has returned. The model runs it synchronously, so it does not capture state changes made between the two.
- ThreeHelper.ThreeJSHelper.PlaceAndParse: runs the load before the camera move, the reverse of the source's order. The two touch disjoint state (the camera's position; the helper, the children and new objects), so the end state is the same.
- The `ThreeJSHelper` members that `src/main.ts` calls but `src/three-helper.ts` does not define are outside the model: `init`, `updateMetrics`, `updateUI`, `playTimeline` and `unloadModel`. The same goes for `getAvg` and `initConfig`.
- `src/models/label-model.ts`, `src/html-helper.ts` and `src/js-channel-helper.ts` are not modelled. They do DOM layout and talk to the host bridge.
- `main.js`, `src/main.js`, `vite.config.js`, `src/types` and the trivial subclasses in `src/models/body-indicator.ts` and `src/models/annotation-model.ts` are not modelled.
- Floating point is not modelled: numbers are `real`, so `v / 2` and the variation product are exact.
- `Math.random` is the `draws` parameter.
- Bootstrap.GenerateDummyTimeline: requires that the test parameters hold every key the timeline varies, `neckBaseGirth` included. With a key missing, the source's variation of `undefined` records NaN rather than throwing; the model does not capture that case.
- ThreeHelper.ThreeJSHelper.LoadModel: states only z = 10 for the camera. The JSON serialisation of the asset data and the loader setup are not modelled.
- ThreeHelper.ThreeJSHelper.OnLoad: each TypeError the source throws is `ok == false`. A missing body leaves `bodyModel` cleared, since the source assigns `undefined` before it throws. A mesh without geometry stops the morph pass part-way, as in the source.
- ThreeHelper.ThreeJSHelper.GetPosition: the static geometry generator and `computeBoundsTree` on its output are not modelled. Vertex 0 of the generated geometry is the mesh's `firstVertex` function of the morph influences. The `console.log` is not modelled.
- ThreeHelper.ThreeJSHelper.constructor: the renderer, the scene background, the label renderer and the controls' distance limits are left out.
- `toArray` only reads the object: as a function of an immutable record, it returns equal arrays on equal objects and changes nothing, by construction.
