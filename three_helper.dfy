/**
 * `ThreeJSHelper` (`src/three-helper.ts`): the single-view controller. It
 * binds the loaded asset's body mesh, morphs the body and its annotation
 * meshes, labels every annotation at its anchor, and keeps a helper mesh
 * whose bounds tree is built once and refitted afterwards. Rendering, the
 * GLTF parser and texture loading are outside the model: the parsed scene's
 * children arrive as a parameter.
 */
module ThreeHelper {
  import opened Wrappers
  import opened SceneGraph
  import opened ModelMapper
  import opened ModelHelper

  /** The bounds tree of the helper mesh's geometry: absent, or built and
      then refitted `refits` times. */
  datatype BoundsTree = NoTree | Built(refits: nat)

  /** One step of `regenerateMesh`: build the tree when absent, refit it otherwise. */
  function NextTree(t: BoundsTree): (r: BoundsTree)
    ensures r.Built?
    ensures t.Built? ==> r.refits == t.refits + 1
    ensures t.NoTree? ==> r.refits == 0
  {
    match t
    case NoTree => Built(0)
    case Built(n) => Built(n + 1)
  }

  /** The tree after `n` regenerations of a fresh helper mesh. */
  function TreeAfter(n: nat): BoundsTree
  {
    if n == 0 then NoTree else NextTree(TreeAfter(n - 1))
  }

  /** The tree is built exactly once: after `n` regenerations it has been
      refitted `n - 1` times. */
  lemma {:induction false} BuiltOnce(n: nat)
    requires n >= 1
    ensures TreeAfter(n) == Built(n - 1)
  {
    if n > 1 {
      BuiltOnce(n - 1);
    }
  }

  /** A CSS2D label: its text and the world position it is placed at. */
  datatype Label = Label(text: string, position: Vec3)

  /** The anchor of `obj` under `influences`: vertex 0 of its morphed static
      geometry, taken to world space. */
  function AnchorUnder(obj: Mesh, influences: seq<real>): Vec3
  {
    LocalToWorld(obj.matrixWorld, obj.firstVertex(influences))
  }

  /** The labels of `annotations` morphed by `data`: one per mesh, in order,
      named after the mesh and placed at its anchor. */
  function LabelsFor(annotations: seq<Mesh>, data: seq<real>): (r: seq<Label>)
    ensures |r| == |annotations|
    ensures forall k :: 0 <= k < |r| ==> r[k] == Label(annotations[k].name, AnchorUnder(annotations[k], data))
  {
    seq(|annotations|, k requires 0 <= k < |annotations| => Label(annotations[k].name, AnchorUnder(annotations[k], data)))
  }

  /** The labels of a list grow one mesh at a time. */
  lemma LabelsForStep(annotations: seq<Mesh>, data: seq<real>, j: nat)
    requires j < |annotations|
    ensures LabelsFor(annotations[..j + 1], data)
         == LabelsFor(annotations[..j], data) + [Label(annotations[j].name, AnchorUnder(annotations[j], data))]
  {
    assert annotations[..j + 1][..j] == annotations[..j];
  }

  /** The child `onLoad` binds as its body: the first one named "body", if any. */
  function LoadBody(children: seq<Mesh>): (r: Mesh?)
    ensures r == null <==> FindBody(children).None?
    ensures r != null ==> r in children && r.name == BodyName
  {
    match FindBody(children)
    case None => null
    case Some(i) => children[i]
  }

  /** The meshes `onLoad`'s morph pass visits, in order: none without a body,
      else the body and then every other-named child in scene order. */
  function LoadMeshes(children: seq<Mesh>): (r: seq<Mesh>)
    ensures forall m :: m in r ==> m in children
  {
    if LoadBody(children) == null then [] else [LoadBody(children)] + Annotations(children)
  }

  /** `onLoad` touches no child but the bound body and the ones its morph
      pass visits: every other child keeps its influences and bounds, and
      every child except the body keeps its visibility and material. */
  twostate predicate ChildrenKept(children: seq<Mesh>)
    reads children
  {
    && (forall m {:trigger m.influences} :: m in children && m !in LoadMeshes(children) ==>
          m.influences == old(m.influences))
    && (forall m {:trigger m.boundsFresh} :: m in children && m !in LoadMeshes(children) ==>
          m.boundsFresh == old(m.boundsFresh))
    && (forall m {:trigger m.visible} :: m in children && m != LoadBody(children) ==> m.visible == old(m.visible))
    && (forall m {:trigger m.material} :: m in children && m != LoadBody(children) ==> m.material == old(m.material))
  }

  /** `meshHelper`: the wireframe mesh whose geometry the static generator fills. */
  class HelperMesh {
    /** The meshes whose merged geometry the last `generate` wrote into it, if any. */
    var generatedFrom: Option<seq<Mesh>>
    var boundsTree: BoundsTree

    constructor ()
      ensures generatedFrom == None && boundsTree == NoTree
    {
      generatedFrom := None;
      boundsTree := NoTree;
    }
  }

  class ThreeJSHelper {
    const camera: Camera
    var bodyModel: Mesh?
    var meshHelper: HelperMesh?
    /** The meshes the `StaticGeometryGenerator` merges, once one exists. */
    var staticGeometryGenerator: Option<seq<Mesh>>
    /** The labels `createLabel` has added to the scene, in order. */
    var labels: seq<Label>

    constructor ()
      ensures fresh(camera) && camera.position == Vec3(0.0, 0.0, 0.0)
      ensures bodyModel == null && meshHelper == null && staticGeometryGenerator == None && labels == []
    {
      camera := new Camera(Vec3(0.0, 0.0, 0.0), Quaternion(0.0, 0.0, 0.0, 1.0));
      bodyModel := null;
      meshHelper := null;
      staticGeometryGenerator := None;
      labels := [];
    }

    /** `updateMorphTargets`: with a body bound, its influences become `values`
        (the bounds are not recomputed); without one, nothing changes. */
    method UpdateMorphTargets(values: seq<real>)
      modifies bodyModel
      ensures bodyModel != null ==> bodyModel.influences == values && !bodyModel.boundsFresh
      ensures bodyModel != null ==>
                bodyModel.visible == old(bodyModel.visible) && bodyModel.material == old(bodyModel.material)
    {
      if bodyModel != null {
        bodyModel.influences := values;
        bodyModel.boundsFresh := false;
      }
    }

    /** `applyMorph`: replaces the influences wholesale, then recomputes the
        bounds, which dereferences the geometry. `ok` is false where the
        source throws, without a geometry; the influences are assigned
        before that. */
    method ApplyMorph(obj: Mesh, data: seq<real>) returns (ok: bool)
      modifies obj
      ensures ok <==> obj.geometry != null
      ensures obj.influences == data
      ensures obj.boundsFresh == (ok || old(obj.boundsFresh))
      ensures obj.visible == old(obj.visible) && obj.material == old(obj.material)
    {
      obj.influences := data;
      if obj.geometry == null {
        return false;
      }
      obj.ComputeBounds();
      ok := true;
    }

    /** `getPosition`: vertex 0 of the geometry generated from `obj` under its
        current influences, taken to world space by `obj.localToWorld`. It is
        the position the label of a morphed annotation is placed at. */
    function GetPosition(obj: Mesh): (p: Vec3)
      reads obj
      ensures LabelsFor([obj], obj.influences) == [Label(obj.name, p)]
      ensures var v := obj.firstVertex(obj.influences);
              obj.matrixWorld == Affine(Vec3(1.0, 0.0, 0.0), Vec3(0.0, 1.0, 0.0), Vec3(0.0, 0.0, 1.0), obj.matrixWorld.translation) ==>
                p == Vec3(v.x + obj.matrixWorld.translation.x, v.y + obj.matrixWorld.translation.y,
                          v.z + obj.matrixWorld.translation.z)
    {
      AnchorUnder(obj, obj.influences)
    }

    /** `createLabel`: adds one label to the scene. */
    method CreateLabel(text: string, position: Vec3)
      modifies this`labels
      ensures labels == old(labels) + [Label(text, position)]
    {
      labels := labels + [Label(text, position)];
    }

    /** `regenerateMesh`: without a helper mesh nothing changes; otherwise the
        generator, if any, rewrites its geometry, and the bounds tree is built
        when absent and refitted otherwise. */
    method RegenerateMesh()
      modifies meshHelper
      ensures meshHelper != null ==> meshHelper.boundsTree == NextTree(old(meshHelper.boundsTree))
      ensures meshHelper != null && staticGeometryGenerator.Some? ==>
                meshHelper.generatedFrom == staticGeometryGenerator
      ensures meshHelper != null && staticGeometryGenerator.None? ==>
                meshHelper.generatedFrom == old(meshHelper.generatedFrom)
    {
      var helper := meshHelper;
      if helper != null {
        if staticGeometryGenerator.Some? {
          helper.generatedFrom := staticGeometryGenerator;
        }
        match helper.boundsTree
        case NoTree =>
          helper.boundsTree := Built(0);
        case Built(n) =>
          helper.boundsTree := Built(n + 1);
      }
    }

    /** `onLoad`'s morph step: `data` goes to the body, then to every
        annotation in scene order. `ok` is false where the source throws, at
        the first mesh without geometry: that mesh has taken `data` but not
        new bounds, the meshes before it keep `data` with new bounds, and the
        rest are untouched. */
    method MorphAll(body: Mesh, annotations: seq<Mesh>, data: seq<real>) returns (ok: bool)
      modifies [body] + annotations
      ensures ok <==> body.geometry != null && forall m :: m in annotations ==> m.geometry != null
      ensures ok ==> body.influences == data && body.boundsFresh
      ensures ok ==> forall k :: 0 <= k < |annotations| ==> annotations[k].influences == data && annotations[k].boundsFresh
      ensures MorphOutcome(data, [body] + annotations)
      ensures LooksKept([body] + annotations)
    {
      var meshes := [body] + annotations;
      var n := MorphPass(meshes, data);
      ok := n == |meshes|;
      assert ok ==> meshes[..n] == meshes;
    }

    /** `applyMorph` on the body and then the `forEach` over the annotations,
        as one pass over `meshes`: each in turn takes `data` until the first
        mesh without geometry, whose call throws after assigning it; `n`
        counts the meshes fully morphed. */
    method MorphPass(meshes: seq<Mesh>, data: seq<real>) returns (n: nat)
      modifies meshes
      ensures n == GeometryPrefix(meshes)
      ensures MorphOutcome(data, meshes)
      ensures LooksKept(meshes)
    {
      n := 0;
      while n < |meshes|
        invariant n <= GeometryPrefix(meshes)
        invariant MorphStaged(data, meshes, n, n)
        invariant LooksKept(meshes)
      {
        var ok := ApplyMorph(meshes[n], data);
        PrefixStep(meshes, n);
        if !ok {
          return;
        }
        n := n + 1;
      }
    }

    /** `onLoad`'s label step: one label per annotation, named after it and
        placed at its anchor. */
    method LabelAll(annotations: seq<Mesh>, data: seq<real>)
      requires forall k :: 0 <= k < |annotations| ==> annotations[k].influences == data
      modifies this`labels
      ensures labels == old(labels) + LabelsFor(annotations, data)
    {
      for j := 0 to |annotations|
        invariant labels == old(labels) + LabelsFor(annotations[..j], data)
      {
        var basePosition := GetPosition(annotations[j]);
        CreateLabel(annotations[j].name, basePosition);
        LabelsForStep(annotations, data, j);
      }
      assert annotations[..|annotations|] == annotations;
    }

    /** The state `onLoad` leaves for `children` and the morph array `data`:
        the first "body" child is bound, visible, morphed and skinned; every
        other-named child is morphed and labelled at its morphed anchor; the
        generator merges those annotations and the helper mesh holds a bounds
        tree built once. */
    ghost predicate LoadedWith(children: seq<Mesh>, data: seq<real>, labelsBefore: seq<Label>)
      reads this, meshHelper, set m | m in children
    {
      var annotations := Annotations(children);
      && FindBody(children).Some?
      && bodyModel == children[FindBody(children).value]
      && bodyModel.visible && bodyModel.influences == data && bodyModel.boundsFresh && bodyModel.material.Single?
      && (forall k :: 0 <= k < |annotations| ==> annotations[k].influences == data && annotations[k].boundsFresh)
      && labels == labelsBefore + LabelsFor(annotations, data)
      && staticGeometryGenerator == Some(annotations)
      && meshHelper != null && meshHelper.generatedFrom == Some(annotations) && meshHelper.boundsTree == Built(0)
    }

    /** The state `onLoad` leaves when it throws: `bodyModel` is the first
        "body" child (cleared when there is none), and that child is shown with
        its material unchanged; the morph pass over it and the annotations
        stopped at the first mesh without geometry; the other children keep
        their state, and no label, generator or helper mesh has changed. */
    twostate predicate LoadThrown(children: seq<Mesh>, data: seq<real>)
      reads this, children, LoadMeshes(children)
    {
      && labels == old(labels) && meshHelper == old(meshHelper)
      && staticGeometryGenerator == old(staticGeometryGenerator)
      && bodyModel == LoadBody(children)
      && (LoadBody(children) != null ==>
            LoadBody(children).visible && LoadBody(children).material == old(LoadBody(children).material))
      && MorphOutcome(data, LoadMeshes(children))
      && ChildrenKept(children)
    }

    /** What `onLoad` leaves for `children` and `data`: it runs to the end
        exactly when the scene is loadable, and then leaves the loaded state;
        otherwise it leaves the thrown state. No child but the body and the
        meshes the morph pass visits changes either way. */
    twostate predicate LoadOutcome(children: seq<Mesh>, data: seq<real>, ok: bool)
      reads this, meshHelper, children, LoadMeshes(children)
    {
      && (ok <==> Loadable(children))
      && (ok ==> LoadedWith(children, data, old(labels)) && ChildrenKept(children))
      && (!ok ==> LoadThrown(children, data))
    }

    /** `onLoad` runs to the end: there is a "body" child, and it and every
        other-named child have a geometry. */
    static predicate Loadable(children: seq<Mesh>)
    {
      match FindBody(children)
      case None => false
      case Some(i) => children[i].geometry != null && forall m :: m in Annotations(children) ==> m.geometry != null
    }

    /**
     * `onLoad` for a parsed scene with children `children`. With no child
     * named "body" the source binds `undefined` and then throws on its first
     * use; with a mesh lacking geometry it throws inside the morph step. Both
     * are `ok == false`, with the state `LoadThrown` describes. Either way no
     * child but the body and the meshes the morph pass visits changes.
     */
    method OnLoad(children: seq<Mesh>, initialMorphTargets: seq<real>) returns (ok: bool)
      modifies this, children
      ensures LoadOutcome(children, initialMorphTargets, ok)
      ensures ok ==> fresh(meshHelper) && fresh(bodyModel.material.material)
    {
      ok := BindAndMorph(children, initialMorphTargets);
      if !ok {
        return;
      }
      FinishLoad(bodyModel, Annotations(children), initialMorphTargets);
      assert ChildrenKept(children);
      assert LoadedWith(children, initialMorphTargets, old(labels));
    }

    /** `onLoad` after its morph step: the body gets a fresh skin material,
        each annotation a label at its morphed anchor, the generator merges
        the annotations, and a fresh helper mesh takes their geometry with a
        bounds tree built once. No mesh's morph state or visibility changes. */
    method FinishLoad(baseModel: Mesh, annotationModel: seq<Mesh>, data: seq<real>)
      requires forall k :: 0 <= k < |annotationModel| ==> annotationModel[k].influences == data
      modifies this`labels, this`staticGeometryGenerator, this`meshHelper, baseModel`material
      ensures baseModel.material.Single? && fresh(baseModel.material.material)
      ensures labels == old(labels) + LabelsFor(annotationModel, data)
      ensures staticGeometryGenerator == Some(annotationModel)
      ensures fresh(meshHelper) && meshHelper.generatedFrom == Some(annotationModel) && meshHelper.boundsTree == Built(0)
    {
      var me0 := new Material();
      baseModel.material := Single(me0);
      LabelAll(annotationModel, data);
      staticGeometryGenerator := Some(annotationModel);
      var helper := new HelperMesh();
      meshHelper := helper;
      RegenerateMesh();
    }

    /** `onLoad` up to its morph step: bind the first "body" child, show it,
        and morph it and then the other-named children. */
    method BindAndMorph(children: seq<Mesh>, initialMorphTargets: seq<real>) returns (ok: bool)
      modifies this`bodyModel, children
      ensures ok <==> Loadable(children)
      ensures bodyModel == LoadBody(children)
      ensures LoadBody(children) != null ==>
                LoadBody(children).visible && LoadBody(children).material == old(LoadBody(children).material)
      ensures MorphOutcome(initialMorphTargets, LoadMeshes(children))
      ensures ChildrenKept(children)
      ensures ok ==> bodyModel != null && bodyModel.influences == initialMorphTargets && bodyModel.boundsFresh
      ensures ok ==> forall k :: 0 <= k < |Annotations(children)| ==>
                       Annotations(children)[k].influences == initialMorphTargets && Annotations(children)[k].boundsFresh
    {
      var found := FindBody(children);
      if found.None? {
        bodyModel := null;
        return false;
      }
      var baseModel := children[found.value];
      bodyModel := baseModel;
      baseModel.visible := true;
      var annotationModel := Annotations(children);
      ok := MorphAll(baseModel, annotationModel, initialMorphTargets);
      assert LoadMeshes(children) == [baseModel] + annotationModel;
      assert MorphOutcome(initialMorphTargets, LoadMeshes(children));
    }

    /** The rest of `loadModel` once the initial array is computed: the
        camera moves to z = 10, and the loader's parse hands the scene's
        children to `onLoad`. The two touch disjoint state (the camera's
        position; this helper, the children and new objects), so the model
        runs the load first; the end state is the same. */
    method PlaceAndParse(children: seq<Mesh>, initialMorphTargets: seq<real>) returns (ok: bool)
      modifies this, camera, children
      ensures camera.position == old(camera.position).(z := 10.0)
      ensures LoadOutcome(children, initialMorphTargets, ok)
    {
      ok := OnLoad(children, initialMorphTargets);
      camera.position := camera.position.(z := 10.0);
      assert ok ==> LoadedWith(children, initialMorphTargets, old(labels)) && ChildrenKept(children);
      assert !ok ==> LoadThrown(children, initialMorphTargets);
    }

    /** `loadModel`: the initial morph array is the basis of `model`; the camera
        moves to z = 10 and the parsed children are loaded as by `onLoad`. */
    method LoadModel(model: HostObject, children: seq<Mesh>) returns (ok: bool)
      requires WellKeyed(model)
      modifies this, camera, children
      ensures camera.position == old(camera.position).(z := 10.0)
      ensures LoadOutcome(children, ToArray(FromInput(model)), ok)
    {
      var initialMorphTargets := ToArray(FromInput(model));
      ok := PlaceAndParse(children, initialMorphTargets);
    }
  }
}
