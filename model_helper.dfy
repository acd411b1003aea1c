/**
 * `src/model-helper.ts`: splitting the loaded scene's children into the body
 * and the annotation meshes, and applying one morph basis to all of them.
 */
module ModelHelper {
  import opened Wrappers
  import opened SceneGraph
  import opened ModelMapper
  import opened BaseModels

  /** The name that marks the body mesh among the scene's children. */
  const BodyName: string := "body"

  /** `list.find(el => el.name === "body")`, as the index of the match. */
  function FindBody(list: seq<Mesh>): (r: Option<nat>)
    ensures r.Some? ==> r.value < |list| && list[r.value].name == BodyName
    ensures r.Some? ==> forall j :: 0 <= j < r.value ==> list[j].name != BodyName
    ensures r.None? <==> forall j :: 0 <= j < |list| ==> list[j].name != BodyName
  {
    if list == [] then None
    else if list[0].name == BodyName then Some(0)
    else match FindBody(list[1..])
      case None => None
      case Some(k) => Some(k + 1)
  }

  /** `filterAnnotationFromList`: the children not named "body", in order. */
  function Annotations(list: seq<Mesh>): (r: seq<Mesh>)
    ensures |r| <= |list|
    ensures forall i :: 0 <= i < |r| ==> r[i] in list && r[i].name != BodyName
    ensures forall i :: 0 <= i < |list| && list[i].name != BodyName ==> list[i] in r
  {
    if list == [] then []
    else if list[0].name == BodyName then Annotations(list[1..])
    else [list[0]] + Annotations(list[1..])
  }

  /** The filter works piecewise, so it keeps the scene order of what it keeps. */
  lemma {:induction false} AnnotationsAppend(a: seq<Mesh>, b: seq<Mesh>)
    ensures Annotations(a + b) == Annotations(a) + Annotations(b)
  {
    if a == [] {
      assert a + b == b;
    } else {
      assert (a + b)[1..] == a[1..] + b;
      AnnotationsAppend(a[1..], b);
    }
  }

  /** A list without a body mesh passes through the filter unchanged. */
  lemma {:induction false} AnnotationsWithoutBody(list: seq<Mesh>)
    requires FindBody(list).None?
    ensures Annotations(list) == list
  {
    if list != [] {
      assert FindBody(list[1..]).None? by {
        forall j | 0 <= j < |list[1..]| ensures list[1..][j].name != BodyName {
          assert list[1..][j] == list[j + 1];
        }
      }
      AnnotationsWithoutBody(list[1..]);
    }
  }

  /** `filterBodyModelFromList`: wraps the first child named "body"; `None`
      when there is no such child. */
  method FilterBodyModelFromList(list: seq<Mesh>) returns (body: Option<BaseModel>)
    ensures body.None? <==> FindBody(list).None?
    ensures body.Some? ==> fresh(body.value) && body.value.mesh == list[FindBody(list).value]
    ensures body.Some? ==> body.value.title == BodyName && body.value.position == None
  {
    match FindBody(list) {
      case None =>
        body := None;
      case Some(i) =>
        var b := new BaseModel(list[i]);
        body := Some(b);
    }
  }

  /** The meshes of the annotations, when the caller passed any. */
  function AnnotationMeshes(annotationModels: Option<seq<BaseModel>>): set<Mesh>
  {
    match annotationModels
    case None => {}
    case Some(models) => set a | a in models :: a.mesh
  }

  /** The meshes `UpdateMorphTargets` may change: none without a body. */
  function MorphedMeshes(bodyModel: BaseModel?, annotationModels: Option<seq<BaseModel>>): set<Mesh>
  {
    if bodyModel == null then {} else {bodyModel.mesh} + AnnotationMeshes(annotationModels)
  }

  /** The annotation meshes passed, in list order. */
  function AnnotationList(annotationModels: Option<seq<BaseModel>>): (r: seq<Mesh>)
    ensures annotationModels.None? ==> r == []
    ensures annotationModels.Some? ==> |r| == |annotationModels.value|
    ensures annotationModels.Some? ==> forall k :: 0 <= k < |r| ==> r[k] == annotationModels.value[k].mesh
  {
    match annotationModels
    case None => []
    case Some(models) => seq(|models|, k requires 0 <= k < |models| => models[k].mesh)
  }

  /** With a body, it and every annotation passed carry `values`, with bounds
      recomputed after the assignment. */
  ghost predicate AllMorphed(values: seq<real>, bodyModel: BaseModel?, annotationModels: Option<seq<BaseModel>>)
    reads MorphedMeshes(bodyModel, annotationModels)
  {
    bodyModel != null ==>
      && bodyModel.mesh.influences == values && bodyModel.mesh.boundsFresh
      && (annotationModels.Some? ==>
            forall a :: a in annotationModels.value ==> a.mesh.influences == values && a.mesh.boundsFresh)
  }

  /** The pass runs to the end: there is no body, or the body and every
      annotation passed have a geometry. */
  predicate Completes(bodyModel: BaseModel?, annotationModels: Option<seq<BaseModel>>)
  {
    bodyModel != null ==>
      && bodyModel.mesh.geometry != null
      && forall m :: m in AnnotationList(annotationModels) ==> m.geometry != null
  }

  /** The meshes one pass visits, in order: the body, then the annotations passed. */
  function PassMeshes(bodyModel: BaseModel, annotationModels: Option<seq<BaseModel>>): seq<Mesh>
  {
    [bodyModel.mesh] + AnnotationList(annotationModels)
  }

  /** The body of `updateMorphTargets` once the basis is computed: with a body,
      `values` goes to it and then to every annotation, in list order. `ok` is
      false where the source throws, at the first mesh without geometry: that
      mesh has taken `values` but not new bounds, the meshes before it keep
      `values` with new bounds, and the rest are untouched. */
  method ApplyToAll(values: seq<real>, bodyModel: BaseModel?, annotationModels: Option<seq<BaseModel>>)
    returns (ok: bool)
    modifies MorphedMeshes(bodyModel, annotationModels)
    ensures ok <==> Completes(bodyModel, annotationModels)
    ensures ok ==> AllMorphed(values, bodyModel, annotationModels)
    ensures bodyModel != null ==> MorphOutcome(values, PassMeshes(bodyModel, annotationModels))
    ensures bodyModel != null ==> LooksKept(PassMeshes(bodyModel, annotationModels))
  {
    ok := true;
    if bodyModel != null {
      var models := [bodyModel] + if annotationModels.Some? then annotationModels.value else [];
      ghost var meshes := PassMeshes(bodyModel, annotationModels);
      var n := MorphPass(models, meshes, values);
      ok := n == |models|;
      assert ok ==> meshes[..n] == meshes;
    }
  }

  /** `bodyModel.applyMorph(values)` and then the `forEach` over the
      annotations, as one pass over `models`, whose meshes are `meshes`: each
      in turn takes `values` until the first mesh without geometry, whose
      call throws after assigning them; `n` counts the models fully morphed. */
  method MorphPass(models: seq<BaseModel>, ghost meshes: seq<Mesh>, values: seq<real>) returns (n: nat)
    requires |meshes| == |models| && forall k :: 0 <= k < |models| ==> meshes[k] == models[k].mesh
    modifies meshes
    ensures n == GeometryPrefix(meshes)
    ensures MorphOutcome(values, meshes)
    ensures LooksKept(meshes)
  {
    n := 0;
    while n < |models|
      invariant n <= GeometryPrefix(meshes)
      invariant MorphStaged(values, meshes, n, n)
      invariant LooksKept(meshes)
    {
      var ok := models[n].ApplyMorph(values);
      PrefixStep(meshes, n);
      if !ok {
        return;
      }
      n := n + 1;
    }
  }

  /**
   * `updateMorphTargets(params, {bodyModel, annotationModels})`: one basis
   * computed from `params` goes to the body and then to every annotation; with
   * no body nothing is touched (the frame is empty), whatever annotations were
   * passed, and without annotations only the body changes.
   */
  method UpdateMorphTargets(params: HostObject, bodyModel: BaseModel?, annotationModels: Option<seq<BaseModel>>)
    returns (ok: bool)
    requires WellKeyed(params)
    modifies MorphedMeshes(bodyModel, annotationModels)
    ensures ok <==> Completes(bodyModel, annotationModels)
    ensures var values := ToArray(FromInput(params));
            && (ok ==> AllMorphed(values, bodyModel, annotationModels))
            && (bodyModel != null ==> MorphOutcome(values, PassMeshes(bodyModel, annotationModels)))
    ensures bodyModel != null ==> LooksKept(PassMeshes(bodyModel, annotationModels))
  {
    var values := ToArray(FromInput(params));
    ok := ApplyToAll(values, bodyModel, annotationModels);
  }
}
