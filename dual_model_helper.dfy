/**
 * `DualModelHelper` (`src/dual-model-helper.ts`): two side-by-side views of
 * the avatar whose cameras follow each other, a body height that re-centres
 * both orbit targets, and the teardown of a scene.
 *
 * Camera following is guarded by two debounce timers. A change in view 1
 * copies camera 1 into camera 2 and (re)arms timer 1; while timer 1 is
 * pending, changes reported by view 2 (including the echo of the copy) are
 * ignored, and symmetrically. A timer's expiry is an explicit event here.
 */
module DualModelHelpers {
  import opened Wrappers
  import opened SceneGraph
  import opened Config

  /** Which debounce timers are pending (`control1TimerId`, `control2TimerId`
      set). Browser timer ids are positive, so "set" is "truthy". */
  datatype SyncState = SyncState(timer1Pending: bool, timer2Pending: bool)

  datatype SyncEvent = Control1Change | Control2Change | Timer1Expired | Timer2Expired

  /** The guard's invariant: at most one view leads at a time. */
  predicate Exclusive(s: SyncState)
  {
    !(s.timer1Pending && s.timer2Pending)
  }

  /** Whether a change event copies a pose: both cameras exist and the other
      view's timer is not pending. */
  predicate Follows(s: SyncState, camerasBound: bool, e: SyncEvent)
  {
    match e
    case Control1Change => camerasBound && !s.timer2Pending
    case Control2Change => camerasBound && !s.timer1Pending
    case _ => false
  }

  /** The effect of one event on the timers. */
  function Step(s: SyncState, camerasBound: bool, e: SyncEvent): (r: SyncState)
    ensures Exclusive(s) ==> Exclusive(r)
    ensures e == Timer1Expired ==> !r.timer1Pending && r.timer2Pending == s.timer2Pending
    ensures e == Timer2Expired ==> !r.timer2Pending && r.timer1Pending == s.timer1Pending
  {
    match e
    case Control1Change => if Follows(s, camerasBound, e) then s.(timer1Pending := true) else s
    case Control2Change => if Follows(s, camerasBound, e) then s.(timer2Pending := true) else s
    case Timer1Expired => s.(timer1Pending := false)
    case Timer2Expired => s.(timer2Pending := false)
  }

  /** The timers after a sequence of events. */
  function Run(s: SyncState, camerasBound: bool, events: seq<SyncEvent>): SyncState
    decreases |events|
  {
    if events == [] then s else Run(Step(s, camerasBound, events[0]), camerasBound, events[1..])
  }

  /** Running two event sequences one after the other is running their concatenation. */
  lemma {:induction false} RunConcat(s: SyncState, camerasBound: bool, xs: seq<SyncEvent>, ys: seq<SyncEvent>)
    ensures Run(s, camerasBound, xs + ys) == Run(Run(s, camerasBound, xs), camerasBound, ys)
    decreases |xs|
  {
    if xs == [] {
      assert xs + ys == ys;
    } else {
      assert (xs + ys)[1..] == xs[1..] + ys;
      RunConcat(Step(s, camerasBound, xs[0]), camerasBound, xs[1..], ys);
    }
  }

  /** No sequence of events ever leaves both timers pending. */
  lemma {:induction false} RunKeepsExclusive(s: SyncState, camerasBound: bool, events: seq<SyncEvent>)
    requires Exclusive(s)
    ensures Exclusive(Run(s, camerasBound, events))
    decreases |events|
  {
    if events != [] {
      RunKeepsExclusive(Step(s, camerasBound, events[0]), camerasBound, events[1..]);
    }
  }

  /** Once view 1 leads, it keeps the lead until its own timer expires: no
      change in view 2 can take over. */
  lemma {:induction false} Leader1Holds(s: SyncState, camerasBound: bool, events: seq<SyncEvent>)
    requires s.timer1Pending && !s.timer2Pending
    requires forall k :: 0 <= k < |events| ==> events[k] != Timer1Expired
    ensures Run(s, camerasBound, events).timer1Pending
    ensures !Run(s, camerasBound, events).timer2Pending
    decreases |events|
  {
    if events != [] {
      Leader1Holds(Step(s, camerasBound, events[0]), camerasBound, events[1..]);
    }
  }

  /** The mirror image: view 2 keeps the lead until timer 2 expires. */
  lemma {:induction false} Leader2Holds(s: SyncState, camerasBound: bool, events: seq<SyncEvent>)
    requires s.timer2Pending && !s.timer1Pending
    requires forall k :: 0 <= k < |events| ==> events[k] != Timer2Expired
    ensures Run(s, camerasBound, events).timer2Pending
    ensures !Run(s, camerasBound, events).timer1Pending
    decreases |events|
  {
    if events != [] {
      Leader2Holds(Step(s, camerasBound, events[0]), camerasBound, events[1..]);
    }
  }

  /** The change events the height setter's two `update()` calls emit, in order. */
  function UpdateEvents(changed1: bool, changed2: bool): (r: seq<SyncEvent>)
    ensures Control1Change in r <==> changed1
    ensures Control2Change in r <==> changed2
    ensures changed1 && changed2 ==> r == [Control1Change, Control2Change]
  {
    (if changed1 then [Control1Change] else []) + (if changed2 then [Control2Change] else [])
  }

  /** The orbit target for a body height: centred on the body's mid-height. */
  function HeightTarget(height: real): Vec3
  {
    Vec3(0.0, height / 2.0, 0.0)
  }

  /** The camera pose `resetView` animates towards (`moveCamera`'s arguments). */
  datatype CameraMove = CameraMove(position: Vec3, target: Vec3)

  /** The objects `dispose()` is called on when a mesh is torn down: its
      geometry if any, then its material or each of its materials. */
  function DisposalsOf(m: Mesh): seq<object>
    reads m
  {
    var materials: seq<object> := MaterialsOf(m.material);
    (if m.geometry != null then [m.geometry as object] else []) + materials
  }

  /** The disposals of each child, in child order. */
  function DisposalLists(children: seq<Mesh>): (r: seq<seq<object>>)
    reads set m | m in children
    ensures |r| == |children|
    ensures forall k :: 0 <= k < |children| ==> r[k] == DisposalsOf(children[k])
  {
    seq(|children|, k requires 0 <= k < |children| reads set m | m in children => DisposalsOf(children[k]))
  }

  /** Lists concatenated from the last one to the first. */
  function ConcatReversed(lists: seq<seq<object>>): seq<object>
  {
    if lists == [] then [] else ConcatReversed(lists[1..]) + lists[0]
  }

  /** `setUpScene`: a new scene with no children. */
  method SetUpScene() returns (scene: Scene)
    ensures fresh(scene) && scene.Valid() && scene.children == []
  {
    scene := new Scene([]);
  }

  /** `setUpCamera`: a new perspective camera at the origin, unrotated. */
  method SetUpCamera() returns (camera: Camera)
    ensures fresh(camera) && camera.position == Vec3(0.0, 0.0, 0.0)
    ensures camera.quaternion == Quaternion(0.0, 0.0, 0.0, 1.0)
  {
    camera := new Camera(Vec3(0.0, 0.0, 0.0), Quaternion(0.0, 0.0, 0.0, 1.0));
  }

  /** `setUpOrbitControl`: new controls for `camera`; the camera moves to
      `INITIAL_DUAL_CAMERA_POSITION` and the orbit target is `INITIAL_CAMERA_TARGET`. */
  method SetUpOrbitControl(camera: Camera) returns (controls: OrbitControls)
    modifies camera
    ensures fresh(controls) && controls.target == InitialCameraTarget
    ensures camera.position == InitialDualCameraPosition && camera.quaternion == old(camera.quaternion)
  {
    controls := new OrbitControls(Vec3(0.0, 0.0, 0.0));
    camera.position := InitialDualCameraPosition;
    controls.target := InitialCameraTarget;
  }

  /** One view of `init`: `setUpScene`, `setUpCamera`, then `setUpOrbitControl`
      on that camera. */
  method SetUpView() returns (scene: Scene, camera: Camera, controls: OrbitControls)
    ensures fresh(scene) && fresh(camera) && fresh(controls)
    ensures scene.Valid() && scene.children == []
    ensures camera.position == InitialDualCameraPosition && controls.target == InitialCameraTarget
  {
    scene := SetUpScene();
    camera := SetUpCamera();
    controls := SetUpOrbitControl(camera);
  }

  class DualModelHelper {
    var bodyHeight: real
    var camera1: Camera?
    var camera2: Camera?
    var controls1: OrbitControls?
    var controls2: OrbitControls?
    var scene1: Scene?
    var scene2: Scene?
    var timer1Pending: bool
    var timer2Pending: bool
    /** Every object `dispose()` was called on, in call order. */
    ghost var disposeLog: seq<object>

    ghost predicate Valid()
      reads this
    {
      && Exclusive(SyncView())
      && (camera1 != null && camera2 != null ==> camera1 != camera2)
    }

    function SyncView(): SyncState
      reads this
    {
      SyncState(timer1Pending, timer2Pending)
    }

    function CamerasBound(): bool
      reads this
    {
      camera1 != null && camera2 != null
    }

    /** Field initialisers: `_bodyHeight` starts at `INITIAL_CAMERA_TARGET.y`; nothing is bound yet. */
    constructor ()
      ensures Valid() && bodyHeight == InitialCameraTarget.y
      ensures camera1 == null && camera2 == null && controls1 == null && controls2 == null
      ensures scene1 == null && scene2 == null
      ensures !timer1Pending && !timer2Pending && disposeLog == []
    {
      bodyHeight := InitialCameraTarget.y;
      camera1, camera2 := null, null;
      controls1, controls2 := null, null;
      scene1, scene2 := null, null;
      timer1Pending, timer2Pending := false, false;
      disposeLog := [];
    }

    /** `init`: two empty scenes, and two cameras at `INITIAL_DUAL_CAMERA_POSITION`
        with orbit targets at `INITIAL_CAMERA_TARGET` (`setUpOrbitControl`). */
    method Init()
      requires Valid()
      modifies this`scene1, this`scene2, this`camera1, this`camera2, this`controls1, this`controls2
      ensures Valid()
      ensures fresh(camera1) && fresh(camera2) && fresh(controls1) && fresh(controls2)
      ensures fresh(scene1) && fresh(scene2) && scene1.children == [] && scene2.children == []
      ensures camera1.position == InitialDualCameraPosition && camera2.position == InitialDualCameraPosition
      ensures controls1.target == InitialCameraTarget && controls2.target == InitialCameraTarget
    {
      var s1, c1, o1 := SetUpView();
      var s2, c2, o2 := SetUpView();
      scene1, camera1, controls1 := s1, c1, o1;
      scene2, camera2, controls2 := s2, c2, o2;
    }

    /** The `bodyHeight` setter: stores the height, re-centres every bound orbit
        target and calls `update()` on each controls object. Whether an `update()`
        re-orients its camera, and so emits "change", is the library's decision:
        `moved1` and `moved2`. A change emitted by controls 1 runs
        `onControl1Change` and one by controls 2 runs `onControl2Change`. */
    method SetBodyHeight(value: real, moved1: bool, moved2: bool)
      requires Valid()
      modifies this`bodyHeight, this`timer1Pending, this`timer2Pending, controls1, controls2, camera1, camera2
      ensures Valid()
      ensures bodyHeight == value
      ensures controls1 != null ==> controls1.target == HeightTarget(value)
      ensures controls2 != null ==> controls2.target == HeightTarget(value)
      ensures SyncView() == Run(old(SyncView()), CamerasBound(),
                                UpdateEvents(controls1 != null && moved1, controls2 != null && moved2))
      ensures controls1 != null && moved1 && Follows(old(SyncView()), CamerasBound(), Control1Change) ==>
                camera2.position == old(camera1.position) && camera2.quaternion == old(camera1.quaternion)
                && camera1.position == old(camera1.position) && camera1.quaternion == old(camera1.quaternion)
      ensures !(controls1 != null && moved1 && Follows(old(SyncView()), CamerasBound(), Control1Change))
              && controls2 != null && moved2 && Follows(old(SyncView()), CamerasBound(), Control2Change) ==>
                camera1.position == old(camera2.position) && camera1.quaternion == old(camera2.quaternion)
                && camera2.position == old(camera2.position) && camera2.quaternion == old(camera2.quaternion)
      ensures !(controls1 != null && moved1 && Follows(old(SyncView()), CamerasBound(), Control1Change))
              && !(controls2 != null && moved2 && Follows(old(SyncView()), CamerasBound(), Control2Change))
              && CamerasBound() ==>
                camera1.position == old(camera1.position) && camera1.quaternion == old(camera1.quaternion)
                && camera2.position == old(camera2.position) && camera2.quaternion == old(camera2.quaternion)
    {
      ghost var events1 := UpdateEvents(controls1 != null && moved1, false);
      ghost var events2 := UpdateEvents(false, controls2 != null && moved2);
      ghost var start := SyncView();
      bodyHeight := value;
      if controls1 != null {
        controls1.target := Vec3(0.0, value / 2.0, 0.0);
        if moved1 {
          OnControl1Change();
        }
      }
      ghost var middle := SyncView();
      assert middle == Run(start, CamerasBound(), events1);
      if controls2 != null {
        controls2.target := Vec3(0.0, value / 2.0, 0.0);
        if moved2 {
          OnControl2Change();
        }
      }
      assert SyncView() == Run(middle, CamerasBound(), events2);
      RunConcat(start, CamerasBound(), events1, events2);
      assert events1 + events2 == UpdateEvents(controls1 != null && moved1, controls2 != null && moved2);
    }

    /** `onControl1Change`: when it follows, camera 2 takes camera 1's pose and
        timer 1 is (re)armed; otherwise nothing changes. */
    method OnControl1Change()
      requires Valid()
      modifies this`timer1Pending, camera2
      ensures Valid()
      ensures SyncView() == Step(old(SyncView()), CamerasBound(), Control1Change)
      ensures Follows(old(SyncView()), CamerasBound(), Control1Change) ==>
                camera2.position == camera1.position && camera2.quaternion == camera1.quaternion
      ensures camera1 != null ==>
                camera1.position == old(camera1.position) && camera1.quaternion == old(camera1.quaternion)
      ensures !Follows(old(SyncView()), CamerasBound(), Control1Change) && camera2 != null ==>
                camera2.position == old(camera2.position) && camera2.quaternion == old(camera2.quaternion)
    {
      if camera1 == null || camera2 == null || timer2Pending {
        return;
      }
      camera2.position := camera1.position;
      camera2.quaternion := camera1.quaternion;
      timer1Pending := true;
    }

    /** `onControl2Change`: the mirror image of `OnControl1Change`. */
    method OnControl2Change()
      requires Valid()
      modifies this`timer2Pending, camera1
      ensures Valid()
      ensures SyncView() == Step(old(SyncView()), CamerasBound(), Control2Change)
      ensures Follows(old(SyncView()), CamerasBound(), Control2Change) ==>
                camera1.position == camera2.position && camera1.quaternion == camera2.quaternion
      ensures camera2 != null ==>
                camera2.position == old(camera2.position) && camera2.quaternion == old(camera2.quaternion)
      ensures !Follows(old(SyncView()), CamerasBound(), Control2Change) && camera1 != null ==>
                camera1.position == old(camera1.position) && camera1.quaternion == old(camera1.quaternion)
    {
      if camera1 == null || camera2 == null || timer1Pending {
        return;
      }
      camera1.position := camera2.position;
      camera1.quaternion := camera2.quaternion;
      timer2Pending := true;
    }

    /** The callback armed by `onControl1Change` runs: `control1TimerId = undefined`. */
    method OnTimer1Expired()
      requires Valid()
      modifies this`timer1Pending
      ensures Valid()
      ensures SyncView() == Step(old(SyncView()), CamerasBound(), Timer1Expired)
    {
      timer1Pending := false;
    }

    /** The callback armed by `onControl2Change` runs: `control2TimerId = undefined`. */
    method OnTimer2Expired()
      requires Valid()
      modifies this`timer2Pending
      ensures Valid()
      ensures SyncView() == Step(old(SyncView()), CamerasBound(), Timer2Expired)
    {
      timer2Pending := false;
    }

    /** `resetView`: the pose requested from `moveCamera`. Without camera 1 or
        its controls the source dereferences `undefined`; that is `None` here. */
    function ResetViewRequest(): (r: Option<CameraMove>)
      reads this
      ensures r.None? <==> camera1 == null || controls1 == null
      ensures r.Some? ==> r.value.position == InitialDualCameraPosition
      ensures r.Some? ==> r.value.target == HeightTarget(bodyHeight)
    {
      if camera1 == null || controls1 == null then None
      else Some(CameraMove(InitialDualCameraPosition,
                           Vec3(InitialCameraTarget.x, bodyHeight / 2.0, InitialCameraTarget.z)))
    }

    /** The disposal part of one `unLoadScene` iteration. */
    method DisposeMesh(obj: Mesh)
      modifies this`disposeLog
      ensures disposeLog == old(disposeLog) + DisposalsOf(obj)
    {
      if obj.geometry != null {
        disposeLog := disposeLog + [obj.geometry];
      }
      ghost var before := disposeLog;
      match obj.material {
        case NoMaterial =>
        case Single(mat) =>
          disposeLog := disposeLog + [mat];
        case Multi(mats) =>
          for j := 0 to |mats|
            invariant disposeLog == before + mats[..j]
          {
            disposeLog := disposeLog + [mats[j]];
            assert mats[..j + 1] == mats[..j] + [mats[j]];
          }
          assert mats[..|mats|] == mats;
      }
    }

    /** One iteration of `unLoadScene`: the last child is removed and
        disposed; `disposals` is what disposing it records. */
    method TearDownLast(scene: Scene, ghost disposals: seq<object>)
      requires scene.Valid() && |scene.children| > 0
      requires disposals == DisposalsOf(scene.children[|scene.children| - 1])
      modifies scene, this`disposeLog
      ensures scene.Valid() && scene.children == old(scene.children)[..|old(scene.children)| - 1]
      ensures disposeLog == old(disposeLog) + disposals
    {
      var obj := scene.children[|scene.children| - 1];
      RemoveLastOfDistinct(scene.children);
      scene.Remove(obj);
      assert scene.Valid() by {
        forall p, q | 0 <= p < q < |scene.children| ensures scene.children[p] != scene.children[q] {
          assert scene.children[p] == old(scene.children)[p] && scene.children[q] == old(scene.children)[q];
        }
      }
      DisposeMesh(obj);
    }

    /** `unLoadScene`: with a scene, removes its children from the last to the
        first and disposes each one's geometry and material(s). */
    method UnLoadScene(scene: Scene?)
      requires scene != null ==> scene.Valid()
      modifies scene, this`disposeLog
      ensures scene == null ==> disposeLog == old(disposeLog)
      ensures scene != null ==> scene.children == []
      ensures scene != null ==> disposeLog == old(disposeLog) + ConcatReversed(old(DisposalLists(scene.children)))
    {
      if scene == null {
        return;
      }
      ghost var initial := scene.children;
      ghost var lists := DisposalLists(initial);
      ghost var log0 := disposeLog;
      var i := |scene.children| - 1;
      while i >= 0
        invariant -1 <= i < |initial| && scene.Valid()
        invariant scene.children == initial[..i + 1]
        invariant disposeLog == log0 + ConcatReversed(lists[i + 1..])
        decreases i
      {
        assert initial[..i + 1][i] == initial[i];
        TearDownLast(scene, lists[i]);
        ConcatReversedStep(lists, i);
        AppendAssociative(log0, ConcatReversed(lists[i + 1..]), lists[i]);
        i := i - 1;
      }
    }
  }

  lemma AppendAssociative<T>(a: seq<T>, b: seq<T>, c: seq<T>)
    ensures (a + b) + c == a + (b + c)
  {
  }

  /** Tearing down child i before children i+1.. in reverse order. */
  lemma ConcatReversedStep(lists: seq<seq<object>>, i: int)
    requires 0 <= i < |lists|
    ensures ConcatReversed(lists[i..]) == ConcatReversed(lists[i + 1..]) + lists[i]
  {
    assert lists[i..][1..] == lists[i + 1..];
  }

  /** `resetView` returns to the target the height setter last centred on. */
  lemma ResetTargetsHeight(h: DualModelHelper)
    requires h.camera1 != null && h.controls1 != null
    requires h.controls1.target == HeightTarget(h.bodyHeight)
    ensures h.ResetViewRequest() == Some(CameraMove(InitialDualCameraPosition, h.controls1.target))
  {
  }
}
