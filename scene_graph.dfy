/**
 * Stand-ins for the three.js objects the avatar core reads and writes:
 * vectors, meshes with their morph influences, scenes with a child list,
 * cameras and orbit-control targets. Only the state the core touches is kept.
 */
module SceneGraph {

  datatype Vec3 = Vec3(x: real, y: real, z: real)

  datatype Quaternion = Quaternion(x: real, y: real, z: real, w: real)

  /** The affine part of a world matrix: three rows and a translation column. */
  datatype Affine = Affine(row0: Vec3, row1: Vec3, row2: Vec3, translation: Vec3)

  function Dot(a: Vec3, b: Vec3): real
  {
    a.x * b.x + a.y * b.y + a.z * b.z
  }

  /** `Object3D.localToWorld` for an affine world matrix. */
  function LocalToWorld(m: Affine, v: Vec3): (w: Vec3)
    ensures m == Affine(Vec3(1.0, 0.0, 0.0), Vec3(0.0, 1.0, 0.0), Vec3(0.0, 0.0, 1.0), m.translation) ==>
              w == Vec3(v.x + m.translation.x, v.y + m.translation.y, v.z + m.translation.z)
  {
    Vec3(Dot(m.row0, v) + m.translation.x,
         Dot(m.row1, v) + m.translation.y,
         Dot(m.row2, v) + m.translation.z)
  }

  /** A geometry buffer; only its identity matters (it is disposed on teardown). */
  class Geometry {
    constructor () {}
  }

  /** A material; only its identity matters (it is assigned and disposed). */
  class Material {
    constructor () {}
  }

  /** `mesh.material`: absent, one material, or an array of materials. */
  datatype MaterialSlot = NoMaterial | Single(material: Material) | Multi(materials: seq<Material>)

  function MaterialsOf(slot: MaterialSlot): seq<Material>
  {
    match slot
    case NoMaterial => []
    case Single(m) => [m]
    case Multi(ms) => ms
  }

  /**
   * A named mesh of the loaded scene.
   * `boundsFresh` holds when the geometry's bounding box and sphere were
   * recomputed after the last assignment to `influences`.
   * `firstVertex` is vertex 0 of the geometry the static geometry generator
   * produces for the mesh, as a function of the morph influences.
   */
  class Mesh {
    const name: string
    var influences: seq<real>
    var visible: bool
    var material: MaterialSlot
    var boundsFresh: bool
    const geometry: Geometry?
    const matrixWorld: Affine
    const firstVertex: seq<real> -> Vec3

    constructor (name: string, geometry: Geometry?, material: MaterialSlot,
                 matrixWorld: Affine, firstVertex: seq<real> -> Vec3)
      ensures this.name == name && this.geometry == geometry && this.material == material
      ensures this.matrixWorld == matrixWorld && this.firstVertex == firstVertex
      ensures influences == [] && visible && !boundsFresh
    {
      this.name := name;
      this.geometry := geometry;
      this.material := material;
      this.matrixWorld := matrixWorld;
      this.firstVertex := firstVertex;
      influences := [];
      visible := true;
      boundsFresh := false;
    }

    /** `geometry.computeBoundingBox(); geometry.computeBoundingSphere()`. */
    method ComputeBounds()
      modifies this
      ensures boundsFresh
      ensures influences == old(influences) && visible == old(visible) && material == old(material)
    {
      boundsFresh := true;
    }
  }

  /** How many meshes, from the front, carry a geometry: a pass that calls
      `geometry.computeBoundingBox()` on each in turn throws at the first
      mesh without one. */
  function GeometryPrefix(meshes: seq<Mesh>): (n: nat)
    ensures n <= |meshes|
    ensures forall k :: 0 <= k < n ==> meshes[k].geometry != null
    ensures n < |meshes| ==> meshes[n].geometry == null
  {
    if meshes == [] || meshes[0].geometry == null then 0 else 1 + GeometryPrefix(meshes[1..])
  }

  /** How many meshes, from the front, a pass assigns new influences to: the
      prefix with a geometry and, when it stops short, the first mesh without
      one, whose assignment comes before the throw. */
  function AssignedPrefix(meshes: seq<Mesh>): (n: nat)
    ensures n <= |meshes|
    ensures GeometryPrefix(meshes) < |meshes| ==> n == GeometryPrefix(meshes) + 1
    ensures GeometryPrefix(meshes) == |meshes| ==> n == |meshes|
  {
    if GeometryPrefix(meshes) < |meshes| then GeometryPrefix(meshes) + 1 else |meshes|
  }

  /** The morph state after a pass of `applyMorph` over `meshes` in order,
      thrown or not: a mesh the pass assigned carries `values`, else its old
      influences; a mesh the pass reached has its bounds recomputed, else it
      keeps its old bounds. */
  twostate predicate MorphOutcome(values: seq<real>, meshes: seq<Mesh>)
    reads meshes
  {
    MorphStaged(values, meshes, AssignedPrefix(meshes), GeometryPrefix(meshes))
  }

  /** A pass part-way: the first `taken` meshes have taken `values`, the
      first `refreshed` have new bounds, and every other mesh of the list keeps
      its old state (a mesh listed twice counts as reached if any of its
      places is). */
  twostate predicate MorphStaged(values: seq<real>, meshes: seq<Mesh>, taken: nat, refreshed: nat)
    requires taken <= |meshes| && refreshed <= |meshes|
    reads meshes
  {
    && (forall m {:trigger m.influences} :: m in meshes ==>
          m.influences == (if m in meshes[..taken] then values else old(m.influences)))
    && (forall m {:trigger m.boundsFresh} :: m in meshes ==>
          m.boundsFresh == (m in meshes[..refreshed] || old(m.boundsFresh)))
  }

  /** Extending a prefix of a pass by one place adds exactly that place's mesh. */
  lemma PrefixStep(meshes: seq<Mesh>, n: nat)
    requires n < |meshes|
    ensures forall m :: m in meshes[..n + 1] <==> m in meshes[..n] || m == meshes[n]
  {
    assert meshes[..n + 1] == meshes[..n] + [meshes[n]];
  }

  /** No mesh of the list has changed its visibility or material. */
  twostate predicate LooksKept(meshes: seq<Mesh>)
    reads meshes
  {
    && (forall m {:trigger m.visible} :: m in meshes ==> m.visible == old(m.visible))
    && (forall m {:trigger m.material} :: m in meshes ==> m.material == old(m.material))
  }

  /** No object occurs twice in a child list (three.js gives an object one parent). */
  ghost predicate Distinct<T>(s: seq<T>)
  {
    forall i, j :: 0 <= i < j < |s| ==> s[i] != s[j]
  }

  /** `children.splice(children.indexOf(obj), 1)` when `obj` is present. */
  function RemoveFirst<T(==)>(s: seq<T>, x: T): (r: seq<T>)
    ensures x !in s ==> r == s
    ensures x in s ==> |r| == |s| - 1
  {
    if s == [] then []
    else if s[0] == x then s[1..]
    else [s[0]] + RemoveFirst(s[1..], x)
  }

  /** In a list without repeats, removing the last element leaves the prefix. */
  lemma {:induction false} RemoveLastOfDistinct<T>(s: seq<T>)
    requires |s| > 0 && Distinct(s)
    ensures RemoveFirst(s, s[|s| - 1]) == s[..|s| - 1]
  {
    if |s| > 1 {
      assert s[0] != s[|s| - 1];
      var t := s[1..];
      assert Distinct(t) by {
        forall i, j | 0 <= i < j < |t| ensures t[i] != t[j] {
          assert t[i] == s[i + 1] && t[j] == s[j + 1];
        }
      }
      RemoveLastOfDistinct(t);
      assert t[|t| - 1] == s[|s| - 1];
      assert [s[0]] + t[..|t| - 1] == s[..|s| - 1];
    }
  }

  class Scene {
    var children: seq<Mesh>

    ghost predicate Valid()
      reads this
    {
      Distinct(children)
    }

    constructor (children: seq<Mesh>)
      requires Distinct(children)
      ensures Valid() && this.children == children
    {
      this.children := children;
    }

    /** `Object3D.remove(obj)`: drops the child if present. */
    method Remove(obj: Mesh)
      modifies this
      ensures children == RemoveFirst(old(children), obj)
    {
      children := RemoveFirst(children, obj);
    }
  }

  class Camera {
    var position: Vec3
    var quaternion: Quaternion

    constructor (position: Vec3, quaternion: Quaternion)
      ensures this.position == position && this.quaternion == quaternion
    {
      this.position := position;
      this.quaternion := quaternion;
    }
  }

  class OrbitControls {
    var target: Vec3

    constructor (target: Vec3)
      ensures this.target == target
    {
      this.target := target;
    }
  }
}
