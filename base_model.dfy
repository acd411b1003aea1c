/**
 * `BaseModel` (`src/models/base-model.ts`): a named wrapper around one mesh of
 * the avatar asset. Its methods assign one mesh property each, in place.
 */
module BaseModels {
  import opened Wrappers
  import opened SceneGraph

  class BaseModel {
    const mesh: Mesh
    var title: string
    /** Never assigned: the position computation is commented out in the source. */
    var position: Option<Vec3>

    constructor (mesh: Mesh)
      ensures this.mesh == mesh && title == mesh.name && position == None
    {
      this.mesh := mesh;
      title := mesh.name;
      position := None;
    }

    /** Replaces the morph influences wholesale, then recomputes the bounds.
        The bounds call dereferences the geometry: without one it throws, which
        is `ok == false`, after the influences were already replaced. */
    method ApplyMorph(data: seq<real>) returns (ok: bool)
      modifies mesh
      ensures ok <==> mesh.geometry != null
      ensures mesh.influences == data
      ensures mesh.boundsFresh == (ok || old(mesh.boundsFresh))
      ensures mesh.visible == old(mesh.visible) && mesh.material == old(mesh.material)
      ensures title == old(title) && position == old(position)
    {
      mesh.influences := data;
      if mesh.geometry == null {
        return false;
      }
      mesh.ComputeBounds();
      ok := true;
    }

    method SetVisible(visible: bool)
      modifies mesh
      ensures mesh.visible == visible
      ensures mesh.influences == old(mesh.influences) && mesh.material == old(mesh.material)
      ensures mesh.boundsFresh == old(mesh.boundsFresh)
    {
      mesh.visible := visible;
    }

    method ApplySkinTexture(mat: MaterialSlot)
      modifies mesh
      ensures mesh.material == mat
      ensures mesh.influences == old(mesh.influences) && mesh.visible == old(mesh.visible)
      ensures mesh.boundsFresh == old(mesh.boundsFresh)
    {
      mesh.material := mat;
    }
  }
}
