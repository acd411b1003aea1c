/** The constants of `src/config.ts` that the core reads. */
module Config {
  import opened SceneGraph

  const InitialCameraTarget: Vec3 := Vec3(0.0, 1.0, 0.0)
  const InitialDualCameraPosition: Vec3 := Vec3(-3.5, 1.0, 0.0)
}
