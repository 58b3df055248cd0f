/** Player positions and the lane geometry shared by platforms and buttons. */
module Geometry {
  import opened BlockTypes

  datatype Vec3 = Vec3(x: real, y: real, z: real)

  /** A player as the hazard checks see it: its id (1 or 2) and its sphere centre. */
  datatype Player = Player(id: int, pos: Vec3)

  /** `SPHERE_RAY` of src/js/World/Player.js: the radius of a player's sphere. */
  const SphereRay: real := 0.3

  /** Lateral offset of a sub-feature: the centre lane, or a quarter of the
      block depth to the left (negative z) or to the right. */
  function LaneZ(isCenter: bool, isLeft: bool): (z: real)
    ensures isCenter ==> z == 0.0
    ensures !isCenter ==> (z < 0.0 <==> isLeft) && (z == BlockDepth * 0.25 || z == -BlockDepth * 0.25)
  {
    if isCenter then 0.0 else if isLeft then -BlockDepth * 0.25 else BlockDepth * 0.25
  }
}
