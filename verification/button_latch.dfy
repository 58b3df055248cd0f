/**
 The button sub-feature of src/js/World/Blocks/Button.js: pressed by the
 fused lead player, it asks the danger front to slow down, once. The slowdown
 itself is not in the shown danger code, so it is modelled as a counter of
 requests; the press animation and its sound are left out.
 */
module ButtonLatch {
  import BlockTypes
  import opened Geometry
  import opened Session

  /** Height of the button container inside its block. */
  const ButtonHeight: real := 1.0

  datatype Bounds = Bounds(left: real, right: real, far: real, near: real)

  datatype Button = Button(isLeft: bool, isCenter: bool, x: real, z: real, bounds: Bounds, activated: bool)

  /** `initModel`: a box of a fifth of the block width to either side of the
      block centre, and a third of the block depth to either side of its lane. */
  function Init(isLeft: bool, isCenter: bool, blockX: real, blockWidth: nat): (b: Button)
    ensures b.isLeft == isLeft && b.isCenter == isCenter && !b.activated
    ensures b.x == blockX && b.z == LaneZ(isCenter, isLeft)
    ensures b.bounds.left + b.bounds.right == 2.0 * blockX
    ensures b.bounds.right - b.bounds.left == 0.4 * blockWidth as real
    ensures b.bounds.far + b.bounds.near == 2.0 * b.z
    ensures b.bounds.near - b.bounds.far == 1.98
  {
    var z := LaneZ(isCenter, isLeft);
    Button(isLeft, isCenter, blockX, z,
           Bounds(blockX - blockWidth as real * 0.2, blockX + blockWidth as real * 0.2,
                  z - BlockTypes.BlockDepth * 0.33, z + BlockTypes.BlockDepth * 0.33),
           false)
  }

  /** The sphere overlaps the box in x, lies wholly inside it in z, and its
      bottom is between the floor top and half a unit above it. */
  predicate Pressed(b: Button, pl: Player)
  {
    && pl.pos.x + SphereRay >= b.bounds.left && pl.pos.x - SphereRay <= b.bounds.right
    && pl.pos.y - SphereRay >= BlockTypes.BlockHeight * 0.5 && pl.pos.y - SphereRay <= BlockTypes.BlockHeight * 0.5 + 0.5
    && pl.pos.z - SphereRay >= b.bounds.far && pl.pos.z + SphereRay <= b.bounds.near
  }

  /** A button with the number of danger slowdowns requested so far. */
  datatype Press = Press(button: Button, slowDowns: nat)

  /** `handlePlayerOn` (with `activateButton`): inside the box the button
      latches and requests one slowdown; outside nothing changes. */
  function HandlePlayerOn(b: Button, pl: Player, slowDowns: nat): (r: Press)
    ensures !Pressed(b, pl) ==> r == Press(b, slowDowns)
    ensures Pressed(b, pl) ==> r == Press(b.(activated := true), slowDowns + 1)
  {
    if !Pressed(b, pl) then Press(b, slowDowns)
    else Press(b.(activated := true), slowDowns + 1)
  }

  /** `render`: only while fused and not yet activated, and only the first
      player is checked. */
  function Render(b: Button, store: Store, players: seq<Player>, slowDowns: nat): (r: Press)
    requires |players| >= 1
    ensures b.activated || !store.isFusion ==> r == Press(b, slowDowns)
    ensures !b.activated && store.isFusion ==> r == HandlePlayerOn(b, players[0], slowDowns)
    ensures r.button == b.(activated := r.button.activated) && (b.activated ==> r.button.activated)
    ensures r.slowDowns == slowDowns + (if !b.activated && r.button.activated then 1 else 0)
  {
    if b.activated || !store.isFusion then Press(b, slowDowns)
    else HandlePlayerOn(b, players[0], slowDowns)
  }

  /** One frame: the session flags and the players' positions at that frame. */
  datatype Frame = Frame(store: Store, players: seq<Player>)

  ghost predicate WellFormedFrames(frames: seq<Frame>)
  {
    forall i :: 0 <= i < |frames| ==> |frames[i].players| >= 1
  }

  function RenderFrames(b: Button, frames: seq<Frame>, slowDowns: nat): Press
    requires WellFormedFrames(frames)
    decreases |frames|
  {
    if frames == [] then Press(b, slowDowns)
    else
      var r := Render(b, frames[0].store, frames[0].players, slowDowns);
      RenderFrames(r.button, frames[1..], r.slowDowns)
  }

  /** However many frames a button is rendered for, it requests the danger
      slowdown at most once, and exactly when it becomes activated; only its
      latch changes, and it never unlatches. */
  lemma {:induction false} AtMostOneSlowDown(b: Button, frames: seq<Frame>, slowDowns: nat)
    requires WellFormedFrames(frames)
    ensures RenderFrames(b, frames, slowDowns).button == b.(activated := RenderFrames(b, frames, slowDowns).button.activated)
    ensures b.activated ==> RenderFrames(b, frames, slowDowns).button.activated
    ensures RenderFrames(b, frames, slowDowns).slowDowns
            == slowDowns + (if !b.activated && RenderFrames(b, frames, slowDowns).button.activated then 1 else 0)
    decreases |frames|
  {
    if frames != [] {
      var r := Render(b, frames[0].store, frames[0].players, slowDowns);
      AtMostOneSlowDown(r.button, frames[1..], r.slowDowns);
    }
  }
}
