/**
 The platform sub-feature of src/js/World/Blocks/Plateform.js: an
 axis-aligned box over a raised platform, assigned to one player id or to
 the centre (fused players only), with two latches. `activated` records that
 the right player stood on it; `error` records that a life was taken for it.
 */
module PlatformLatch {
  import opened BlockTypes
  import opened Geometry
  import opened Lives

  /** Height of the platform container inside its block (`container.position.y`). */
  const PlatformHeight: real := 2.0
  /** The sphere's bottom must be at least this high to stand on a platform. */
  const StandHeight: real := 2.1

  datatype Bounds = Bounds(left: real, right: real, far: real, near: real)

  datatype Plateform = Plateform(
    id: int, isLeft: bool, isDouble: bool, isCenter: bool,
    x: real, y: real, z: real, bounds: Bounds,
    activated: bool, error: bool)

  /** `constructor` + `initModel`: the platform sits on the block's centre
      line at its lane, and its box is a quarter of the block width to either
      side and a third of the block depth (0.99) to either side of its lane. */
  function Init(id: int, isLeft: bool, isDouble: bool, isCenter: bool, blockX: real, blockWidth: nat): (p: Plateform)
    ensures p.id == id && p.isLeft == isLeft && p.isDouble == isDouble && p.isCenter == isCenter
    ensures p.x == blockX && p.y == PlatformHeight && p.z == LaneZ(isCenter, isLeft)
    ensures p.bounds.left + p.bounds.right == 2.0 * p.x
    ensures p.bounds.right - p.bounds.left == blockWidth as real / 2.0
    ensures p.bounds.far + p.bounds.near == 2.0 * p.z
    ensures p.bounds.near - p.bounds.far == 1.98
    ensures !p.activated && !p.error
  {
    var z := LaneZ(isCenter, isLeft);
    Plateform(id, isLeft, isDouble, isCenter, blockX, PlatformHeight, z,
              Bounds(blockX - blockWidth as real * 0.25, blockX + blockWidth as real * 0.25,
                     z - BlockDepth * 0.33, z + BlockDepth * 0.33),
              false, false)
  }

  /** The three box tests of `handlePlayerOn`: the sphere overlaps the box in
      x, its bottom is above the stand height, and it lies wholly inside in z. */
  predicate InsideX(p: Plateform, pl: Player)
  {
    pl.pos.x + SphereRay >= p.bounds.left && pl.pos.x - SphereRay <= p.bounds.right
  }

  predicate InsideY(pl: Player)
  {
    pl.pos.y - SphereRay >= StandHeight
  }

  predicate InsideZ(p: Plateform, pl: Player)
  {
    pl.pos.z - SphereRay >= p.bounds.far && pl.pos.z + SphereRay <= p.bounds.near
  }

  predicate OnBox(p: Plateform, pl: Player)
  {
    InsideX(p, pl) && InsideY(pl) && InsideZ(p, pl)
  }

  /** The player's sphere is wholly past the platform's right edge. */
  predicate PastRight(p: Plateform, pl: Player)
  {
    pl.pos.x - SphereRay >= p.bounds.right
  }

  /** The player this platform is meant for: its own id, or anyone when centred. */
  predicate Concerns(p: Plateform, pl: Player)
  {
    p.id == pl.id || p.isCenter
  }

  /** Only the two latches may change; they only go from false to true. */
  ghost predicate Evolves(p: Plateform, q: Plateform)
  {
    && q == p.(activated := q.activated, error := q.error)
    && (p.activated ==> q.activated)
    && (p.error ==> q.error)
  }

  /** A platform paired with the lives state it threads through. */
  datatype Step = Step(plat: Plateform, outcome: Outcome)

  /** The life accounting of one step: a life is removed exactly when the
      `error` latch goes from false to true, otherwise the lives state is untouched. */
  ghost predicate Charged(p: Plateform, o: Outcome, r: Step)
  {
    r.outcome == (if !p.error && r.plat.error then RemoveLife(o) else o)
  }

  /** `handleError`: takes a life unless the error latch is already set. */
  function HandleError(p: Plateform, o: Outcome): (r: Step)
    ensures p.error ==> r == Step(p, o)
    ensures r.plat.error && r.plat.activated == p.activated
    ensures Evolves(p, r.plat) && Charged(p, o, r)
  {
    if p.error then Step(p, o)
    else Step(p.(error := true), RemoveLife(o))
  }

  /** `handlePlayerOn`: a player standing in the box activates the platform
      when it is the right one, and triggers an error otherwise. */
  function HandlePlayerOn(p: Plateform, pl: Player, o: Outcome): (r: Step)
    ensures !OnBox(p, pl) ==> r == Step(p, o)
    ensures OnBox(p, pl) && p.isCenter && o.store.isFusion ==> r == Step(p.(activated := true), o)
    ensures OnBox(p, pl) && p.isCenter && !o.store.isFusion ==> r == HandleError(p, o)
    ensures OnBox(p, pl) && !p.isCenter && pl.id == p.id ==> r == Step(p.(activated := true), o)
    ensures OnBox(p, pl) && !p.isCenter && pl.id != p.id ==> r == HandleError(p, o)
    ensures Evolves(p, r.plat) && Charged(p, o, r)
  {
    if !InsideX(p, pl) || !InsideZ(p, pl) || !InsideY(pl) then Step(p, o)
    else if p.isCenter then
      (if o.store.isFusion then Step(p.(activated := true), o) else HandleError(p, o))
    else if pl.id != p.id then HandleError(p, o)
    else Step(p.(activated := true), o)
  }

  /** `handlePlayerAfter`: the concerned player got past the platform without
      activating it. */
  function HandlePlayerAfter(p: Plateform, pl: Player, o: Outcome): (r: Step)
    ensures !p.activated && Concerns(p, pl) && PastRight(p, pl) ==> r == HandleError(p, o)
    ensures !(!p.activated && Concerns(p, pl) && PastRight(p, pl)) ==> r == Step(p, o)
    ensures Evolves(p, r.plat) && Charged(p, o, r)
  {
    if !p.activated && Concerns(p, pl) && PastRight(p, pl) then HandleError(p, o)
    else Step(p, o)
  }

  /** The `forEach` of `render`: each player in turn is checked on, then after. */
  function Visit(p: Plateform, players: seq<Player>, o: Outcome): (r: Step)
    ensures Evolves(p, r.plat) && Charged(p, o, r)
    decreases |players|
  {
    if players == [] then Step(p, o)
    else
      var on := HandlePlayerOn(p, players[0], o);
      var after := HandlePlayerAfter(on.plat, players[0], on.outcome);
      Visit(after.plat, players[1..], after.outcome)
  }

  /** `render`: nothing at all once the error latch is set. */
  function Render(p: Plateform, players: seq<Player>, o: Outcome): (r: Step)
    ensures p.error ==> r == Step(p, o)
    ensures Evolves(p, r.plat) && Charged(p, o, r)
  {
    if p.error then Step(p, o) else Visit(p, players, o)
  }

  /** Renders the platform once per frame, with the players' positions of each frame. */
  function RenderFrames(p: Plateform, frames: seq<seq<Player>>, o: Outcome): Step
    decreases |frames|
  {
    if frames == [] then Step(p, o)
    else
      var r := Render(p, frames[0], o);
      RenderFrames(r.plat, frames[1..], r.outcome)
  }

  /** However many frames it is rendered for, a platform takes at most one
      life: the lives state afterwards is either untouched or one
      `removeLife` away, and it is the latter exactly when the error latch
      was newly set. The latches only ever go from false to true. */
  lemma {:induction false} AtMostOneLifePerPlatform(p: Plateform, frames: seq<seq<Player>>, o: Outcome)
    ensures Evolves(p, RenderFrames(p, frames, o).plat)
    ensures Charged(p, o, RenderFrames(p, frames, o))
    ensures |RenderFrames(p, frames, o).outcome.events| <= |o.events| + 1
    decreases |frames|
  {
    if frames != [] {
      var r := Render(p, frames[0], o);
      AtMostOneLifePerPlatform(r.plat, frames[1..], r.outcome);
      if r.plat.error {
        NoChargeOnceLatched(r.plat, frames[1..], r.outcome);
      }
    }
  }

  /** Once the error latch is set, rendering changes nothing. */
  lemma {:induction false} NoChargeOnceLatched(p: Plateform, frames: seq<seq<Player>>, o: Outcome)
    requires p.error
    ensures RenderFrames(p, frames, o) == Step(p, o)
    decreases |frames|
  {
    if frames != [] {
      NoChargeOnceLatched(p, frames[1..], o);
    }
  }
}
