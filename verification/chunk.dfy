/**
 A chunk of level geometry, as built by src/js/World/Blocks/Block.js: a
 floor (for every type but `empty`), a type-specific sub-feature, and the
 colliders it registered. The mesh instancing, materials and sounds are left
 out; a chunk's disposable geometries are counted.
 */
module Chunk {
  import opened Wrappers
  import opened BlockTypes
  import opened Physics
  import PlatformLatch
  import ButtonLatch

  /** The `Math.random()` draws a chunk's constructor makes, in call order. */
  datatype Coins = Coins(first: real, second: real, third: real, fourth: real)

  predicate ValidCoins(c: Coins)
  {
    0.0 <= c.first < 1.0 && 0.0 <= c.second < 1.0 && 0.0 <= c.third < 1.0 && 0.0 <= c.fourth < 1.0
  }

  /** `Math.random() > 0.5`. */
  predicate Heads(r: real)
  {
    r > 0.5
  }

  datatype TunnelLane = TunnelLane(id: int, isLeft: bool, isLoop: bool)

  datatype Feature =
    | Plain
    | Tunnels(lanes: seq<TunnelLane>)
    | Platforms(plats: seq<PlatformLatch.Plateform>)
    | ButtonFeature(button: ButtonLatch.Button)

  /** The floor: one instance cell per width unit, and a cuboid collider
      centred on the chunk container with the given half extents. */
  datatype Floor = Floor(cells: seq<real>, centerX: real, halfWidth: real, halfHeight: real, halfDepth: real, collider: Handle)

  datatype Block = Block(
    kind: BlockType, start: real, width: nat, containerX: real,
    floor: Option<Floor>, feature: Feature,
    colliders: seq<Handle>, geometries: nat)

  /** The chunk's trailing edge along x. */
  function End(b: Block): real
  {
    b.start + b.width as real
  }

  function Distinct(hs: seq<Handle>): bool
  {
    forall i, j :: 0 <= i < j < |hs| ==> hs[i] != hs[j]
  }

  /** What every freshly built chunk satisfies: its width is its type's,
      its container is centred on it, its floor (if its type has one) covers
      exactly [start, End] with one cell per unit, and its collider list has
      no repeats. */
  ghost predicate WellFormed(b: Block)
  {
    && b.width == Width(b.kind)
    && b.containerX == b.start + b.width as real / 2.0
    && (b.floor.Some? <==> HasFloor(b.kind))
    && (b.floor.Some? ==>
          && |b.floor.value.cells| == b.width
          && (forall i :: 0 <= i < |b.floor.value.cells| ==> b.floor.value.cells[i] == b.start + i as real)
          && b.floor.value.centerX - b.floor.value.halfWidth == b.start
          && b.floor.value.centerX + b.floor.value.halfWidth == End(b)
          && b.floor.value.collider in b.colliders)
    && Distinct(b.colliders)
  }

  /** The x of each floor cell: `position.x + i * BLOCK_WIDTH` for i below the width. */
  function FloorCells(start: real, width: nat): (cells: seq<real>)
    ensures |cells| == width
    ensures forall i :: 0 <= i < width ==> cells[i] == start + i as real
  {
    seq(width, i => start + i as real * BlockUnit)
  }

  /** `createFloor`. */
  function CreateFloor(start: real, width: nat, containerX: real, w: World): (r: (Floor, World))
    ensures r.0.collider == w.next && r.1 == CreateCollider(w).0
    ensures r.0.cells == FloorCells(start, width) && r.0.centerX == containerX
    ensures r.0.halfWidth * 2.0 == width as real && r.0.halfHeight == 1.0 && r.0.halfDepth == 1.5
  {
    var (w1, h) := CreateCollider(w);
    (Floor(FloorCells(start, width), containerX, width as real * BlockUnit * 0.5,
           BlockHeight * 0.5, BlockDepth * 0.5, h), w1)
  }

  /** `initTunnel`: two lanes, ids 1 and 2, on opposite sides. The shown
      tunnel class registers no collider and exposes one geometry. */
  function TunnelLanes(c: Coins): (lanes: seq<TunnelLane>)
    ensures |lanes| == 2 && lanes[0].id == 1 && lanes[1].id == 2
    ensures lanes[0].isLeft != lanes[1].isLeft && lanes[0].isLoop == lanes[1].isLoop
  {
    var isLeft := Heads(c.first);
    var isLoop := Heads(c.second);
    [TunnelLane(1, isLeft, isLoop), TunnelLane(2, !isLeft, isLoop)]
  }

  datatype Laid = Laid(plats: seq<PlatformLatch.Plateform>, colliders: seq<Handle>, world: World)

  /** `initPlatform` (after the floor): a coin for the side, one for a double
      platform, and, for a single one, a coin for the centre and one for its
      id. Each platform registers one collider. */
  function LayPlatforms(c: Coins, blockX: real, width: nat, w: World): (r: Laid)
    ensures |r.plats| == |r.colliders|
    ensures Heads(c.second) ==>
      && |r.plats| == 2 && r.plats[0].id == 1 && r.plats[1].id == 2
      && !r.plats[0].isCenter && !r.plats[1].isCenter
      && r.plats[0].z == -r.plats[1].z && r.plats[0].z != 0.0
    ensures !Heads(c.second) ==>
      && |r.plats| == 1 && (r.plats[0].id == 1 || r.plats[0].id == 2)
      && (r.plats[0].isCenter <==> Heads(c.third))
    ensures forall i :: 0 <= i < |r.plats| ==>
      r.plats[i] == PlatformLatch.Init(r.plats[i].id, r.plats[i].isLeft, Heads(c.second), r.plats[i].isCenter, blockX, width)
    ensures forall i :: 0 <= i < |r.colliders| ==> r.colliders[i] == w.next + i
    ensures r.world.next == w.next + |r.colliders|
    ensures r.world.registered == w.registered + Elems(r.colliders) && r.world.removed == w.removed
  {
    var isLeft := Heads(c.first);
    var isDouble := Heads(c.second);
    var isCenter := if isDouble then false else Heads(c.third);
    if isDouble then
      var p1 := PlatformLatch.Init(1, isLeft, true, false, blockX, width);
      var (w1, h1) := CreateCollider(w);
      var p2 := PlatformLatch.Init(2, !isLeft, true, false, blockX, width);
      var (w2, h2) := CreateCollider(w1);
      Laid([p1, p2], [h1, h2], w2)
    else
      var id := if Heads(c.fourth) then 1 else 2;
      var p := PlatformLatch.Init(id, isLeft, false, isCenter, blockX, width);
      var (w1, h) := CreateCollider(w);
      Laid([p], [h], w1)
  }

  datatype Built = Built(block: Block, world: World)

  /** The constructor with `init`: the container is placed at the chunk's
      centre, then the type-specific initialiser runs. */
  function Build(kind: BlockType, start: real, c: Coins, w: World): (r: Built)
    ensures WellFormed(r.block)
    ensures r.block.kind == kind && r.block.start == start && End(r.block) == start + Width(kind) as real
    ensures r.world.registered == w.registered + Elems(r.block.colliders) && r.world.removed == w.removed
    ensures forall h :: h in r.block.colliders ==> w.next <= h < r.world.next
    ensures Valid(w) ==> Valid(r.world)
    ensures kind == Empty ==> r.block.colliders == [] && r.block.feature == Plain && r.world == w
    ensures kind == Normal ==> |r.block.colliders| == 1 && r.block.feature == Plain
    ensures kind == Tunnel ==> |r.block.colliders| == 1 && r.block.feature == Tunnels(TunnelLanes(c))
    ensures kind == Platform ==>
      var laid := LayPlatforms(c, r.block.containerX, r.block.width, CreateCollider(w).0);
      r.block.feature == Platforms(laid.plats) && |r.block.colliders| == 1 + |laid.plats|
    ensures kind == Button ==>
      r.block.feature == ButtonFeature(ButtonLatch.Init(Heads(c.first), Heads(c.second), r.block.containerX, r.block.width))
        && |r.block.colliders| == 1
  {
    var width := Width(kind);
    var cx := start + width as real * BlockUnit * 0.5;
    match kind
    case Empty => Built(Block(kind, start, width, cx, None, Plain, [], 0), w)
    case Normal => OnFloor(kind, start, Plain, 0, w)
    case Tunnel => OnFloor(kind, start, Tunnels(TunnelLanes(c)), 2, w)
    case Platform => PlatformChunk(start, c, w)
    case Button =>
      OnFloor(kind, start, ButtonFeature(ButtonLatch.Init(Heads(c.first), Heads(c.second), cx, width)), 2, w)
  }

  /** A chunk whose only collider is its floor's: `normal`, `tunnel` and
      `button`. */
  function OnFloor(kind: BlockType, start: real, feature: Feature, geometries: nat, w: World): (r: Built)
    requires kind != Empty
    ensures WellFormed(r.block)
    ensures r.block.kind == kind && r.block.start == start && r.block.feature == feature
    ensures r.block.containerX == start + Width(kind) as real / 2.0
    ensures r.block.colliders == [w.next] && r.world == CreateCollider(w).0
    ensures r.world.registered == w.registered + Elems(r.block.colliders) && r.world.removed == w.removed
    ensures forall h :: h in r.block.colliders ==> w.next <= h < r.world.next
    ensures Physics.Valid(w) ==> Physics.Valid(r.world)
  {
    var width := Width(kind);
    var cx := start + width as real * BlockUnit * 0.5;
    var (floor, w1) := CreateFloor(start, width, cx, w);
    Built(Block(kind, start, width, cx, Some(floor), feature, [floor.collider], geometries), w1)
  }

  /** `initPlatform` after `createFloor`: the floor collider comes first,
      then one per platform. */
  function PlatformChunk(start: real, c: Coins, w: World): (r: Built)
    ensures WellFormed(r.block)
    ensures r.block.kind == Platform && r.block.start == start
    ensures var laid := LayPlatforms(c, r.block.containerX, r.block.width, CreateCollider(w).0);
      && r.block.feature == Platforms(laid.plats)
      && r.block.colliders == [w.next] + laid.colliders
      && r.world == laid.world
    ensures r.world.registered == w.registered + Elems(r.block.colliders) && r.world.removed == w.removed
    ensures forall h :: h in r.block.colliders ==> w.next <= h < r.world.next
    ensures Physics.Valid(w) ==> Physics.Valid(r.world)
  {
    var width := Width(Platform);
    var cx := start + width as real * BlockUnit * 0.5;
    var (floor, w1) := CreateFloor(start, width, cx, w);
    var laid := LayPlatforms(c, cx, width, w1);
    Built(Block(Platform, start, width, cx, Some(floor), Platforms(laid.plats),
                [floor.collider] + laid.colliders, |laid.plats|), laid.world)
  }

  /** `destroy`: disposes the geometries and calls `removeCollider` once for
      each registered collider, then forgets both lists. */
  method Destroy(b: Block, w: World) returns (r: Block, w': World)
    ensures r == b.(colliders := [], geometries := 0)
    ensures w'.registered == w.registered - Elems(b.colliders)
    ensures w'.removed == w.removed + b.colliders
    ensures w'.next == w.next
  {
    w' := RemoveColliders(w, b.colliders);
    r := b.(colliders := [], geometries := 0);
  }
}
