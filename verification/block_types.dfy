/**
 The chunk types of the runner's level generator and the per-type tables
 (width multiplier and draw weight) of src/js/World/Blocks/Block.js.
 */
module BlockTypes {
  import opened Wrappers

  /** The five keys left in `BLOCK_TYPE`; `empty_plateform` and `enemy` are commented out. */
  datatype BlockType = Normal | Tunnel | Platform | Empty | Button

  /** `Object.keys(BLOCK_TYPE)`: the keys in declaration order. */
  const TypeList: seq<BlockType> := [Normal, Tunnel, Platform, Empty, Button]

  /** `BLOCK_WIDTH`, `BLOCK_DEPTH`, `BLOCK_HEIGHT`. */
  const BlockUnit: real := 1.0
  const BlockDepth: real := 3.0
  const BlockHeight: real := 2.0

  /** `BLOCK_DIMENSIONS[type]`: the width of a chunk in block units. */
  function Width(t: BlockType): (w: nat)
    ensures w >= 1
  {
    match t
    case Normal => 1
    case Tunnel => 12
    case Platform => 3
    case Empty => 2
    case Button => 3
  }

  /** `BLOCK_PROBABILITY[type]`: the weight of a type in the draw. */
  function Weight(t: BlockType): (p: nat)
    ensures p >= 1
  {
    match t
    case Normal => 15
    case Tunnel => 2
    case Platform => 2
    case Empty => 3
    case Button => 1
  }

  /** Only a gap chunk has no floor. */
  predicate HasFloor(t: BlockType)
  {
    t != Empty
  }

  lemma TypeListEnumeratesTypes()
    ensures forall t: BlockType :: t in TypeList
    ensures forall i, j :: 0 <= i < j < |TypeList| ==> TypeList[i] != TypeList[j]
  {
    forall t: BlockType ensures t in TypeList {
      match t
      case Normal => assert TypeList[0] == t;
      case Tunnel => assert TypeList[1] == t;
      case Platform => assert TypeList[2] == t;
      case Empty => assert TypeList[3] == t;
      case Button => assert TypeList[4] == t;
    }
  }

  /*
   The source writes its tables as object literals keyed by
   `BLOCK_TYPE.<name>`. A commented-out type makes its key `undefined`
   (modelled as `None`); every such entry lands on the same key and a later
   one overwrites an earlier one.
   */

  type TableKey = Option<BlockType>

  /** Builds an object literal: later entries overwrite earlier ones. */
  function TableOf(entries: seq<(TableKey, nat)>): map<TableKey, nat>
  {
    if entries == [] then map[]
    else TableOf(entries[..|entries| - 1])[entries[|entries| - 1].0 := entries[|entries| - 1].1]
  }

  /** `BLOCK_DIMENSIONS` as written, in source order. */
  const DimensionEntries: seq<(TableKey, nat)> :=
    [(Some(Normal), 1), (Some(Tunnel), 12), (Some(Platform), 3), (Some(Empty), 2),
     (None, 6), (Some(Button), 3), (None, 3)]

  /** `BLOCK_PROBABILITY` as written, in source order. */
  const ProbabilityEntries: seq<(TableKey, nat)> :=
    [(Some(Normal), 15), (Some(Tunnel), 2), (Some(Platform), 2), (Some(Empty), 3),
     (Some(Button), 1), (None, 1), (None, 1)]

  /** `BLOCK_DIMENSIONS` agrees with `Width` on every drawable type; the two
      commented-out types collapse onto the one `undefined` key, where the
      last entry (`enemy`'s 3) wins. */
  lemma DimensionTableAgrees()
    ensures forall t :: Some(t) in TableOf(DimensionEntries) && TableOf(DimensionEntries)[Some(t)] == Width(t)
    ensures TableOf(DimensionEntries).Keys == {Some(Normal), Some(Tunnel), Some(Platform), Some(Empty), Some(Button), None}
    ensures TableOf(DimensionEntries)[None] == 3
  {
    var d := DimensionEntries;
    assert d[..2][..1] == d[..1] && d[..3][..2] == d[..2] && d[..4][..3] == d[..3];
    assert d[..5][..4] == d[..4] && d[..6][..5] == d[..5] && d[..6] == d[..|d| - 1];
    var dm: map<TableKey, nat> := map[Some(Normal) := 1];
    assert TableOf(d[..1]) == TableOf(d[..0])[Some(Normal) := 1] == dm;
    dm := dm[Some(Tunnel) := 12];
    assert TableOf(d[..2]) == dm;
    dm := dm[Some(Platform) := 3];
    assert TableOf(d[..3]) == dm;
    dm := dm[Some(Empty) := 2];
    assert TableOf(d[..4]) == dm;
    dm := dm[None := 6];
    assert TableOf(d[..5]) == dm;
    dm := dm[Some(Button) := 3];
    assert TableOf(d[..6]) == dm;
    assert TableOf(d) == dm[None := 3];
    forall t ensures Some(t) in TableOf(d) && TableOf(d)[Some(t)] == Width(t) {
      match t
      case Normal => case Tunnel => case Platform => case Empty => case Button =>
    }
  }

  /** `BLOCK_PROBABILITY` agrees with `Weight` on every drawable type, and its
      collapsed `undefined` entry is 1. */
  lemma ProbabilityTableAgrees()
    ensures forall t :: Some(t) in TableOf(ProbabilityEntries) && TableOf(ProbabilityEntries)[Some(t)] == Weight(t)
    ensures TableOf(ProbabilityEntries)[None] == 1
  {
    var p := ProbabilityEntries;
    assert p[..2][..1] == p[..1] && p[..3][..2] == p[..2] && p[..4][..3] == p[..3];
    assert p[..5][..4] == p[..4] && p[..6][..5] == p[..5] && p[..6] == p[..|p| - 1];
    var pm: map<TableKey, nat> := map[Some(Normal) := 15];
    assert TableOf(p[..1]) == TableOf(p[..0])[Some(Normal) := 15] == pm;
    pm := pm[Some(Tunnel) := 2];
    assert TableOf(p[..2]) == pm;
    pm := pm[Some(Platform) := 2];
    assert TableOf(p[..3]) == pm;
    pm := pm[Some(Empty) := 3];
    assert TableOf(p[..4]) == pm;
    pm := pm[Some(Button) := 1];
    assert TableOf(p[..5]) == pm;
    pm := pm[None := 1];
    assert TableOf(p[..6]) == pm;
    assert TableOf(p) == pm[None := 1];
    forall t ensures Some(t) in TableOf(p) && TableOf(p)[Some(t)] == Weight(t) {
      match t
      case Normal => case Tunnel => case Platform => case Empty => case Button =>
    }
  }
}
