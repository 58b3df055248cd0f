/**
 The earlier chunk sequencer of src/js/World/BlockManager.js and
 src/js/World/Block.js: seven types with their own width table, a uniform
 draw over every type but the previous one, and a single fill of the view
 at start-up. Each chunk is one floor box placed at the chunk's start.
 */
module Legacy {
  import opened Wrappers
  import opened Shares

  datatype Kind = Normal | Tunnel | Platform | Empty | EmptyPlateform | Button | Enemy

  /** `BLOCK_TYPE_LIST`: the keys in declaration order. */
  const Kinds: seq<Kind> := [Normal, Tunnel, Platform, Empty, EmptyPlateform, Button, Enemy]

  /** `BLOCK_DIMENSIONS`, in units of `BLOCK_WIDTH` (1). */
  function Width(k: Kind): (w: nat)
    ensures w >= 1
  {
    match k
    case Normal => 1
    case Tunnel => 4
    case Platform => 3
    case Empty => 1
    case EmptyPlateform => 6
    case Button => 3
    case Enemy => 3
  }

  /** Every type but the two empty ones calls `createFloor`. */
  predicate HasFloor(k: Kind)
  {
    k != Empty && k != EmptyPlateform
  }

  /** The floor box: `BLOCK_WIDTH * width` by `BLOCK_HEIGHT` by `BLOCK_DEPTH`,
      centred on the container. */
  datatype Box = Box(centerX: real, sizeX: real, sizeY: real, sizeZ: real)

  datatype Chunk = Chunk(kind: Kind, position: real, containerX: real, floor: Option<Box>)

  /** `new Block({type, position})`: the container sits at the position
      itself, and the floor (if any) is centred on the container. */
  function Place(kind: Kind, x: real): (c: Chunk)
    ensures c.containerX == x
    ensures c.floor.Some? <==> HasFloor(kind)
    ensures c.floor.Some? ==> c.floor.value == Box(x, Width(kind) as real, 2.0, 3.0)
  {
    Chunk(kind, x, x, if HasFloor(kind) then Some(Box(x, Width(kind) as real, 2.0, 3.0)) else None)
  }

  /** The x-extent a floor box covers. */
  function Left(b: Box): real { b.centerX - b.sizeX / 2.0 }
  function Right(b: Box): real { b.centerX + b.sizeX / 2.0 }

  // ------------------------------------------------------------------ draw

  predicate NoRepeats(ks: seq<Kind>)
  {
    forall i, j :: 0 <= i < j < |ks| ==> ks[i] != ks[j]
  }

  /** What the filter keeps of one key. */
  function Keep(prev: Option<Kind>, k: Kind): (r: seq<Kind>)
    ensures forall u :: u in r <==> u == k && Some(k) != prev
  {
    if Some(k) != prev then [k] else []
  }

  /** `BLOCK_TYPE_LIST.filter(key => BLOCK_TYPE[key] !== prevType)`. */
  function Without(ks: seq<Kind>, prev: Option<Kind>): seq<Kind>
  {
    if ks == [] then [] else Keep(prev, ks[0]) + Without(ks[1..], prev)
  }

  /** The filter keeps exactly the types other than the previous one. */
  lemma {:induction false} WithoutMembers(ks: seq<Kind>, prev: Option<Kind>)
    ensures forall k :: k in Without(ks, prev) <==> k in ks && Some(k) != prev
  {
    if ks != [] {
      WithoutMembers(ks[1..], prev);
      assert forall k :: k in ks <==> k == ks[0] || k in ks[1..];
    }
  }

  /** The filter drops exactly the one occurrence of the previous type. */
  lemma {:induction false} WithoutSize(ks: seq<Kind>, prev: Option<Kind>)
    requires NoRepeats(ks)
    ensures NoRepeats(Without(ks, prev))
    ensures |Without(ks, prev)| == if prev.Some? && prev.value in ks then |ks| - 1 else |ks|
  {
    if ks != [] {
      assert ks[0] !in ks[1..] by {
        forall j | 0 <= j < |ks[1..]| ensures ks[1..][j] != ks[0] {
          assert ks[1..][j] == ks[j + 1];
        }
      }
      assert NoRepeats(ks[1..]) by {
        forall i, j | 0 <= i < j < |ks[1..]| ensures ks[1..][i] != ks[1..][j] {
          assert ks[1..][i] == ks[i + 1] && ks[1..][j] == ks[j + 1];
        }
      }
      WithoutSize(ks[1..], prev);
      WithoutMembers(ks[1..], prev);
      assert forall k :: k in ks <==> k == ks[0] || k in ks[1..];
    }
  }

  lemma KindsEnumerates()
    ensures forall k: Kind :: k in Kinds
  {
    forall k: Kind ensures k in Kinds {
      match k
      case Normal => assert Kinds[0] == k;
      case Tunnel => assert Kinds[1] == k;
      case Platform => assert Kinds[2] == k;
      case Empty => assert Kinds[3] == k;
      case EmptyPlateform => assert Kinds[4] == k;
      case Button => assert Kinds[5] == k;
      case Enemy => assert Kinds[6] == k;
    }
  }

  /** `possibleTypes`: every type but the previous one, in list order,
      written out per previous type; `PossibleIsFilter` shows it is the
      filter of `BLOCK_TYPE_LIST`. */
  function Possible(prev: Option<Kind>): (ks: seq<Kind>)
    ensures |ks| == if prev.None? then 7 else 6
  {
    match prev
    case None => Kinds
    case Some(Normal) => [Tunnel, Platform, Empty, EmptyPlateform, Button, Enemy]
    case Some(Tunnel) => [Normal, Platform, Empty, EmptyPlateform, Button, Enemy]
    case Some(Platform) => [Normal, Tunnel, Empty, EmptyPlateform, Button, Enemy]
    case Some(Empty) => [Normal, Tunnel, Platform, EmptyPlateform, Button, Enemy]
    case Some(EmptyPlateform) => [Normal, Tunnel, Platform, Empty, Button, Enemy]
    case Some(Button) => [Normal, Tunnel, Platform, Empty, EmptyPlateform, Enemy]
    case Some(Enemy) => [Normal, Tunnel, Platform, Empty, EmptyPlateform, Button]
  }

  lemma {:induction false} WithoutStep(l: seq<Kind>, prev: Option<Kind>, i: nat)
    requires i < |l|
    ensures Without(l[i..], prev) == Keep(prev, l[i]) + Without(l[i + 1..], prev)
  {
    assert l[i..][1..] == l[i + 1..];
  }

  lemma {:induction false} WithoutUnrolled(l: seq<Kind>, prev: Option<Kind>)
    requires |l| == 7
    ensures Without(l, prev)
            == Keep(prev, l[0]) + (Keep(prev, l[1]) + (Keep(prev, l[2]) + (Keep(prev, l[3])
               + (Keep(prev, l[4]) + (Keep(prev, l[5]) + Keep(prev, l[6]))))))
  {
    WithoutStep(l, prev, 0);
    WithoutStep(l, prev, 1);
    WithoutStep(l, prev, 2);
    WithoutStep(l, prev, 3);
    WithoutStep(l, prev, 4);
    WithoutStep(l, prev, 5);
    WithoutStep(l, prev, 6);
    assert l[0..] == l && l[7..] == [];
    assert Without(l[6..], prev) == Keep(prev, l[6]);
  }

  /** The filter of `BLOCK_TYPE_LIST` spelled out key by key. */
  function KeepEach(prev: Option<Kind>): seq<Kind>
  {
    Keep(prev, Normal) + (Keep(prev, Tunnel) + (Keep(prev, Platform) + (Keep(prev, Empty)
      + (Keep(prev, EmptyPlateform) + (Keep(prev, Button) + Keep(prev, Enemy))))))
  }

  lemma FilterIsKeepEach(prev: Option<Kind>)
    ensures Without(Kinds, prev) == KeepEach(prev)
  {
    WithoutUnrolled(Kinds, prev);
    assert Kinds[0] == Normal && Kinds[1] == Tunnel && Kinds[2] == Platform && Kinds[3] == Empty;
    assert Kinds[4] == EmptyPlateform && Kinds[5] == Button && Kinds[6] == Enemy;
  }

  lemma PossibleIsKeepEach(prev: Option<Kind>)
    ensures Possible(prev) == KeepEach(prev)
  {
  }

  /** The table is the filter of `BLOCK_TYPE_LIST`. */
  lemma PossibleIsFilter(prev: Option<Kind>)
    ensures Possible(prev) == Without(Kinds, prev)
  {
    FilterIsKeepEach(prev);
    PossibleIsKeepEach(prev);
  }

  /** The candidates are exactly the types other than the previous one,
      each once. */
  lemma PossibleComplete(prev: Option<Kind>)
    ensures forall k :: k in Possible(prev) <==> Some(k) != prev
    ensures NoRepeats(Possible(prev))
  {
    PossibleIsFilter(prev);
    KindsEnumerates();
    assert NoRepeats(Kinds);
    WithoutMembers(Kinds, prev);
    WithoutSize(Kinds, prev);
  }

  /** The loop of `generateType`: from index `i` on, the first `i` with
      `val < (1 / n) * (i + 1)`. */
  function Scan(n: nat, i: nat, val: real): (k: nat)
    requires 0 < n && i < n && 0.0 <= val < 1.0
    requires i as real / n as real <= val
    ensures i <= k < n
    ensures k as real / n as real <= val < (k + 1) as real / n as real
    decreases n - i
  {
    UniformEdge(n, i);
    if val < (1.0 / n as real) * (i + 1) as real then i
    else if i + 1 == n then assert false; i
    else Scan(n, i + 1, val)
  }

  /** `generateType(first)`: `normal` when forced, otherwise a uniform pick
      among the other types. */
  function GenerateType(first: bool, prev: Option<Kind>, val: real): (k: Kind)
    requires 0.0 <= val < 1.0
    ensures first ==> k == Normal
    ensures !first ==> Some(k) != prev
  {
    if first then Normal
    else
      var ks := Possible(prev);
      PossibleComplete(prev);
      ks[Scan(|ks|, 0, val)]
  }

  /** With `n` candidates, candidate `i` is chosen exactly when
      `i / n <= val < (i + 1) / n`: each one has probability `1 / n`. */
  lemma {:induction false} UniformBucket(prev: Option<Kind>, val: real, i: nat)
    requires 0.0 <= val < 1.0
    requires i < |Possible(prev)|
    ensures var ks := Possible(prev); var n := |ks| as real;
      GenerateType(false, prev, val) == ks[i] <==> i as real / n <= val < (i + 1) as real / n
  {
    var ks := Possible(prev);
    var n := |ks|;
    var k := Scan(n, 0, val);
    PossibleComplete(prev);
    assert GenerateType(false, prev, val) == ks[k];
    if k == i {
    } else if k < i {
      assert ks[k] != ks[i];
      DivMonotone((k + 1) as real, i as real, n as real);
    } else {
      assert ks[k] != ks[i];
      DivMonotone((i + 1) as real, k as real, n as real);
    }
  }

  // ------------------------------------------------------------ initBlocks

  const FirstZone: real := 2.0

  /** Chunks laid end to end from `from`, each placed as `Place` does. */
  ghost predicate LaidFrom(cs: seq<Chunk>, from: real)
  {
    && (forall j :: 0 <= j < |cs| ==> cs[j] == Place(cs[j].kind, cs[j].position))
    && (|cs| > 0 ==> cs[0].position == from)
    && (forall i, j :: 0 <= i && j == i + 1 && j < |cs| ==> cs[j].position == cs[i].position + Width(cs[i].kind) as real)
  }

  /** Chunk `j` has the type `GenerateType` gives for draw `j`. */
  ghost predicate DrawnAt(cs: seq<Chunk>, rand: nat -> real, j: nat)
    requires j < |cs|
  {
    0.0 <= rand(j) < 1.0 &&
    cs[j].kind == GenerateType(cs[j].position <= FirstZone, if j == 0 then None else Some(cs[j - 1].kind), rand(j))
  }

  /** The types follow the draw. */
  ghost predicate Drawn(cs: seq<Chunk>, rand: nat -> real)
  {
    forall j :: 0 <= j < |cs| ==> DrawnAt(cs, rand, j)
  }

  function EndOf(cs: seq<Chunk>, from: real): real
  {
    if cs == [] then from else cs[|cs| - 1].position + Width(cs[|cs| - 1].kind) as real
  }

  /** `initBlocks`: chunks from `-0.8 * totalWidth` while the cursor is at
      most `0.8 * totalWidth + BLOCK_WIDTH`; iteration `j` draws `rand(j)`. */
  method InitBlocks(totalWidth: real, rand: nat -> real) returns (cs: seq<Chunk>, currentX: real)
    requires forall j :: 0.0 <= rand(j) < 1.0
    ensures LaidFrom(cs, -totalWidth * 0.8) && currentX == EndOf(cs, -totalWidth * 0.8)
    ensures Drawn(cs, rand)
    ensures currentX > totalWidth * 0.8 + 1.0
    ensures cs != [] <==> -totalWidth * 0.8 <= totalWidth * 0.8 + 1.0
  {
    var from := -totalWidth * 0.8;
    var maxX := totalWidth * 0.8 + 1.0;
    currentX := from;
    cs := [];
    while currentX <= maxX
      invariant LaidFrom(cs, from) && currentX == EndOf(cs, from)
      invariant Drawn(cs, rand)
      invariant cs != [] ==> from <= maxX
      decreases (maxX - currentX).Floor
    {
      var kind := GenerateType(currentX <= FirstZone, if cs == [] then None else Some(cs[|cs| - 1].kind), rand(|cs|));
      var c := Place(kind, currentX);
      LaidAppend(cs, from, c);
      DrawnAppend(cs, rand, c);
      cs := cs + [c];
      currentX := currentX + Width(kind) as real;
    }
  }

  lemma LaidAppend(cs: seq<Chunk>, from: real, c: Chunk)
    requires LaidFrom(cs, from)
    requires c == Place(c.kind, EndOf(cs, from))
    ensures LaidFrom(cs + [c], from)
    ensures EndOf(cs + [c], from) == c.position + Width(c.kind) as real
  {
    var ds := cs + [c];
    assert forall j :: 0 <= j < |cs| ==> ds[j] == cs[j];
  }

  lemma DrawnAppend(cs: seq<Chunk>, rand: nat -> real, c: Chunk)
    requires Drawn(cs, rand)
    requires 0.0 <= rand(|cs|) < 1.0
    requires c.kind == GenerateType(c.position <= FirstZone, if cs == [] then None else Some(cs[|cs| - 1].kind), rand(|cs|))
    ensures Drawn(cs + [c], rand)
  {
    var ds := cs + [c];
    forall j | 0 <= j < |ds|
      ensures DrawnAt(ds, rand, j)
    {
      if j > 0 {
        assert ds[j - 1] == cs[j - 1];
      }
      if j < |cs| {
        assert ds[j] == cs[j] && DrawnAt(cs, rand, j);
      } else {
        assert ds[j] == c;
      }
    }
  }

  /** Past the first zone, no type follows itself, `normal` included. */
  lemma NeverRepeats(cs: seq<Chunk>, rand: nat -> real, j: nat)
    requires Drawn(cs, rand)
    requires 0 < j < |cs| && cs[j].position > FirstZone
    ensures cs[j].kind != cs[j - 1].kind
  {
    assert DrawnAt(cs, rand, j);
  }

  /** The floors of two neighbouring chunks laid by the cursor are apart by
      half the difference of their widths: they meet only when the widths
      agree, leave a gap after a wider chunk and overlap after a narrower
      one. */
  lemma FloorSeam(a: Kind, b: Kind, x: real)
    requires HasFloor(a) && HasFloor(b)
    ensures var ca := Place(a, x); var cb := Place(b, x + Width(a) as real);
      Left(cb.floor.value) - Right(ca.floor.value) == (Width(a) as real - Width(b) as real) / 2.0
  {
  }

  /** A tunnel at 0 followed by a normal chunk at 4: the tunnel's floor ends
      at 2 and the next floor starts at 3.5. */
  lemma FloorGapExample()
    ensures Right(Place(Tunnel, 0.0).floor.value) == 2.0
    ensures Left(Place(Normal, 4.0).floor.value) == 3.5
  {
  }

  /** The placement with the container moved by half the chunk's width, as
      the later src/js/World/Blocks/Block.js does. */
  function PlaceCentred(kind: Kind, x: real): (c: Chunk)
    ensures c.floor.Some? <==> HasFloor(kind)
    ensures c.floor.Some? ==> Left(c.floor.value) == x && Right(c.floor.value) == x + Width(kind) as real
  {
    var cx := x + Width(kind) as real / 2.0;
    Chunk(kind, x, cx, if HasFloor(kind) then Some(Box(cx, Width(kind) as real, 2.0, 3.0)) else None)
  }

  /** With centred containers, neighbouring floors laid by the cursor meet
      exactly, whatever their widths. */
  lemma CentredFloorsMeet(a: Kind, b: Kind, x: real)
    requires HasFloor(a) && HasFloor(b)
    ensures var ca := PlaceCentred(a, x); var cb := PlaceCentred(b, x + Width(a) as real);
      Left(cb.floor.value) == Right(ca.floor.value)
  {
  }
}
