/**
 The chunk sequencer of src/js/World/Blocks/BlockManager.js: a list of
 chunks laid end to end from a cursor, extended ahead of the players and
 retired from the front once they fall behind both the line one total
 width behind the origin and the danger front. The world
 scroll offset (`worldPosition.x`), the danger front's x and the random draws
 are parameters; materials are left out.
 */
module Sequencer {
  import opened Wrappers
  import opened BlockTypes
  import opened Physics
  import opened Chunk
  import opened TypeDraw

  /** Chunks starting at or before this x are forced to `normal`. */
  const FirstZone: real := BlockUnit * 2.0

  /** The draws one iteration of `generateBlocks` consumes: one for the type,
      and the ones the chunk's constructor makes. */
  datatype Draw = Draw(typeVal: real, coins: Coins)

  predicate ValidDraw(d: Draw)
  {
    0.0 <= d.typeVal < 1.0 && ValidCoins(d.coins)
  }

  datatype State = State(blocks: seq<Block>, currentX: real, nextGenerate: real, totalWidth: real, world: World)

  function LastType(bs: seq<Block>): (t: Option<BlockType>)
    ensures t.None? <==> bs == []
    ensures bs != [] ==> t == Some(bs[|bs| - 1].kind)
  {
    if bs == [] then None else Some(bs[|bs| - 1].kind)
  }

  /** Each chunk starts where the previous one ends. */
  ghost predicate Contiguous(bs: seq<Block>)
  {
    forall i, j :: 0 <= i && j == i + 1 && j < |bs| ==> bs[j].start == End(bs[i])
  }

  /** The type rules: a chunk in the first zone is `normal`, and any other
      chunk is eligible after its predecessor. */
  ghost predicate TypeRules(bs: seq<Block>)
  {
    && (forall i :: 0 <= i < |bs| && bs[i].start <= FirstZone ==> bs[i].kind == Normal)
    && (forall i, j :: 0 <= i && j == i + 1 && j < |bs| && bs[j].start > FirstZone ==> Eligible(Some(bs[i].kind), bs[j].kind))
  }

  /** The colliders owned by a list of chunks. */
  function AllColliders(bs: seq<Block>): set<Handle>
  {
    if bs == [] then {} else Elems(bs[0].colliders) + AllColliders(bs[1..])
  }

  ghost predicate DisjointColliders(bs: seq<Block>)
  {
    forall i, j :: 0 <= i < j < |bs| ==> Elems(bs[i].colliders) !! Elems(bs[j].colliders)
  }

  ghost predicate AllWellFormed(bs: seq<Block>)
  {
    forall i :: 0 <= i < |bs| ==> WellFormed(bs[i])
  }

  /** The sequencer invariant: well-formed contiguous chunks ending at the
      cursor, following the type rules, and owning exactly the registered
      colliders, no two chunks sharing one. */
  ghost predicate Valid(s: State)
  {
    && AllWellFormed(s.blocks)
    && Contiguous(s.blocks)
    && (|s.blocks| > 0 ==> End(s.blocks[|s.blocks| - 1]) == s.currentX)
    && TypeRules(s.blocks)
    && Physics.Valid(s.world)
    && s.world.registered == AllColliders(s.blocks)
    && DisjointColliders(s.blocks)
  }

  lemma {:induction false} AllCollidersHas(bs: seq<Block>, i: nat, h: Handle)
    requires i < |bs| && h in bs[i].colliders
    ensures h in AllColliders(bs)
  {
    if i > 0 {
      assert bs[1..][i - 1] == bs[i];
      AllCollidersHas(bs[1..], i - 1, h);
    }
  }

  lemma {:induction false} AllCollidersFrom(bs: seq<Block>, h: Handle)
    requires h in AllColliders(bs)
    ensures exists i :: 0 <= i < |bs| && h in bs[i].colliders
  {
    if h !in Elems(bs[0].colliders) {
      AllCollidersFrom(bs[1..], h);
      var i :| 0 <= i < |bs[1..]| && h in bs[1..][i].colliders;
      assert bs[i + 1] == bs[1..][i];
    }
  }

  lemma {:induction false} AllCollidersAppend(bs: seq<Block>, b: Block)
    ensures AllColliders(bs + [b]) == AllColliders(bs) + Elems(b.colliders)
  {
    if bs != [] {
      assert (bs + [b])[1..] == bs[1..] + [b];
      AllCollidersAppend(bs[1..], b);
    }
  }

  lemma AllCollidersConcat(xs: seq<Block>, ys: seq<Block>)
    ensures AllColliders(xs + ys) == AllColliders(xs) + AllColliders(ys)
  {
    if xs != [] {
      assert (xs + ys)[1..] == xs[1..] + ys;
      AllCollidersConcat(xs[1..], ys);
    } else {
      assert xs + ys == ys;
    }
  }

  lemma ContiguousAppend(bs: seq<Block>, b: Block)
    requires Contiguous(bs)
    requires |bs| > 0 ==> End(bs[|bs| - 1]) == b.start
    ensures Contiguous(bs + [b])
  {
    var cs := bs + [b];
    forall i, j | 0 <= i && j == i + 1 && j < |cs| ensures cs[j].start == End(cs[i]) {
      if j < |bs| {
        assert cs[j] == bs[j] && cs[i] == bs[i];
      }
    }
  }

  lemma TypeRulesAppend(bs: seq<Block>, b: Block)
    requires TypeRules(bs)
    requires b.start <= FirstZone ==> b.kind == Normal
    requires b.start > FirstZone && |bs| > 0 ==> Eligible(Some(bs[|bs| - 1].kind), b.kind)
    ensures TypeRules(bs + [b])
  {
    var cs := bs + [b];
    assert forall i :: 0 <= i < |bs| ==> cs[i] == bs[i];
  }

  lemma DisjointAppend(bs: seq<Block>, b: Block, n: Handle)
    requires DisjointColliders(bs)
    requires forall h :: h in AllColliders(bs) ==> h < n
    requires forall h :: h in b.colliders ==> n <= h
    ensures DisjointColliders(bs + [b])
  {
    var cs := bs + [b];
    forall i, j | 0 <= i < j < |cs| ensures Elems(cs[i].colliders) !! Elems(cs[j].colliders) {
      if j == |bs| {
        forall h | h in cs[i].colliders ensures h !in b.colliders {
          AllCollidersHas(bs, i, h);
        }
      } else {
        assert cs[i] == bs[i] && cs[j] == bs[j];
      }
    }
  }

  /** Appending a fresh well-formed chunk at the cursor, drawn by the type
      rules, keeps the invariant. */
  lemma AppendKeepsValid(s: State, b: Block, w: World)
    requires Valid(s)
    requires WellFormed(b) && b.start == s.currentX
    requires b.start <= FirstZone ==> b.kind == Normal
    requires b.start > FirstZone && |s.blocks| > 0 ==> Eligible(Some(s.blocks[|s.blocks| - 1].kind), b.kind)
    requires forall h :: h in b.colliders ==> s.world.next <= h
    requires w.registered == s.world.registered + Elems(b.colliders) && Physics.Valid(w)
    ensures Valid(s.(blocks := s.blocks + [b], currentX := End(b), world := w))
  {
    ContiguousAppend(s.blocks, b);
    TypeRulesAppend(s.blocks, b);
    DisjointAppend(s.blocks, b, s.world.next);
    AllCollidersAppend(s.blocks, b);
    var bs := s.blocks + [b];
    assert forall i :: 0 <= i < |bs| ==> WellFormed(bs[i]) by {
      assert forall i :: 0 <= i < |s.blocks| ==> bs[i] == s.blocks[i];
    }
  }

  /** Dropping the first chunk, once its colliders are unregistered, keeps the invariant. */
  lemma DropFrontKeepsValid(s: State, w: World)
    requires Valid(s) && |s.blocks| > 0
    requires w.registered == s.world.registered - Elems(s.blocks[0].colliders) && w.next == s.world.next
    ensures Valid(s.(blocks := s.blocks[1..], world := w))
  {
    var bs := s.blocks;
    assert forall i :: 0 <= i < |bs[1..]| ==> bs[1..][i] == bs[i + 1];
    forall h | h in AllColliders(bs[1..]) ensures h !in Elems(bs[0].colliders) {
      AllCollidersFrom(bs[1..], h);
    }
  }

  /** The chunks `gen`, laid after a chunk of type `prev`, are the ones the
      draws `rand(0)`, `rand(1)`, ... pick, in order. */
  ghost predicate DrawnSeq(prev: Option<BlockType>, gen: seq<Block>, rand: nat -> Draw)
    decreases |gen|
  {
    if gen == [] then true
    else
      var n := |gen| - 1;
      && DrawnSeq(prev, gen[..n], rand)
      && ValidDraw(rand(n))
      && gen[n].kind == GenerateType(gen[n].start <= FirstZone, if n == 0 then prev else Some(gen[n - 1].kind), rand(n).typeVal)
  }

  lemma DrawnSeqAppend(prev: Option<BlockType>, gen: seq<Block>, b: Block, rand: nat -> Draw)
    requires DrawnSeq(prev, gen, rand)
    requires ValidDraw(rand(|gen|))
    requires b.kind == GenerateType(b.start <= FirstZone, if gen == [] then prev else Some(gen[|gen| - 1].kind), rand(|gen|).typeVal)
    ensures DrawnSeq(prev, gen + [b], rand)
  {
    var g := gen + [b];
    assert g[..|gen|] == gen && g[|gen|] == b;
    if gen != [] {
      assert g[|gen| - 1] == gen[|gen| - 1];
    }
  }

  /** One iteration of `generateBlocks`: draw the type, build the chunk at
      the cursor, advance the cursor by the chunk's width, append the chunk. */
  method AppendBlock(s: State, d: Draw) returns (r: State)
    requires Valid(s) && ValidDraw(d)
    ensures Valid(r)
    ensures |r.blocks| == |s.blocks| + 1 && r.blocks[..|s.blocks|] == s.blocks
    ensures var b := r.blocks[|s.blocks|];
      && b.start == s.currentX
      && b.kind == GenerateType(s.currentX <= FirstZone, LastType(s.blocks), d.typeVal)
      && r.currentX == s.currentX + Width(b.kind) as real
      && r.world.registered == s.world.registered + Elems(b.colliders)
    ensures r.totalWidth == s.totalWidth && r.nextGenerate == s.nextGenerate
    ensures r.world.removed == s.world.removed
  {
    var first := s.currentX <= FirstZone;
    var t := GenerateType(first, LastType(s.blocks), d.typeVal);
    var built := Build(t, s.currentX, d.coins, s.world);
    AppendKeepsValid(s, built.block, built.world);
    r := s.(blocks := s.blocks + [built.block], currentX := End(built.block), world := built.world);
    assert r.blocks[..|s.blocks|] == s.blocks;
  }

  lemma GenerationStep(bs: seq<Block>, before: seq<Block>, after: seq<Block>, rand: nat -> Draw, used: nat)
    requires |before| == |bs| + used && before[..|bs|] == bs
    requires |after| == |before| + 1 && after[..|before|] == before
    requires DrawnSeq(LastType(bs), before[|bs|..], rand)
    requires ValidDraw(rand(used))
    requires after[|before|].kind == GenerateType(after[|before|].start <= FirstZone, LastType(before), rand(used).typeVal)
    ensures after[..|bs|] == bs
    ensures DrawnSeq(LastType(bs), after[|bs|..], rand)
  {
    var gen := before[|bs|..];
    var b := after[|before|];
    SuffixGrows(bs, before, after);
    LastOfSuffix(bs, before);
    DrawnSeqAppend(LastType(bs), gen, b, rand);
  }

  /** Extending a list by one element extends each of its suffixes by it. */
  lemma SuffixGrows(bs: seq<Block>, before: seq<Block>, after: seq<Block>)
    requires |bs| <= |before| && before[..|bs|] == bs
    requires |after| == |before| + 1 && after[..|before|] == before
    ensures after[..|bs|] == bs
    ensures after[|bs|..] == before[|bs|..] + [after[|before|]]
  {
  }

  /** The type before the last chunk of a suffix is the list's last type. */
  lemma LastOfSuffix(bs: seq<Block>, before: seq<Block>)
    requires |bs| <= |before| && before[..|bs|] == bs
    ensures var gen := before[|bs|..];
      (if gen == [] then LastType(bs) else Some(gen[|gen| - 1].kind)) == LastType(before)
  {
    var gen := before[|bs|..];
    if gen == [] {
      assert before == bs;
    } else {
      assert gen[|gen| - 1] == before[|before| - 1];
    }
  }

  lemma RegisteredSplit(bs: seq<Block>, cs: seq<Block>, before: set<Handle>, after: set<Handle>)
    requires |bs| <= |cs| && cs[..|bs|] == bs
    requires before == AllColliders(bs) && after == AllColliders(cs)
    ensures after == before + AllColliders(cs[|bs|..])
  {
    assert cs == bs + cs[|bs|..];
    AllCollidersConcat(bs, cs[|bs|..]);
  }

  /** `generateBlocks`: lays chunks from the cursor while the cursor, moved by
      the scroll offset, is at most twice the total width ahead; iteration `k`
      uses the draw `rand(k)`. */
  method GenerateBlocks(s: State, worldX: real, rand: nat -> Draw) returns (r: State, used: nat)
    requires Valid(s)
    requires forall k :: ValidDraw(rand(k))
    ensures Valid(r)
    ensures worldX + r.currentX > 2.0 * s.totalWidth
    ensures r.nextGenerate == s.currentX - s.totalWidth && r.totalWidth == s.totalWidth
    ensures |r.blocks| == |s.blocks| + used && r.blocks[..|s.blocks|] == s.blocks
    ensures used > 0 <==> worldX + s.currentX <= 2.0 * s.totalWidth
    ensures used > 0 ==> r.blocks[|s.blocks|].start == s.currentX
    ensures used == 0 ==> r.currentX == s.currentX && r.world == s.world
    ensures DrawnSeq(LastType(s.blocks), r.blocks[|s.blocks|..], rand)
    ensures r.world.registered == s.world.registered + AllColliders(r.blocks[|s.blocks|..])
    ensures r.world.removed == s.world.removed
  {
    var maxX := s.totalWidth * 2.0;
    r := s.(nextGenerate := s.currentX - s.totalWidth);
    used := 0;
    while worldX + r.currentX <= maxX
      invariant Valid(r)
      invariant r.nextGenerate == s.currentX - s.totalWidth && r.totalWidth == s.totalWidth
      invariant |r.blocks| == |s.blocks| + used && r.blocks[..|s.blocks|] == s.blocks
      invariant used > 0 ==> r.blocks[|s.blocks|].start == s.currentX
      invariant used == 0 ==> r.currentX == s.currentX && r.world == s.world
      invariant DrawnSeq(LastType(s.blocks), r.blocks[|s.blocks|..], rand)
      invariant used > 0 ==> worldX + s.currentX <= maxX
      invariant r.world.removed == s.world.removed
      decreases (maxX - worldX - r.currentX).Floor
    {
      r, used := GenerateOne(s, r, used, rand);
    }
    RegisteredSplit(s.blocks, r.blocks, s.world.registered, r.world.registered);
  }

  /** One iteration of the `generateBlocks` loop, seen from the state the
      loop started in: the new chunks remain the draw sequence. */
  method GenerateOne(s: State, r: State, used: nat, rand: nat -> Draw) returns (r': State, used': nat)
    requires Valid(r) && forall k :: ValidDraw(rand(k))
    requires |r.blocks| == |s.blocks| + used && r.blocks[..|s.blocks|] == s.blocks
    requires DrawnSeq(LastType(s.blocks), r.blocks[|s.blocks|..], rand)
    ensures Valid(r') && used' == used + 1
    ensures |r'.blocks| == |s.blocks| + used' && r'.blocks[..|s.blocks|] == s.blocks
    ensures r'.blocks[..|r.blocks|] == r.blocks && r'.blocks[|r.blocks|].start == r.currentX
    ensures r'.currentX >= r.currentX + 1.0
    ensures DrawnSeq(LastType(s.blocks), r'.blocks[|s.blocks|..], rand)
    ensures r'.nextGenerate == r.nextGenerate && r'.totalWidth == r.totalWidth && r'.world.removed == r.world.removed
  {
    r' := AppendBlock(r, rand(used));
    GenerationStep(s.blocks, r.blocks, r'.blocks, rand, used);
    used' := used + 1;
  }

  /** `initBlocks`: the cursor starts one total width behind the origin and
      the first chunks are laid from there. The sequencer starts with no
      chunks and owns every collider of `world`. */
  method InitBlocks(totalWidth: real, worldX: real, world: World, rand: nat -> Draw) returns (r: State, used: nat)
    requires Physics.Valid(world) && world.registered == {}
    requires forall k :: ValidDraw(rand(k))
    ensures Valid(r) && r.totalWidth == totalWidth
    ensures |r.blocks| == used
    ensures used > 0 <==> worldX - totalWidth <= 2.0 * totalWidth
    ensures used > 0 ==> r.blocks[0].start == -totalWidth
    ensures used > 0 && -totalWidth <= FirstZone ==> r.blocks[0].kind == Normal
    ensures worldX + r.currentX > 2.0 * totalWidth
    ensures r.nextGenerate == -2.0 * totalWidth
    ensures DrawnSeq(None, r.blocks, rand)
  {
    var s := State([], -totalWidth, 0.0, totalWidth, world);
    assert Valid(s);
    r, used := GenerateBlocks(s, worldX, rand);
    assert r.blocks[0..] == r.blocks;
  }

  /** The x under which `destroyBlocks` retires chunks: the farther back of
      the fixed line one total width behind the origin and the danger front
      shifted by the scroll offset, so a retired chunk is behind both. */
  function CullLine(totalWidth: real, worldX: real, dangerX: real): (m: real)
    ensures m <= -totalWidth && m <= dangerX + worldX
    ensures m == -totalWidth || m == dangerX + worldX
  {
    if -totalWidth <= dangerX + worldX then -totalWidth else dangerX + worldX
  }

  /** Along contiguous chunks the ends increase, so the first chunk ends
      first. */
  lemma {:induction false} FirstEndsFirst(bs: seq<Block>, j: nat)
    requires AllWellFormed(bs) && Contiguous(bs)
    requires j < |bs|
    ensures End(bs[0]) <= End(bs[j])
  {
    if j > 0 {
      FirstEndsFirst(bs, j - 1);
      assert bs[j].start == End(bs[j - 1]);
      assert WellFormed(bs[j]);
    }
  }

  /** One iteration of `destroyBlocks`: the first chunk is shifted off and
      destroyed. */
  method DropFront(s: State) returns (r: State, b: Block)
    requires Valid(s) && |s.blocks| > 0
    ensures Valid(r) && b == s.blocks[0] && r.blocks == s.blocks[1..]
    ensures r.world.registered == s.world.registered - Elems(b.colliders)
    ensures r.world.next == s.world.next
    ensures r.currentX == s.currentX && r.nextGenerate == s.nextGenerate && r.totalWidth == s.totalWidth
  {
    b := s.blocks[0];
    var gone, w := Destroy(b, s.world);
    DropFrontKeepsValid(s, w);
    r := s.(blocks := s.blocks[1..], world := w);
  }

  /** `destroyBlocks`: retires chunks from the front while the first one,
      moved by the scroll offset, ends before the cull line. The source
      reads the first chunk without a guard, so an empty list (at entry or
      once every chunk is retired) throws: that is `crashed`. */
  method DestroyBlocks(s: State, worldX: real, dangerX: real) returns (r: State, removed: seq<Block>, crashed: bool)
    requires Valid(s)
    ensures Valid(r)
    ensures s.blocks == removed + r.blocks
    ensures forall i :: 0 <= i < |removed| ==> worldX + End(removed[i]) < CullLine(s.totalWidth, worldX, dangerX)
    ensures forall i :: 0 <= i < |r.blocks| ==> worldX + End(r.blocks[i]) >= CullLine(s.totalWidth, worldX, dangerX)
    ensures crashed <==> r.blocks == []
    ensures r.world.registered == s.world.registered - AllColliders(removed)
    ensures r.world.next == s.world.next
    ensures r.currentX == s.currentX && r.nextGenerate == s.nextGenerate && r.totalWidth == s.totalWidth
  {
    r := s;
    removed := [];
    crashed := s.blocks == [];
    var line := CullLine(s.totalWidth, worldX, dangerX);
    assert AllColliders(removed) == {};
    assert s.world.registered - {} == s.world.registered;
    while !crashed && worldX + End(r.blocks[0]) < line
      invariant Valid(r) && (crashed <==> r.blocks == [])
      invariant s.blocks == removed + r.blocks
      invariant forall i :: 0 <= i < |removed| ==> worldX + End(removed[i]) < line
      invariant r.world.registered == s.world.registered - AllColliders(removed)
      invariant r == s.(blocks := r.blocks, world := r.world) && r.world.next == s.world.next
      decreases |r.blocks|
    {
      r, removed := CullOne(s, r, removed, worldX, line);
      crashed := r.blocks == [];
    }
    PastLine(r.blocks, worldX, line);
  }

  /** One iteration of the `destroyBlocks` loop: the first chunk is behind
      the line, so it is shifted off and destroyed. */
  method CullOne(s: State, r: State, removed: seq<Block>, worldX: real, line: real)
    returns (r': State, removed': seq<Block>)
    requires Valid(r) && |r.blocks| > 0
    requires s.blocks == removed + r.blocks
    requires forall i :: 0 <= i < |removed| ==> worldX + End(removed[i]) < line
    requires worldX + End(r.blocks[0]) < line
    requires r.world.registered == s.world.registered - AllColliders(removed)
    ensures Valid(r') && s.blocks == removed' + r'.blocks && r'.blocks == r.blocks[1..]
    ensures forall i :: 0 <= i < |removed'| ==> worldX + End(removed'[i]) < line
    ensures r'.world.registered == s.world.registered - AllColliders(removed')
    ensures r' == r.(blocks := r'.blocks, world := r'.world) && r'.world.next == r.world.next
  {
    var b;
    r', b := DropFront(r);
    CullStep(s.blocks, s.world.registered, removed, r.blocks, r.world.registered, r'.world.registered, worldX, line);
    removed' := removed + [b];
  }

  /** The bookkeeping of one iteration of `destroyBlocks`. */
  lemma CullStep(bs: seq<Block>, reg0: set<Handle>, removed: seq<Block>, front: seq<Block>,
                 reg: set<Handle>, reg': set<Handle>, worldX: real, line: real)
    requires |front| > 0 && bs == removed + front
    requires forall i :: 0 <= i < |removed| ==> worldX + End(removed[i]) < line
    requires worldX + End(front[0]) < line
    requires reg == reg0 - AllColliders(removed)
    requires reg' == reg - Elems(front[0].colliders)
    ensures bs == (removed + [front[0]]) + front[1..]
    ensures forall i :: 0 <= i < |removed + [front[0]]| ==> worldX + End((removed + [front[0]])[i]) < line
    ensures reg' == reg0 - AllColliders(removed + [front[0]])
  {
    AllCollidersAppend(removed, front[0]);
    assert front == [front[0]] + front[1..];
  }

  /** Once the first chunk is past the line, every chunk is. */
  lemma PastLine(bs: seq<Block>, worldX: real, line: real)
    requires AllWellFormed(bs) && Contiguous(bs)
    requires |bs| > 0 ==> worldX + End(bs[0]) >= line
    ensures forall i :: 0 <= i < |bs| ==> worldX + End(bs[i]) >= line
  {
    forall i | 0 <= i < |bs| ensures worldX + End(bs[i]) >= line {
      FirstEndsFirst(bs, i);
    }
  }

  /** `render`, once per tick: retire chunks behind the cull line, then, once
      the scroll has passed `nextGenerate`, lay chunks ahead. A crash in
      `destroyBlocks` ends the frame. */
  method Render(s: State, worldX: real, dangerX: real, rand: nat -> Draw)
    returns (r: State, removed: seq<Block>, crashed: bool, used: nat)
    requires Valid(s)
    requires forall k :: ValidDraw(rand(k))
    ensures Valid(r)
    ensures crashed <==> |removed| == |s.blocks|
    ensures |removed| <= |s.blocks| <= |removed| + |r.blocks|
    ensures removed + r.blocks[..|s.blocks| - |removed|] == s.blocks
    ensures forall i :: 0 <= i < |removed| ==> worldX + End(removed[i]) < CullLine(s.totalWidth, worldX, dangerX)
    ensures used > 0 <==> !crashed && -worldX >= s.nextGenerate && worldX + s.currentX <= 2.0 * s.totalWidth
    ensures |r.blocks| == |s.blocks| - |removed| + used
    ensures !crashed && -worldX >= s.nextGenerate ==> worldX + r.currentX > 2.0 * s.totalWidth && r.nextGenerate == s.currentX - s.totalWidth
    ensures crashed || -worldX < s.nextGenerate ==> r.currentX == s.currentX && r.nextGenerate == s.nextGenerate
  {
    var kept;
    kept, removed, crashed := DestroyBlocks(s, worldX, dangerX);
    r := kept;
    used := 0;
    if !crashed && -worldX >= kept.nextGenerate {
      r, used := GenerateBlocks(kept, worldX, rand);
    }
    KeptPrefix(s.blocks, removed, kept.blocks, r.blocks);
  }

  lemma KeptPrefix(bs: seq<Block>, removed: seq<Block>, kept: seq<Block>, after: seq<Block>)
    requires bs == removed + kept
    requires |kept| <= |after| && after[..|kept|] == kept
    ensures |removed| <= |bs| <= |removed| + |after|
    ensures removed + after[..|bs| - |removed|] == bs
  {
  }

  /** In a valid sequencer the floors of two neighbouring chunks meet
      exactly: the first ends where the second begins. */
  lemma FloorsAbut(s: State, i: nat)
    requires Valid(s) && i + 1 < |s.blocks|
    requires s.blocks[i].floor.Some? && s.blocks[i + 1].floor.Some?
    ensures var f := s.blocks[i].floor.value; var g := s.blocks[i + 1].floor.value;
      f.centerX + f.halfWidth == g.centerX - g.halfWidth
  {
    assert WellFormed(s.blocks[i]) && WellFormed(s.blocks[i + 1]);
  }
}
