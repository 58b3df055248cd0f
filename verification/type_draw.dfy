/**
 `generateType` of src/js/World/Blocks/BlockManager.js: the choice of the
 next chunk type. The random draw `val` is a parameter in [0, 1). Shares are
 exact reals here, so the cumulative shares reach exactly 1.
 */
module TypeDraw {
  import opened Wrappers
  import opened BlockTypes
  import opened Shares

  /** The filter of `generateType`. The previous type may not repeat unless it
      is `normal`, and `platform`/`empty` may not follow each other. The
      source's two `empty_plateform` clauses compare with an `undefined` key:
      one can never hold, the other excludes `empty` when there is no
      previous chunk at all (`prev == None`). */
  predicate Eligible(prev: Option<BlockType>, t: BlockType)
  {
    && (prev != Some(t) || t == Normal)
    && !(prev == None && t == Empty)
    && !(prev == Some(Empty) && t == Platform)
    && !(prev == Some(Platform) && t == Empty)
  }

  function Filter(ts: seq<BlockType>, prev: Option<BlockType>): seq<BlockType>
  {
    if ts == [] then []
    else Keep(prev, ts[0]) + Filter(ts[1..], prev)
  }

  function Keep(prev: Option<BlockType>, t: BlockType): (r: seq<BlockType>)
    ensures forall u :: u in r <==> u == t && Eligible(prev, t)
  {
    if Eligible(prev, t) then [t] else []
  }

  /** The filter keeps exactly the eligible members. */
  lemma {:induction false} FilterMembers(ts: seq<BlockType>, prev: Option<BlockType>)
    ensures forall t :: t in Filter(ts, prev) <==> t in ts && Eligible(prev, t)
  {
    if ts != [] {
      FilterMembers(ts[1..], prev);
      assert forall t :: t in ts <==> t == ts[0] || t in ts[1..];
    }
  }

  predicate NoRepeats(ts: seq<BlockType>)
  {
    forall i, j :: 0 <= i < j < |ts| ==> ts[i] != ts[j]
  }

  lemma {:induction false} FilterKeepsNoRepeats(ts: seq<BlockType>, prev: Option<BlockType>)
    requires NoRepeats(ts)
    ensures NoRepeats(Filter(ts, prev))
  {
    if ts != [] {
      FilterKeepsNoRepeats(ts[1..], prev);
      FilterMembers(ts[1..], prev);
      assert ts[0] !in ts[1..] by {
        forall j | 0 <= j < |ts[1..]| ensures ts[1..][j] != ts[0] {
          assert ts[1..][j] == ts[j + 1];
        }
      }
    }
  }

  /** `possibleTypes`: the eligible keys in declaration order, one list per
      previous type. */
  function Possible(prev: Option<BlockType>): (ts: seq<BlockType>)
    ensures forall i :: 0 <= i < |ts| ==> Eligible(prev, ts[i])
    ensures |ts| > 0 && ts[0] == Normal
  {
    match prev
    case None => [Normal, Tunnel, Platform, Button]
    case Some(Normal) => [Normal, Tunnel, Platform, Empty, Button]
    case Some(Tunnel) => [Normal, Platform, Empty, Button]
    case Some(Platform) => [Normal, Tunnel, Button]
    case Some(Empty) => [Normal, Tunnel, Button]
    case Some(Button) => [Normal, Tunnel, Platform, Empty]
  }

  lemma {:induction false} FilterStep(ts: seq<BlockType>, prev: Option<BlockType>)
    requires ts != []
    ensures Filter(ts, prev) == Keep(prev, ts[0]) + Filter(ts[1..], prev)
  {
  }

  /** The source's filter over five keys, unrolled. */
  lemma {:induction false} FilterUnrolled(l: seq<BlockType>, prev: Option<BlockType>)
    requires |l| == 5
    ensures Filter(l, prev) == Keep(prev, l[0]) + Keep(prev, l[1]) + Keep(prev, l[2]) + Keep(prev, l[3]) + Keep(prev, l[4])
  {
    FilterStep(l, prev);
    FilterStep(l[1..], prev);
    FilterStep(l[2..], prev);
    FilterStep(l[3..], prev);
    FilterStep(l[4..], prev);
    assert l[1..][1..] == l[2..] && l[2..][1..] == l[3..] && l[3..][1..] == l[4..] && l[4..][1..] == [];
    assert Filter([], prev) == [];
  }

  /** The lists are the source's filter run over the keys in declaration order. */
  lemma PossibleIsFilter(prev: Option<BlockType>)
    ensures Possible(prev) == Filter(TypeList, prev)
  {
    FilterUnrolled(TypeList, prev);
  }

  /** Every eligible type is listed, once. */
  lemma PossibleComplete(prev: Option<BlockType>)
    ensures forall t :: t in Possible(prev) <==> Eligible(prev, t)
    ensures NoRepeats(Possible(prev))
  {
    PossibleIsFilter(prev);
    FilterMembers(TypeList, prev);
    TypeListEnumeratesTypes();
    FilterKeepsNoRepeats(TypeList, prev);
  }

  /** The sum of the weights of the first `k` types of `ts`. */
  function Cum(ts: seq<BlockType>, k: nat): nat
    requires k <= |ts|
  {
    if k == 0 then 0 else Cum(ts, k - 1) + Weight(ts[k - 1])
  }

  /** `totalProbability`. */
  function Total(ts: seq<BlockType>): nat
  {
    Cum(ts, |ts|)
  }

  lemma {:induction false} CumGrows(ts: seq<BlockType>, j: nat, k: nat)
    requires j < k <= |ts|
    ensures Cum(ts, j) + Weight(ts[j]) <= Cum(ts, k)
    decreases k - j
  {
    if k > j + 1 {
      CumGrows(ts, j, k - 1);
    }
  }

  lemma TotalPositive(ts: seq<BlockType>, t: BlockType)
    requires t in ts
    ensures Total(ts) >= Weight(t) > 0
  {
    var j :| 0 <= j < |ts| && ts[j] == t;
    CumGrows(ts, j, |ts|);
  }

  /** Type `ts[k]` owns the bucket [Cum(k), Cum(k + 1)) of the cumulative
      shares, scaled by the total weight. */
  predicate InBucket(ts: seq<BlockType>, k: nat, val: real)
    requires k < |ts| && Total(ts) > 0
  {
    Share(ts, k) <= val < Share(ts, k + 1)
  }

  /** The cumulative share of the first `k` types: `currentProbability` after `k` steps. */
  function Share(ts: seq<BlockType>, k: nat): real
    requires k <= |ts| && Total(ts) > 0
  {
    Cum(ts, k) as real / Total(ts) as real
  }

  /** The `for` loop: `acc` is `currentProbability` before step `i`; the first
      index whose running share exceeds `val` is returned. */
  function Scan(ts: seq<BlockType>, i: nat, acc: real, val: real): (k: nat)
    requires i < |ts| && Total(ts) > 0
    requires acc == Share(ts, i)
    requires acc <= val < 1.0
    ensures i <= k < |ts| && InBucket(ts, k, val)
    decreases |ts| - i
  {
    var next := acc + Weight(ts[i]) as real / Total(ts) as real;
    ShareStep(ts, i);
    if val < next then i
    else
      Scan(ts, i + 1, next, val)
  }

  /** One step of the loop adds the type's share; the last step reaches 1. */
  lemma ShareStep(ts: seq<BlockType>, i: nat)
    requires i < |ts| && Total(ts) > 0
    ensures Share(ts, i) + Weight(ts[i]) as real / Total(ts) as real == Share(ts, i + 1)
    ensures i + 1 == |ts| ==> Share(ts, i + 1) == 1.0
  {
    AddDiv(Cum(ts, i) as real, Weight(ts[i]) as real, Total(ts) as real);
  }

  /** The index into `Possible(prev)` that a draw selects. */
  function DrawIndex(prev: Option<BlockType>, val: real): (k: nat)
    requires 0.0 <= val < 1.0
    ensures k < |Possible(prev)|
    ensures Total(Possible(prev)) > 0 && InBucket(Possible(prev), k, val)
  {
    var ts := Possible(prev);
    TotalPositive(ts, Normal);
    assert Cum(ts, 0) == 0;
    Scan(ts, 0, 0.0, val)
  }

  /** `generateType(first)`: `normal` when forced, otherwise the eligible type
      whose bucket holds the draw. */
  function GenerateType(first: bool, prev: Option<BlockType>, val: real): (t: BlockType)
    requires 0.0 <= val < 1.0
    ensures first ==> t == Normal
    ensures !first ==> Eligible(prev, t)
  {
    if first then Normal
    else Possible(prev)[DrawIndex(prev, val)]
  }

  /** The adjacency rules, as they follow for every unforced draw. */
  lemma AdjacencyRules(prev: BlockType, val: real)
    requires 0.0 <= val < 1.0
    ensures GenerateType(false, Some(prev), val) == prev ==> prev == Normal
    ensures prev == Empty ==> GenerateType(false, Some(prev), val) != Platform
    ensures prev == Platform ==> GenerateType(false, Some(prev), val) != Empty
  {
  }

  /** The buckets partition [0, 1): for every eligible type, the draw picks
      it if and only if `val` lies in its bucket. */
  lemma {:induction false} DrawBucketIff(prev: Option<BlockType>, val: real, k: nat)
    requires 0.0 <= val < 1.0
    requires k < |Possible(prev)|
    ensures Total(Possible(prev)) > 0
    ensures GenerateType(false, prev, val) == Possible(prev)[k] <==> InBucket(Possible(prev), k, val)
  {
    var ts := Possible(prev);
    var d := DrawIndex(prev, val);
    if InBucket(ts, k, val) && d != k {
      if d < k {
        ShareMonotone(ts, d + 1, k);
      } else {
        ShareMonotone(ts, k + 1, d);
      }
      assert false;
    }
  }

  /** The cumulative share never decreases along the candidates. */
  lemma ShareMonotone(ts: seq<BlockType>, j: nat, k: nat)
    requires j <= k <= |ts| && Total(ts) > 0
    ensures Share(ts, j) <= Share(ts, k)
  {
    if j < k {
      CumGrows(ts, j, k);
    }
    DivMonotone(Cum(ts, j) as real, Cum(ts, k) as real, Total(ts) as real);
  }

  /** The bucket of the k-th candidate starts at the share of the
      candidates before it and is the candidate's weight over the total
      weight wide: that is the probability of drawing it. */
  lemma BucketWidth(prev: Option<BlockType>, val: real, k: nat)
    requires 0.0 <= val < 1.0
    requires k < |Possible(prev)|
    ensures var ts := Possible(prev); var t := Total(ts) as real;
      t > 0.0 &&
      (GenerateType(false, prev, val) == ts[k]
       <==> Cum(ts, k) as real / t <= val < Cum(ts, k) as real / t + Weight(ts[k]) as real / t)
  {
    DrawBucketIff(prev, val, k);
    ShareStep(Possible(prev), k);
  }

  /** The draw returns the first eligible type whose cumulative share
      exceeds `val`. */
  lemma {:induction false} DrawIsFirstAbove(prev: Option<BlockType>, val: real)
    requires 0.0 <= val < 1.0
    ensures var ts := Possible(prev); var k := DrawIndex(prev, val);
      && val < Share(ts, k + 1)
      && forall j :: 0 < j <= k ==> Share(ts, j) <= val
  {
    var ts := Possible(prev);
    var k := DrawIndex(prev, val);
    forall j | 0 < j <= k ensures Share(ts, j) <= val {
      ShareMonotone(ts, j, k);
    }
  }
}
