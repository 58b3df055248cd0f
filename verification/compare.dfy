/**
 The current and the earlier type draws side by side: the current one lets
 `normal` follow `normal`, the earlier one never repeats a type.
 */
module Compare {
  import opened Wrappers
  import BlockTypes
  import TypeDraw
  import Legacy

  /** Past the first zone, `normal` stays a candidate after `normal` in the
      current sequencer, and every draw below its share of the total weight
      gives `normal` again; the earlier sequencer never gives `normal` after
      `normal`, whatever the draw. */
  lemma NormalRepeatsOnlyInCurrent(val: real)
    requires 0.0 <= val < 1.0
    ensures BlockTypes.Normal in TypeDraw.Possible(Some(BlockTypes.Normal))
    ensures TypeDraw.Total(TypeDraw.Possible(Some(BlockTypes.Normal))) > 0
    ensures val < BlockTypes.Weight(BlockTypes.Normal) as real
                  / TypeDraw.Total(TypeDraw.Possible(Some(BlockTypes.Normal))) as real
            ==> TypeDraw.GenerateType(false, Some(BlockTypes.Normal), val) == BlockTypes.Normal
    ensures Legacy.GenerateType(false, Some(Legacy.Normal), val) != Legacy.Normal
  {
    var ts := TypeDraw.Possible(Some(BlockTypes.Normal));
    TypeDraw.DrawBucketIff(Some(BlockTypes.Normal), val, 0);
    assert TypeDraw.Cum(ts, 1) == BlockTypes.Weight(BlockTypes.Normal);
  }
}
