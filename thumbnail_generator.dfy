/**
 * `ThumbnailGenerator.generateVariants` (lib/brain/ThumbnailGenerator.js): three
 * thumbnail variants of a script (emotional, text-heavy, minimal) with random
 * predicted click-through rates in fixed ranges, sorted by that rate from the
 * highest. The `Math.random()` values are inputs.
 */
module ThumbnailGenerator {
  import opened Collections
  import opened Sorting
  import opened Types

  /** The random values the call draws: the id base, then one per variant. */
  datatype VariantDraws = VariantDraws(baseId: string, emotional: Draw, textHeavy: Draw, minimal: Draw)

  const IdPrefix: string := "thumb_"

  function VariantId(baseId: string, letter: char): string {
    IdPrefix + baseId + "_" + [letter]
  }

  const EmotionalPromptStart: string := "Close up of human face looking shocked, holding a phone with red chart, title: \""
  const TextHeavyPrompt: string := "Solid black background, huge neon green text saying \"STOP DOING THIS\", arrow pointing down"
  const MinimalPrompt: string := "Clean product shot of the interface, white background, single word: \"BROKEN\""

  /** The three variants in the order they are written, before sorting. */
  function Unsorted(script: GeneratedScript, d: VariantDraws): (vs: seq<ThumbnailVariant>)
    ensures |vs| == 3
    ensures 0.12 <= vs[0].predictedCtr < 0.17
    ensures 0.08 <= vs[1].predictedCtr < 0.12
    ensures 0.05 <= vs[2].predictedCtr < 0.15
  {
    [ThumbnailVariant(VariantId(d.baseId, 'A'), script.id,
       EmotionalPromptStart + script.title + "\"", Emotional, 0.12 + d.emotional * 0.05),
     ThumbnailVariant(VariantId(d.baseId, 'B'), script.id, TextHeavyPrompt, TextHeavy, 0.08 + d.textHeavy * 0.04),
     ThumbnailVariant(VariantId(d.baseId, 'C'), script.id, MinimalPrompt, Minimal, 0.05 + d.minimal * 0.10)]
  }

  function Ctr(v: ThumbnailVariant): real {
    v.predictedCtr
  }

  /** `variants.sort((a, b) => b.predicted_ctr - a.predicted_ctr)`. */
  function GenerateVariants(script: GeneratedScript, d: VariantDraws): (r: seq<ThumbnailVariant>)
    ensures |r| == 3
    ensures SortedDesc(r, Ctr)
    ensures multiset(r) == multiset(Unsorted(script, d))
  {
    SortDesc(Unsorted(script, d), Ctr)
  }

  // ---------------------------------------------------------------------------
  // Properties

  /**
   * Every variant belongs to the script, the three styles each occur once, ids
   * share one base, and each rate lies in its style's range.
   */
  lemma VariantsDescribed(script: GeneratedScript, d: VariantDraws, i: nat)
    requires i < 3
    ensures var v := GenerateVariants(script, d)[i];
      && v.scriptId == script.id
      && (v.style == Emotional ==>
            v.id == VariantId(d.baseId, 'A') && 0.12 <= v.predictedCtr < 0.17
            && v.prompt == EmotionalPromptStart + script.title + "\"")
      && (v.style == TextHeavy ==> v.id == VariantId(d.baseId, 'B') && 0.08 <= v.predictedCtr < 0.12)
      && (v.style == Minimal ==> v.id == VariantId(d.baseId, 'C') && 0.05 <= v.predictedCtr < 0.15)
      && v.style != Shock
  {
    var u := Unsorted(script, d);
    var j := SortDescFrom(u, Ctr, i);
    assert GenerateVariants(script, d)[i] == u[j];
    if j == 0 {
      assert u[0].style == Emotional;
    } else if j == 1 {
      assert u[1].style == TextHeavy;
    } else {
      assert u[2].style == Minimal;
    }
  }

  function Style(v: ThumbnailVariant): ThumbnailStyle {
    v.style
  }

  /** The styles of the result are emotional, text-heavy and minimal, each once, in some order. */
  lemma StylesOnceEach(script: GeneratedScript, d: VariantDraws)
    ensures multiset(Map(Style, GenerateVariants(script, d))) == multiset{Emotional, TextHeavy, Minimal}
  {
    var u := Unsorted(script, d);
    MapPermutation(Style, GenerateVariants(script, d), u);
    assert Map(Style, u) == [Emotional, TextHeavy, Minimal];
  }

  /** The emotional variant always comes before the text-heavy one, which is therefore never first. */
  lemma EmotionalBeforeTextHeavy(script: GeneratedScript, d: VariantDraws) returns (e: nat, t: nat)
    ensures e < t < 3
    ensures GenerateVariants(script, d)[e].style == Emotional
    ensures GenerateVariants(script, d)[t].style == TextHeavy
    ensures GenerateVariants(script, d)[0].style != TextHeavy
  {
    var r := GenerateVariants(script, d);
    StylesOnceEach(script, d);
    var styles := Map(Style, r);
    assert Emotional in multiset(styles) && TextHeavy in multiset(styles);
    e :| 0 <= e < 3 && styles[e] == Emotional;
    t :| 0 <= t < 3 && styles[t] == TextHeavy;
    VariantsDescribed(script, d, e);
    VariantsDescribed(script, d, t);
    SortedDescBefore(r, Ctr, e, t);
    VariantsDescribed(script, d, 0);
    assert Ctr(r[0]) >= Ctr(r[e]);
  }
}
