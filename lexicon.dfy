/**
 * The fixed word lists the prompt is assembled from, and the style presets the
 * generation API accepts. They are process-wide constants: nothing changes them.
 */
module Lexicon {

  /** Styles accepted by the generation API's `style_preset` field. */
  const StylePresets: seq<string> := ["enhance", "anime", "photographic", "digital-art", "comic-book", "fantasy-art", "line-art", "analog-film", "neon-punk", "isometric", "low-poly", "origami", "modeling-compound", "cinematic", "3d-model", "pixel-art", "tile-texture"]

  // Categories of descriptive phrases.
  const Conditions: seq<string> := ["under-exposed", "over-exposed", "perfectly lit", "softly lit", "backlit", "silhouetted"]
  const Mediums: seq<string> := ["vintage film", "sharp digital", "soft focus", "grainy film", "high-definition", "low fidelity"]
  const TimesOfDay: seq<string> := ["night", "day", "twilight", "dawn", "dusk", "midday sun", "golden hour", "blue hour"]
  const Atmospheres: seq<string> := ["mysterious", "tranquil", "ominous", "serene", "melancholic", "joyful", "tense"]
  const Styles: seq<string> := ["high contrast", "minimalist", "noir", "surrealist", "impressionist", "pop art", "documentary style", "vibrant color", "monochrome", "sepia tone"]
  const Details: seq<string> := ["against a dramatic backdrop", "in a bustling scene", "with a touch of motion blur", "capturing a fleeting moment", "highlighting intricate detail", "casting long shadows", "reflecting vibrant colors", "immersed in soft hues"]
  const Environments: seq<string> := ["in a bustling city", "in a quiet countryside", "under a starry sky", "on a sunlit beach", "in a cozy home", "in a crowded market", "at the edge of a forest", "by a tranquil river"]
  const ShotTypes: seq<string> := ["extreme close up", "close up", "medium shot", "full shot", "long shot", "wide shot", "overhead shot", "point of view shot", "low angle shot", "high angle shot"]

  /**
   * A phrase that can be substituted into a template without side effects: it
   * holds no `[` (it cannot look like a placeholder) and no `$` (it is never
   * read as a replacement pattern), and it is at most `bound` characters long.
   */
  predicate Plain(s: string, bound: nat)
  {
    '[' !in s && '$' !in s && |s| <= bound
  }

  predicate AllPlain(list: seq<string>, bound: nat)
  {
    forall i :: 0 <= i < |list| ==> Plain(list[i], bound)
  }

  // Each category is non-empty, so an in-range index always exists, and all of
  // its phrases are plain; the bound is the category's longest phrase. Naming
  // each phrase in turn roughly halves the solver's work over an empty body.

  lemma ConditionsPlain()
    ensures |Conditions| == 6 && AllPlain(Conditions, 13)
  {
    assert Plain(Conditions[0], 13);
    assert Plain(Conditions[1], 13);
    assert Plain(Conditions[2], 13);
    assert Plain(Conditions[3], 13);
    assert Plain(Conditions[4], 13);
    assert Plain(Conditions[5], 13);
  }

  lemma MediumsPlain()
    ensures |Mediums| == 6 && AllPlain(Mediums, 15)
  {
    assert Plain(Mediums[0], 15);
    assert Plain(Mediums[1], 15);
    assert Plain(Mediums[2], 15);
    assert Plain(Mediums[3], 15);
    assert Plain(Mediums[4], 15);
    assert Plain(Mediums[5], 15);
  }

  lemma TimesOfDayPlain()
    ensures |TimesOfDay| == 8 && AllPlain(TimesOfDay, 11)
  {
    assert Plain(TimesOfDay[0], 11);
    assert Plain(TimesOfDay[1], 11);
    assert Plain(TimesOfDay[2], 11);
    assert Plain(TimesOfDay[3], 11);
    assert Plain(TimesOfDay[4], 11);
    assert Plain(TimesOfDay[5], 11);
    assert Plain(TimesOfDay[6], 11);
    assert Plain(TimesOfDay[7], 11);
  }

  lemma AtmospheresPlain()
    ensures |Atmospheres| == 7 && AllPlain(Atmospheres, 11)
  {
    assert Plain(Atmospheres[0], 11);
    assert Plain(Atmospheres[1], 11);
    assert Plain(Atmospheres[2], 11);
    assert Plain(Atmospheres[3], 11);
    assert Plain(Atmospheres[4], 11);
    assert Plain(Atmospheres[5], 11);
    assert Plain(Atmospheres[6], 11);
  }

  lemma StylesPlain()
    ensures |Styles| == 10 && AllPlain(Styles, 17)
  {
    assert Plain(Styles[0], 17);
    assert Plain(Styles[1], 17);
    assert Plain(Styles[2], 17);
    assert Plain(Styles[3], 17);
    assert Plain(Styles[4], 17);
    assert Plain(Styles[5], 17);
    assert Plain(Styles[6], 17);
    assert Plain(Styles[7], 17);
    assert Plain(Styles[8], 17);
    assert Plain(Styles[9], 17);
  }

  lemma DetailsPlain()
    ensures |Details| == 8 && AllPlain(Details, 29)
  {
    DetailsPlainUpTo4();
    assert Plain(Details[4], 29);
    assert Plain(Details[5], 29);
    assert Plain(Details[6], 29);
    assert Plain(Details[7], 29);
  }

  // The longest category is checked in two halves: in one lemma its proof
  // comes close to the solver's resource limit.
  lemma DetailsPlainUpTo4()
    ensures forall i :: 0 <= i < 4 ==> Plain(Details[i], 29)
  {
    assert Plain(Details[0], 29);
    assert Plain(Details[1], 29);
    assert Plain(Details[2], 29);
    assert Plain(Details[3], 29);
  }

  lemma EnvironmentsPlain()
    ensures |Environments| == 8 && AllPlain(Environments, 23)
  {
    assert Plain(Environments[0], 23);
    assert Plain(Environments[1], 23);
    assert Plain(Environments[2], 23);
    assert Plain(Environments[3], 23);
    assert Plain(Environments[4], 23);
    assert Plain(Environments[5], 23);
    assert Plain(Environments[6], 23);
    assert Plain(Environments[7], 23);
  }

  lemma ShotTypesPlain()
    ensures |ShotTypes| == 10 && AllPlain(ShotTypes, 18)
  {
    assert Plain(ShotTypes[0], 18);
    assert Plain(ShotTypes[1], 18);
    assert Plain(ShotTypes[2], 18);
    assert Plain(ShotTypes[3], 18);
    assert Plain(ShotTypes[4], 18);
    assert Plain(ShotTypes[5], 18);
    assert Plain(ShotTypes[6], 18);
    assert Plain(ShotTypes[7], 18);
    assert Plain(ShotTypes[8], 18);
    assert Plain(ShotTypes[9], 18);
  }
}
