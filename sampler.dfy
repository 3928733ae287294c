/**
 * The detail sampler: one phrase from each category, and one style preset.
 * Each random draw `Math.floor(Math.random() * list.length)` is an index the
 * caller supplies; `Math.random()` lies in [0, 1), so the index is in range.
 */
module Sampler {
  import opened Lexicon

  /** The details record: one chosen phrase per category. */
  datatype DetailsRecord = DetailsRecord(
    medium: string,
    condition: string,
    timesOfDay: string,
    atmosphere: string,
    style: string,
    detail: string,
    environment: string,
    shotType: string)

  /** The eight random indices of one sampling, one per category. */
  datatype Draw = Draw(
    medium: nat,
    condition: nat,
    timesOfDay: nat,
    atmosphere: nat,
    style: nat,
    detail: nat,
    environment: nat,
    shotType: nat)

  /** Every index of the draw lies within its category. */
  predicate InRange(d: Draw)
  {
    && d.medium < |Mediums|
    && d.condition < |Conditions|
    && d.timesOfDay < |TimesOfDay|
    && d.atmosphere < |Atmospheres|
    && d.style < |Styles|
    && d.detail < |Details|
    && d.environment < |Environments|
    && d.shotType < |ShotTypes|
  }

  /** Every field of the record is a phrase of its own category. */
  predicate FromLexicon(r: DetailsRecord)
  {
    && r.medium in Mediums
    && r.condition in Conditions
    && r.timesOfDay in TimesOfDay
    && r.atmosphere in Atmospheres
    && r.style in Styles
    && r.detail in Details
    && r.environment in Environments
    && r.shotType in ShotTypes
  }

  /** Picks the phrase at each drawn index. */
  function GenerateDetails(d: Draw): (r: DetailsRecord)
    requires InRange(d)
    ensures FromLexicon(r)
  {
    DetailsRecord(
      medium := Mediums[d.medium],
      condition := Conditions[d.condition],
      timesOfDay := TimesOfDay[d.timesOfDay],
      atmosphere := Atmospheres[d.atmosphere],
      style := Styles[d.style],
      detail := Details[d.detail],
      environment := Environments[d.environment],
      shotType := ShotTypes[d.shotType])
  }

  /**
   * The sampler can produce every record built from the lexicon, and nothing
   * else: the draws are independent, so each combination of phrases is reached
   * by some in-range draw.
   */
  lemma EveryRecordReachable(r: DetailsRecord)
    requires FromLexicon(r)
    ensures exists d :: InRange(d) && GenerateDetails(d) == r
  {
    var m :| 0 <= m < |Mediums| && Mediums[m] == r.medium;
    var c :| 0 <= c < |Conditions| && Conditions[c] == r.condition;
    var t :| 0 <= t < |TimesOfDay| && TimesOfDay[t] == r.timesOfDay;
    var a :| 0 <= a < |Atmospheres| && Atmospheres[a] == r.atmosphere;
    var s :| 0 <= s < |Styles| && Styles[s] == r.style;
    var x :| 0 <= x < |Details| && Details[x] == r.detail;
    var e :| 0 <= e < |Environments| && Environments[e] == r.environment;
    var k :| 0 <= k < |ShotTypes| && ShotTypes[k] == r.shotType;
    var d := Draw(m, c, t, a, s, x, e, k);
    assert InRange(d) && GenerateDetails(d) == r;
  }

  /** Every field of a sampled record is plain (no `[`, no `$`) and bounded. */
  lemma SampledFieldsPlain(d: Draw)
    requires InRange(d)
    ensures var r := GenerateDetails(d);
      && Plain(r.medium, 15) && Plain(r.condition, 13) && Plain(r.timesOfDay, 11)
      && Plain(r.atmosphere, 11) && Plain(r.style, 17) && Plain(r.detail, 29)
      && Plain(r.environment, 23) && Plain(r.shotType, 18)
  {
    MediumsPlain();
    ConditionsPlain();
    TimesOfDayPlain();
    AtmospheresPlain();
    StylesPlain();
    DetailsPlain();
    EnvironmentsPlain();
    ShotTypesPlain();
  }

  /** The style preset sent with the request: the one at the drawn index. */
  function PickStylePreset(i: nat): (preset: string)
    requires i < |StylePresets|
    ensures preset in StylePresets
  {
    StylePresets[i]
  }
}
