/**
 * One end-to-end run, as `main` performs it: sample the details, fill in the
 * selected template with the fixed subject, apply the length guard, pick a
 * style preset and handle the generation response.
 */
module Orchestrator {
  import opened Wrappers
  import opened Lexicon
  import opened Sampler
  import opened Templates
  import opened LengthGuard
  import opened Generation

  /** The subject of every run. */
  const PromptByTheUser := "Cat with a hat"

  /**
   * `main` followed by `fetchImageAndWriteToFile`. The random draws are
   * `draw` and `presetIndex`; `response` is what the generation endpoint
   * answered to the request carrying `finalPrompt` and `stylePreset`.
   */
  method Run(draw: Draw, presetIndex: nat, response: HttpResponse)
    returns (finalPrompt: string, stylePreset: string, plan: seq<FileWrite>, error: Option<GenerationError>)
    requires InRange(draw) && presetIndex < |StylePresets|
    ensures finalPrompt == Filled(NormalLayout, PromptByTheUser, GenerateDetails(draw))
    ensures |finalPrompt| <= MaxPromptLength && '[' !in finalPrompt
    ensures stylePreset == StylePresets[presetIndex] && stylePreset in StylePresets
    ensures Handled(response, plan, error)
    ensures forall i, j :: 0 <= i < j < |plan| ==> plan[i].path != plan[j].path
  {
    var details := GenerateDetails(draw);
    SubjectPromptFits(PromptByTheUser, draw);
    var rendered := GetFinalPrompt(PromptByTheUser, details);
    finalPrompt := rendered.value;
    finalPrompt := Truncate(finalPrompt);
    stylePreset := PickStylePreset(presetIndex);
    plan, error := HandleResponse(response);
  }

  /** The length of the `normal` template's text around its values. */
  lemma NormalLayoutLength()
    ensures |NormalLayout.afterInput| + |NormalLayout.afterEnvironment| + |NormalLayout.afterShotType|
      + |NormalLayout.afterMedium| + |NormalLayout.afterCondition| + |NormalLayout.afterTimesOfDay|
      + |NormalLayout.afterAtmosphere| + |NormalLayout.afterStyle| == 58
  {
  }

  /**
   * A subject of at most 185 characters with no `[` or `$` never reaches the
   * length guard: the longest phrases of the eight categories add 137
   * characters and the template's own text 58, so the filled template is at
   * most 380 long, is the template's text with the values in place, and the
   * guard leaves it as it is.
   */
  lemma SubjectPromptFits(prompt: string, draw: Draw)
    requires InRange(draw) && |prompt| <= 185 && '[' !in prompt && '$' !in prompt
    ensures var d := GenerateDetails(draw);
      && DollarFree(prompt, d)
      && GetFinalPrompt(prompt, d) == Ok(Filled(NormalLayout, prompt, d))
      && |Filled(NormalLayout, prompt, d)| <= MaxPromptLength
      && '[' !in Filled(NormalLayout, prompt, d)
      && Truncate(Filled(NormalLayout, prompt, d)) == Filled(NormalLayout, prompt, d)
  {
    var d := GenerateDetails(draw);
    SampledFieldsPlain(draw);
    FinalPromptIsNormalText(prompt, d);
    NormalLayoutLength();
  }

  /** Regrouping a concatenation of five strings. */
  lemma Regroup(x: string, a: string, b: string, c: string, e: string)
    ensures x + a + b + c + e == x + (a + b + c + e)
  {
  }

  /**
   * The draw that picks environment "in a cozy home", shot type "close up",
   * medium "sharp digital", condition "perfectly lit", time "dawn",
   * atmosphere "serene", style "noir" and detail "casting long shadows".
   */
  const ExampleDraw := Draw(medium := 1, condition := 2, timesOfDay := 3, atmosphere := 3,
                            style := 2, detail := 5, environment := 4, shotType := 1)

  const ExampleDetails := DetailsRecord(
    medium := "sharp digital", condition := "perfectly lit", timesOfDay := "dawn",
    atmosphere := "serene", style := "noir", detail := "casting long shadows",
    environment := "in a cozy home", shotType := "close up")

  lemma ExampleDrawPicks()
    ensures InRange(ExampleDraw) && GenerateDetails(ExampleDraw) == ExampleDetails
  {
  }

  /** The example's filled template, written in four pieces. */
  lemma ExampleText()
    ensures Filled(NormalLayout, PromptByTheUser, ExampleDetails) ==
      "Cat with a hat, in a cozy home, close up"
      + ", captured on sharp digital, perfectly lit"
      + ", during dawn, evoking a serene"
      + " mood, shot in noir, casting long shadows"
  {
    var c1 := "Cat with a hat, in a cozy home, close up";
    var c2 := ", captured on sharp digital, perfectly lit";
    var c3 := ", during dawn, evoking a serene";
    var c4 := " mood, shot in noir, casting long shadows";
    ExamplePiece1();
    ExamplePiece2();
    ExamplePiece3();
    ExamplePiece4();
    Regroup(c1, ", captured on ", "sharp digital", ", ", "perfectly lit");
    Regroup(c1 + c2, ", during ", "dawn", ", evoking a ", "serene");
    Regroup(c1 + c2 + c3, " mood, shot in ", "noir", ", ", "casting long shadows");
  }

  // The four pieces of the example text, each from its parts.

  lemma ExamplePiece1()
    ensures "Cat with a hat" + ", " + "in a cozy home" + ", " + "close up" == "Cat with a hat, in a cozy home, close up"
  {
  }

  lemma ExamplePiece2()
    ensures ", captured on " + "sharp digital" + ", " + "perfectly lit" == ", captured on sharp digital, perfectly lit"
  {
  }

  lemma ExamplePiece3()
    ensures ", during " + "dawn" + ", evoking a " + "serene" == ", during dawn, evoking a serene"
  {
  }

  lemma ExamplePiece4()
    ensures " mood, shot in " + "noir" + ", " + "casting long shadows" == " mood, shot in noir, casting long shadows"
  {
  }

  /**
   * The run with subject "Cat with a hat" and the example draw sends this
   * text, 154 characters long, uncut.
   */
  lemma CatWithAHatExample()
    ensures InRange(ExampleDraw) && GenerateDetails(ExampleDraw) == ExampleDetails
    ensures DollarFree(PromptByTheUser, ExampleDetails)
    ensures var prompt := Filled(NormalLayout, PromptByTheUser, ExampleDetails);
      && GetFinalPrompt(PromptByTheUser, ExampleDetails) == Ok(prompt)
      && Truncate(prompt) == prompt
      && |prompt| == 154
      && prompt ==
           "Cat with a hat, in a cozy home, close up"
           + ", captured on sharp digital, perfectly lit"
           + ", during dawn, evoking a serene"
           + " mood, shot in noir, casting long shadows"
  {
    ExampleDrawPicks();
    SubjectPromptFits(PromptByTheUser, ExampleDraw);
    ExampleText();
  }
}
