/**
 * The prompt template engine: a table of named templates, a selector that
 * picks a template key, and the nine chained first-occurrence replacements
 * that fill the placeholders of the chosen template.
 */
module Templates {
  import opened Wrappers
  import opened StringReplace
  import opened Sampler

  /**
   * The text between consecutive placeholders of a template whose nine
   * placeholders appear once each, in the order the replacements run.
   */
  datatype Layout = Layout(
    afterInput: string,
    afterEnvironment: string,
    afterShotType: string,
    afterMedium: string,
    afterCondition: string,
    afterTimesOfDay: string,
    afterAtmosphere: string,
    afterStyle: string)

  /** A placeholder followed by the text up to the next one, then the rest. */
  function Slot(token: string, after: string, rest: string): string
  {
    token + (after + rest)
  }

  /** The template text of a layout: `[input]`, its text, `[environment]`, ... `[detail]`. */
  function Compose(l: Layout): string
  {
    Slot("[input]", l.afterInput,
    Slot("[environment]", l.afterEnvironment,
    Slot("[shot_type]", l.afterShotType,
    Slot("[medium]", l.afterMedium,
    Slot("[condition]", l.afterCondition,
    Slot("[times_of_day]", l.afterTimesOfDay,
    Slot("[atmosphere]", l.afterAtmosphere,
    Slot("[style]", l.afterStyle,
    "[detail]"))))))))
  }

  /**
   * The `normal` template, "[input], [environment], [shot_type], captured on
   * [medium], [condition], during [times_of_day], evoking a [atmosphere] mood,
   * shot in [style], [detail]", given by the text between its placeholders.
   */
  const NormalLayout := Layout(", ", ", ", ", captured on ", ", ", ", during ", ", evoking a ", " mood, shot in ", ", ")

  const NormalKey := "normal"

  /** The template table: one template, under the key `normal`. */
  const PromptTemplates: map<string, string> := map[NormalKey := Compose(NormalLayout)]

  /** The `normal` template is the text of the source's table, written in four pieces. */
  lemma NormalTemplateText()
    ensures NormalKey in PromptTemplates
    ensures PromptTemplates[NormalKey] ==
      "[input], [environment], "
      + "[shot_type], captured on [medium], "
      + "[condition], during [times_of_day], evoking a "
      + "[atmosphere] mood, shot in [style], [detail]"
  {
    var k1 := "[input], [environment], ";
    var k2 := "[shot_type], captured on [medium], ";
    var k3 := "[condition], during [times_of_day], evoking a ";
    var k4 := "[atmosphere] mood, shot in [style], [detail]";
    var r4 := Slot("[atmosphere]", " mood, shot in ", Slot("[style]", ", ", "[detail]"));
    var r3 := Slot("[condition]", ", during ", Slot("[times_of_day]", ", evoking a ", r4));
    var r2 := Slot("[shot_type]", ", captured on ", Slot("[medium]", ", ", r3));
    var r1 := Slot("[input]", ", ", Slot("[environment]", ", ", r2));
    assert Compose(NormalLayout) == r1;
    TwoSlots("[atmosphere]", " mood, shot in ", "[style]", ", ", "[detail]");
    TwoSlots("[condition]", ", during ", "[times_of_day]", ", evoking a ", r4);
    TwoSlots("[shot_type]", ", captured on ", "[medium]", ", ", r3);
    TwoSlots("[input]", ", ", "[environment]", ", ", r2);
    TemplatePiece1();
    TemplatePiece2();
    TemplatePiece3();
    TemplatePiece4();
    assert r1 == k1 + (k2 + (k3 + k4));
    Regroup4(k1, k2, k3, k4);
  }

  /** Two placeholders with their texts, then the rest. */
  lemma TwoSlots(t1: string, a1: string, t2: string, a2: string, rest: string)
    ensures Slot(t1, a1, Slot(t2, a2, rest)) == t1 + a1 + t2 + a2 + rest
  {
  }

  lemma Regroup4(a: string, b: string, c: string, e: string)
    ensures a + (b + (c + e)) == a + b + c + e
  {
  }

  // The four pieces of the `normal` template, each from its placeholders and texts.

  lemma TemplatePiece1()
    ensures "[input]" + ", " + "[environment]" + ", " == "[input], [environment], "
  {
  }

  lemma TemplatePiece2()
    ensures "[shot_type]" + ", captured on " + "[medium]" + ", " == "[shot_type], captured on [medium], "
  {
  }

  lemma TemplatePiece3()
    ensures "[condition]" + ", during " + "[times_of_day]" + ", evoking a "
         == "[condition], during [times_of_day], evoking a "
  {
  }

  lemma TemplatePiece4()
    ensures "[atmosphere]" + " mood, shot in " + "[style]" + ", " + "[detail]"
         == "[atmosphere] mood, shot in [style], [detail]"
  {
  }

  datatype PromptError = TemplateNotFound(key: string)

  /**
   * Decides which template to use. It always answers `normal`; it is kept as
   * a separate step so that other policies can be put in its place.
   */
  function SelectTemplateKey(): (key: string)
    ensures key in PromptTemplates
  {
    NormalKey
  }

  /** Reads a template from the table; an unknown key is an error. */
  function LookupTemplate(key: string): (r: Result<string, PromptError>)
    ensures r.Ok? <==> key in PromptTemplates
    ensures r.Ok? ==> r.value == PromptTemplates[key]
    ensures r.Err? ==> r.error == TemplateNotFound(key)
  {
    if key in PromptTemplates then Ok(PromptTemplates[key]) else Err(TemplateNotFound(key))
  }

  /** No value to be substituted holds a `$`. */
  predicate DollarFree(prompt: string, d: DetailsRecord)
  {
    && '$' !in prompt && '$' !in d.environment && '$' !in d.shotType
    && '$' !in d.medium && '$' !in d.condition && '$' !in d.timesOfDay
    && '$' !in d.atmosphere && '$' !in d.style && '$' !in d.detail
  }

  /** No detail value holds a `[`. */
  predicate DetailsBracketFree(d: DetailsRecord)
  {
    && '[' !in d.environment && '[' !in d.shotType
    && '[' !in d.medium && '[' !in d.condition && '[' !in d.timesOfDay
    && '[' !in d.atmosphere && '[' !in d.style && '[' !in d.detail
  }

  /** No value to be substituted holds a `[`. */
  predicate BracketFree(prompt: string, d: DetailsRecord)
  {
    '[' !in prompt && DetailsBracketFree(d)
  }

  /**
   * The nine replacements, in source order; each sees the previous ones'
   * output. A template without any `[` holds no placeholder and comes back
   * as it is.
   */
  function Render(template: string, prompt: string, d: DetailsRecord): (r: string)
    requires DollarFree(prompt, d)
    ensures '[' !in template ==> r == template
  {
    PlaceholdersAbsent(template);
    var s1 := ReplaceFirst(template, "[input]", prompt);
    var s2 := ReplaceFirst(s1, "[environment]", d.environment);
    var s3 := ReplaceFirst(s2, "[shot_type]", d.shotType);
    var s4 := ReplaceFirst(s3, "[medium]", d.medium);
    var s5 := ReplaceFirst(s4, "[condition]", d.condition);
    var s6 := ReplaceFirst(s5, "[times_of_day]", d.timesOfDay);
    var s7 := ReplaceFirst(s6, "[atmosphere]", d.atmosphere);
    var s8 := ReplaceFirst(s7, "[style]", d.style);
    ReplaceFirst(s8, "[detail]", d.detail)
  }

  /** Text without `[` holds none of the nine placeholders. */
  lemma PlaceholdersAbsent(s: string)
    ensures '[' !in s ==>
      && (forall j :: !OccursAt(s, "[input]", j))
      && (forall j :: !OccursAt(s, "[environment]", j))
      && (forall j :: !OccursAt(s, "[shot_type]", j))
      && (forall j :: !OccursAt(s, "[medium]", j))
      && (forall j :: !OccursAt(s, "[condition]", j))
      && (forall j :: !OccursAt(s, "[times_of_day]", j))
      && (forall j :: !OccursAt(s, "[atmosphere]", j))
      && (forall j :: !OccursAt(s, "[style]", j))
      && (forall j :: !OccursAt(s, "[detail]", j))
  {
    AbsentWithoutBracket(s, "[input]");
    AbsentWithoutBracket(s, "[environment]");
    AbsentWithoutBracket(s, "[shot_type]");
    AbsentWithoutBracket(s, "[medium]");
    AbsentWithoutBracket(s, "[condition]");
    AbsentWithoutBracket(s, "[times_of_day]");
    AbsentWithoutBracket(s, "[atmosphere]");
    AbsentWithoutBracket(s, "[style]");
    AbsentWithoutBracket(s, "[detail]");
  }

  /** Looks up the template under `key` and fills it in. */
  function RenderTemplate(key: string, prompt: string, d: DetailsRecord): (r: Result<string, PromptError>)
    requires DollarFree(prompt, d)
    ensures r.Err? <==> key !in PromptTemplates
    ensures r.Err? ==> r.error == TemplateNotFound(key)
  {
    match LookupTemplate(key)
    case Err(e) => Err(e)
    case Ok(template) => Ok(Render(template, prompt, d))
  }

  /** `getFinalPrompt`: the selected template, filled in. */
  function GetFinalPrompt(prompt: string, d: DetailsRecord): (r: Result<string, PromptError>)
    requires DollarFree(prompt, d)
    ensures r.Ok?
  {
    RenderTemplate(SelectTemplateKey(), prompt, d)
  }

  /** What a template of layout `l` reads as once every placeholder is filled. */
  function Filled(l: Layout, prompt: string, d: DetailsRecord): string
  {
    prompt + l.afterInput + d.environment + l.afterEnvironment + d.shotType + l.afterShotType
      + d.medium + l.afterMedium + d.condition + l.afterCondition + d.timesOfDay
      + l.afterTimesOfDay + d.atmosphere + l.afterAtmosphere + d.style + l.afterStyle + d.detail
  }

  /** No text between placeholders holds a `[`. */
  predicate LayoutBracketFree(l: Layout)
  {
    && '[' !in l.afterInput && '[' !in l.afterEnvironment && '[' !in l.afterShotType
    && '[' !in l.afterMedium && '[' !in l.afterCondition && '[' !in l.afterTimesOfDay
    && '[' !in l.afterAtmosphere && '[' !in l.afterStyle
  }

  /**
   * Filling the slot of `token`, when nothing before it holds a `[`: the value
   * takes the token's place and the rest is untouched.
   */
  lemma FillSlot(done: string, token: string, after: string, rest: string, value: string)
    requires '[' !in done && |token| > 0 && token[0] == '[' && '$' !in value
    ensures ReplaceFirst(done + Slot(token, after, rest), token, value) == done + value + after + rest
  {
    assert done + value + (after + rest) == done + value + after + rest;
    assert done + Slot(token, after, rest) == done + token + (after + rest);
    ReplaceAfterBracketFree(done, token, after + rest, value);
  }

  /**
   * When no substituted value and no template text holds a `[`, each of the
   * nine replacements fills its own placeholder where it stands: the result
   * is the template's text with the values in place, and no `[` is left.
   */
  lemma RenderComposed(l: Layout, prompt: string, d: DetailsRecord)
    requires LayoutBracketFree(l) && BracketFree(prompt, d) && DollarFree(prompt, d)
    ensures Render(Compose(l), prompt, d) == Filled(l, prompt, d)
    ensures '[' !in Render(Compose(l), prompt, d)
  {
    var r9 := "[detail]";
    var r8 := Slot("[style]", l.afterStyle, r9);
    var r7 := Slot("[atmosphere]", l.afterAtmosphere, r8);
    var r6 := Slot("[times_of_day]", l.afterTimesOfDay, r7);
    var r5 := Slot("[condition]", l.afterCondition, r6);
    var r4 := Slot("[medium]", l.afterMedium, r5);
    var r3 := Slot("[shot_type]", l.afterShotType, r4);
    var r2 := Slot("[environment]", l.afterEnvironment, r3);
    ReplaceAtStart("[input]", l.afterInput + r2, prompt);
    var s1 := ReplaceFirst(Compose(l), "[input]", prompt);
    var a1 := prompt + l.afterInput;
    assert s1 == a1 + r2;
    FillSlot(a1, "[environment]", l.afterEnvironment, r3, d.environment);
    var s2 := ReplaceFirst(s1, "[environment]", d.environment);
    var a2 := a1 + d.environment + l.afterEnvironment;
    assert s2 == a2 + r3;
    FillSlot(a2, "[shot_type]", l.afterShotType, r4, d.shotType);
    var s3 := ReplaceFirst(s2, "[shot_type]", d.shotType);
    var a3 := a2 + d.shotType + l.afterShotType;
    assert s3 == a3 + r4;
    FillSlot(a3, "[medium]", l.afterMedium, r5, d.medium);
    var s4 := ReplaceFirst(s3, "[medium]", d.medium);
    var a4 := a3 + d.medium + l.afterMedium;
    assert s4 == a4 + r5;
    FillSlot(a4, "[condition]", l.afterCondition, r6, d.condition);
    var s5 := ReplaceFirst(s4, "[condition]", d.condition);
    var a5 := a4 + d.condition + l.afterCondition;
    assert s5 == a5 + r6;
    FillSlot(a5, "[times_of_day]", l.afterTimesOfDay, r7, d.timesOfDay);
    var s6 := ReplaceFirst(s5, "[times_of_day]", d.timesOfDay);
    var a6 := a5 + d.timesOfDay + l.afterTimesOfDay;
    assert s6 == a6 + r7;
    FillSlot(a6, "[atmosphere]", l.afterAtmosphere, r8, d.atmosphere);
    var s7 := ReplaceFirst(s6, "[atmosphere]", d.atmosphere);
    var a7 := a6 + d.atmosphere + l.afterAtmosphere;
    assert s7 == a7 + r8;
    FillSlot(a7, "[style]", l.afterStyle, r9, d.style);
    var s8 := ReplaceFirst(s7, "[style]", d.style);
    var a8 := a7 + d.style + l.afterStyle;
    assert s8 == a8 + r9;
    ReplaceAfterBracketFree(a8, "[detail]", [], d.detail);
    assert a8 + "[detail]" + [] == s8;
    var s9 := ReplaceFirst(s8, "[detail]", d.detail);
    assert s9 == a8 + d.detail + [];
    assert s9 == Filled(l, prompt, d);
  }

  /**
   * `getFinalPrompt` never fails, and with bracket-free values it yields the
   * `normal` template's text with each placeholder replaced by its value.
   */
  lemma FinalPromptIsNormalText(prompt: string, d: DetailsRecord)
    requires BracketFree(prompt, d) && DollarFree(prompt, d)
    ensures GetFinalPrompt(prompt, d) == Ok(Filled(NormalLayout, prompt, d))
    ensures '[' !in Filled(NormalLayout, prompt, d)
  {
    assert LayoutBracketFree(NormalLayout);
    RenderComposed(NormalLayout, prompt, d);
  }

  /**
   * The replacements run in order on one string, so a placeholder brought in
   * by the subject is seen by the later steps. A subject that is `[style]`
   * itself receives the style value, being the first `[style]` in the text,
   * and the template's own `[style]` is left in the prompt.
   */
  lemma SubjectPlaceholderTakesStyle(l: Layout, d: DetailsRecord)
    requires LayoutBracketFree(l) && DetailsBracketFree(d) && DollarFree("[style]", d)
    ensures Render(Compose(l), "[style]", d) == Filled(l, d.style, d.(style := "[style]"))
  {
    var lead := "[style]";
    PlaceholdersDifferFromStyle();
    var r9 := "[detail]";
    var r8 := Slot("[style]", l.afterStyle, r9);
    var r7 := Slot("[atmosphere]", l.afterAtmosphere, r8);
    var r6 := Slot("[times_of_day]", l.afterTimesOfDay, r7);
    var r5 := Slot("[condition]", l.afterCondition, r6);
    var r4 := Slot("[medium]", l.afterMedium, r5);
    var r3 := Slot("[shot_type]", l.afterShotType, r4);
    var r2 := Slot("[environment]", l.afterEnvironment, r3);
    ReplaceAtStart("[input]", l.afterInput + r2, lead);
    var s1 := ReplaceFirst(Compose(l), "[input]", lead);
    var a1 := l.afterInput;
    assert s1 == lead + (a1 + r2);
    LeadStep(lead, a1, "[environment]", l.afterEnvironment, r3, d.environment);
    var s2 := ReplaceFirst(s1, "[environment]", d.environment);
    var a2 := a1 + d.environment + l.afterEnvironment;
    assert s2 == lead + (a2 + r3);
    LeadStep(lead, a2, "[shot_type]", l.afterShotType, r4, d.shotType);
    var s3 := ReplaceFirst(s2, "[shot_type]", d.shotType);
    var a3 := a2 + d.shotType + l.afterShotType;
    assert s3 == lead + (a3 + r4);
    LeadStep(lead, a3, "[medium]", l.afterMedium, r5, d.medium);
    var s4 := ReplaceFirst(s3, "[medium]", d.medium);
    var a4 := a3 + d.medium + l.afterMedium;
    assert s4 == lead + (a4 + r5);
    LeadStep(lead, a4, "[condition]", l.afterCondition, r6, d.condition);
    var s5 := ReplaceFirst(s4, "[condition]", d.condition);
    var a5 := a4 + d.condition + l.afterCondition;
    assert s5 == lead + (a5 + r6);
    LeadStep(lead, a5, "[times_of_day]", l.afterTimesOfDay, r7, d.timesOfDay);
    var s6 := ReplaceFirst(s5, "[times_of_day]", d.timesOfDay);
    var a6 := a5 + d.timesOfDay + l.afterTimesOfDay;
    assert s6 == lead + (a6 + r7);
    LeadStep(lead, a6, "[atmosphere]", l.afterAtmosphere, r8, d.atmosphere);
    var s7 := ReplaceFirst(s6, "[atmosphere]", d.atmosphere);
    var a7 := a6 + d.atmosphere + l.afterAtmosphere;
    assert s7 == lead + (a7 + r8);
    ReplaceAtStart(lead, a7 + r8, d.style);
    var s8 := ReplaceFirst(s7, "[style]", d.style);
    Assoc(d.style, a7, r8);
    assert s8 == (d.style + a7) + (lead + (l.afterStyle + "[detail]"));
    DetailAfterLead(d.style + a7, lead, l.afterStyle, d.detail);
    StyleFirst(l, d);
  }

  /** Each placeholder replaced before `[style]` differs from it near the front. */
  lemma PlaceholdersDifferFromStyle()
    ensures |"[style]"| > 2 && "[style]"[0] == '[' && '[' !in "[style]"[1..]
    ensures "[environment]"[1] != "[style]"[1] && "[shot_type]"[2] != "[style]"[2]
    ensures "[medium]"[1] != "[style]"[1] && "[condition]"[1] != "[style]"[1]
    ensures "[times_of_day]"[1] != "[style]"[1] && "[atmosphere]"[1] != "[style]"[1]
  {
  }

  lemma Assoc(x: string, y: string, z: string)
    ensures x + (y + z) == x + y + z
  {
  }

  /** The last replacement, when a `[style]` is still in the text before `[detail]`. */
  lemma DetailAfterLead(pre: string, lead: string, after: string, value: string)
    requires '[' !in pre && |lead| > 1 && lead[0] == '[' && lead[1] != 'd' && '[' !in lead[1..]
    requires '[' !in after && '$' !in value
    ensures ReplaceFirst(pre + (lead + (after + "[detail]")), "[detail]", value) == pre + lead + after + value
  {
    assert pre + lead + after + value + [] == pre + lead + after + value;
    var s := pre + lead + after + "[detail]" + [];
    assert pre + (lead + (after + "[detail]")) == s;
    MismatchAt(s, "[detail]", |pre|, 1);
    ReplacePastLead(pre, lead, after, "[detail]", [], value);
  }

  /** Regrouping: the style value followed by the text after `[input]` up to `[style]`. */
  lemma StyleFirst(l: Layout, d: DetailsRecord)
    ensures d.style + (l.afterInput + d.environment + l.afterEnvironment + d.shotType + l.afterShotType
                       + d.medium + l.afterMedium + d.condition + l.afterCondition + d.timesOfDay
                       + l.afterTimesOfDay + d.atmosphere + l.afterAtmosphere)
         == d.style + l.afterInput + d.environment + l.afterEnvironment + d.shotType + l.afterShotType
            + d.medium + l.afterMedium + d.condition + l.afterCondition + d.timesOfDay
            + l.afterTimesOfDay + d.atmosphere + l.afterAtmosphere
  {
    var a1 := l.afterInput;
    var a2 := a1 + d.environment + l.afterEnvironment;
    var a3 := a2 + d.shotType + l.afterShotType;
    var a4 := a3 + d.medium + l.afterMedium;
    var a5 := a4 + d.condition + l.afterCondition;
    var a6 := a5 + d.timesOfDay + l.afterTimesOfDay;
    Shift(d.style, a1, d.environment, l.afterEnvironment);
    Shift(d.style, a2, d.shotType, l.afterShotType);
    Shift(d.style, a3, d.medium, l.afterMedium);
    Shift(d.style, a4, d.condition, l.afterCondition);
    Shift(d.style, a5, d.timesOfDay, l.afterTimesOfDay);
    Shift(d.style, a6, d.atmosphere, l.afterAtmosphere);
  }

  lemma Shift(x: string, y: string, v: string, w: string)
    ensures x + (y + v + w) == x + y + v + w
  {
  }

  /**
   * With the `normal` template, a subject reading `[style]` is turned into the
   * style value, and the prompt keeps a literal `[style]` where the style goes.
   */
  lemma StyleSubjectInNormalTemplate(d: DetailsRecord)
    requires DetailsBracketFree(d) && DollarFree("[style]", d)
    ensures GetFinalPrompt("[style]", d) == Ok(Filled(NormalLayout, d.style, d.(style := "[style]")))
  {
    assert LayoutBracketFree(NormalLayout);
    SubjectPlaceholderTakesStyle(NormalLayout, d);
  }

  /**
   * One replacement behind a leading placeholder `lead`: a token that differs
   * from `lead` in its second or third character is found past the lead.
   */
  lemma LeadStep(lead: string, a: string, token: string, after: string, rest: string, value: string)
    requires |lead| > 2 && lead[0] == '[' && '[' !in lead[1..] && '[' !in a && '$' !in value
    requires |token| > 2 && token[0] == '[' && (token[1] != lead[1] || token[2] != lead[2])
    ensures ReplaceFirst(lead + (a + Slot(token, after, rest)), token, value)
         == lead + (a + value + after + rest)
  {
    assert lead + a + value + (after + rest) == lead + (a + value + after + rest);
    var s := lead + a + token + (after + rest);
    assert [] + lead == lead;
    assert lead + (a + Slot(token, after, rest)) == s;
    assert s[1] == lead[1] && s[2] == lead[2];
    if token[1] != lead[1] {
      MismatchAt(s, token, 0, 1);
    } else {
      MismatchAt(s, token, 0, 2);
    }
    ReplacePastLead([], lead, a, token, after + rest, value);
  }
}
