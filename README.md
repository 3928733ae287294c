# stable-diffusion-api-helper: prompt assembly, in Dafny

`index.js` builds a text prompt for the Stability AI text-to-image endpoint,
sends it, and writes the returned images to disk. This project models the
logic of that script and proves properties about it:

- **Detail sampling** (`generateDetails`). One phrase is picked from each of
  eight fixed word lists: medium, condition, time of day, atmosphere, style,
  detail, environment and shot type. A style preset is picked the same way.
  Each random draw is an index the caller supplies, bounded by the list's
  length (`Sampler.Draw`).
- **Template selection and lookup.** The selector always answers `normal`,
  and `PROMPT_TEMPLATES` holds that key.
- **Placeholder substitution** (`getFinalPrompt`). Nine chained
  `String.prototype.replace` calls run with string patterns. Each replaces
  only the first occurrence of its placeholder, in a fixed order, and each
  sees the output of the ones before it. `StringReplace.ReplaceFirst` models
  one call; `Templates.Render` composes the nine.
- **Length guard** in `main`. The prompt is cut to its first 380 characters.
- **Response handling** in `fetchImageAndWriteToFile`:
  - the checks on the HTTP status, the JSON body and its `artifacts` array;
  - then, for each artifact, stripping an anchored `data:image/jpeg;base64,`
    prefix and naming the file `./out/artifact-<i>.jpg`.

  The `forEach` loop over the artifacts is a method, `Generation.PlanWrites`.
  It returns the sequence of file writes it would issue.

The `normal` template is written as a `Templates.Layout`: the text between
consecutive placeholders. `Templates.Compose` rebuilds the template string
from it, character for character (`Templates.NormalTemplateText`). The
proofs then reason about the separators and do not need to compare long
string literals.

For the run with subject "Cat with a hat", the values the example draw
picks give this prompt:

"Cat with a hat, in a cozy home, close up, captured on sharp digital,
perfectly lit, during dawn, evoking a serene mood, shot in noir, casting
long shadows"

It is 154 characters long (`Orchestrator.CatWithAHatExample`).

Modules, one per file: `Wrappers` (Option, Result), `Lexicon` (the word
lists), `Sampler`, `StringReplace`, `Templates`, `LengthGuard`, `Decimal`
(the decimal rendering of the artifact index), `Generation` and
`Orchestrator` (one end-to-end run).

## Model

| member | source | states |
|---|---|---|
| `Lexicon.ConditionsPlain` | index.js:15 | the condition list has 6 phrases, none with `[` or `$`, each at most 13 long |
| `Lexicon.MediumsPlain` | index.js:16 | the medium list has 6 phrases, none with `[` or `$`, each at most 15 long |
| `Lexicon.TimesOfDayPlain` | index.js:17 | the time-of-day list has 8 phrases, none with `[` or `$`, each at most 11 long |
| `Lexicon.AtmospheresPlain` | index.js:18 | the atmosphere list has 7 phrases, none with `[` or `$`, each at most 11 long |
| `Lexicon.StylesPlain` | index.js:19 | the style list has 10 phrases, none with `[` or `$`, each at most 17 long |
| `Lexicon.DetailsPlainUpTo4` | index.js:20 | the first four detail phrases hold no `[` or `$` and are at most 29 long |
| `Lexicon.DetailsPlain` | index.js:20 | the detail list has 8 phrases, none with `[` or `$`, each at most 29 long |
| `Lexicon.EnvironmentsPlain` | index.js:21 | the environment list has 8 phrases, none with `[` or `$`, each at most 23 long |
| `Lexicon.ShotTypesPlain` | index.js:22 | the shot-type list has 10 phrases, none with `[` or `$`, each at most 18 long |
| `Sampler.GenerateDetails` | index.js:29-40 | with in-range draws, every field of the record is an element of its own word list |
| `Sampler.EveryRecordReachable` | index.js:29-40 | conversely, every record whose fields come from their lists is produced by some in-range draw |
| `Sampler.SampledFieldsPlain` | index.js:15-40 | every sampled field is free of `[` and `$` and within its list's length bound |
| `Sampler.PickStylePreset` | index.js:64 | an in-range draw yields one of the 17 style presets |
| `StringReplace.FindFrom` | index.js:50-58 | the search from a position finds the first occurrence at or after it, or reports that there is none |
| `StringReplace.IndexOf` | index.js:50-58 | the index found is that of the first occurrence; none is found exactly when the token occurs nowhere |
| `StringReplace.ReplaceFirst` | index.js:50-58 | an absent token leaves the string unchanged; otherwise the first occurrence at `k` is replaced, giving `s[..k] + value + s[k+|token|..]` of length `|s| - |token| + |value|` |
| `StringReplace.ReplaceAfterBracketFree` | index.js:50-58 | a token starting with `[` that follows `[`-free text is replaced where it stands |
| `StringReplace.AbsentWithoutBracket` | index.js:50-58 | text without `[` holds no occurrence of a token that starts with `[`, so such a replacement leaves it unchanged |
| `StringReplace.ReplaceAtStart` | index.js:50-58 | a token at the very start is the one replaced |
| `StringReplace.ReplacePastLead` | index.js:50-58 | a token that does not occur at a leading placeholder is replaced at its own place past it |
| `Templates.NormalTemplateText` | index.js:25-27 | the table holds `normal`, and its template is the text `[input], [environment], [shot_type], captured on [medium], [condition], during [times_of_day], evoking a [atmosphere] mood, shot in [style], [detail]` |
| `Templates.SelectTemplateKey` | index.js:42-45 | the selected key is present in the template table |
| `Templates.LookupTemplate` | index.js:25-27 | a lookup succeeds exactly for keys in the table, with that key's template; a missing key is reported by name |
| `Templates.Render` | index.js:49-58 | the nine first-occurrence replacements in source order; a template without any `[` holds no placeholder and comes back unchanged |
| `Templates.RenderTemplate` | index.js:47-60 | rendering fails exactly when the key is missing, and then with `TemplateNotFound` for that key |
| `Templates.GetFinalPrompt` | index.js:47-60 | filling the selected template never fails |
| `Templates.RenderComposed` | index.js:49-58 | when neither the values nor the template text hold `[`, the nine replacements put each value in its own placeholder's place, leaving no `[` |
| `Templates.FinalPromptIsNormalText` | index.js:26 | with `[`-free values the final prompt is `input, environment, shotType, captured on medium, condition, during timesOfDay, evoking a atmosphere mood, shot in style, detail` |
| `Templates.SubjectPlaceholderTakesStyle` | index.js:50-58 | order matters: a subject that is `[style]` receives the style value, and the template's own `[style]` stays in the text |
| `Templates.StyleSubjectInNormalTemplate` | index.js:47-60 | the same for the `normal` template as `getFinalPrompt` renders it |
| `LengthGuard.Truncate` | index.js:122-124 | the result is the prefix of the prompt of length `min(|s|, 380)` |
| `LengthGuard.TruncateKeepsShort` | index.js:122-124 | a prompt of at most 380 characters is left as it is |
| `LengthGuard.TruncateIdempotent` | index.js:122-124 | cutting twice is cutting once |
| `Decimal.NatToString` | index.js:103 | an index is written as at least one decimal digit, without a leading zero |
| `Decimal.ParseNatToString` | index.js:103 | reading the written digits back gives the index |
| `Decimal.NatToStringInjective` | index.js:103 | different indices are written differently |
| `Generation.CheckResponse` | index.js:89-98 | a status outside 200..299 is rejected with its status text; then an unparsable body is rejected; then the body is accepted exactly when `artifacts` exists and is an array, whose items are returned; otherwise the response is malformed |
| `Generation.FailedStatusIgnoresBody` | index.js:89-93 | a failed status is rejected whatever the body holds |
| `Generation.Payload` | index.js:101 | an artifact has a payload exactly when its `base64` field is a string, and the payload is that string |
| `Generation.StripDataUriPrefix` | index.js:102 | the result is a suffix of the input, shorter by the prefix's length exactly when the input starts with the prefix |
| `Generation.StripRestores` | index.js:102 | putting the prefix back in front of a stripped payload restores the input |
| `Generation.StripOnlyOnce` | index.js:102 | only the leading copy of the prefix is removed |
| `Generation.ArtifactPathShape` | index.js:103 | the file name is `./out/artifact-`, then decimal digits that read back as the index, then `.jpg` |
| `Generation.ArtifactPathInjective` | index.js:103 | different artifact indices give different file names |
| `Generation.WriteFor` | index.js:101-103 | the write for artifact `i` goes to that artifact's file and carries the payload without its data-URI prefix: putting the prefix back restores the payload, and a payload without it is written as it is |
| `Generation.PlanWrites` | index.js:100-108 | one write per artifact in order: write `i` goes to `./out/artifact-i.jpg` with artifact `i`'s stripped payload; the plan covers every artifact exactly when all payloads are strings, else it stops at the first bad artifact; file names are pairwise distinct |
| `Generation.HandleResponse` | index.js:95-112 | a rejected response issues no write and reports its error; an accepted one is handled as `PlanWrites` describes, a bad artifact ending the handling with `BadArtifact` |
| `Generation.SingleArtifactExample` | index.js:96-103 | a one-artifact response with a prefixed payload is accepted and written to `./out/artifact-0.jpg` without the prefix |
| `Orchestrator.Run` | index.js:115-128 | a run sends the filled `normal` template for the sampled details, at most 380 characters and with no `[`, with the style preset at the drawn index, and handles the response as `HandleResponse` states |
| `Orchestrator.NormalLayoutLength` | index.js:26 | the `normal` template's text around its values is 58 characters long |
| `Orchestrator.SubjectPromptFits` | index.js:116-124 | a subject of at most 185 characters with no `[` or `$` renders to the template's text with the values in place, is at most 380 long, and is not cut |
| `Orchestrator.ExampleDrawPicks` | index.js:29-40 | the example draw is in range and picks the example's phrases |
| `Orchestrator.ExampleText` | index.js:26 | the example's filled template is the expected text |
| `Orchestrator.CatWithAHatExample` | index.js:116-124 | the run with "Cat with a hat" and the example draw sends that text, 154 characters long, uncut |

## Left out

- The HTTP request is not modelled: endpoint, headers, API key and the JSON
  body with `cfg_scale`, `weight: 0.5`, size and steps (index.js:66-88). It
  is I/O with a remote service. `Orchestrator.Run` takes the response as a
  parameter.
- `fs.writeFile` and Node's base64 decoding are not modelled
  (index.js:103-107). The model stops at the sequence of writes that would be
  issued. A failing write is only logged by the source and changes nothing
  the model tracks.
- Logging is left out (index.js:105, 111, 126, 130), as are the `dotenv`
  load and the missing-key check (index.js:3, 7-9).
- `Math.random` is not modelled. Each draw is a caller-supplied index below
  the list's length, which is the range `Math.floor(Math.random() * len)`
  takes.
- Promise sequencing is not modelled. In the source the writes are fire and
  forget, and `main` does not wait for the request. Only the outcome of each
  step is kept.
- A `response.json()` that rejects is modelled as a body of `None`. A JSON
  `null` body makes the source throw a `TypeError` rather than its own
  message. Both end in the same `catch`, and the model reports
  `MalformedResponse`.
- An artifact without a string `base64` makes the source throw inside
  `forEach`. The writes issued before it stand and the rest are skipped. The
  model reports this as `BadArtifact` at that index.
- `response.ok` is modelled as a status from 200 to 299, the range that
  property tests. The error message says "Non-200".
- `StringReplace.ReplaceFirst`: the special replacement patterns of
  JavaScript's `replace` (`$&`, `` $` ``, `$'`, `$$`) are not modelled. The
  function requires a value without `$`. Every word-list phrase is `$`-free
  (`Lexicon`), so only a subject holding `$` falls outside the model.
- Lengths count Dafny characters. JavaScript's `length` and `substring`
  count UTF-16 code units. The two agree on every word-list phrase and on
  the fixed subject, but not on a subject outside the Basic Multilingual
  Plane.
- The `normal` template is given through `Templates.Layout` and
  `Templates.Compose`. The text is the same as the source's string literal.
