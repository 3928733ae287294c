/** The length guard applied to the final prompt before it is sent. */
module LengthGuard {

  /** The longest prompt that is sent, in characters. */
  const MaxPromptLength := 380

  function Min(a: int, b: int): int
  {
    if a <= b then a else b
  }

  /**
   * `if (finalPrompt.length > 380) finalPrompt = finalPrompt.substring(0, 380)`:
   * the prompt is cut to its first 380 characters, with no regard for words.
   */
  function Truncate(s: string): (r: string)
    ensures |r| == Min(|s|, MaxPromptLength)
    ensures r == s[..|r|]
  {
    if |s| > MaxPromptLength then s[..MaxPromptLength] else s
  }

  /** A prompt that already fits is left as it is. */
  lemma TruncateKeepsShort(s: string)
    requires |s| <= MaxPromptLength
    ensures Truncate(s) == s
  {
  }

  /** Cutting twice is cutting once. */
  lemma TruncateIdempotent(s: string)
    ensures Truncate(Truncate(s)) == Truncate(s)
  {
  }
}
