/**
 * First-occurrence literal replacement, as `String.prototype.replace` does it
 * when its pattern is a string: the pattern is searched for from the start,
 * only its first occurrence is replaced, and a string without it comes back
 * unchanged.
 */
module StringReplace {
  import opened Wrappers

  /** `token` occurs in `s` starting at index `k`. */
  predicate OccursAt(s: string, token: string, k: nat)
  {
    k + |token| <= |s| && s[k..k + |token|] == token
  }

  /** `k` is where the first occurrence of `token` in `s` starts. */
  predicate FirstOccursAt(s: string, token: string, k: nat)
  {
    OccursAt(s, token, k) && forall j :: 0 <= j < k ==> !OccursAt(s, token, j)
  }

  /** The index of the first occurrence of `token` in `s` at or after `from`. */
  function FindFrom(s: string, token: string, from: nat): (r: Option<nat>)
    requires from <= |s|
    ensures r.Some? ==> from <= r.value && OccursAt(s, token, r.value)
    ensures r.Some? ==> forall j :: from <= j < r.value ==> !OccursAt(s, token, j)
    ensures r.None? ==> forall j :: from <= j ==> !OccursAt(s, token, j)
    decreases |s| - from
  {
    if from + |token| > |s| then None
    else if s[from..from + |token|] == token then Some(from)
    else FindFrom(s, token, from + 1)
  }

  /** `indexOf`: the first occurrence of `token` in `s`, if any. */
  function IndexOf(s: string, token: string): (r: Option<nat>)
    ensures r.Some? ==> FirstOccursAt(s, token, r.value)
    ensures r.None? <==> forall j :: !OccursAt(s, token, j)
  {
    FindFrom(s, token, 0)
  }

  /**
   * `s.replace(token, value)` with a string pattern. JavaScript reads `$`
   * sequences in `value` as patterns (`$&`, `$$`, ...); a value without `$` is
   * inserted literally, and that is the only case modelled here.
   */
  function ReplaceFirst(s: string, token: string, value: string): (r: string)
    requires '$' !in value
    ensures (forall j :: !OccursAt(s, token, j)) ==> r == s
    ensures forall k: nat :: FirstOccursAt(s, token, k) ==>
      r == s[..k] + value + s[k + |token|..] && |r| == |s| - |token| + |value|
  {
    match IndexOf(s, token)
    case None => s
    case Some(k) => s[..k] + value + s[k + |token|..]
  }

  /**
   * A token that starts with `[` is found right after a prefix that holds no
   * `[`: the replacement then splices the value exactly where the token was.
   */
  lemma ReplaceAfterBracketFree(a: string, token: string, b: string, value: string)
    requires '[' !in a && |token| > 0 && token[0] == '['
    requires '$' !in value
    ensures ReplaceFirst(a + token + b, token, value) == a + value + b
  {
    var s := a + token + b;
    assert s[|a|..|a| + |token|] == token;
    forall j | 0 <= j < |a|
      ensures !OccursAt(s, token, j)
    {
      assert s[j] == a[j] != '[';
    }
    assert FirstOccursAt(s, token, |a|);
    assert s[..|a|] == a && s[|a| + |token|..] == b;
  }

  /** A string without `[` holds no token that starts with `[`. */
  lemma AbsentWithoutBracket(s: string, token: string)
    requires |token| > 0 && token[0] == '['
    ensures '[' !in s ==> forall j :: !OccursAt(s, token, j)
  {
    if '[' !in s {
      forall j: nat
        ensures !OccursAt(s, token, j)
      {
        if j < |s| {
          MismatchAt(s, token, j, 0);
        }
      }
    }
  }

  /** A token that starts the string is the occurrence that is replaced. */
  lemma ReplaceAtStart(token: string, b: string, value: string)
    requires '$' !in value
    ensures ReplaceFirst(token + b, token, value) == value + b
  {
    var s := token + b;
    assert s[0..|token|] == token;
    assert FirstOccursAt(s, token, 0);
    assert s[|token|..] == b;
  }

  /**
   * A token that starts with `[` is found right after `pre + lead + a` when
   * the only `[` there opens `lead`, and `lead` does not begin this token.
   */
  lemma ReplacePastLead(pre: string, lead: string, a: string, token: string, b: string, value: string)
    requires '[' !in pre && |lead| > 0 && '[' !in lead[1..] && '[' !in a
    requires |token| > 0 && token[0] == '[' && '$' !in value
    requires !OccursAt(pre + lead + a + token + b, token, |pre|)
    ensures ReplaceFirst(pre + lead + a + token + b, token, value) == pre + lead + a + value + b
  {
    var s := pre + lead + a + token + b;
    var n := |pre + lead + a|;
    assert s[n..n + |token|] == token;
    forall j | 0 <= j < n
      ensures !OccursAt(s, token, j)
    {
      if j < |pre| {
        assert s[j] == pre[j] != '[';
      } else if |pre| < j < |pre| + |lead| {
        assert s[j] == lead[1..][j - |pre| - 1] != '[';
      } else if j >= |pre| + |lead| {
        assert s[j] == a[j - |pre| - |lead|] != '[';
      }
    }
    assert FirstOccursAt(s, token, n);
    assert s[..n] == pre + lead + a && s[n + |token|..] == b;
  }

  /** A single differing character rules out an occurrence. */
  lemma MismatchAt(s: string, token: string, i: nat, k: nat)
    requires k < |token| && i + k < |s| && s[i + k] != token[k]
    ensures !OccursAt(s, token, i)
  {
  }
}
