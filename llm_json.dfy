/**
 * Pulling a JSON object out of a model's answer: `re.search(r'\{.*\}', text, re.DOTALL)` finds the
 * span from the first `{` to the last `}` after it, across line breaks.
 */
module LlmJson {
  import opened Wrappers

  /** The index of the first `c` in `s`. */
  function FirstIndex(s: string, c: char): (r: Option<nat>)
    ensures r.Some? ==> r.value < |s|
  {
    if s == [] then None
    else if s[0] == c then Some(0)
    else match FirstIndex(s[1..], c)
      case None => None
      case Some(i) => Some(i + 1)
  }

  /** The index of the last `c` in `s`. */
  function LastIndex(s: string, c: char): (r: Option<nat>)
    ensures r.Some? ==> r.value < |s|
  {
    if s == [] then None
    else if s[|s| - 1] == c then Some(|s| - 1)
    else LastIndex(s[..|s| - 1], c)
  }

  /** The matched text: from the first `{` through the last `}`, when that `}` comes after it. */
  function BraceSpan(s: string): Option<string> {
    match FirstIndex(s, '{')
    case None => None
    case Some(i) =>
      match LastIndex(s, '}')
      case None => None
      case Some(j) => if j < i then None else Some(s[i..j + 1])
  }

  lemma {:induction false} FirstIndexShape(s: string, c: char)
    ensures FirstIndex(s, c).None? ==> forall k :: 0 <= k < |s| ==> s[k] != c
    ensures FirstIndex(s, c).Some? ==>
      s[FirstIndex(s, c).value] == c && forall k :: 0 <= k < FirstIndex(s, c).value ==> s[k] != c
  {
    if s != [] && s[0] != c {
      FirstIndexShape(s[1..], c);
      assert forall k :: 1 <= k < |s| ==> s[k] == s[1..][k - 1];
    }
  }

  lemma {:induction false} LastIndexShape(s: string, c: char)
    ensures LastIndex(s, c).None? ==> forall k :: 0 <= k < |s| ==> s[k] != c
    ensures LastIndex(s, c).Some? ==>
      s[LastIndex(s, c).value] == c && forall k :: LastIndex(s, c).value < k < |s| ==> s[k] != c
  {
    if s != [] && s[|s| - 1] != c {
      var init := s[..|s| - 1];
      LastIndexShape(init, c);
      assert forall k :: 0 <= k < |s| - 1 ==> s[k] == init[k];
    }
  }

  /**
   * There is a match exactly when some `{` comes before some `}`; the match then starts at the
   * first `{` of the text, ends at its last `}`, and holds everything in between.
   */
  lemma {:induction false} BraceSpanSpec(s: string)
    ensures BraceSpan(s).Some? <==> exists i, j :: 0 <= i < j < |s| && s[i] == '{' && s[j] == '}'
    ensures BraceSpan(s).Some? ==>
      exists i, j :: (0 <= i < j < |s| && s[i] == '{' && s[j] == '}' && BraceSpan(s).value == s[i..j + 1] &&
                      (forall k :: 0 <= k < i ==> s[k] != '{') && (forall k :: j < k < |s| ==> s[k] != '}'))
  {
    FirstIndexShape(s, '{');
    LastIndexShape(s, '}');
    if BraceSpan(s).Some? {
      var fi := FirstIndex(s, '{').value;
      var lj := LastIndex(s, '}').value;
      assert fi != lj;
      assert 0 <= fi < lj < |s| && s[fi] == '{' && s[lj] == '}' && BraceSpan(s).value == s[fi..lj + 1];
    } else {
      forall i, j | 0 <= i < j < |s| && s[i] == '{' ensures s[j] != '}' {
        assert FirstIndex(s, '{').Some? && FirstIndex(s, '{').value <= i;
      }
    }
  }
}
