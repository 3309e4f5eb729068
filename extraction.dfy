/** Finding the JSON object in the language model's reply: the greedy
    search for `\{[\s\S]*\}` and the "No valid JSON found" excerpt. */
module Extraction {
  import opened Results

  /** Index of the first `c` in `s`, or `|s|` when there is none. */
  function IndexOf(s: string, c: char): (i: nat)
    ensures i <= |s|
    ensures i < |s| ==> s[i] == c
    ensures forall k :: 0 <= k < i ==> s[k] != c
  {
    if s == [] then 0
    else if s[0] == c then 0
    else 1 + IndexOf(s[1..], c)
  }

  /** Index of the last `c` in `s`, or -1 when there is none. */
  function LastIndexOf(s: string, c: char): (j: int)
    ensures -1 <= j < |s|
    ensures j >= 0 ==> s[j] == c
    ensures forall k :: j < k < |s| ==> s[k] != c
  {
    if s == [] then -1
    else if s[|s| - 1] == c then |s| - 1
    else LastIndexOf(s[..|s| - 1], c)
  }

  /** `s[i..j]` is a match of `\{[\s\S]*\}`: an opening brace, anything,
      and a closing brace. */
  predicate IsMatch(s: string, i: int, j: int)
  {
    0 <= i && i + 2 <= j <= |s| && s[i] == '{' && s[j - 1] == '}'
  }

  /** The span `re.search` reports: the leftmost start at which the pattern
      matches, and at that start the longest match, because `*` is greedy. */
  function MatchSpan(s: string): (span: Option<(nat, nat)>)
    ensures span.Some? ==> IsMatch(s, span.value.0, span.value.1)
    ensures span.Some? ==>
      forall i, j :: IsMatch(s, i, j) ==> span.value.0 <= i && j <= span.value.1
    ensures span.None? <==> forall i, j :: !IsMatch(s, i, j)
  {
    var i := IndexOf(s, '{');
    var j := LastIndexOf(s, '}');
    if i < j then
      assert IsMatch(s, i, j + 1);
      Some((i, j + 1))
    else None
  }

  /** `re.search(r'\{[\s\S]*\}', s).group(0)`, or None when nothing matches. */
  function ExtractJson(s: string): (r: Option<string>)
    ensures r.Some? <==> exists i, j :: 0 <= i < j < |s| && s[i] == '{' && s[j] == '}'
    ensures r.Some? ==> MatchSpan(s).Some? && r.value == s[MatchSpan(s).value.0..MatchSpan(s).value.1]
    ensures r.Some? ==> |r.value| >= 2 && r.value[0] == '{' && r.value[|r.value| - 1] == '}'
  {
    match MatchSpan(s)
    case None =>
      assert forall i, j :: 0 <= i < j < |s| && s[i] == '{' && s[j] == '}' ==> IsMatch(s, i, j + 1);
      None
    case Some((i, j)) => Some(s[i..j])
  }

  /** The extracted text starts at the first `{` of the reply and ends at its
      last `}`. */
  lemma ExtractJsonBounds(s: string)
    requires ExtractJson(s).Some?
    ensures var (i, j) := MatchSpan(s).value;
      (forall k :: 0 <= k < i ==> s[k] != '{') && (forall k :: j <= k < |s| ==> s[k] != '}')
  {
  }

  /** `s[:n]` */
  function Take(s: string, n: nat): (r: string)
    ensures |r| == (if |s| < n then |s| else n)
    ensures r <= s
  {
    if |s| < n then s else s[..n]
  }
}
