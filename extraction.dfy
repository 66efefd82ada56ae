/**
  Locating the JSON object in a model's free-form answer.

  Both stages run `content.match(/\{[\s\S]*\}/)`: the pattern is greedy and
  its middle part matches any character, so the leftmost possible match starts
  at the first `{` and, after backtracking, ends at the last `}` of the whole
  text, provided some `}` follows that first `{`. The research stage then
  applies `String.prototype.trim` to the match.
 */
module Extraction {
  import opened Wrappers

  /** The index of the first occurrence of `c`, if any. */
  function IndexOfFirst(s: string, c: char): (r: Option<nat>)
    ensures r.None? <==> (forall k :: 0 <= k < |s| ==> s[k] != c)
    ensures r.Some? ==> r.value < |s| && s[r.value] == c
    ensures r.Some? ==> forall k :: 0 <= k < r.value ==> s[k] != c
  {
    if s == [] then None
    else if s[0] == c then Some(0)
    else
      match IndexOfFirst(s[1..], c)
      case None => None
      case Some(i) => Some(i + 1)
  }

  /** The index of the last occurrence of `c`, if any. */
  function IndexOfLast(s: string, c: char): (r: Option<nat>)
    ensures r.None? <==> (forall k :: 0 <= k < |s| ==> s[k] != c)
    ensures r.Some? ==> r.value < |s| && s[r.value] == c
    ensures r.Some? ==> forall k :: r.value < k < |s| ==> s[k] != c
  {
    if s == [] then None
    else if s[|s| - 1] == c then Some(|s| - 1)
    else IndexOfLast(s[..|s| - 1], c)
  }

  /** Some `{` is followed, somewhere later, by a `}`: the condition for the pattern to match at all. */
  predicate HasBracePair(s: string) {
    exists i, j :: 0 <= i < j < |s| && s[i] == '{' && s[j] == '}'
  }

  /** The positions of the opening and the closing brace of a match. */
  datatype Span = Span(first: nat, last: nat)

  /**
    Where the regular expression matches: from the first `{` to the last `}`.
    There is no match exactly when no `}` follows the first `{`, which
    includes a text without any `{`.
   */
  function BraceSpan(content: string): (r: Option<Span>)
    ensures r.None? <==> !HasBracePair(content)
    ensures r.Some? ==> r.value.first < r.value.last < |content|
    ensures r.Some? ==> content[r.value.first] == '{' && content[r.value.last] == '}'
    ensures r.Some? ==> forall k :: 0 <= k < r.value.first ==> content[k] != '{'
    ensures r.Some? ==> forall k :: r.value.last < k < |content| ==> content[k] != '}'
  {
    match (IndexOfFirst(content, '{'), IndexOfLast(content, '}'))
    case (Some(i), Some(j)) =>
      if i < j then Some(Span(i, j))
      else
        assert !HasBracePair(content) by {
          forall a, b | 0 <= a < b < |content| && content[a] == '{' ensures content[b] != '}' {
            assert i <= a;
          }
        }
        None
    case _ => None
  }

  /**
    `content.match(/\{[\s\S]*\}/)?.[0]`: when there is a match, it is the
    piece of the content from the first `{` to the last `}`, so it starts
    with `{` and ends with `}`.
   */
  function MatchBraces(content: string): (r: Option<string>)
    ensures r.None? <==> !HasBracePair(content)
    ensures r.Some? ==> |r.value| >= 2 && r.value[0] == '{' && r.value[|r.value| - 1] == '}'
    ensures r.Some? ==> r.value == content[BraceSpan(content).value.first..BraceSpan(content).value.last + 1]
  {
    match BraceSpan(content)
    case None => None
    case Some(sp) => Some(content[sp.first..sp.last + 1])
  }

  /**
    The match is a contiguous piece of the content: the content is the prose
    before it, which holds no `{`, then the match, then the prose after it,
    which holds no `}`.
   */
  lemma MatchSplitsContent(content: string)
    requires MatchBraces(content).Some?
    ensures
      var sp := BraceSpan(content).value;
      && content == content[..sp.first] + MatchBraces(content).value + content[sp.last + 1..]
      && '{' !in content[..sp.first]
      && '}' !in content[sp.last + 1..]
  {
  }

  /**
    A JSON object embedded in prose is recovered exactly, provided the prose
    before it holds no `{` and the prose after it holds no `}`.
   */
  lemma EmbeddedObjectRecovered(pre: string, obj: string, post: string)
    requires |obj| >= 2 && obj[0] == '{' && obj[|obj| - 1] == '}'
    requires '{' !in pre && '}' !in post
    ensures MatchBraces(pre + obj + post) == Some(obj)
  {
    var content := pre + obj + post;
    assert content[|pre|] == '{' && content[|pre| + |obj| - 1] == '}';
    assert HasBracePair(content);
    var sp := BraceSpan(content).value;
    assert content[sp.first..sp.last + 1] == obj;
  }

  /**
    The greedy match is not a balanced-brace scan: a stray `}` in the prose
    after the object drags that prose into the match.
   */
  lemma TrailingBraceExtendsMatch(pre: string, obj: string, post: string)
    requires |obj| >= 2 && obj[0] == '{' && obj[|obj| - 1] == '}'
    requires '{' !in pre && '}' in post
    ensures MatchBraces(pre + obj + post).Some?
    ensures |MatchBraces(pre + obj + post).value| > |obj|
  {
    var content := pre + obj + post;
    var p :| 0 <= p < |post| && post[p] == '}';
    assert content[|pre|] == '{' && content[|pre| + |obj| + p] == '}';
    var sp := BraceSpan(content).value;
    assert sp.last >= |pre| + |obj| + p;
  }

  /** The characters `String.prototype.trim` removes: ECMAScript white space and line terminators. */
  predicate IsTrimmable(c: char) {
    var n := c as int;
    || n == 0x09 || n == 0x0A || n == 0x0B || n == 0x0C || n == 0x0D || n == 0x20
    || n == 0xA0 || n == 0x1680 || (0x2000 <= n <= 0x200A) || n == 0x2028 || n == 0x2029
    || n == 0x202F || n == 0x205F || n == 0x3000 || n == 0xFEFF
  }

  /** `s` without its leading white space. */
  function TrimStart(s: string): (r: string)
    ensures |r| <= |s| && r == s[|s| - |r|..]
    ensures r == [] || !IsTrimmable(r[0])
    ensures forall k :: 0 <= k < |s| - |r| ==> IsTrimmable(s[k])
  {
    if s != [] && IsTrimmable(s[0]) then TrimStart(s[1..]) else s
  }

  /** `s` without its trailing white space. */
  function TrimEnd(s: string): (r: string)
    ensures |r| <= |s| && r == s[..|r|]
    ensures r == [] || !IsTrimmable(r[|r| - 1])
    ensures forall k :: |r| <= k < |s| ==> IsTrimmable(s[k])
  {
    if s != [] && IsTrimmable(s[|s| - 1]) then TrimEnd(s[..|s| - 1]) else s
  }

  /** `String.prototype.trim`. */
  function Trim(s: string): string {
    TrimEnd(TrimStart(s))
  }

  /** Trimming a text that starts with `{` and ends with `}` changes nothing. */
  lemma TrimKeepsBracedText(s: string)
    requires |s| >= 2 && s[0] == '{' && s[|s| - 1] == '}'
    ensures Trim(s) == s
  {
  }

  /** Trimming the matched text changes nothing: it already starts with `{` and ends with `}`. */
  lemma TrimmingMatchIsIdentity(content: string)
    requires MatchBraces(content).Some?
    ensures Trim(MatchBraces(content).value) == MatchBraces(content).value
  {
  }
}
