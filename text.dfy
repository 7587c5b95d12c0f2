/**
 * The string handling applied to a model's reply before it is parsed: Python's
 * `in`, `split(sep)[0]`, `split(sep)[1]`, slicing `s[:n]` and `strip()`, and the
 * markdown fence stripping built from them.
 */
module Text {
  import opened Wrappers

  /** `pat` occurs in `s` starting at index `i`. */
  predicate OccursAt(s: string, pat: string, i: nat) {
    i + |pat| <= |s| && s[i..i + |pat|] == pat
  }

  /** The first index at or after `from` where `pat` occurs, as `str.find(pat, from)`. */
  function Find(s: string, pat: string, from: nat): (r: Option<nat>)
    ensures r.Some? ==> from <= r.value && OccursAt(s, pat, r.value)
    ensures r.Some? ==> forall j :: from <= j < r.value ==> !OccursAt(s, pat, j)
    ensures r.None? ==> forall j :: from <= j ==> !OccursAt(s, pat, j)
    decreases |s| - from
  {
    if from + |pat| > |s| then None
    else if OccursAt(s, pat, from) then Some(from)
    else Find(s, pat, from + 1)
  }

  /** `pat in s`. */
  predicate Contains(s: string, pat: string) {
    Find(s, pat, 0).Some?
  }

  /** `s.split(sep)[0]`: the text before the first `sep`, or all of `s`. */
  function Before(s: string, sep: string): (r: string)
    requires sep != []
    ensures !Contains(r, sep)
    ensures r <= s
    ensures r == s || OccursAt(s, sep, |r|)
    ensures forall j: nat :: j < |r| ==> !OccursAt(s, sep, j)
  {
    match Find(s, sep, 0)
    case None => s
    case Some(i) => PrefixHasNoEarlierSep(s, sep, i); s[..i]
  }

  /** A prefix that ends where `sep` first occurs does not contain `sep`. */
  lemma PrefixHasNoEarlierSep(s: string, sep: string, i: nat)
    requires sep != []
    requires Find(s, sep, 0) == Some(i)
    ensures !Contains(s[..i], sep)
  {
    var r := s[..i];
    if Contains(r, sep) {
      var j := Find(r, sep, 0).value;
      assert s[j..j + |sep|] == r[j..j + |sep|];
      assert OccursAt(s, sep, j);
    }
  }

  /** `s.split(sep)[1]`: the text between the first and the second `sep`, or to the end. */
  function SplitSecond(s: string, sep: string): (r: string)
    requires sep != []
    requires Contains(s, sep)
    ensures !Contains(r, sep)
    ensures var rest := s[Find(s, sep, 0).value + |sep|..];
      && r <= rest
      && (r == rest || OccursAt(rest, sep, |r|))
      && forall j: nat :: j < |r| ==> !OccursAt(rest, sep, j)
  {
    var rest := s[Find(s, sep, 0).value + |sep|..];
    Before(rest, sep)
  }

  const Fence: string := "```"
  const JsonFence: string := "```json"

  /**
   * The markdown fence stripping applied to every reply: the text after the
   * first "```json" fence up to the next fence, else the text between the first
   * two "```" fences, else the reply unchanged.
   */
  function StripFences(content: string): (r: string)
    ensures Contains(content, Fence) ==> !Contains(r, Fence)
    ensures !Contains(content, Fence) ==> r == content
  {
    if Contains(content, JsonFence) then
      JsonFenceIsFence(content);
      Before(SplitSecond(content, JsonFence), Fence)
    else if Contains(content, Fence) then
      Before(SplitSecond(content, Fence), Fence)
    else
      content
  }

  /** Every occurrence of "```json" is an occurrence of "```". */
  lemma JsonFenceIsFence(s: string)
    ensures Contains(s, JsonFence) ==> Contains(s, Fence)
  {
    if Contains(s, JsonFence) {
      JsonFenceStartsWithFence(s, Find(s, JsonFence, 0).value);
    }
  }

  /** Where "```json" occurs, "```" occurs too. */
  lemma JsonFenceStartsWithFence(s: string, k: nat)
    requires OccursAt(s, JsonFence, k)
    ensures OccursAt(s, Fence, k)
  {
    assert s[k..k + 3] == s[k..k + 7][..3];
  }

  /**
   * With a "```json" fence, the result is a prefix of the text after the first
   * one and runs up to a "```" (or to the end of the reply). That "```" is the
   * first one in the segment before the second "```json": a run of backticks
   * that straddles the start of the second "```json" is not a fence of the
   * segment, so the result may end in a backtick.
   */
  lemma StripJsonFence(content: string)
    requires Contains(content, JsonFence)
    ensures var rest := content[Find(content, JsonFence, 0).value + |JsonFence|..];
      && StripFences(content) <= rest
      && (StripFences(content) == rest || OccursAt(rest, Fence, |StripFences(content)|))
    ensures var segment := SplitSecond(content, JsonFence);
      && StripFences(content) <= segment
      && (StripFences(content) == segment || OccursAt(segment, Fence, |StripFences(content)|))
      && forall j: nat :: j < |StripFences(content)| ==> !OccursAt(segment, Fence, j)
  {
    var rest := content[Find(content, JsonFence, 0).value + |JsonFence|..];
    var segment := Before(rest, JsonFence);
    var r := Before(segment, Fence);
    assert StripFences(content) == r;
    if r != rest {
      if r == segment {
        JsonFenceStartsWithFence(rest, |r|);
      } else {
        OccursInPrefix(segment, rest, Fence, |r|);
      }
    }
  }

  /**
   * Without a "```json" fence but with a "```" fence, the result is the text
   * between the first two fences (or from the first fence to the end).
   */
  lemma StripPlainFence(content: string)
    requires !Contains(content, JsonFence) && Contains(content, Fence)
    ensures var rest := content[Find(content, Fence, 0).value + |Fence|..];
      && StripFences(content) <= rest
      && (StripFences(content) == rest || OccursAt(rest, Fence, |StripFences(content)|))
      && forall j: nat :: j < |StripFences(content)| ==> !OccursAt(rest, Fence, j)
  {
    var rest := content[Find(content, Fence, 0).value + |Fence|..];
    var segment := Before(rest, Fence);
    assert StripFences(content) == Before(segment, Fence);
    assert Before(segment, Fence) == segment;
  }

  /**
   * A run of backticks that straddles the start of the second "```json" stays
   * in the result: "```jsonx````json" strips to "x`", although the text after
   * the first fence holds a "```" at index 1.
   */
  lemma StraddlingBacktickIsKept()
    ensures StripFences("```jsonx````json") == "x`"
    ensures OccursAt("x````json", Fence, 1)
  {
    var content := "```jsonx````json";
    assert OccursAt(content, JsonFence, 0);
    assert Find(content, JsonFence, 0) == Some(0);
    var rest := content[7..];
    assert rest == "x````json";
    assert rest[0..7] != JsonFence by { assert rest[0..7][0] == 'x'; }
    assert rest[1..8] != JsonFence by { assert rest[1..8][3] == '`'; }
    assert rest[2..9] == JsonFence;
    assert Find(rest, JsonFence, 2) == Some(2);
    assert Find(rest, JsonFence, 1) == Some(2);
    var segment := rest[..2];
    assert segment == "x`";
    assert Find(segment, Fence, 0) == None;
    assert rest[1..4] == Fence;
  }

  /** An occurrence inside a prefix is an occurrence in the whole. */
  lemma OccursInPrefix(prefix: string, s: string, pat: string, k: nat)
    requires prefix <= s && OccursAt(prefix, pat, k)
    ensures OccursAt(s, pat, k)
  {
    assert s[k..k + |pat|] == prefix[k..k + |pat|];
  }

  /** Stripping fences a second time changes nothing. */
  lemma StripFencesIdempotent(content: string)
    ensures StripFences(StripFences(content)) == StripFences(content)
  {
    var r := StripFences(content);
    JsonFenceIsFence(r);
  }

  /** `Find` from 0 is the first occurrence, when there is one. */
  lemma FindFirst(s: string, pat: string, i: nat)
    requires OccursAt(s, pat, i)
    requires forall j :: 0 <= j < i ==> !OccursAt(s, pat, j)
    ensures Find(s, pat, 0) == Some(i)
  {
  }

  /** A text without a backtick holds no fence. */
  lemma NoBacktickNoFence(s: string)
    requires forall k :: 0 <= k < |s| ==> s[k] != '`'
    ensures !Contains(s, Fence)
  {
    forall j: nat | j + 3 <= |s|
      ensures !OccursAt(s, Fence, j)
    {
      assert s[j..j + 3][0] == s[j];
    }
  }

  /**
   * A reply that wraps a body without backticks in a "```json" fence and a
   * closing "```" gives back exactly that body.
   */
  lemma StripFencesUnwraps(body: string)
    requires forall k :: 0 <= k < |body| ==> body[k] != '`'
    ensures StripFences(JsonFence + body + Fence) == body
  {
    var content := JsonFence + body + Fence;
    assert Find(content, JsonFence, 0) == Some(0) by {
      assert content[0..7] == JsonFence;
      FindFirst(content, JsonFence, 0);
    }
    var rest := content[7..];
    assert rest == body + Fence;
    assert Before(rest, JsonFence) == rest by {
      forall j: nat | j + 7 <= |rest|
        ensures !OccursAt(rest, JsonFence, j)
      {
        assert rest[j..j + 7][0] == rest[j] == body[j];
      }
    }
    assert Before(rest, Fence) == body by {
      assert rest[|body|..|body| + 3] == Fence;
      forall j | 0 <= j < |body|
        ensures !OccursAt(rest, Fence, j)
      {
        assert rest[j] == body[j];
      }
      FindFirst(rest, Fence, |body|);
      assert rest[..|body|] == body;
    }
  }

  /** `s[:n]`. */
  function Take(s: string, n: nat): (r: string)
    ensures r <= s
    ensures |r| == if |s| <= n then |s| else n
  {
    if |s| <= n then s else s[..n]
  }

  /** The characters for which Python's `str.isspace()` holds. */
  predicate IsSpace(c: char) {
    || '\t' <= c <= '\r'
    || '\U{1c}' <= c <= '\U{1f}'
    || c == ' ' || c == '\U{85}' || c == '\U{a0}' || c == '\U{1680}'
    || '\U{2000}' <= c <= '\U{200a}'
    || c == '\U{2028}' || c == '\U{2029}' || c == '\U{202f}' || c == '\U{205f}' || c == '\U{3000}'
  }

  /** The first index at or after `i` that does not hold white space, or the end. */
  function SpaceFrom(s: string, i: nat): (n: nat)
    requires i <= |s|
    ensures i <= n <= |s|
    ensures forall k :: i <= k < n ==> IsSpace(s[k])
    ensures n < |s| ==> !IsSpace(s[n])
    decreases |s| - i
  {
    if i < |s| && IsSpace(s[i]) then SpaceFrom(s, i + 1) else i
  }

  /** The index after the last character in `s[lo..j]` that is not white space, or `lo`. */
  function SpaceBefore(s: string, lo: nat, j: nat): (n: nat)
    requires lo <= j <= |s|
    ensures lo <= n <= j
    ensures forall k :: n <= k < j ==> IsSpace(s[k])
    ensures n > lo ==> !IsSpace(s[n - 1])
    decreases j
  {
    if j > lo && IsSpace(s[j - 1]) then SpaceBefore(s, lo, j - 1) else j
  }

  /**
   * `s.strip()`: the slice of the reply between the white space it starts with
   * and the white space it ends with.
   */
  function Strip(s: string): (r: string)
    ensures r == [] || (!IsSpace(r[0]) && !IsSpace(r[|r| - 1]))
    ensures var lo := SpaceFrom(s, 0);
      && lo + |r| <= |s|
      && (forall k :: 0 <= k < |r| ==> r[k] == s[lo + k])
      && (forall k :: 0 <= k < lo ==> IsSpace(s[k]))
      && (forall k :: lo + |r| <= k < |s| ==> IsSpace(s[k]))
  {
    var lo := SpaceFrom(s, 0);
    var hi := SpaceBefore(s, lo, |s|);
    s[lo..hi]
  }
}
