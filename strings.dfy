/**
 * The Python `str` operations the plugin applies to wxids and card payloads:
 * substring test, `split(sep, 1)`, `strip()`, `startswith`, `endswith` and
 * `lower()`.
 */
module Strings {
  import opened Values

  /** `pat` occurs in `s` starting at index `j`. */
  predicate OccursAt(s: string, pat: string, j: nat) {
    j + |pat| <= |s| && s[j..j + |pat|] == pat
  }

  /** An occurrence past the first character is an occurrence in the tail, one place earlier. */
  lemma OccursAtTail(s: string, pat: string)
    requires |s| > 0
    ensures forall j: nat :: 0 < j ==> (OccursAt(s, pat, j) <==> OccursAt(s[1..], pat, j - 1))
  {
    forall j: nat | 0 < j
      ensures OccursAt(s, pat, j) <==> OccursAt(s[1..], pat, j - 1)
    {
      if j + |pat| <= |s| {
        assert s[1..][j - 1..j - 1 + |pat|] == s[j..j + |pat|];
      }
    }
  }

  /** The index of the first occurrence of `pat` in `s` (`s.find(pat)`), if any. */
  function FindFirst(s: string, pat: string): (r: Option<nat>)
    ensures r.Some? ==> OccursAt(s, pat, r.value)
    ensures r.Some? ==> forall j: nat :: j < r.value ==> !OccursAt(s, pat, j)
    ensures r.None? ==> forall j: nat :: !OccursAt(s, pat, j)
    decreases |s|
  {
    if |s| < |pat| then None
    else if s[..|pat|] == pat then Some(0)
    else
      assert !OccursAt(s, pat, 0);
      OccursAtTail(s, pat);
      match FindFirst(s[1..], pat)
      case None => None
      case Some(i) => Some(i + 1)
  }

  /** Python's `pat in s`. */
  predicate Contains(s: string, pat: string) {
    FindFirst(s, pat).Some?
  }

  /** Python's `s.split(sep, 1)`: the text before and after the first `sep`, or `[s]`. */
  function Split1(s: string, sep: string): (parts: seq<string>)
    requires sep != ""
    ensures !Contains(s, sep) ==> parts == [s]
    ensures Contains(s, sep) ==> |parts| == 2 && s == parts[0] + sep + parts[1]
    ensures Contains(s, sep) ==> FindFirst(s, sep) == Some(|parts[0]|)
  {
    match FindFirst(s, sep)
    case None => [s]
    case Some(i) =>
      assert s == s[..i] + s[i..i + |sep|] + s[i + |sep|..];
      [s[..i], s[i + |sep|..]]
  }

  /**
   * Where `sep` does not occur in `a`, the first `sep` in `a + sep + b` is the
   * one written between them, so `split(sep, 1)` gives back `a` and `b`.
   */
  lemma {:induction false} SplitAtFirstSeparator(a: string, sep: string, b: string)
    requires sep != []
    requires !Contains(a + sep[..|sep| - 1], sep)
    ensures Split1(a + sep + b, sep) == [a, b]
  {
    var s := a + sep + b;
    assert OccursAt(s, sep, |a|) by {
      assert s[|a|..|a| + |sep|] == sep;
    }
    NoOccurrenceInsideFirstPart(a, sep, b);
    assert FindFirst(s, sep) == Some(|a|);
    var parts := Split1(s, sep);
    assert parts[0] == s[..|a|] == a;
    assert parts[1] == s[|a| + |sep|..] == b;
  }

  /** An occurrence of `sep` in `a + sep + b` that starts inside `a` lies within `a + sep[..|sep| - 1]`. */
  lemma {:induction false} NoOccurrenceInsideFirstPart(a: string, sep: string, b: string)
    requires sep != []
    requires !Contains(a + sep[..|sep| - 1], sep)
    ensures forall j: nat :: j < |a| ==> !OccursAt(a + sep + b, sep, j)
  {
    var s := a + sep + b;
    var prefix := a + sep[..|sep| - 1];
    assert sep == sep[..|sep| - 1] + sep[|sep| - 1..];
    assert s == prefix + (sep[|sep| - 1..] + b);
    assert s[..|prefix|] == prefix;
    forall j: nat | j < |a|
      ensures !OccursAt(s, sep, j)
    {
      assert !OccursAt(prefix, sep, j);
      assert s[j..j + |sep|] == s[..|prefix|][j..j + |sep|];
    }
  }

  /**
   * `"<a>:\n<b>"` where `a` holds no `":\n"`: the first `":\n"` is the one after
   * `a` (appending the colon cannot create an earlier one), so `split(":\n", 1)`
   * gives back `a` and `b`.
   */
  lemma {:induction false} SplitAtSenderSeparator(a: string, b: string)
    requires !Contains(a, ":\n")
    ensures Contains(a + ":\n" + b, ":\n")
    ensures Split1(a + ":\n" + b, ":\n") == [a, b]
  {
    var t := a + ":";
    assert ":\n"[..1] == ":";
    if Contains(t, ":\n") {
      var i := FindFirst(t, ":\n").value;
      assert t[i..i + 2] == ":\n";
      assert t[i + 1] == t[i..i + 2][1] == '\n';
      assert i + 2 <= |a|;
      assert a[i..i + 2] == t[i..i + 2];
      assert OccursAt(a, ":\n", i);
    }
    SplitAtFirstSeparator(a, ":\n", b);
  }

  /** `s.startswith(p)`. */
  predicate StartsWith(s: string, p: string) {
    |p| <= |s| && s[..|p|] == p
  }

  /** `s.endswith(p)`. */
  predicate EndsWith(s: string, p: string) {
    |p| <= |s| && s[|s| - |p|..] == p
  }

  /**
   * The characters for which Python's `str.isspace()` holds, which are the
   * ones `str.strip()` removes.
   */
  predicate IsSpace(c: char) {
    || '\t' <= c <= '\r'
    || '\U{001C}' <= c <= ' '
    || c == '\U{0085}' || c == '\U{00A0}' || c == '\U{1680}'
    || '\U{2000}' <= c <= '\U{200A}'
    || c == '\U{2028}' || c == '\U{2029}' || c == '\U{202F}' || c == '\U{205F}' || c == '\U{3000}'
  }

  /** The number of whitespace characters at the start of `s`. */
  function LeadingSpace(s: string): (n: nat)
    ensures n <= |s|
    ensures forall k :: 0 <= k < n ==> IsSpace(s[k])
    ensures n < |s| ==> !IsSpace(s[n])
  {
    if s == [] || !IsSpace(s[0]) then 0
    else 1 + LeadingSpace(s[1..])
  }

  /** The number of whitespace characters at the end of `s`. */
  function TrailingSpace(s: string): (n: nat)
    ensures n <= |s|
    ensures forall k :: |s| - n <= k < |s| ==> IsSpace(s[k])
    ensures n < |s| ==> !IsSpace(s[|s| - 1 - n])
  {
    if s == [] || !IsSpace(s[|s| - 1]) then 0
    else 1 + TrailingSpace(s[..|s| - 1])
  }

  /** Python's `s.strip()`. */
  function Strip(s: string): (r: string)
    ensures r == [] || (!IsSpace(r[0]) && !IsSpace(r[|r| - 1]))
    ensures (s == [] || (!IsSpace(s[0]) && !IsSpace(s[|s| - 1]))) ==> r == s
    ensures forall k :: 0 <= k < |s| && !IsSpace(s[k]) ==> r != []
    ensures forall c :: c in r ==> c in s
    ensures exists i, j :: 0 <= i <= j <= |s| && r == s[i..j] &&
                           (forall k :: 0 <= k < i ==> IsSpace(s[k])) &&
                           (forall k :: j <= k < |s| ==> IsSpace(s[k]))
  {
    var i := LeadingSpace(s);
    if i == |s| then
      StripWindow(s, i, i);
      []
    else
      var j := |s| - TrailingSpace(s);
      StripWindow(s, i, j);
      s[i..j]
  }

  /**
   * The window `s[i..j]` left between a run of whitespace at each end of `s`,
   * when it neither starts nor ends with whitespace, is the stripped text.
   */
  lemma StripWindow(s: string, i: nat, j: nat)
    requires i <= j <= |s|
    requires forall k :: 0 <= k < i ==> IsSpace(s[k])
    requires forall k :: j <= k < |s| ==> IsSpace(s[k])
    requires i < j ==> !IsSpace(s[i]) && !IsSpace(s[j - 1])
    ensures s[i..j] == [] || (!IsSpace(s[i..j][0]) && !IsSpace(s[i..j][j - i - 1]))
    ensures (s == [] || (!IsSpace(s[0]) && !IsSpace(s[|s| - 1]))) ==> s[i..j] == s
    ensures forall k :: 0 <= k < |s| && !IsSpace(s[k]) ==> s[i..j] != []
    ensures forall c :: c in s[i..j] ==> c in s
    ensures exists i', j' :: 0 <= i' <= j' <= |s| && s[i..j] == s[i'..j'] &&
                             (forall k :: 0 <= k < i' ==> IsSpace(s[k])) &&
                             (forall k :: j' <= k < |s| ==> IsSpace(s[k]))
  {
    if s != [] && !IsSpace(s[0]) && !IsSpace(s[|s| - 1]) {
      assert i == 0;
      assert j == |s|;
    }
  }

  /** ASCII `c.lower()`. */
  function LowerChar(c: char): char {
    if 'A' <= c <= 'Z' then (c as int + 32) as char else c
  }

  /**
   * `s.lower()` restricted to ASCII letters. For the only test the plugin
   * makes with it, whether `"cdnvideourl"` occurs in the lowered text, this
   * is exact: the only non-ASCII characters whose Unicode lower case contains
   * an ASCII letter are U+212A (to `k`) and U+0130 (to `i` followed by a
   * combining dot), and neither can complete an occurrence of that word.
   */
  function Lower(s: string): (r: string)
    ensures |r| == |s|
    ensures forall k :: 0 <= k < |r| ==> !('A' <= r[k] <= 'Z')
    ensures forall k :: 0 <= k < |s| && !('A' <= s[k] <= 'Z') ==> r[k] == s[k]
    ensures forall k :: 0 <= k < |s| && 'A' <= s[k] <= 'Z' ==> r[k] as int == s[k] as int + 32
  {
    seq(|s|, k requires 0 <= k < |s| => LowerChar(s[k]))
  }
}
