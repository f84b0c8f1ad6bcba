/**
 * The Python string operations the pipeline relies on: `str.strip()` with no
 * argument, the substring test `needle in hay`, and the way an f-string
 * renders an optional value.
 */
module PyStr {
  import opened Wrappers

  /** The characters for which Python's `str.isspace()` holds; `str.strip()` removes exactly these. */
  predicate IsSpace(c: char)
    ensures c in " \t\n\r\U{0B}\U{0C}" ==> IsSpace(c)
    ensures ('0' <= c <= '9' || 'A' <= c <= 'Z' || 'a' <= c <= 'z') ==> !IsSpace(c)
    ensures IsSpace(c) ==> c <= '\U{3000}'
  {
    || ('\t' <= c <= '\r')                 // U+0009 .. U+000D
    || ('\U{1C}' <= c <= '\U{1F}')         // file, group, record and unit separators
    || c == ' '
    || c == '\U{85}' || c == '\U{A0}' || c == '\U{1680}'
    || ('\U{2000}' <= c <= '\U{200A}')
    || c == '\U{2028}' || c == '\U{2029}' || c == '\U{202F}' || c == '\U{205F}' || c == '\U{3000}'
  }

  predicate AllSpace(s: string) {
    forall k :: 0 <= k < |s| ==> IsSpace(s[k])
  }

  /** Number of whitespace characters at the start of `s`. */
  function LeadingSpaces(s: string): (n: nat)
    ensures n <= |s|
    ensures forall k :: 0 <= k < n ==> IsSpace(s[k])
    ensures n < |s| ==> !IsSpace(s[n])
  {
    if |s| > 0 && IsSpace(s[0]) then 1 + LeadingSpaces(s[1..]) else 0
  }

  /** Number of whitespace characters at the end of `s`. */
  function TrailingSpaces(s: string): (n: nat)
    ensures n <= |s|
    ensures forall k :: |s| - n <= k < |s| ==> IsSpace(s[k])
    ensures n < |s| ==> !IsSpace(s[|s| - 1 - n])
  {
    if |s| > 0 && IsSpace(s[|s| - 1]) then 1 + TrailingSpaces(s[..|s| - 1]) else 0
  }

  /**
   * `s[i..j]` is what stripping `s` leaves: everything before `i` and from `j`
   * on is whitespace, and a non-empty remainder starts and ends with a
   * non-whitespace character.
   */
  ghost predicate Trims(s: string, i: nat, j: nat) {
    && i <= j <= |s|
    && AllSpace(s[..i])
    && AllSpace(s[j..])
    && (i < j ==> !IsSpace(s[i]) && !IsSpace(s[j - 1]))
  }

  /** Python `s.strip()`. */
  function Strip(s: string): (t: string)
    ensures |t| <= |s|
    ensures |t| > 0 ==> !IsSpace(t[0]) && !IsSpace(t[|t| - 1])
  {
    var i := LeadingSpaces(s);
    var n := TrailingSpaces(s[i..]);
    s[i..|s| - n]
  }

  /** `Strip` removes only whitespace, and only at the two ends. */
  lemma StripTrims(s: string) returns (i: nat, j: nat)
    ensures Trims(s, i, j) && Strip(s) == s[i..j]
  {
    i := LeadingSpaces(s);
    var n := TrailingSpaces(s[i..]);
    j := |s| - n;
    assert AllSpace(s[j..]) by {
      forall k | 0 <= k < n
        ensures IsSpace(s[j..][k])
      {
        assert s[j..][k] == s[i..][|s[i..]| - n + k];
      }
    }
  }

  /** Two ways of cutting `s` into whitespace, a remainder and whitespace leave the same remainder. */
  lemma TrimsUnique(s: string, i: nat, j: nat, i': nat, j': nat)
    requires Trims(s, i, j) && Trims(s, i', j')
    ensures s[i..j] == s[i'..j']
  {
  }

  /** Any cut with only whitespace outside and none at the ends of the remainder is what `Strip` returns. */
  lemma StripUnique(s: string, i: nat, j: nat)
    requires Trims(s, i, j)
    ensures Strip(s) == s[i..j]
  {
    var i', j' := StripTrims(s);
    TrimsUnique(s, i, j, i', j');
  }

  /** Stripping twice is stripping once. */
  lemma StripIdempotent(s: string)
    ensures Strip(Strip(s)) == Strip(s)
  {
    var t := Strip(s);
    assert t[..0] == [] && t[|t|..] == [];
    assert t[0..|t|] == t;
    StripUnique(t, 0, |t|);
  }

  /** Whitespace added around a string does not survive `Strip`. */
  lemma StripPadded(a: string, s: string, b: string)
    requires AllSpace(a) && AllSpace(b)
    ensures Strip(a + s + b) == Strip(s)
  {
    var i, j := StripTrims(s);
    var p, lo, hi := a + s + b, |a| + i, |a| + j;
    assert p[lo..hi] == s[i..j];
    assert Trims(p, lo, hi) by {
      var head, tail := p[..lo], p[hi..];
      forall k | 0 <= k < lo
        ensures IsSpace(head[k])
      {
        if k >= |a| {
          assert s[..i][k - |a|] == p[k];
        }
      }
      forall k | 0 <= k < |tail|
        ensures IsSpace(tail[k])
      {
        if k < |s| - j {
          assert s[j..][k] == p[hi + k];
        }
      }
    }
    StripUnique(p, lo, hi);
  }

  /** `s` begins with `prefix`. */
  predicate StartsWith(s: string, prefix: string) {
    |prefix| <= |s| && s[..|prefix|] == prefix
  }

  /** Python `needle in hay` for strings: a scan of every start position. */
  predicate Contains(hay: string, needle: string)
    ensures Contains(hay, needle) ==> |needle| <= |hay|
    ensures needle == [] ==> Contains(hay, needle)
    decreases |hay|
  {
    StartsWith(hay, needle) || (|hay| > 0 && Contains(hay[1..], needle))
  }

  /** `needle` occurs in `hay` starting at index `i`. */
  ghost predicate OccursAt(hay: string, needle: string, i: nat) {
    i + |needle| <= |hay| && hay[i..i + |needle|] == needle
  }

  /** The scan finds `needle` exactly when it occurs at some position. */
  lemma {:induction false} ContainsIff(hay: string, needle: string)
    ensures Contains(hay, needle) <==> exists i: nat :: OccursAt(hay, needle, i)
    decreases |hay|
  {
    if Contains(hay, needle) {
      if StartsWith(hay, needle) {
        assert OccursAt(hay, needle, 0);
      } else {
        ContainsIff(hay[1..], needle);
        var i: nat :| OccursAt(hay[1..], needle, i);
        assert hay[1..][i..i + |needle|] == hay[i + 1..i + 1 + |needle|];
        assert OccursAt(hay, needle, i + 1);
      }
    }
    if exists i: nat :: OccursAt(hay, needle, i) {
      var i: nat :| OccursAt(hay, needle, i);
      if i == 0 {
        assert StartsWith(hay, needle);
      } else {
        assert hay[1..][i - 1..i - 1 + |needle|] == hay[i..i + |needle|];
        assert OccursAt(hay[1..], needle, i - 1);
        ContainsIff(hay[1..], needle);
      }
    }
  }

  /** A string contains every piece it is concatenated from. */
  lemma ContainsPiece(a: string, b: string, c: string)
    ensures Contains(a + b + c, b)
  {
    var p := a + b + c;
    assert p[|a|..|a| + |b|] == b;
    assert OccursAt(p, b, |a|);
    ContainsIff(p, b);
  }

  /** Text added after a string keeps every occurrence found in it. */
  lemma ContainsAppend(x: string, y: string, needle: string)
    requires Contains(x, needle)
    ensures Contains(x + y, needle)
  {
    ContainsIff(x, needle);
    var i: nat :| OccursAt(x, needle, i);
    assert (x + y)[i..i + |needle|] == x[i..i + |needle|];
    assert OccursAt(x + y, needle, i);
    ContainsIff(x + y, needle);
  }

  /** A string contains its own last piece. */
  lemma ContainsLast(x: string, needle: string)
    ensures Contains(x + needle, needle)
  {
    assert x + needle + "" == x + needle;
    ContainsPiece(x, needle, "");
  }

  /** Text added after a string keeps its prefix. */
  lemma StartsWithAppend(x: string, y: string, prefix: string)
    requires StartsWith(x, prefix)
    ensures StartsWith(x + y, prefix)
  {
    assert (x + y)[..|prefix|] == x[..|prefix|];
  }

  /** How an f-string renders a value fetched with `dict.get(key)`: a missing value prints as `None`. */
  function Format(o: Option<string>): (r: string)
    ensures o.Some? ==> r == o.value
    ensures o.None? ==> r == "None"
  {
    o.GetOr("None")
  }
}
