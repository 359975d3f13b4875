/**
 * The scan for a standalone `->mcp` marker: the regular expression
 * `(?<=\s)->mcp(?=\s)` searched with `re.search`, which reports the leftmost
 * match. The look-behind and look-ahead each need an actual whitespace
 * character, so a marker at the very start or the very end of the buffer is
 * never reported.
 */
module Marker {
  import opened Wrappers
  import opened Ascii

  const Token: string := "->mcp"

  /** The pattern matches at index `i`: whitespace, then `->mcp`, then whitespace. */
  predicate StandaloneAt(s: string, i: int) {
    1 <= i && i + |Token| < |s|
    && IsSpace(s[i - 1]) && s[i..i + |Token|] == Token && IsSpace(s[i + |Token|])
  }

  /** The leftmost match at or after index `i`. */
  function FindMarkerFrom(s: string, i: nat): (r: Option<(nat, nat)>)
    ensures r.Some? ==> i <= r.value.0 && StandaloneAt(s, r.value.0) && r.value.1 == r.value.0 + |Token|
    ensures r.Some? ==> forall k :: i <= k < r.value.0 ==> !StandaloneAt(s, k)
    ensures r.None? ==> forall k :: i <= k ==> !StandaloneAt(s, k)
    decreases |s| - i
  {
    if i + |Token| >= |s| then None
    else if StandaloneAt(s, i) then Some((i, i + |Token|))
    else FindMarkerFrom(s, i + 1)
  }

  /**
   * `re.search(r"(?<=\s)->mcp(?=\s)", s)`: the span `(start, end)` of the
   * first standalone marker, or `None`.
   */
  function FindMarker(s: string): (r: Option<(nat, nat)>)
    ensures r.Some? <==> exists k :: StandaloneAt(s, k)
    ensures r.Some? ==> StandaloneAt(s, r.value.0) && r.value.1 == r.value.0 + |Token|
    ensures r.Some? ==> forall k :: 0 <= k < r.value.0 ==> !StandaloneAt(s, k)
  {
    FindMarkerFrom(s, 0)
  }

  /** A reported marker splits the buffer into a prefix ending in whitespace and a suffix starting with it. */
  lemma MarkerSplitsBuffer(s: string)
    requires FindMarker(s).Some?
    ensures var (start, stop) := FindMarker(s).value;
      0 < start && stop < |s|
      && s == s[..start] + Token + s[stop..]
      && IsSpace(s[..start][start - 1]) && IsSpace(s[stop..][0])
  {
    var (start, stop) := FindMarker(s).value;
    assert s == s[..start] + s[start..stop] + s[stop..];
  }

  /** The marker is never matched at index 0: nothing precedes it. */
  lemma NotAtBufferStart(t: string)
    ensures !StandaloneAt(Token + t, 0)
    ensures FindMarker(Token + t).Some? ==> FindMarker(Token + t).value.0 > 0
  {
  }

  /** A marker that ends the buffer has no whitespace after it and is never matched. */
  lemma NotAtBufferEnd(t: string)
    ensures !StandaloneAt(t + Token, |t|)
    ensures FindMarker(t + Token).Some? ==> FindMarker(t + Token).value.1 < |t + Token|
  {
  }

  /** A marker glued to a non-whitespace character on either side is not matched there. */
  lemma GluedNotMatched(s: string, i: int)
    requires 1 <= i && i + |Token| < |s| && s[i..i + |Token|] == Token
    requires !IsSpace(s[i - 1]) || !IsSpace(s[i + |Token|])
    ensures !StandaloneAt(s, i)
  {
  }

  /** Without any occurrence of the token there is no marker. */
  lemma NoTokenNoMarker(s: string)
    requires IndexOf(s, Token).None?
    ensures FindMarker(s).None?
  {
    forall k | StandaloneAt(s, k) ensures false {
      assert OccursAt(s, Token, k);
    }
  }

  /** A buffer without a `-` has no marker. */
  lemma NoDashNoMarker(s: string)
    requires '-' !in s
    ensures FindMarker(s).None?
  {
    if FindMarker(s).Some? {
      MarkerAtDash(s, FindMarker(s).value.0);
    }
  }

  /** A standalone marker begins with a `-`. */
  lemma MarkerAtDash(s: string, k: int)
    requires StandaloneAt(s, k)
    ensures 0 <= k < |s| && s[k] == '-'
  {
    assert s[k..k + |Token|][0] == s[k];
  }

  /** A buffer made of a word, one space, the token, one space and a word: the marker is found once. */
  lemma MarkerBetweenWords(a: string, b: string)
    requires '-' !in a
    ensures FindMarker(a + " " + Token + " " + b) == Some((|a| + 1, |a| + 1 + |Token|))
  {
    var s := a + " " + Token + " " + b;
    var i := |a| + 1;
    assert s[i..i + |Token|] == Token;
    assert StandaloneAt(s, i);
    forall k | 0 <= k < i ensures !StandaloneAt(s, k) {
      assert s[k] != '-' by {
        if k < |a| {
          assert s[k] == a[k];
        }
      }
      if StandaloneAt(s, k) {
        MarkerAtDash(s, k);
      }
    }
  }

  /** `"before ->mcp after"`: the marker spans indices 7 to 12. */
  lemma BeforeMarkerAfter()
    ensures FindMarker("before ->mcp after") == Some((7, 12))
  {
    assert "before ->mcp after" == "before" + " " + Token + " " + "after";
    assert '-' !in "before";
    MarkerBetweenWords("before", "after");
  }
}
