/**
 * The two string operations the keyword classifier relies on: Python's `str.lower()`
 * (modelled as ASCII lower-casing) and Python's substring test `needle in hay`.
 */
module Text {

  /** Lower-cases one character: `A`..`Z` become `a`..`z`, everything else is kept. */
  function LowerChar(c: char): char
  {
    if 'A' <= c <= 'Z' then (c as int + 32) as char else c
  }

  /** The lower-case form of a string, character by character. */
  function Lower(s: string): (r: string)
    ensures |r| == |s|
  {
    if s == [] then [] else [LowerChar(s[0])] + Lower(s[1..])
  }

  /** `needle` sits in `hay` starting at position `i`. */
  predicate OccursAt(hay: string, needle: string, i: nat)
  {
    i + |needle| <= |hay| && hay[i..i + |needle|] == needle
  }

  /** Python's `needle in hay` for strings (true for an empty `needle`). */
  predicate Contains(hay: string, needle: string)
  {
    exists i | 0 <= i <= |hay| - |needle| :: OccursAt(hay, needle, i)
  }

  /** Lower-casing keeps the length and works position by position. */
  lemma {:induction false} LowerAt(s: string)
    ensures |Lower(s)| == |s|
    ensures forall i :: 0 <= i < |s| ==> Lower(s)[i] == LowerChar(s[i])
  {
    if s != [] {
      LowerAt(s[1..]);
      assert forall i :: 1 <= i < |s| ==> Lower(s)[i] == Lower(s[1..])[i - 1];
    }
  }

  /** Lower-casing distributes over concatenation. */
  lemma {:induction false} LowerAppend(a: string, b: string)
    ensures Lower(a + b) == Lower(a) + Lower(b)
  {
    if a != [] {
      assert (a + b)[1..] == a[1..] + b;
      LowerAppend(a[1..], b);
    } else {
      assert a + b == b;
    }
  }

  /** Lower-casing commutes with taking a slice. */
  lemma LowerSlice(s: string, i: nat, j: nat)
    requires i <= j <= |s|
    ensures Lower(s[i..j]) == Lower(s)[i..j]
  {
    LowerAt(s);
    LowerAt(s[i..j]);
    forall k | 0 <= k < j - i
      ensures Lower(s[i..j])[k] == Lower(s)[i..j][k]
    {
      assert s[i..j][k] == s[i + k];
    }
  }

  /** Lower-casing twice is lower-casing once. */
  lemma {:induction false} LowerIdempotent(s: string)
    ensures Lower(Lower(s)) == Lower(s)
  {
    if s != [] {
      LowerIdempotent(s[1..]);
      LowerAppend([LowerChar(s[0])], Lower(s[1..]));
    }
  }

  /** No character of a lower-cased string is an upper-case ASCII letter. */
  lemma LowerHasNoCapitals(s: string)
    ensures forall i :: 0 <= i < |Lower(s)| ==> !('A' <= Lower(s)[i] <= 'Z')
  {
    LowerAt(s);
  }

  /** A substring found in a string is still found after text is added on either side. */
  lemma ContainsExtended(hay: string, needle: string, before: string, after: string)
    requires Contains(hay, needle)
    ensures Contains(before + hay + after, needle)
  {
    var i :| 0 <= i <= |hay| - |needle| && OccursAt(hay, needle, i);
    var whole := before + hay + after;
    assert whole[|before| + i..|before| + i + |needle|] == hay[i..i + |needle|];
    assert OccursAt(whole, needle, |before| + i);
  }

  /** `in` is transitive: a substring of a substring is a substring. */
  lemma ContainsTransitive(hay: string, middle: string, needle: string)
    requires Contains(hay, middle) && Contains(middle, needle)
    ensures Contains(hay, needle)
  {
    var i :| 0 <= i <= |hay| - |middle| && OccursAt(hay, middle, i);
    var j :| 0 <= j <= |middle| - |needle| && OccursAt(middle, needle, j);
    assert forall t :: 0 <= t < |middle| ==> hay[i + t] == middle[t];
    assert forall t :: 0 <= t < |needle| ==> middle[j + t] == needle[t];
    assert hay[i + j..i + j + |needle|] == needle;
    assert OccursAt(hay, needle, i + j);
  }

  /** A substring of a string, lower-cased, is a substring of the lower-cased string. */
  lemma ContainsLower(hay: string, needle: string)
    requires Contains(hay, needle)
    ensures Contains(Lower(hay), Lower(needle))
  {
    var i :| 0 <= i <= |hay| - |needle| && OccursAt(hay, needle, i);
    LowerSlice(hay, i, i + |needle|);
    LowerAt(hay);
    LowerAt(needle);
    assert OccursAt(Lower(hay), Lower(needle), i);
  }

  /** A needle holding an upper-case ASCII letter never occurs in a lower-cased string. */
  lemma CapitalNeverInLower(s: string, needle: string, k: nat)
    requires k < |needle| && 'A' <= needle[k] <= 'Z'
    ensures !Contains(Lower(s), needle)
  {
    LowerHasNoCapitals(s);
    var low := Lower(s);
    forall i | 0 <= i <= |low| - |needle|
      ensures !OccursAt(low, needle, i)
    {
      assert !('A' <= low[i + k] <= 'Z');
      assert low[i..i + |needle|][k] == low[i + k];
    }
  }
}
