/** Case folding and substring search on strings, as the menu search uses them.
    Lowercasing is restricted to ASCII: 'A'..'Z' map to 'a'..'z', every other
    character is left as it is. */
module Text {

  /** ASCII lowercase of one character. */
  function LowerChar(c: char): (r: char)
    ensures 'A' <= c <= 'Z' ==> r as int == c as int + 32
    ensures !('A' <= c <= 'Z') ==> r == c
    ensures !('A' <= r <= 'Z')
  {
    if 'A' <= c <= 'Z' then (c as int + 32) as char else c
  }

  /** The lowercased string: same length, each character lowercased in place. */
  function Lower(s: string): (r: string)
    ensures |r| == |s|
  {
    seq(|s|, i requires 0 <= i < |s| => LowerChar(s[i]))
  }

  /** Lowercasing twice is lowercasing once. */
  lemma LowerIdempotent(s: string)
    ensures Lower(Lower(s)) == Lower(s)
  {
  }

  /** Only the empty string lowercases to the empty string. */
  lemma LowerEmpty(s: string)
    ensures Lower(s) == [] <==> s == []
  {
  }

  /** Lowercasing distributes over concatenation. */
  lemma LowerAppend(a: string, b: string)
    ensures Lower(a + b) == Lower(a) + Lower(b)
  {
  }

  /** `q` starts at index `i` of `s`. */
  predicate OccursAt(s: string, q: string, i: int)
  {
    0 <= i && i + |q| <= |s| && s[i..i + |q|] == q
  }

  /** `q` occurs in `s` as a contiguous block of characters. The empty string
      occurs everywhere; a longer string than `s` occurs nowhere in it. */
  predicate Contains(s: string, q: string): (r: bool)
    ensures q == [] ==> r
    ensures r ==> |q| <= |s|
  {
    assert q == [] ==> OccursAt(s, q, 0);
    exists i | 0 <= i <= |s| - |q| :: OccursAt(s, q, i)
  }

  /** The empty string occurs in every string, and a string in itself. */
  lemma ContainsTrivial(s: string)
    ensures Contains(s, []) && Contains(s, s)
  {
    assert OccursAt(s, [], 0);
    assert OccursAt(s, s, 0);
  }

  /** Every character under an occurrence is a character of the query. */
  lemma OccurrenceCovers(s: string, q: string, i: int)
    requires OccursAt(s, q, i)
    ensures forall k :: i <= k < i + |q| ==> s[k] in q
  {
    forall k | i <= k < i + |q|
      ensures s[k] in q
    {
      assert s[k] == s[i..i + |q|][k - i];
    }
  }

  /** Every character of an occurring query is a character of the string. */
  lemma ContainsChar(s: string, q: string, k: nat)
    requires Contains(s, q) && k < |q|
    ensures q[k] in s
  {
    var i :| 0 <= i <= |s| - |q| && OccursAt(s, q, i);
    assert q[k] == s[i..i + |q|][k] == s[i + k];
  }

  /** A character of the query that no character of the text lowercases to
      rules out a case-insensitive match. */
  lemma LowerLacks(s: string, q: string, k: nat)
    requires k < |q|
    requires forall i | 0 <= i < |s| :: LowerChar(s[i]) != q[k]
    ensures !Contains(Lower(s), q)
  {
    if Contains(Lower(s), q) {
      ContainsChar(Lower(s), q, k);
    }
  }

  /** An occurrence in `a + [c] + b`, for a `c` the query lacks, lies wholly
      within `a` or wholly within `b`. */
  lemma OccurrenceSides(a: string, c: char, b: string, q: string, i: int)
    requires c !in q && OccursAt(a + [c] + b, q, i)
    ensures OccursAt(a, q, i) || OccursAt(b, q, i - |a| - 1)
  {
    var s := a + [c] + b;
    OccurrenceCovers(s, q, i);
    assert s[|a|] == c;
    if i + |q| <= |a| {
      assert s[i..i + |q|] == a[i..i + |q|];
    } else if i > |a| {
      assert s[i..i + |q|] == b[i - |a| - 1..i - |a| - 1 + |q|];
    }
  }

  /** A character the query lacks splits the search: the query occurs in
      `a + [c] + b` exactly when it occurs in `a` or in `b`. */
  lemma Separated(a: string, c: char, b: string, q: string)
    requires c !in q
    ensures Contains(a + [c] + b, q) <==> Contains(a, q) || Contains(b, q)
  {
    var s := a + [c] + b;
    if Contains(s, q) {
      var i :| 0 <= i <= |s| - |q| && OccursAt(s, q, i);
      OccurrenceSides(a, c, b, q, i);
      if OccursAt(a, q, i) {
        assert 0 <= i <= |a| - |q|;
      } else {
        assert 0 <= i - |a| - 1 <= |b| - |q|;
      }
    }
    if Contains(a, q) {
      var i :| 0 <= i <= |a| - |q| && OccursAt(a, q, i);
      assert s[i..i + |q|] == a[i..i + |q|];
      assert OccursAt(s, q, i);
    }
    if Contains(b, q) {
      var i :| 0 <= i <= |b| - |q| && OccursAt(b, q, i);
      assert s[i + |a| + 1..i + |a| + 1 + |q|] == b[i..i + |q|];
      assert OccursAt(s, q, i + |a| + 1);
    }
  }
}
