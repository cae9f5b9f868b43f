/**
 * Matching of literal patterns inside messages, the way the migration tool uses Ruby
 * regular expressions made of plain text (`message.match?(/Lost connection .../)`).
 */
module Text {

  /** `p` occurs in `s` starting at index `i`. */
  predicate OccursAt(s: string, p: string, i: int)
  {
    0 <= i && i + |p| <= |s| && s[i..i + |p|] == p
  }

  /** `s` starts with `p`. */
  predicate IsPrefix(p: string, s: string)
  {
    |p| <= |s| && (|p| == 0 || (p[0] == s[0] && IsPrefix(p[1..], s[1..])))
  }

  /** `s` contains `p` somewhere: the unanchored match of a literal pattern. */
  predicate Contains(s: string, p: string)
    decreases |s|
  {
    IsPrefix(p, s) || (|s| > 0 && Contains(s[1..], p))
  }

  lemma {:induction false} IsPrefixIff(p: string, s: string)
    ensures IsPrefix(p, s) <==> OccursAt(s, p, 0)
  {
    if |p| > 0 && |p| <= |s| {
      IsPrefixIff(p[1..], s[1..]);
      assert s[..|p|] == [s[0]] + s[1..][..|p| - 1];
      assert p == [p[0]] + p[1..];
    }
  }

  lemma {:induction false} OccursThenContains(s: string, p: string, i: int)
    requires OccursAt(s, p, i)
    ensures Contains(s, p)
    decreases i
  {
    if i == 0 {
      IsPrefixIff(p, s);
    } else {
      assert s[1..][i - 1..i - 1 + |p|] == s[i..i + |p|];
      OccursThenContains(s[1..], p, i - 1);
    }
  }

  lemma {:induction false} ContainsThenOccurs(s: string, p: string) returns (i: int)
    requires Contains(s, p)
    ensures OccursAt(s, p, i)
    decreases |s|
  {
    IsPrefixIff(p, s);
    if IsPrefix(p, s) {
      i := 0;
    } else {
      var j := ContainsThenOccurs(s[1..], p);
      assert s[1..][j..j + |p|] == s[j + 1..j + 1 + |p|];
      i := j + 1;
    }
  }

  /** The recursive matcher agrees with the positional definition of an occurrence. */
  lemma ContainsIff(s: string, p: string)
    ensures Contains(s, p) <==> exists i :: OccursAt(s, p, i)
  {
    if Contains(s, p) {
      var i := ContainsThenOccurs(s, p);
    }
    forall i | OccursAt(s, p, i) ensures Contains(s, p) {
      OccursThenContains(s, p, i);
    }
  }

  /** A pattern holding a character that the text lacks does not occur in it. */
  lemma MissingChar(s: string, p: string, c: char)
    requires c in p && c !in s
    ensures !Contains(s, p)
  {
    var j :| 0 <= j < |p| && p[j] == c;
    forall i | 0 <= i && i + |p| <= |s| ensures !OccursAt(s, p, i) {
      assert s[i..i + |p|][j] == s[i + j];
    }
    ContainsIff(s, p);
  }

  /**
   * A pattern whose first character `c` occurs in `x + [c] + y` only at the marked
   * position, and that disagrees with `y` at offset `j` after it, does not occur.
   */
  lemma AnchoredMismatch(x: string, c: char, y: string, p: string, j: int)
    requires |p| > 0 && p[0] == c && c !in x && c !in y
    requires 0 < j < |p| && j - 1 < |y| && y[j - 1] != p[j]
    ensures !Contains(x + [c] + y, p)
  {
    var s := x + [c] + y;
    forall i | 0 <= i && i + |p| <= |s| ensures !OccursAt(s, p, i) {
      if i < |x| {
        assert s[i..i + |p|][0] == x[i];
      } else if i > |x| {
        assert s[i..i + |p|][0] == y[i - |x| - 1];
      } else {
        assert s[i..i + |p|][j] == y[j - 1];
      }
    }
    ContainsIff(s, p);
  }

  /** A pattern longer than the text does not occur in it. */
  lemma TooLong(s: string, p: string)
    requires |s| < |p|
    ensures !Contains(s, p)
  {
    ContainsIff(s, p);
  }

  /** A text contains each of its prefixes. */
  lemma PrefixContained(p: string, rest: string)
    ensures Contains(p + rest, p)
  {
    assert (p + rest)[0..|p|] == p;
    OccursThenContains(p + rest, p, 0);
  }

  /** A text contains whatever sits between two other texts in it. */
  lemma InfixContained(a: string, p: string, b: string)
    ensures Contains(a + p + b, p)
  {
    assert (a + p + b)[|a|..|a| + |p|] == p;
    OccursThenContains(a + p + b, p, |a|);
  }
}
