/**
 * String helpers used to build directory names: ASCII lower-casing
 * (`String.prototype.toLowerCase` restricted to ASCII letters) and
 * `Array.prototype.join` over strings.
 */
module Strings {

  /** True for a character that lower-casing leaves alone. */
  predicate IsLowerChar(c: char) {
    !('A' <= c <= 'Z')
  }

  /** True when no character of `s` is an upper-case ASCII letter. */
  predicate IsLower(s: string) {
    forall i :: 0 <= i < |s| ==> IsLowerChar(s[i])
  }

  /** Lower-cases one ASCII letter; every other character is kept. */
  function LowerChar(c: char): char {
    if 'A' <= c <= 'Z' then (c as int + 32) as char else c
  }

  /** Lower-cases `s`: same length, and no upper-case letter is left. */
  function Lower(s: string): (r: string)
    ensures |r| == |s|
    ensures IsLower(r)
  {
    if s == [] then [] else [LowerChar(s[0])] + Lower(s[1..])
  }

  /**
   * Lower-casing only changes case: the result agrees with `s` character by
   * character once case is ignored (with IsLower, this determines it uniquely).
   */
  lemma {:induction false} LowerIgnoresOnlyCase(s: string)
    ensures forall i :: 0 <= i < |s| ==> LowerChar(Lower(s)[i]) == LowerChar(s[i])
  {
    if s != [] {
      LowerIgnoresOnlyCase(s[1..]);
      assert forall i :: 1 <= i < |s| ==> Lower(s)[i] == Lower(s[1..])[i - 1];
    }
  }

  /** Lower-casing a string that is already lower-case changes nothing. */
  lemma {:induction false} LowerOfLower(s: string)
    requires IsLower(s)
    ensures Lower(s) == s
  {
    if s != [] {
      LowerOfLower(s[1..]);
    }
  }

  /** Lower-casing is idempotent. */
  lemma LowerIdempotent(s: string)
    ensures Lower(Lower(s)) == Lower(s)
  {
    LowerOfLower(Lower(s));
  }

  /** Lower-casing distributes over concatenation. */
  lemma {:induction false} LowerAppend(a: string, b: string)
    ensures Lower(a + b) == Lower(a) + Lower(b)
  {
    if a == [] {
      assert a + b == b;
    } else {
      assert (a + b)[0] == a[0] && (a + b)[1..] == a[1..] + b;
      LowerAppend(a[1..], b);
      assert Lower(a + b) == [LowerChar(a[0])] + (Lower(a[1..]) + Lower(b));
    }
  }

  /** `parts.join(sep)`: the parts in order, with `sep` between neighbours. */
  function Join(parts: seq<string>, sep: string): (r: string)
    ensures parts == [] ==> r == ""
    ensures |parts| == 1 ==> r == parts[0]
    ensures |parts| > 1 ==> parts[0] + sep <= r
  {
    if parts == [] then ""
    else if |parts| == 1 then parts[0]
    else parts[0] + sep + Join(parts[1..], sep)
  }

  /** Joining two non-empty lists is joining each and putting `sep` between. */
  lemma {:induction false} JoinAppend(a: seq<string>, b: seq<string>, sep: string)
    requires a != [] && b != []
    ensures Join(a + b, sep) == Join(a, sep) + sep + Join(b, sep)
  {
    if |a| == 1 {
      assert (a + b)[1..] == b;
    } else {
      assert (a + b)[1..] == a[1..] + b;
      JoinAppend(a[1..], b, sep);
    }
  }

  /** When no part is empty, the join is empty exactly when there are no parts. */
  lemma {:induction false} JoinEmptyIff(parts: seq<string>, sep: string)
    requires forall i :: 0 <= i < |parts| ==> parts[i] != ""
    ensures Join(parts, sep) == "" <==> parts == []
  {
    if |parts| > 1 {
      assert |Join(parts, sep)| >= |parts[0]|;
    }
  }
}
