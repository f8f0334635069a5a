/**
 * The two string primitives the mock predictors are built from: `str.lower()`
 * restricted to ASCII, and the substring test `k in name`, together with
 * `any(k in name for k in keywords)`.
 */
module Text {

  /** An upper-case ASCII letter. */
  predicate IsUpper(c: char) {
    'A' <= c <= 'Z'
  }

  /** `str.lower()` on one character, ASCII only: A-Z map to a-z, everything else is kept. */
  function LowerChar(c: char): (r: char)
    ensures !IsUpper(r)
    ensures !IsUpper(c) ==> r == c
    ensures IsUpper(c) ==> 'a' <= r <= 'z' && r as int - 'a' as int == c as int - 'A' as int
  {
    if IsUpper(c) then (c as int - 'A' as int + 'a' as int) as char else c
  }

  /** A string with no upper-case ASCII letter. */
  ghost predicate IsLower(s: string) {
    forall i :: 0 <= i < |s| ==> !IsUpper(s[i])
  }

  /** `s.lower()`, ASCII only: the same length, each character lowered on its own. */
  function Lower(s: string): (r: string)
    ensures |r| == |s|
    ensures forall i :: 0 <= i < |s| ==> r[i] == LowerChar(s[i])
    ensures IsLower(r)
  {
    if s == [] then [] else [LowerChar(s[0])] + Lower(s[1..])
  }

  /** Lowering a string that is already lower case changes nothing. */
  lemma LowerKeepsLower(s: string)
    requires IsLower(s)
    ensures Lower(s) == s
  {
  }

  /** Lowering twice is lowering once: `s.lower().lower() == s.lower()`. */
  lemma LowerIdempotent(s: string)
    ensures Lower(Lower(s)) == Lower(s)
  {
    LowerKeepsLower(Lower(s));
  }

  /** `k` occurs in `s` starting at index `i`. */
  ghost predicate OccursAt(k: string, s: string, i: int) {
    0 <= i && i + |k| <= |s| && s[i..i + |k|] == k
  }

  /** Reference meaning of Python's `k in s` on strings: `k` is a contiguous piece of `s`. */
  ghost predicate Occurs(k: string, s: string) {
    exists i :: OccursAt(k, s, i)
  }

  /** A keyword holding a character that `s` lacks cannot occur in `s`. */
  lemma MissingCharExcludes(k: string, s: string, c: char)
    requires c in k && c !in s
    ensures !Occurs(k, s)
  {
  }

  /** An occurrence in the tail of `s` is an occurrence in `s`, one index further on, and back. */
  lemma OccursShift(k: string, s: string, i: int)
    requires s != [] && 0 <= i
    ensures OccursAt(k, s[1..], i) <==> OccursAt(k, s, i + 1)
  {
    if i + 1 + |k| <= |s| {
      assert s[1..][i..i + |k|] == s[i + 1..i + 1 + |k|];
    }
  }

  /** Python's `k in s`: scans the start positions of `s` from the left. */
  function Contains(s: string, k: string): (r: bool)
    ensures r <==> Occurs(k, s)
    decreases |s|
  {
    if |k| > |s| then
      false
    else if s[..|k|] == k then
      assert OccursAt(k, s, 0);
      true
    else
      assert !OccursAt(k, s, 0);
      var rest := Contains(s[1..], k);
      assert rest ==> Occurs(k, s) by {
        if rest {
          var j :| OccursAt(k, s[1..], j);
          OccursShift(k, s, j);
        }
      }
      assert Occurs(k, s) ==> rest by {
        if Occurs(k, s) {
          var j :| OccursAt(k, s, j);
          assert j != 0;
          OccursShift(k, s, j - 1);
        }
      }
      rest
  }

  /** Reference meaning of `any(k in s for k in keys)`: some keyword occurs in `s`. */
  ghost predicate MentionsAny(s: string, keys: seq<string>) {
    exists j :: 0 <= j < |keys| && Occurs(keys[j], s)
  }

  /** `any(k in s for k in keys)`, testing the keywords in order. */
  function AnyKeyword(s: string, keys: seq<string>): (r: bool)
    ensures r <==> MentionsAny(s, keys)
  {
    if keys == [] then
      false
    else
      var rest := AnyKeyword(s, keys[1..]);
      assert rest <==> exists j :: 1 <= j < |keys| && Occurs(keys[j], s) by {
        if rest {
          var j :| 0 <= j < |keys[1..]| && Occurs(keys[1..][j], s);
          assert keys[1..][j] == keys[j + 1];
        }
        if exists j :: 1 <= j < |keys| && Occurs(keys[j], s) {
          var j :| 1 <= j < |keys| && Occurs(keys[j], s);
          assert keys[1..][j - 1] == keys[j];
        }
      }
      Contains(s, keys[0]) || rest
  }
}
