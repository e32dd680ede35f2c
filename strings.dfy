/**
  The few functions of Go's `strings` package that the forwarder calls,
  over `seq<char>`.  `ToLower` is the ASCII case mapping.
 */
module GoStrings {

  /** `strings.HasPrefix`: `s` begins with `prefix`. */
  predicate HasPrefix(s: string, prefix: string): (b: bool)
    ensures b <==> |prefix| <= |s| && prefix + s[|prefix|..] == s
  {
    |prefix| <= |s| && s[..|prefix|] == prefix
  }

  /** `strings.TrimPrefix`: `s` without a leading `prefix`, or `s` itself when it has none. */
  function TrimPrefix(s: string, prefix: string): (r: string)
    ensures HasPrefix(s, prefix) ==> prefix + r == s
    ensures !HasPrefix(s, prefix) ==> r == s
    ensures |r| <= |s|
  {
    if HasPrefix(s, prefix) then s[|prefix|..] else s
  }

  /** `sub` occurs in `s` starting at index `i`. */
  predicate OccursAt(s: string, sub: string, i: nat)
  {
    i + |sub| <= |s| && s[i..i + |sub|] == sub
  }

  /** `strings.Contains`: `sub` occurs somewhere in `s` (the empty string occurs everywhere). */
  predicate Contains(s: string, sub: string): (b: bool)
    ensures HasPrefix(s, sub) ==> b
    ensures b ==> |sub| <= |s|
    decreases |s|
  {
    |sub| <= |s| && (HasPrefix(s, sub) || (|s| > 0 && Contains(s[1..], sub)))
  }

  /** The scan above finds `sub` exactly when it occurs at some index. */
  lemma {:induction false} ContainsIff(s: string, sub: string)
    ensures Contains(s, sub) <==> exists i: nat :: OccursAt(s, sub, i)
    decreases |s|
  {
    if HasPrefix(s, sub) {
      assert OccursAt(s, sub, 0);
    } else if |s| == 0 {
    } else {
      ContainsIff(s[1..], sub);
      if Contains(s[1..], sub) {
        var i: nat :| OccursAt(s[1..], sub, i);
        SliceOfTail(s, i, |sub|);
        assert OccursAt(s, sub, i + 1);
      } else {
        forall i: nat | OccursAt(s, sub, i) ensures false {
          if i > 0 {
            SliceOfTail(s, i - 1, |sub|);
            assert OccursAt(s[1..], sub, i - 1);
          }
        }
      }
    }
  }

  /** A slice of `s[1..]` is the same slice of `s`, one place further on. */
  lemma SliceOfTail(s: string, i: nat, n: nat)
    requires i + n + 1 <= |s|
    ensures s[1..][i..i + n] == s[i + 1..i + 1 + n]
  {
  }

  /** A string never contains a longer one. */
  lemma ShorterNeverContains(s: string, sub: string)
    requires |s| < |sub|
    ensures !Contains(s, sub)
  {
  }

  predicate IsUpperAscii(c: char)
  {
    'A' <= c <= 'Z'
  }

  /** ASCII lower-casing of one character: only `A`..`Z` change, and nothing upper-case is left. */
  function LowerChar(c: char): (d: char)
    ensures !IsUpperAscii(d)
    ensures IsUpperAscii(c) || d == c
    ensures IsUpperAscii(c) ==> d as int - c as int == 'a' as int - 'A' as int
  {
    if IsUpperAscii(c) then (c as int + ('a' as int - 'A' as int)) as char else c
  }

  /** No ASCII upper-case letter in `s`. */
  predicate IsLower(s: string)
  {
    forall i :: 0 <= i < |s| ==> !IsUpperAscii(s[i])
  }

  /** `strings.ToLower` restricted to ASCII: character-wise `LowerChar`. */
  function ToLower(s: string): (r: string)
    ensures |r| == |s|
    ensures forall i :: 0 <= i < |s| ==> r[i] == LowerChar(s[i])
    ensures IsLower(r)
  {
    if s == [] then [] else [LowerChar(s[0])] + ToLower(s[1..])
  }

  /** `k` is `s` without its first `n` characters, lower-cased character by character. */
  predicate LowerCasedFrom(s: string, n: nat, k: string)
  {
    n <= |s| && |k| == |s| - n &&
    forall i :: 0 <= i < |k| ==> k[i] == LowerChar(s[i + n])
  }

  /** Lower-casing a string that is already lower case changes nothing. */
  lemma LowerIsFixed(s: string)
    requires IsLower(s)
    ensures ToLower(s) == s
  {
    var r := ToLower(s);
    assert forall i :: 0 <= i < |s| ==> r[i] == s[i];
  }
}
