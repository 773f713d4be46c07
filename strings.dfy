/**
  The two string tests of Go's `strings` package that the request router
  relies on, over `seq<char>`: `HasPrefix` and `Contains`.
 */
module GoStrings {

  /** `strings.HasPrefix(s, prefix)`: `prefix` is a prefix of `s`. */
  predicate HasPrefix(s: string, prefix: string) {
    prefix <= s
  }

  /** Go defines `HasPrefix` by slicing: `s` is at least as long as
      `prefix` and its first `len(prefix)` characters are `prefix`. */
  lemma HasPrefixBySlice(s: string, prefix: string)
    ensures HasPrefix(s, prefix) <==> |prefix| <= |s| && s[..|prefix|] == prefix
  {
  }

  /** `sub` occurs in `s` starting at index `i`. */
  predicate OccursAt(s: string, sub: string, i: nat) {
    i <= |s| && HasPrefix(s[i..], sub)
  }

  /** `strings.Contains(s, sub)`: scan `s` left to right for an occurrence
      of `sub`; the empty string occurs everywhere. */
  predicate Contains(s: string, sub: string)
    decreases |s|
  {
    HasPrefix(s, sub) || (|s| > 0 && Contains(s[1..], sub))
  }

  /** Two candidate prefixes that disagree at some position can never both
      start the same string; this is what keeps the router's cases apart. */
  lemma PrefixesExclusive(s: string, a: string, b: string, i: nat)
    requires i < |a| && i < |b| && a[i] != b[i]
    ensures !(HasPrefix(s, a) && HasPrefix(s, b))
  {
  }

  /** `Contains` holds exactly when `sub` occurs at some index of `s`,
      which is what Go documents for `strings.Contains`. */
  lemma {:induction false} ContainsIffOccurs(s: string, sub: string)
    ensures Contains(s, sub) <==> exists i: nat :: OccursAt(s, sub, i)
    decreases |s|
  {
    if Contains(s, sub) {
      if HasPrefix(s, sub) {
        assert OccursAt(s, sub, 0);
      } else {
        ContainsIffOccurs(s[1..], sub);
        var j: nat :| OccursAt(s[1..], sub, j);
        assert s[1..][j..] == s[j + 1..];
        assert OccursAt(s, sub, j + 1);
      }
    }
    if exists i: nat :: OccursAt(s, sub, i) {
      var i: nat :| OccursAt(s, sub, i);
      if i == 0 {
        assert s[0..] == s;
      } else {
        assert s[1..][i - 1..] == s[i..];
        assert OccursAt(s[1..], sub, i - 1);
        ContainsIffOccurs(s[1..], sub);
      }
    }
  }

  /** A string shorter than `sub` cannot contain it. */
  lemma {:induction false} TooShortNotContained(s: string, sub: string)
    requires |s| < |sub|
    ensures !Contains(s, sub)
    decreases |s|
  {
    if |s| > 0 {
      TooShortNotContained(s[1..], sub);
    }
  }
}
