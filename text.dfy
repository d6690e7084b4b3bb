/** The one string test the identifier validators use. */
module Text {

  /** Kotlin's `String.startsWith(prefix)`: `prefix` is an initial segment of `s`. */
  predicate StartsWith(s: string, prefix: string) {
    |prefix| <= |s| && s[..|prefix|] == prefix
  }

  /** `StartsWith` holds exactly when `s` is `prefix` followed by some suffix. */
  lemma StartsWithIffConcat(s: string, prefix: string)
    ensures StartsWith(s, prefix) <==> exists suffix :: s == prefix + suffix
  {
    if StartsWith(s, prefix) {
      assert s == prefix + s[|prefix|..];
    }
  }

  /** Every string that begins with `prefix`, the prefix alone included, passes the test. */
  lemma StartsWithAnySuffix(prefix: string, suffix: string)
    ensures StartsWith(prefix + suffix, prefix)
  {
    assert (prefix + suffix)[..|prefix|] == prefix;
  }

  /** The empty string starts only with the empty prefix. */
  lemma EmptyStartsWithNothing(prefix: string)
    requires prefix != []
    ensures !StartsWith([], prefix)
  {
  }
}
