/** Facts about strings built by concatenation, used for paths and URIs. */
module Text {

  /** Stripping a common prefix and a common suffix recovers the middle part. */
  lemma ConcatCancel(prefix: string, x: string, y: string, suffix: string)
    requires prefix + x + suffix == prefix + y + suffix
    ensures x == y
  {
    var s := prefix + x + suffix;
    assert |x| == |y|;
    assert s[|prefix|..|prefix| + |x|] == x;
    assert s[|prefix|..|prefix| + |y|] == y;
  }
}
