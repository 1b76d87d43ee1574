/** String helpers shared by the translators: Python's `"".join` and the
    injectivity of concatenation behind a fixed prefix, which keeps generated
    names apart. */
module Text {
  /** `"".join(names)`. */
  function Concat(names: seq<string>): string
  {
    if names == [] then "" else Concat(names[..|names| - 1]) + names[|names| - 1]
  }

  /** Names concatenate injectively once the prefix is fixed. */
  lemma {:induction false} PrefixCancels(prefix: string, x: string, y: string)
    requires prefix + x == prefix + y
    ensures x == y
  {
    assert x == (prefix + x)[|prefix|..];
    assert y == (prefix + y)[|prefix|..];
  }

  /** Names concatenate injectively once the suffix is fixed. */
  lemma {:induction false} SuffixCancels(x: string, y: string, suffix: string)
    requires x + suffix == y + suffix
    ensures x == y
  {
    assert |x| == |y|;
    assert x == (x + suffix)[..|x|];
    assert y == (y + suffix)[..|y|];
  }
}
