/** Rust's `format!` with one placeholder between two fixed texts, as the
    topic prompt templates use it. */
module Templates {

  /** `format!("{prefix}{hole}{suffix}")` for fixed `prefix` and `suffix`:
      the caller text is embedded verbatim, neither escaped nor trimmed. */
  function Interpolate(prefix: string, hole: string, suffix: string): (r: string)
    ensures |r| == |prefix| + |hole| + |suffix|
    ensures r[..|prefix|] == prefix
    ensures r[|prefix|..|prefix| + |hole|] == hole
    ensures r[|prefix| + |hole|..] == suffix
  {
    prefix + hole + suffix
  }

  /** The hole can be read back from the text, so two different caller
      texts never give the same result. */
  lemma InterpolateInjective(prefix: string, a: string, b: string, suffix: string)
    ensures Interpolate(prefix, a, suffix) == Interpolate(prefix, b, suffix) <==> a == b
  {
    if Interpolate(prefix, a, suffix) == Interpolate(prefix, b, suffix) {
      var r := Interpolate(prefix, a, suffix);
      assert |a| == |b|;
      assert a == r[|prefix|..|prefix| + |a|] == b;
    }
  }
}
