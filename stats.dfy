/** The three reductions the quarterly chart applies to a slice of values
    (numpy's `.min()`, `.max()` and `.mean()`), over exact reals. */
module Stats {

  /** The sum of the values, taken from the front. */
  function Sum(s: seq<real>): real
  {
    if s == [] then 0.0 else s[0] + Sum(s[1..])
  }

  /** The least value: no value is below it (and it is one of them, see
      MinIsAttained). */
  function Min(s: seq<real>): (r: real)
    requires |s| > 0
    ensures forall i :: 0 <= i < |s| ==> r <= s[i]
  {
    if |s| == 1 then s[0]
    else
      var rest := Min(s[1..]);
      assert forall i :: 1 <= i < |s| ==> s[i] == s[1..][i - 1];
      if s[0] <= rest then s[0] else rest
  }

  /** The greatest value: no value is above it (and it is one of them, see
      MaxIsAttained). */
  function Max(s: seq<real>): (r: real)
    requires |s| > 0
    ensures forall i :: 0 <= i < |s| ==> s[i] <= r
  {
    if |s| == 1 then s[0]
    else
      var rest := Max(s[1..]);
      assert forall i :: 1 <= i < |s| ==> s[i] == s[1..][i - 1];
      if rest <= s[0] then s[0] else rest
  }

  /** The minimum is one of the values. */
  lemma {:induction false} MinIsAttained(s: seq<real>)
    requires |s| > 0
    ensures Min(s) in s
  {
    if |s| > 1 {
      MinIsAttained(s[1..]);
    }
  }

  /** The maximum is one of the values. */
  lemma {:induction false} MaxIsAttained(s: seq<real>)
    requires |s| > 0
    ensures Max(s) in s
  {
    if |s| > 1 {
      MaxIsAttained(s[1..]);
    }
  }

  /** Values that all lie in [lo, hi] sum to between |s| * lo and |s| * hi. */
  lemma {:induction false} SumBounds(s: seq<real>, lo: real, hi: real)
    requires forall i :: 0 <= i < |s| ==> lo <= s[i] <= hi
    ensures (|s| as real) * lo <= Sum(s) <= (|s| as real) * hi
  {
    if s != [] {
      assert forall i :: 0 <= i < |s| - 1 ==> s[1..][i] == s[i + 1];
      SumBounds(s[1..], lo, hi);
    }
  }

  /** The arithmetic mean (exact division, no rounding); it never leaves the
      range spanned by the values. */
  function Mean(s: seq<real>): (r: real)
    requires |s| > 0
    ensures Min(s) <= r <= Max(s)
  {
    var n := |s| as real;
    SumBounds(s, Min(s), Max(s));
    DivideBounds(Sum(s), n, Min(s), Max(s));
    Sum(s) / n
  }

  /** n * lo <= x <= n * hi with n > 0 gives lo <= x / n <= hi. */
  lemma DivideBounds(x: real, n: real, lo: real, hi: real)
    requires n > 0.0
    requires n * lo <= x <= n * hi
    ensures lo <= x / n <= hi
  {
    assert (n * lo) / n == lo;
    assert (n * hi) / n == hi;
  }

  /** The mean of one value is that value. */
  lemma MeanOfOne(a: real)
    ensures Mean([a]) == a
  {
    assert [a][1..] == [];
  }

  /** The mean of two values is their midpoint. */
  lemma MeanOfTwo(a: real, b: real)
    ensures Mean([a, b]) == (a + b) / 2.0
  {
    assert [b][1..] == [];
    assert Sum([b]) == b;
    assert [a, b][1..] == [b];
    assert Sum([a, b]) == a + b;
  }

  /** The mean of three values is their sum divided by three. */
  lemma MeanOfThree(a: real, b: real, c: real)
    ensures Mean([a, b, c]) == (a + b + c) / 3.0
  {
    assert [c][1..] == [];
    assert Sum([c]) == c;
    assert [b, c][1..] == [c];
    assert Sum([b, c]) == b + c;
    assert [a, b, c][1..] == [b, c];
    assert Sum([a, b, c]) == a + b + c;
  }
}
