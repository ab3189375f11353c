/**
  The two helper objects the zeroing procedure uses, modelled from how it uses them
  (their own source, utils.py, is not part of this model):
  - a moving-average filter: a window of `size` values that starts filled with
    `initial_value`; `update(x)` drops the oldest value and appends `x`; `average()`
    is the mean of the window;
  - a step counter that becomes true once `step()` has been called `after` times.
*/
module Filters {

  function Repeat(x: real, n: nat): seq<real> {
    seq(n, _ => x)
  }

  function Sum(s: seq<real>): real {
    if |s| == 0 then 0.0 else s[0] + Sum(s[1..])
  }

  /** The window a filter of `size` values started at `init` holds after updates with `xs`. */
  function Window(init: real, size: nat, xs: seq<real>): (w: seq<real>)
    ensures |w| == size
  {
    (Repeat(init, size) + xs)[|xs|..]
  }

  function Mean(w: seq<real>): real
    requires |w| > 0
  {
    Sum(w) / |w| as real
  }

  /** One more update drops the oldest value of the window and appends the new one. */
  lemma {:induction false} WindowStep(init: real, size: nat, xs: seq<real>, x: real)
    requires size > 0
    ensures Window(init, size, xs + [x]) == Window(init, size, xs)[1..] + [x]
  {
    var p := Repeat(init, size);
    assert p + (xs + [x]) == (p + xs) + [x];
    assert ((p + xs) + [x])[|xs| + 1..] == (p + xs)[|xs| + 1..] + [x];
    assert (p + xs)[|xs|..][1..] == (p + xs)[|xs| + 1..];
  }

  /** A window updated with `x` is the window of the history extended by `x`. */
  lemma WindowNext(init: real, size: nat, xs: seq<real>, x: real, w: seq<real>, w': seq<real>)
    requires size > 0 && w == Window(init, size, xs) && w' == w[1..] + [x]
    ensures w' == Window(init, size, xs + [x])
  {
    WindowStep(init, size, xs, x);
  }

  /** Once `size` values have gone in, the initial value has left the window. */
  lemma WindowOfLongHistory(init: real, size: nat, xs: seq<real>)
    requires |xs| >= size
    ensures Window(init, size, xs) == xs[|xs| - size..]
  {
    var p := Repeat(init, size);
    assert forall i :: 0 <= i < size ==> (p + xs)[|xs|..][i] == xs[|xs| - size..][i];
  }

  /** Every value in the window is the initial value or one of the updates. */
  lemma WindowValues(init: real, size: nat, xs: seq<real>)
    ensures forall i :: 0 <= i < size ==> Window(init, size, xs)[i] == init || Window(init, size, xs)[i] in xs
  {
    var p := Repeat(init, size);
    forall i | 0 <= i < size
      ensures Window(init, size, xs)[i] == init || Window(init, size, xs)[i] in xs
    {
      assert Window(init, size, xs)[i] == (p + xs)[|xs| + i];
      if |xs| + i >= size {
        assert (p + xs)[|xs| + i] == xs[|xs| + i - size];
      }
    }
  }

  /** A window whose values are all `x` sums to `x` times its length. */
  lemma {:induction false} SumConstant(s: seq<real>, x: real)
    requires forall i :: 0 <= i < |s| ==> s[i] == x
    ensures Sum(s) == x * |s| as real
  {
    if |s| != 0 {
      SumConstant(s[1..], x);
    }
  }

  /** The mean of a window whose values are all `x` is `x`. */
  lemma MeanConstant(s: seq<real>, x: real)
    requires |s| > 0
    requires forall i :: 0 <= i < |s| ==> s[i] == x
    ensures Mean(s) == x
  {
    SumConstant(s, x);
    var n := |s| as real;
    assert Sum(s) == x * n;
    assert (x * n) / n == x;
  }

  /** A moving-average filter with the window it currently holds. */
  class MovingAverageFilter {
    const size: nat
    var window: seq<real>

    ghost predicate Valid()
      reads this
    {
      size > 0 && |window| == size
    }

    constructor (initialValue: real, size: nat)
      requires size > 0
      ensures Valid() && this.size == size
      ensures window == Repeat(initialValue, size)
    {
      this.size := size;
      window := Repeat(initialValue, size);
    }

    method Update(x: real)
      requires Valid()
      modifies this
      ensures Valid()
      ensures window == old(window)[1..] + [x]
    {
      window := window[1..] + [x];
    }

    function Average(): real
      reads this
      requires Valid()
    {
      Mean(window)
    }
  }

  /** A counter of `step()` calls that reports whether `after` of them have happened. */
  class TrueAfter {
    const after: nat
    var steps: nat

    constructor (after: nat)
      ensures this.after == after && steps == 0
    {
      this.after := after;
      steps := 0;
    }

    method Step()
      modifies this
      ensures steps == old(steps) + 1
    {
      steps := steps + 1;
    }

    function IsAfter(): bool
      reads this
    {
      steps >= after
    }
  }
}
