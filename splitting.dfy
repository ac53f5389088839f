/**
 * The two-way split primitive the builder delegates to (scikit-learn's
 * `train_test_split` with `random_state=42`). Its shuffle is not part of this
 * model: a `Splitter` is any function from a list and a test fraction to the
 * pair (train part, test part), or to nothing when the call raises. What the
 * builder relies on is stated as two properties of such a function.
 */
module Splitting {
  import opened Wrappers

  /** A `test_size` given as a fraction `num / den`; 0.2 and 0.25 are exact here. */
  datatype Fraction = Fraction(num: nat, den: nat)

  /** A fraction strictly between 0 and 1, the range a float `test_size` must lie in. */
  predicate Proper(f: Fraction)
  {
    0 < f.num < f.den
  }

  /** `test_size=0.2`, the first split (test apart from train+val). */
  const TestFraction: Fraction := Fraction(1, 5)

  /** `test_size=0.25`, the second split (val apart from train). */
  const ValFraction: Fraction := Fraction(1, 4)

  /** The size of the test part for `n` samples: `ceil(f * n)`. */
  function TestCount(n: nat, f: Fraction): nat
    requires f.den > 0
  {
    (f.num * n + f.den - 1) / f.den
  }

  /** What `train_test_split` returns, in its order: the train part, then the test part. */
  datatype Split = Split(train: seq<string>, test: seq<string>)

  type Splitter = (seq<string>, Fraction) -> Option<Split>

  /** Every successful split cuts its input into two parts that together hold each element as often as the input. */
  ghost predicate Partitions(split: Splitter)
  {
    forall xs: seq<string>, f: Fraction ::
      split(xs, f).Some? ==>
        multiset(split(xs, f).value.train) + multiset(split(xs, f).value.test) == multiset(xs)
  }

  /**
   * The sizing rule of the primitive for a proper fraction: the test part has
   * `ceil(f * n)` elements, and the call raises exactly when that leaves the
   * train part empty.
   */
  ghost predicate FollowsSizeRule(split: Splitter)
  {
    forall xs: seq<string>, f: Fraction | Proper(f) ::
      && (split(xs, f).Some? <==> TestCount(|xs|, f) < |xs|)
      && (split(xs, f).Some? ==> |split(xs, f).value.test| == TestCount(|xs|, f))
  }

  /** A splitter that leaves the order alone: the first `ceil(f * n)` elements are the test part. */
  function CutSplit(xs: seq<string>, f: Fraction): Option<Split>
  {
    if f.den > 0 && TestCount(|xs|, f) < |xs| then
      Some(Split(xs[TestCount(|xs|, f)..], xs[..TestCount(|xs|, f)]))
    else None
  }

  /** Both properties can be met together: the cut without shuffling has them. */
  lemma CutSplitIsLawful()
    ensures Partitions(CutSplit)
    ensures FollowsSizeRule(CutSplit)
  {
    forall xs: seq<string>, f: Fraction | CutSplit(xs, f).Some?
      ensures multiset(CutSplit(xs, f).value.train) + multiset(CutSplit(xs, f).value.test) == multiset(xs)
    {
      var k := TestCount(|xs|, f);
      assert xs == xs[..k] + xs[k..];
    }
  }

  /** With both properties the train part holds what the test part leaves. */
  lemma SplitSizes(split: Splitter, xs: seq<string>, f: Fraction)
    requires Partitions(split) && FollowsSizeRule(split)
    requires Proper(f)
    requires split(xs, f).Some?
    ensures |split(xs, f).value.test| == TestCount(|xs|, f)
    ensures |split(xs, f).value.train| == |xs| - TestCount(|xs|, f) > 0
  {
    var s := split(xs, f).value;
    assert |multiset(s.train) + multiset(s.test)| == |multiset(xs)|;
  }
}
