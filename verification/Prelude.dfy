/** Small shared vocabulary: optional values, outcomes, and facts about finite sets. */
module Prelude {

  datatype Option<+T> = None | Some(value: T)

  datatype Result<+T, +E> = Success(value: T) | Failure(error: E)

  lemma SubsetSize<T>(a: set<T>, b: set<T>)
    requires a <= b
    ensures |a| <= |b|
    ensures a != b ==> |a| < |b|
  {
    assert b == a + (b - a);
    assert b - a == {} ==> b == a;
  }

  ghost predicate Injective<S(!new), T>(f: S -> T) {
    forall x, y :: f(x) == f(y) ==> x == y
  }

  /** An injective image of a finite set is as large as the set. */
  lemma ImageSize<S(!new), T>(f: S -> T, a: set<S>, image: set<T>)
    requires Injective(f)
    requires forall x :: x in a ==> f(x) in image
    requires forall y :: y in image ==> exists x :: x in a && f(x) == y
    ensures |image| == |a|
    decreases |a|
  {
    if a == {} {
      assert image == {};
    } else {
      var x :| x in a;
      ImageSize(f, a - {x}, image - {f(x)});
    }
  }

  /** Taking one more place into account. */
  lemma OneMorePlace<T>(before: set<T>, after: set<T>, n: T, more: bool)
    requires n !in before
    requires forall i :: i in after <==> (i in before || (more && i == n))
    ensures |after| == |before| + if more then 1 else 0
  {
    if more {
      assert after == before + {n};
    } else {
      assert after == before;
    }
  }
}
