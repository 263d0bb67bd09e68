/** What several modules share. */
module Basics {

  datatype Option<+T> = None | Some(value: T)

  function Max(x: real, y: real): real {
    if x >= y then x else y
  }

  ghost predicate Distinct(a: seq<int>) {
    forall i, j :: 0 <= i < j < |a| ==> a[i] != a[j]
  }

  lemma NoneMeansEmpty<T>(m: multiset<T>)
    ensures (forall x :: x !in m) ==> m == multiset{}
  {
    if forall x :: x !in m {
      assert m == multiset{};
    }
  }

  lemma SomeElement<T>(m: multiset<T>) returns (x: T)
    requires m != multiset{}
    ensures x in m
  {
    NoneMeansEmpty(m);
    x :| x in m;
  }

  ghost function Image<T(!new), U(!new)>(f: T -> U, xs: set<T>): set<U> {
    set x | x in xs :: f(x)
  }

  lemma {:induction false} ImageSize<T(!new), U(!new)>(f: T -> U, xs: set<T>)
    ensures |Image(f, xs)| <= |xs|
  {
    if xs == {} {
      assert Image(f, xs) == {};
    } else {
      var u :| u in xs;
      ImageSize(f, xs - {u});
      assert Image(f, xs) == Image(f, xs - {u}) + {f(u)};
    }
  }

  lemma SubsetSize<T>(a: set<T>, b: set<T>)
    requires a <= b
    ensures |a| <= |b|
  {
    assert b == a + (b - a);
  }
}
