/** Insertion into a list kept in a strict order. */
module Sorting {

  ghost predicate Transitive<T(!new)>(less: (T, T) -> bool) {
    forall a, b, c :: less(a, b) && less(b, c) ==> less(a, c)
  }

  predicate Ordered<T>(less: (T, T) -> bool, s: seq<T>) {
    forall i, j :: 0 <= i < j < |s| ==> less(s[i], s[j])
  }

  function Inserted<T>(less: (T, T) -> bool, s: seq<T>, x: T): seq<T> {
    if s == [] || less(x, s[0]) then [x] + s else [s[0]] + Inserted(less, s[1..], x)
  }

  /** Inserting what compares with every element keeps the order and adds just that. */
  lemma {:induction false} InsertedIsOrdered<T(!new)>(less: (T, T) -> bool, s: seq<T>, x: T)
    requires Transitive(less) && Ordered(less, s) && forall y :: y in s ==> less(x, y) || less(y, x)
    ensures Ordered(less, Inserted(less, s, x))
    ensures forall y :: y in Inserted(less, s, x) <==> y in s || y == x
    decreases |s|
  {
    if s != [] && !less(x, s[0]) {
      InsertedIsOrdered(less, s[1..], x);
      var rest := Inserted(less, s[1..], x);
      forall i | 0 <= i < |rest|
        ensures less(s[0], rest[i])
      {
        assert rest[i] in s[1..] || rest[i] == x;
      }
      assert s == [s[0]] + s[1..];
    }
  }
}
