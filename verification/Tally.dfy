/** Counting in sequences. */
module Tally {

  function One(yes: bool): nat { if yes then 1 else 0 }

  function Count<T(==)>(items: seq<T>, x: T): nat
  {
    if items == [] then 0 else One(items[0] == x) + Count(items[1..], x)
  }

  lemma {:induction false} CountAppend<T>(a: seq<T>, b: seq<T>, x: T)
    ensures Count(a + b, x) == Count(a, x) + Count(b, x)
  {
    if a == [] {
      assert a + b == b;
    } else {
      CountAppend(a[1..], b, x);
      assert (a + b)[1..] == a[1..] + b;
    }
  }

  lemma CountShort<T>(items: seq<T>, x: T)
    requires |items| <= 2
    ensures Count(items, x)
            == (if |items| > 0 then One(items[0] == x) else 0) + (if |items| > 1 then One(items[1] == x) else 0)
  {
  }
}
