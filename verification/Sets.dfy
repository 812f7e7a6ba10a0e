/** Cardinality facts about finite sets. */
module Sets {

  lemma Pick<T>(s: set<T>) returns (x: T)
    requires s != {}
    ensures x in s
  {
    x :| x in s;
  }

  lemma {:induction false} SubsetSize<T>(a: set<T>, b: set<T>)
    requires a <= b
    ensures |a| <= |b|
    ensures |a| == |b| ==> a == b
  {
    if a != {} {
      var x := Pick(a);
      SubsetSize(a - {x}, b - {x});
    }
  }

  /** A larger set has an element outside a smaller one. */
  lemma PickOutside<T>(a: set<T>, b: set<T>) returns (x: T)
    requires |b| < |a|
    ensures x in a && x !in b
  {
    if forall y :: y in a ==> y in b {
      SubsetSize(a, b);
    }
    x :| x in a && x !in b;
  }

  /** The numbers 0 to n - 1. */
  ghost function Below(n: int): (s: set<int>)
    ensures forall i :: i in s <==> 0 <= i < n
    ensures |s| == if n <= 0 then 0 else n
  {
    if n <= 0 then {} else Below(n - 1) + {n - 1}
  }
}
