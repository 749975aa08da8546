module Sets {
  /** Sets that agree except perhaps about x. */
  lemma SizesDifferAtOne<T>(a: set<T>, b: set<T>, x: T)
    requires forall y :: y != x ==> (y in a <==> y in b)
    ensures |b| - |a| == (if x in b then 1 else 0) - (if x in a then 1 else 0)
  {
    assert a - {x} == b - {x};
    assert x in a ==> |a - {x}| == |a| - 1;
    assert x in b ==> |b - {x}| == |b| - 1;
    assert x !in a ==> a - {x} == a;
    assert x !in b ==> b - {x} == b;
  }
}
