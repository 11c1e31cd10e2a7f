/** Small helpers shared by the models. */
module Common {

  datatype Option<+T> = None | Some(value: T)

  function Max(a: int, b: int): int {
    if a >= b then a else b
  }

  function Min(a: int, b: int): int {
    if a <= b then a else b
  }

  /** The elements of a sequence as a set. */
  function Elements<T>(s: seq<T>): set<T> {
    set x | x in s
  }

  lemma SubsetCardinality<T>(a: set<T>, b: set<T>)
    requires a <= b
    ensures |a| <= |b|
  {
    assert b == a + (b - a);
  }

  /** A set inside `base` plus `extra` has at most as many elements as both. */
  lemma UnionCardinality<T>(s: set<T>, base: set<T>, extra: set<T>)
    requires s <= base + extra
    ensures |s| <= |base| + |extra|
  {
    SubsetCardinality(s, base + extra);
    assert |base + extra| == |base| + |extra| - |base * extra|;
  }
}
