/** Strings compared as Python and SQLite compare them, and split at separators. */
module Text {

  predicate LexLess(a: string, b: string) {
    if b == [] then false
    else if a == [] then true
    else a[0] < b[0] || (a[0] == b[0] && LexLess(a[1..], b[1..]))
  }

  predicate AtMost(a: string, b: string) {
    !LexLess(b, a)
  }

  lemma {:induction false} LexAsymmetric(a: string, b: string)
    ensures !(LexLess(a, b) && LexLess(b, a))
    ensures LexLess(a, b) || LexLess(b, a) || a == b
    decreases |a|
  {
    if a != [] && b != [] {
      LexAsymmetric(a[1..], b[1..]);
      assert a == [a[0]] + a[1..] && b == [b[0]] + b[1..];
    }
  }

  lemma {:induction false} LexTransitive(a: string, b: string, c: string)
    requires LexLess(a, b) && LexLess(b, c)
    ensures LexLess(a, c)
    decreases |a|
  {
    if a != [] && b != [] && c != [] && a[0] == b[0] == c[0] {
      LexTransitive(a[1..], b[1..], c[1..]);
    }
  }

  lemma AtMostTransitive(a: string, b: string, c: string)
    requires AtMost(a, b) && AtMost(b, c)
    ensures AtMost(a, c)
  {
    if LexLess(c, a) {
      LexAsymmetric(a, b);
      LexAsymmetric(b, c);
      if a != b && b != c {
        LexTransitive(c, a, b);
        LexAsymmetric(b, c);
      }
    }
  }

  /** A separator that is in neither head splits a string in one way only. */
  lemma {:induction false} OneSplit(a: string, b: string, c: string, d: string, sep: char)
    requires sep !in a && sep !in c && a + [sep] + b == c + [sep] + d
    ensures a == c && b == d
    decreases |a|
  {
    var left, right := a + [sep] + b, c + [sep] + d;
    assert left[0] == (if a == [] then sep else a[0]) && right[0] == (if c == [] then sep else c[0]);
    if a == [] {
      assert left[1..] == b && right[1..] == d;
    } else {
      assert left[1..] == a[1..] + [sep] + b && right[1..] == c[1..] + [sep] + d;
      OneSplit(a[1..], b, c[1..], d, sep);
      assert a == [a[0]] + a[1..] && c == [c[0]] + c[1..];
    }
  }
}
