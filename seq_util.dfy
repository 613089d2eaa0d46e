/** Facts about sequences used by the list operations of the server and the client. */
module SeqUtil {

  /** No element occurs twice. */
  predicate Distinct<T(==)>(s: seq<T>) {
    forall i, j :: 0 <= i < j < |s| ==> s[i] != s[j]
  }

  /** `a` is obtained from `b` by deleting elements, keeping the order of the rest. */
  predicate IsSubsequence<T(==)>(a: seq<T>, b: seq<T>)
    decreases |b|
  {
    if a == [] then true
    else if b == [] then false
    else if a[0] == b[0] then IsSubsequence(a[1..], b[1..])
    else IsSubsequence(a, b[1..])
  }

  /** The set of elements of a sequence. */
  function Elements<T>(s: seq<T>): set<T> {
    set x | x in s
  }

  lemma DistinctTail<T>(s: seq<T>)
    requires |s| > 0
    ensures Distinct(s) <==> s[0] !in s[1..] && Distinct(s[1..])
  {
    if s[0] !in s[1..] && Distinct(s[1..]) {
      forall i, j | 0 <= i < j < |s| ensures s[i] != s[j] {
        if i == 0 {
          assert s[j] == s[1..][j - 1];
        } else {
          assert s[i] == s[1..][i - 1] && s[j] == s[1..][j - 1];
        }
      }
    }
  }

  /** A sequence has at most as many distinct elements as entries, and exactly as many iff no
      element repeats. */
  lemma {:induction false} ElementsCardinality<T>(s: seq<T>)
    ensures |Elements(s)| <= |s|
    ensures |Elements(s)| == |s| <==> Distinct(s)
  {
    if s == [] {
      assert Elements(s) == {};
    } else {
      ElementsCardinality(s[1..]);
      DistinctTail(s);
      assert Elements(s) == {s[0]} + Elements(s[1..]);
      if s[0] in s[1..] {
        assert Elements(s) == Elements(s[1..]);
      } else {
        assert s[0] !in Elements(s[1..]);
        assert |Elements(s)| == 1 + |Elements(s[1..])|;
      }
    }
  }

  /** A proper subset of a finite set is strictly smaller. */
  lemma ProperSubsetSmaller<T>(a: set<T>, b: set<T>)
    requires a < b
    ensures |a| < |b|
  {
    assert b - a != {};
    var x :| x in b - a;
    var rest := b - {x};
    assert a <= rest;
    SubsetNotLarger(a, rest);
  }

  lemma SubsetNotLarger<T>(a: set<T>, b: set<T>)
    requires a <= b
    ensures |a| <= |b|
  {
    assert b == a + (b - a);
    assert a * (b - a) == {};
  }

  /** The elements of `s` that also lie in `known` are as many as the entries of `s` exactly when
      `s` repeats nothing and every element is known. */
  lemma {:induction false} KnownCount<T>(s: seq<T>, known: set<T>)
    ensures |Elements(s) * known| <= |s|
    ensures |Elements(s) * known| == |s| <==> Distinct(s) && Elements(s) <= known
  {
    ElementsCardinality(s);
    SubsetNotLarger(Elements(s) * known, Elements(s));
    if !(Elements(s) <= known) {
      ProperSubsetSmaller(Elements(s) * known, Elements(s));
    } else {
      assert Elements(s) * known == Elements(s);
    }
  }
}
