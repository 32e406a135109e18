/** Sorting by a strict weak order, the lexicographic order on strings, and when the result is unique. */
module Sorting {
  import opened Sequences

  ghost predicate StrictWeak<T(!new)>(less: (T, T) -> bool) {
    && (forall x :: !less(x, x))
    && (forall x, y, z :: less(x, y) && less(y, z) ==> less(x, z))
    && (forall x, y, z :: !less(x, y) && !less(y, z) ==> !less(x, z))
  }

  ghost predicate Sorted<T(!new)>(s: seq<T>, less: (T, T) -> bool) {
    forall i, j :: 0 <= i < j < |s| ==> !less(s[j], s[i])
  }

  /** The position after every element that x does not precede. */
  function Place<T>(s: seq<T>, x: T, less: (T, T) -> bool): (n: nat)
    ensures n <= |s|
  {
    if s == [] then 0
    else if less(x, s[|s| - 1]) then Place(s[..|s| - 1], x, less)
    else |s|
  }

  function Insert<T>(s: seq<T>, x: T, less: (T, T) -> bool): seq<T> {
    var n := Place(s, x, less);
    s[..n] + [x] + s[n..]
  }

  function Sort<T>(s: seq<T>, less: (T, T) -> bool): seq<T> {
    if s == [] then [] else Insert(Sort(s[..|s| - 1], less), s[|s| - 1], less)
  }

  lemma {:induction false} PlaceSplits<T(!new)>(s: seq<T>, x: T, less: (T, T) -> bool)
    requires StrictWeak(less) && Sorted(s, less)
    ensures var n := Place(s, x, less);
            && (forall i :: n <= i < |s| ==> less(x, s[i]))
            && (forall i :: 0 <= i < n ==> !less(x, s[i]))
  {
    if s != [] {
      if less(x, s[|s| - 1]) {
        PlaceSplits(s[..|s| - 1], x, less);
      } else {
        forall i | 0 <= i < |s| ensures !less(x, s[i]) {
          assert i < |s| - 1 ==> !less(s[|s| - 1], s[i]);
        }
      }
    }
  }

  lemma InsertSorts<T(!new)>(s: seq<T>, x: T, less: (T, T) -> bool)
    requires StrictWeak(less) && Sorted(s, less)
    ensures Sorted(Insert(s, x, less), less)
    ensures multiset(Insert(s, x, less)) == multiset(s) + multiset{x}
  {
    var n := Place(s, x, less);
    PlaceSplits(s, x, less);
    assert s == s[..n] + s[n..];
    var r := Insert(s, x, less);
    forall i, j | 0 <= i < j < |r| ensures !less(r[j], r[i]) {
      if j == n {
        assert r[i] == s[i];
      } else if i == n {
        assert r[j] == s[j - 1] && less(x, r[j]);
      } else {
        var i', j' := if i < n then i else i - 1, if j < n then j else j - 1;
        assert r[i] == s[i'] && r[j] == s[j'];
      }
    }
  }

  lemma {:induction false} SortSorts<T(!new)>(s: seq<T>, less: (T, T) -> bool)
    requires StrictWeak(less)
    ensures Sorted(Sort(s, less), less) && multiset(Sort(s, less)) == multiset(s)
  {
    if s != [] {
      var init, x := s[..|s| - 1], s[|s| - 1];
      assert s == init + [x];
      SortSorts(init, less);
      InsertSorts(Sort(init, less), x, less);
    }
  }

  lemma SortedStillLists<T(!new)>(s: seq<T>, items: set<T>, less: (T, T) -> bool)
    requires StrictWeak(less) && Lists(s, items)
    ensures Lists(Sort(s, less), items)
  {
    SortSorts(s, less);
    var r := Sort(s, less);
    forall x ensures x in r <==> x in items {
      assert x in r <==> x in multiset(r);
      assert x in s <==> x in multiset(s);
    }
    assert Distinct(r) by {
      forall i, j | 0 <= i < j < |r| ensures r[i] != r[j] {
        CountInDistinct(s, r[i]);
        assert r == r[..j] + r[j..];
        assert r[i] in r[..j];
        assert multiset(r)[r[i]] == multiset(r[..j])[r[i]] + multiset(r[j..])[r[i]];
        assert r[j] in r[j..];
      }
    }
  }

  /** Elements that neither precedes the other. */
  predicate Tied<T>(x: T, y: T, less: (T, T) -> bool) {
    !less(x, y) && !less(y, x)
  }

  lemma SameHeads<T(!new)>(s: seq<T>, t: seq<T>, less: (T, T) -> bool)
    requires Sorted(s, less) && Sorted(t, less) && multiset(s) == multiset(t) && s != [] && t != []
    ensures s[0] == t[0] || Tied(s[0], t[0], less)
    ensures t[0] in s
  {
    assert s[0] in multiset(t) && t[0] in multiset(s);
    var i :| 0 <= i < |s| && s[i] == t[0];
    var j :| 0 <= j < |t| && t[j] == s[0];
  }

  lemma SameTails<T>(s: seq<T>, t: seq<T>)
    requires multiset(s) == multiset(t) && s != [] && t != [] && s[0] == t[0]
    ensures multiset(s[1..]) == multiset(t[1..])
  {
    assert s == [s[0]] + s[1..] && t == [t[0]] + t[1..];
    assert multiset(s[1..]) == multiset(s) - multiset{s[0]};
    assert multiset(t[1..]) == multiset(t) - multiset{t[0]};
  }

  /** Two sorted arrangements of the same elements are equal if tied elements are. */
  lemma {:induction false} SortedUnique<T(!new)>(s: seq<T>, t: seq<T>, less: (T, T) -> bool)
    requires Sorted(s, less) && Sorted(t, less) && multiset(s) == multiset(t)
    requires forall x, y :: x in s && y in s && Tied(x, y, less) ==> x == y
    ensures s == t
    decreases |s|
  {
    assert |s| == |multiset(s)| == |multiset(t)| == |t|;
    if s != [] {
      SameHeads(s, t, less);
      SameTails(s, t);
      SortedUnique(s[1..], t[1..], less);
      assert s == [s[0]] + s[1..] && t == [t[0]] + t[1..];
    }
  }

  // ----- strings -----

  predicate Before(a: string, b: string) {
    b != [] && (a == [] || a[0] < b[0] || (a[0] == b[0] && Before(a[1..], b[1..])))
  }

  /** Lexicographic order: a proper prefix comes first, and otherwise the first difference decides. */
  lemma {:induction false} BeforeIs(a: string, b: string, i: nat)
    requires i <= |a| && i <= |b| && a[..i] == b[..i]
    requires i < |a| && i < |b| ==> a[i] != b[i]
    ensures Before(a, b) <==> if i < |a| && i < |b| then a[i] < b[i] else |a| < |b|
  {
    if i > 0 {
      assert a[0] == a[..i][0] == b[..i][0] == b[0];
      assert a[1..][..i - 1] == a[..i][1..] && b[1..][..i - 1] == b[..i][1..];
      BeforeIs(a[1..], b[1..], i - 1);
    }
  }

  lemma {:induction false} BeforeTransitive(a: string, b: string, c: string)
    ensures Before(a, b) && Before(b, c) ==> Before(a, c)
    ensures !Before(a, b) && !Before(b, c) ==> !Before(a, c)
  {
    if a != [] && b != [] && c != [] {
      BeforeTransitive(a[1..], b[1..], c[1..]);
    }
  }

  lemma {:induction false} BeforeTotal(a: string, b: string)
    ensures !Before(a, a)
    ensures Before(a, b) || Before(b, a) || a == b
    ensures !(Before(a, b) && Before(b, a))
  {
    if a != [] {
      BeforeTotal(a[1..], a[1..]);
      if b != [] {
        BeforeTotal(a[1..], b[1..]);
        assert a == [a[0]] + a[1..] && b == [b[0]] + b[1..];
      }
    }
  }
}
