/** Order-preserving de-duplication, which several tools write out as a `seen` loop, and finite sets as lists. */
module Sequences {

  ghost predicate Distinct<T>(s: seq<T>) {
    forall i, j :: 0 <= i < j < |s| ==> s[i] != s[j]
  }

  function Push<T(==)>(s: seq<T>, x: T): seq<T> {
    if x in s then s else s + [x]
  }

  function PushAll<T(==)>(acc: seq<T>, xs: seq<T>): seq<T> {
    if xs == [] then acc else Push(PushAll(acc, xs[..|xs| - 1]), xs[|xs| - 1])
  }

  /** The elements of s at their first occurrence. */
  function Unique<T(==)>(s: seq<T>): seq<T> {
    PushAll([], s)
  }

  lemma PushAllSnoc<T>(acc: seq<T>, xs: seq<T>, x: T)
    ensures PushAll(acc, xs + [x]) == Push(PushAll(acc, xs), x)
  {
    assert (xs + [x])[..|xs|] == xs;
  }

  lemma {:induction false} PushAllMember<T>(acc: seq<T>, xs: seq<T>, x: T)
    ensures x in PushAll(acc, xs) <==> x in acc || x in xs
  {
    if xs != [] {
      PushAllMember(acc, xs[..|xs| - 1], x);
      assert xs == xs[..|xs| - 1] + [xs[|xs| - 1]];
    }
  }

  lemma {:induction false} PushAllIsDistinct<T>(acc: seq<T>, xs: seq<T>)
    requires Distinct(acc)
    ensures Distinct(PushAll(acc, xs))
  {
    if xs != [] {
      PushAllIsDistinct(acc, xs[..|xs| - 1]);
    }
  }

  lemma {:induction false} PushAllConcat<T>(acc: seq<T>, a: seq<T>, b: seq<T>)
    ensures PushAll(acc, a + b) == PushAll(PushAll(acc, a), b)
  {
    if b == [] {
      assert a + b == a;
    } else {
      assert (a + b)[..|a + b| - 1] == a + b[..|b| - 1];
      PushAllConcat(acc, a, b[..|b| - 1]);
    }
  }

  lemma {:induction false} PushAllUnique<T>(acc: seq<T>, b: seq<T>)
    ensures PushAll(acc, Unique(b)) == PushAll(acc, b)
  {
    if b != [] {
      var c, x := b[..|b| - 1], b[|b| - 1];
      PushAllUnique(acc, c);
      if x in Unique(c) {
        PushAllMember(acc, Unique(c), x);
      } else {
        PushAllSnoc(acc, Unique(c), x);
      }
    }
  }

  lemma UniqueMember<T>(s: seq<T>, x: T)
    ensures x in Unique(s) <==> x in s
  {
    PushAllMember([], s, x);
  }

  lemma UniqueIsDistinct<T>(s: seq<T>)
    ensures Distinct(Unique(s))
  {
    PushAllIsDistinct([], s);
  }

  lemma UniqueSnoc<T>(s: seq<T>, x: T)
    ensures Unique(s + [x]) == Push(Unique(s), x)
  {
    PushAllSnoc([], s, x);
  }

  /** A list without repetition is left as it is, order included. */
  lemma {:induction false} UniqueOfDistinct<T>(s: seq<T>)
    requires Distinct(s)
    ensures Unique(s) == s
  {
    if s != [] {
      var init, x := s[..|s| - 1], s[|s| - 1];
      assert s == init + [x] && x !in init;
      UniqueOfDistinct(init);
    }
  }

  /** De-duplication is a homomorphism: de-duplicating in pieces changes nothing. */
  lemma UniqueInPieces<T>(a: seq<T>, b: seq<T>)
    ensures Unique(Unique(a) + Unique(b)) == Unique(a + b)
  {
    PushAllConcat([], Unique(a), Unique(b));
    PushAllUnique([], a);
    PushAllUnique(Unique(a), b);
    PushAllConcat([], a, b);
  }

  /** A rearrangement of s + [x] has x somewhere, and without it is a rearrangement of s. */
  lemma FindInRearranged<T>(t: seq<T>, s: seq<T>, x: T) returns (j: nat)
    requires multiset(t) == multiset(s + [x])
    ensures j < |t| && t[j] == x && multiset(t[..j] + t[j + 1..]) == multiset(s)
  {
    assert x in multiset(t);
    j :| 0 <= j < |t| && t[j] == x;
    TakenOut(t, j);
    TakenOut(s + [x], |s|);
    assert (s + [x])[..|s|] + (s + [x])[|s| + 1..] == s;
  }

  lemma TakenOut<T>(t: seq<T>, j: nat)
    requires j < |t|
    ensures multiset(t[..j] + t[j + 1..]) == multiset(t) - multiset{t[j]}
  {
    assert t == t[..j] + ([t[j]] + t[j + 1..]);
  }

  lemma SubsetSize<T>(a: set<T>, b: set<T>)
    requires a <= b
    ensures |a| <= |b|
  {
    assert b == a + (b - a);
  }

  /** s lists a finite set without repetition. */
  ghost predicate Lists<T(!new)>(s: seq<T>, items: set<T>) {
    Distinct(s) && forall x :: x in s <==> x in items
  }

  /** Go over a set or a map's keys, in whatever order. */
  method ListOf<T(==, !new)>(items: set<T>) returns (s: seq<T>)
    ensures Lists(s, items)
  {
    s := [];
    var todo := items;
    while todo != {}
      invariant todo <= items && Lists(s, items - todo)
      decreases |todo|
    {
      var x :| x in todo;
      s, todo := s + [x], todo - {x};
    }
  }

  lemma {:induction false} SetLists<T(!new)>(items: set<T>) returns (s: seq<T>)
    ensures Lists(s, items)
  {
    if items == {} {
      s := [];
    } else {
      var x :| x in items;
      s := SetLists(items - {x});
      s := s + [x];
    }
  }

  lemma {:induction false} ListsRearranged<T(!new)>(s: seq<T>, t: seq<T>, items: set<T>)
    requires Lists(s, items) && Lists(t, items)
    ensures multiset(s) == multiset(t)
  {
    forall x ensures multiset(s)[x] == multiset(t)[x] {
      CountInDistinct(s, x);
      CountInDistinct(t, x);
    }
  }

  lemma {:induction false} CountInDistinct<T(!new)>(s: seq<T>, x: T)
    requires Distinct(s)
    ensures multiset(s)[x] == if x in s then 1 else 0
  {
    if s != [] {
      var init, last := s[..|s| - 1], s[|s| - 1];
      assert s == init + [last] && last !in init;
      CountInDistinct(init, x);
    }
  }
}
