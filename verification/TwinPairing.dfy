/**
 Pairing a fixed file with the codebase file it is a modified copy of: Jaccard overlap of stripped, non-blank
 lines, and an argmax over every file of that name met on a directory walk.
 */
module TwinPairing {
  import opened Wrappers
  import opened Sequences
  import opened Text

  type Lines = seq<string>

  // ----- overlap -----

  function LineSet(a: Lines): set<string> {
    set l | l in a && Trim(l, PY_SPACE) != "" :: Trim(l, PY_SPACE)
  }

  function Jaccard(a: set<string>, b: set<string>): real {
    |a * b| as real / (if |a + b| == 0 then 1 else |a + b|) as real
  }

  function Overlap(a: Lines, b: Lines): real {
    Jaccard(LineSet(a), LineSet(b))
  }

  function Distance(a: set<string>, b: set<string>): real {
    1.0 - Jaccard(a, b)
  }

  function Differ(a: set<string>, b: set<string>): set<string> {
    (a - b) + (b - a)
  }

  /** What counts of a file: indentation and trailing space do not, blank lines do not, nor does repetition. */
  lemma {:induction false} OneLineCounts(pre: string, l: string, post: string)
    requires Only(pre, PY_SPACE) && Only(post, PY_SPACE)
    requires l != "" ==> l[0] !in PY_SPACE && l[|l| - 1] !in PY_SPACE
    ensures LineSet([pre + l + post]) == if l == "" then {} else {l}
  {
    var line := pre + l + post;
    TrimSurrounded(pre, l, post, PY_SPACE);
    assert line in [line] && forall x :: x in [line] ==> x == line;
  }

  lemma {:induction false} LinesUnite(a: Lines, b: Lines)
    ensures LineSet(a + b) == LineSet(a) + LineSet(b)
  {
    forall l ensures l in LineSet(a + b) <==> l in LineSet(a) || l in LineSet(b) {
      assert forall x :: x in a + b <==> x in a || x in b;
    }
  }

  /** One exactly for files with the same lines, as long as there are any, and zero exactly if they share none. */
  lemma {:induction false} OverlapExtremes(a: Lines, b: Lines)
    ensures 0.0 <= Overlap(a, b) == Overlap(b, a) <= 1.0
    ensures Overlap(a, b) == 1.0 <==> LineSet(a) == LineSet(b) != {}
    ensures Overlap(a, b) == 0.0 <==> LineSet(a) * LineSet(b) == {}
  {
    var x, y := LineSet(a), LineSet(b);
    DistanceIs(x, y);
    UnionSize(x, y);
    if x == y {
      assert Differ(x, y) == {};
    }
    if |x + y| == 0 {
      assert x == {} && y == {} && x * y == {};
    } else {
      var i, u := |x * y| as real, |x + y| as real;
      ExtremeFraction(i, u);
      if |Differ(x, y)| == 0 {
        assert Differ(x, y) == {};
        assert forall l :: l in x <==> l in y by {
          forall l ensures l in x <==> l in y {
            assert l !in Differ(x, y);
          }
        }
        assert x == y;
      }
    }
  }

  lemma ExtremeFraction(i: real, u: real)
    requires u > 0.0
    ensures i / u == 1.0 <==> i == u
    ensures i / u == 0.0 <==> i == 0.0
  {
    assert i / u * u == i;
  }

  /** Twice the union, as sizes: |a| + |b| + |a differ b|. */
  lemma UnionSize(a: set<string>, b: set<string>)
    ensures 2 * |a + b| == |a| + |b| + |Differ(a, b)|
    ensures |a + b| == |a * b| + |Differ(a, b)|
  {
    assert a + b == (a * b) + Differ(a, b);
    assert a == (a * b) + (a - b) && b == (a * b) + (b - a);
  }

  lemma {:induction false} DistanceIs(a: set<string>, b: set<string>)
    ensures |a + b| > 0 ==> Distance(a, b) == |Differ(a, b)| as real / |a + b| as real
    ensures |a + b| == 0 ==> Distance(a, b) == 1.0
    ensures 0.0 <= Distance(a, b) <= 1.0
    ensures Distance(a, b) == Distance(b, a)
  {
    UnionSize(a, b);
    assert a + b == b + a && a * b == b * a;
    if |a + b| > 0 {
      var i, d, u := |a * b| as real, |Differ(a, b)| as real, |a + b| as real;
      Complement(i, d, u);
      FractionBounds(i, u);
    }
  }

  lemma Complement(i: real, d: real, u: real)
    requires u > 0.0 && i + d == u
    ensures 1.0 - i / u == d / u
  {
    assert i / u + d / u == (i + d) / u;
  }

  lemma FractionBounds(i: real, u: real)
    requires u > 0.0 && 0.0 <= i <= u
    ensures 0.0 <= i / u <= 1.0
  {
  }

  /** Adding the same amount above and below does not decrease a fraction that is at most one. */
  lemma Mediant(p: real, q: real, r: real)
    requires 0.0 <= p <= q && q > 0.0 && r >= 0.0
    ensures p / q <= (p + r) / (q + r)
  {
    var x := p / q;
    FractionBounds(p, q);
    assert x * q == p;
    assert x * (q + r) == p + x * r;
    assert x * r <= r;
    DivideBy(x, p + r, q + r);
  }

  lemma DivideBy(x: real, n: real, d: real)
    requires d > 0.0 && x * d <= n
    ensures x <= n / d
  {
    var y := n / d;
    assert y * d == n;
    assert (x - y) * d == x * d - y * d;
  }

  lemma LargerDenominator(p: real, q: real, q': real)
    requires 0.0 <= p && 0.0 < q <= q'
    ensures p / q' <= p / q
  {
    var x := p / q';
    assert x * q' == p && x >= 0.0;
    assert x * q <= x * q';
    DivideBy(x, p, q);
  }

  /**
   Twice the sizes of the three symmetric differences over twice the unions. The proof pads the left fraction
   up to the sum of the two others and then shrinks each denominator back.
   */
  lemma SizeTriangle(ac: real, ab: real, bc: real, a: real, b: real, c: real)
    requires a >= 0.0 && b >= 0.0 && c >= 0.0
    requires 0.0 <= ac <= ab + bc
    requires ab >= 0.0 && bc >= 0.0 && c + bc >= b && a + ab >= b
    requires a + c + ac > 0.0 && a + b + ab > 0.0 && b + c + bc > 0.0
    ensures ac / (a + c + ac) <= ab / (a + b + ab) + bc / (b + c + bc)
  {
    var r := ab + bc - ac;
    var wide := a + c + ab + bc;
    Mediant(ac, a + c + ac, r);
    assert ac + r == ab + bc && a + c + ac + r == wide;
    SplitFraction(ab, bc, wide);
    LargerDenominator(ab, a + b + ab, wide);
    LargerDenominator(bc, b + c + bc, wide);
  }

  lemma SplitFraction(p: real, q: real, d: real)
    requires d > 0.0
    ensures (p + q) / d == p / d + q / d
  {
  }

  lemma DoubledDistance(a: set<string>, b: set<string>)
    requires |a + b| > 0
    ensures var d := |Differ(a, b)| as real;
            var whole := |a| as real + |b| as real + d;
            whole > 0.0 && Distance(a, b) == 2.0 * (d / whole)
  {
    UnionSize(a, b);
    DistanceIs(a, b);
    Halve(|Differ(a, b)| as real, |a + b| as real);
  }

  lemma Halve(d: real, u: real)
    requires u > 0.0
    ensures d / u == 2.0 * (d / (2.0 * u))
  {
    var x := d / (2.0 * u);
    assert x * (2.0 * u) == d;
    assert (2.0 * x) * u == d;
    assert d / u * u == d;
  }

  lemma TriangleOfNonEmpty(a: set<string>, b: set<string>, c: set<string>)
    requires |a + b| > 0 && |b + c| > 0 && |a + c| > 0
    ensures Distance(a, c) <= Distance(a, b) + Distance(b, c)
  {
    DifferTriangle(a, b, c);
    DoubledDistance(a, b);
    DoubledDistance(b, c);
    DoubledDistance(a, c);
    SizeTriangle(|Differ(a, c)| as real, |Differ(a, b)| as real, |Differ(b, c)| as real,
                 |a| as real, |b| as real, |c| as real);
  }

  lemma DifferTriangle(a: set<string>, b: set<string>, c: set<string>)
    ensures |Differ(a, c)| <= |Differ(a, b)| + |Differ(b, c)|
    ensures |b| <= |Differ(a, b)| + |a| && |b| <= |Differ(b, c)| + |c|
  {
    SubsetSize(Differ(a, c), Differ(a, b) + Differ(b, c));
    SubsetSize(b, Differ(a, b) + a);
    SubsetSize(b, Differ(b, c) + c);
  }

  /** Jaccard distance obeys the triangle inequality, with two empty files counted as wholly different. */
  lemma Triangle(a: set<string>, b: set<string>, c: set<string>)
    ensures Distance(a, c) <= Distance(a, b) + Distance(b, c)
  {
    if |a + b| > 0 && |b + c| > 0 && |a + c| > 0 {
      TriangleOfNonEmpty(a, b, c);
    } else {
      DistanceIs(a, b);
      DistanceIs(b, c);
      DistanceIs(a, c);
      if |a + c| == 0 {
        assert a == {};
        EmptyIsFar(a, b);
      }
    }
  }

  lemma EmptyIsFar(a: set<string>, b: set<string>)
    requires a == {}
    ensures Distance(a, b) == 1.0
  {
    assert a * b == {};
  }

  // ----- the walk -----

  /** A directory met on the walk: its path relative to the root, and its readable and unreadable files. */
  datatype Dir = Dir(path: string, files: map<string, Option<Lines>>)

  datatype Key = Key(score: real, length: int)

  function RelPath(d: Dir, name: string): string {
    if d.path == "" then name else d.path + "/" + name
  }

  /** A directory offers a candidate when it has a readable file of that name. */
  predicate Offers(d: Dir, name: string) {
    name in d.files && d.files[name].Some?
  }

  function Body(d: Dir, name: string): Lines
    requires Offers(d, name)
  {
    d.files[name].value
  }

  /** How a directory ranks: Python's tuple of overlap and negated path length, or nothing if it offers none. */
  function KeyAt(d: Dir, name: string, gold: Lines): Option<Key> {
    if name !in d.files then None
    else match d.files[name]
         case None => None
         case Some(body) => Some(Key(Overlap(gold, body), -|RelPath(d, name)|))
  }

  function Ranking(name: string, gold: Lines): Dir -> Option<Key> {
    d => KeyAt(d, name, gold)
  }

  /** Python's tuple order. */
  predicate Greater(a: Key, b: Key) {
    a.score > b.score || (a.score == b.score && a.length > b.length)
  }

  ghost predicate Beats(rank: Dir -> Option<Key>, d: Dir, d': Dir) {
    rank(d).Some? && rank(d').Some? && Greater(rank(d).value, rank(d').value)
  }

  /** Among the first n directories, a candidate that none beats and that beats every earlier candidate. */
  ghost predicate ChoiceUpTo(walk: seq<Dir>, rank: Dir -> Option<Key>, n: nat, k: nat)
    requires n <= |walk|
  {
    && k < n && rank(walk[k]).Some?
    && (forall j :: 0 <= j < n ==> !Beats(rank, walk[j], walk[k]))
    && (forall j :: 0 <= j < k && rank(walk[j]).Some? ==> Beats(rank, walk[k], walk[j]))
  }

  ghost predicate IsChoice(walk: seq<Dir>, rank: Dir -> Option<Key>, k: nat) {
    ChoiceUpTo(walk, rank, |walk|, k)
  }

  /** What the walk has settled on after n directories. */
  ghost predicate Settled(walk: seq<Dir>, rank: Dir -> Option<Key>, n: nat, best: Option<nat>)
    requires n <= |walk|
  {
    match best
    case None => forall j :: 0 <= j < n ==> rank(walk[j]).None?
    case Some(k) => ChoiceUpTo(walk, rank, n, k)
  }

  lemma SettledSnoc(walk: seq<Dir>, rank: Dir -> Option<Key>, n: nat, best: Option<nat>)
    requires n < |walk| && Settled(walk, rank, n, best)
    ensures var d := walk[n];
            Settled(walk, rank, n + 1,
                    if rank(d).Some? && (best.None? || Beats(rank, d, walk[best.value])) then Some(n) else best)
  {
  }

  method BestTwin(walk: seq<Dir>, name: string, gold: Lines) returns (best: Option<nat>, confidence: real)
    ensures Settled(walk, Ranking(name, gold), |walk|, best)
    ensures best.Some? ==> Offers(walk[best.value], name)
    ensures confidence == if best.Some? then Overlap(gold, Body(walk[best.value], name)) else 0.0
  {
    best := None;
    var bestKey := Key(0.0, 0);
    for i := 0 to |walk|
      invariant Settled(walk, Ranking(name, gold), i, best)
      invariant best.None? ==> bestKey.score == 0.0
      invariant best.Some? ==> best.value < i && KeyAt(walk[best.value], name, gold) == Some(bestKey)
    {
      var key := KeyAt(walk[i], name, gold);
      ghost var rank := Ranking(name, gold);
      SettledSnoc(walk, rank, i, best);
      assert rank(walk[i]) == key && (best.Some? ==> rank(walk[best.value]) == Some(bestKey));
      best, bestKey := Prefer(walk, rank, i, key, best, bestKey);
    }
    confidence := bestKey.score;
  }

  /** The comparison of one candidate with the best so far. */
  method Prefer(
    ghost walk: seq<Dir>, ghost rank: Dir -> Option<Key>, i: nat, key: Option<Key>, best: Option<nat>, bestKey: Key)
    returns (best': Option<nat>, bestKey': Key)
    requires i < |walk| && Settled(walk, rank, i, best) && rank(walk[i]) == key
    requires best.Some? ==> rank(walk[best.value]) == Some(bestKey)
    ensures Settled(walk, rank, i + 1, best')
    ensures best'.None? ==> best.None? && bestKey' == bestKey
    ensures best'.Some? ==> rank(walk[best'.value]) == Some(bestKey')
  {
    SettledSnoc(walk, rank, i, best);
    best', bestKey' := best, bestKey;
    if key.Some? && (best.None? || Greater(key.value, bestKey)) {
      best', bestKey' := Some(i), key.value;
    }
  }

  lemma ChoiceIsUnique(walk: seq<Dir>, rank: Dir -> Option<Key>, j: nat, k: nat)
    requires IsChoice(walk, rank, j) && IsChoice(walk, rank, k)
    ensures j == k
  {
  }

  // ----- what the choice guarantees -----

  /**
   The choice in terms of the files: no readable candidate overlaps more, none of equal overlap has a shorter
   path, and none equal in both is met earlier.
   */
  lemma {:induction false} ChoiceMeans(walk: seq<Dir>, name: string, gold: Lines, k: nat, j: nat)
    requires IsChoice(walk, Ranking(name, gold), k) && j < |walk| && Offers(walk[j], name)
    ensures Offers(walk[k], name)
    ensures var (x, y) := (Overlap(gold, walk[j].files[name].value), Overlap(gold, walk[k].files[name].value));
            && x <= y
            && (x == y ==> |RelPath(walk[k], name)| <= |RelPath(walk[j], name)|)
            && (x == y && |RelPath(walk[k], name)| == |RelPath(walk[j], name)| ==> k <= j)
  {
    var rank := Ranking(name, gold);
    assert !Beats(rank, walk[j], walk[k]);
    if j < k {
      assert Beats(rank, walk[k], walk[j]);
    }
  }

  /**
   If some candidate is within eps of the fixed file and every other candidate is more than 2 * eps away from
   it, that candidate is chosen, wherever on the walk it is met.
   */
  lemma {:induction false} TwinSeparation(walk: seq<Dir>, name: string, gold: Lines, t: nat, k: nat, eps: real)
    requires t < |walk| && Offers(walk[t], name)
    requires IsChoice(walk, Ranking(name, gold), k)
    requires 1.0 - Overlap(gold, Body(walk[t], name)) <= eps
    requires forall j :: 0 <= j < |walk| && j != t && Offers(walk[j], name) ==>
               1.0 - Overlap(Body(walk[t], name), Body(walk[j], name)) > 2.0 * eps
    ensures k == t
  {
    ChosenOverlapsMost(walk, name, gold, t, k);
    var g, twin, other := LineSet(gold), LineSet(Body(walk[t], name)), LineSet(Body(walk[k], name));
    Triangle(twin, g, other);
    DistanceIs(twin, g);
  }

  lemma ChosenOverlapsMost(walk: seq<Dir>, name: string, gold: Lines, t: nat, k: nat)
    requires t < |walk| && Offers(walk[t], name) && IsChoice(walk, Ranking(name, gold), k)
    ensures Offers(walk[k], name) && Overlap(gold, Body(walk[t], name)) <= Overlap(gold, Body(walk[k], name))
  {
    assert !Beats(Ranking(name, gold), walk[t], walk[k]);
  }

  /** Two candidates at a distance of exactly 2 * eps are not separated: the shorter path wins the tie. */
  lemma {:induction false} SeparationIsTight() returns (walk: seq<Dir>, gold: Lines, eps: real)
    ensures |walk| == 2 && Offers(walk[0], "f") && Offers(walk[1], "f")
    ensures 1.0 - Overlap(gold, Body(walk[0], "f")) == eps
    ensures 1.0 - Overlap(Body(walk[0], "f"), Body(walk[1], "f")) == 2.0 * eps
    ensures IsChoice(walk, Ranking("f", gold), 1)
  {
    var left, right;
    gold, left, right := HalfAndHalf();
    walk := TiedWalk(gold, left, right);
    eps := 0.5;
  }

  lemma TiedWalk(gold: Lines, twin: Lines, other: Lines) returns (walk: seq<Dir>)
    requires Overlap(gold, twin) == Overlap(gold, other)
    ensures |walk| == 2 && Offers(walk[0], "f") && Offers(walk[1], "f")
    ensures Body(walk[0], "f") == twin && Body(walk[1], "f") == other
    ensures IsChoice(walk, Ranking("f", gold), 1)
  {
    var d, d' := Dir("lib", map["f" := Some(twin)]), Dir("", map["f" := Some(other)]);
    walk := [d, d'];
    assert RelPath(d, "f") == "lib/f" && RelPath(d', "f") == "f";
    var rank := Ranking("f", gold);
    assert rank(d) == KeyAt(d, "f", gold) == Some(Key(Overlap(gold, twin), -5));
    assert rank(d') == KeyAt(d', "f", gold) == Some(Key(Overlap(gold, other), -1));
    SecondChosen(walk, rank);
  }

  lemma SecondChosen(walk: seq<Dir>, rank: Dir -> Option<Key>)
    requires |walk| == 2 && rank(walk[0]).Some? && Beats(rank, walk[1], walk[0])
    ensures IsChoice(walk, rank, 1)
  {
  }

  lemma {:induction false} HalfAndHalf() returns (gold: Lines, left: Lines, right: Lines)
    ensures Overlap(gold, left) == 0.5 && Overlap(gold, right) == 0.5 && Overlap(left, right) == 0.0
  {
    gold, left, right := ["a", "b"], ["a"], ["b"];
    assert Trim("a", PY_SPACE) == "a" && Trim("b", PY_SPACE) == "b";
    OneLine("a");
    OneLine("b");
    TwoLines("a", "b");
    HalfOf("a", "b");
    HalfOf("b", "a");
    assert {"a", "b"} == {"b", "a"};
  }

  lemma OneLine(x: string)
    requires x != "" && Trim(x, PY_SPACE) == x
    ensures LineSet([x]) == {x}
  {
    assert x in [x];
  }

  lemma TwoLines(x: string, y: string)
    requires x != "" && Trim(x, PY_SPACE) == x && y != "" && Trim(y, PY_SPACE) == y
    ensures LineSet([x, y]) == {x, y}
  {
    assert x in [x, y] && y in [x, y];
  }

  lemma HalfOf(x: string, y: string)
    requires x != y
    ensures Jaccard({x, y}, {x}) == 0.5 && Jaccard({x}, {y}) == 0.0
  {
    assert {x, y} * {x} == {x} && {x, y} + {x} == {x, y};
    assert |{x, y}| == 2 && |{x}| == 1;
    assert {x} * {y} == {};
  }

  // ----- when the choice depends on the walk order -----

  ghost predicate Permuted(walk: seq<Dir>, walk': seq<Dir>) {
    multiset(walk) == multiset(walk')
  }

  ghost predicate Unbeaten(walk: seq<Dir>, rank: Dir -> Option<Key>, d: Dir) {
    d in walk && rank(d).Some? && forall d' :: d' in walk ==> !Beats(rank, d', d)
  }

  /** No two different candidates share the greatest key. */
  ghost predicate UniqueBest(walk: seq<Dir>, rank: Dir -> Option<Key>) {
    forall d, d' :: Unbeaten(walk, rank, d) && Unbeaten(walk, rank, d') ==> d == d'
  }

  /** Every order of the walk chooses the same directory. */
  ghost predicate OrderFree(walk: seq<Dir>, rank: Dir -> Option<Key>) {
    forall walk', k: nat, k': nat ::
      Permuted(walk, walk') && IsChoice(walk, rank, k) && IsChoice(walk', rank, k') ==> walk[k] == walk'[k']
  }

  /**
   The tie-break on path length makes the choice independent of the walk order exactly when no two candidates
   tie on both overlap and path length at the top.
   */
  lemma {:induction false} OrderFreeIff(walk: seq<Dir>, rank: Dir -> Option<Key>)
    ensures OrderFree(walk, rank) <==> UniqueBest(walk, rank)
  {
    if UniqueBest(walk, rank) {
      forall walk', k: nat, k': nat | Permuted(walk, walk') && IsChoice(walk, rank, k) && IsChoice(walk', rank, k')
        ensures walk[k] == walk'[k']
      {
        SameDirs(walk, walk');
        ChoiceIsUnbeaten(walk, rank, k);
        ChoiceIsUnbeaten(walk', rank, k');
        assert Unbeaten(walk, rank, walk'[k']);
      }
    } else {
      var d, d' :| Unbeaten(walk, rank, d) && Unbeaten(walk, rank, d') && d != d';
      var i: nat :| i < |walk| && walk[i] == d;
      var j: nat :| j < |walk| && walk[j] == d';
      FirstChosen(walk, rank, i);
      FirstChosen(walk, rank, j);
      ChooseSome(walk, rank, i);
      var k: nat :| IsChoice(walk, rank, k);
      assert Permuted(walk, ToFront(walk, i)) && Permuted(walk, ToFront(walk, j));
      assert walk[k] != ToFront(walk, i)[0] || walk[k] != ToFront(walk, j)[0];
    }
  }

  /** Two copies of one file, equally deep: whichever the walk meets first is chosen. */
  lemma {:induction false} TiedTwinsDependOnOrder(gold: Lines) returns (walk: seq<Dir>, walk': seq<Dir>)
    ensures Permuted(walk, walk') && IsChoice(walk, Ranking("f", gold), 0) && IsChoice(walk', Ranking("f", gold), 0)
    ensures walk[0] != walk'[0] && !OrderFree(walk, Ranking("f", gold))
  {
    var d, d' := Dir("a", map["f" := Some(gold)]), Dir("b", map["f" := Some(gold)]);
    var rank := Ranking("f", gold);
    assert RelPath(d, "f") == "a/f" && RelPath(d', "f") == "b/f";
    assert rank(d) == KeyAt(d, "f", gold) && rank(d') == KeyAt(d', "f", gold);
    walk, walk' := [d, d'], [d', d];
    FirstOfTied(walk, rank);
    FirstOfTied(walk', rank);
    assert d.path[0] != d'.path[0];
    Exchanged(d, d');
    NotOrderFree(walk, walk', rank);
  }

  lemma Exchanged(d: Dir, d': Dir)
    ensures Permuted([d, d'], [d', d])
  {
    assert [d, d'] == [d] + [d'] && [d', d] == [d'] + [d];
  }

  lemma NotOrderFree(walk: seq<Dir>, walk': seq<Dir>, rank: Dir -> Option<Key>)
    requires Permuted(walk, walk') && IsChoice(walk, rank, 0) && IsChoice(walk', rank, 0) && walk[0] != walk'[0]
    ensures !OrderFree(walk, rank)
  {
  }

  lemma FirstOfTied(walk: seq<Dir>, rank: Dir -> Option<Key>)
    requires |walk| == 2 && rank(walk[0]).Some? && rank(walk[1]) == rank(walk[0])
    ensures IsChoice(walk, rank, 0)
  {
  }

  lemma ChoiceIsUnbeaten(walk: seq<Dir>, rank: Dir -> Option<Key>, k: nat)
    requires IsChoice(walk, rank, k)
    ensures Unbeaten(walk, rank, walk[k])
  {
  }

  lemma SameDirs(walk: seq<Dir>, walk': seq<Dir>)
    requires Permuted(walk, walk')
    ensures forall d :: d in walk <==> d in walk'
  {
    forall d ensures d in walk <==> d in walk' {
      assert d in walk <==> d in multiset(walk);
      assert d in walk' <==> d in multiset(walk');
    }
  }

  function ToFront(walk: seq<Dir>, i: nat): seq<Dir>
    requires i < |walk|
  {
    [walk[i]] + (walk[..i] + walk[i + 1..])
  }

  /** An unbeaten candidate is chosen when it is met first. */
  lemma FirstChosen(walk: seq<Dir>, rank: Dir -> Option<Key>, i: nat)
    requires i < |walk| && Unbeaten(walk, rank, walk[i])
    ensures Permuted(walk, ToFront(walk, i))
    ensures IsChoice(ToFront(walk, i), rank, 0)
  {
    assert walk == walk[..i] + ([walk[i]] + walk[i + 1..]);
    SameDirs(walk, ToFront(walk, i));
  }

  lemma ChooseSome(walk: seq<Dir>, rank: Dir -> Option<Key>, i: nat)
    requires i < |walk| && Unbeaten(walk, rank, walk[i])
    ensures exists k: nat :: IsChoice(walk, rank, k)
  {
    if j: nat :| j < i && rank(walk[j]) == rank(walk[i]) {
      ChooseSome(walk, rank, j);
    } else {
      forall j | 0 <= j < i && rank(walk[j]).Some? ensures Beats(rank, walk[i], walk[j]) {
        assert !Beats(rank, walk[j], walk[i]) && rank(walk[j]) != rank(walk[i]);
      }
      assert IsChoice(walk, rank, i);
    }
  }
}
