/** Which benchmarks a run may touch: the --only/--level filter and the reserved holdout. */
module XbowSuite {
  import opened Text

  datatype Bench = Bench(id: string, level: int)

  ghost predicate DistinctIds(bs: seq<Bench>) {
    forall i, j :: 0 <= i < j < |bs| ==> bs[i].id != bs[j].id
  }

  function IdSet(bs: seq<Bench>): set<string> {
    set b | b in bs :: b.id
  }

  /** The ids named by a comma-separated --only flag; blank entries name nothing. */
  function Wanted(only: string): set<string> {
    set part | part in Split(only, ',') && Trim(part, GO_SPACE) != "" :: Trim(part, GO_SPACE)
  }

  predicate Selected(b: Bench, want: set<string>, level: int) {
    (want == {} || b.id in want) && (level == 0 || b.level == level)
  }

  function Select(bs: seq<Bench>, want: set<string>, level: int): seq<Bench> {
    if bs == [] then []
    else
      var b := bs[|bs| - 1];
      Select(bs[..|bs| - 1], want, level) + if Selected(b, want, level) then [b] else []
  }

  lemma {:induction false} SelectMember(bs: seq<Bench>, want: set<string>, level: int, b: Bench)
    ensures b in Select(bs, want, level) <==>
            b in bs && (want == {} || b.id in want) && (level == 0 || b.level == level)
  {
    if bs != [] {
      assert bs == bs[..|bs| - 1] + [bs[|bs| - 1]];
      SelectMember(bs[..|bs| - 1], want, level, b);
    }
  }

  /** What --only names: the parts between commas, less surrounding space, and nothing for a blank part. */
  lemma WantedParts(a: string, b: string)
    requires ',' !in a
    ensures Wanted(a + "," + b) == Wanted(a) + Wanted(b)
    ensures Wanted(a) == if Trim(a, GO_SPACE) == "" then {} else {Trim(a, GO_SPACE)}
  {
    SplitAt(a, ',', b);
    SplitWhole(a, ',');
    assert a in [a];
    var parts := Split(b, ',');
    forall id ensures id in Wanted(a + "," + b) <==> id in Wanted(a) || id in Wanted(b) {
      assert forall part :: part in [a] + parts <==> part == a || part in parts;
    }
  }

  /** The filter keeps suite order: it works on any two parts of the suite separately. */
  lemma {:induction false} SelectInPieces(a: seq<Bench>, b: seq<Bench>, want: set<string>, level: int)
    ensures Select(a + b, want, level) == Select(a, want, level) + Select(b, want, level)
  {
    if b == [] {
      assert a + b == a;
    } else {
      assert (a + b)[..|a + b| - 1] == a + b[..|b| - 1];
      SelectInPieces(a, b[..|b| - 1], want, level);
    }
  }

  /** Benchmarks that --only all names (or it names nothing), all at the level (or that is 0), are kept as they are. */
  lemma {:induction false} SelectsAll(bs: seq<Bench>, want: set<string>, level: int)
    requires forall b :: b in bs ==> (want == {} || b.id in want) && (level == 0 || b.level == level)
    ensures Select(bs, want, level) == bs
  {
    if bs != [] {
      assert bs[|bs| - 1] in bs;
      SelectsAll(bs[..|bs| - 1], want, level);
      assert bs == bs[..|bs| - 1] + [bs[|bs| - 1]];
    }
  }

  method FilterXbow(bs: seq<Bench>, only: string, level: int) returns (out: seq<Bench>)
    ensures out == Select(bs, Wanted(only), level)
  {
    var want: set<string> := {};
    var parts := Split(only, ',');
    for i := 0 to |parts|
      invariant want == set part | part in parts[..i] && Trim(part, GO_SPACE) != "" :: Trim(part, GO_SPACE)
    {
      assert parts[..i + 1] == parts[..i] + [parts[i]];
      var id := Trim(parts[i], GO_SPACE);
      if id != "" {
        want := want + {id};
      }
    }
    assert parts[..|parts|] == parts;
    out := [];
    for i := 0 to |bs|
      invariant out == Select(bs[..i], want, level)
    {
      assert bs[..i + 1][..i] == bs[..i];
      var b := bs[i];
      if want != {} && b.id !in want {
        continue;
      }
      if level != 0 && b.level != level {
        continue;
      }
      out := out + [b];
    }
    assert bs[..|bs|] == bs;
  }

  /** The benchmarks held back: the last `holdout` of the level's pool, or none if that would leave nothing. */
  function Held(suite: seq<Bench>, level: int, holdout: int): seq<Bench> {
    var pool := Select(suite, {}, level);
    if 0 < holdout < |pool| then pool[|pool| - holdout..] else []
  }

  function Reserved(suite: seq<Bench>, level: int, holdout: int): set<string> {
    IdSet(Held(suite, level, holdout))
  }

  function Kept(bs: seq<Bench>, reserved: set<string>): seq<Bench> {
    if bs == [] then []
    else
      var b := bs[|bs| - 1];
      Kept(bs[..|bs| - 1], reserved) + if b.id in reserved then [] else [b]
  }

  lemma {:induction false} KeptMember(bs: seq<Bench>, reserved: set<string>, b: Bench)
    ensures b in Kept(bs, reserved) <==> b in bs && b.id !in reserved
  {
    if bs != [] {
      assert bs == bs[..|bs| - 1] + [bs[|bs| - 1]];
      KeptMember(bs[..|bs| - 1], reserved, b);
    }
  }

  lemma {:induction false} KeptInPieces(a: seq<Bench>, b: seq<Bench>, reserved: set<string>)
    ensures Kept(a + b, reserved) == Kept(a, reserved) + Kept(b, reserved)
  {
    if b == [] {
      assert a + b == a;
    } else {
      assert (a + b)[..|a + b| - 1] == a + b[..|b| - 1];
      KeptInPieces(a, b[..|b| - 1], reserved);
    }
  }

  /**
   The in-place compaction `kept := benches[:0]`: writing over the slice being read is safe, because the
   write position never passes the read position.
   */
  method DropReserved(a: array<Bench>, reserved: set<string>) returns (n: nat)
    modifies a
    ensures n <= a.Length && a[..n] == Kept(old(a[..]), reserved)
  {
    ghost var was := a[..];
    ghost var kept: seq<Bench> := [];
    n := 0;
    for i := 0 to a.Length
      invariant n == |kept| <= i
      invariant kept == Kept(was[..i], reserved)
      invariant forall k :: 0 <= k < n ==> a[k] == kept[k]
      invariant forall k :: i <= k < a.Length ==> a[k] == was[k]
    {
      KeptAt(was, i, reserved);
      var b := a[i];
      if b.id in reserved {
        continue;
      }
      a[n] := b;
      n := n + 1;
      kept := kept + [b];
    }
    assert was[..a.Length] == was;
    assert a[..n] == kept;
  }

  lemma KeptAt(bs: seq<Bench>, i: nat, reserved: set<string>)
    requires i < |bs|
    ensures Kept(bs[..i + 1], reserved) == Kept(bs[..i], reserved) + if bs[i].id in reserved then [] else [bs[i]]
  {
    assert bs[..i + 1][..i] == bs[..i];
  }

  /** The benchmarks a run is planned over. */
  function Planned(suite: seq<Bench>, only: string, level: int, holdout: int): seq<Bench> {
    Kept(Select(suite, Wanted(only), level), Reserved(suite, level, holdout))
  }

  /** Whatever --only names, no reserved benchmark is planned, and nothing else that was selected is lost. */
  lemma HoldoutIsSafe(suite: seq<Bench>, only: string, level: int, holdout: int, b: Bench)
    ensures b in Planned(suite, only, level, holdout) <==>
            && b in suite && (Wanted(only) == {} || b.id in Wanted(only)) && (level == 0 || b.level == level)
            && b.id !in Reserved(suite, level, holdout)
  {
    SelectMember(suite, Wanted(only), level, b);
    KeptMember(Select(suite, Wanted(only), level), Reserved(suite, level, holdout), b);
  }

  lemma {:induction false} SelectKeepsDistinct(bs: seq<Bench>, want: set<string>, level: int)
    requires DistinctIds(bs)
    ensures DistinctIds(Select(bs, want, level))
  {
    if bs != [] {
      var init, b := bs[..|bs| - 1], bs[|bs| - 1];
      SelectKeepsDistinct(init, want, level);
      forall x | x in Select(init, want, level) ensures x.id != b.id {
        SelectMember(init, want, level, x);
        var k :| 0 <= k < |init| && init[k] == x;
        assert bs[k] == x;
      }
    }
  }

  /** With distinct ids, exactly the requested number is reserved whenever the pool is larger. */
  lemma ReservedCount(suite: seq<Bench>, level: int, holdout: int)
    requires DistinctIds(suite)
    ensures |Reserved(suite, level, holdout)| == if 0 < holdout < |Select(suite, {}, level)| then holdout else 0
  {
    var pool := Select(suite, {}, level);
    SelectKeepsDistinct(suite, {}, level);
    if 0 < holdout < |pool| {
      var tail := pool[|pool| - holdout..];
      assert Held(suite, level, holdout) == tail;
      TailKeepsDistinct(pool, |pool| - holdout);
      IdSetSize(tail);
    } else {
      assert Held(suite, level, holdout) == [];
      IdSetSize([]);
    }
  }

  lemma TailKeepsDistinct(bs: seq<Bench>, cut: nat)
    requires DistinctIds(bs) && cut <= |bs|
    ensures DistinctIds(bs[cut..])
  {
    var tail := bs[cut..];
    forall i, j | 0 <= i < j < |tail| ensures tail[i].id != tail[j].id {
      assert tail[i] == bs[cut + i] && tail[j] == bs[cut + j];
    }
  }

  lemma {:induction false} IdSetSize(bs: seq<Bench>)
    requires DistinctIds(bs)
    ensures |IdSet(bs)| == |bs|
  {
    if bs != [] {
      var init, b := bs[..|bs| - 1], bs[|bs| - 1];
      assert bs == init + [b];
      IdSetSize(init);
      assert IdSet(bs) == IdSet(init) + {b.id};
    }
  }

  /** Without --only, the planned run followed by the holdout is exactly the level's pool, in order. */
  lemma PlanAndHoldoutPartitionThePool(suite: seq<Bench>, level: int, holdout: int)
    requires DistinctIds(suite)
    ensures Planned(suite, "", level, holdout) + Held(suite, level, holdout) == Select(suite, {}, level)
  {
    var pool := Select(suite, {}, level);
    NothingNamed();
    SelectKeepsDistinct(suite, {}, level);
    var held := Held(suite, level, holdout);
    var cut := |pool| - |held|;
    assert held == pool[cut..];
    KeptIsPrefix(pool, cut, IdSet(held));
    assert pool[..cut] + pool[cut..] == pool;
  }

  lemma NothingNamed()
    ensures Wanted("") == {}
  {
    assert Split("", ',') == [""] && Trim("", GO_SPACE) == "";
  }

  lemma {:induction false} KeptIsPrefix(bs: seq<Bench>, cut: nat, reserved: set<string>)
    requires DistinctIds(bs) && cut <= |bs|
    requires reserved == IdSet(bs[cut..])
    ensures Kept(bs, reserved) == bs[..cut]
  {
    forall k | 0 <= k < cut ensures bs[k].id !in reserved {
      assert forall j :: cut <= j < |bs| ==> bs[j].id != bs[k].id;
    }
    forall k | cut <= k < |bs| ensures bs[k].id in reserved {
      assert bs[k] == bs[cut..][k - cut];
    }
    KeptSplits(bs, cut, reserved);
  }

  lemma {:induction false} KeptSplits(bs: seq<Bench>, cut: nat, reserved: set<string>)
    requires cut <= |bs|
    requires forall k :: 0 <= k < |bs| ==> (bs[k].id in reserved <==> cut <= k)
    ensures Kept(bs, reserved) == bs[..cut]
    decreases |bs|
  {
    if bs == [] {
    } else if cut == |bs| {
      var init := bs[..|bs| - 1];
      KeptSplits(init, cut - 1, reserved);
      assert bs[..cut] == init[..cut - 1] + [bs[cut - 1]];
    } else {
      var init := bs[..|bs| - 1];
      KeptSplits(init, cut, reserved);
      assert bs[..cut] == init[..cut];
    }
  }
}
