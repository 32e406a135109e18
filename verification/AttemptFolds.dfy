/**
 The two folds that summarise a list of benchmark attempts: the Go runner's `dedupeResults` and the
 Python autopsy's first-or-first-solved fold, together with the scoreboard counts taken from the former.
 */
module AttemptFolds {
  import opened Wrappers
  import opened Sequences
  import opened Text

  /** What one attempt came to: an infrastructure error is never graded, so it is never solved. */
  datatype Outcome = Errored(reason: string) | Graded(solved: bool, findings: int, text: string)

  /** One attempt at one benchmark. The note's "[pass k/n]" stamp is kept as two numbers. */
  datatype Result = Result(id: string, outcome: Outcome, pass: int, passes: int) {
    predicate Solved() {
      outcome.Graded? && outcome.solved
    }

    predicate Errored() {
      outcome.Errored?
    }
  }

  function IdSeq(rs: seq<Result>): (ids: seq<string>)
    ensures |ids| == |rs|
  {
    if rs == [] then [] else IdSeq(rs[..|rs| - 1]) + [rs[|rs| - 1].id]
  }

  function Ids(rs: seq<Result>): set<string> {
    if rs == [] then {} else Ids(rs[..|rs| - 1]) + {rs[|rs| - 1].id}
  }

  lemma {:induction false} IdSeqAt(rs: seq<Result>, k: nat)
    requires k < |rs|
    ensures IdSeq(rs)[k] == rs[k].id
  {
    if k < |rs| - 1 {
      IdSeqAt(rs[..|rs| - 1], k);
    }
  }

  lemma {:induction false} IdsMember(rs: seq<Result>, id: string)
    ensures id in Ids(rs) <==> exists r :: r in rs && r.id == id
    ensures id in Ids(rs) <==> id in IdSeq(rs)
  {
    if rs != [] {
      var init, last := rs[..|rs| - 1], rs[|rs| - 1];
      assert rs == init + [last];
      IdsMember(init, id);
    }
  }

  /** The attempts at one benchmark, in order. */
  function Of(rs: seq<Result>, id: string): seq<Result> {
    if rs == [] then []
    else
      var r := rs[|rs| - 1];
      Of(rs[..|rs| - 1], id) + (if r.id == id then [r] else [])
  }

  lemma {:induction false} OfMember(rs: seq<Result>, id: string, r: Result)
    ensures r in Of(rs, id) <==> r in rs && r.id == id
  {
    if rs != [] {
      assert rs == rs[..|rs| - 1] + [rs[|rs| - 1]];
      OfMember(rs[..|rs| - 1], id, r);
    }
  }

  lemma IdsSnoc(rs: seq<Result>, r: Result)
    ensures Ids(rs + [r]) == Ids(rs) + {r.id}
  {
    assert (rs + [r])[..|rs|] == rs;
  }

  lemma UniqueIdsSnoc(rs: seq<Result>, r: Result)
    ensures Unique(IdSeq(rs + [r])) == Unique(IdSeq(rs)) + if r.id in Ids(rs) then [] else [r.id]
  {
    IdsMember(rs, r.id);
    UniqueMember(IdSeq(rs), r.id);
    UniqueSnoc(IdSeq(rs), r.id);
    assert (rs + [r])[..|rs|] == rs;
  }

  lemma {:induction false} OfConcat(a: seq<Result>, b: seq<Result>, id: string)
    ensures Of(a + b, id) == Of(a, id) + Of(b, id)
  {
    if b == [] {
      assert a + b == a;
    } else {
      assert (a + b)[..|a + b| - 1] == a + b[..|b| - 1];
      OfConcat(a, b[..|b| - 1], id);
    }
  }

  lemma OfSnoc(rs: seq<Result>, r: Result, id: string)
    ensures Of(rs + [r], id) == Of(rs, id) + if r.id == id then [r] else []
  {
    assert (rs + [r])[..|rs|] == rs;
  }

  // ----- dedupeResults: a solved attempt wins, otherwise the latest stands -----

  function Prefer(earlier: Option<Result>, later: Option<Result>): Option<Result> {
    if later.None? then earlier
    else if earlier.None? || later.value.Solved() || !earlier.value.Solved() then later
    else earlier
  }

  function Winner(rs: seq<Result>, id: string): (w: Option<Result>)
    ensures w.Some? <==> id in Ids(rs)
    ensures w.Some? ==> w.value in rs && w.value.id == id
  {
    if rs == [] then None
    else
      var r := rs[|rs| - 1];
      assert rs == rs[..|rs| - 1] + [r];
      Prefer(Winner(rs[..|rs| - 1], id), if r.id == id then Some(r) else None)
  }

  lemma OrderMember(rs: seq<Result>, id: string)
    ensures id in Unique(IdSeq(rs)) <==> id in Ids(rs)
  {
    IdsMember(rs, id);
    UniqueMember(IdSeq(rs), id);
  }

  function Dedupe(rs: seq<Result>): seq<Result> {
    var order := Unique(IdSeq(rs));
    seq(|order|, i requires 0 <= i < |order| => OrderMember(rs, order[i]); Winner(rs, order[i]).value)
  }

  lemma WinnerSnoc(rs: seq<Result>, r: Result, id: string)
    ensures Winner(rs + [r], id) == Prefer(Winner(rs, id), if r.id == id then Some(r) else None)
  {
    assert (rs + [r])[..|rs|] == rs;
  }

  ghost predicate Folded(rs: seq<Result>, byId: map<string, Result>, order: seq<string>) {
    && order == Unique(IdSeq(rs))
    && byId.Keys == Ids(rs)
    && forall id :: id in byId ==> Winner(rs, id) == Some(byId[id])
  }

  lemma FoldedSnoc(rs: seq<Result>, byId: map<string, Result>, order: seq<string>, r: Result)
    requires Folded(rs, byId, order)
    ensures r.id !in byId ==> Folded(rs + [r], byId[r.id := r], order + [r.id])
    ensures r.id in byId ==>
              Folded(rs + [r], if r.Solved() || !byId[r.id].Solved() then byId[r.id := r] else byId, order)
  {
    IdsSnoc(rs, r);
    UniqueIdsSnoc(rs, r);
    forall id { WinnerSnoc(rs, r, id); }
  }

  method DedupeResults(rs: seq<Result>) returns (out: seq<Result>)
    ensures out == Dedupe(rs)
  {
    var byId: map<string, Result> := map[];
    var order: seq<string> := [];
    for i := 0 to |rs|
      invariant Folded(rs[..i], byId, order)
    {
      var r := rs[i];
      assert rs[..i + 1] == rs[..i] + [r];
      FoldedSnoc(rs[..i], byId, order, r);
      if r.id !in byId {
        order := order + [r.id];
        byId := byId[r.id := r];
      } else {
        var prev := byId[r.id];
        if r.Solved() {
          byId := byId[r.id := r];
        } else if prev.Solved() {
          // keep the solved one
        } else {
          byId := byId[r.id := r];
        }
      }
    }
    assert rs[..|rs|] == rs;
    out := Survivors(rs, byId, order);
  }

  /** The surviving attempts in the order in which their benchmarks were first met. */
  method Survivors(ghost rs: seq<Result>, byId: map<string, Result>, order: seq<string>) returns (out: seq<Result>)
    requires Folded(rs, byId, order)
    ensures out == Dedupe(rs)
  {
    out := [];
    for i := 0 to |order|
      invariant |out| == i && forall k :: 0 <= k < i ==> out[k] == Dedupe(rs)[k]
    {
      OrderMember(rs, order[i]);
      out := out + [byId[order[i]]];
    }
  }

  lemma PreferAssociative(a: Option<Result>, b: Option<Result>, c: Option<Result>)
    ensures Prefer(Prefer(a, b), c) == Prefer(a, Prefer(b, c))
  {
  }

  lemma {:induction false} WinnerConcat(xs: seq<Result>, ys: seq<Result>, id: string)
    ensures Winner(xs + ys, id) == Prefer(Winner(xs, id), Winner(ys, id))
  {
    if ys == [] {
      assert xs + ys == xs;
    } else {
      var zs, y := ys[..|ys| - 1], ys[|ys| - 1];
      assert (xs + ys)[..|xs + ys| - 1] == xs + zs;
      WinnerConcat(xs, zs, id);
      PreferAssociative(Winner(xs, id), Winner(zs, id), if y.id == id then Some(y) else None);
    }
  }

  /** The winner is the last solved attempt of the benchmark, or else its last attempt. */
  lemma {:induction false} WinnerIsLastSolvedOrLast(rs: seq<Result>, id: string) returns (k: nat)
    requires id in Ids(rs)
    ensures k < |rs| && rs[k].id == id && Winner(rs, id) == Some(rs[k])
    ensures forall j :: k < j < |rs| && rs[j].id == id ==> rs[k].Solved() && !rs[j].Solved()
    ensures rs[k].Solved() <==> exists r :: r in rs && r.id == id && r.Solved()
  {
    var init, last := rs[..|rs| - 1], rs[|rs| - 1];
    assert rs == init + [last];
    if id in Ids(init) {
      k := WinnerIsLastSolvedOrLast(init, id);
      if last.id == id && (last.Solved() || !init[k].Solved()) {
        k := |rs| - 1;
      }
    } else {
      IdsMember(init, id);
      k := |rs| - 1;
    }
  }

  lemma DedupeIds(rs: seq<Result>)
    ensures IdSeq(Dedupe(rs)) == Unique(IdSeq(rs))
    ensures Ids(Dedupe(rs)) == Ids(rs)
  {
    var d, order := Dedupe(rs), Unique(IdSeq(rs));
    forall i | 0 <= i < |order| ensures IdSeq(d)[i] == order[i] {
      OrderMember(rs, order[i]);
      IdSeqAt(d, i);
    }
    assert IdSeq(d) == order;
    forall id ensures id in Ids(d) <==> id in Ids(rs) {
      OrderMember(rs, id);
      IdsMember(d, id);
    }
  }

  lemma {:induction false} WinnerAt(rs: seq<Result>, k: nat)
    requires k < |rs| && Distinct(IdSeq(rs))
    ensures Winner(rs, rs[k].id) == Some(rs[k])
  {
    var init, last := rs[..|rs| - 1], rs[|rs| - 1];
    assert rs == init + [last];
    assert IdSeq(init) == IdSeq(rs)[..|rs| - 1];
    if k == |rs| - 1 {
      IdsMember(init, last.id);
      assert IdSeq(rs)[k] !in IdSeq(rs)[..k];
    } else {
      WinnerAt(init, k);
      IdSeqAt(rs, k);
      assert IdSeq(rs)[k] != IdSeq(rs)[|rs| - 1];
    }
  }

  lemma WinnerOfDedupe(rs: seq<Result>, id: string)
    ensures Winner(Dedupe(rs), id) == Winner(rs, id)
  {
    DedupeIds(rs);
    OrderMember(rs, id);
    UniqueIsDistinct(IdSeq(rs));
    if id in Ids(rs) {
      var order := Unique(IdSeq(rs));
      var k :| 0 <= k < |order| && order[k] == id;
      WinnerAt(Dedupe(rs), k);
    }
  }

  lemma {:induction false} IdSeqConcat(xs: seq<Result>, ys: seq<Result>)
    ensures IdSeq(xs + ys) == IdSeq(xs) + IdSeq(ys)
  {
    if ys == [] {
      assert xs + ys == xs;
    } else {
      assert (xs + ys)[..|xs + ys| - 1] == xs + ys[..|ys| - 1];
      IdSeqConcat(xs, ys[..|ys| - 1]);
    }
  }

  lemma SameDedupe(xs: seq<Result>, ys: seq<Result>)
    requires Unique(IdSeq(xs)) == Unique(IdSeq(ys))
    requires forall id :: Winner(xs, id) == Winner(ys, id)
    ensures Dedupe(xs) == Dedupe(ys)
  {
    forall i | 0 <= i < |Dedupe(xs)|
      ensures Dedupe(xs)[i] == Dedupe(ys)[i]
    {
      var id := Unique(IdSeq(xs))[i];
      OrderMember(xs, id);
      OrderMember(ys, id);
    }
  }

  /** Folding in pieces and folding at once agree, in values and in order. */
  lemma DedupeInPieces(xs: seq<Result>, ys: seq<Result>)
    ensures Dedupe(Dedupe(xs) + Dedupe(ys)) == Dedupe(xs + ys)
  {
    var pieces := Dedupe(xs) + Dedupe(ys);
    DedupeIds(xs);
    DedupeIds(ys);
    IdSeqConcat(Dedupe(xs), Dedupe(ys));
    IdSeqConcat(xs, ys);
    UniqueInPieces(IdSeq(xs), IdSeq(ys));
    forall id
      ensures Winner(pieces, id) == Winner(xs + ys, id)
    {
      WinnerConcat(Dedupe(xs), Dedupe(ys), id);
      WinnerConcat(xs, ys, id);
      WinnerOfDedupe(xs, id);
      WinnerOfDedupe(ys, id);
    }
    SameDedupe(pieces, xs + ys);
  }

  lemma DedupeIdempotent(xs: seq<Result>)
    ensures Dedupe(Dedupe(xs)) == Dedupe(xs)
  {
    assert Dedupe([]) == [];
    DedupeInPieces(xs, []);
    assert Dedupe(xs) + Dedupe([]) == Dedupe(xs) && xs + [] == xs;
  }

  /** The fold only selects: as a multiset, its output is contained in its input. */
  lemma DedupeSelects(rs: seq<Result>)
    ensures multiset(Dedupe(rs)) <= multiset(rs)
  {
    var d := Dedupe(rs);
    DedupeIds(rs);
    UniqueIsDistinct(IdSeq(rs));
    forall i, j | 0 <= i < j < |d| ensures d[i] != d[j] {
      IdSeqAt(d, i);
      IdSeqAt(d, j);
      assert IdSeq(d)[i] != IdSeq(d)[j];
    }
    forall r | r in d ensures r in rs {
      var k :| 0 <= k < |d| && d[k] == r;
      OrderMember(rs, Unique(IdSeq(rs))[k]);
    }
    DistinctMembersSelected(d, rs);
  }

  lemma {:induction false} DistinctMembersSelected(d: seq<Result>, rs: seq<Result>)
    requires Distinct(d) && forall r :: r in d ==> r in rs
    ensures multiset(d) <= multiset(rs)
  {
    forall r | r in multiset(d) ensures multiset(d)[r] <= multiset(rs)[r] {
      assert r in d && r in rs;
      CountInDistinct(d, r);
    }
  }

  // ----- the Python autopsy's fold: the first attempt, replaced by the first solved one -----

  function PreferFirst(earlier: Option<Result>, later: Option<Result>): Option<Result> {
    if earlier.None? then later
    else if later.Some? && later.value.Solved() && !earlier.value.Solved() then later
    else earlier
  }

  function FirstWinner(rs: seq<Result>, id: string): (w: Option<Result>)
    ensures w.Some? <==> id in Ids(rs)
    ensures w.Some? ==> w.value in rs && w.value.id == id
  {
    if rs == [] then None
    else
      var r := rs[|rs| - 1];
      assert rs == rs[..|rs| - 1] + [r];
      PreferFirst(FirstWinner(rs[..|rs| - 1], id), if r.id == id then Some(r) else None)
  }

  /** The autopsy keeps the first solved attempt of the benchmark, or else its first attempt. */
  lemma {:induction false} FirstWinnerIsFirstSolvedOrFirst(rs: seq<Result>, id: string) returns (k: nat)
    requires id in Ids(rs)
    ensures k < |rs| && rs[k].id == id && FirstWinner(rs, id) == Some(rs[k])
    ensures forall j :: 0 <= j < k && rs[j].id == id ==> rs[k].Solved() && !rs[j].Solved()
    ensures rs[k].Solved() <==> exists r :: r in rs && r.id == id && r.Solved()
  {
    var init, last := rs[..|rs| - 1], rs[|rs| - 1];
    assert rs == init + [last];
    if id in Ids(init) {
      k := FirstWinnerIsFirstSolvedOrFirst(init, id);
      if last.id == id && last.Solved() && !init[k].Solved() {
        k := |rs| - 1;
      }
    } else {
      IdsMember(init, id);
      k := |rs| - 1;
    }
  }

  lemma AutopsySnoc(rs: seq<Result>, r: Result, id: string)
    ensures FirstWinner(rs + [r], id) == PreferFirst(FirstWinner(rs, id), if r.id == id then Some(r) else None)
    ensures |Of(rs + [r], id)| == |Of(rs, id)| + if r.id == id then 1 else 0
    ensures id !in Ids(rs) ==> Of(rs, id) == []
  {
    assert (rs + [r])[..|rs|] == rs;
    if Of(rs, id) != [] {
      OfMember(rs, id, Of(rs, id)[0]);
      IdsMember(rs, id);
    }
  }

  ghost predicate BestSoFar(rs: seq<Result>, best: map<string, Result>) {
    && best.Keys == Ids(rs)
    && forall id :: id in best ==> FirstWinner(rs, id) == Some(best[id])
  }

  ghost predicate Counted(rs: seq<Result>, attempts: map<string, nat>) {
    && attempts.Keys == Ids(rs)
    && forall id :: id in attempts ==> attempts[id] == |Of(rs, id)|
  }

  function KeepBest(best: map<string, Result>, e: Result): map<string, Result> {
    if e.id !in best || (e.Solved() && !best[e.id].Solved()) then best[e.id := e] else best
  }

  function Increment(attempts: map<string, nat>, id: string): map<string, nat> {
    attempts[id := (if id in attempts then attempts[id] else 0) + 1]
  }

  lemma BestSoFarSnoc(rs: seq<Result>, best: map<string, Result>, e: Result)
    requires BestSoFar(rs, best)
    ensures BestSoFar(rs + [e], KeepBest(best, e))
  {
    IdsSnoc(rs, e);
    var best' := KeepBest(best, e);
    forall id | id in best' ensures FirstWinner(rs + [e], id) == Some(best'[id]) {
      AutopsySnoc(rs, e, id);
    }
  }

  lemma CountedSnoc(rs: seq<Result>, attempts: map<string, nat>, e: Result)
    requires Counted(rs, attempts)
    ensures Counted(rs + [e], Increment(attempts, e.id))
  {
    IdsSnoc(rs, e);
    var attempts' := Increment(attempts, e.id);
    forall id | id in attempts' ensures attempts'[id] == |Of(rs + [e], id)| {
      AutopsySnoc(rs, e, id);
      IdsMember(rs, id);
    }
  }

  function BestOf(rs: seq<Result>): map<string, Result> {
    if rs == [] then map[] else KeepBest(BestOf(rs[..|rs| - 1]), rs[|rs| - 1])
  }

  function AttemptsOf(rs: seq<Result>): map<string, nat> {
    if rs == [] then map[] else Increment(AttemptsOf(rs[..|rs| - 1]), rs[|rs| - 1].id)
  }

  lemma {:induction false} AutopsyMeans(rs: seq<Result>)
    ensures BestSoFar(rs, BestOf(rs)) && Counted(rs, AttemptsOf(rs))
  {
    if rs != [] {
      var init, last := rs[..|rs| - 1], rs[|rs| - 1];
      assert rs == init + [last];
      AutopsyMeans(init);
      BestSoFarSnoc(init, BestOf(init), last);
      CountedSnoc(init, AttemptsOf(init), last);
    }
  }

  method AutopsyFold(rs: seq<Result>) returns (best: map<string, Result>, attempts: map<string, nat>)
    ensures BestSoFar(rs, best) && Counted(rs, attempts)
  {
    best, attempts := map[], map[];
    for i := 0 to |rs|
      invariant best == BestOf(rs[..i]) && attempts == AttemptsOf(rs[..i])
    {
      var e := rs[i];
      assert rs[..i + 1][..i] == rs[..i];
      attempts := attempts[e.id := (if e.id in attempts then attempts[e.id] else 0) + 1];
      if e.id !in best {
        best := best[e.id := e];
      }
      var b := best[e.id];
      if e.Solved() && !b.Solved() {
        best := best[e.id := e];
      }
    }
    assert rs[..|rs|] == rs;
    AutopsyMeans(rs);
  }

  /** The two folds keep different attempts but never disagree on which benchmarks are solved. */
  lemma {:induction false} FoldsAgree(rs: seq<Result>, id: string)
    ensures Winner(rs, id).Some? == FirstWinner(rs, id).Some?
    ensures Winner(rs, id).Some? ==> Winner(rs, id).value.Solved() == FirstWinner(rs, id).value.Solved()
  {
    if rs != [] {
      FoldsAgree(rs[..|rs| - 1], id);
    }
  }

  /** They do keep different attempts: of two solved ones, the Go fold keeps the second. */
  lemma FoldsKeepDifferentAttempts()
    ensures exists rs, id :: Winner(rs, id).Some? && Winner(rs, id) != FirstWinner(rs, id)
  {
    var a := Result("XBEN-001-24", Graded(true, 1, ""), 1, 2);
    var b := a.(pass := 2);
    var rs := [a, b];
    assert rs[..1] == [a];
    assert Winner([a], a.id) == Some(a) && FirstWinner([a], a.id) == Some(a) by { assert [a][..0] == []; }
    assert Winner(rs, a.id) == Some(b) && FirstWinner(rs, a.id) == Some(a);
  }

  // ----- the headline counts -----

  datatype Tally = Tally(total: nat, solved: nat, errored: nat)

  function TallyOf(rs: seq<Result>): Tally {
    if rs == [] then Tally(0, 0, 0)
    else
      var t, r := TallyOf(rs[..|rs| - 1]), rs[|rs| - 1];
      if r.Errored() then t.(errored := t.errored + 1)
      else t.(total := t.total + 1, solved := t.solved + if r.Solved() then 1 else 0)
  }

  /** What a result copies from its benchmark's configuration. */
  datatype Info = Info(level: int, tags: seq<string>)

  type Suite = string -> Info

  datatype LevelAgg = LevelAgg(total: nat, solved: nat)

  const NONE := LevelAgg(0, 0)

  function Plus(a: LevelAgg, n: nat, solved: bool): LevelAgg {
    LevelAgg(a.total + n, a.solved + if solved then n else 0)
  }

  /** The graded results of one level. */
  function LevelAt(rs: seq<Result>, suite: Suite, level: int): LevelAgg {
    if rs == [] then NONE
    else
      var r := rs[|rs| - 1];
      var n := if !r.Errored() && suite(r.id).level == level then 1 else 0;
      Plus(LevelAt(rs[..|rs| - 1], suite, level), n, r.Solved())
  }

  function Normalized(tag: string): string {
    Lower(Trim(tag, GO_SPACE))
  }

  /** How often a benchmark carries a tag, up to case and surrounding space; the blank tag is no tag. */
  function Times(tags: seq<string>, tag: string): nat {
    if tags == [] then 0
    else Times(tags[..|tags| - 1], tag) + if tag != "" && Normalized(tags[|tags| - 1]) == tag then 1 else 0
  }

  /** The graded results of one tag, once for every time their benchmark carries it. */
  function TagAt(rs: seq<Result>, suite: Suite, tag: string): LevelAgg {
    if rs == [] then NONE
    else
      var r := rs[|rs| - 1];
      Plus(TagAt(rs[..|rs| - 1], suite, tag), if r.Errored() then 0 else Times(suite(r.id).tags, tag), r.Solved())
  }

  /** The graded results with at least one finding. */
  function Found(rs: seq<Result>): nat {
    if rs == [] then 0
    else
      var o := rs[|rs| - 1].outcome;
      Found(rs[..|rs| - 1]) + if o.Graded? && o.findings > 0 then 1 else 0
  }

  datatype Scoreboard = Scoreboard(
    tally: Tally, withFindings: nat, byLevel: map<int, LevelAgg>, byTag: map<string, LevelAgg>)

  function At<K>(m: map<K, LevelAgg>, k: K): LevelAgg {
    if k in m then m[k] else NONE
  }

  /** A breakdown has no empty entries. */
  ghost predicate Positive<K(!new)>(m: map<K, LevelAgg>) {
    forall k :: k in m ==> m[k].total > 0
  }

  ghost predicate Levels(m: map<int, LevelAgg>, rs: seq<Result>, suite: Suite) {
    Positive(m) && forall level :: At(m, level) == LevelAt(rs, suite, level)
  }

  ghost predicate Tags(m: map<string, LevelAgg>, rs: seq<Result>, suite: Suite) {
    Positive(m) && forall tag :: At(m, tag) == TagAt(rs, suite, tag)
  }

  lemma LevelsSnoc(m: map<int, LevelAgg>, m': map<int, LevelAgg>, rs: seq<Result>, r: Result, suite: Suite)
    requires Levels(m, rs, suite)
    requires var level := suite(r.id).level;
             m' == if r.Errored() then m else m[level := Plus(At(m, level), 1, r.Solved())]
    ensures Levels(m', rs + [r], suite)
  {
    forall level ensures At(m', level) == LevelAt(rs + [r], suite, level) {
      assert (rs + [r])[..|rs|] == rs;
      assert At(m, level) == LevelAt(rs, suite, level);
    }
  }

  lemma TagsSnoc(m: map<string, LevelAgg>, m': map<string, LevelAgg>, rs: seq<Result>, r: Result, suite: Suite)
    requires Tags(m, rs, suite) && Positive(m')
    requires r.Errored() ==> m' == m
    requires !r.Errored() ==> forall tag :: At(m', tag) == Plus(At(m, tag), Times(suite(r.id).tags, tag), r.Solved())
    ensures Tags(m', rs + [r], suite)
  {
    assert (rs + [r])[..|rs|] == rs;
    forall tag ensures At(m', tag) == TagAt(rs + [r], suite, tag) {
      assert At(m, tag) == TagAt(rs, suite, tag);
    }
  }

  lemma TimesSnoc(tags: seq<string>, t: string, tag: string)
    ensures Times(tags + [t], tag) == Times(tags, tag) + if tag != "" && Normalized(t) == tag then 1 else 0
  {
    assert (tags + [t])[..|tags|] == tags;
  }

  /** Count one graded result under every tag of its benchmark. */
  method AddTags(byTag: map<string, LevelAgg>, tags: seq<string>, solved: bool) returns (byTag': map<string, LevelAgg>)
    requires Positive(byTag)
    ensures Positive(byTag') && forall tag :: At(byTag', tag) == Plus(At(byTag, tag), Times(tags, tag), solved)
  {
    byTag' := byTag;
    ghost var seen: seq<string> := [];
    for i := 0 to |tags|
      invariant seen == tags[..i]
      invariant Positive(byTag') && forall tag :: At(byTag', tag) == Plus(At(byTag, tag), Times(seen, tag), solved)
    {
      forall tag { TimesSnoc(seen, tags[i], tag); }
      seen := seen + [tags[i]];
      var t := Normalized(tags[i]);
      if t == "" {
        continue;
      }
      var ta := At(byTag', t);
      byTag' := byTag'[t := LevelAgg(ta.total + 1, if solved then ta.solved + 1 else ta.solved)];
    }
    assert seen == tags;
  }

  /** Count one result under its benchmark's level and tags, unless it errored. */
  method AddGraded(
    byLevel: map<int, LevelAgg>, byTag: map<string, LevelAgg>, r: Result, suite: Suite, ghost seen: seq<Result>)
    returns (byLevel': map<int, LevelAgg>, byTag': map<string, LevelAgg>)
    requires Levels(byLevel, seen, suite) && Tags(byTag, seen, suite)
    ensures Levels(byLevel', seen + [r], suite) && Tags(byTag', seen + [r], suite)
  {
    byLevel', byTag' := byLevel, byTag;
    if !r.Errored() {
      var info := suite(r.id);
      byTag' := AddTags(byTag, info.tags, r.Solved());
      byLevel' := byLevel[info.level := Plus(At(byLevel, info.level), 1, r.Solved())];
    }
    LevelsSnoc(byLevel, byLevel', seen, r, suite);
    TagsSnoc(byTag, byTag', seen, r, suite);
  }

  /** The scoreboard loop: errored benchmarks leave every denominator. */
  method Aggregate(rs: seq<Result>, suite: Suite) returns (sb: Scoreboard)
    ensures sb.tally == TallyOf(rs) && sb.withFindings == Found(rs)
    ensures Levels(sb.byLevel, rs, suite) && Tags(sb.byTag, rs, suite)
  {
    var total, solved, errored, withFindings := 0, 0, 0, 0;
    var byLevel: map<int, LevelAgg>, byTag: map<string, LevelAgg> := map[], map[];
    ghost var seen: seq<Result> := [];
    for i := 0 to |rs|
      invariant seen == rs[..i]
      invariant Tally(total, solved, errored) == TallyOf(seen) && withFindings == Found(seen)
      invariant Levels(byLevel, seen, suite) && Tags(byTag, seen, suite)
    {
      var r := rs[i];
      if r.Errored() {
        errored := errored + 1;
      } else {
        total := total + 1;
        if r.outcome.findings > 0 {
          withFindings := withFindings + 1;
        }
        if r.Solved() {
          solved := solved + 1;
        }
      }
      byLevel, byTag := AddGraded(byLevel, byTag, r, suite, seen);
      CountsSnoc(seen, r);
      seen := seen + [r];
    }
    assert seen == rs;
    sb := Scoreboard(Tally(total, solved, errored), withFindings, byLevel, byTag);
  }

  lemma CountsSnoc(rs: seq<Result>, r: Result)
    ensures Found(rs + [r]) == Found(rs) + if r.outcome.Graded? && r.outcome.findings > 0 then 1 else 0
    ensures var t := TallyOf(rs);
            TallyOf(rs + [r]) ==
            if r.Errored() then t.(errored := t.errored + 1)
            else t.(total := t.total + 1, solved := t.solved + if r.Solved() then 1 else 0)
  {
    assert (rs + [r])[..|rs|] == rs;
  }

  /** Over two lists of results, the breakdowns and the finding count add up. */
  lemma {:induction false} BreakdownsAdd(a: seq<Result>, b: seq<Result>, suite: Suite, level: int, tag: string)
    ensures var (x, y) := (LevelAt(a, suite, level), LevelAt(b, suite, level));
            LevelAt(a + b, suite, level) == LevelAgg(x.total + y.total, x.solved + y.solved)
    ensures var (x, y) := (TagAt(a, suite, tag), TagAt(b, suite, tag));
            TagAt(a + b, suite, tag) == LevelAgg(x.total + y.total, x.solved + y.solved)
    ensures Found(a + b) == Found(a) + Found(b)
  {
    if b == [] {
      assert a + b == a;
    } else {
      assert (a + b)[..|a + b| - 1] == a + b[..|b| - 1];
      BreakdownsAdd(a, b[..|b| - 1], suite, level, tag);
    }
  }

  /**
   What one result contributes to a tag, in terms of its benchmark's own tags: nothing if it is errored or its
   benchmark does not carry the tag, and one if the benchmark carries it once, in whatever case and spacing.
   */
  lemma OneTagged(r: Result, suite: Suite, before: seq<string>, t: string, after: seq<string>, tag: string)
    requires suite(r.id).tags == before + [t] + after
    requires forall x :: x in before || x in after ==> Lower(Trim(x, GO_SPACE)) != tag
    ensures TagAt([r], suite, tag) ==
            if r.Errored() || tag == "" || Lower(Trim(t, GO_SPACE)) != tag then NONE
            else LevelAgg(1, if r.Solved() then 1 else 0)
  {
    assert [r][..0] == [];
    Untagged(before, tag);
    Untagged(after, tag);
    TimesConcat(before + [t], after, tag);
    TimesConcat(before, [t], tag);
    assert [t][..0] == [];
  }

  lemma {:induction false} Untagged(tags: seq<string>, tag: string)
    requires forall x :: x in tags ==> Lower(Trim(x, GO_SPACE)) != tag
    ensures Times(tags, tag) == 0
  {
    if tags != [] {
      assert tags[|tags| - 1] in tags;
      Untagged(tags[..|tags| - 1], tag);
    }
  }

  lemma {:induction false} TimesConcat(a: seq<string>, b: seq<string>, tag: string)
    ensures Times(a + b, tag) == Times(a, tag) + Times(b, tag)
  {
    if b == [] {
      assert a + b == a;
    } else {
      assert (a + b)[..|a + b| - 1] == a + b[..|b| - 1];
      TimesConcat(a, b[..|b| - 1], tag);
    }
  }

  /** Results with findings are graded results: all of them if every graded result has one, none if none has. */
  lemma {:induction false} FoundBounds(rs: seq<Result>)
    ensures Found(rs) <= TallyOf(rs).total
    ensures Found(rs) == 0 <==> forall r :: r in rs ==> r.outcome.Errored? || r.outcome.findings <= 0
    ensures Found(rs) == TallyOf(rs).total <==> forall r :: r in rs ==> r.outcome.Errored? || r.outcome.findings > 0
  {
    if rs != [] {
      assert rs == rs[..|rs| - 1] + [rs[|rs| - 1]];
      FoundBounds(rs[..|rs| - 1]);
    }
  }

  function SumOfLevels(rs: seq<Result>, suite: Suite, levels: seq<int>): LevelAgg {
    if levels == [] then NONE
    else
      var before, last := SumOfLevels(rs, suite, levels[..|levels| - 1]), LevelAt(rs, suite, levels[|levels| - 1]);
      LevelAgg(before.total + last.total, before.solved + last.solved)
  }

  lemma {:induction false} OneMoreGraded(rs: seq<Result>, r: Result, suite: Suite, levels: seq<int>)
    requires Distinct(levels)
    ensures SumOfLevels(rs + [r], suite, levels) ==
            Plus(SumOfLevels(rs, suite, levels),
                 if !r.Errored() && suite(r.id).level in levels then 1 else 0, r.Solved())
  {
    if levels != [] {
      var init, level := levels[..|levels| - 1], levels[|levels| - 1];
      assert levels == init + [level] && level !in init;
      OneMoreGraded(rs, r, suite, init);
      assert (rs + [r])[..|rs|] == rs;
    }
  }

  lemma {:induction false} NoneGraded(suite: Suite, levels: seq<int>)
    ensures SumOfLevels([], suite, levels) == NONE
  {
    if levels != [] {
      NoneGraded(suite, levels[..|levels| - 1]);
    }
  }

  /** The levels add up: every benchmark that ran is counted, and counted as solved, under exactly one level. */
  lemma {:induction false} LevelsAddUp(rs: seq<Result>, suite: Suite, levels: seq<int>)
    requires Distinct(levels) && forall r :: r in rs && !r.Errored() ==> suite(r.id).level in levels
    ensures SumOfLevels(rs, suite, levels) == LevelAgg(TallyOf(rs).total, TallyOf(rs).solved)
  {
    if rs == [] {
      NoneGraded(suite, levels);
    } else {
      var init, r := rs[..|rs| - 1], rs[|rs| - 1];
      assert rs == init + [r];
      LevelsAddUp(init, suite, levels);
      OneMoreGraded(init, r, suite, levels);
    }
  }

  function SolvedIds(rs: seq<Result>): set<string> {
    if rs == [] then {}
    else
      var r := rs[|rs| - 1];
      SolvedIds(rs[..|rs| - 1]) + if r.Solved() then {r.id} else {}
  }

  lemma {:induction false} SolvedIdsMember(rs: seq<Result>, id: string)
    ensures id in SolvedIds(rs) <==> exists r :: r in rs && r.Solved() && r.id == id
    ensures id in SolvedIds(rs) ==> id in Ids(rs)
  {
    if rs != [] {
      var init, last := rs[..|rs| - 1], rs[|rs| - 1];
      assert rs == init + [last];
      SolvedIdsMember(init, id);
    }
  }

  lemma SolvedIdsSnoc(rs: seq<Result>, r: Result)
    ensures SolvedIds(rs + [r]) == SolvedIds(rs) + if r.Solved() then {r.id} else {}
  {
    assert (rs + [r])[..|rs|] == rs;
  }

  lemma {:induction false} TallyCounts(rs: seq<Result>)
    requires Distinct(IdSeq(rs))
    ensures TallyOf(rs).total + TallyOf(rs).errored == |rs| == |Ids(rs)|
    ensures TallyOf(rs).solved == |SolvedIds(rs)|
    ensures TallyOf(rs).errored == 0 <==> forall r :: r in rs ==> !r.Errored()
  {
    if rs == [] {
    } else {
      var init, last := rs[..|rs| - 1], rs[|rs| - 1];
      assert rs == init + [last];
      assert IdSeq(init) == IdSeq(rs)[..|rs| - 1];
      TallyCounts(init);
      LastIsNew(rs);
      SolvedIdsMember(init, last.id);
      assert Ids(rs) == Ids(init) + {last.id};
    }
  }

  lemma {:induction false} LastIsNew(rs: seq<Result>)
    requires rs != [] && Distinct(IdSeq(rs))
    ensures rs[|rs| - 1].id !in Ids(rs[..|rs| - 1])
  {
    var init, last := rs[..|rs| - 1], rs[|rs| - 1];
    IdsMember(init, last.id);
    assert IdSeq(rs) == IdSeq(init) + [last.id];
    assert IdSeq(rs)[|rs| - 1] !in IdSeq(rs)[..|rs| - 1];
  }

  lemma DedupeMember(rs: seq<Result>, r: Result)
    ensures r in Dedupe(rs) <==> Winner(rs, r.id) == Some(r)
  {
    var d := Dedupe(rs);
    DedupeIds(rs);
    UniqueIsDistinct(IdSeq(rs));
    WinnerOfDedupe(rs, r.id);
    if r in d {
      var k :| 0 <= k < |d| && d[k] == r;
      WinnerAt(d, k);
    }
  }

  /**
   The autopsy prints solved/len(best), the scoreboard Solved/Total. The numerators are always equal; the
   denominators are equal exactly when no benchmark's surviving attempt is an infrastructure error.
   */
  lemma {:induction false} HeadlinesAgree(rs: seq<Result>)
    ensures TallyOf(Dedupe(rs)).solved == |set id | id in Ids(rs) && FirstWinner(rs, id).value.Solved()|
    ensures TallyOf(Dedupe(rs)).total == |Ids(rs)| <==>
            forall id :: id in Ids(rs) ==> !Winner(rs, id).value.Errored()
  {
    var d := Dedupe(rs);
    DedupeIds(rs);
    UniqueIsDistinct(IdSeq(rs));
    TallyCounts(d);
    forall r { DedupeMember(rs, r); }
    SolvedSides(rs);
    forall id | id in Ids(rs) ensures Winner(rs, id).value in d {
    }
    forall r | r in d ensures r.id in Ids(rs) && Winner(rs, r.id) == Some(r) {
    }
  }

  /** One benchmark that never ran: the autopsy reports 0/1, the scoreboard 0/0. */
  lemma ErroredWinnerSplitsHeadlines(reason: string) returns (rs: seq<Result>)
    ensures |Ids(rs)| == 1 && TallyOf(Dedupe(rs)) == Tally(0, 0, 1)
  {
    var r := Result("XBEN-001-24", Errored(reason), 1, 1);
    rs := [r];
    assert [] + [r] == rs;
    IdsSnoc([], r);
    WinnerSnoc([], r, r.id);
    UniqueIdsSnoc([], r);
    assert Unique(IdSeq([])) == [];
    assert Dedupe(rs) == [r];
    CountsSnoc([], r);
  }

  lemma {:induction false} SolvedSides(rs: seq<Result>)
    ensures SolvedIds(Dedupe(rs)) == set id | id in Ids(rs) && FirstWinner(rs, id).value.Solved()
  {
    var d := Dedupe(rs);
    forall id
      ensures id in SolvedIds(d) <==> id in Ids(rs) && FirstWinner(rs, id).value.Solved()
    {
      FoldsAgree(rs, id);
      SolvedIdsMember(d, id);
      if id in SolvedIds(d) {
        var r :| r in d && r.Solved() && r.id == id;
        DedupeMember(rs, r);
      }
      if id in Ids(rs) {
        DedupeMember(rs, Winner(rs, id).value);
      }
    }
  }
}
