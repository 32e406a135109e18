/**
 The batch assessment pool: one goroutine per domain, a channel as a semaphore, a WaitGroup, and a shared rows
 slice; every goroutine's steps are interleaved with all the others'. Then the stable sort of the table.
 */
module AssessPool {
  import opened Wrappers
  import opened Sorting

  datatype Report = Report(score: int, grade: string)

  /** What AssessDomain returns. */
  datatype Verdict = Assessed(report: Report) | Refused(message: string)

  datatype Row = Row(domain: string, report: Option<Report>, error: string)

  const BLANK := Row("", None, "")

  function Filled(domain: string, v: Verdict): Row {
    match v
    case Assessed(report) => Row(domain, Some(report), "")
    case Refused(message) => Row(domain, None, message)
  }

  /** A goroutine: not started, blocked on the semaphore, assessing, writing its row in two steps, leaving. */
  datatype Phase =
    | Unborn
    | Queued
    | Assessing
    | Naming(v: Verdict)
    | Written(v: Verdict)
    | Released(v: Verdict)
    | Gone(v: Verdict)

  datatype Main = Spawning | Waiting | Returned

  datatype Pool = Pool(phases: seq<Phase>, rows: seq<Row>, sem: nat, wg: nat, spawned: nat, main: Main)

  /** The domains and the --concurrency flag; anything below one means one. */
  datatype Job = Job(domains: seq<string>, flag: int) {
    function Concurrency(): nat {
      if flag < 1 then 1 else flag
    }
  }

  datatype Event =
    | Spawn
    | Wait
    | Acquire(i: nat)
    | Assess(i: nat, v: Verdict)
    | Fill(i: nat)
    | Release(i: nat)
    | Done(i: nat)
    | Return

  function Start(job: Job): Pool {
    var n := |job.domains|;
    Pool(seq(n, _ => Unborn), seq(n, _ => BLANK), 0, 0, 0, Spawning)
  }

  predicate Can(job: Job, p: Pool, e: Event) {
    match e
    case Spawn => p.main == Spawning && p.spawned < |p.phases|
    case Wait => p.main == Spawning && p.spawned == |p.phases|
    case Acquire(i) => i < |p.phases| && p.phases[i] == Queued && p.sem < job.Concurrency()
    case Assess(i, _) => i < |p.phases| && p.phases[i] == Assessing && i < |p.rows| && i < |job.domains|
    case Fill(i) => i < |p.phases| && p.phases[i].Naming? && i < |p.rows| && i < |job.domains|
    case Release(i) => i < |p.phases| && p.phases[i].Written? && p.sem > 0
    case Done(i) => i < |p.phases| && p.phases[i].Released? && p.wg > 0
    case Return => p.main == Waiting && p.wg == 0
  }

  function Step(job: Job, p: Pool, e: Event): Pool
    requires Can(job, p, e)
  {
    match e
    case Spawn => p.(phases := p.phases[p.spawned := Queued], wg := p.wg + 1, spawned := p.spawned + 1)
    case Wait => p.(main := Waiting)
    case Acquire(i) => p.(phases := p.phases[i := Assessing], sem := p.sem + 1)
    case Assess(i, v) => p.(phases := p.phases[i := Naming(v)], rows := p.rows[i := Row(job.domains[i], None, "")])
    case Fill(i) =>
      var v := p.phases[i].v;
      p.(phases := p.phases[i := Written(v)],
         rows := p.rows[i := match v
                             case Refused(message) => p.rows[i].(error := message)
                             case Assessed(report) => p.rows[i].(report := Some(report))])
    case Release(i) => p.(phases := p.phases[i := Released(p.phases[i].v)], sem := p.sem - 1)
    case Done(i) => p.(phases := p.phases[i := Gone(p.phases[i].v)], wg := p.wg - 1)
    case Return => p.(main := Returned)
  }

  // ----- counting goroutines -----

  predicate Holds(p: Phase) {
    p.Assessing? || p.Naming? || p.Written?
  }

  predicate Alive(p: Phase) {
    !p.Unborn? && !p.Gone?
  }

  function Count(ps: seq<Phase>, f: Phase -> bool): nat {
    if ps == [] then 0 else Count(ps[..|ps| - 1], f) + if f(ps[|ps| - 1]) then 1 else 0
  }

  lemma {:induction false} CountUpdate(ps: seq<Phase>, i: nat, x: Phase, f: Phase -> bool)
    requires i < |ps|
    ensures Count(ps[i := x], f) + (if f(ps[i]) then 1 else 0) == Count(ps, f) + if f(x) then 1 else 0
  {
    var init := ps[..|ps| - 1];
    if i == |ps| - 1 {
      assert ps[i := x][..|ps| - 1] == init;
    } else {
      assert ps[i := x][..|ps| - 1] == init[i := x];
      CountUpdate(init, i, x, f);
    }
  }

  lemma {:induction false} SomeCounted(ps: seq<Phase>, f: Phase -> bool) returns (i: nat)
    requires Count(ps, f) > 0
    ensures i < |ps| && f(ps[i])
  {
    if f(ps[|ps| - 1]) {
      i := |ps| - 1;
    } else {
      i := SomeCounted(ps[..|ps| - 1], f);
    }
  }

  lemma {:induction false} NoneCounted(ps: seq<Phase>, f: Phase -> bool)
    requires Count(ps, f) == 0
    ensures forall i :: 0 <= i < |ps| ==> !f(ps[i])
  {
    if ps != [] {
      NoneCounted(ps[..|ps| - 1], f);
    }
  }

  lemma {:induction false} CountedSome(ps: seq<Phase>, i: nat, f: Phase -> bool)
    requires i < |ps| && f(ps[i])
    ensures Count(ps, f) > 0
  {
    if i < |ps| - 1 {
      CountedSome(ps[..|ps| - 1], i, f);
    }
  }

  // ----- what every interleaving keeps -----

  ghost predicate RowMatches(domain: string, phase: Phase, row: Row) {
    match phase
    case Unborn => row == BLANK
    case Queued => row == BLANK
    case Assessing => row == BLANK
    case Naming(_) => row == Row(domain, None, "")
    case Written(v) => row == Filled(domain, v)
    case Released(v) => row == Filled(domain, v)
    case Gone(v) => row == Filled(domain, v)
  }

  ghost predicate Inv(job: Job, p: Pool) {
    && |p.phases| == |p.rows| == |job.domains| && p.spawned <= |p.phases|
    && (forall i :: 0 <= i < |p.phases| ==> (p.phases[i].Unborn? <==> p.spawned <= i))
    && (forall i :: 0 <= i < |p.phases| ==> RowMatches(job.domains[i], p.phases[i], p.rows[i]))
    && p.sem == Count(p.phases, Holds) && p.sem <= job.Concurrency()
    && p.wg == Count(p.phases, Alive)
    && (p.main != Spawning ==> p.spawned == |p.phases|)
    && (p.main == Returned ==> p.wg == 0)
  }

  lemma {:induction false} NobodyYet(n: nat, f: Phase -> bool)
    requires !f(Unborn)
    ensures Count(seq(n, _ => Unborn), f) == 0
  {
    if n > 0 {
      NobodyYet(n - 1, f);
      assert seq(n, _ => Unborn)[..n - 1] == seq(n - 1, _ => Unborn);
    }
  }

  lemma StartIsFine(job: Job)
    ensures Inv(job, Start(job))
  {
    NobodyYet(|job.domains|, Holds);
    NobodyYet(|job.domains|, Alive);
  }

  /** A goroutine's own step, seen as new values for its phase, its row and the two counters. */
  lemma MoveKeepsInv(job: Job, p: Pool, i: nat, x: Phase, row: Row, q: Pool)
    requires Inv(job, p) && i < |p.phases| && !p.phases[i].Unborn? && !x.Unborn?
    requires q == p.(phases := p.phases[i := x], rows := p.rows[i := row], sem := q.sem, wg := q.wg)
    requires RowMatches(job.domains[i], x, row) && Alive(p.phases[i])
    requires q.sem + (if Holds(p.phases[i]) then 1 else 0) == p.sem + if Holds(x) then 1 else 0
    requires q.wg + 1 == p.wg + if Alive(x) then 1 else 0
    requires q.sem <= job.Concurrency()
    ensures Inv(job, q)
  {
    BothCounts(p.phases, i, x);
    if p.main == Returned {
      NoneCounted(p.phases, Alive);
    }
  }

  lemma SpawnKeepsInv(job: Job, p: Pool)
    requires Inv(job, p) && Can(job, p, Spawn)
    ensures Inv(job, Step(job, p, Spawn))
  {
    BothCounts(p.phases, p.spawned, Queued);
  }

  lemma StepKeepsInv(job: Job, p: Pool, e: Event)
    requires Inv(job, p) && Can(job, p, e)
    ensures Inv(job, Step(job, p, e))
  {
    var q := Step(job, p, e);
    match e
    case Spawn => SpawnKeepsInv(job, p);
    case Wait =>
    case Acquire(i) =>
      assert p.rows[i := p.rows[i]] == p.rows;
      MoveKeepsInv(job, p, i, Assessing, p.rows[i], q);
    case Assess(i, v) => MoveKeepsInv(job, p, i, Naming(v), Row(job.domains[i], None, ""), q);
    case Fill(i) => MoveKeepsInv(job, p, i, Written(p.phases[i].v), Filled(job.domains[i], p.phases[i].v), q);
    case Release(i) => MoveKeepsInv(job, p, i, Released(p.phases[i].v), p.rows[i], q);
    case Done(i) => MoveKeepsInv(job, p, i, Gone(p.phases[i].v), p.rows[i], q);
    case Return =>
  }

  lemma BothCounts(ps: seq<Phase>, i: nat, x: Phase)
    requires i < |ps|
    ensures Count(ps[i := x], Holds) + (if Holds(ps[i]) then 1 else 0) == Count(ps, Holds) + if Holds(x) then 1 else 0
    ensures Count(ps[i := x], Alive) + (if Alive(ps[i]) then 1 else 0) == Count(ps, Alive) + if Alive(x) then 1 else 0
  {
    CountUpdate(ps, i, x, Holds);
    CountUpdate(ps, i, x, Alive);
  }

  predicate Possible(job: Job, p: Pool, es: seq<Event>)
    decreases |es|
  {
    es == [] || (Can(job, p, es[0]) && Possible(job, Step(job, p, es[0]), es[1..]))
  }

  function After(job: Job, p: Pool, es: seq<Event>): Pool
    requires Possible(job, p, es)
    decreases |es|
  {
    if es == [] then p else After(job, Step(job, p, es[0]), es[1..])
  }

  lemma {:induction false} Interleavings(job: Job, p: Pool, es: seq<Event>)
    requires Inv(job, p) && Possible(job, p, es)
    ensures Inv(job, After(job, p, es))
    decreases |es|
  {
    if es != [] {
      StepKeepsInv(job, p, es[0]);
      Interleavings(job, Step(job, p, es[0]), es[1..]);
    }
  }

  /** Under every interleaving, at most the requested number of domains are in progress. */
  lemma BoundedConcurrency(job: Job, es: seq<Event>)
    requires Possible(job, Start(job), es)
    ensures Count(After(job, Start(job), es).phases, Holds) <= if job.flag < 1 then 1 else job.flag
  {
    StartIsFine(job);
    Interleavings(job, Start(job), es);
  }

  /** When Wait has returned, every row holds its own domain with its report or its error, and nothing is held. */
  lemma ReturnedIsComplete(job: Job, p: Pool)
    requires Inv(job, p) && p.main == Returned
    ensures p.sem == 0
    ensures |p.rows| == |job.domains|
    ensures forall i :: 0 <= i < |job.domains| ==>
                          && p.phases[i].Gone? && p.rows[i].domain == job.domains[i]
                          && match p.phases[i].v
                             case Assessed(report) => p.rows[i].report == Some(report) && p.rows[i].error == ""
                             case Refused(message) => p.rows[i].report == None && p.rows[i].error == message
  {
    NoneCounted(p.phases, Alive);
    forall i | 0 <= i < |job.domains| ensures p.phases[i].Gone? {
      assert !Alive(p.phases[i]);
    }
    if p.sem > 0 {
      var i := SomeCounted(p.phases, Holds);
    }
  }

  // ----- progress -----

  /** Until Wait returns, some step is possible: the pool cannot deadlock. */
  lemma NoDeadlock(job: Job, p: Pool) returns (e: Event)
    requires Inv(job, p) && p.main != Returned
    ensures Can(job, p, e)
  {
    if p.main == Spawning {
      e := if p.spawned < |p.phases| then Spawn else Wait;
    } else if p.wg == 0 {
      e := Return;
    } else {
      var i := SomeCounted(p.phases, Alive);
      if p.phases[i].Queued? && p.sem == job.Concurrency() {
        i := SomeCounted(p.phases, Holds);
      }
      e := OwnStep(job, p, i);
    }
  }

  lemma OwnStep(job: Job, p: Pool, i: nat) returns (e: Event)
    requires Inv(job, p) && i < |p.phases| && Alive(p.phases[i])
    requires p.phases[i].Queued? ==> p.sem < job.Concurrency()
    ensures Can(job, p, e)
  {
    CountedSome(p.phases, i, Alive);
    match p.phases[i]
    case Queued => e := Acquire(i);
    case Assessing => e := Assess(i, Refused(""));
    case Naming(_) => e := Fill(i);
    case Written(_) =>
      CountedSome(p.phases, i, Holds);
      e := Release(i);
    case Released(_) => e := Done(i);
  }

  function Left(p: Phase): nat {
    match p
    case Unborn => 6
    case Queued => 5
    case Assessing => 4
    case Naming(_) => 3
    case Written(_) => 2
    case Released(_) => 1
    case Gone(_) => 0
  }

  function Sum(ps: seq<Phase>): nat {
    if ps == [] then 0 else Sum(ps[..|ps| - 1]) + Left(ps[|ps| - 1])
  }

  lemma {:induction false} SumUpdate(ps: seq<Phase>, i: nat, x: Phase)
    requires i < |ps|
    ensures Sum(ps[i := x]) + Left(ps[i]) == Sum(ps) + Left(x)
  {
    var init := ps[..|ps| - 1];
    if i == |ps| - 1 {
      assert ps[i := x][..|ps| - 1] == init;
    } else {
      assert ps[i := x][..|ps| - 1] == init[i := x];
      SumUpdate(init, i, x);
    }
  }

  /** The number of steps left in the whole pool. */
  function Measure(p: Pool): nat {
    Sum(p.phases) + match p.main case Spawning => 2 case Waiting => 1 case Returned => 0
  }

  lemma OwnStepDecreases(p: Pool, i: nat, x: Phase, q: Pool)
    requires i < |p.phases| && q.phases == p.phases[i := x] && q.main == p.main
    requires Left(p.phases[i]) == Left(x) + 1
    ensures Measure(q) == Measure(p) - 1
  {
    SumUpdate(p.phases, i, x);
  }

  lemma StepDecreases(job: Job, p: Pool, e: Event)
    requires Inv(job, p) && Can(job, p, e)
    ensures Measure(Step(job, p, e)) == Measure(p) - 1
  {
    var q := Step(job, p, e);
    match e
    case Spawn => OwnStepDecreases(p, p.spawned, Queued, q);
    case Wait =>
    case Acquire(i) => OwnStepDecreases(p, i, Assessing, q);
    case Assess(i, v) => OwnStepDecreases(p, i, Naming(v), q);
    case Fill(i) => OwnStepDecreases(p, i, Written(p.phases[i].v), q);
    case Release(i) => OwnStepDecreases(p, i, Released(p.phases[i].v), q);
    case Done(i) => OwnStepDecreases(p, i, Gone(p.phases[i].v), q);
    case Return =>
  }

  lemma {:induction false} StartMeasure(n: nat)
    ensures Sum(seq(n, _ => Unborn)) == 6 * n
  {
    if n > 0 {
      StartMeasure(n - 1);
      assert seq(n, _ => Unborn)[..n - 1] == seq(n - 1, _ => Unborn);
    }
  }

  lemma {:induction false} RunMeasure(job: Job, p: Pool, es: seq<Event>)
    requires Inv(job, p) && Possible(job, p, es)
    ensures Measure(After(job, p, es)) + |es| == Measure(p)
    decreases |es|
  {
    if es != [] {
      StepKeepsInv(job, p, es[0]);
      StepDecreases(job, p, es[0]);
      RunMeasure(job, Step(job, p, es[0]), es[1..]);
    }
  }

  /**
   Every interleaving is exactly six steps per domain and two for the main goroutine long when it has
   returned, is never longer, and can always be continued until then.
   */
  lemma AlwaysReturns(job: Job, es: seq<Event>)
    requires Possible(job, Start(job), es)
    ensures |es| <= 6 * |job.domains| + 2
    ensures After(job, Start(job), es).main == Returned <==> |es| == 6 * |job.domains| + 2
    ensures After(job, Start(job), es).main != Returned ==> exists e :: Can(job, After(job, Start(job), es), e)
  {
    var p := After(job, Start(job), es);
    StartIsFine(job);
    Interleavings(job, Start(job), es);
    RunMeasure(job, Start(job), es);
    StartMeasure(|job.domains|);
    if p.main == Returned {
      ReturnedIsComplete(job, p);
      AllGone(p.phases);
    } else {
      var e := NoDeadlock(job, p);
    }
  }

  lemma {:induction false} AllGone(ps: seq<Phase>)
    requires forall i :: 0 <= i < |ps| ==> ps[i].Gone?
    ensures Sum(ps) == 0
  {
    if ps != [] {
      AllGone(ps[..|ps| - 1]);
    }
  }

  // ----- the rows do not depend on the interleaving -----

  predicate Faithful(job: Job, assess: string -> Verdict, es: seq<Event>) {
    forall i :: 0 <= i < |es| && es[i].Assess? ==> es[i].i < |job.domains| && es[i].v == assess(job.domains[es[i].i])
  }

  predicate Answered(p: Phase) {
    !p.Unborn? && !p.Queued? && !p.Assessing?
  }

  ghost predicate Answers(job: Job, assess: string -> Verdict, p: Pool) {
    |p.phases| == |job.domains| &&
    forall i :: 0 <= i < |p.phases| && Answered(p.phases[i]) ==> p.phases[i].v == assess(job.domains[i])
  }

  lemma {:induction false} AnswersKept(job: Job, assess: string -> Verdict, p: Pool, es: seq<Event>)
    requires Answers(job, assess, p) && Possible(job, p, es) && Faithful(job, assess, es)
    ensures Answers(job, assess, After(job, p, es))
    decreases |es|
  {
    if es != [] {
      assert es[0].Assess? ==> es[0].v == assess(job.domains[es[0].i]);
      AnswersKept(job, assess, Step(job, p, es[0]), es[1..]);
    }
  }

  /** With a deterministic check, every interleaving that returns leaves the rows a plain loop would leave. */
  lemma RowsAsIfSerial(job: Job, assess: string -> Verdict, es: seq<Event>)
    requires Possible(job, Start(job), es) && Faithful(job, assess, es)
    requires After(job, Start(job), es).main == Returned
    ensures var rows := After(job, Start(job), es).rows;
            && |rows| == |job.domains|
            && forall i :: 0 <= i < |rows| ==>
                 rows[i] == match assess(job.domains[i])
                            case Assessed(report) => Row(job.domains[i], Some(report), "")
                            case Refused(message) => Row(job.domains[i], None, message)
  {
    StartIsFine(job);
    Interleavings(job, Start(job), es);
    AnswersKept(job, assess, Start(job), es);
    ReturnedIsComplete(job, After(job, Start(job), es));
  }

  // ----- the table -----

  /** The comparison handed to the stable sort: rows without a report come first. */
  predicate Worse(a: Row, b: Row) {
    if a.report.None? || b.report.None? then a.report.None? && b.report.Some?
    else a.report.value.score < b.report.value.score
  }

  lemma WorseOrders()
    ensures StrictWeak(Worse)
  {
  }

  /** What the comparison looks at. */
  function Rank(r: Row): Option<int> {
    match r.report
    case None => None
    case Some(report) => Some(report.score)
  }

  function OfRank(rows: seq<Row>, rank: Option<int>): seq<Row> {
    if rows == [] then []
    else OfRank(rows[..|rows| - 1], rank) + if Rank(rows[|rows| - 1]) == rank then [rows[|rows| - 1]] else []
  }

  /** Sorted, and rows that compare equal keep their order (so it is also a rearrangement). */
  ghost predicate StablySorted(table: seq<Row>, rows: seq<Row>) {
    Sorted(table, Worse) && forall rank :: OfRank(table, rank) == OfRank(rows, rank)
  }

  lemma {:induction false} OfRankConcat(a: seq<Row>, b: seq<Row>, rank: Option<int>)
    ensures OfRank(a + b, rank) == OfRank(a, rank) + OfRank(b, rank)
  {
    if b == [] {
      assert a + b == a;
    } else {
      assert (a + b)[..|a + b| - 1] == a + b[..|b| - 1];
      OfRankConcat(a, b[..|b| - 1], rank);
    }
  }

  lemma {:induction false} NoneOfRank(rows: seq<Row>, rank: Option<int>)
    requires forall i :: 0 <= i < |rows| ==> Rank(rows[i]) != rank
    ensures OfRank(rows, rank) == []
  {
    if rows != [] {
      NoneOfRank(rows[..|rows| - 1], rank);
    }
  }

  lemma OneOfRank(x: Row, rank: Option<int>)
    ensures OfRank([x], rank) == if Rank(x) == rank then [x] else []
  {
    assert [x][..0] == [];
  }

  lemma NoneAfterPlace(s: seq<Row>, x: Row)
    requires Sorted(s, Worse)
    ensures OfRank(s[Place(s, x, Worse)..], Rank(x)) == []
  {
    var n := Place(s, x, Worse);
    WorseOrders();
    PlaceSplits(s, x, Worse);
    forall i | 0 <= i < |s[n..]| ensures Rank(s[n..][i]) != Rank(x) {
      assert Worse(x, s[n + i]);
    }
    NoneOfRank(s[n..], Rank(x));
  }

  /** Insertion puts a row after every row of its rank. */
  lemma InsertIsStable(s: seq<Row>, x: Row, rank: Option<int>)
    requires Sorted(s, Worse)
    ensures OfRank(Insert(s, x, Worse), rank) == OfRank(s, rank) + if Rank(x) == rank then [x] else []
  {
    var n := Place(s, x, Worse);
    var a, b := s[..n], s[n..];
    assert s == a + b;
    OfRankConcat(a, b, rank);
    OfRankAround(a, x, b, rank);
    if Rank(x) == rank {
      NoneAfterPlace(s, x);
      assert OfRank(b, rank) == [] && OfRank(s, rank) == OfRank(a, rank);
      assert OfRank(a, rank) + [x] + [] == OfRank(a, rank) + [x];
    } else {
      assert OfRank(a, rank) + [] == OfRank(a, rank);
    }
  }

  lemma OfRankAround(a: seq<Row>, x: Row, b: seq<Row>, rank: Option<int>)
    ensures OfRank(a + [x] + b, rank) == OfRank(a, rank) + (if Rank(x) == rank then [x] else []) + OfRank(b, rank)
  {
    OfRankConcat(a + [x], b, rank);
    OfRankConcat(a, [x], rank);
    OneOfRank(x, rank);
  }

  lemma {:induction false} SortIsStable(rows: seq<Row>)
    ensures StablySorted(Sort(rows, Worse), rows)
  {
    WorseOrders();
    SortSorts(rows, Worse);
    if rows != [] {
      var init, x := rows[..|rows| - 1], rows[|rows| - 1];
      SortIsStable(init);
      forall rank ensures OfRank(Sort(rows, Worse), rank) == OfRank(rows, rank) {
        InsertIsStable(Sort(init, Worse), x, rank);
      }
    }
  }

  /** The table is fully determined by that: any correct stable sort prints the same one. */
  lemma {:induction false} StableSortIsUnique(t: seq<Row>, u: seq<Row>)
    requires Sorted(t, Worse) && Sorted(u, Worse)
    requires forall rank :: OfRank(t, rank) == OfRank(u, rank)
    ensures t == u
    decreases |t|
  {
    if t == [] {
      if u != [] {
        RankPresent(u, 0);
      }
    } else {
      RankPresent(t, 0);
      assert OfRank(u, Rank(t[0])) != [];
      assert u != [];
      RankPresent(u, 0);
      LeastRank(t, u);
      LeastRank(u, t);
      FirstOfRank(t);
      FirstOfRank(u);
      assert t[0] == u[0];
      forall rank ensures OfRank(t[1..], rank) == OfRank(u[1..], rank) {
        DropFirst(t, rank);
        DropFirst(u, rank);
        var first := if Rank(t[0]) == rank then [t[0]] else [];
        assert (first + OfRank(t[1..], rank))[|first|..] == OfRank(t[1..], rank);
        assert (first + OfRank(u[1..], rank))[|first|..] == OfRank(u[1..], rank);
      }
      StableSortIsUnique(t[1..], u[1..]);
      assert t == [t[0]] + t[1..] && u == [u[0]] + u[1..];
    }
  }

  /** What the reader of the table sees: every row once, failed checks on top, then the lowest scores first. */
  lemma CallSheet(table: seq<Row>, rows: seq<Row>)
    requires StablySorted(table, rows)
    ensures multiset(table) == multiset(rows)
    ensures forall i, j :: 0 <= i < j < |table| && table[j].report.None? ==> table[i].report.None?
    ensures forall i, j :: 0 <= i < j < |table| && table[i].report.Some? && table[j].report.Some? ==>
                             table[i].report.value.score <= table[j].report.value.score
  {
    WorseOrders();
    SortIsStable(rows);
    SortSorts(rows, Worse);
    StableSortIsUnique(table, Sort(rows, Worse));
    forall i, j | 0 <= i < j < |table| ensures !Worse(table[j], table[i]) {
    }
  }

  /** Rows that compare equal stay in the order of the domains. */
  lemma EqualRowsKeepTheirOrder(table: seq<Row>, rows: seq<Row>, i: nat, j: nat)
    requires StablySorted(table, rows) && i < j < |rows|
    requires rows[i].report.None? <==> rows[j].report.None?
    requires rows[i].report.Some? ==> rows[i].report.value.score == rows[j].report.value.score
    ensures exists x, y :: 0 <= x < y < |table| && table[x] == rows[i] && table[y] == rows[j]
  {
    var rank := Rank(rows[i]);
    var u, v := OfRankAt(rows, i, j, rank);
    var x, y := PlacesOfRank(table, u, v, rank);
  }

  /** Two rows of a rank appear in that order among the rows of the rank. */
  lemma {:induction false} OfRankAt(rows: seq<Row>, i: nat, j: nat, rank: Option<int>) returns (u: nat, v: nat)
    requires i < j < |rows| && Rank(rows[i]) == Rank(rows[j]) == rank
    ensures u < v < |OfRank(rows, rank)| && OfRank(rows, rank)[u] == rows[i] && OfRank(rows, rank)[v] == rows[j]
  {
    var init := rows[..|rows| - 1];
    if j < |rows| - 1 {
      u, v := OfRankAt(init, i, j, rank);
    } else {
      v := |OfRank(init, rank)|;
      u := OneOfRankAt(init, i, rank);
    }
  }

  lemma {:induction false} OneOfRankAt(rows: seq<Row>, i: nat, rank: Option<int>) returns (u: nat)
    requires i < |rows| && Rank(rows[i]) == rank
    ensures u < |OfRank(rows, rank)| && OfRank(rows, rank)[u] == rows[i]
  {
    var init := rows[..|rows| - 1];
    if i < |rows| - 1 {
      u := OneOfRankAt(init, i, rank);
    } else {
      u := |OfRank(init, rank)|;
    }
  }

  /** Two entries of a rank stand in that order in the whole. */
  lemma {:induction false} PlacesOfRank(rows: seq<Row>, u: nat, v: nat, rank: Option<int>) returns (x: nat, y: nat)
    requires u < v < |OfRank(rows, rank)|
    ensures x < y < |rows| && rows[x] == OfRank(rows, rank)[u] && rows[y] == OfRank(rows, rank)[v]
  {
    var init := rows[..|rows| - 1];
    if v < |OfRank(init, rank)| {
      x, y := PlacesOfRank(init, u, v, rank);
    } else {
      y := |rows| - 1;
      x := PlaceOfRank(init, u, rank);
    }
  }

  lemma {:induction false} PlaceOfRank(rows: seq<Row>, u: nat, rank: Option<int>) returns (x: nat)
    requires u < |OfRank(rows, rank)|
    ensures x < |rows| && rows[x] == OfRank(rows, rank)[u]
  {
    var init := rows[..|rows| - 1];
    if u < |OfRank(init, rank)| {
      x := PlaceOfRank(init, u, rank);
    } else {
      x := |rows| - 1;
    }
  }

  lemma {:induction false} RankPresent(rows: seq<Row>, i: nat)
    requires i < |rows|
    ensures OfRank(rows, Rank(rows[i])) != []
  {
    if i < |rows| - 1 {
      RankPresent(rows[..|rows| - 1], i);
    }
  }

  lemma {:induction false} RankWitness(rows: seq<Row>, rank: Option<int>) returns (i: nat)
    requires OfRank(rows, rank) != []
    ensures i < |rows| && Rank(rows[i]) == rank
  {
    if Rank(rows[|rows| - 1]) == rank {
      i := |rows| - 1;
    } else {
      i := RankWitness(rows[..|rows| - 1], rank);
    }
  }

  lemma LeastRank(t: seq<Row>, u: seq<Row>)
    requires Sorted(u, Worse) && t != [] && u != [] && OfRank(u, Rank(t[0])) != []
    ensures !Worse(t[0], u[0])
  {
    var i := RankWitness(u, Rank(t[0]));
    if i > 0 {
      assert !Worse(u[i], u[0]);
    }
  }

  lemma DropFirst(rows: seq<Row>, rank: Option<int>)
    requires rows != []
    ensures OfRank(rows, rank) == (if Rank(rows[0]) == rank then [rows[0]] else []) + OfRank(rows[1..], rank)
  {
    assert rows == [rows[0]] + rows[1..];
    OfRankConcat([rows[0]], rows[1..], rank);
    OneOfRank(rows[0], rank);
  }

  lemma FirstOfRank(rows: seq<Row>)
    requires rows != []
    ensures OfRank(rows, Rank(rows[0])) != [] && OfRank(rows, Rank(rows[0]))[0] == rows[0]
  {
    DropFirst(rows, Rank(rows[0]));
  }

  /** Move a[i] down past every row that it precedes. */
  method InsertInPlace(a: array<Row>, i: nat)
    requires i < a.Length
    modifies a
    ensures a[..i + 1] == Insert(old(a[..i]), old(a[i]), Worse)
    ensures a[i + 1..] == old(a[i + 1..])
  {
    ghost var s, later := a[..i], a[i + 1..];
    var x := a[i];
    var j := i;
    while j > 0 && Worse(x, a[j - 1])
      invariant 0 <= j <= i
      invariant forall k {:trigger a[k]} :: 0 <= k < j ==> a[k] == s[k]
      invariant forall k {:trigger a[k]} :: j < k <= i ==> a[k] == s[k - 1]
      invariant forall k {:trigger s[k]} :: j <= k < i ==> Worse(x, s[k])
      invariant a[i + 1..] == later
    {
      assert a[j - 1] == s[j - 1];
      a[j] := a[j - 1];
      j := j - 1;
    }
    a[j] := x;
    Inserted(s, x, j, a[..i + 1]);
  }

  /** What the moves leave: the rows before the place, the new row, and the later rows one further on. */
  lemma Inserted(s: seq<Row>, x: Row, j: nat, t: seq<Row>)
    requires j <= |s| && |t| == |s| + 1 && t[j] == x
    requires forall k {:trigger t[k]} :: 0 <= k < j ==> t[k] == s[k]
    requires forall k {:trigger t[k]} :: j < k < |t| ==> t[k] == s[k - 1]
    requires forall k {:trigger s[k]} :: j <= k < |s| ==> Worse(x, s[k])
    requires j > 0 ==> !Worse(x, s[j - 1])
    ensures t == Insert(s, x, Worse)
  {
    PlaceIs(s, x, j);
    assert t == s[..j] + [x] + s[j..];
  }

  lemma {:induction false} PlaceIs(s: seq<Row>, x: Row, j: nat)
    requires j <= |s| && forall k :: j <= k < |s| ==> Worse(x, s[k])
    requires j > 0 ==> !Worse(x, s[j - 1])
    ensures Place(s, x, Worse) == j
  {
    if j < |s| {
      PlaceIs(s[..|s| - 1], x, j);
    }
  }

  method SortTable(a: array<Row>)
    modifies a
    ensures StablySorted(a[..], old(a[..]))
  {
    ghost var was := a[..];
    for i := 0 to a.Length
      invariant a[..i] == Sort(was[..i], Worse)
      invariant a[i..] == was[i..]
    {
      assert a[i] == a[i..][0] == was[i];
      assert a[i + 1..] == a[i..][1..];
      assert was[..i + 1][..i] == was[..i];
      InsertInPlace(a, i);
    }
    assert was[..a.Length] == was && a[..a.Length] == a[..];
    SortIsStable(was);
  }
}
