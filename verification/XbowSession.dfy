/**
 One session of the multi-pass benchmark runner: the queue each pass builds, what the whole session
 attempts, and the runner itself with its in-memory and durable state.
 */
module XbowSession {
  import opened Wrappers
  import opened AttemptFolds
  import opened XbowSuite

  /** What the k-th attempt at a benchmark comes to within a session (Docker, agent and grading together). */
  type Oracle = (string, nat) -> Outcome

  /** The benchmarks left after --only, --level and --holdout, and the --attempts flag. */
  datatype Plan = Plan(benches: seq<Bench>, attempts: int)

  function Passes(plan: Plan): nat {
    if plan.attempts < 0 then 0 else plan.attempts
  }

  function Attempt(o: Oracle, plan: Plan, id: string, k: nat): Result {
    Result(id, o(id, k), k, plan.attempts)
  }

  predicate Solves(o: Oracle, id: string, k: nat) {
    o(id, k).Graded? && o(id, k).solved
  }

  // ----- what a session ought to attempt, without reference to its state -----

  /** The number of attempts an uncarried benchmark has had after that many passes. */
  function Made(o: Oracle, id: string, passes: nat): (m: nat)
    ensures m <= passes && (passes > 0 ==> m > 0)
  {
    if passes == 0 then 0
    else
      var m := Made(o, id, passes - 1);
      if m > 0 && Solves(o, id, m) then m else m + 1
  }

  /** That number is the first solving attempt, or all of the passes if there is none. */
  lemma {:induction false} MadeIsFirstSolve(o: Oracle, id: string, passes: nat)
    ensures forall j :: 1 <= j < Made(o, id, passes) ==> !Solves(o, id, j)
    ensures Made(o, id, passes) < passes ==> Solves(o, id, Made(o, id, passes))
  {
    if passes > 0 {
      MadeIsFirstSolve(o, id, passes - 1);
    }
  }

  lemma MadeStep(o: Oracle, id: string, p: nat)
    requires p > 0
    ensures Made(o, id, p) == if Made(o, id, p) == p then Made(o, id, p - 1) + 1 else Made(o, id, p - 1)
    ensures Made(o, id, p) == p ==> Made(o, id, p - 1) == p - 1
  {
    MadeIsFirstSolve(o, id, p - 1);
  }

  /** The first k attempts at one benchmark. */
  function Tries(o: Oracle, plan: Plan, id: string, k: nat): (ts: seq<Result>)
    ensures |ts| == k
  {
    if k == 0 then [] else Tries(o, plan, id, k - 1) + [Attempt(o, plan, id, k)]
  }

  lemma {:induction false} TriesMember(o: Oracle, plan: Plan, id: string, k: nat, r: Result)
    ensures r in Tries(o, plan, id, k) <==> exists j: nat :: 1 <= j <= k && r == Attempt(o, plan, id, j)
  {
    if k > 0 {
      TriesMember(o, plan, id, k - 1, r);
      assert r in Tries(o, plan, id, k) <==> r in Tries(o, plan, id, k - 1) || r == Attempt(o, plan, id, k);
    }
  }

  /** The benchmarks due on pass p: neither carried from a checkpoint nor solved by an earlier attempt. */
  function Due(o: Oracle, benches: seq<Bench>, done: set<string>, p: nat): seq<Bench> {
    if benches == [] then []
    else
      var b := benches[|benches| - 1];
      Due(o, benches[..|benches| - 1], done, p) + if b.id !in done && Made(o, b.id, p) == p then [b] else []
  }

  function Attempts(o: Oracle, plan: Plan, p: nat, bs: seq<Bench>): (rs: seq<Result>)
    ensures |rs| == |bs|
  {
    if bs == [] then []
    else Attempts(o, plan, p, bs[..|bs| - 1]) + [Attempt(o, plan, bs[|bs| - 1].id, p)]
  }

  /** Every attempt of a session through its first p passes, in the order they are made. */
  function SessionLog(o: Oracle, plan: Plan, done: set<string>, p: nat): seq<Result> {
    if p == 0 then []
    else SessionLog(o, plan, done, p - 1) + Attempts(o, plan, p, Due(o, plan.benches, done, p))
  }

  lemma {:induction false} DueMember(o: Oracle, benches: seq<Bench>, done: set<string>, p: nat, b: Bench)
    ensures b in Due(o, benches, done, p) <==> b in benches && b.id !in done && Made(o, b.id, p) == p
  {
    if benches != [] {
      assert benches == benches[..|benches| - 1] + [benches[|benches| - 1]];
      DueMember(o, benches[..|benches| - 1], done, p, b);
    }
  }

  lemma AttemptsSnoc(o: Oracle, plan: Plan, p: nat, bs: seq<Bench>, b: Bench, id: string)
    ensures Of(Attempts(o, plan, p, bs + [b]), id) ==
            Of(Attempts(o, plan, p, bs), id) + if b.id == id then [Attempt(o, plan, id, p)] else []
  {
    assert (bs + [b])[..|bs|] == bs;
    OfSnoc(Attempts(o, plan, p, bs), Attempt(o, plan, b.id, p), id);
  }

  /** The attempts of pass p at one benchmark. */
  function PassAt(o: Oracle, plan: Plan, benches: seq<Bench>, done: set<string>, p: nat, id: string): seq<Result> {
    Of(Attempts(o, plan, p, Due(o, benches, done, p)), id)
  }

  /** One attempt if the benchmark is due on pass p, and otherwise none. */
  function OnceIfDue(o: Oracle, plan: Plan, done: set<string>, p: nat, id: string): seq<Result> {
    if id !in done && Made(o, id, p) == p then [Attempt(o, plan, id, p)] else []
  }

  /** What the last of the benchmarks adds. */
  lemma OneMoreDue(o: Oracle, plan: Plan, benches: seq<Bench>, b: Bench, done: set<string>, p: nat, id: string)
    ensures b.id == id ==>
              PassAt(o, plan, benches + [b], done, p, id) ==
              PassAt(o, plan, benches, done, p, id) + OnceIfDue(o, plan, done, p, id)
    ensures b.id != id ==> PassAt(o, plan, benches + [b], done, p, id) == PassAt(o, plan, benches, done, p, id)
  {
    var due := Due(o, benches, done, p);
    assert (benches + [b])[..|benches|] == benches;
    assert PassAt(o, plan, benches, done, p, id) + [] == PassAt(o, plan, benches, done, p, id);
    if b.id !in done && Made(o, b.id, p) == p {
      AttemptsSnoc(o, plan, p, due, b, id);
    } else {
      assert Due(o, benches + [b], done, p) == due;
    }
  }

  lemma {:induction false} UnplannedNotAttempted(
    o: Oracle, plan: Plan, benches: seq<Bench>, done: set<string>, p: nat, id: string)
    requires forall k :: 0 <= k < |benches| ==> benches[k].id != id
    ensures PassAt(o, plan, benches, done, p, id) == []
  {
    if benches != [] {
      var init, b := benches[..|benches| - 1], benches[|benches| - 1];
      UnplannedNotAttempted(o, plan, init, done, p, id);
      assert benches == init + [b];
      OneMoreDue(o, plan, init, b, done, p, id);
    }
  }

  /** One pass over distinct benchmarks attempts a benchmark once if it is due, and otherwise not at all. */
  lemma {:induction false} DueAttempts(
    o: Oracle, plan: Plan, benches: seq<Bench>, done: set<string>, p: nat, k: nat)
    requires DistinctIds(benches) && k < |benches|
    ensures PassAt(o, plan, benches, done, p, benches[k].id) == OnceIfDue(o, plan, done, p, benches[k].id)
  {
    var init, b, id := benches[..|benches| - 1], benches[|benches| - 1], benches[k].id;
    assert benches == init + [b];
    OneMoreDue(o, plan, init, b, done, p, id);
    if k == |benches| - 1 {
      UnplannedNotAttempted(o, plan, init, done, p, id);
      assert [] + OnceIfDue(o, plan, done, p, id) == OnceIfDue(o, plan, done, p, id);
    } else {
      DueAttempts(o, plan, init, done, p, k);
    }
  }

  /** The attempts at one benchmark in the first p passes. */
  function TriedBy(o: Oracle, plan: Plan, done: set<string>, p: nat, id: string): seq<Result> {
    if id in done then [] else Tries(o, plan, id, Made(o, id, p))
  }

  lemma TriedOnceMore(o: Oracle, plan: Plan, done: set<string>, p: nat, id: string)
    requires p > 0
    ensures TriedBy(o, plan, done, p, id) == TriedBy(o, plan, done, p - 1, id) + OnceIfDue(o, plan, done, p, id)
  {
    MadeStep(o, id, p);
    var before := TriedBy(o, plan, done, p - 1, id);
    assert before + [] == before;
  }

  lemma LoggedOnceMore(o: Oracle, plan: Plan, done: set<string>, p: nat, id: string)
    requires p > 0
    ensures Of(SessionLog(o, plan, done, p), id) ==
            Of(SessionLog(o, plan, done, p - 1), id) + PassAt(o, plan, plan.benches, done, p, id)
  {
    OfConcat(SessionLog(o, plan, done, p - 1), Attempts(o, plan, p, Due(o, plan.benches, done, p)), id);
  }

  lemma {:induction false} LoggedIsTried(o: Oracle, plan: Plan, done: set<string>, p: nat, b: Bench)
    requires DistinctIds(plan.benches) && b in plan.benches
    ensures Of(SessionLog(o, plan, done, p), b.id) == TriedBy(o, plan, done, p, b.id)
  {
    if p == 0 {
      NothingAtFirst(o, plan, done, b.id);
    } else {
      LoggedIsTried(o, plan, done, p - 1, b);
      DueAttemptsOf(o, plan, done, p, b);
      OnceMore(o, plan, done, p, b.id);
    }
  }

  lemma OnceMore(o: Oracle, plan: Plan, done: set<string>, p: nat, id: string)
    requires p > 0 && Of(SessionLog(o, plan, done, p - 1), id) == TriedBy(o, plan, done, p - 1, id)
    requires PassAt(o, plan, plan.benches, done, p, id) == OnceIfDue(o, plan, done, p, id)
    ensures Of(SessionLog(o, plan, done, p), id) == TriedBy(o, plan, done, p, id)
  {
    LoggedOnceMore(o, plan, done, p, id);
    TriedOnceMore(o, plan, done, p, id);
  }

  /** A session attempts an uncarried benchmark exactly Made times, numbered from 1, and a carried one never. */
  lemma ExactAttempts(o: Oracle, plan: Plan, done: set<string>, p: nat, b: Bench)
    requires DistinctIds(plan.benches) && b in plan.benches
    ensures Of(SessionLog(o, plan, done, p), b.id) ==
            if b.id in done then [] else Tries(o, plan, b.id, Made(o, b.id, p))
  {
    LoggedIsTried(o, plan, done, p, b);
  }

  lemma NothingAtFirst(o: Oracle, plan: Plan, done: set<string>, id: string)
    ensures Of(SessionLog(o, plan, done, 0), id) == [] == Tries(o, plan, id, Made(o, id, 0))
  {
    assert SessionLog(o, plan, done, 0) == [];
  }

  lemma DueAttemptsOf(o: Oracle, plan: Plan, done: set<string>, p: nat, b: Bench)
    requires DistinctIds(plan.benches) && b in plan.benches
    ensures PassAt(o, plan, plan.benches, done, p, b.id) == OnceIfDue(o, plan, done, p, b.id)
  {
    var k :| 0 <= k < |plan.benches| && plan.benches[k] == b;
    DueAttempts(o, plan, plan.benches, done, p, k);
  }

  /**
   Within a session an errored attempt is retried like a miss: attempt j + 1 is made exactly when there is
   another pass.
   */
  lemma ErroredIsRetried(o: Oracle, plan: Plan, done: set<string>, b: Bench, j: nat)
    requires DistinctIds(plan.benches) && b in plan.benches && b.id !in done
    requires Attempt(o, plan, b.id, j) in SessionLog(o, plan, done, Passes(plan)) && o(b.id, j).Errored?
    ensures Attempt(o, plan, b.id, j + 1) in SessionLog(o, plan, done, Passes(plan)) <==> j < Passes(plan)
  {
    AttemptedUpTo(o, plan, done, b, j);
    AttemptedUpTo(o, plan, done, b, j + 1);
    MadeIsFirstSolve(o, b.id, Passes(plan));
  }

  lemma AttemptedUpTo(o: Oracle, plan: Plan, done: set<string>, b: Bench, j: nat)
    requires DistinctIds(plan.benches) && b in plan.benches && b.id !in done
    ensures Attempt(o, plan, b.id, j) in SessionLog(o, plan, done, Passes(plan)) <==>
            1 <= j <= Made(o, b.id, Passes(plan))
  {
    var log, r, made := SessionLog(o, plan, done, Passes(plan)), Attempt(o, plan, b.id, j), Made(o, b.id, Passes(plan));
    ExactAttempts(o, plan, done, Passes(plan), b);
    OfMember(log, b.id, r);
    TriesMember(o, plan, b.id, made, r);
    if 1 <= j <= made {
      assert r == Attempt(o, plan, b.id, j);
    }
  }

  /** Two passes over a benchmark whose first attempt errors: the second pass attempts it again. */
  lemma TwoPassesRetryAnError(b: Bench, reason: string) returns (o: Oracle, plan: Plan)
    ensures plan == Plan([b], 2) && o(b.id, 1) == Errored(reason)
    ensures Attempt(o, plan, b.id, 1) in SessionLog(o, plan, {}, 2)
    ensures Attempt(o, plan, b.id, 2) in SessionLog(o, plan, {}, 2)
  {
    o, plan := (id, k) => if k == 1 then Errored(reason) else Graded(false, 0, ""), Plan([b], 2);
    assert b in plan.benches;
    assert Made(o, b.id, 1) >= 1;
    AttemptedUpTo(o, plan, {}, b, 1);
    ErroredIsRetried(o, plan, {}, b, 1);
  }

  lemma {:induction false} AttemptsMember(o: Oracle, plan: Plan, p: nat, bs: seq<Bench>, r: Result)
    ensures r in Attempts(o, plan, p, bs) <==> exists b :: b in bs && r == Attempt(o, plan, b.id, p)
  {
    if bs != [] {
      var init, b := bs[..|bs| - 1], bs[|bs| - 1];
      assert bs == init + [b];
      AttemptsMember(o, plan, p, init, r);
    }
  }

  /** Where one attempt comes before another: on an earlier pass, or on the same pass and earlier in the suite. */
  ghost predicate Earlier(benches: seq<Bench>, x: Result, y: Result) {
    || x.pass < y.pass
    || (x.pass == y.pass &&
        exists i, j :: 0 <= i < j < |benches| && benches[i].id == x.id && benches[j].id == y.id)
  }

  lemma {:induction false} DueInOrder(o: Oracle, benches: seq<Bench>, done: set<string>, p: nat, m: nat, n: nat)
    requires m < n < |Due(o, benches, done, p)|
    ensures exists i, j :: 0 <= i < j < |benches|
                           && benches[i] == Due(o, benches, done, p)[m] && benches[j] == Due(o, benches, done, p)[n]
  {
    var init, b := benches[..|benches| - 1], benches[|benches| - 1];
    var before := Due(o, init, done, p);
    if n < |before| {
      DueInOrder(o, init, done, p, m, n);
      var i, j :| 0 <= i < j < |init| && init[i] == before[m] && init[j] == before[n];
      assert benches[i] == before[m] && benches[j] == before[n];
    } else {
      DueMember(o, init, done, p, before[m]);
      var i :| 0 <= i < |init| && init[i] == before[m];
      assert benches[i] == before[m] && benches[|benches| - 1] == Due(o, benches, done, p)[n];
    }
  }

  lemma {:induction false} AttemptAt(o: Oracle, plan: Plan, p: nat, bs: seq<Bench>, k: nat)
    requires k < |bs|
    ensures Attempts(o, plan, p, bs)[k] == Attempt(o, plan, bs[k].id, p)
  {
    if k < |bs| - 1 {
      AttemptAt(o, plan, p, bs[..|bs| - 1], k);
    }
  }

  /** The attempts of one pass. */
  function PassLog(o: Oracle, plan: Plan, done: set<string>, p: nat): seq<Result> {
    Attempts(o, plan, p, Due(o, plan.benches, done, p))
  }

  ghost predicate InOrder(benches: seq<Bench>, log: seq<Result>) {
    forall m, n :: 0 <= m < n < |log| ==> Earlier(benches, log[m], log[n])
  }

  lemma {:induction false} JoinInOrder(benches: seq<Bench>, a: seq<Result>, b: seq<Result>)
    requires InOrder(benches, a) && InOrder(benches, b)
    requires forall x, y :: x in a && y in b ==> x.pass < y.pass
    ensures InOrder(benches, a + b)
  {
    forall m, n | 0 <= m < n < |a + b| ensures Earlier(benches, (a + b)[m], (a + b)[n]) {
      if m < |a| <= n {
        assert a[m] in a && b[n - |a|] in b;
      }
    }
  }

  /** A session makes its attempts pass by pass, and within a pass in suite order. */
  lemma {:induction false} LogInOrder(o: Oracle, plan: Plan, done: set<string>, p: nat)
    ensures InOrder(plan.benches, SessionLog(o, plan, done, p))
  {
    if p > 0 {
      LogInOrder(o, plan, done, p - 1);
      PassInOrder(o, plan, done, p);
      forall x, y | x in SessionLog(o, plan, done, p - 1) && y in PassLog(o, plan, done, p) ensures x.pass < y.pass {
        PassesInOrder(o, plan, done, p, x, y);
      }
      JoinInOrder(plan.benches, SessionLog(o, plan, done, p - 1), PassLog(o, plan, done, p));
    }
  }

  lemma {:induction false} PassesInOrder(o: Oracle, plan: Plan, done: set<string>, p: nat, x: Result, y: Result)
    requires p > 0 && x in SessionLog(o, plan, done, p - 1) && y in PassLog(o, plan, done, p)
    ensures x.pass < y.pass
  {
    LogMember(o, plan, done, p - 1, x);
    AttemptsMember(o, plan, p, Due(o, plan.benches, done, p), y);
  }

  lemma {:induction false} PassInOrder(o: Oracle, plan: Plan, done: set<string>, p: nat)
    ensures InOrder(plan.benches, PassLog(o, plan, done, p))
  {
    var due, log := Due(o, plan.benches, done, p), PassLog(o, plan, done, p);
    forall m, n | 0 <= m < n < |log| ensures Earlier(plan.benches, log[m], log[n]) {
      AttemptAt(o, plan, p, due, m);
      AttemptAt(o, plan, p, due, n);
      DueInOrder(o, plan.benches, done, p, m, n);
    }
  }

  lemma {:induction false} TryAt(o: Oracle, plan: Plan, id: string, k: nat, i: nat)
    requires i < k
    ensures Tries(o, plan, id, k)[i] == Attempt(o, plan, id, i + 1)
  {
    if i < k - 1 {
      TryAt(o, plan, id, k - 1, i);
    }
  }

  /** Whatever a session attempts is planned and not carried, and bears its pass number. */
  lemma {:induction false} LogMember(o: Oracle, plan: Plan, done: set<string>, p: nat, r: Result)
    requires r in SessionLog(o, plan, done, p)
    ensures exists b :: b in plan.benches && b.id == r.id
    ensures r.id !in done && 1 <= r.pass <= p && r == Attempt(o, plan, r.id, r.pass)
    ensures Made(o, r.id, r.pass) == r.pass
  {
    if r in SessionLog(o, plan, done, p - 1) {
      LogMember(o, plan, done, p - 1, r);
    } else {
      var due := Due(o, plan.benches, done, p);
      AttemptsMember(o, plan, p, due, r);
      var b :| b in due && r == Attempt(o, plan, b.id, p);
      DueMember(o, plan.benches, done, p, b);
    }
  }

  // ----- the session as the code keeps it -----

  datatype Session = Session(
    carried: seq<Result>, added: seq<Result>, done: set<string>, solved: set<string>, pass: nat, queue: seq<Bench>)
  {
    function Results(): seq<Result> {
      carried + added
    }
  }

  predicate Queued(b: Bench, done: set<string>, solved: set<string>, results: seq<Result>, pass: nat) {
    && b.id !in solved && b.id !in done
    && (pass > 1 ==> b.id in Ids(results))
  }

  function PassQueue(benches: seq<Bench>, done: set<string>, solved: set<string>, results: seq<Result>, pass: nat)
    : seq<Bench>
  {
    if benches == [] then []
    else
      var b := benches[|benches| - 1];
      PassQueue(benches[..|benches| - 1], done, solved, results, pass)
      + if Queued(b, done, solved, results, pass) then [b] else []
  }

  function Begun(carried: seq<Result>): Session {
    Session(carried, [], Ids(carried), SolvedIds(carried), 0, [])
  }

  function NextPass(plan: Plan, s: Session): Session {
    s.(pass := s.pass + 1, queue := PassQueue(plan.benches, s.done, s.solved, s.Results(), s.pass + 1))
  }

  function Recorded(s: Session, r: Result): Session
    requires s.queue != []
  {
    s.(added := s.added + [r], solved := if r.Solved() then s.solved + {r.id} else s.solved, queue := s.queue[1..])
  }

  ghost predicate Marked(s: Session) {
    s.done == Ids(s.carried) && s.solved == SolvedIds(s.Results())
  }

  /** The session state is exactly the closed form cut off at the current queue position. */
  ghost predicate Sound(o: Oracle, plan: Plan, s: Session) {
    && Marked(s)
    && s.pass <= Passes(plan)
    && if s.pass == 0 then s.queue == [] && s.added == [] else OnQueue(o, plan, s.done, s.pass, s.queue, s.added)
  }

  /** What is queued is the rest of what is due, and what is added is every earlier pass and the part before it. */
  ghost predicate OnQueue(
    o: Oracle, plan: Plan, done: set<string>, pass: nat, queue: seq<Bench>, added: seq<Result>)
    requires pass > 0
  {
    var due := Due(o, plan.benches, done, pass);
    && |queue| <= |due|
    && queue == due[|due| - |queue|..]
    && added == SessionLog(o, plan, done, pass - 1) + Attempts(o, plan, pass, due[..|due| - |queue|])
  }

  lemma BegunIsSound(o: Oracle, plan: Plan, carried: seq<Result>)
    ensures Sound(o, plan, Begun(carried))
  {
    assert carried + [] == carried;
  }

  lemma RecordedIsSound(o: Oracle, plan: Plan, s: Session)
    requires Sound(o, plan, s) && s.queue != []
    ensures Sound(o, plan, Recorded(s, Attempt(o, plan, s.queue[0].id, s.pass)))
  {
    var r := Attempt(o, plan, s.queue[0].id, s.pass);
    RecordedOnQueue(o, plan, s.done, s.pass, s.queue, s.added);
    RecordedIsMarked(s, r);
  }

  lemma RecordedIsMarked(s: Session, r: Result)
    requires Marked(s) && s.queue != []
    ensures Marked(Recorded(s, r))
  {
    RecordedResults(s, r);
    SolvedIdsSnoc(s.Results(), r);
  }

  lemma RecordedResults(s: Session, r: Result)
    requires s.queue != []
    ensures Recorded(s, r).Results() == s.Results() + [r]
  {
    assert s.carried + (s.added + [r]) == (s.carried + s.added) + [r];
  }

  lemma RecordedOnQueue(
    o: Oracle, plan: Plan, done: set<string>, pass: nat, queue: seq<Bench>, added: seq<Result>)
    requires pass > 0 && queue != [] && OnQueue(o, plan, done, pass, queue, added)
    ensures OnQueue(o, plan, done, pass, queue[1..], added + [Attempt(o, plan, queue[0].id, pass)])
  {
    var due := Due(o, plan.benches, done, pass);
    var k := |due| - |queue|;
    assert due[k] == queue[0] && due[k + 1..] == queue[1..];
    AttemptsAt(o, plan, pass, due, k);
  }

  lemma AttemptsAt(o: Oracle, plan: Plan, p: nat, bs: seq<Bench>, k: nat)
    requires k < |bs|
    ensures Attempts(o, plan, p, bs[..k + 1]) == Attempts(o, plan, p, bs[..k]) + [Attempt(o, plan, bs[k].id, p)]
  {
    assert bs[..k + 1][..k] == bs[..k];
  }

  lemma PassDone(o: Oracle, plan: Plan, s: Session)
    requires Sound(o, plan, s) && s.queue == []
    ensures s.added == SessionLog(o, plan, s.done, s.pass)
  {
    if s.pass > 0 {
      var due := Due(o, plan.benches, s.done, s.pass);
      assert due[..|due|] == due;
    }
  }

  lemma SolvedAmongTries(o: Oracle, plan: Plan, rs: seq<Result>, id: string, m: nat)
    requires Of(rs, id) == Tries(o, plan, id, m)
    requires forall j :: 1 <= j < m ==> !Solves(o, id, j)
    ensures id in SolvedIds(rs) <==> m > 0 && Solves(o, id, m)
    ensures m > 0 ==> id in Ids(rs)
  {
    SolvedIdsMember(rs, id);
    if m > 0 {
      var r := Attempt(o, plan, id, m);
      TriesMember(o, plan, id, m, r);
      OfMember(rs, id, r);
      IdsMember(rs, id);
    }
    if id in SolvedIds(rs) {
      var r :| r in rs && r.Solved() && r.id == id;
      OfMember(rs, id, r);
      TriesMember(o, plan, id, m, r);
      var j: nat :| 1 <= j <= m && r == Attempt(o, plan, id, j);
      assert Solves(o, id, j);
    }
  }

  lemma {:induction false} SolvedIdsConcat(a: seq<Result>, b: seq<Result>)
    ensures SolvedIds(a + b) == SolvedIds(a) + SolvedIds(b)
    ensures Ids(a + b) == Ids(a) + Ids(b)
  {
    if b == [] {
      assert a + b == a;
    } else {
      assert (a + b)[..|a + b| - 1] == a + b[..|b| - 1];
      SolvedIdsConcat(a, b[..|b| - 1]);
    }
  }

  /** A benchmark that is not carried is marked solved exactly when its last attempt so far solved it. */
  lemma SolvedSoFar(o: Oracle, plan: Plan, s: Session, b: Bench)
    requires DistinctIds(plan.benches) && b in plan.benches && b.id !in s.done
    requires Sound(o, plan, s) && s.queue == []
    ensures b.id in s.solved <==> Made(o, b.id, s.pass + 1) != s.pass + 1
    ensures s.pass > 0 ==> b.id in Ids(s.Results())
  {
    PassDone(o, plan, s);
    ExactAttempts(o, plan, s.done, s.pass, b);
    MadeIsFirstSolve(o, b.id, s.pass);
    SolvedAmongTries(o, plan, s.added, b.id, Made(o, b.id, s.pass));
    SolvedIdsConcat(s.carried, s.added);
    SolvedIdsMember(s.carried, b.id);
  }

  /** The queue a pass builds from results, done and solved is what the closed form says is due. */
  lemma {:induction false} QueueIsDue(o: Oracle, plan: Plan, s: Session, benches: seq<Bench>)
    requires DistinctIds(plan.benches) && forall b :: b in benches ==> b in plan.benches
    requires Sound(o, plan, s) && s.queue == []
    ensures PassQueue(benches, s.done, s.solved, s.Results(), s.pass + 1) == Due(o, benches, s.done, s.pass + 1)
  {
    if benches != [] {
      var init, b := benches[..|benches| - 1], benches[|benches| - 1];
      QueueIsDue(o, plan, s, init);
      if b.id !in s.done {
        SolvedSoFar(o, plan, s, b);
      }
    }
  }

  lemma NextPassIsSound(o: Oracle, plan: Plan, s: Session)
    requires DistinctIds(plan.benches)
    requires Sound(o, plan, s) && s.queue == [] && s.pass < Passes(plan)
    ensures Sound(o, plan, NextPass(plan, s))
  {
    QueueIsDue(o, plan, s, plan.benches);
    PassDone(o, plan, s);
    WholeQueue(o, plan, s.done, s.pass);
    assert Marked(NextPass(plan, s)) by {
      assert NextPass(plan, s).Results() == s.Results();
    }
  }

  /** At the start of a pass everything due is queued. */
  lemma WholeQueue(o: Oracle, plan: Plan, done: set<string>, p: nat)
    ensures OnQueue(o, plan, done, p + 1, Due(o, plan.benches, done, p + 1), SessionLog(o, plan, done, p))
  {
    var due, log := Due(o, plan.benches, done, p + 1), SessionLog(o, plan, done, p);
    assert due[0..] == due && due[..0] == [];
    assert log + [] == log;
  }

  // ----- the runner -----

  /** The checkpoint file: absent, cut short by a crash, or holding a results list. */
  datatype Disk = Missing | Torn | Saved(results: seq<Result>)

  /** What becomes of one rewrite of the checkpoint: a failure is reported and the run goes on. */
  datatype Fate = Intact | Lost | CutShort

  function Written(disk: Disk, rs: seq<Result>, fate: Fate): Disk {
    match fate
    case Intact => Saved(rs)
    case Lost => disk
    case CutShort => Torn
  }

  /** Whether an attempt's ledger line is appended, and what becomes of the checkpoint after it. */
  datatype Write = Write(appended: bool, fate: Fate)

  type Writes = Result -> Write

  /** The attempts whose ledger line is written. */
  function Appended(rs: seq<Result>, writes: Writes): seq<Result> {
    if rs == [] then []
    else
      var r := rs[|rs| - 1];
      Appended(rs[..|rs| - 1], writes) + if writes(r).appended then [r] else []
  }

  /** The checkpoint after the attempts `added` to `carried`. */
  function DiskAfter(disk: Disk, carried: seq<Result>, added: seq<Result>, writes: Writes): Disk {
    if added == [] then disk
    else
      var before := DiskAfter(disk, carried, added[..|added| - 1], writes);
      Written(before, carried + added, writes(added[|added| - 1]).fate)
  }

  lemma WritesSnoc(disk: Disk, carried: seq<Result>, added: seq<Result>, r: Result, writes: Writes)
    ensures DiskAfter(disk, carried, added + [r], writes) ==
            Written(DiskAfter(disk, carried, added, writes), carried + (added + [r]), writes(r).fate)
  {
    assert (added + [r])[..|added|] == added;
  }

  lemma LedgerSnoc(base: seq<Result>, added: seq<Result>, r: Result, writes: Writes)
    ensures base + Appended(added + [r], writes) ==
            if writes(r).appended then (base + Appended(added, writes)) + [r] else base + Appended(added, writes)
  {
    assert (added + [r])[..|added|] == added;
    assert Appended(added, writes) + [] == Appended(added, writes);
  }

  /** When every write succeeds, the ledger has every attempt and the checkpoint every result. */
  lemma {:induction false} DurableWrites(disk: Disk, carried: seq<Result>, added: seq<Result>, writes: Writes)
    requires forall r :: r in added ==> writes(r) == Write(true, Intact)
    ensures Appended(added, writes) == added
    ensures DiskAfter(disk, carried, added, writes) == if added == [] then disk else Saved(carried + added)
  {
    if added != [] {
      var init, r := added[..|added| - 1], added[|added| - 1];
      assert added == init + [r];
      DurableWrites(disk, carried, init, writes);
    }
  }

  /** The ledger keeps the order of the attempts, whichever of its lines are lost. */
  lemma {:induction false} AppendedInPieces(a: seq<Result>, b: seq<Result>, writes: Writes)
    ensures Appended(a + b, writes) == Appended(a, writes) + Appended(b, writes)
  {
    if b == [] {
      assert a + b == a;
    } else {
      assert (a + b)[..|a + b| - 1] == a + b[..|b| - 1];
      AppendedInPieces(a, b[..|b| - 1], writes);
    }
  }

  /** The last rewrite that was not lost decides what the checkpoint holds: all results up to it, or a torn file. */
  lemma {:induction false} LastWriteStands(disk: Disk, carried: seq<Result>, added: seq<Result>, writes: Writes, n: nat)
    requires n <= |added| && forall k :: n <= k < |added| ==> writes(added[k]).fate == Lost
    requires n > 0 ==> writes(added[n - 1]).fate != Lost
    ensures DiskAfter(disk, carried, added, writes) ==
            if n == 0 then disk
            else if writes(added[n - 1]).fate == Intact then Saved(carried + added[..n]) else Torn
  {
    if n < |added| {
      LastWriteStands(disk, carried, added[..|added| - 1], writes, n);
      assert added[..|added| - 1][..n] == added[..n];
    } else if n > 0 {
      assert added[..n] == added;
    }
  }

  /** Missing and unreadable checkpoints both mean starting fresh. */
  function Loaded(disk: Disk): seq<Result> {
    if disk.Saved? then disk.results else []
  }

  /** An errored result is dropped so that the benchmark is run again. */
  function Carryable(rs: seq<Result>): seq<Result> {
    if rs == [] then []
    else
      var r := rs[|rs| - 1];
      Carryable(rs[..|rs| - 1]) + if r.Errored() then [] else [r]
  }

  lemma {:induction false} CarryableMember(rs: seq<Result>, r: Result)
    ensures r in Carryable(rs) <==> r in rs && !r.Errored()
  {
    if rs != [] {
      assert rs == rs[..|rs| - 1] + [rs[|rs| - 1]];
      CarryableMember(rs[..|rs| - 1], r);
    }
  }

  /** A checkpoint is carried in file order: loading it in two parts gives the two loads in turn. */
  lemma {:induction false} CarryableInPieces(a: seq<Result>, b: seq<Result>)
    ensures Carryable(a + b) == Carryable(a) + Carryable(b)
  {
    if b == [] {
      assert a + b == a;
    } else {
      assert (a + b)[..|a + b| - 1] == a + b[..|b| - 1];
      CarryableInPieces(a, b[..|b| - 1]);
    }
  }

  /** A checkpoint without errored results is carried unchanged. */
  lemma {:induction false} ErrorFreeIsCarried(rs: seq<Result>)
    requires forall r :: r in rs ==> !r.outcome.Errored?
    ensures Carryable(rs) == rs
  {
    if rs != [] {
      var init, last := rs[..|rs| - 1], rs[|rs| - 1];
      assert rs == init + [last];
      assert last in rs;
      ErrorFreeIsCarried(init);
    }
  }

  /**
   The checkpointed result that a resumed run reports for its benchmark: the last solved one, or, if none is
   solved, the last one that is not errored.
   */
  ghost predicate Reported(rs: seq<Result>, k: nat) {
    && k < |rs| && rs[k].outcome.Graded?
    && (forall j :: k < j < |rs| && rs[j].id == rs[k].id ==> !rs[j].Solved())
    && (rs[k].Solved() || forall j :: 0 <= j < |rs| && j != k && rs[j].id == rs[k].id ==>
                            !rs[j].Solved() && (j < k || rs[j].outcome.Errored?))
  }

  lemma {:induction false} CarriedReport(rs: seq<Result>, k: nat)
    requires Reported(rs, k)
    ensures Winner(Carryable(rs), rs[k].id) == Some(rs[k])
  {
    var init, last, id := rs[..|rs| - 1], rs[|rs| - 1], rs[k].id;
    if k < |rs| - 1 {
      StillReported(rs, k);
      CarriedReport(init, k);
      assert init[k] == rs[k];
    } else {
      NothingBetter(rs);
      NoneSolvedBefore(init, last);
    }
    if !last.Errored() {
      WinnerSnoc(Carryable(init), last, id);
    } else {
      assert Carryable(init) + [] == Carryable(init);
    }
  }

  lemma StillReported(rs: seq<Result>, k: nat)
    requires Reported(rs, k) && k < |rs| - 1
    ensures Reported(rs[..|rs| - 1], k)
    ensures var last := rs[|rs| - 1];
            last.id == rs[k].id ==> !last.Solved() && (rs[k].Solved() || last.outcome.Errored?)
  {
    var init := rs[..|rs| - 1];
    assert forall j :: 0 <= j < |init| ==> init[j] == rs[j];
  }

  lemma NothingBetter(rs: seq<Result>)
    requires rs != [] && Reported(rs, |rs| - 1)
    ensures var (init, last) := (rs[..|rs| - 1], rs[|rs| - 1]);
            last.Solved() || forall j :: 0 <= j < |init| && init[j].id == last.id ==> !init[j].Solved()
  {
  }

  /** A solved attempt, or a miss of a benchmark not solved before, wins over what came before. */
  lemma NoneSolvedBefore(init: seq<Result>, last: Result)
    requires last.Solved() || forall j :: 0 <= j < |init| && init[j].id == last.id ==> !init[j].Solved()
    ensures Prefer(Winner(Carryable(init), last.id), Some(last)) == Some(last)
  {
    var w := Winner(Carryable(init), last.id);
    if w.Some? {
      CarryableMember(init, w.value);
      var j :| 0 <= j < |init| && init[j] == w.value;
    }
  }

  /** With --resume, whatever passes follow, that result is the one in the report. */
  lemma {:induction false} ResumedReport(o: Oracle, plan: Plan, rs: seq<Result>, k: nat)
    requires DistinctIds(plan.benches) && Reported(rs, k)
    ensures var carried := Carryable(rs);
            Winner(carried + SessionLog(o, plan, Ids(carried), Passes(plan)), rs[k].id) == Some(rs[k])
  {
    CarriedReport(rs, k);
    CarriedWinner(o, plan, Carryable(rs), rs[k].id);
  }

  /** What a runner holds in memory and on disk. */
  datatype Memory = Memory(
    results: seq<Result>, done: set<string>, solved: set<string>, ledger: seq<Result>, checkpoint: Disk)

  /** The memory of a session in this state, over the ledger and checkpoint that the session found. */
  function MemoryOf(s: Session, base: seq<Result>, disk: Disk, writes: Writes): Memory {
    Memory(s.Results(), s.done, s.solved, base + Appended(s.added, writes), DiskAfter(disk, s.carried, s.added, writes))
  }

  function Noted(m: Memory, r: Result, write: Write): Memory {
    var results := m.results + [r];
    Memory(results, m.done, if r.Solved() then m.solved + {r.id} else m.solved,
           if write.appended then m.ledger + [r] else m.ledger, Written(m.checkpoint, results, write.fate))
  }

  lemma BegunMemory(carried: seq<Result>, base: seq<Result>, disk: Disk, writes: Writes)
    ensures MemoryOf(Begun(carried), base, disk, writes) ==
            Memory(carried, Ids(carried), SolvedIds(carried), base, disk)
  {
    assert carried + [] == carried && base + [] == base;
  }

  lemma NotedIsRecorded(s: Session, r: Result, base: seq<Result>, disk: Disk, writes: Writes)
    requires s.queue != []
    ensures MemoryOf(Recorded(s, r), base, disk, writes) == Noted(MemoryOf(s, base, disk, writes), r, writes(r))
  {
    RecordedResults(s, r);
    LedgerSnoc(base, s.added, r, writes);
    WritesSnoc(disk, s.carried, s.added, r, writes);
  }

  /** What a session reports depends on the checkpoint only if it resumes from a readable one. */
  lemma {:induction false} StartOrContinue(o: Oracle, plan: Plan, resume: bool, disk: Disk)
    requires DistinctIds(plan.benches)
    ensures var carried := if resume then Carryable(Loaded(disk)) else [];
            var final := Dedupe(carried + SessionLog(o, plan, Ids(carried), Passes(plan)));
            && (!resume || !disk.Saved? ==> final == Dedupe(SessionLog(o, plan, {}, Passes(plan))))
            && (resume && disk.Saved? ==> forall k: nat :: Reported(disk.results, k) ==> disk.results[k] in final)
  {
    var carried := if resume then Carryable(Loaded(disk)) else [];
    var results := carried + SessionLog(o, plan, Ids(carried), Passes(plan));
    if resume && disk.Saved? {
      forall k: nat | Reported(disk.results, k) ensures disk.results[k] in Dedupe(results) {
        ResumedReport(o, plan, disk.results, k);
        DedupeMember(results, disk.results[k]);
      }
    } else {
      assert carried == [] && Ids(carried) == {};
      assert results == SessionLog(o, plan, {}, Passes(plan));
    }
  }

  class Runner {
    var results: seq<Result>
    var done: set<string>
    var solved: set<string>
    var ledger: seq<Result>
    var checkpoint: Disk

    constructor (ledger: seq<Result>, checkpoint: Disk)
      ensures this.ledger == ledger && this.checkpoint == checkpoint
    {
      this.ledger, this.checkpoint := ledger, checkpoint;
      results, done, solved := [], {}, {};
    }

    ghost function State(): Memory
      reads this
    {
      Memory(results, done, solved, ledger, checkpoint)
    }

    ghost predicate Mirrors(s: Session, base: seq<Result>, disk: Disk, writes: Writes)
      reads this
    {
      State() == MemoryOf(s, base, disk, writes)
    }

    method Resume(resume: bool)
      modifies this`results, this`done, this`solved
      ensures results == if resume then Carryable(Loaded(checkpoint)) else []
      ensures done == Ids(results) && solved == SolvedIds(results)
    {
      results, done := [], {};
      if resume {
        LoadCheckpoint();
      }
      MarkSolved();
    }

    method MarkSolved()
      modifies this`solved
      ensures solved == SolvedIds(results)
    {
      solved := {};
      for i := 0 to |results|
        invariant solved == SolvedIds(results[..i])
      {
        assert results[..i + 1][..i] == results[..i];
        if results[i].Solved() {
          solved := solved + {results[i].id};
        }
      }
      assert results[..|results|] == results;
    }

    method LoadCheckpoint()
      requires results == [] && done == {}
      modifies this`results, this`done
      ensures results == Carryable(Loaded(checkpoint)) && done == Ids(results)
    {
      var loaded := Loaded(checkpoint);
      for i := 0 to |loaded|
        invariant results == Carryable(loaded[..i])
        invariant done == Ids(results)
      {
        var r := loaded[i];
        assert loaded[..i + 1][..i] == loaded[..i];
        if r.Errored() {
          continue;
        }
        IdsSnoc(results, r);
        results := results + [r];
        done := done + {r.id};
      }
      assert loaded[..|loaded|] == loaded;
    }

    method BuildQueue(benches: seq<Bench>, pass: nat) returns (queue: seq<Bench>)
      ensures queue == PassQueue(benches, done, solved, results, pass)
    {
      queue := [];
      for i := 0 to |benches|
        invariant queue == PassQueue(benches[..i], done, solved, results, pass)
      {
        var b := benches[i];
        assert benches[..i + 1][..i] == benches[..i];
        if b.id in solved || b.id in done {
          continue;
        }
        if pass > 1 {
          var attemptedBefore := false;
          for j := 0 to |results|
            invariant attemptedBefore <==> b.id in Ids(results[..j])
          {
            assert results[..j + 1] == results[..j] + [results[j]];
            IdsSnoc(results[..j], results[j]);
            if results[j].id == b.id {
              attemptedBefore := true;
            }
          }
          assert results[..|results|] == results;
          if !attemptedBefore {
            continue;
          }
          // The source's "re-eligible on this retry pass" branch would go here; it can never be taken.
          assert b.id !in done;
        }
        queue := queue + [b];
      }
      assert benches[..|benches|] == benches;
    }

    /** Record one attempt: memory first, then the ledger line, then the checkpoint; either write may fail. */
    method Record(r: Result, write: Write)
      modifies this
      ensures State() == Noted(old(State()), r, write)
    {
      if r.Solved() {
        solved := solved + {r.id};
      }
      results := results + [r];
      if write.appended {
        ledger := ledger + [r];
      }
      checkpoint := Written(checkpoint, results, write.fate);
    }

    /** One pass: build its queue, then attempt and record everything on it. */
    method RunPass(
      plan: Plan, pass: nat, o: Oracle, writes: Writes, ghost s: Session, ghost base: seq<Result>, ghost disk: Disk)
      returns (ghost s': Session)
      requires Mirrors(s, base, disk, writes) && pass == s.pass + 1 && Sound(o, plan, NextPass(plan, s))
      modifies this
      ensures Mirrors(s', base, disk, writes)
      ensures Sound(o, plan, s') && s'.queue == [] && s'.pass == pass && s'.carried == s.carried
    {
      var queue := BuildQueue(plan.benches, pass);
      s' := NextPass(plan, s);
      while queue != []
        invariant Sound(o, plan, s') && s'.queue == queue && s'.pass == pass && s'.carried == s.carried
        invariant Mirrors(s', base, disk, writes)
        decreases |queue|
      {
        var r := Result(queue[0].id, o(queue[0].id, pass), pass, plan.attempts);
        RecordedIsSound(o, plan, s');
        NotedIsRecorded(s', r, base, disk, writes);
        Record(r, writes(r));
        s' := Recorded(s', r);
        queue := queue[1..];
      }
    }

    /** The pass loop. */
    method RunPasses(
      plan: Plan, o: Oracle, writes: Writes, ghost carried: seq<Result>, ghost base: seq<Result>, ghost disk: Disk)
      requires DistinctIds(plan.benches) && Mirrors(Begun(carried), base, disk, writes)
      modifies this
      ensures var log := SessionLog(o, plan, Ids(carried), Passes(plan));
              && results == carried + log
              && ledger == base + Appended(log, writes)
              && checkpoint == DiskAfter(disk, carried, log, writes)
    {
      ghost var s := Begun(carried);
      BegunIsSound(o, plan, carried);
      var pass := 0;
      while pass < plan.attempts
        invariant pass <= Passes(plan)
        invariant Sound(o, plan, s) && s.queue == [] && s.pass == pass && s.carried == carried
        invariant Mirrors(s, base, disk, writes)
      {
        pass := pass + 1;
        NextPassIsSound(o, plan, s);
        s := RunPass(plan, pass, o, writes, s, base, disk);
      }
      assert pass == Passes(plan);
      PassDone(o, plan, s);
    }

    /** One whole uninterrupted session: no failed write changes what it attempts or reports. */
    method Run(plan: Plan, resume: bool, o: Oracle, writes: Writes, last: Fate) returns (final: seq<Result>)
      requires DistinctIds(plan.benches)
      modifies this
      ensures var carried := if resume then Carryable(Loaded(old(checkpoint))) else [];
              var log := SessionLog(o, plan, Ids(carried), Passes(plan));
              && final == Dedupe(carried + log)
              && ledger == old(ledger) + Appended(log, writes)
              && checkpoint == Written(DiskAfter(old(checkpoint), carried, log, writes), final, last)
      ensures !resume || !old(checkpoint).Saved? ==> final == Dedupe(SessionLog(o, plan, {}, Passes(plan)))
      ensures resume && old(checkpoint).Saved? ==>
                forall k: nat :: Reported(old(checkpoint).results, k) ==> old(checkpoint).results[k] in final
    {
      StartOrContinue(o, plan, resume, checkpoint);
      Resume(resume);
      BegunMemory(results, ledger, checkpoint, writes);
      RunPasses(plan, o, writes, results, ledger, checkpoint);
      results := DedupeResults(results);
      final := results;
      checkpoint := Written(checkpoint, results, last);
    }
  }

  /** What a session leaves for one planned benchmark. */
  lemma {:induction false} TriesWinner(o: Oracle, plan: Plan, id: string, k: nat)
    requires k > 0 && forall j :: 1 <= j < k ==> !Solves(o, id, j)
    ensures Winner(Tries(o, plan, id, k), id) == Some(Attempt(o, plan, id, k))
  {
    var ts := Tries(o, plan, id, k);
    assert ts[..k - 1] == Tries(o, plan, id, k - 1);
    if k > 1 {
      TriesWinner(o, plan, id, k - 1);
      assert !Solves(o, id, k - 1);
    } else {
      assert ts[..k - 1] == [];
    }
  }

  lemma {:induction false} WinnerOfOwn(rs: seq<Result>, id: string)
    ensures Winner(rs, id) == Winner(Of(rs, id), id)
  {
    if rs != [] {
      var init, r := rs[..|rs| - 1], rs[|rs| - 1];
      WinnerOfOwn(init, id);
      if r.id == id {
        WinnerSnoc(Of(init, id), r, id);
      } else {
        assert Of(rs, id) == Of(init, id);
      }
    }
  }

  /** The scoreboard's entry for an uncarried benchmark is its first solving attempt, or else its last one. */
  lemma FreshWinner(o: Oracle, plan: Plan, carried: seq<Result>, b: Bench)
    requires DistinctIds(plan.benches) && b in plan.benches && plan.attempts > 0 && b.id !in Ids(carried)
    ensures Winner(carried + SessionLog(o, plan, Ids(carried), Passes(plan)), b.id) ==
            Some(Attempt(o, plan, b.id, Made(o, b.id, plan.attempts)))
  {
    var log := SessionLog(o, plan, Ids(carried), Passes(plan));
    ExactAttempts(o, plan, Ids(carried), Passes(plan), b);
    MadeIsFirstSolve(o, b.id, plan.attempts);
    TriesWinner(o, plan, b.id, Made(o, b.id, plan.attempts));
    WinnerOfOwn(log, b.id);
    WinnerConcat(carried, log, b.id);
  }

  /** A carried benchmark keeps what the checkpoint said, on every pass. */
  lemma {:induction false} CarriedWinner(o: Oracle, plan: Plan, carried: seq<Result>, id: string)
    requires DistinctIds(plan.benches) && id in Ids(carried)
    ensures Winner(carried + SessionLog(o, plan, Ids(carried), Passes(plan)), id) == Winner(carried, id)
  {
    var log := SessionLog(o, plan, Ids(carried), Passes(plan));
    IdsMember(log, id);
    if id in Ids(log) {
      var r :| r in log && r.id == id;
      LogMember(o, plan, Ids(carried), Passes(plan), r);
    }
    WinnerConcat(carried, log, id);
  }

  /** No pass of any run ever attempts a reserved benchmark. */
  lemma HoldoutNeverAttempted(
    o: Oracle, suite: seq<Bench>, only: string, level: int, holdout: int, plan: Plan, done: set<string>, r: Result)
    requires plan.benches == Planned(suite, only, level, holdout)
    requires r in SessionLog(o, plan, done, Passes(plan))
    ensures r.id !in Reserved(suite, level, holdout)
  {
    LogMember(o, plan, done, Passes(plan), r);
    var b :| b in plan.benches && b.id == r.id;
    HoldoutIsSafe(suite, only, level, holdout, b);
  }
}
