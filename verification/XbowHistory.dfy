/**
 The benchmark runner across sessions: every attempt, ledger append and checkpoint write is a separate step,
 a crash may fall between any two of them, and a write may be lost or cut short.
 */
module XbowHistory {
  import opened Wrappers
  import opened AttemptFolds
  import opened XbowSuite
  import opened XbowSession

  /** Where a session stands between two steps. */
  datatype Stage = Ready | Attempted(r: Result) | Ledgered

  /** `mark` is the length the ledger had when the session started. */
  datatype Process = Down | Up(s: Session, stage: Stage, mark: nat) | Finished(s: Session)

  datatype World = World(ledger: seq<Result>, disk: Disk, proc: Process)

  datatype Event =
    | Start(resume: bool)
    | Advance
    | Run(outcome: Outcome)
    | Append(kept: bool)
    | Checkpoint(fate: Fate)
    | Finish(fate: Fate)
    | Crash

  /** An event that cannot happen in a world leaves it alone. */
  function Apply(plan: Plan, w: World, e: Event): World {
    match (e, w.proc)
    case (Crash, _) => w.(proc := Down)
    case (Start(_), Up(_, _, _)) => w
    case (Start(resume), _) =>
      w.(proc := Up(Begun(if resume then Carryable(Loaded(w.disk)) else []), Ready, |w.ledger|))
    case (Advance, Up(s, Ready, mark)) =>
      if s.queue == [] && s.pass < Passes(plan) then w.(proc := Up(NextPass(plan, s), Ready, mark)) else w
    case (Run(outcome), Up(s, Ready, mark)) =>
      if s.queue == [] then w
      else
        var r := Result(s.queue[0].id, outcome, s.pass, plan.attempts);
        w.(proc := Up(Recorded(s, r), Attempted(r), mark))
    case (Append(kept), Up(s, Attempted(r), mark)) =>
      w.(ledger := if kept then w.ledger + [r] else w.ledger, proc := Up(s, Ledgered, mark))
    case (Checkpoint(fate), Up(s, Ledgered, mark)) =>
      w.(disk := Written(w.disk, s.Results(), fate), proc := Up(s, Ready, mark))
    case (Finish(fate), Up(s, Ready, _)) =>
      if s.queue == [] && s.pass == Passes(plan)
      then w.(disk := Written(w.disk, Dedupe(s.Results()), fate), proc := Finished(s)) else w
    case _ => w
  }

  function After(plan: Plan, w: World, es: seq<Event>): World
    decreases |es|
  {
    if es == [] then w else After(plan, Apply(plan, w, es[0]), es[1..])
  }

  // ----- a checkpointed solve stays -----

  ghost predicate HasSolve(rs: seq<Result>, id: string) {
    exists r :: r in rs && r.id == id && r.outcome.Graded? && r.outcome.solved
  }

  lemma {:induction false} HasSolveIs(rs: seq<Result>, id: string)
    ensures HasSolve(rs, id) <==> id in SolvedIds(rs)
  {
    SolvedIdsMember(rs, id);
  }

  /** A solve, in the checkpoint and in every session since. */
  ghost predicate SolveHeld(w: World, id: string) {
    w.disk.Saved? && HasSolve(w.disk.results, id) && (w.proc.Up? ==> HasSolve(w.proc.s.Results(), id))
  }

  lemma {:induction false} DedupeKeepsSolve(rs: seq<Result>, id: string)
    ensures HasSolve(Dedupe(rs), id) <==> HasSolve(rs, id)
  {
    HasSolveIs(Dedupe(rs), id);
    SolvedSides(rs);
    if id in Ids(rs) {
      var k := FirstWinnerIsFirstSolvedOrFirst(rs, id);
    } else if HasSolve(rs, id) {
      HasSolveIs(rs, id);
      SolvedIdsMember(rs, id);
    }
  }

  lemma {:induction false} CarryableKeepsSolve(rs: seq<Result>, id: string)
    requires HasSolve(rs, id)
    ensures HasSolve(Carryable(rs), id)
  {
    var r :| r in rs && r.id == id && r.outcome.Graded? && r.outcome.solved;
    CarryableMember(rs, r);
  }

  /** No start from scratch, and no rewrite cut short. */
  predicate Keeping(e: Event) {
    e != Start(false) && e != Checkpoint(CutShort) && e != Finish(CutShort)
  }

  lemma {:induction false} StepKeepsSolve(plan: Plan, w: World, e: Event, id: string)
    requires SolveHeld(w, id) && Keeping(e)
    ensures SolveHeld(Apply(plan, w, e), id)
  {
    CarryableKeepsSolve(w.disk.results, id);
    if w.proc.Up? {
      var rs := w.proc.s.Results();
      DedupeKeepsSolve(rs, id);
      var r :| r in rs && r.id == id && r.outcome.Graded? && r.outcome.solved;
      if e.Run? && w.proc.s.queue != [] {
        assert r in Recorded(w.proc.s, Result(w.proc.s.queue[0].id, e.outcome, w.proc.s.pass, plan.attempts)).Results();
      }
    } else if e.Start? {
      assert Carryable(w.disk.results) + [] == Carryable(w.disk.results);
    }
  }

  /**
   A solve the checkpoint records is never lost over any history of resuming sessions, wherever they crash and
   whatever rewrites fail, as long as none is cut short.
   */
  lemma {:induction false} SolveStays(plan: Plan, w: World, es: seq<Event>, id: string)
    requires SolveHeld(w, id)
    requires forall i :: 0 <= i < |es| ==> Keeping(es[i])
    ensures SolveHeld(After(plan, w, es), id)
    decreases |es|
  {
    if es != [] {
      StepKeepsSolve(plan, w, es[0], id);
      SolveStays(plan, Apply(plan, w, es[0]), es[1..], id);
    }
  }

  // ----- the ledger is ahead of the checkpoint -----

  /** Every result in memory, except one whose ledger line is still to be written. */
  function Logged(s: Session, stage: Stage): seq<Result> {
    if stage.Attempted? && s.added != [] then s.added[..|s.added| - 1] else s.added
  }

  /** Every checkpointed result has its ledger line, counted with multiplicity. */
  ghost predicate DiskLedgered(disk: Disk, ledger: seq<Result>) {
    disk.Saved? ==> multiset(disk.results) <= multiset(ledger)
  }

  ghost predicate LedgerAhead(w: World) {
    && DiskLedgered(w.disk, w.ledger)
    && (w.proc.Up? ==>
          var s, stage, mark := w.proc.s, w.proc.stage, w.proc.mark;
          && (stage.Attempted? ==> s.added != [] && s.added[|s.added| - 1] == stage.r)
          && mark <= |w.ledger| && w.ledger[mark..] == Logged(s, stage)
          && multiset(s.carried + Logged(s, stage)) <= multiset(w.ledger))
  }

  lemma {:induction false} CarryableSelects(rs: seq<Result>)
    ensures multiset(Carryable(rs)) <= multiset(rs)
  {
    if rs != [] {
      assert rs == rs[..|rs| - 1] + [rs[|rs| - 1]];
      CarryableSelects(rs[..|rs| - 1]);
    }
  }

  lemma StartKeepsLedgerAhead(plan: Plan, w: World, resume: bool)
    requires LedgerAhead(w) && !w.proc.Up?
    ensures LedgerAhead(Apply(plan, w, Start(resume)))
  {
    var carried := if resume then Carryable(Loaded(w.disk)) else [];
    CarryableSelects(Loaded(w.disk));
    assert carried + [] == carried;
    assert w.ledger[|w.ledger|..] == [];
  }

  lemma RunKeepsLedgerAhead(plan: Plan, w: World, outcome: Outcome)
    requires LedgerAhead(w) && w.proc.Up? && w.proc.stage == Ready && w.proc.s.queue != []
    ensures LedgerAhead(Apply(plan, w, Run(outcome)))
  {
    var s := w.proc.s;
    var r := Result(s.queue[0].id, outcome, s.pass, plan.attempts);
    assert (s.added + [r])[..|s.added|] == s.added;
  }

  lemma SelectionGrows(rs: seq<Result>, ledger: seq<Result>, r: Result)
    requires multiset(rs) <= multiset(ledger)
    ensures multiset(rs + [r]) <= multiset(ledger + [r])
  {
    assert multiset(rs + [r]) == multiset(rs) + multiset{r};
  }

  lemma LedgerGrows(disk: Disk, ledger: seq<Result>, r: Result)
    requires DiskLedgered(disk, ledger)
    ensures DiskLedgered(disk, ledger + [r])
  {
    assert multiset(ledger) <= multiset(ledger + [r]);
  }

  lemma {:induction false} AppendKeepsLedgerAhead(plan: Plan, w: World)
    requires LedgerAhead(w) && w.proc.Up? && w.proc.stage.Attempted?
    ensures LedgerAhead(Apply(plan, w, Append(true)))
  {
    var s, r, mark := w.proc.s, w.proc.stage.r, w.proc.mark;
    var logged := s.added[..|s.added| - 1];
    assert s.added == logged + [r];
    assert s.carried + s.added == (s.carried + logged) + [r];
    assert (w.ledger + [r])[mark..] == w.ledger[mark..] + [r];
    LedgerGrows(w.disk, w.ledger, r);
    SelectionGrows(s.carried + logged, w.ledger, r);
  }

  lemma AdvanceKeepsLedgerAhead(plan: Plan, w: World)
    requires LedgerAhead(w)
    ensures LedgerAhead(Apply(plan, w, Advance))
  {
  }

  lemma CheckpointKeepsLedgerAhead(plan: Plan, w: World, fate: Fate)
    requires LedgerAhead(w)
    ensures LedgerAhead(Apply(plan, w, Checkpoint(fate)))
  {
  }

  lemma DedupedIsLedgered(rs: seq<Result>, disk: Disk, ledger: seq<Result>, fate: Fate)
    requires multiset(rs) <= multiset(ledger) && DiskLedgered(disk, ledger)
    ensures DiskLedgered(Written(disk, Dedupe(rs), fate), ledger)
  {
    DedupeSelects(rs);
    assert multiset(Dedupe(rs)) <= multiset(rs) <= multiset(ledger);
  }

  lemma FinishKeepsLedgerAhead(plan: Plan, w: World, fate: Fate)
    requires LedgerAhead(w)
    ensures LedgerAhead(Apply(plan, w, Finish(fate)))
  {
    if w.proc.Up? && w.proc.stage == Ready {
      DedupedIsLedgered(w.proc.s.Results(), w.disk, w.ledger, fate);
    }
  }

  lemma StepKeepsLedgerAhead(plan: Plan, w: World, e: Event)
    requires LedgerAhead(w) && e != Append(false)
    ensures LedgerAhead(Apply(plan, w, e))
  {
    match e
    case Start(resume) =>
      if !w.proc.Up? {
        StartKeepsLedgerAhead(plan, w, resume);
      }
    case Advance => AdvanceKeepsLedgerAhead(plan, w);
    case Run(outcome) =>
      if w.proc.Up? && w.proc.stage == Ready && w.proc.s.queue != [] {
        RunKeepsLedgerAhead(plan, w, outcome);
      }
    case Append(_) =>
      if w.proc.Up? && w.proc.stage.Attempted? {
        AppendKeepsLedgerAhead(plan, w);
      }
    case Checkpoint(fate) => CheckpointKeepsLedgerAhead(plan, w, fate);
    case Finish(fate) => FinishKeepsLedgerAhead(plan, w, fate);
    case Crash =>
  }

  const FRESH := World([], Missing, Down)

  /**
   When ledger appends succeed, every world reachable through any crashes, resumes and lost or cut checkpoint
   writes has every checkpointed result in its ledger, counted with multiplicity.
   */
  lemma {:induction false} LedgerIsAhead(plan: Plan, w: World, es: seq<Event>)
    requires LedgerAhead(w) && forall i :: 0 <= i < |es| ==> es[i] != Append(false)
    ensures LedgerAhead(After(plan, w, es))
    decreases |es|
  {
    if es != [] {
      StepKeepsLedgerAhead(plan, w, es[0]);
      LedgerIsAhead(plan, Apply(plan, w, es[0]), es[1..]);
    }
  }

  /** How many of the session's attempts its latest checkpoint holds. */
  function Checkpointed(p: Process): nat
    requires p.Up?
  {
    if p.stage == Ready || p.s.added == [] then |p.s.added| else |p.s.added| - 1
  }

  ghost predicate InStep(w: World) {
    w.proc.Up? ==>
      var s, n := w.proc.s, Checkpointed(w.proc);
      && (w.proc.stage != Ready ==> s.added != [])
      && |w.ledger| - w.proc.mark == |Logged(s, w.proc.stage)|
      && (n > 0 ==> w.disk == Saved(s.carried + s.added[..n]))
  }

  /** With durable writes, the ledger leads the checkpoint by at most one attempt throughout a session. */
  lemma {:induction false} LedgerLeadsByOne(plan: Plan, w: World, es: seq<Event>)
    requires InStep(w)
    requires forall i :: 0 <= i < |es| ==> es[i] != Append(false) && (es[i].Checkpoint? ==> es[i].fate == Intact)
    ensures InStep(After(plan, w, es))
    ensures var w' := After(plan, w, es);
            w'.proc.Up? ==> Checkpointed(w'.proc) <= |w'.ledger| - w'.proc.mark <= Checkpointed(w'.proc) + 1
    decreases |es|
  {
    if es != [] {
      StepKeepsInStep(plan, w, es[0]);
      LedgerLeadsByOne(plan, Apply(plan, w, es[0]), es[1..]);
    }
  }

  lemma StepKeepsInStep(plan: Plan, w: World, e: Event)
    requires InStep(w) && e != Append(false) && (e.Checkpoint? ==> e.fate == Intact)
    ensures InStep(Apply(plan, w, e))
  {
    match (e, w.proc)
    case (Run(outcome), Up(s, Ready, _)) =>
      if s.queue != [] {
        RunKeepsInStep(plan, w, outcome);
      }
    case (Checkpoint(_), Up(s, Ledgered, _)) =>
      assert s.added[..|s.added|] == s.added;
    case _ =>
  }

  lemma RunKeepsInStep(plan: Plan, w: World, outcome: Outcome)
    requires InStep(w) && w.proc.Up? && w.proc.stage == Ready && w.proc.s.queue != []
    ensures InStep(Apply(plan, w, Run(outcome)))
  {
    var s := w.proc.s;
    var r := Result(s.queue[0].id, outcome, s.pass, plan.attempts);
    assert (s.added + [r])[..|s.added|] == s.added == s.added[..|s.added|];
  }

  // ----- resuming -----

  /** Attempts that a run of the plan could really have made. */
  ghost predicate Genuine(o: Oracle, plan: Plan, rs: seq<Result>) {
    forall r {:trigger CouldBeMade(o, plan, r)} :: r in rs ==> CouldBeMade(o, plan, r)
  }

  ghost predicate CouldBeMade(o: Oracle, plan: Plan, r: Result) {
    && (exists b :: b in plan.benches && b.id == r.id)
    && 1 <= r.pass <= Made(o, r.id, Passes(plan)) && r == Attempt(o, plan, r.id, r.pass)
  }

  ghost predicate NoErrors(rs: seq<Result>) {
    forall r :: r in rs ==> !r.Errored()
  }

  ghost predicate GenuineDisk(o: Oracle, plan: Plan, disk: Disk) {
    disk.Saved? ==> Genuine(o, plan, disk.results)
  }

  ghost predicate Carries(o: Oracle, plan: Plan, s: Session) {
    Sound(o, plan, s) && Genuine(o, plan, s.carried) && NoErrors(s.carried)
  }

  ghost predicate HonestProcess(o: Oracle, plan: Plan, proc: Process) {
    match proc
    case Down => true
    case Up(s, _, _) => Carries(o, plan, s)
    case Finished(s) => Carries(o, plan, s) && s.queue == [] && s.pass == Passes(plan)
  }

  ghost predicate Honest(o: Oracle, plan: Plan, w: World) {
    GenuineDisk(o, plan, w.disk) && HonestProcess(o, plan, w.proc)
  }

  /** The attempts of the history come out as the oracle says, the same in every session. */
  predicate Allowed(o: Oracle, w: World, e: Event) {
    e.Run? && w.proc.Up? && w.proc.s.queue != [] ==> e.outcome == o(w.proc.s.queue[0].id, w.proc.s.pass)
  }

  predicate Follows(o: Oracle, plan: Plan, w: World, es: seq<Event>)
    decreases |es|
  {
    es == [] || (Allowed(o, w, es[0]) && Follows(o, plan, Apply(plan, w, es[0]), es[1..]))
  }

  lemma {:induction false} MadeMonotone(o: Oracle, id: string, p: nat, q: nat)
    requires p <= q
    ensures Made(o, id, p) <= Made(o, id, q)
  {
    if p < q {
      MadeMonotone(o, id, p, q - 1);
    }
  }

  lemma AddedIsGenuine(o: Oracle, plan: Plan, s: Session, r: Result)
    requires Sound(o, plan, s) && r in s.added
    ensures CouldBeMade(o, plan, r)
  {
    assert s.pass > 0 && OnQueue(o, plan, s.done, s.pass, s.queue, s.added);
    var due := Due(o, plan.benches, s.done, s.pass);
    if r in SessionLog(o, plan, s.done, s.pass - 1) {
      LogMember(o, plan, s.done, s.pass - 1, r);
    } else {
      AttemptedNow(o, plan, s.done, s.pass, |due| - |s.queue|, r);
    }
    MadeMonotone(o, r.id, r.pass, Passes(plan));
  }

  lemma AttemptedNow(o: Oracle, plan: Plan, done: set<string>, pass: nat, n: nat, r: Result)
    requires n <= |Due(o, plan.benches, done, pass)|
    requires r in Attempts(o, plan, pass, Due(o, plan.benches, done, pass)[..n])
    ensures exists b :: b in plan.benches && b.id == r.id
    ensures r == Attempt(o, plan, r.id, pass) && Made(o, r.id, pass) == pass
  {
    var due := Due(o, plan.benches, done, pass);
    AttemptsMember(o, plan, pass, due[..n], r);
    var b :| b in due[..n] && r == Attempt(o, plan, b.id, pass);
    DueMember(o, plan.benches, done, pass, b);
  }

  lemma ResultsAreGenuine(o: Oracle, plan: Plan, s: Session)
    requires Carries(o, plan, s)
    ensures Genuine(o, plan, s.Results()) && Genuine(o, plan, Dedupe(s.Results()))
  {
    forall r | r in s.Results() ensures CouldBeMade(o, plan, r) {
      if r in s.added {
        AddedIsGenuine(o, plan, s, r);
      }
    }
    forall r | r in Dedupe(s.Results()) ensures CouldBeMade(o, plan, r) {
      DedupeMember(s.Results(), r);
    }
  }

  lemma BegunCarries(o: Oracle, plan: Plan, disk: Disk, resume: bool)
    requires GenuineDisk(o, plan, disk)
    ensures Carries(o, plan, Begun(if resume then Carryable(Loaded(disk)) else []))
  {
    var carried := if resume then Carryable(Loaded(disk)) else [];
    BegunIsSound(o, plan, carried);
    forall r | r in carried ensures CouldBeMade(o, plan, r) && !r.Errored() {
      CarryableMember(Loaded(disk), r);
    }
  }

  lemma {:induction false} RecordedCarries(o: Oracle, plan: Plan, s: Session)
    requires Carries(o, plan, s) && s.queue != []
    ensures Carries(o, plan, Recorded(s, Attempt(o, plan, s.queue[0].id, s.pass)))
  {
    RecordedIsSound(o, plan, s);
  }

  lemma StartStaysHonest(o: Oracle, plan: Plan, w: World, resume: bool)
    requires Honest(o, plan, w)
    ensures Honest(o, plan, Apply(plan, w, Start(resume)))
  {
    BegunCarries(o, plan, w.disk, resume);
  }

  lemma RunStaysHonest(o: Oracle, plan: Plan, w: World, outcome: Outcome)
    requires Honest(o, plan, w) && Allowed(o, w, Run(outcome))
    ensures Honest(o, plan, Apply(plan, w, Run(outcome)))
  {
    if w.proc.Up? && w.proc.stage == Ready && w.proc.s.queue != [] {
      var s := w.proc.s;
      var r := Attempt(o, plan, s.queue[0].id, s.pass);
      RecordedCarries(o, plan, s);
      assert Apply(plan, w, Run(outcome)) == w.(proc := Up(Recorded(s, r), Attempted(r), w.proc.mark));
    }
  }

  lemma WrittenIsGenuine(o: Oracle, plan: Plan, disk: Disk, rs: seq<Result>, fate: Fate)
    requires GenuineDisk(o, plan, disk) && Genuine(o, plan, rs)
    ensures GenuineDisk(o, plan, Written(disk, rs, fate))
  {
  }

  lemma CheckpointStaysHonest(o: Oracle, plan: Plan, w: World, fate: Fate)
    requires Honest(o, plan, w)
    ensures Honest(o, plan, Apply(plan, w, Checkpoint(fate)))
  {
    if w.proc.Up? && w.proc.stage == Ledgered {
      var rs := w.proc.s.Results();
      ResultsAreGenuine(o, plan, w.proc.s);
      WrittenIsGenuine(o, plan, w.disk, rs, fate);
    }
  }

  lemma FinishStaysHonest(o: Oracle, plan: Plan, w: World, fate: Fate)
    requires Honest(o, plan, w)
    ensures Honest(o, plan, Apply(plan, w, Finish(fate)))
  {
    if w.proc.Up? && w.proc.stage == Ready && w.proc.s.queue == [] && w.proc.s.pass == Passes(plan) {
      var s := w.proc.s;
      ResultsAreGenuine(o, plan, s);
      WrittenIsGenuine(o, plan, w.disk, Dedupe(s.Results()), fate);
      var disk := Written(w.disk, Dedupe(s.Results()), fate);
      assert Apply(plan, w, Finish(fate)) == World(w.ledger, disk, Finished(s));
      FinishedIsHonest(o, plan, World(w.ledger, disk, Finished(s)));
    }
  }

  lemma FinishedIsHonest(o: Oracle, plan: Plan, w: World)
    requires w.proc.Finished? && GenuineDisk(o, plan, w.disk)
    requires Carries(o, plan, w.proc.s) && w.proc.s.queue == [] && w.proc.s.pass == Passes(plan)
    ensures Honest(o, plan, w)
  {
  }

  lemma {:induction false} HistoryStaysHonest(o: Oracle, plan: Plan, w: World, es: seq<Event>)
    requires DistinctIds(plan.benches)
    requires Honest(o, plan, w) && Follows(o, plan, w, es)
    ensures Honest(o, plan, After(plan, w, es))
    decreases |es|
  {
    if es != [] {
      match es[0] {
        case Start(resume) => StartStaysHonest(o, plan, w, resume);
        case Advance =>
          if w.proc.Up? && w.proc.s.queue == [] && w.proc.s.pass < Passes(plan) {
            NextPassIsSound(o, plan, w.proc.s);
          }
        case Run(outcome) => RunStaysHonest(o, plan, w, outcome);
        case Append(_) =>
        case Checkpoint(fate) => CheckpointStaysHonest(o, plan, w, fate);
        case Finish(fate) => FinishStaysHonest(o, plan, w, fate);
        case Crash =>
      }
      HistoryStaysHonest(o, plan, Apply(plan, w, es[0]), es[1..]);
    }
  }

  /** What an uninterrupted run, starting with no checkpoint, reports for a benchmark. */
  function CleanWinner(o: Oracle, plan: Plan, id: string): Option<Result> {
    Winner(SessionLog(o, plan, {}, Passes(plan)), id)
  }

  /** Every history that ends in a completed session reports what an uninterrupted run reports. */
  ghost predicate Transparent(o: Oracle, plan: Plan) {
    forall es :: Follows(o, plan, FRESH, es) && After(plan, FRESH, es).proc.Finished? ==>
      forall id :: Winner(Dedupe(After(plan, FRESH, es).proc.s.Results()), id) == CleanWinner(o, plan, id)
  }

  /** Every attempt but a benchmark's last one is an infrastructure error. */
  ghost predicate OnlyErrorsRetried(o: Oracle, plan: Plan) {
    forall b, j :: b in plan.benches && 1 <= j < Made(o, b.id, Passes(plan)) ==> o(b.id, j).Errored?
  }

  lemma CleanWinnerIs(o: Oracle, plan: Plan, b: Bench)
    requires DistinctIds(plan.benches) && b in plan.benches && plan.attempts > 0
    ensures CleanWinner(o, plan, b.id) == Some(Attempt(o, plan, b.id, Made(o, b.id, plan.attempts)))
  {
    assert Ids([]) == {};
    assert [] + SessionLog(o, plan, {}, Passes(plan)) == SessionLog(o, plan, {}, Passes(plan));
    FreshWinner(o, plan, [], b);
  }

  lemma {:induction false} FinishedWinner(o: Oracle, plan: Plan, carried: seq<Result>, added: seq<Result>, b: Bench)
    requires DistinctIds(plan.benches) && b in plan.benches && plan.attempts > 0
    requires added == SessionLog(o, plan, Ids(carried), Passes(plan))
    ensures b.id !in Ids(carried) ==> Winner(carried + added, b.id) == CleanWinner(o, plan, b.id)
    ensures b.id in Ids(carried) ==> Winner(carried + added, b.id) == Winner(carried, b.id)
  {
    if b.id in Ids(carried) {
      CarriedWinner(o, plan, carried, b.id);
    } else {
      FreshWinner(o, plan, carried, b);
      CleanWinnerIs(o, plan, b);
    }
  }

  lemma UnplannedHaveNoWinner(o: Oracle, plan: Plan, s: Session, id: string)
    requires Carries(o, plan, s) && forall b :: b in plan.benches ==> b.id != id
    ensures Winner(s.Results(), id) == None && CleanWinner(o, plan, id) == None
  {
    ResultsAreGenuine(o, plan, s);
    IdsMember(s.Results(), id);
    forall r | r in s.Results() ensures r.id != id {
      assert CouldBeMade(o, plan, r);
    }
    var clean := SessionLog(o, plan, {}, Passes(plan));
    IdsMember(clean, id);
    forall r | r in clean ensures r.id != id {
      LogMember(o, plan, {}, Passes(plan), r);
    }
  }

  lemma CompletedAgreesWithClean(o: Oracle, plan: Plan, s: Session, id: string)
    requires DistinctIds(plan.benches) && plan.attempts > 0 && OnlyErrorsRetried(o, plan)
    requires Carries(o, plan, s) && s.queue == [] && s.pass == Passes(plan)
    ensures Winner(Dedupe(s.Results()), id) == CleanWinner(o, plan, id)
  {
    WinnerOfDedupe(s.Results(), id);
    if b :| b in plan.benches && b.id == id {
      PassDone(o, plan, s);
      FinishedWinner(o, plan, s.carried, s.added, b);
      if id in s.done {
        CleanWinnerIs(o, plan, b);
        CarriedIsLast(o, plan, s, b, Winner(s.carried, id).value);
      }
    } else {
      UnplannedHaveNoWinner(o, plan, s, id);
    }
  }

  lemma CarriedIsLast(o: Oracle, plan: Plan, s: Session, b: Bench, r: Result)
    requires OnlyErrorsRetried(o, plan) && b in plan.benches
    requires Carries(o, plan, s) && r in s.carried && r.id == b.id
    ensures r == Attempt(o, plan, b.id, Made(o, b.id, Passes(plan)))
  {
    assert !r.Errored() && CouldBeMade(o, plan, r);
  }

  // ----- driving a session forward -----

  ghost predicate Driving(o: Oracle, plan: Plan, w: World) {
    && w.proc.Up? && w.proc.stage == Ready && Sound(o, plan, w.proc.s)
    && (w.proc.s.added != [] ==> w.disk == Saved(w.proc.s.Results()))
  }

  /** Some history allowed by the oracle leads from one world to the other. */
  ghost predicate Reaches(o: Oracle, plan: Plan, w: World, w': World) {
    exists es :: Follows(o, plan, w, es) && After(plan, w, es) == w'
  }

  lemma StepReaches(o: Oracle, plan: Plan, w: World, e: Event)
    requires Allowed(o, w, e)
    ensures Reaches(o, plan, w, Apply(plan, w, e))
  {
    var es := [e];
    assert es[1..] == [];
    var w' := Apply(plan, w, e);
    assert Follows(o, plan, w', []) && After(plan, w', []) == w';
    assert Follows(o, plan, w, es) && After(plan, w, es) == Apply(plan, w, e);
  }

  lemma ReachesItself(o: Oracle, plan: Plan, w: World)
    ensures Reaches(o, plan, w, w)
  {
    assert Follows(o, plan, w, []) && After(plan, w, []) == w;
  }

  lemma ReachesTransitive(o: Oracle, plan: Plan, w: World, w': World, w'': World)
    requires Reaches(o, plan, w, w') && Reaches(o, plan, w', w'')
    ensures Reaches(o, plan, w, w'')
  {
    var a :| Follows(o, plan, w, a) && After(plan, w, a) == w';
    var b :| Follows(o, plan, w', b) && After(plan, w', b) == w'';
    FollowsConcat(o, plan, w, a, b);
  }

  lemma OneStepFurther(o: Oracle, plan: Plan, w: World, w': World, e: Event)
    requires Reaches(o, plan, w, w') && Allowed(o, w', e)
    ensures Reaches(o, plan, w, Apply(plan, w', e))
  {
    StepReaches(o, plan, w', e);
    ReachesTransitive(o, plan, w, w', Apply(plan, w', e));
  }

  lemma {:induction false} FollowsConcat(o: Oracle, plan: Plan, w: World, a: seq<Event>, b: seq<Event>)
    ensures After(plan, w, a + b) == After(plan, After(plan, w, a), b)
    ensures Follows(o, plan, w, a + b) <==> Follows(o, plan, w, a) && Follows(o, plan, After(plan, w, a), b)
    decreases |a|
  {
    if a == [] {
      assert a + b == b;
    } else {
      assert (a + b)[1..] == a[1..] + b;
      FollowsConcat(o, plan, Apply(plan, w, a[0]), a[1..], b);
    }
  }

  /** The three steps of one attempt: run it, append it to the ledger, rewrite the checkpoint. */
  function Recording(plan: Plan, w: World, outcome: Outcome): World {
    Apply(plan, Apply(plan, Apply(plan, w, Run(outcome)), Append(true)), Checkpoint(Intact))
  }

  lemma RecordingReaches(o: Oracle, plan: Plan, w: World, outcome: Outcome)
    requires Allowed(o, w, Run(outcome))
    ensures Reaches(o, plan, w, Recording(plan, w, outcome))
  {
    var w1 := Apply(plan, w, Run(outcome));
    var w2 := Apply(plan, w1, Append(true));
    var w3 := Apply(plan, w2, Checkpoint(Intact));
    StepReaches(o, plan, w, Run(outcome));
    StepReaches(o, plan, w1, Append(true));
    StepReaches(o, plan, w2, Checkpoint(Intact));
    ReachesTransitive(o, plan, w, w1, w2);
    ReachesTransitive(o, plan, w, w2, w3);
  }

  lemma RecordingIs(plan: Plan, w: World, outcome: Outcome)
    requires w.proc.Up? && w.proc.stage == Ready && w.proc.s.queue != []
    ensures var s := w.proc.s;
            var s' := Recorded(s, Result(s.queue[0].id, outcome, s.pass, plan.attempts));
            var w' := Recording(plan, w, outcome);
            w'.proc == Up(s', Ready, w.proc.mark) && w'.disk == Saved(s'.Results())
  {
  }

  lemma AttemptOne(o: Oracle, plan: Plan, w: World) returns (w': World)
    requires Driving(o, plan, w) && w.proc.s.queue != []
    ensures Reaches(o, plan, w, w') && Driving(o, plan, w')
    ensures w'.proc.s == Recorded(w.proc.s, Attempt(o, plan, w.proc.s.queue[0].id, w.proc.s.pass))
  {
    var s := w.proc.s;
    var outcome := o(s.queue[0].id, s.pass);
    RecordedIsSound(o, plan, s);
    RecordingReaches(o, plan, w, outcome);
    RecordingIs(plan, w, outcome);
    w' := Recording(plan, w, outcome);
  }

  lemma AdvanceOne(o: Oracle, plan: Plan, w: World) returns (w': World)
    requires DistinctIds(plan.benches)
    requires Driving(o, plan, w) && w.proc.s.queue == [] && w.proc.s.pass < Passes(plan)
    ensures Reaches(o, plan, w, w') && Driving(o, plan, w') && w'.proc.s == NextPass(plan, w.proc.s)
  {
    NextPassIsSound(o, plan, w.proc.s);
    StepReaches(o, plan, w, Advance);
    w' := Apply(plan, w, Advance);
  }

  /** Any session can be driven, without a crash, to the end of any later pass. */
  lemma {:induction false} DriveTo(o: Oracle, plan: Plan, w: World, p: nat) returns (w': World)
    requires DistinctIds(plan.benches)
    requires Driving(o, plan, w) && w.proc.s.pass <= p <= Passes(plan)
    ensures Reaches(o, plan, w, w') && Driving(o, plan, w')
    ensures w'.proc.s.queue == [] && w'.proc.s.pass == p && w'.proc.s.carried == w.proc.s.carried
    decreases p - w.proc.s.pass, |w.proc.s.queue|
  {
    var s := w.proc.s;
    if s.queue != [] {
      var w1 := AttemptOne(o, plan, w);
      w' := DriveTo(o, plan, w1, p);
      ReachesTransitive(o, plan, w, w1, w');
    } else if s.pass < p {
      var w1 := AdvanceOne(o, plan, w);
      w' := DriveTo(o, plan, w1, p);
      ReachesTransitive(o, plan, w, w1, w');
    } else {
      w' := w;
      ReachesItself(o, plan, w);
    }
  }

  lemma {:induction false} StartAndDrive(o: Oracle, plan: Plan, w: World, resume: bool, p: nat) returns (w': World)
    requires DistinctIds(plan.benches) && !w.proc.Up? && p <= Passes(plan)
    ensures Reaches(o, plan, w, w') && Driving(o, plan, w') && w'.proc.s.queue == [] && w'.proc.s.pass == p
    ensures w'.proc.s.carried == if resume then Carryable(Loaded(w.disk)) else []
  {
    var w1 := Apply(plan, w, Start(resume));
    BegunIsSound(o, plan, if resume then Carryable(Loaded(w.disk)) else []);
    StepReaches(o, plan, w, Start(resume));
    w' := DriveTo(o, plan, w1, p);
    ReachesTransitive(o, plan, w, w1, w');
  }

  /** A session started in any world can be completed. */
  lemma Complete(o: Oracle, plan: Plan, w: World, resume: bool) returns (w': World)
    requires DistinctIds(plan.benches) && !w.proc.Up?
    ensures Reaches(o, plan, w, w') && w'.proc.Finished?
    ensures w'.proc.s.carried == if resume then Carryable(Loaded(w.disk)) else []
  {
    var w2 := StartAndDrive(o, plan, w, resume, Passes(plan));
    OneStepFurther(o, plan, w, w2, Finish(Intact));
    w' := Apply(plan, w2, Finish(Intact));
  }

  /** A first session, killed right after pass j, leaves that pass's results in the checkpoint. */
  lemma KilledAfterPass(o: Oracle, plan: Plan, j: nat) returns (w': World)
    requires DistinctIds(plan.benches) && 0 < j <= Passes(plan) && SessionLog(o, plan, {}, j) != []
    ensures Reaches(o, plan, FRESH, w') && w'.proc.Down?
    ensures w'.disk == Saved(SessionLog(o, plan, {}, j))
  {
    var w2 := StartAndDrive(o, plan, FRESH, false, j);
    DrivenFresh(o, plan, w2, j);
    w' := KilledNow(o, plan, FRESH, w2);
  }

  lemma KilledNow(o: Oracle, plan: Plan, w: World, w': World) returns (w'': World)
    requires Reaches(o, plan, w, w')
    ensures Reaches(o, plan, w, w'') && w''.proc.Down? && w''.disk == w'.disk && w''.ledger == w'.ledger
  {
    OneStepFurther(o, plan, w, w', Crash);
    w'' := Apply(plan, w', Crash);
  }

  lemma DrivenFresh(o: Oracle, plan: Plan, w: World, j: nat)
    requires Driving(o, plan, w) && w.proc.s.queue == [] && w.proc.s.pass == j && w.proc.s.carried == []
    requires SessionLog(o, plan, {}, j) != []
    ensures w.disk == Saved(SessionLog(o, plan, {}, j))
  {
    PassDone(o, plan, w.proc.s);
    assert Ids([]) == {};
    assert [] + w.proc.s.added == w.proc.s.added;
  }

  /** The history that goes wrong: crash after pass j, resume, and complete. */
  lemma CrashAfterPass(o: Oracle, plan: Plan, j: nat) returns (w': World)
    requires DistinctIds(plan.benches) && 0 < j <= Passes(plan) && SessionLog(o, plan, {}, j) != []
    ensures Reaches(o, plan, FRESH, w') && w'.proc.Finished?
    ensures w'.proc.s.carried == Carryable(SessionLog(o, plan, {}, j))
  {
    var killed := KilledAfterPass(o, plan, j);
    w' := Complete(o, plan, killed, true);
    ReachesTransitive(o, plan, FRESH, killed, w');
  }

  /** Crash after pass j, resume and complete: the attempts up to j that were graded are carried. */
  lemma CarryMiss(o: Oracle, plan: Plan, b: Bench, j: nat) returns (w: World)
    requires DistinctIds(plan.benches) && b in plan.benches && plan.attempts > 0
    requires 1 <= j < Made(o, b.id, Passes(plan)) && !o(b.id, j).Errored?
    ensures Reaches(o, plan, FRESH, w) && w.proc.Finished?
    ensures w.proc.s.carried == Carryable(SessionLog(o, plan, {}, j)) && b.id in Ids(w.proc.s.carried)
  {
    var log := SessionLog(o, plan, {}, j);
    var r := Attempt(o, plan, b.id, j);
    MadeBelow(o, b.id, j, Passes(plan));
    ExactAttempts(o, plan, {}, j, b);
    TriesMember(o, plan, b.id, j, r);
    OfMember(log, b.id, r);
    CarryableMember(log, r);
    IdsMember(Carryable(log), b.id);
    w := CrashAfterPass(o, plan, j);
  }

  lemma KeptIsMiss(o: Oracle, plan: Plan, b: Bench, j: nat, kept: Result)
    requires 1 <= j < Made(o, b.id, Passes(plan))
    requires kept in Carryable(SessionLog(o, plan, {}, j)) && kept.id == b.id
    ensures 1 <= kept.pass <= j && !kept.Solved()
  {
    CarryableMember(SessionLog(o, plan, {}, j), kept);
    LogMember(o, plan, {}, j, kept);
    MadeIsFirstSolve(o, b.id, Passes(plan));
    assert !Solves(o, b.id, kept.pass);
  }

  /** A graded attempt that is not the last is carried by a crash after its pass, and stands in for the last. */
  lemma NotTransparent(o: Oracle, plan: Plan, b: Bench, j: nat)
    requires DistinctIds(plan.benches) && b in plan.benches && plan.attempts > 0
    requires 1 <= j < Made(o, b.id, Passes(plan)) && !o(b.id, j).Errored?
    ensures !Transparent(o, plan)
  {
    var w := CarryMiss(o, plan, b, j);
    var es :| Follows(o, plan, FRESH, es) && After(plan, FRESH, es) == w;
    HistoryStaysHonest(o, plan, FRESH, es);
    PassDone(o, plan, w.proc.s);
    FinishedWinner(o, plan, w.proc.s.carried, w.proc.s.added, b);
    CleanWinnerIs(o, plan, b);
    WinnerOfDedupe(w.proc.s.Results(), b.id);
    KeptIsMiss(o, plan, b, j, Winner(w.proc.s.carried, b.id).value);
  }

  lemma MadeBelow(o: Oracle, id: string, j: nat, n: nat)
    requires j < Made(o, id, n)
    ensures Made(o, id, j) == j
  {
    MadeIsFirstSolve(o, id, n);
    MadeIsFirstSolve(o, id, j);
  }

  /**
   Resuming is transparent exactly when nothing but infrastructure errors is ever retried: a carried miss is
   never attempted again, whatever --attempts says.
   */
  lemma ResumeIsTransparentIff(o: Oracle, plan: Plan)
    requires DistinctIds(plan.benches) && plan.attempts > 0
    ensures Transparent(o, plan) <==> OnlyErrorsRetried(o, plan)
  {
    if OnlyErrorsRetried(o, plan) {
      forall es, id | Follows(o, plan, FRESH, es) && After(plan, FRESH, es).proc.Finished?
        ensures Winner(Dedupe(After(plan, FRESH, es).proc.s.Results()), id) == CleanWinner(o, plan, id)
      {
        HistoryStaysHonest(o, plan, FRESH, es);
        CompletedAgreesWithClean(o, plan, After(plan, FRESH, es).proc.s, id);
      }
    } else {
      var b, j :| b in plan.benches && 1 <= j < Made(o, b.id, Passes(plan)) && !o(b.id, j).Errored?;
      NotTransparent(o, plan, b, j);
    }
  }

  /** For a caller: resuming can be trusted whatever the attempts come to exactly when --attempts is 1. */
  lemma TransparentForAllOutcomesIff(plan: Plan)
    requires DistinctIds(plan.benches) && plan.benches != [] && plan.attempts > 0
    ensures (forall o: Oracle :: Transparent(o, plan)) <==> plan.attempts == 1
  {
    if plan.attempts == 1 {
      forall o: Oracle ensures Transparent(o, plan) {
        ResumeIsTransparentIff(o, plan);
      }
    } else {
      var o: Oracle := (id, k) => Graded(false, 0, "");
      var b := plan.benches[0];
      MadeIsFirstSolve(o, b.id, Passes(plan));
      assert !Solves(o, b.id, Made(o, b.id, Passes(plan)));
      NotTransparent(o, plan, b, 1);
    }
  }

  // ----- resuming, as the scoreboard sees it -----

  /** Whether a report counts the benchmark as solved. */
  predicate CountsAsSolved(w: Option<Result>) {
    w.Some? && w.value.Solved()
  }

  /** Every history that ends in a completed session counts the same benchmarks as solved. */
  ghost predicate FlagsTransparent(o: Oracle, plan: Plan) {
    forall es :: Follows(o, plan, FRESH, es) && After(plan, FRESH, es).proc.Finished? ==>
      forall id :: CountsAsSolved(Winner(Dedupe(After(plan, FRESH, es).proc.s.Results()), id))
                   == CountsAsSolved(CleanWinner(o, plan, id))
  }

  /** No benchmark that the passes solve has been graded a miss before. */
  ghost predicate NoMissBeforeSolve(o: Oracle, plan: Plan) {
    forall b, j ::
      b in plan.benches && 1 <= j < Made(o, b.id, Passes(plan)) && Solves(o, b.id, Made(o, b.id, Passes(plan)))
      ==> o(b.id, j).Errored?
  }

  /** A carried result counts as the uninterrupted run would count it, unless it is a miss before a solve. */
  lemma CarriedFlag(o: Oracle, plan: Plan, s: Session, b: Bench, r: Result)
    requires NoMissBeforeSolve(o, plan) && b in plan.benches
    requires Carries(o, plan, s) && r in s.carried && r.id == b.id
    ensures r.Solved() == Solves(o, b.id, Made(o, b.id, Passes(plan)))
  {
    var made := Made(o, b.id, Passes(plan));
    assert !r.Errored() && CouldBeMade(o, plan, r);
    MadeIsFirstSolve(o, b.id, Passes(plan));
    if r.pass < made {
      assert !Solves(o, b.id, r.pass);
    }
  }

  lemma {:induction false} FlagsAgreeWithClean(o: Oracle, plan: Plan, s: Session, id: string)
    requires DistinctIds(plan.benches) && plan.attempts > 0 && NoMissBeforeSolve(o, plan)
    requires Carries(o, plan, s) && s.queue == [] && s.pass == Passes(plan)
    ensures CountsAsSolved(Winner(Dedupe(s.Results()), id)) == CountsAsSolved(CleanWinner(o, plan, id))
  {
    WinnerOfDedupe(s.Results(), id);
    if b :| b in plan.benches && b.id == id {
      PassDone(o, plan, s);
      FinishedWinner(o, plan, s.carried, s.added, b);
      if id in s.done {
        CleanWinnerIs(o, plan, b);
        CarriedFlag(o, plan, s, b, Winner(s.carried, id).value);
      }
    } else {
      UnplannedHaveNoWinner(o, plan, s, id);
    }
  }

  /** A miss that a later pass turns into a solve is lost by a crash after its pass and a resume. */
  lemma {:induction false} SolveIsLost(o: Oracle, plan: Plan, b: Bench, j: nat) returns (es: seq<Event>)
    requires DistinctIds(plan.benches) && b in plan.benches && plan.attempts > 0
    requires 1 <= j < Made(o, b.id, Passes(plan)) && !o(b.id, j).Errored?
    requires Solves(o, b.id, Made(o, b.id, Passes(plan)))
    ensures Follows(o, plan, FRESH, es) && After(plan, FRESH, es).proc.Finished?
    ensures CountsAsSolved(CleanWinner(o, plan, b.id))
    ensures !CountsAsSolved(Winner(Dedupe(After(plan, FRESH, es).proc.s.Results()), b.id))
  {
    var w := CarryMiss(o, plan, b, j);
    es :| Follows(o, plan, FRESH, es) && After(plan, FRESH, es) == w;
    HistoryStaysHonest(o, plan, FRESH, es);
    PassDone(o, plan, w.proc.s);
    FinishedWinner(o, plan, w.proc.s.carried, w.proc.s.added, b);
    CleanWinnerIs(o, plan, b);
    WinnerOfDedupe(w.proc.s.Results(), b.id);
    var kept := Winner(w.proc.s.carried, b.id).value;
    KeptIsMiss(o, plan, b, j, kept);
  }

  /**
   A resumed run can report a miss where an uninterrupted one reports a solve exactly when some benchmark is
   graded a miss on one pass and solved on a later one.
   */
  lemma FlagsTransparentIff(o: Oracle, plan: Plan)
    requires DistinctIds(plan.benches) && plan.attempts > 0
    ensures FlagsTransparent(o, plan) <==> NoMissBeforeSolve(o, plan)
  {
    if NoMissBeforeSolve(o, plan) {
      forall es, id | Follows(o, plan, FRESH, es) && After(plan, FRESH, es).proc.Finished?
        ensures CountsAsSolved(Winner(Dedupe(After(plan, FRESH, es).proc.s.Results()), id))
                == CountsAsSolved(CleanWinner(o, plan, id))
      {
        HistoryStaysHonest(o, plan, FRESH, es);
        FlagsAgreeWithClean(o, plan, After(plan, FRESH, es).proc.s, id);
      }
    } else {
      var b, j :| b in plan.benches && 1 <= j < Made(o, b.id, Passes(plan))
                  && Solves(o, b.id, Made(o, b.id, Passes(plan))) && !o(b.id, j).Errored?;
      var es := SolveIsLost(o, plan, b, j);
    }
  }

  /** Graded a miss on the first attempt and solved on the second. */
  const MISS_THEN_SOLVE: Oracle := (id, k) => Graded(k >= 2, 0, "")

  /** With two or more passes, that is the failing input: the resumed run loses the solve. */
  lemma MissThenSolveIsLost(plan: Plan, b: Bench) returns (es: seq<Event>)
    requires DistinctIds(plan.benches) && b in plan.benches && plan.attempts > 1
    ensures Follows(MISS_THEN_SOLVE, plan, FRESH, es) && After(plan, FRESH, es).proc.Finished?
    ensures CountsAsSolved(CleanWinner(MISS_THEN_SOLVE, plan, b.id))
    ensures !CountsAsSolved(Winner(Dedupe(After(plan, FRESH, es).proc.s.Results()), b.id))
  {
    MadeByTwo(b.id, Passes(plan));
    es := SolveIsLost(MISS_THEN_SOLVE, plan, b, 1);
  }

  lemma {:induction false} MadeByTwo(id: string, p: nat)
    requires p > 1
    ensures Made(MISS_THEN_SOLVE, id, p) == 2
  {
    if p == 2 {
      assert Made(MISS_THEN_SOLVE, id, 1) == Made(MISS_THEN_SOLVE, id, 0) + 1 == 1;
      assert !Solves(MISS_THEN_SOLVE, id, 1);
    } else {
      MadeByTwo(id, p - 1);
    }
  }

  /** For a caller: no solve can be lost, whatever the attempts come to, exactly when --attempts is 1. */
  lemma FlagsTransparentForAllOutcomesIff(plan: Plan)
    requires DistinctIds(plan.benches) && plan.benches != [] && plan.attempts > 0
    ensures (forall o: Oracle :: FlagsTransparent(o, plan)) <==> plan.attempts == 1
  {
    if plan.attempts == 1 {
      forall o: Oracle ensures FlagsTransparent(o, plan) {
        FlagsTransparentIff(o, plan);
      }
    } else {
      var es := MissThenSolveIsLost(plan, plan.benches[0]);
      assert !FlagsTransparent(MISS_THEN_SOLVE, plan);
    }
  }
}
