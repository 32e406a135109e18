/**
 The code-review benchmark runner: it reviews one case after another, rewrites its predictions file after
 every case it completes, and on the next start skips what that file says it completed.
 */
module CodeReviewRun {
  import opened Sequences

  datatype Prediction = Prediction(file: string, line: int, rule: string)

  /** What one case comes to: a reason it could not be run, or the planned paths and the locations reported. */
  datatype Review = Failed(reason: string) | Reviewed(paths: seq<string>, found: seq<Prediction>)

  /** The predictions file. */
  datatype Preds = Preds(
    cases: map<string, seq<Prediction>>, ran: set<string>, errors: map<string, string>,
    examined: map<string, seq<string>>)

  const NOTHING := Preds(map[], {}, map[], map[])

  datatype Config = Config(tool: string, model: string, cases: seq<string>, only: set<string>) {
    predicate Wants(id: string) {
      id in cases && (only == {} || id in only)
    }
  }

  /** The file on disk: absent, not parseable, or written by some tool and model. */
  datatype Disk = Absent | Garbage | Holds(tool: string, model: string, preds: Preds)

  /** Only a readable file of the same tool and model is resumed from. */
  function Load(c: Config, disk: Disk): Preds {
    if disk.Holds? && disk.tool == c.tool && disk.model == c.model then disk.preds else NOTHING
  }

  function ReviewOne(p: Preds, id: string, review: Review): Preds {
    match review
    case Failed(reason) => p.(errors := p.errors[id := reason])
    case Reviewed(paths, found) =>
      Preds(p.cases[id := found], p.ran + {id}, p.errors - {id},
            Noted(p.examined, id, Unique(paths)))
  }

  /** The paths noted for a case; a case with no planned path gets no entry. */
  function Noted(examined: map<string, seq<string>>, id: string, paths: seq<string>): map<string, seq<string>> {
    if paths == [] then examined
    else examined[id := (if id in examined then examined[id] else []) + paths]
  }

  lemma NotedSnoc(examined: map<string, seq<string>>, id: string, paths: seq<string>, path: string)
    ensures Noted(Noted(examined, id, paths), id, [path]) == Noted(examined, id, paths + [path])
  {
    var earlier := if id in examined then examined[id] else [];
    assert (earlier + paths) + [path] == earlier + (paths + [path]);
    if paths == [] {
      assert paths + [path] == [path];
    }
  }

  /** One whole pass over the first n cases with a deterministic sweep. */
  function ReviewAll(c: Config, sweep: string -> Review, p: Preds, n: nat): Preds
    requires n <= |c.cases|
  {
    if n == 0 then p
    else
      var q, id := ReviewAll(c, sweep, p, n - 1), c.cases[n - 1];
      if !c.Wants(id) || id in q.ran then q else ReviewOne(q, id, sweep(id))
  }

  /** A finished case is left exactly as it was. */
  ghost predicate Kept(p: Preds, q: Preds, id: string) {
    && id in q.ran
    && (id in q.cases <==> id in p.cases) && (id in p.cases ==> q.cases[id] == p.cases[id])
    && (id in q.examined <==> id in p.examined) && (id in p.examined ==> q.examined[id] == p.examined[id])
    && (id in q.errors <==> id in p.errors) && (id in p.errors ==> q.errors[id] == p.errors[id])
  }

  /** Whatever the sweep would answer now, a case that has run is not reviewed again. */
  lemma {:induction false} FinishedIsKept(c: Config, sweep: string -> Review, p: Preds, n: nat, id: string)
    requires n <= |c.cases| && id in p.ran
    ensures Kept(p, ReviewAll(c, sweep, p, n), id)
  {
    if n > 0 {
      FinishedIsKept(c, sweep, p, n - 1, id);
    }
  }

  lemma FinishedAreKept(c: Config, sweep: string -> Review, p: Preds)
    ensures forall id :: id in p.ran ==> Kept(p, ReviewAll(c, sweep, p, |c.cases|), id)
  {
    forall id | id in p.ran ensures Kept(p, ReviewAll(c, sweep, p, |c.cases|), id) {
      FinishedIsKept(c, sweep, p, |c.cases|, id);
    }
  }

  /**
   What a session touches: a case outside the corpus, or not named by a non-empty --only, is left alone, and
   every other case has afterwards run or has the reason why not.
   */
  lemma {:induction false} OnlyWantedAreReviewed(c: Config, sweep: string -> Review, p: Preds, n: nat, id: string)
    requires n <= |c.cases|
    ensures var q := ReviewAll(c, sweep, p, n);
            if id in c.cases[..n] && (c.only == {} || id in c.only)
            then id in q.ran || (id in q.errors && sweep(id) == Failed(q.errors[id]))
            else (id in q.ran <==> id in p.ran) && (id in q.errors <==> id in p.errors)
                 && (id in q.cases <==> id in p.cases) && (id in q.examined <==> id in p.examined)
  {
    if n > 0 {
      assert c.cases[..n] == c.cases[..n - 1] + [c.cases[n - 1]];
      OnlyWantedAreReviewed(c, sweep, p, n - 1, id);
    }
  }

  class Runner {
    const config: Config
    var cases: map<string, seq<Prediction>>
    var ran: set<string>
    var errors: map<string, string>
    var examined: map<string, seq<string>>
    var disk: Disk

    ghost function State(): Preds
      reads this
    {
      Preds(cases, ran, errors, examined)
    }

    constructor (config: Config, disk: Disk)
      ensures this.config == config && this.disk == disk && State() == NOTHING
    {
      this.config, this.disk := config, disk;
      cases, ran, errors, examined := map[], {}, map[], map[];
    }

    method Resume()
      modifies this`cases, this`ran, this`errors, this`examined
      ensures State() == Load(config, disk)
      ensures disk.Holds? && disk.tool == config.tool && disk.model == config.model ==> State() == disk.preds
    {
      var p := Load(config, disk);
      cases, ran, errors, examined := p.cases, p.ran, p.errors, p.examined;
    }

    method Complete(id: string, paths: seq<string>, found: seq<Prediction>)
      modifies this
      ensures State() == ReviewOne(old(State()), id, Reviewed(paths, found))
      ensures disk == Holds(config.tool, config.model, State())
    {
      var seenPath: seq<string> := [];
      for i := 0 to |paths|
        invariant seenPath == Unique(paths[..i])
        invariant cases == old(cases) && ran == old(ran) && errors == old(errors) && disk == old(disk)
        invariant examined == Noted(old(examined), id, seenPath)
      {
        var path := paths[i];
        assert paths[..i + 1] == paths[..i] + [path];
        UniqueSnoc(paths[..i], path);
        if path !in seenPath {
          NotedSnoc(old(examined), id, seenPath, path);
          seenPath := seenPath + [path];
          var before := if id in examined then examined[id] else [];
          examined := examined[id := before + [path]];
        }
      }
      assert paths[..|paths|] == paths;
      cases := cases[id := found];
      ran := ran + {id};
      errors := errors - {id};
      disk := Holds(config.tool, config.model, Preds(cases, ran, errors, examined));
    }

    /** One uninterrupted session. */
    method Run(sweep: string -> Review)
      modifies this
      ensures State() == ReviewAll(config, sweep, Load(config, old(disk)), |config.cases|)
      ensures disk == Holds(config.tool, config.model, State())
      ensures var was := old(disk);
              if was.Holds? && was.tool == config.tool && was.model == config.model
              then forall id :: id in was.preds.ran ==> Kept(was.preds, State(), id)
              else State() == ReviewAll(config, sweep, Preds(map[], {}, map[], map[]), |config.cases|)
    {
      FinishedAreKept(config, sweep, Load(config, disk));
      Resume();
      for i := 0 to |config.cases|
        invariant State() == ReviewAll(config, sweep, Load(config, old(disk)), i)
      {
        var id := config.cases[i];
        if config.only != {} && id !in config.only {
          continue;
        }
        if id in ran {
          continue;
        }
        match sweep(id)
        case Failed(reason) => errors := errors[id := reason];
        case Reviewed(paths, found) => Complete(id, paths, found);
      }
      disk := Holds(config.tool, config.model, Preds(cases, ran, errors, examined));
    }
  }

  // ----- what a run should come to, case by case and without reference to order -----

  function Full(c: Config, sweep: string -> Review): Preds {
    var ids := set id | id in c.cases && c.Wants(id);
    Preds(
      map id | id in ids && sweep(id).Reviewed? :: sweep(id).found,
      set id | id in ids && sweep(id).Reviewed?,
      map id | id in ids && sweep(id).Failed? :: sweep(id).reason,
      map id | id in ids && sweep(id).Reviewed? && sweep(id).paths != [] :: Unique(sweep(id).paths))
  }

  /** What one case contributes to a predictions file that agrees with the sweep. */
  ghost predicate CaseAgrees(c: Config, sweep: string -> Review, p: Preds, id: string) {
    && (id in p.cases <==> id in p.ran)
    && (id in p.ran ==> c.Wants(id) && sweep(id).Reviewed? && p.cases[id] == sweep(id).found)
    && (id in p.errors ==> c.Wants(id) && sweep(id).Failed? && p.errors[id] == sweep(id).reason)
    && (id in p.examined <==> id in p.ran && sweep(id).paths != [])
    && (id in p.examined ==> p.examined[id] == Unique(sweep(id).paths))
  }

  ghost predicate Agrees(c: Config, sweep: string -> Review, p: Preds) {
    forall id :: CaseAgrees(c, sweep, p, id)
  }

  ghost predicate Covers(c: Config, p: Preds, n: nat)
    requires n <= |c.cases|
  {
    forall i :: 0 <= i < n && c.Wants(c.cases[i]) ==> c.cases[i] in p.ran || c.cases[i] in p.errors
  }

  lemma ReviewOneAgrees(c: Config, sweep: string -> Review, p: Preds, id: string)
    requires Agrees(c, sweep, p) && c.Wants(id) && id !in p.ran
    ensures Agrees(c, sweep, ReviewOne(p, id, sweep(id)))
  {
    var q := ReviewOne(p, id, sweep(id));
    assert CaseAgrees(c, sweep, p, id);
    forall x ensures CaseAgrees(c, sweep, q, x) {
      assert CaseAgrees(c, sweep, p, x);
      if x == id && sweep(id).Reviewed? {
        var paths := sweep(id).paths;
        assert [] + Unique(paths) == Unique(paths);
        if paths != [] {
          UniqueMember(paths, paths[0]);
        }
      }
    }
  }

  lemma CoveredIsFull(c: Config, sweep: string -> Review, p: Preds)
    requires Agrees(c, sweep, p) && Covers(c, p, |c.cases|)
    ensures p == Full(c, sweep)
  {
    var f := Full(c, sweep);
    forall id
      ensures id in p.ran <==> id in f.ran
      ensures id in p.cases <==> id in f.cases
      ensures id in p.errors <==> id in f.errors
      ensures id in p.examined <==> id in f.examined
    {
      assert CaseAgrees(c, sweep, p, id);
      if c.Wants(id) {
        var i :| 0 <= i < |c.cases| && c.cases[i] == id;
        assert id in p.ran || id in p.errors;
      }
    }
    forall id | id in p.cases ensures p.cases[id] == f.cases[id] {
      assert CaseAgrees(c, sweep, p, id);
    }
    forall id | id in p.errors ensures p.errors[id] == f.errors[id] {
      assert CaseAgrees(c, sweep, p, id);
    }
    forall id | id in p.examined ensures p.examined[id] == f.examined[id] {
      assert CaseAgrees(c, sweep, p, id);
    }
    assert p.ran == f.ran && p.cases == f.cases && p.errors == f.errors && p.examined == f.examined;
  }

  lemma {:induction false} ReviewAllAgrees(c: Config, sweep: string -> Review, p: Preds, n: nat)
    requires n <= |c.cases| && Agrees(c, sweep, p)
    ensures var q := ReviewAll(c, sweep, p, n); Agrees(c, sweep, q) && Covers(c, q, n)
  {
    if n > 0 {
      ReviewAllAgrees(c, sweep, p, n - 1);
      var q, id := ReviewAll(c, sweep, p, n - 1), c.cases[n - 1];
      if c.Wants(id) && id !in q.ran {
        ReviewOneAgrees(c, sweep, q, id);
      }
    }
  }

  /** An uninterrupted run, from nothing or from any file that agrees with the sweep, is the full one. */
  lemma UninterruptedIsFull(c: Config, sweep: string -> Review, p: Preds)
    requires Agrees(c, sweep, p)
    ensures ReviewAll(c, sweep, p, |c.cases|) == Full(c, sweep)
  {
    ReviewAllAgrees(c, sweep, p, |c.cases|);
    CoveredIsFull(c, sweep, ReviewAll(c, sweep, p, |c.cases|));
  }

  // ----- sessions that crash -----

  datatype Process = Down | Up(preds: Preds, next: nat) | Finished(preds: Preds)

  /** `only` is the --only of the latest session started. */
  datatype World = World(disk: Disk, proc: Process, only: set<string>)

  datatype Fate = Intact | Lost | CutShort

  /** `Next` handles the next case; its fate is that of the file rewrite, if the case completes. */
  datatype Event = Start(only: set<string>) | Next(review: Review, fate: Fate) | Finish(fate: Fate) | Crash

  /** The configuration of the session in progress: tool, model and corpus stay, --only may change. */
  function Current(c: Config, w: World): Config {
    c.(only := w.only)
  }

  /** A failed write ends the session; a write cut short also leaves an unreadable file. */
  function Saving(c: Config, w: World, p: Preds, fate: Fate, next: Process): World {
    match fate
    case Intact => World(Holds(c.tool, c.model, p), next, w.only)
    case Lost => w.(proc := Down)
    case CutShort => World(Garbage, Down, w.only)
  }

  function Apply(c: Config, w: World, e: Event): World {
    match (e, w.proc)
    case (Crash, _) => w.(proc := Down)
    case (Start(only), Down) => World(w.disk, Up(Load(c, w.disk), 0), only)
    case (Start(only), Finished(_)) => World(w.disk, Up(Load(c, w.disk), 0), only)
    case (Next(review, fate), Up(p, n)) =>
      if n >= |c.cases| then w
      else
        var id := c.cases[n];
        if !Current(c, w).Wants(id) || id in p.ran then w.(proc := Up(p, n + 1))
        else
          var q := ReviewOne(p, id, review);
          if review.Failed? then w.(proc := Up(q, n + 1)) else Saving(c, w, q, fate, Up(q, n + 1))
    case (Finish(fate), Up(p, n)) => if n == |c.cases| then Saving(c, w, p, fate, Finished(p)) else w
    case _ => w
  }

  function After(c: Config, w: World, es: seq<Event>): World
    decreases |es|
  {
    if es == [] then w else After(c, Apply(c, w, es[0]), es[1..])
  }

  // ----- whatever the sweep does -----

  /** A finished case, on disk and in every session that has read it. */
  ghost predicate StillFinished(c: Config, w: World, p: Preds, id: string) {
    && w.disk.Holds? && w.disk.tool == c.tool && w.disk.model == c.model && Kept(p, w.disk.preds, id)
    && (!w.proc.Down? ==> Kept(p, w.proc.preds, id))
  }

  lemma StepKeepsFinished(c: Config, w: World, e: Event, p: Preds, id: string)
    requires StillFinished(c, w, p, id) && (e.Next? || e.Finish? ==> e.fate != CutShort)
    ensures StillFinished(c, Apply(c, w, e), p, id)
  {
  }

  /** Everything a session in progress has finished is on disk; only its errors may not be yet. */
  ghost predicate NothingUnsaved(c: Config, w: World) {
    && (w.proc.Up? ==>
          var saved := Load(c, w.disk);
          saved.cases == w.proc.preds.cases && saved.ran == w.proc.preds.ran && saved.examined == w.proc.preds.examined)
    && (w.proc.Finished? ==> w.disk == Holds(c.tool, c.model, w.proc.preds))
  }

  lemma {:induction false} FinishedWorkIsSaved(c: Config, w: World, es: seq<Event>)
    requires NothingUnsaved(c, w)
    ensures NothingUnsaved(c, After(c, w, es))
    decreases |es|
  {
    if es != [] {
      StepSaves(c, w, es[0]);
      FinishedWorkIsSaved(c, Apply(c, w, es[0]), es[1..]);
    }
  }

  lemma StepSaves(c: Config, w: World, e: Event)
    requires NothingUnsaved(c, w)
    ensures NothingUnsaved(c, Apply(c, w, e))
  {
  }

  /**
   A case the file records as finished stays finished, with the same predictions and paths, whatever the sweep
   answers later, over any number of crashed, failed or completed sessions with any --only, as long as no rewrite
   of the file is cut short.
   */
  lemma {:induction false} FinishedIsNeverLost(c: Config, w: World, es: seq<Event>, p: Preds, id: string)
    requires w.disk == Holds(c.tool, c.model, p) && w.proc.Down? && id in p.ran
    requires forall e :: e in es && (e.Next? || e.Finish?) ==> e.fate != CutShort
    ensures var w' := After(c, w, es);
            && w'.disk.Holds? && w'.disk.tool == c.tool && w'.disk.model == c.model && Kept(p, w'.disk.preds, id)
            && (w'.proc.Finished? ==> Kept(p, w'.proc.preds, id))
  {
    FinishedIsKeptFrom(c, w, es, p, id);
  }

  lemma {:induction false} FinishedIsKeptFrom(c: Config, w: World, es: seq<Event>, p: Preds, id: string)
    requires StillFinished(c, w, p, id)
    requires forall e :: e in es && (e.Next? || e.Finish?) ==> e.fate != CutShort
    ensures StillFinished(c, After(c, w, es), p, id)
    decreases |es|
  {
    if es != [] {
      assert es[0] in es;
      StepKeepsFinished(c, w, es[0], p, id);
      FinishedIsKeptFrom(c, Apply(c, w, es[0]), es[1..], p, id);
    }
  }

  /** A case that ran is never also reported as not run, and only cases that ran have predictions or paths. */
  ghost predicate Disjoint(p: Preds) {
    p.ran !! p.errors.Keys && p.cases.Keys == p.ran && p.examined.Keys <= p.ran
  }

  ghost predicate AllDisjoint(w: World) {
    && (w.disk.Holds? ==> Disjoint(w.disk.preds))
    && (!w.proc.Down? ==> Disjoint(w.proc.preds))
  }

  lemma StepKeepsDisjoint(c: Config, w: World, e: Event)
    requires AllDisjoint(w)
    ensures AllDisjoint(Apply(c, w, e))
  {
    if e.Next? && w.proc.Up? && w.proc.next < |c.cases| && c.cases[w.proc.next] !in w.proc.preds.ran {
      var p, id := w.proc.preds, c.cases[w.proc.next];
      var q := ReviewOne(p, id, e.review);
      assert Disjoint(q) by {
        if e.review.Reviewed? {
          assert q.errors.Keys == p.errors.Keys - {id};
        } else {
          assert q.errors.Keys == p.errors.Keys + {id};
        }
      }
    }
  }

  /** In every world reachable from a sane one, by any sweep and any crashes, Ran and Errors stay disjoint. */
  lemma {:induction false} RanAndErrorsStayDisjoint(c: Config, w: World, es: seq<Event>)
    requires AllDisjoint(w)
    ensures AllDisjoint(After(c, w, es))
    decreases |es|
  {
    if es != [] {
      StepKeepsDisjoint(c, w, es[0]);
      RanAndErrorsStayDisjoint(c, Apply(c, w, es[0]), es[1..]);
    }
  }

  // ----- with a deterministic sweep -----

  predicate Allowed(c: Config, sweep: string -> Review, w: World, e: Event) {
    e.Next? && w.proc.Up? && w.proc.next < |c.cases| ==> e.review == sweep(c.cases[w.proc.next])
  }

  predicate Follows(c: Config, sweep: string -> Review, w: World, es: seq<Event>)
    decreases |es|
  {
    es == [] || (Allowed(c, sweep, w, es[0]) && Follows(c, sweep, Apply(c, w, es[0]), es[1..]))
  }

  /** No session wants less than the one before it: the same --only throughout, say, or none on the last. */
  ghost predicate Growing(c: Config, w: World, es: seq<Event>)
    decreases |es|
  {
    es == [] || (Within(Current(c, w), Current(c, Apply(c, w, es[0]))) && Growing(c, Apply(c, w, es[0]), es[1..]))
  }

  ghost predicate Within(c: Config, c': Config) {
    c'.cases == c.cases && forall id :: c.Wants(id) ==> c'.Wants(id)
  }

  lemma AgreesWithin(c: Config, c': Config, sweep: string -> Review, p: Preds)
    requires Agrees(c, sweep, p) && Within(c, c')
    ensures Agrees(c', sweep, p)
  {
    forall id ensures CaseAgrees(c', sweep, p, id) {
      assert CaseAgrees(c, sweep, p, id);
    }
  }

  ghost predicate Honest(c: Config, sweep: string -> Review, w: World) {
    && Agrees(Current(c, w), sweep, Load(c, w.disk))
    && match w.proc
       case Down => true
       case Up(p, n) => Agrees(Current(c, w), sweep, p) && n <= |c.cases| && Covers(Current(c, w), p, n)
       case Finished(p) => p == Full(Current(c, w), sweep)
  }

  lemma StartStaysHonest(c: Config, sweep: string -> Review, w: World, only: set<string>)
    requires Honest(c, sweep, w) && !w.proc.Up? && Within(Current(c, w), c.(only := only))
    ensures Honest(c, sweep, Apply(c, w, Start(only)))
  {
    AgreesWithin(Current(c, w), c.(only := only), sweep, Load(c, w.disk));
  }

  lemma StepStaysHonest(c: Config, sweep: string -> Review, w: World, e: Event)
    requires Honest(c, sweep, w) && Allowed(c, sweep, w, e)
    requires Within(Current(c, w), Current(c, Apply(c, w, e)))
    ensures Honest(c, sweep, Apply(c, w, e))
  {
    if e.Start? && !w.proc.Up? {
      StartStaysHonest(c, sweep, w, e.only);
    }
    if w.proc.Up? {
      var p, n := w.proc.preds, w.proc.next;
      if e.Next? && n < |c.cases| && Current(c, w).Wants(c.cases[n]) && c.cases[n] !in p.ran {
        ReviewOneAgrees(Current(c, w), sweep, p, c.cases[n]);
      }
      if e.Finish? && n == |c.cases| {
        CoveredIsFull(Current(c, w), sweep, p);
      }
    }
  }

  lemma NothingAgrees(c: Config, sweep: string -> Review)
    ensures Agrees(c, sweep, NOTHING)
  {
  }

  /**
   Any number of crashed, failed or completed sessions, each wanting at least what the one before it wanted,
   from a fresh, unreadable, foreign or agreeing file: a session that completes has exactly the maps of one
   uninterrupted run with its own --only.
   */
  lemma {:induction false} CrashSafety(c: Config, sweep: string -> Review, w: World, es: seq<Event>)
    requires Honest(c, sweep, w) && Follows(c, sweep, w, es) && Growing(c, w, es)
    ensures Honest(c, sweep, After(c, w, es))
    ensures var w' := After(c, w, es);
            w'.proc.Finished? ==> w'.proc.preds == ReviewAll(Current(c, w'), sweep, NOTHING, |c.cases|)
    decreases |es|
  {
    if es == [] {
      NothingAgrees(Current(c, w), sweep);
      UninterruptedIsFull(Current(c, w), sweep, NOTHING);
    } else {
      StepStaysHonest(c, sweep, w, es[0]);
      CrashSafety(c, sweep, Apply(c, w, es[0]), es[1..]);
    }
  }
}
