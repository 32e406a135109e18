/**
 The multi-benchmark autopsy: adapters that normalise four kinds of record to cases, the ever-best fold over
 all cases, and the counts reported from it.
 */
module EngineerAutopsy {
  import opened Wrappers
  import opened Sequences
  import opened Sorting

  datatype Category =
    | Solved | UnverifiedFix | PartialRecall | IneffectivePatch | Mislocalized | BrokeApp | NoPatch | NoLift
    | Unjudged | NonDiscriminating | Excluded | Refusal | Config | Unclassified | Hallucinated

  const CAPABILITY: set<Category> :=
    {Solved, NoLift, PartialRecall, UnverifiedFix, NoPatch, IneffectivePatch, BrokeApp, Mislocalized}

  function Tier(c: Category): int {
    match c
    case Solved => 6
    case UnverifiedFix => 5
    case PartialRecall => 4
    case IneffectivePatch => 4
    case Mislocalized => 4
    case BrokeApp => 3
    case NoPatch => 3
    case NoLift => 2
    case Unjudged => 1
    case NonDiscriminating => 1
    case Excluded => 1
    case Refusal => 0
    case Config => 0
    case Unclassified => 0
    case Hallucinated => -1
  }

  type Key = (string, string)

  datatype Case = Case(key: Key, category: Category, solved: bool)

  /** What every adapter guarantees: the flag and the category never contradict each other. */
  predicate Coherent(c: Case) {
    c.solved <==> c.category == Solved
  }

  // ----- adapters -----

  /** The operator state read from a record's free text, if any. */
  datatype Note = Plain | Refusing | Misconfigured {
    function Category(): Option<Category> {
      match this
      case Plain => None
      case Refusing => Some(Refusal)
      case Misconfigured => Some(Config)
    }
  }

  datatype CloudEntry = CloudEntry(
    seed: string, disqualified: bool, realTotal: int, agentFound: int, engineFound: int, invented: int,
    liftPaths: Option<int>, verifiedRate: real, discriminating: bool, note: Note)

  const UNVERIFIED_FLOOR := 0.5

  /** A run that can be held against the agent: nothing invented, no operator state, a seed with headroom. */
  predicate Gradeable(e: CloudEntry) {
    e.invented <= 0 && !e.disqualified && e.note.Plain? && e.discriminating
  }

  predicate FoundAll(e: CloudEntry) {
    0 < e.realTotal <= e.agentFound
  }

  function AdaptCloudEngine(e: CloudEntry): (c: Case)
    ensures Coherent(c) && c.key == ("cloud-engine", "seed-" + e.seed)
    ensures c.category == Hallucinated <==> e.invented > 0 || e.disqualified
    ensures c.category == Refusal <==> e.invented <= 0 && !e.disqualified && e.note.Refusing?
    ensures c.category == Config <==> e.invented <= 0 && !e.disqualified && e.note.Misconfigured?
    ensures c.category == NonDiscriminating <==>
              e.invented <= 0 && !e.disqualified && e.note.Plain? && !e.discriminating
    ensures c.category in CAPABILITY <==> Gradeable(e)
    ensures c.category == Solved <==> Gradeable(e) && FoundAll(e) && e.verifiedRate >= UNVERIFIED_FLOOR
    ensures c.category == UnverifiedFix <==> Gradeable(e) && FoundAll(e) && e.verifiedRate < UNVERIFIED_FLOOR
    ensures c.category == NoLift <==>
              && Gradeable(e) && !FoundAll(e)
              && (if e.liftPaths.Some? then e.liftPaths.value <= 0 else e.agentFound <= e.engineFound)
    ensures c.category == PartialRecall <==> Gradeable(e) && !FoundAll(e) && c.category != NoLift
  {
    var key := ("cloud-engine", "seed-" + e.seed);
    var lift := e.liftPaths.GetOr(e.agentFound - e.engineFound);
    if e.disqualified || e.invented > 0 then Case(key, Hallucinated, false)
    else if e.note.Category().Some? then Case(key, e.note.Category().value, false)
    else if !e.discriminating then Case(key, NonDiscriminating, false)
    else
      var solved := e.realTotal > 0 && e.agentFound >= e.realTotal;
      if solved && e.verifiedRate < UNVERIFIED_FLOOR then Case(key, UnverifiedFix, false)
      else if solved then Case(key, Solved, true)
      else if lift <= 0 then Case(key, NoLift, false)
      else Case(key, PartialRecall, false)
  }

  datatype DefenseEntry = DefenseEntry(
    id: string, invented: int, note: Note, pass: bool, expected: int, found: int, closeable: int, captured: int)

  function AdaptDefense(e: DefenseEntry): (c: Case)
    ensures Coherent(c) && c.key == ("defense", e.id)
    ensures c.category == Hallucinated <==> e.invented > 0
    ensures c.category == Refusal <==> e.invented <= 0 && e.note.Refusing?
    ensures c.category == Config <==> e.invented <= 0 && e.note.Misconfigured?
    ensures c.category in CAPABILITY <==> e.invented <= 0 && e.note.Plain?
    ensures c.category in CAPABILITY ==>
              && (c.category == Solved <==> e.pass)
              && (c.category == PartialRecall <==> !e.pass && 0 < e.expected && e.found < e.expected)
              && (c.category == UnverifiedFix <==>
                    !e.pass && !(0 < e.expected && e.found < e.expected) && 0 < e.closeable && e.captured < e.closeable)
              && (c.category == NoLift <==>
                    && !e.pass && (e.expected <= 0 || e.expected <= e.found)
                    && (e.closeable <= 0 || e.closeable <= e.captured))
  {
    var key := ("defense", e.id);
    if e.invented > 0 then Case(key, Hallucinated, false)
    else if e.note.Category().Some? then Case(key, e.note.Category().value, false)
    else if e.pass then Case(key, Solved, true)
    else if e.expected > 0 && e.found < e.expected then Case(key, PartialRecall, false)
    else if e.closeable > 0 && e.captured < e.closeable then Case(key, UnverifiedFix, false)
    else Case(key, NoLift, false)
  }

  datatype Verdict = Remediated | Ineffective | Broke | NoPatchMade | NotVulnerable | ErroredBuild | Other

  datatype ChallengeEntry = ChallengeEntry(id: string, verdict: Verdict, note: Note)

  function AdaptDefenseXbow(e: ChallengeEntry): (c: Case)
    ensures Coherent(c) && c.key == ("defense-xbow", e.id)
    ensures c.category == Solved <==> e.verdict == Remediated
    ensures c.category == IneffectivePatch <==> e.verdict == Ineffective
    ensures c.category == BrokeApp <==> e.verdict == Broke
    ensures c.category == NoPatch <==> e.verdict == NoPatchMade && e.note.Plain?
    ensures c.category == Excluded <==> e.verdict in {NotVulnerable, ErroredBuild}
    ensures c.category == Unclassified <==> e.verdict == Other && e.note.Plain?
    ensures c.category == Refusal <==> e.verdict in {NoPatchMade, Other} && e.note.Refusing?
    ensures c.category == Config <==> e.verdict in {NoPatchMade, Other} && e.note.Misconfigured?
    ensures c.category in CAPABILITY ==> e.verdict !in {NotVulnerable, ErroredBuild, Other}
  {
    var key := ("defense-xbow", e.id);
    match e.verdict
    case Remediated => Case(key, Solved, true)
    case Ineffective => Case(key, IneffectivePatch, false)
    case Broke => Case(key, BrokeApp, false)
    case NoPatchMade => Case(key, e.note.Category().GetOr(NoPatch), false)
    case NotVulnerable => Case(key, Excluded, false)
    case ErroredBuild => Case(key, Excluded, false)
    case Other => Case(key, e.note.Category().GetOr(Unclassified), false)
  }

  datatype Fixed = IsFixed | NotFixed | Unknown

  datatype PatchEntry = PatchEntry(id: string, failed: bool, note: Note, produced: bool, localized: bool, fixed: Fixed)

  function AdaptCvePatch(e: PatchEntry): (c: Case)
    ensures Coherent(c) && c.key == ("cvepatch", e.id)
    ensures c.category == Solved <==> !e.failed && e.produced && e.fixed == IsFixed
    ensures c.category == NoPatch <==> !e.failed && !e.produced
    ensures c.category == Mislocalized <==> !e.failed && e.produced && e.fixed == NotFixed && !e.localized
    ensures c.category == IneffectivePatch <==> !e.failed && e.produced && e.fixed == NotFixed && e.localized
    ensures c.category == Unjudged <==> !e.failed && e.produced && e.fixed == Unknown
    ensures c.category == Excluded <==> e.failed && e.note.Plain?
    ensures c.category == Refusal <==> e.failed && e.note.Refusing?
    ensures c.category == Config <==> e.failed && e.note.Misconfigured?
    ensures c.category in CAPABILITY <==> !e.failed && (!e.produced || e.fixed != Unknown)
  {
    var key := ("cvepatch", e.id);
    if e.failed then Case(key, e.note.Category().GetOr(Excluded), false)
    else if !e.produced then Case(key, NoPatch, false)
    else
      match e.fixed
      case IsFixed => Case(key, Solved, true)
      case NotFixed => Case(key, if !e.localized then Mislocalized else IneffectivePatch, false)
      case Unknown => Case(key, Unjudged, false)
  }

  // ----- the ever-best fold -----

  function Keys(cs: seq<Case>): set<Key> {
    if cs == [] then {} else Keys(cs[..|cs| - 1]) + {cs[|cs| - 1].key}
  }

  function Count(cs: seq<Case>, k: Key): nat {
    if cs == [] then 0 else Count(cs[..|cs| - 1], k) + if cs[|cs| - 1].key == k then 1 else 0
  }

  function Better(earlier: Option<Case>, later: Case): Option<Case> {
    if earlier.None? || Tier(later.category) > Tier(earlier.value.category) then Some(later) else earlier
  }

  function Best(cs: seq<Case>, k: Key): (b: Option<Case>)
    ensures b.Some? <==> k in Keys(cs)
  {
    if cs == [] then None
    else
      var c := cs[|cs| - 1];
      if c.key == k then Better(Best(cs[..|cs| - 1], k), c) else Best(cs[..|cs| - 1], k)
  }

  ghost predicate BestSoFar(cs: seq<Case>, best: map<Key, Case>) {
    best.Keys == Keys(cs) && forall k :: k in best ==> Best(cs, k) == Some(best[k])
  }

  ghost predicate Counted(cs: seq<Case>, attempts: map<Key, nat>) {
    attempts.Keys == Keys(cs) && forall k :: k in attempts ==> attempts[k] == Count(cs, k)
  }

  function Kept(best: map<Key, Case>, c: Case): map<Key, Case> {
    if c.key !in best || Tier(c.category) > Tier(best[c.key].category) then best[c.key := c] else best
  }

  lemma BestSoFarSnoc(cs: seq<Case>, c: Case, best: map<Key, Case>)
    requires BestSoFar(cs, best)
    ensures BestSoFar(cs + [c], Kept(best, c))
  {
    assert (cs + [c])[..|cs|] == cs;
    var best' := Kept(best, c);
    forall k | k in best' ensures Best(cs + [c], k) == Some(best'[k]) {
    }
  }

  lemma {:induction false} Uncounted(cs: seq<Case>, k: Key)
    ensures Count(cs, k) == 0 <==> k !in Keys(cs)
  {
    if cs != [] {
      Uncounted(cs[..|cs| - 1], k);
    }
  }

  lemma CountedSnoc(cs: seq<Case>, c: Case, attempts: map<Key, nat>)
    requires Counted(cs, attempts)
    ensures Counted(cs + [c], attempts[c.key := (if c.key in attempts then attempts[c.key] else 0) + 1])
  {
    assert (cs + [c])[..|cs|] == cs;
    Uncounted(cs, c.key);
  }

  method EverBest(cs: seq<Case>) returns (best: map<Key, Case>, attempts: map<Key, nat>)
    ensures BestSoFar(cs, best) && Counted(cs, attempts)
  {
    best, attempts := map[], map[];
    for i := 0 to |cs|
      invariant BestSoFar(cs[..i], best)
      invariant Counted(cs[..i], attempts)
    {
      var c := cs[i];
      assert cs[..i + 1] == cs[..i] + [c];
      BestSoFarSnoc(cs[..i], c, best);
      CountedSnoc(cs[..i], c, attempts);
      attempts := attempts[c.key := (if c.key in attempts then attempts[c.key] else 0) + 1];
      if c.key !in best || Tier(c.category) > Tier(best[c.key].category) {
        best := best[c.key := c];
      }
    }
    assert cs[..|cs|] == cs;
  }

  /** The kept case has the highest tier of its key and is the first to reach it. */
  lemma {:induction false} BestIsFirstOfHighestTier(cs: seq<Case>, k: Key) returns (i: nat)
    requires k in Keys(cs)
    ensures i < |cs| && cs[i].key == k && Best(cs, k) == Some(cs[i])
    ensures forall j :: 0 <= j < |cs| && cs[j].key == k ==> Tier(cs[j].category) <= Tier(cs[i].category)
    ensures forall j :: 0 <= j < i && cs[j].key == k ==> Tier(cs[j].category) < Tier(cs[i].category)
  {
    var init, c := cs[..|cs| - 1], cs[|cs| - 1];
    if k in Keys(init) {
      i := BestIsFirstOfHighestTier(init, k);
      if c.key == k && Tier(c.category) > Tier(cs[i].category) {
        i := |cs| - 1;
      }
    } else {
      forall j | 0 <= j < |init| ensures cs[j].key != k {
        KeyMember(init, j);
        assert init[j] == cs[j];
      }
      i := |cs| - 1;
    }
  }

  /** What a case can be shown as, from the strongest outcome down; within a row the first run met is shown. */
  const STRENGTH: seq<set<Category>> := [
    {Solved},
    {UnverifiedFix},
    {PartialRecall, IneffectivePatch, Mislocalized},
    {BrokeApp, NoPatch},
    {NoLift},
    {Unjudged, NonDiscriminating, Excluded},
    {Refusal, Config, Unclassified},
    {Hallucinated}
  ]

  /** Of two runs of a case, the stronger one is shown, whichever came first; of two equally strong ones, the first. */
  lemma {:induction false} StrongerIsShown(a: Case, b: Case, i: nat, j: nat)
    requires i < |STRENGTH| && j < |STRENGTH| && a.category in STRENGTH[i] && b.category in STRENGTH[j]
    requires a.key == b.key
    ensures Best([a, b], a.key) == Some(if j < i then b else a)
  {
    assert [a, b][..1] == [a] && [a][..0] == [];
    assert Best([a], a.key) == Some(a);
    TierOf(a.category, i);
    TierOf(b.category, j);
  }

  lemma {:induction false} TierOf(c: Category, i: nat)
    requires i < |STRENGTH| && c in STRENGTH[i]
    ensures Tier(c) == 6 - i
  {
  }

  lemma {:induction false} EveryCategoryHasAStrength(c: Category)
    ensures exists i :: 0 <= i < |STRENGTH| && c in STRENGTH[i]
  {
    var i := 6 - Tier(c);
    assert c in STRENGTH[i];
  }

  lemma {:induction false} KeyMember(cs: seq<Case>, j: nat)
    requires j < |cs|
    ensures cs[j].key in Keys(cs)
  {
    if j < |cs| - 1 {
      KeyMember(cs[..|cs| - 1], j);
    }
  }

  // ----- the reported numbers -----

  datatype Numbers = Numbers(solved: nat, miss: nat, evald: nat, total: nat)

  predicate InBench(k: Key, bench: Option<string>) {
    bench.None? || bench == Some(k.0)
  }

  function Part(best: map<Key, Case>, bench: Option<string>): set<Key> {
    set k | k in best && InBench(k, bench)
  }

  function SolvedIn(best: map<Key, Case>, part: set<Key>): set<Key> {
    set k | k in part && k in best && best[k].solved
  }

  function MissedIn(best: map<Key, Case>, part: set<Key>): set<Key> {
    set k | k in part && k in best && !best[k].solved
  }

  function EvaluatedIn(best: map<Key, Case>, part: set<Key>): set<Key> {
    set k | k in part && k in best && best[k].category in CAPABILITY
  }

  function Sizes(best: map<Key, Case>, part: set<Key>): Numbers {
    Numbers(|SolvedIn(best, part)|, |MissedIn(best, part)|, |EvaluatedIn(best, part)|, |part|)
  }

  /** The numbers over one benchmark, or over all of them. */
  function Report(best: map<Key, Case>, bench: Option<string>): Numbers {
    Sizes(best, Part(best, bench))
  }

  function Tallied(n: Numbers, c: Case): Numbers {
    Numbers(n.solved + if c.solved then 1 else 0, n.miss + if c.solved then 0 else 1,
            n.evald + if c.category in CAPABILITY then 1 else 0, n.total + 1)
  }

  lemma OneMoreSolved(best: map<Key, Case>, seen: set<Key>, k: Key)
    requires k in best && k !in seen
    ensures |SolvedIn(best, seen + {k})| == |SolvedIn(best, seen)| + if best[k].solved then 1 else 0
  {
    if best[k].solved {
      assert SolvedIn(best, seen + {k}) == SolvedIn(best, seen) + {k};
    } else {
      assert SolvedIn(best, seen + {k}) == SolvedIn(best, seen);
    }
  }

  lemma OneMoreMissed(best: map<Key, Case>, seen: set<Key>, k: Key)
    requires k in best && k !in seen
    ensures |MissedIn(best, seen + {k})| == |MissedIn(best, seen)| + if best[k].solved then 0 else 1
  {
    if best[k].solved {
      assert MissedIn(best, seen + {k}) == MissedIn(best, seen);
    } else {
      assert MissedIn(best, seen + {k}) == MissedIn(best, seen) + {k};
    }
  }

  lemma OneMoreEvaluated(best: map<Key, Case>, seen: set<Key>, k: Key)
    requires k in best && k !in seen
    ensures |EvaluatedIn(best, seen + {k})| ==
            |EvaluatedIn(best, seen)| + if best[k].category in CAPABILITY then 1 else 0
  {
    if best[k].category in CAPABILITY {
      assert EvaluatedIn(best, seen + {k}) == EvaluatedIn(best, seen) + {k};
    } else {
      assert EvaluatedIn(best, seen + {k}) == EvaluatedIn(best, seen);
    }
  }

  lemma OneMoreCase(best: map<Key, Case>, seen: set<Key>, k: Key)
    requires k in best && k !in seen
    ensures Sizes(best, seen + {k}) == Tallied(Sizes(best, seen), best[k])
  {
    OneMoreSolved(best, seen, k);
    OneMoreMissed(best, seen, k);
    OneMoreEvaluated(best, seen, k);
  }

  /** Every reported case is solved or missed, never both. */
  lemma SolvedOrMissed(best: map<Key, Case>, bench: Option<string>)
    ensures Report(best, bench).solved + Report(best, bench).miss == Report(best, bench).total
  {
    var part := Part(best, bench);
    assert part == SolvedIn(best, part) + MissedIn(best, part);
  }

  // ----- the roll-up -----

  /** Python's tuple order on (benchmark, case). */
  predicate KeyBefore(a: Key, b: Key) {
    if a.0 != b.0 then Before(a.0, b.0) else Before(a.1, b.1)
  }

  lemma KeyBeforeOrders()
    ensures StrictWeak(KeyBefore)
  {
    forall a: string, b: string { BeforeTotal(a, b); }
    forall a: string, b: string, c: string { BeforeTransitive(a, b, c); }
  }

  /** The counters after the cases listed so far. */
  function CountsOver(best: map<Key, Case>, order: seq<Key>, bench: Option<string>): Numbers {
    if order == [] then Numbers(0, 0, 0, 0)
    else
      var before, k := CountsOver(best, order[..|order| - 1], bench), order[|order| - 1];
      if k in best && InBench(k, bench) then Tallied(before, best[k]) else before
  }

  /** The unsolved cases of a category, in listing order. */
  function FailuresOver(best: map<Key, Case>, order: seq<Key>, category: Category): seq<Key> {
    if order == [] then []
    else
      var before, k := FailuresOver(best, order[..|order| - 1], category), order[|order| - 1];
      if k in best && !best[k].solved && best[k].category == category then before + [k] else before
  }

  function Failures(best: map<Key, Case>, category: Category): set<Key> {
    set k | k in best && !best[k].solved && best[k].category == category
  }

  lemma {:induction false} CountsAreSizes(best: map<Key, Case>, order: seq<Key>, bench: Option<string>)
    requires Distinct(order)
    ensures CountsOver(best, order, bench) == Sizes(best, Listed(best, order, bench))
  {
    if order == [] {
      NoCases(best);
      assert Listed(best, order, bench) == {};
    } else {
      var init, k := order[..|order| - 1], order[|order| - 1];
      assert order == init + [k] && k !in init;
      CountsAreSizes(best, init, bench);
      ListedSnoc(best, init, bench, k);
      if k in best && InBench(k, bench) {
        OneMoreCase(best, Listed(best, init, bench), k);
      }
    }
  }

  /** The reported cases among those listed so far. */
  function Listed(best: map<Key, Case>, order: seq<Key>, bench: Option<string>): set<Key> {
    set k | k in order && k in best && InBench(k, bench)
  }

  lemma ListedSnoc(best: map<Key, Case>, order: seq<Key>, bench: Option<string>, k: Key)
    ensures Listed(best, order + [k], bench) ==
            Listed(best, order, bench) + if k in best && InBench(k, bench) then {k} else {}
  {
  }

  lemma NoCases(best: map<Key, Case>)
    ensures Sizes(best, {}) == Numbers(0, 0, 0, 0)
  {
    assert SolvedIn(best, {}) == {} && MissedIn(best, {}) == {} && EvaluatedIn(best, {}) == {};
  }

  /** Whatever order lists the cases, the counters come to the sizes of the reported sets. */
  lemma CountsAreReport(best: map<Key, Case>, order: seq<Key>, bench: Option<string>)
    requires Lists(order, best.Keys)
    ensures CountsOver(best, order, bench) == Report(best, bench)
  {
    CountsAreSizes(best, order, bench);
    assert Listed(best, order, bench) == Part(best, bench);
  }

  lemma {:induction false} FailureMember(best: map<Key, Case>, order: seq<Key>, category: Category, k: Key)
    ensures k in FailuresOver(best, order, category) <==> k in order && k in Failures(best, category)
  {
    if order != [] {
      assert order == order[..|order| - 1] + [order[|order| - 1]];
      FailureMember(best, order[..|order| - 1], category, k);
    }
  }

  /** A category's failures keep the order, and the distinctness, of the listing. */
  lemma {:induction false} FailuresInOrder(best: map<Key, Case>, order: seq<Key>, category: Category)
    requires Distinct(order) && Sorted(order, KeyBefore)
    ensures Distinct(FailuresOver(best, order, category)) && Sorted(FailuresOver(best, order, category), KeyBefore)
  {
    if order != [] {
      var init, k := order[..|order| - 1], order[|order| - 1];
      assert order == init + [k] && k !in init;
      FailuresInOrder(best, init, category);
      var before := FailuresOver(best, init, category);
      forall i | 0 <= i < |before| ensures before[i] != k && !KeyBefore(k, before[i]) {
        FailureMember(best, init, category, before[i]);
        var j :| 0 <= j < |init| && init[j] == before[i];
        assert order[j] == before[i];
      }
    }
  }

  /** What the two dictionaries hold after the cases listed so far: no entry without a case. */
  ghost predicate CountsHold(perBench: map<string, Numbers>, best: map<Key, Case>, order: seq<Key>) {
    forall b :: if b in perBench
                then perBench[b] == CountsOver(best, order, Some(b)) && perBench[b].total > 0
                else CountsOver(best, order, Some(b)) == Numbers(0, 0, 0, 0)
  }

  ghost predicate FailuresHold(cats: map<Category, seq<Key>>, best: map<Key, Case>, order: seq<Key>) {
    forall c :: if c in cats
                then cats[c] == FailuresOver(best, order, c) && cats[c] != []
                else FailuresOver(best, order, c) == []
  }

  lemma CountsHoldSnoc(perBench: map<string, Numbers>, best: map<Key, Case>, order: seq<Key>, k: Key)
    requires CountsHold(perBench, best, order) && k in best
    ensures var before := if k.0 in perBench then perBench[k.0] else Numbers(0, 0, 0, 0);
            CountsHold(perBench[k.0 := Tallied(before, best[k])], best, order + [k])
  {
    assert (order + [k])[..|order|] == order;
  }

  lemma FailuresHoldSnoc(cats: map<Category, seq<Key>>, best: map<Key, Case>, order: seq<Key>, k: Key)
    requires FailuresHold(cats, best, order) && k in best
    ensures var c := best[k].category;
            FailuresHold(
              if best[k].solved then cats else cats[c := (if c in cats then cats[c] else []) + [k]], best, order + [k])
  {
    assert (order + [k])[..|order|] == order;
  }

  /** Every benchmark with a case has its numbers, every category with a failure its failures in key order. */
  ghost predicate RolledUp(perBench: map<string, Numbers>, cats: map<Category, seq<Key>>, best: map<Key, Case>) {
    && (forall b :: b in perBench <==> exists k :: k in best && k.0 == b)
    && (forall b :: b in perBench ==> perBench[b] == Report(best, Some(b)))
    && (forall c :: c in cats <==> Failures(best, c) != {})
    && (forall c :: c in cats ==> Lists(cats[c], Failures(best, c)) && Sorted(cats[c], KeyBefore))
  }

  ghost predicate Rolled(
    perBench: map<string, Numbers>, cats: map<Category, seq<Key>>, best: map<Key, Case>, order: seq<Key>)
  {
    CountsHold(perBench, best, order) && FailuresHold(cats, best, order)
  }

  lemma NothingRolled(best: map<Key, Case>)
    ensures Rolled(map[], map[], best, [])
  {
  }

  lemma RolledSnoc(
    perBench: map<string, Numbers>, cats: map<Category, seq<Key>>, best: map<Key, Case>, order: seq<Key>, k: Key)
    requires Rolled(perBench, cats, best, order) && k in best
    ensures var before := if k.0 in perBench then perBench[k.0] else Numbers(0, 0, 0, 0);
            var c := best[k].category;
            Rolled(
              perBench[k.0 := Tallied(before, best[k])],
              if best[k].solved then cats else cats[c := (if c in cats then cats[c] else []) + [k]], best, order + [k])
  {
    CountsHoldSnoc(perBench, best, order, k);
    FailuresHoldSnoc(cats, best, order, k);
  }

  method SortedKeys(best: map<Key, Case>) returns (order: seq<Key>)
    ensures Lists(order, best.Keys) && Sorted(order, KeyBefore)
  {
    var keys := ListOf(best.Keys);
    KeyBeforeOrders();
    SortSorts(keys, KeyBefore);
    SortedStillLists(keys, best.Keys, KeyBefore);
    order := Sort(keys, KeyBefore);
  }

  /** The roll-up loop over the sorted cases. */
  method RollUp(best: map<Key, Case>) returns (perBench: map<string, Numbers>, cats: map<Category, seq<Key>>)
    ensures RolledUp(perBench, cats, best)
  {
    var order := SortedKeys(best);
    perBench, cats := map[], map[];
    ghost var seen: seq<Key> := [];
    NothingRolled(best);
    for i := 0 to |order|
      invariant seen == order[..i]
      invariant Rolled(perBench, cats, best, seen)
    {
      var k := order[i];
      assert k in order;
      RolledSnoc(perBench, cats, best, seen, k);
      seen := seen + [k];
      var c := best[k];
      var before := if k.0 in perBench then perBench[k.0] else Numbers(0, 0, 0, 0);
      perBench := perBench[k.0 := Tallied(before, c)];
      if !c.solved {
        cats := cats[c.category := (if c.category in cats then cats[c.category] else []) + [k]];
      }
    }
    assert seen == order;
    RollUpMeans(best, order, perBench, cats);
  }

  /** Read off the finished dictionaries. */
  lemma {:induction false} RollUpMeans(
    best: map<Key, Case>, order: seq<Key>, perBench: map<string, Numbers>, cats: map<Category, seq<Key>>)
    requires Lists(order, best.Keys) && Sorted(order, KeyBefore)
    requires Rolled(perBench, cats, best, order)
    ensures RolledUp(perBench, cats, best)
  {
    forall b ensures b in perBench <==> exists k :: k in best && k.0 == b
      ensures b in perBench ==> perBench[b] == Report(best, Some(b))
    {
      CountsAreReport(best, order, Some(b));
      BenchHasCases(best, b);
    }
    forall c ensures c in cats <==> Failures(best, c) != {}
      ensures c in cats ==> Lists(cats[c], Failures(best, c)) && Sorted(cats[c], KeyBefore)
    {
      FailuresAreListed(best, order, c);
    }
  }

  lemma BenchHasCases(best: map<Key, Case>, b: string)
    ensures Report(best, Some(b)).total > 0 <==> exists k :: k in best && k.0 == b
    ensures Report(best, Some(b)).total == 0 ==> Report(best, Some(b)) == Numbers(0, 0, 0, 0)
  {
    var part := Part(best, Some(b));
    if part == {} {
      NoCases(best);
      forall k | k in best ensures k.0 != b {
        assert k !in part;
      }
    } else {
      var k :| k in part;
      assert k in best && k.0 == b;
    }
  }

  lemma FailuresAreListed(best: map<Key, Case>, order: seq<Key>, c: Category)
    requires Lists(order, best.Keys) && Sorted(order, KeyBefore)
    ensures Lists(FailuresOver(best, order, c), Failures(best, c)) && Sorted(FailuresOver(best, order, c), KeyBefore)
    ensures FailuresOver(best, order, c) == [] <==> Failures(best, c) == {}
  {
    FailuresInOrder(best, order, c);
    var listed := FailuresOver(best, order, c);
    forall k ensures k in listed <==> k in Failures(best, c) {
      FailureMember(best, order, c, k);
    }
    if listed != [] {
      assert listed[0] in listed;
    } else {
      forall k ensures k !in Failures(best, c) {
        assert k !in listed;
      }
    }
  }

  /** How a category's failures read: by benchmark, and within a benchmark by case, both in character order. */
  lemma {:induction false} FailuresRead(
    cats: map<Category, seq<Key>>, best: map<Key, Case>, c: Category, i: nat, j: nat)
    requires (exists perBench :: RolledUp(perBench, cats, best)) && c in cats && i < j < |cats[c]|
    ensures var (k, l) := (cats[c][i], cats[c][j]); Before(k.0, l.0) || (k.0 == l.0 && Before(k.1, l.1))
  {
    var k, l := cats[c][i], cats[c][j];
    assert !KeyBefore(l, k) && k != l;
    BeforeTotal(k.0, l.0);
    BeforeTotal(k.1, l.1);
  }

  /** The totals at the end, over the cases in any order. */
  method Totals(best: map<Key, Case>) returns (n: Numbers)
    ensures n == Report(best, None)
  {
    var order := ListOf(best.Keys);
    var solved, miss, evald := 0, 0, 0;
    for i := 0 to |order|
      invariant Numbers(solved, miss, evald, i) == CountsOver(best, order[..i], None)
    {
      assert order[..i + 1][..i] == order[..i] && order[i] in order;
      var c := best[order[i]];
      if c.solved {
        solved := solved + 1;
      } else {
        miss := miss + 1;
      }
      if c.category in CAPABILITY {
        evald := evald + 1;
      }
    }
    assert order[..|order|] == order;
    CountsAreReport(best, order, None);
    n := Numbers(solved, miss, evald, |order|);
  }

  ghost predicate AllCoherent(cs: seq<Case>) {
    forall c :: c in cs ==> Coherent(c)
  }

  /** Capability outcomes are exactly the cases of tier two and above, and solving is the only tier of six. */
  lemma TiersSeparate(c: Category)
    ensures c in CAPABILITY <==> Tier(c) >= 2
    ensures c == Solved <==> Tier(c) >= 6
  {
  }

  /** A key's best case is solved, or a capability outcome, exactly when some case of the key is. */
  lemma {:induction false} BestReflectsAny(cs: seq<Case>, k: Key)
    requires AllCoherent(cs) && k in Keys(cs)
    ensures Best(cs, k).value.solved <==> exists c :: c in cs && c.key == k && c.solved
    ensures Best(cs, k).value.category in CAPABILITY <==> exists c :: c in cs && c.key == k && c.category in CAPABILITY
  {
    var i := BestIsFirstOfHighestTier(cs, k);
    assert cs[i] in cs;
    TiersSeparate(cs[i].category);
    forall c | c in cs && c.key == k
      ensures c.solved ==> cs[i].solved
      ensures c.category in CAPABILITY ==> cs[i].category in CAPABILITY
    {
      TiersSeparate(c.category);
    }
  }

  lemma {:induction false} KeysAre(cs: seq<Case>, k: Key)
    ensures k in Keys(cs) <==> exists c :: c in cs && c.key == k
  {
    if cs != [] {
      assert cs == cs[..|cs| - 1] + [cs[|cs| - 1]];
      KeysAre(cs[..|cs| - 1], k);
    }
  }

  /** Adding cases, in any order, never lowers a reported count. */
  lemma CountsNeverFall(
    cs: seq<Case>, more: seq<Case>, best: map<Key, Case>, best': map<Key, Case>, bench: Option<string>)
    requires AllCoherent(more) && forall c :: c in cs ==> c in more
    requires BestSoFar(cs, best) && BestSoFar(more, best')
    ensures Report(best, bench).solved <= Report(best', bench).solved
    ensures Report(best, bench).evald <= Report(best', bench).evald
    ensures Report(best, bench).total <= Report(best', bench).total
  {
    var part, part' := Part(best, bench), Part(best', bench);
    forall k | k in best
      ensures k in best' && (best[k].solved ==> best'[k].solved)
      ensures best[k].category in CAPABILITY ==> best'[k].category in CAPABILITY
    {
      KeysAre(cs, k);
      KeysAre(more, k);
      BestReflectsAny(cs, k);
      BestReflectsAny(more, k);
    }
    SubsetSize(part, part');
    SubsetSize(SolvedIn(best, part), SolvedIn(best', part'));
    SubsetSize(EvaluatedIn(best, part), EvaluatedIn(best', part'));
  }

  /** The numbers do not depend on the order in which the files are read, or on repeated records. */
  lemma OrderFree(cs: seq<Case>, cs': seq<Case>, best: map<Key, Case>, best': map<Key, Case>, bench: Option<string>)
    requires AllCoherent(cs) && forall c :: c in cs <==> c in cs'
    requires BestSoFar(cs, best) && BestSoFar(cs', best')
    ensures Report(best, bench) == Report(best', bench)
  {
    CountsNeverFall(cs, cs', best, best', bench);
    CountsNeverFall(cs', cs, best', best, bench);
    SolvedOrMissed(best, bench);
    SolvedOrMissed(best', bench);
  }

  /** The category shown for a tie does depend on the order. */
  lemma TiedCategoryDependsOnOrder()
    ensures exists a, b, k :: Best([a, b], k).Some? && Best([b, a], k).Some?
                              && Best([a, b], k).value.category != Best([b, a], k).value.category
  {
    var k := ("cvepatch", "x");
    var a, b := Case(k, Mislocalized, false), Case(k, IneffectivePatch, false);
    assert [a, b][..1] == [a] && [b, a][..1] == [b];
    assert [a][..0] == [] && [b][..0] == [];
    assert Best([a], k) == Some(a) && Best([b], k) == Some(b);
    assert Best([a, b], k) == Some(a) && Best([b, a], k) == Some(b);
  }

  /** An invented finding disqualifies a run, but it stays visible only if every run of the case invented one. */
  lemma {:induction false} HallucinationShownIffAlways(cs: seq<Case>, k: Key)
    requires k in Keys(cs)
    ensures Best(cs, k).value.category == Hallucinated <==>
            forall c :: c in cs && c.key == k ==> c.category == Hallucinated
  {
    var i := BestIsFirstOfHighestTier(cs, k);
    assert cs[i] in cs;
    LowestTier(cs[i].category);
    forall c | c in cs && c.key == k && cs[i].category == Hallucinated ensures c.category == Hallucinated {
      LowestTier(c.category);
    }
  }

  /** One run that invented a finding and one that was refused: the case is shown as a refusal. */
  lemma HallucinationHidden(k: Key) returns (cs: seq<Case>)
    ensures AllCoherent(cs) && exists c :: c in cs && c.key == k && c.category == Hallucinated
    ensures Best(cs, k) == Some(Case(k, Refusal, false))
  {
    var a, b := Case(k, Hallucinated, false), Case(k, Refusal, false);
    cs := [a, b];
    assert a in cs;
    assert [a][..0] == [] && cs[..1] == [a];
    assert Best([a], k) == Some(a);
  }

  lemma LowestTier(c: Category)
    ensures c == Hallucinated <==> Tier(c) < 0
  {
  }

  /** Within every benchmark, and overall: solved cases are evaluated cases, and those are cases. */
  lemma SolvedWithinEvaluated(cs: seq<Case>, best: map<Key, Case>, bench: Option<string>)
    requires AllCoherent(cs) && BestSoFar(cs, best)
    ensures var n := Report(best, bench); n.solved <= n.evald <= n.total
  {
    var part := Part(best, bench);
    forall k | k in part && best[k].solved ensures best[k].category in CAPABILITY {
      var i := BestIsFirstOfHighestTier(cs, k);
      assert cs[i] in cs;
    }
    SubsetSize(SolvedIn(best, part), EvaluatedIn(best, part));
    SubsetSize(EvaluatedIn(best, part), part);
  }

  function SumOfTotals(best: map<Key, Case>, benches: seq<string>): nat {
    if benches == [] then 0
    else SumOfTotals(best, benches[..|benches| - 1]) + Report(best, Some(benches[|benches| - 1])).total
  }

  /** The per-benchmark totals add up to the number of distinct cases. */
  lemma {:induction false} TotalsAddUp(best: map<Key, Case>, benches: seq<string>)
    requires Distinct(benches) && forall k: Key :: k in best ==> k.0 in benches
    ensures SumOfTotals(best, benches) == |best|
  {
    TotalsOver(best, benches);
    assert Covered(best, benches) == best.Keys;
  }

  function Covered(best: map<Key, Case>, benches: seq<string>): set<Key> {
    set k: Key | k in best && k.0 in benches
  }

  lemma {:induction false} TotalsOver(best: map<Key, Case>, benches: seq<string>)
    requires Distinct(benches)
    ensures SumOfTotals(best, benches) == |Covered(best, benches)|
  {
    if benches == [] {
      assert Covered(best, benches) == {};
    } else {
      var init, b := benches[..|benches| - 1], benches[|benches| - 1];
      assert benches == init + [b] && b !in init;
      TotalsOver(best, init);
      OneMoreBench(best, init, b);
    }
  }

  lemma OneMoreBench(best: map<Key, Case>, benches: seq<string>, b: string)
    requires b !in benches
    ensures |Covered(best, benches + [b])| == |Covered(best, benches)| + Report(best, Some(b)).total
  {
    var earlier, own := Covered(best, benches), Part(best, Some(b));
    assert earlier * own == {};
    assert Covered(best, benches + [b]) == earlier + own;
  }

  function SumOfAttempts(cs: seq<Case>, keys: seq<Key>): nat {
    if keys == [] then 0 else SumOfAttempts(cs, keys[..|keys| - 1]) + Count(cs, keys[|keys| - 1])
  }

  lemma {:induction false} OneMoreAttempt(cs: seq<Case>, c: Case, keys: seq<Key>)
    requires Distinct(keys)
    ensures SumOfAttempts(cs + [c], keys) == SumOfAttempts(cs, keys) + if c.key in keys then 1 else 0
  {
    if keys != [] {
      var init, k := keys[..|keys| - 1], keys[|keys| - 1];
      assert keys == init + [k] && k !in init;
      OneMoreAttempt(cs, c, init);
      assert (cs + [c])[..|cs|] == cs;
    }
  }

  /** The attempt counts add up to the number of cases read. */
  lemma {:induction false} AttemptsAddUp(cs: seq<Case>, keys: seq<Key>)
    requires Distinct(keys) && forall c :: c in cs ==> c.key in keys
    ensures SumOfAttempts(cs, keys) == |cs|
  {
    if cs == [] {
      NoAttempts(keys);
    } else {
      var init, c := cs[..|cs| - 1], cs[|cs| - 1];
      assert cs == init + [c];
      AttemptsAddUp(init, keys);
      OneMoreAttempt(init, c, keys);
    }
  }

  lemma {:induction false} NoAttempts(keys: seq<Key>)
    ensures SumOfAttempts([], keys) == 0
  {
    if keys != [] {
      NoAttempts(keys[..|keys| - 1]);
    }
  }
}
