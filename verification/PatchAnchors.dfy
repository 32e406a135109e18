/**
 The two extractors of "anchors", the distinctive lines a fix removed: one differences two whole files, the
 other reads a git diff line by line. Both are compared on the diffs that an edit script can be rendered as.
 */
module PatchAnchors {
  import opened Wrappers
  import opened Sequences
  import opened Text

  const MIN_LENGTH := 12
  const CAP := 40

  function Strip(line: string): string {
    Trim(line, PY_SPACE)
  }

  /** Indentation and trailing space do not count. */
  lemma {:induction false} StripSurrounded(pre: string, s: string, post: string)
    requires Only(pre, PY_SPACE) && Only(post, PY_SPACE)
    requires s != "" ==> s[0] !in PY_SPACE && s[|s| - 1] !in PY_SPACE
    ensures Strip(pre + s + post) == s
  {
    TrimSurrounded(pre, s, post, PY_SPACE);
  }

  // ----- differencing whole files -----

  function StripSet(lines: seq<string>): set<string> {
    set l | l in lines :: Strip(l)
  }

  /** The long stripped lines that are not among the fixed file's, with repetitions. */
  function Lost(vuln: seq<string>, gold: set<string>): seq<string> {
    if vuln == [] then []
    else
      var s := Strip(vuln[|vuln| - 1]);
      Lost(vuln[..|vuln| - 1], gold) + if |s| >= MIN_LENGTH && s !in gold then [s] else []
  }

  /** A text is lost when some line of the vulnerable file strips to it, it is long, and no fixed line does. */
  lemma {:induction false} LostMember(vuln: seq<string>, gold: set<string>, s: string)
    ensures s in Lost(vuln, gold) <==> |s| >= 12 && s !in gold && exists l :: l in vuln && Strip(l) == s
  {
    if vuln != [] {
      assert vuln == vuln[..|vuln| - 1] + [vuln[|vuln| - 1]];
      LostMember(vuln[..|vuln| - 1], gold, s);
    }
  }

  function Between(vuln: seq<string>, gold: seq<string>): seq<string> {
    Unique(Lost(vuln, StripSet(gold)))
  }

  method AnchorsBetween(vuln: seq<string>, gold: seq<string>) returns (out: seq<string>)
    ensures out == Between(vuln, gold)[..if |Between(vuln, gold)| < CAP then |Between(vuln, gold)| else CAP]
  {
    var goldLines := StripSet(gold);
    out := [];
    for i := 0 to |vuln|
      invariant out == Unique(Lost(vuln[..i], goldLines))
    {
      var s := Strip(vuln[i]);
      assert vuln[..i + 1][..i] == vuln[..i];
      UniqueSnoc(Lost(vuln[..i], goldLines), s);
      assert Lost(vuln[..i], goldLines) + [] == Lost(vuln[..i], goldLines);
      if |s| >= MIN_LENGTH && s !in goldLines && s !in out {
        out := out + [s];
      }
    }
    assert vuln[..|vuln|] == vuln;
    if |out| > CAP {
      out := out[..CAP];
    }
  }

  // ----- reading a git diff -----

  const HEADER := "diff --git a/"

  /** The length of the longest prefix without white space. */
  function WordLength(s: string): (n: nat)
    ensures n <= |s|
  {
    if s == [] || s[0] in PY_SPACE then 0 else 1 + WordLength(s[1..])
  }

  /** The new path named by a "diff --git" line, matched as the regular expression matches it. */
  function HeaderPath(line: string): Option<string> {
    if !(HEADER <= line) then None
    else
      var rest := line[|HEADER|..];
      var n := WordLength(rest);
      if n == 0 || !(" b/" <= rest[n..]) then None
      else
        var path := rest[n + 3..];
        var m := WordLength(path);
        if m == 0 then None else Some(path[..m])
  }

  datatype State = State(anchors: map<string, seq<string>>, current: Option<string>)

  /** A removed line's contribution; a line starting with "---" is taken for a file header. */
  predicate Removed(line: string) {
    "-" <= line && !("---" <= line)
  }

  function StepLine(st: State, keep: set<string>, line: string): State {
    match HeaderPath(line)
    case Some(path) => st.(current := if path in keep then Some(path) else None)
    case None =>
      if st.current.None? || !Removed(line) || |Strip(line[1..])| < MIN_LENGTH then st
      else st.(anchors := Extend(st.anchors, st.current.value, [Strip(line[1..])]))
  }

  function AnchorsOf(anchors: map<string, seq<string>>, path: string): seq<string> {
    if path in anchors then anchors[path] else []
  }

  function Extend(anchors: map<string, seq<string>>, path: string, xs: seq<string>): map<string, seq<string>> {
    if xs == [] then anchors else anchors[path := PushAll(AnchorsOf(anchors, path), xs)]
  }

  function Scan(st: State, keep: set<string>, patch: seq<string>): State
    decreases |patch|
  {
    if patch == [] then st else Scan(StepLine(st, keep, patch[0]), keep, patch[1..])
  }

  lemma ExtendByOne(anchors: map<string, seq<string>>, path: string, x: string)
    ensures Extend(anchors, path, [x]) == anchors[path := Push(AnchorsOf(anchors, path), x)]
  {
    PushAllSnoc(AnchorsOf(anchors, path), [], x);
    assert [] + [x] == [x];
  }

  const START := State(map[], None)

  method GoldAnchors(patch: seq<string>, keep: set<string>) returns (anchors: map<string, seq<string>>)
    ensures anchors == Scan(START, keep, patch).anchors
  {
    anchors := map[];
    var current: Option<string> := None;
    for i := 0 to |patch|
      invariant Scan(START, keep, patch) == Scan(State(anchors, current), keep, patch[i..])
    {
      var line := patch[i];
      assert patch[i..][0] == line && patch[i..][1..] == patch[i + 1..];
      var m := HeaderPath(line);
      if m.Some? {
        current := if m.value in keep then Some(m.value) else None;
        continue;
      }
      if current.None? || !("-" <= line) || "---" <= line {
        continue;
      }
      var body := Strip(line[1..]);
      if |body| >= MIN_LENGTH {
        var path := current.value;
        ghost var extended := Extend(anchors, path, [body]);
        ExtendByOne(anchors, path, body);
        if path !in anchors {
          anchors := anchors[path := []];
        }
        if body !in anchors[path] {
          anchors := anchors[path := anchors[path] + [body]];
        }
        assert anchors == extended;
      }
    }
  }

  lemma {:induction false} ScanConcat(st: State, keep: set<string>, a: seq<string>, b: seq<string>)
    ensures Scan(st, keep, a + b) == Scan(Scan(st, keep, a), keep, b)
    decreases |a|
  {
    if a == [] {
      assert a + b == b;
    } else {
      assert (a + b)[1..] == a[1..] + b;
      ScanConcat(StepLine(st, keep, a[0]), keep, a[1..], b);
    }
  }

  lemma ExtendConcat(anchors: map<string, seq<string>>, path: string, a: seq<string>, b: seq<string>)
    ensures Extend(Extend(anchors, path, a), path, b) == Extend(anchors, path, a + b)
  {
    PushAllConcat(AnchorsOf(anchors, path), a, b);
    if a == [] {
      assert a + b == b;
    } else if b == [] {
      assert a + b == a;
    }
  }

  // ----- edit scripts and their diffs -----

  /**
   One step of an edit script: a common line, shown as context or skipped between hunks, a removed line, an
   added line, or a diff line that belongs to neither file (a hunk header, or the missing-newline note).
   */
  datatype Op = Keep(line: string, shown: bool) | Del(line: string) | Add(line: string) | Mark(text: string)

  function OldLine(op: Op): seq<string> {
    match op
    case Keep(l, _) => [l]
    case Del(l) => [l]
    case _ => []
  }

  function NewLine(op: Op): seq<string> {
    match op
    case Keep(l, _) => [l]
    case Add(l) => [l]
    case _ => []
  }

  function Vuln(ops: seq<Op>): seq<string> {
    if ops == [] then [] else OldLine(ops[0]) + Vuln(ops[1..])
  }

  function Gold(ops: seq<Op>): seq<string> {
    if ops == [] then [] else NewLine(ops[0]) + Gold(ops[1..])
  }

  /** Any two files are related by an edit script. */
  lemma {:induction false} ScriptExists(vuln: seq<string>, gold: seq<string>) returns (ops: seq<Op>)
    ensures Vuln(ops) == vuln && Gold(ops) == gold
    ensures forall op :: op in ops ==> op.Del? || op.Add?
    decreases |vuln| + |gold|
  {
    if vuln != [] {
      var rest := ScriptExists(vuln[1..], gold);
      ops := [Del(vuln[0])] + rest;
      assert ops[1..] == rest && vuln == [vuln[0]] + vuln[1..];
    } else if gold != [] {
      var rest := ScriptExists(vuln, gold[1..]);
      ops := [Add(gold[0])] + rest;
      assert ops[1..] == rest && gold == [gold[0]] + gold[1..];
    } else {
      ops := [];
    }
  }

  /** Two scripts one after the other edit the two files one after the other. */
  lemma {:induction false} VulnConcat(a: seq<Op>, b: seq<Op>)
    ensures Vuln(a + b) == Vuln(a) + Vuln(b)
  {
    if a == [] {
      assert a + b == b;
    } else {
      assert (a + b)[1..] == a[1..] + b && (a + b)[0] == a[0];
      VulnConcat(a[1..], b);
      assert (OldLine(a[0]) + Vuln(a[1..])) + Vuln(b) == OldLine(a[0]) + (Vuln(a[1..]) + Vuln(b));
    }
  }

  lemma {:induction false} GoldConcat(a: seq<Op>, b: seq<Op>)
    ensures Gold(a + b) == Gold(a) + Gold(b)
  {
    if a == [] {
      assert a + b == b;
    } else {
      assert (a + b)[1..] == a[1..] + b && (a + b)[0] == a[0];
      GoldConcat(a[1..], b);
      assert (NewLine(a[0]) + Gold(a[1..])) + Gold(b) == NewLine(a[0]) + (Gold(a[1..]) + Gold(b));
    }
  }

  /** What is removed, and what the diff reader takes of it, comes in file order. */
  lemma {:induction false} RemovalsConcat(a: seq<Op>, b: seq<Op>)
    ensures Removals(a + b) == Removals(a) + Removals(b)
  {
    if a == [] {
      assert a + b == b;
    } else {
      assert (a + b)[1..] == a[1..] + b && (a + b)[0] == a[0];
      RemovalsConcat(a[1..], b);
      assert (Removal(a[0]) + Removals(a[1..])) + Removals(b) == Removal(a[0]) + (Removals(a[1..]) + Removals(b));
    }
  }

  lemma {:induction false} SignalsConcat(a: seq<Op>, b: seq<Op>)
    ensures Signals(a + b) == Signals(a) + Signals(b)
  {
    if a == [] {
      assert a + b == b;
    } else {
      assert (a + b)[1..] == a[1..] + b && (a + b)[0] == a[0];
      SignalsConcat(a[1..], b);
      assert (Signal(a[0]) + Signals(a[1..])) + Signals(b) == Signal(a[0]) + (Signals(a[1..]) + Signals(b));
    }
  }

  function RenderOp(op: Op): seq<string> {
    match op
    case Keep(l, shown) => if shown then [" " + l] else []
    case Del(l) => ["-" + l]
    case Add(l) => ["+" + l]
    case Mark(text) => [text]
  }

  function Render(ops: seq<Op>): seq<string> {
    if ops == [] then [] else RenderOp(ops[0]) + Render(ops[1..])
  }

  predicate WellFormed(ops: seq<Op>) {
    forall op :: op in ops && op.Mark? ==> "@" <= op.text || "\\" <= op.text
  }

  /** One file of a git diff: its extended header lines come before the hunks. */
  datatype FileDiff = FileDiff(oldPath: string, path: string, preamble: seq<string>, ops: seq<Op>)

  predicate Word(s: string) {
    s != "" && forall c :: c in s ==> c !in PY_SPACE
  }

  predicate WellFormedFile(f: FileDiff) {
    && Word(f.oldPath) && Word(f.path) && WellFormed(f.ops)
    && forall l :: l in f.preamble ==> HeaderPath(l).None? && !Removed(l)
  }

  function RenderFile(f: FileDiff): seq<string> {
    [HEADER + f.oldPath + " b/" + f.path] + f.preamble + Render(f.ops)
  }

  function RenderAll(fs: seq<FileDiff>): seq<string> {
    if fs == [] then [] else RenderFile(fs[0]) + RenderAll(fs[1..])
  }

  /** What the diff reader takes from a removed line. */
  function Signal(op: Op): seq<string> {
    if op.Del? && !("--" <= op.line) && |Strip(op.line)| >= MIN_LENGTH then [Strip(op.line)] else []
  }

  function Signals(ops: seq<Op>): seq<string> {
    if ops == [] then [] else Signal(ops[0]) + Signals(ops[1..])
  }

  lemma {:induction false} WordLengthOfWord(w: string, rest: string)
    requires Word(w) && (rest == "" || rest[0] in PY_SPACE)
    ensures WordLength(w + rest) == |w|
  {
    if |w| == 1 {
      assert (w + rest)[1..] == rest;
    } else {
      assert (w + rest)[1..] == w[1..] + rest;
      WordLengthOfWord(w[1..], rest);
    }
  }

  lemma HeaderNamesPath(f: FileDiff)
    requires WellFormedFile(f)
    ensures HeaderPath(HEADER + f.oldPath + " b/" + f.path) == Some(f.path)
  {
    var line := HEADER + f.oldPath + " b/" + f.path;
    var tail := " b/" + f.path;
    assert line[|HEADER|..] == f.oldPath + tail;
    WordLengthOfWord(f.oldPath, tail);
    assert (f.oldPath + tail)[|f.oldPath|..] == tail;
    assert (f.oldPath + tail)[|f.oldPath| + 3..] == f.path;
    assert f.path + "" == f.path;
    WordLengthOfWord(f.path, "");
  }

  lemma NotAHeader(line: string)
    requires line != "" && line[0] != 'd'
    ensures HeaderPath(line) == None
  {
    assert HEADER[0] == 'd';
  }

  /** The reader's whole state after one operation's lines. */
  lemma ScanOp(st: State, keep: set<string>, op: Op)
    requires WellFormed([op])
    ensures Scan(st, keep, RenderOp(op)) ==
            if st.current.Some? then st.(anchors := Extend(st.anchors, st.current.value, Signal(op))) else st
  {
    assert op in [op];
    if RenderOp(op) != [] {
      var line := RenderOp(op)[0];
      NotAHeader(line);
      var rest: seq<string> := [line][1..];
      assert RenderOp(op) == [line] && rest == [];
      assert Scan(st, keep, [line]) == StepLine(st, keep, line);
      match op
      case Del(l) =>
        assert line[1..] == l;
        assert "---" <= line <==> "--" <= l by {
          assert line[0] == '-' && (|l| > 0 ==> line[1] == l[0]) && (|l| > 1 ==> line[2] == l[1]);
        }
      case _ => assert !("-" <= line) by { assert line[0] != '-'; }
    }
  }

  lemma {:induction false} ScanOps(st: State, keep: set<string>, ops: seq<Op>)
    requires WellFormed(ops)
    ensures Scan(st, keep, Render(ops)) ==
            if st.current.Some? then st.(anchors := Extend(st.anchors, st.current.value, Signals(ops))) else st
    decreases |ops|
  {
    if ops != [] {
      var first := Scan(st, keep, RenderOp(ops[0]));
      ScanOp(st, keep, ops[0]);
      ScanConcat(st, keep, RenderOp(ops[0]), Render(ops[1..]));
      ScanOps(first, keep, ops[1..]);
      if st.current.Some? {
        ExtendConcat(st.anchors, st.current.value, Signal(ops[0]), Signals(ops[1..]));
      }
    }
  }

  lemma {:induction false} ScanQuiet(st: State, keep: set<string>, lines: seq<string>)
    requires forall l :: l in lines ==> HeaderPath(l).None? && !Removed(l)
    ensures Scan(st, keep, lines) == st
  {
    if lines != [] {
      assert lines[0] in lines;
      ScanQuiet(st, keep, lines[1..]);
    }
  }

  lemma ScanFile(st: State, keep: set<string>, f: FileDiff)
    requires WellFormedFile(f)
    ensures Scan(st, keep, RenderFile(f)) ==
            if f.path in keep then State(Extend(st.anchors, f.path, Signals(f.ops)), Some(f.path))
            else State(st.anchors, None)
  {
    var header := HEADER + f.oldPath + " b/" + f.path;
    HeaderNamesPath(f);
    var st1 := StepLine(st, keep, header);
    assert [header][1..] == [];
    assert Scan(st, keep, [header]) == st1;
    ScanConcat(st, keep, [header] + f.preamble, Render(f.ops));
    ScanConcat(st, keep, [header], f.preamble);
    ScanQuiet(st1, keep, f.preamble);
    ScanOps(st1, keep, f.ops);
  }

  ghost predicate DistinctPaths(fs: seq<FileDiff>) {
    forall i, j :: 0 <= i < j < |fs| ==> fs[i].path != fs[j].path
  }

  lemma {:induction false} ScanOthers(st: State, keep: set<string>, fs: seq<FileDiff>, path: string)
    requires forall f :: f in fs ==> WellFormedFile(f) && f.path != path
    ensures AnchorsOf(Scan(st, keep, RenderAll(fs)).anchors, path) == AnchorsOf(st.anchors, path)
    ensures path in Scan(st, keep, RenderAll(fs)).anchors <==> path in st.anchors
    decreases |fs|
  {
    if fs != [] {
      assert fs[0] in fs;
      var first := Scan(st, keep, RenderFile(fs[0]));
      ScanFile(st, keep, fs[0]);
      assert AnchorsOf(first.anchors, path) == AnchorsOf(st.anchors, path);
      assert path in first.anchors <==> path in st.anchors;
      ScanConcat(st, keep, RenderFile(fs[0]), RenderAll(fs[1..]));
      ScanOthers(first, keep, fs[1..], path);
    }
  }

  /** From the diff of a whole commit, each kept file gets exactly its own signals, once each, in order. */
  lemma {:induction false} DiffAnchors(st: State, keep: set<string>, fs: seq<FileDiff>, k: nat)
    requires k < |fs| && DistinctPaths(fs) && (forall f :: f in fs ==> WellFormedFile(f))
    requires fs[k].path in keep && fs[k].path !in st.anchors
    ensures AnchorsOf(Scan(st, keep, RenderAll(fs)).anchors, fs[k].path) == Unique(Signals(fs[k].ops))
    ensures fs[k].path in Scan(st, keep, RenderAll(fs)).anchors <==> Signals(fs[k].ops) != []
    decreases k
  {
    var first := Scan(st, keep, RenderFile(fs[0]));
    ScanFile(st, keep, fs[0]);
    ScanConcat(st, keep, RenderFile(fs[0]), RenderAll(fs[1..]));
    if k == 0 {
      ScanOthers(first, keep, fs[1..], fs[0].path);
    } else {
      assert fs[1..][k - 1] == fs[k];
      DiffAnchors(first, keep, fs[1..], k - 1);
    }
  }

  // ----- the two extractors compared -----

  function Absent(xs: seq<string>, gold: set<string>): seq<string> {
    if xs == [] then []
    else
      var x := xs[|xs| - 1];
      Absent(xs[..|xs| - 1], gold) + if x in gold then [] else [x]
  }

  lemma {:induction false} AbsentMember(xs: seq<string>, gold: set<string>, x: string)
    ensures x in Absent(xs, gold) <==> x in xs && x !in gold
  {
    if xs != [] {
      assert xs == xs[..|xs| - 1] + [xs[|xs| - 1]];
      AbsentMember(xs[..|xs| - 1], gold, x);
    }
  }

  lemma AbsentSnoc(xs: seq<string>, x: string, gold: set<string>)
    ensures Absent(xs + [x], gold) == Absent(xs, gold) + if x in gold then [] else [x]
  {
    assert (xs + [x])[..|xs|] == xs;
  }

  lemma {:induction false} UniqueAbsent(xs: seq<string>, gold: set<string>)
    ensures Unique(Absent(xs, gold)) == Absent(Unique(xs), gold)
  {
    if xs != [] {
      var init, x := xs[..|xs| - 1], xs[|xs| - 1];
      assert xs == init + [x];
      UniqueAbsent(init, gold);
      UniqueSnoc(init, x);
      AbsentSnoc(Unique(init), x, gold);
      AbsentMember(Unique(init), gold, x);
      UniqueSnoc(Absent(init, gold), x);
      assert Absent(init, gold) + [] == Absent(init, gold);
    }
  }

  lemma {:induction false} AbsentConcat(a: seq<string>, b: seq<string>, gold: set<string>)
    ensures Absent(a + b, gold) == Absent(a, gold) + Absent(b, gold)
  {
    if b == [] {
      assert a + b == a;
    } else {
      assert (a + b)[..|a + b| - 1] == a + b[..|b| - 1];
      AbsentConcat(a, b[..|b| - 1], gold);
    }
  }

  lemma {:induction false} LostConcat(a: seq<string>, b: seq<string>, gold: set<string>)
    ensures Lost(a + b, gold) == Lost(a, gold) + Lost(b, gold)
  {
    if b == [] {
      assert a + b == a;
    } else {
      assert (a + b)[..|a + b| - 1] == a + b[..|b| - 1];
      LostConcat(a, b[..|b| - 1], gold);
    }
  }

  /** Every long removed line, whatever it starts with. */
  function Removal(op: Op): seq<string> {
    if op.Del? && |Strip(op.line)| >= MIN_LENGTH then [Strip(op.line)] else []
  }

  function Removals(ops: seq<Op>): seq<string> {
    if ops == [] then [] else Removal(ops[0]) + Removals(ops[1..])
  }

  /** A kept line is in the fixed file, so only removed lines can be lost. */
  lemma {:induction false} LostAreRemovals(ops: seq<Op>, gold: set<string>)
    requires forall l :: l in Gold(ops) ==> Strip(l) in gold
    ensures Lost(Vuln(ops), gold) == Absent(Removals(ops), gold)
  {
    if ops != [] {
      var op := ops[0];
      var line, long := OldLine(op), Removal(op);
      LostAreRemovals(ops[1..], gold);
      LostConcat(line, Vuln(ops[1..]), gold);
      AbsentConcat(long, Removals(ops[1..]), gold);
      assert Lost(line, gold) == Absent(long, gold) by {
        assert Lost([], gold) == [] && Absent([], gold) == [];
        if line != [] {
          assert line[..0] == [];
        }
        if long != [] {
          assert long[..0] == [];
        }
        if op.Keep? {
          assert op.line in Gold(ops);
        }
      }
    }
  }

  /** The whole-file extractor, for any edit script: the removals that are gone from the fixed file. */
  lemma BetweenIs(ops: seq<Op>)
    ensures Between(Vuln(ops), Gold(ops)) == Absent(Unique(Removals(ops)), StripSet(Gold(ops)))
  {
    LostAreRemovals(ops, StripSet(Gold(ops)));
    UniqueAbsent(Removals(ops), StripSet(Gold(ops)));
  }

  lemma {:induction false} NoDashesNothingMissed(ops: seq<Op>)
    requires forall op :: op in ops && op.Del? ==> !("--" <= op.line)
    ensures Removals(ops) == Signals(ops)
  {
    if ops != [] {
      assert ops[0] in ops;
      NoDashesNothingMissed(ops[1..]);
    }
  }

  /**
   For any edit script and any choice of context, the whole-file anchors are the diff anchors whose text is
   gone from the fixed file, as a sequence, as long as no removed line starts with two dashes.
   */
  lemma ExtractorsAgree(keep: set<string>, fs: seq<FileDiff>, k: nat)
    requires k < |fs| && DistinctPaths(fs) && (forall f :: f in fs ==> WellFormedFile(f))
    requires fs[k].path in keep
    requires forall op :: op in fs[k].ops && op.Del? ==> !("--" <= op.line)
    ensures var f := fs[k];
            Between(Vuln(f.ops), Gold(f.ops)) ==
            Absent(AnchorsOf(Scan(START, keep, RenderAll(fs)).anchors, f.path), StripSet(Gold(f.ops)))
  {
    DiffAnchors(START, keep, fs, k);
    BetweenIs(fs[k].ops);
    NoDashesNothingMissed(fs[k].ops);
  }

  /** A removed line starting with two dashes is missed unless its text is also removed from an indented line. */
  ghost predicate DashedAlsoIndented(ops: seq<Op>) {
    forall op ::
      (&& op in ops && op.Del? && "--" <= op.line && |Strip(op.line)| >= MIN_LENGTH
       && Strip(op.line) !in StripSet(Gold(ops)))
      ==> Strip(op.line) in Signals(ops)
  }

  lemma {:induction false} RemovalMember(ops: seq<Op>, x: string)
    ensures x in Removals(ops) <==>
            exists op :: op in ops && op.Del? && |Strip(op.line)| >= MIN_LENGTH && Strip(op.line) == x
    ensures x in Signals(ops) <==> exists op :: op in ops && op.Del? && !("--" <= op.line)
                                                && |Strip(op.line)| >= MIN_LENGTH && Strip(op.line) == x
  {
    if ops != [] {
      assert ops == [ops[0]] + ops[1..];
      RemovalMember(ops[1..], x);
    }
  }

  /** Without that proviso: the two extractors find the same anchors exactly when no dashed line is missed. */
  lemma SameAnchorsIff(keep: set<string>, fs: seq<FileDiff>, k: nat)
    requires k < |fs| && DistinctPaths(fs) && (forall f :: f in fs ==> WellFormedFile(f))
    requires fs[k].path in keep
    ensures var f := fs[k];
            var diff := Absent(AnchorsOf(Scan(START, keep, RenderAll(fs)).anchors, f.path), StripSet(Gold(f.ops)));
            (forall x :: x in Between(Vuln(f.ops), Gold(f.ops)) <==> x in diff) <==> DashedAlsoIndented(f.ops)
  {
    var ops, gold := fs[k].ops, StripSet(Gold(fs[k].ops));
    DiffAnchors(START, keep, fs, k);
    BetweenIs(ops);
    forall x
      ensures x in Absent(Unique(Removals(ops)), gold) <==> x in Removals(ops) && x !in gold
      ensures x in Absent(Unique(Signals(ops)), gold) <==> x in Signals(ops) && x !in gold
    {
      AbsentUniqueMember(Removals(ops), gold, x);
      AbsentUniqueMember(Signals(ops), gold, x);
    }
    SameMembersIff(ops, gold);
  }

  lemma AbsentUniqueMember(xs: seq<string>, gold: set<string>, x: string)
    ensures x in Absent(Unique(xs), gold) <==> x in xs && x !in gold
  {
    AbsentMember(Unique(xs), gold, x);
    UniqueMember(xs, x);
  }

  lemma SameMembersIff(ops: seq<Op>, gold: set<string>)
    requires gold == StripSet(Gold(ops))
    ensures (forall x :: x in Removals(ops) && x !in gold <==> x in Signals(ops) && x !in gold) <==>
            DashedAlsoIndented(ops)
  {
    forall x { RemovalMember(ops, x); }
    if DashedAlsoIndented(ops) {
      forall x ensures x in Removals(ops) && x !in gold <==> x in Signals(ops) && x !in gold {
        if x in Removals(ops) && x !in gold {
          var op :| op in ops && op.Del? && |Strip(op.line)| >= MIN_LENGTH && Strip(op.line) == x;
        }
      }
    } else {
      var op :| op in ops && op.Del? && "--" <= op.line && |Strip(op.line)| >= MIN_LENGTH
                && Strip(op.line) !in gold && Strip(op.line) !in Signals(ops);
      assert Strip(op.line) in Removals(ops);
    }
  }

  lemma CommentLine() returns (line: string)
    ensures Strip(line) == line && "--" <= line && |line| >= MIN_LENGTH
  {
    line := "-- unescaped user input";
    assert TrimLeft(line, PY_SPACE) == line && TrimRight(line, PY_SPACE) == line;
  }

  /** A flush-left SQL comment is such a line: the diff reader takes its "---" for a file header. */
  lemma SqlCommentIsMissed() returns (f: FileDiff, line: string)
    ensures WellFormedFile(f) && f.ops == [Del(line)] && "--" <= line
    ensures Between(Vuln(f.ops), Gold(f.ops)) == [line]
    ensures AnchorsOf(Scan(START, {f.path}, RenderAll([f])).anchors, f.path) == []
  {
    line := CommentLine();
    f := OneRemoval(line);
    OneDashedRemoval(line);
    DiffAnchors(START, {f.path}, [f], 0);
    assert Unique(Signals(f.ops)) == [];
  }

  lemma OneRemoval(line: string) returns (f: FileDiff)
    ensures WellFormedFile(f) && f.ops == [Del(line)]
  {
    f := FileDiff("q", "q", [], [Del(line)]);
  }

  lemma OneDashedRemoval(line: string)
    requires Strip(line) == line && "--" <= line && |line| >= MIN_LENGTH
    ensures var ops := [Del(line)]; Between(Vuln(ops), Gold(ops)) == [line] && Signals(ops) == []
  {
    var ops := [Del(line)];
    assert ops[1..] == [];
    assert Removals(ops) == [line] && Gold(ops) == [] && Signals(ops) == [];
    BetweenIs(ops);
    UniqueSnoc([], line);
    assert [] + [line] == [line];
    AbsentSnoc([], line, StripSet([]));
  }

  // ----- the files of a fix -----

  const TEST_MARKERS := ["test_", "_test.", "/tests/", "tests/", "/test/", "conftest.py", "/fixtures/"]
  const NON_SOURCE_EXT := [".rst", ".md", ".txt", ".lock", ".cfg", ".ini", ".toml", ".yaml", ".yml"]
  const NON_SOURCE_NAMES := ["changelog", "changes", "release", "security", "news", "history", "authors"]

  predicate Contains(s: string, part: string) {
    exists i :: 0 <= i <= |s| && part <= s[i..]
  }

  predicate EndsWith(s: string, end: string) {
    |end| <= |s| && s[|s| - |end|..] == end
  }

  function AfterLast(s: string, sep: char): string {
    if s == [] then []
    else if s[|s| - 1] == sep then []
    else AfterLast(s[..|s| - 1], sep) + [s[|s| - 1]]
  }

  /** Everything before the last separator, or the whole string if there is none. */
  function BeforeLast(s: string, sep: char): string {
    if sep !in s then s
    else if s[|s| - 1] == sep then s[..|s| - 1]
    else BeforeLast(s[..|s| - 1], sep)
  }

  lemma {:induction false} ContainsIs(s: string, part: string)
    ensures Contains(s, part) <==> exists pre, post :: s == pre + part + post
  {
    if Contains(s, part) {
      var i :| 0 <= i <= |s| && part <= s[i..];
      assert s == s[..i] + part + s[i..][|part|..];
    }
    if exists pre, post :: s == pre + part + post {
      var pre, post :| s == pre + part + post;
      assert s[|pre|..] == part + post;
      assert 0 <= |pre| <= |s| && part <= s[|pre|..];
    }
  }

  lemma {:induction false} EndsWithIs(pre: string, end: string, s: string)
    ensures EndsWith(pre + end, end)
    ensures EndsWith(s, end) ==> s == s[..|s| - |end|] + end
  {
    assert (pre + end)[|pre + end| - |end|..] == end;
  }

  /** Both cut at the last separator. */
  lemma {:induction false} LastSeparator(a: string, sep: char, b: string)
    requires sep !in b
    ensures AfterLast(a + [sep] + b, sep) == b && AfterLast(b, sep) == b
    ensures BeforeLast(a + [sep] + b, sep) == a && BeforeLast(b, sep) == b
    decreases |b|
  {
    var s := a + [sep] + b;
    if b == "" {
      assert s[|s| - 1] == sep && s[..|s| - 1] == a;
    } else {
      var init, c := b[..|b| - 1], b[|b| - 1];
      assert b == init + [c];
      assert s[..|s| - 1] == a + [sep] + init && s[|s| - 1] == c && sep in s;
      LastSeparator(a, sep, init);
    }
  }

  predicate IsTestPath(p: string) {
    exists m :: m in TEST_MARKERS && Contains(Lower(p), m)
  }

  predicate IsNonSource(p: string) {
    || (exists e :: e in NON_SOURCE_EXT && EndsWith(Lower(p), e))
    || BeforeLast(AfterLast(Lower(p), '/'), '.') in NON_SOURCE_NAMES
  }

  /**
   What is left out of a fix, in any case of letters: a path with a test marker anywhere in it, a path with a
   document's extension, and a file named like a changelog whatever its directory and extension.
   */
  lemma {:induction false} NotSource(p: string, pre: string, part: string, post: string)
    requires Lower(p) == pre + part + post
    ensures part in TEST_MARKERS ==> !IsSource(p)
    ensures part in NON_SOURCE_EXT && post == "" ==> !IsSource(p)
    ensures part in NON_SOURCE_NAMES && BaseName(pre, post) ==> !IsSource(p)
  {
    if part in TEST_MARKERS {
      ContainsIs(Lower(p), part);
    }
    if part in NON_SOURCE_EXT && post == "" {
      EndsWithIs(pre, part, Lower(p));
      assert pre + part + post == pre + part;
    }
    if part in NON_SOURCE_NAMES && BaseName(pre, post) {
      PlainNames(part);
      NameBetween(pre, part, post);
    }
  }

  /** What surrounds a file's name without its last extension: its directory and that extension, if any. */
  predicate BaseName(pre: string, post: string) {
    && (pre == "" || pre[|pre| - 1] == '/')
    && (post == "" || (post[0] == '.' && '.' !in post[1..] && '/' !in post[1..]))
  }

  lemma {:induction false} PlainNames(name: string)
    requires name in NON_SOURCE_NAMES
    ensures '/' !in name && '.' !in name
  {
  }

  lemma {:induction false} NameBetween(pre: string, name: string, post: string)
    requires BaseName(pre, post) && '/' !in name && '.' !in name
    ensures BeforeLast(AfterLast(pre + name + post, '/'), '.') == name
  {
    var base := name + post;
    assert pre + name + post == pre + base && '/' !in base;
    if pre == "" {
      assert pre + base == base;
      LastSeparator("", '/', base);
    } else {
      assert pre + base == pre[..|pre| - 1] + ['/'] + base;
      LastSeparator(pre[..|pre| - 1], '/', base);
    }
    WithoutExtension(name, post);
  }

  lemma {:induction false} WithoutExtension(name: string, post: string)
    requires BaseName("", post) && '.' !in name
    ensures BeforeLast(name + post, '.') == name
  {
    if post == "" {
      assert name + post == name;
      LastSeparator("", '.', name);
    } else {
      assert name + post == name + ['.'] + post[1..];
      LastSeparator(name, '.', post[1..]);
    }
  }

  predicate IsSource(p: string) {
    !IsTestPath(p) && !IsNonSource(p)
  }

  function HeaderPaths(patch: seq<string>): seq<string> {
    if patch == [] then []
    else (match HeaderPath(patch[0]) case Some(p) => [p] case None => []) + HeaderPaths(patch[1..])
  }

  function Sources(paths: seq<string>): seq<string> {
    if paths == [] then []
    else
      var p := paths[|paths| - 1];
      Sources(paths[..|paths| - 1]) + if IsSource(p) then [p] else []
  }

  function Dropped(paths: seq<string>): seq<string> {
    if paths == [] then []
    else
      var p := paths[|paths| - 1];
      Dropped(paths[..|paths| - 1]) + if IsSource(p) then [] else [p]
  }

  /** The source files a diff names, each once. */
  function SourceFiles(patch: seq<string>): seq<string> {
    Unique(Sources(HeaderPaths(patch)))
  }

  method GoldFiles(patch: seq<string>) returns (out: seq<string>, dropped: seq<string>)
    ensures out == SourceFiles(patch) && dropped == Dropped(HeaderPaths(patch))
  {
    var files;
    files, dropped := Partition(HeaderPaths(patch));
    out := Deduplicate(files);
  }

  method Deduplicate(files: seq<string>) returns (out: seq<string>)
    ensures out == Unique(files)
  {
    out := [];
    var seen: set<string> := {};
    ghost var read: seq<string> := [];
    for i := 0 to |files|
      invariant read == files[..i] && out == Unique(read)
      invariant forall p :: p in seen <==> p in out
    {
      var p := files[i];
      UniqueSnoc(read, p);
      read := read + [p];
      if p !in seen {
        seen := seen + {p};
        out := out + [p];
      }
    }
    assert read == files;
  }

  method Partition(paths: seq<string>) returns (files: seq<string>, dropped: seq<string>)
    ensures files == Sources(paths) && dropped == Dropped(paths)
  {
    files, dropped := [], [];
    for i := 0 to |paths|
      invariant files == Sources(paths[..i]) && dropped == Dropped(paths[..i])
    {
      assert paths[..i + 1][..i] == paths[..i];
      if IsSource(paths[i]) {
        files := files + [paths[i]];
      } else {
        dropped := dropped + [paths[i]];
      }
    }
    assert paths[..|paths|] == paths;
  }

  lemma {:induction false} HeaderPathsConcat(a: seq<string>, b: seq<string>)
    ensures HeaderPaths(a + b) == HeaderPaths(a) + HeaderPaths(b)
  {
    if a == [] {
      assert a + b == b;
    } else {
      var first := match HeaderPath(a[0]) case Some(p) => [p] case None => [];
      assert (a + b)[1..] == a[1..] + b;
      HeaderPathsConcat(a[1..], b);
      assert (first + HeaderPaths(a[1..])) + HeaderPaths(b) == first + (HeaderPaths(a[1..]) + HeaderPaths(b));
    }
  }

  lemma {:induction false} NoHeaders(lines: seq<string>)
    requires forall l :: l in lines ==> HeaderPath(l).None?
    ensures HeaderPaths(lines) == []
  {
    if lines != [] {
      assert lines[0] in lines;
      NoHeaders(lines[1..]);
    }
  }

  lemma {:induction false} RenderHasNoHeaders(ops: seq<Op>)
    requires WellFormed(ops)
    ensures forall l :: l in Render(ops) ==> HeaderPath(l).None?
  {
    if ops != [] {
      assert ops[0] in ops;
      RenderHasNoHeaders(ops[1..]);
      if RenderOp(ops[0]) != [] {
        NotAHeader(RenderOp(ops[0])[0]);
      }
    }
  }

  function Paths(fs: seq<FileDiff>): seq<string> {
    if fs == [] then [] else [fs[0].path] + Paths(fs[1..])
  }

  /** No line of a hunk can be mistaken for a file header, so a diff names exactly the files it is made of. */
  lemma {:induction false} DiffNamesItsFiles(fs: seq<FileDiff>)
    requires forall f :: f in fs ==> WellFormedFile(f)
    ensures HeaderPaths(RenderAll(fs)) == Paths(fs)
  {
    if fs != [] {
      var f := fs[0];
      assert f in fs;
      var header := HEADER + f.oldPath + " b/" + f.path;
      HeaderNamesPath(f);
      RenderHasNoHeaders(f.ops);
      NoHeaders(f.preamble);
      NoHeaders(Render(f.ops));
      HeaderPathsConcat([header] + f.preamble, Render(f.ops));
      HeaderPathsConcat([header], f.preamble);
      HeaderPathsConcat(RenderFile(f), RenderAll(fs[1..]));
      DiffNamesItsFiles(fs[1..]);
      var rest: seq<string> := [header][1..];
      assert rest == [] && HeaderPaths(rest) == [];
      assert HeaderPaths([header]) == [f.path];
    }
  }

  lemma {:induction false} SourceMember(paths: seq<string>, p: string)
    ensures p in Sources(paths) <==> p in paths && IsSource(p)
  {
    if paths != [] {
      assert paths == paths[..|paths| - 1] + [paths[|paths| - 1]];
      SourceMember(paths[..|paths| - 1], p);
    }
  }

  /** Every named path is kept or dropped, in the order in which it is named, and as often. */
  lemma {:induction false} SortedOutInPieces(a: seq<string>, b: seq<string>)
    ensures Sources(a + b) == Sources(a) + Sources(b)
    ensures Dropped(a + b) == Dropped(a) + Dropped(b)
  {
    if b == [] {
      assert a + b == a;
    } else {
      assert (a + b)[..|a + b| - 1] == a + b[..|b| - 1];
      SortedOutInPieces(a, b[..|b| - 1]);
    }
  }

  lemma {:induction false} KeptOrDropped(paths: seq<string>)
    ensures multiset(Sources(paths)) + multiset(Dropped(paths)) == multiset(paths)
  {
    if paths != [] {
      assert paths == paths[..|paths| - 1] + [paths[|paths| - 1]];
      KeptOrDropped(paths[..|paths| - 1]);
    }
  }

  lemma {:induction false} DroppedMember(paths: seq<string>, p: string)
    ensures p in Dropped(paths) <==> p in paths && !IsSource(p)
  {
    if paths != [] {
      assert paths == paths[..|paths| - 1] + [paths[|paths| - 1]];
      DroppedMember(paths[..|paths| - 1], p);
    }
  }

  lemma {:induction false} PathMember(fs: seq<FileDiff>, k: nat)
    requires k < |fs|
    ensures fs[k].path in Paths(fs)
  {
    if k > 0 {
      PathMember(fs[1..], k - 1);
    }
  }

  /** With the fix's own source files as the kept paths, exactly they get anchors: never a test or a document. */
  lemma CommitAnchors(fs: seq<FileDiff>, k: nat)
    requires k < |fs| && DistinctPaths(fs) && forall f :: f in fs ==> WellFormedFile(f)
    ensures var keep := set p | p in SourceFiles(RenderAll(fs));
            AnchorsOf(Scan(START, keep, RenderAll(fs)).anchors, fs[k].path) ==
            if IsSource(fs[k].path) then Unique(Signals(fs[k].ops)) else []
  {
    var keep := set p | p in SourceFiles(RenderAll(fs));
    DiffNamesItsFiles(fs);
    SourceMember(Paths(fs), fs[k].path);
    UniqueMember(Sources(Paths(fs)), fs[k].path);
    PathMember(fs, k);
    if IsSource(fs[k].path) {
      DiffAnchors(START, keep, fs, k);
    } else {
      ScanOutside(START, keep, fs, fs[k].path);
    }
  }

  lemma {:induction false} ScanOutside(st: State, keep: set<string>, fs: seq<FileDiff>, path: string)
    requires (forall f :: f in fs ==> WellFormedFile(f)) && path !in keep
    ensures AnchorsOf(Scan(st, keep, RenderAll(fs)).anchors, path) == AnchorsOf(st.anchors, path)
    decreases |fs|
  {
    if fs != [] {
      assert fs[0] in fs;
      var first := Scan(st, keep, RenderFile(fs[0]));
      ScanFile(st, keep, fs[0]);
      assert AnchorsOf(first.anchors, path) == AnchorsOf(st.anchors, path);
      ScanConcat(st, keep, RenderFile(fs[0]), RenderAll(fs[1..]));
      ScanOutside(first, keep, fs[1..], path);
    }
  }
}
