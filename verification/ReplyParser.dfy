/** Reading tagged id lists out of a model's free-text reply, and getting back what a well-formed reply says. */
module ReplyParser {
  import opened Text

  // ----- splitIDs -----

  const SEPARATORS: set<char> := {',', ' ', ';'}

  /** The length of the longest prefix without a separator. */
  function RunLength(s: string): (n: nat)
    ensures n <= |s|
    ensures s != [] && s[0] !in SEPARATORS ==> n > 0
  {
    if s == [] || s[0] in SEPARATORS then 0 else 1 + RunLength(s[1..])
  }

  /** The maximal runs between separators. */
  function Fields(s: string): seq<string>
    decreases |s|
  {
    if s == [] then []
    else if s[0] in SEPARATORS then Fields(s[1..])
    else [s[..RunLength(s)]] + Fields(s[RunLength(s)..])
  }

  function Trimmed(parts: seq<string>): seq<string> {
    if parts == [] then []
    else
      var p := Trim(parts[|parts| - 1], GO_SPACE);
      Trimmed(parts[..|parts| - 1]) + if p != "" then [p] else []
  }

  method SplitIds(s: string) returns (out: seq<string>)
    ensures out == Trimmed(Fields(s))
  {
    var parts := Fields(s);
    out := [];
    for i := 0 to |parts|
      invariant out == Trimmed(parts[..i])
    {
      assert parts[..i + 1][..i] == parts[..i];
      var p := Trim(parts[i], GO_SPACE);
      if p != "" {
        out := out + [p];
      }
    }
    assert parts[..|parts|] == parts;
  }

  lemma {:induction false} RunStopsAtSeparator(a: string, rest: string)
    requires rest != "" && rest[0] in SEPARATORS
    ensures RunLength(a + rest) == RunLength(a)
  {
    if a == [] {
      assert a + rest == rest;
    } else if a[0] !in SEPARATORS {
      assert (a + rest)[1..] == a[1..] + rest;
      RunStopsAtSeparator(a[1..], rest);
    }
  }

  lemma {:induction false} FieldsSplitAt(a: string, rest: string)
    requires rest != "" && rest[0] in SEPARATORS
    ensures Fields(a + rest) == Fields(a) + Fields(rest[1..])
    decreases |a|
  {
    if a == [] {
      assert a + rest == rest;
    } else if a[0] in SEPARATORS {
      assert (a + rest)[1..] == a[1..] + rest;
      FieldsSplitAt(a[1..], rest);
    } else {
      var n := RunLength(a);
      RunStopsAtSeparator(a, rest);
      assert (a + rest)[..n] == a[..n] && (a + rest)[n..] == a[n..] + rest;
      FieldsSplitAt(a[n..], rest);
    }
  }

  lemma {:induction false} RunOfAll(s: string)
    requires forall c :: c in s ==> c !in SEPARATORS
    ensures RunLength(s) == |s|
  {
    if s != [] {
      assert s[0] in s;
      RunOfAll(s[1..]);
    }
  }

  lemma {:induction false} TrimmedConcat(a: seq<string>, b: seq<string>)
    ensures Trimmed(a + b) == Trimmed(a) + Trimmed(b)
  {
    if b == [] {
      assert a + b == a;
    } else {
      assert (a + b)[..|a + b| - 1] == a + b[..|b| - 1];
      TrimmedConcat(a, b[..|b| - 1]);
    }
  }

  /** On any text, splitting at any separator and reading the two sides gives the ids of the whole, in order. */
  lemma {:induction false} IdsSplitAt(a: string, sep: char, b: string)
    requires sep in {',', ' ', ';'}
    ensures Trimmed(Fields(a + [sep] + b)) == Trimmed(Fields(a)) + Trimmed(Fields(b))
  {
    var rest := [sep] + b;
    assert a + [sep] + b == a + rest && rest[1..] == b;
    FieldsSplitAt(a, rest);
    TrimmedConcat(Fields(a), Fields(b));
  }

  /** Text without separators is one id, or none if it is blank: with IdsSplitAt, this fixes the ids of any text. */
  lemma IdsOfRun(s: string)
    requires forall c :: c in s ==> c !in {',', ' ', ';'}
    ensures Trimmed(Fields(s)) == if Trim(s, GO_SPACE) == "" then [] else [Trim(s, GO_SPACE)]
  {
    if s != "" {
      RunOfAll(s);
      assert s[0] in s;
      assert s[..|s|] == s && s[|s|..] == "";
      assert Fields(s) == [s] + Fields("");
      assert [s][..0] == [];
    }
  }

  // ----- the two parsers -----

  const HIGH_IMPACT := "HIGH_IMPACT:"
  const RANKING := "RANKING:"
  const CROWN := "CROWN:"

  predicate Tagged(line: string, tag: string) {
    tag <= Upper(Trim(line, GO_SPACE))
  }

  /** The ids on a tagged line. */
  function TagIds(line: string, tag: string): seq<string>
    requires Tagged(line, tag)
  {
    Trimmed(Fields(Trim(line, GO_SPACE)[|tag|..]))
  }

  const WRAPPING: set<char> := {'(', ')', '[', ']', '.'}

  predicate IsEmptySentinel(id: string) {
    Lower(Trim(id, WRAPPING)) in ["none", "n/a", "na", "nothing", "empty", "-"]
  }

  /** A "no picks" word in any letter case, between any brackets and dots. */
  ghost predicate WrappedMarker(pre: string, word: string, post: string) {
    && (forall c :: c in pre + post ==> c in ['(', ')', '[', ']', '.'])
    && Lower(word) in ["none", "n/a", "na", "nothing", "empty", "-"]
  }

  /** The dropped ids are exactly the wrapped markers. */
  lemma {:induction false} SentinelIff(id: string)
    ensures IsEmptySentinel(id) <==> exists pre, word, post :: id == pre + word + post && WrappedMarker(pre, word, post)
  {
    if IsEmptySentinel(id) {
      var pre, post := TrimParts(id, WRAPPING);
      assert id == pre + Trim(id, WRAPPING) + post && WrappedMarker(pre, Trim(id, WRAPPING), post);
    }
    forall pre, word, post | id == pre + word + post && WrappedMarker(pre, word, post) ensures IsEmptySentinel(id) {
      MarkerIsDropped(pre, word, post);
    }
  }

  lemma {:induction false} MarkerIsDropped(pre: string, word: string, post: string)
    requires WrappedMarker(pre, word, post)
    ensures IsEmptySentinel(pre + word + post)
  {
    forall c | c in pre || c in post ensures c in WRAPPING {
      assert c in pre + post;
    }
    CaseOf(word, 0);
    CaseOf(word, |word| - 1);
    TrimSurrounded(pre, word, post, WRAPPING);
  }

  function Picks(ids: seq<string>): seq<string> {
    if ids == [] then []
    else Picks(ids[..|ids| - 1]) + if IsEmptySentinel(ids[|ids| - 1]) then [] else [ids[|ids| - 1]]
  }

  function Discovered(lines: seq<string>): seq<string> {
    if lines == [] then []
    else
      var ln := lines[|lines| - 1];
      Discovered(lines[..|lines| - 1]) + if Tagged(ln, HIGH_IMPACT) then Picks(TagIds(ln, HIGH_IMPACT)) else []
  }

  method ParseDiscovery(reply: string) returns (picks: seq<string>)
    ensures picks == Discovered(Split(reply, '\n'))
  {
    var lines := Split(reply, '\n');
    picks := [];
    for i := 0 to |lines|
      invariant picks == Discovered(lines[..i])
    {
      assert lines[..i + 1][..i] == lines[..i];
      var ln := Trim(lines[i], GO_SPACE);
      if HIGH_IMPACT <= Upper(ln) {
        var ids := SplitIds(ln[|HIGH_IMPACT|..]);
        picks := AddPicks(picks, ids);
      }
    }
    assert lines[..|lines|] == lines;
  }

  method AddPicks(picks: seq<string>, ids: seq<string>) returns (picks': seq<string>)
    ensures picks' == picks + Picks(ids)
  {
    picks' := picks;
    for i := 0 to |ids|
      invariant picks' == picks + Picks(ids[..i])
    {
      assert ids[..i + 1][..i] == ids[..i];
      if IsEmptySentinel(ids[i]) {
        continue;
      }
      picks' := picks' + [ids[i]];
    }
    assert ids[..|ids|] == ids;
  }

  function KnownOf(ids: seq<string>, known: set<string>): seq<string> {
    if ids == [] then []
    else KnownOf(ids[..|ids| - 1], known) + if ids[|ids| - 1] in known then [ids[|ids| - 1]] else []
  }

  /** What one line adds to the ranking, and to the crowns. */
  function RankedOn(line: string, known: set<string>): seq<string> {
    if Tagged(line, RANKING) then KnownOf(TagIds(line, RANKING), known) else []
  }

  function CrownedOn(line: string): set<string> {
    if !Tagged(line, RANKING) && Tagged(line, CROWN) then (set id | id in TagIds(line, CROWN)) else {}
  }

  function Ranked(lines: seq<string>, known: set<string>): seq<string> {
    if lines == [] then [] else Ranked(lines[..|lines| - 1], known) + RankedOn(lines[|lines| - 1], known)
  }

  function Crowned(lines: seq<string>): set<string> {
    if lines == [] then {} else Crowned(lines[..|lines| - 1]) + CrownedOn(lines[|lines| - 1])
  }

  method ParseAssessment(reply: string, known: set<string>) returns (ranked: seq<string>, crowns: set<string>)
    ensures ranked == Ranked(Split(reply, '\n'), known)
    ensures crowns == Crowned(Split(reply, '\n'))
  {
    var lines := Split(reply, '\n');
    ranked, crowns := [], {};
    for i := 0 to |lines|
      invariant ranked == Ranked(lines[..i], known) && crowns == Crowned(lines[..i])
    {
      assert lines[..i + 1][..i] == lines[..i];
      ranked, crowns := ReadLine(lines[i], known, ranked, crowns);
    }
    assert lines[..|lines|] == lines;
  }

  method ReadLine(line: string, known: set<string>, ranked: seq<string>, crowns: set<string>)
    returns (ranked': seq<string>, crowns': set<string>)
    ensures ranked' == ranked + RankedOn(line, known) && crowns' == crowns + CrownedOn(line)
  {
    ranked', crowns' := ranked, crowns;
    var ln := Trim(line, GO_SPACE);
    if RANKING <= Upper(ln) {
      var ids := SplitIds(ln[|RANKING|..]);
      ranked' := AddKnown(ranked, ids, known);
    } else if CROWN <= Upper(ln) {
      var ids := SplitIds(ln[|CROWN|..]);
      crowns' := crowns + set id | id in ids;
    }
  }

  lemma AssessedSnoc(lines: seq<string>, line: string, known: set<string>)
    ensures Ranked(lines + [line], known) == Ranked(lines, known) + RankedOn(line, known)
    ensures Crowned(lines + [line]) == Crowned(lines) + CrownedOn(line)
  {
    assert (lines + [line])[..|lines|] == lines;
  }

  method AddKnown(ranked: seq<string>, ids: seq<string>, known: set<string>) returns (ranked': seq<string>)
    ensures ranked' == ranked + KnownOf(ids, known)
  {
    ranked' := ranked;
    for i := 0 to |ids|
      invariant ranked' == ranked + KnownOf(ids[..i], known)
    {
      assert ids[..i + 1][..i] == ids[..i];
      if ids[i] in known {
        ranked' := ranked' + [ids[i]];
      }
    }
    assert ids[..|ids|] == ids;
  }

  // ----- rendering -----

  /** An id that can be written in a list: nothing in it separates or is white space. */
  predicate Writable(id: string) {
    id != "" && forall c :: c in id ==> c !in SEPARATORS && c !in GO_SPACE
  }

  function JoinIds(ids: seq<string>): string {
    if ids == [] then "" else if |ids| == 1 then ids[0] else ids[0] + ", " + JoinIds(ids[1..])
  }

  function RenderLine(tag: string, ids: seq<string>): string {
    tag + " " + JoinIds(ids)
  }

  function JoinLines(lines: seq<string>): string
    requires lines != []
  {
    if |lines| == 1 then lines[0] else lines[0] + "\n" + JoinLines(lines[1..])
  }

  // ----- reading back -----

  lemma {:induction false} SplitJoin(lines: seq<string>)
    requires lines != [] && forall l :: l in lines ==> '\n' !in l
    ensures Split(JoinLines(lines), '\n') == lines
  {
    assert lines[0] in lines;
    if |lines| == 1 {
      SplitWhole(lines[0], '\n');
    } else {
      assert JoinLines(lines) == lines[0] + ['\n'] + JoinLines(lines[1..]);
      SplitAt(lines[0], '\n', JoinLines(lines[1..]));
      SplitJoin(lines[1..]);
    }
  }

  lemma {:induction false} RunOfWord(w: string, rest: string)
    requires Writable(w) && (rest == "" || rest[0] in SEPARATORS)
    ensures RunLength(w + rest) == |w|
  {
    if |w| == 1 {
      assert (w + rest)[1..] == rest;
    } else {
      assert (w + rest)[1..] == w[1..] + rest;
      RunOfWord(w[1..], rest);
    }
  }

  lemma FieldsOfWord(w: string, rest: string)
    requires Writable(w) && (rest == "" || rest[0] in SEPARATORS)
    ensures Fields(w + rest) == [w] + Fields(rest)
  {
    RunOfWord(w, rest);
    assert (w + rest)[0] == w[0];
    assert (w + rest)[..|w|] == w && (w + rest)[|w|..] == rest;
  }

  lemma {:induction false} FieldsOfJoin(ids: seq<string>)
    requires forall id :: id in ids ==> Writable(id)
    ensures Fields(JoinIds(ids)) == ids
  {
    if ids == [] {
    } else if |ids| == 1 {
      assert ids[0] in ids;
      assert ids[0] + "" == ids[0];
      FieldsOfWord(ids[0], "");
    } else {
      var rest := JoinIds(ids[1..]);
      assert ids[0] in ids;
      FieldsOfJoin(ids[1..]);
      assert JoinIds(ids) == ids[0] + (", " + rest);
      FieldsOfWord(ids[0], ", " + rest);
      SkipComma(rest);
    }
  }

  lemma SkipComma(rest: string)
    ensures Fields(", " + rest) == Fields(rest) && Fields(" " + rest) == Fields(rest)
  {
    assert (" " + rest)[1..] == rest;
    assert (", " + rest)[1..] == " " + rest;
  }

  lemma WordStays(w: string)
    requires w != "" && w[0] !in GO_SPACE && w[|w| - 1] !in GO_SPACE
    ensures Trim(w, GO_SPACE) == w
  {
  }

  lemma {:induction false} TrimmedWords(ids: seq<string>)
    requires forall id :: id in ids ==> Writable(id)
    ensures Trimmed(ids) == ids
  {
    if ids != [] {
      var id := ids[|ids| - 1];
      assert id in ids && id[0] in id && id[|id| - 1] in id;
      WordStays(id);
      TrimmedWords(ids[..|ids| - 1]);
      assert ids == ids[..|ids| - 1] + [id];
    }
  }

  lemma {:induction false} JoinEndsInWord(ids: seq<string>)
    requires ids != [] && forall id :: id in ids ==> Writable(id)
    ensures JoinIds(ids) != "" && JoinIds(ids)[|JoinIds(ids)| - 1] !in GO_SPACE
  {
    assert ids[0] in ids;
    if |ids| == 1 {
      assert ids[0][|ids[0]| - 1] in ids[0];
    } else {
      JoinEndsInWord(ids[1..]);
    }
  }

  /** A tag as both parsers use it: upper-case, and with no white space at either end. */
  predicate IsTag(tag: string) {
    tag != "" && Upper(tag) == tag && tag[0] !in GO_SPACE && tag[|tag| - 1] !in GO_SPACE
  }

  /** A word a parser takes for the tag: the tag in any letter case. */
  predicate Spells(word: string, tag: string) {
    IsTag(tag) && Upper(word) == tag
  }

  lemma TrimOfLine(word: string, tag: string, ids: seq<string>)
    requires Spells(word, tag) && forall id :: id in ids ==> Writable(id)
    ensures Trim(RenderLine(word, ids), GO_SPACE) == if ids == [] then word else RenderLine(word, ids)
  {
    var line := RenderLine(word, ids);
    CaseOf(word, 0);
    CaseOf(word, |word| - 1);
    assert line[0] == word[0];
    if ids == [] {
      assert "" + word + " " == line;
      TrimSurrounded("", word, " ", GO_SPACE);
    } else {
      JoinEndsInWord(ids);
      assert line[|line| - 1] == JoinIds(ids)[|JoinIds(ids)| - 1];
      WordStays(line);
    }
  }

  lemma UpperPrefix(word: string, rest: string)
    ensures Upper(word) <= Upper(word + rest)
  {
    forall i | 0 <= i < |word| ensures Upper(word + rest)[i] == Upper(word)[i] {
      assert (word + rest)[i] == word[i];
    }
  }

  /** A rendered line, its tag in any letter case, carries that tag and exactly its ids. */
  lemma LineReadsBack(word: string, tag: string, ids: seq<string>)
    requires Spells(word, tag) && forall id :: id in ids ==> Writable(id)
    ensures Tagged(RenderLine(word, ids), tag) && TagIds(RenderLine(word, ids), tag) == ids
  {
    TrimOfLine(word, tag, ids);
    if ids == [] {
      assert word[|tag|..] == "";
    } else {
      var line := RenderLine(word, ids);
      assert line == word + (" " + JoinIds(ids));
      UpperPrefix(word, " " + JoinIds(ids));
      assert line[|tag|..] == " " + JoinIds(ids);
      SkipComma(JoinIds(ids));
      FieldsOfJoin(ids);
      TrimmedWords(ids);
    }
  }

  lemma {:induction false} DiscoveredConcat(a: seq<string>, b: seq<string>)
    ensures Discovered(a + b) == Discovered(a) + Discovered(b)
  {
    if b == [] {
      assert a + b == a;
    } else {
      assert (a + b)[..|a + b| - 1] == a + b[..|b| - 1];
      DiscoveredConcat(a, b[..|b| - 1]);
    }
  }

  lemma {:induction false} NothingDiscovered(lines: seq<string>)
    requires forall l :: l in lines ==> !Tagged(l, HIGH_IMPACT)
    ensures Discovered(lines) == []
  {
    if lines != [] {
      assert lines[|lines| - 1] in lines;
      NothingDiscovered(lines[..|lines| - 1]);
    }
  }

  /** Between any unrelated lines, a HIGH_IMPACT line is read back: its ids, or nothing if they are all markers. */
  lemma DiscoveryRoundTrip(before: seq<string>, word: string, ids: seq<string>, after: seq<string>)
    requires Upper(word) == HIGH_IMPACT && forall id :: id in ids ==> Writable(id)
    requires forall l :: l in before || l in after ==> '\n' !in l && !Tagged(l, HIGH_IMPACT)
    ensures var read := Discovered(Split(JoinLines(before + [RenderLine(word, ids)] + after), '\n'));
            && read == Picks(ids)
            && ((forall id :: id in ids ==> !IsEmptySentinel(id)) ==> read == ids)
            && ((forall id :: id in ids ==> IsEmptySentinel(id)) ==> read == [])
  {
    var line := RenderLine(word, ids);
    TagsAreTags();
    LineReadsBack(word, HIGH_IMPACT, ids);
    NoNewline(word, HIGH_IMPACT, ids);
    SplitJoin(before + [line] + after);
    DiscoveredConcat(before + [line], after);
    DiscoveredConcat(before, [line]);
    NothingDiscovered(before);
    NothingDiscovered(after);
    assert [line][..0] == [];
    assert Discovered([line]) == Picks(ids);
    if forall id :: id in ids ==> !IsEmptySentinel(id) {
      AllPicked(ids);
    }
    if forall id :: id in ids ==> IsEmptySentinel(id) {
      NonePicked(ids);
    }
  }

  lemma {:induction false} NonePicked(ids: seq<string>)
    requires forall id :: id in ids ==> IsEmptySentinel(id)
    ensures Picks(ids) == []
  {
    if ids != [] {
      assert ids[|ids| - 1] in ids;
      NonePicked(ids[..|ids| - 1]);
    }
  }

  /** Markers anywhere among the ids are passed over, and nothing else is. */
  lemma {:induction false} PicksInPieces(a: seq<string>, b: seq<string>)
    ensures Picks(a + b) == Picks(a) + Picks(b)
  {
    if b == [] {
      assert a + b == a;
    } else {
      assert (a + b)[..|a + b| - 1] == a + b[..|b| - 1];
      PicksInPieces(a, b[..|b| - 1]);
    }
  }

  lemma {:induction false} AllPicked(ids: seq<string>)
    requires forall id :: id in ids ==> !IsEmptySentinel(id)
    ensures Picks(ids) == ids
  {
    if ids != [] {
      assert ids[|ids| - 1] in ids;
      AllPicked(ids[..|ids| - 1]);
      assert ids == ids[..|ids| - 1] + [ids[|ids| - 1]];
    }
  }

  lemma TagsAreTags()
    ensures IsTag(HIGH_IMPACT) && IsTag(RANKING) && IsTag(CROWN)
    ensures '\n' !in HIGH_IMPACT && '\n' !in RANKING && '\n' !in CROWN
  {
    assert Upper(HIGH_IMPACT) == HIGH_IMPACT && Upper(RANKING) == RANKING && Upper(CROWN) == CROWN;
  }

  lemma {:induction false} NoNewline(word: string, tag: string, ids: seq<string>)
    requires '\n' !in tag && Upper(word) == tag && forall id :: id in ids ==> Writable(id)
    ensures '\n' !in RenderLine(word, ids)
  {
    NoNewlineInJoin(ids);
    forall i | 0 <= i < |word| ensures word[i] != '\n' {
      CaseOf(word, i);
      assert tag[i] in tag;
    }
  }

  lemma {:induction false} NoNewlineInJoin(ids: seq<string>)
    requires forall id :: id in ids ==> Writable(id)
    ensures '\n' !in JoinIds(ids)
  {
    if ids != [] {
      assert ids[0] in ids;
      NoNewlineInJoin(ids[1..]);
    }
  }

  lemma {:induction false} RankedConcat(a: seq<string>, b: seq<string>, known: set<string>)
    ensures Ranked(a + b, known) == Ranked(a, known) + Ranked(b, known)
  {
    if b == [] {
      assert a + b == a;
    } else {
      assert (a + b)[..|a + b| - 1] == a + b[..|b| - 1];
      RankedConcat(a, b[..|b| - 1], known);
    }
  }

  lemma {:induction false} CrownedConcat(a: seq<string>, b: seq<string>)
    ensures Crowned(a + b) == Crowned(a) + Crowned(b)
  {
    if b == [] {
      assert a + b == a;
    } else {
      assert (a + b)[..|a + b| - 1] == a + b[..|b| - 1];
      CrownedConcat(a, b[..|b| - 1]);
    }
  }

  /** What stands around the two requested lines of a reply, and which of them comes first. */
  datatype Around = Around(before: seq<string>, between: seq<string>, after: seq<string>, rankingFirst: bool) {
    predicate Quiet() {
      Unrelated(before) && Unrelated(between) && Unrelated(after)
    }

    function Reply(ranking: string, crown: string): string {
      var first, second := if rankingFirst then ranking else crown, if rankingFirst then crown else ranking;
      JoinLines(before + [first] + between + [second] + after)
    }
  }

  /** Lines that neither parser of an assessment looks at. */
  predicate Unrelated(lines: seq<string>) {
    forall l :: l in lines ==> '\n' !in l && !Tagged(l, RANKING) && !Tagged(l, CROWN)
  }

  lemma {:induction false} NothingAssessed(lines: seq<string>, known: set<string>)
    requires Unrelated(lines)
    ensures Ranked(lines, known) == [] && Crowned(lines) == {}
  {
    if lines != [] {
      assert lines[|lines| - 1] in lines;
      NothingAssessed(lines[..|lines| - 1], known);
    }
  }

  lemma TagsDiffer(word: string, ids: seq<string>)
    requires Upper(word) == CROWN && forall id :: id in ids ==> Writable(id)
    ensures !Tagged(RenderLine(word, ids), RANKING)
  {
    TagsAreTags();
    TrimOfLine(word, CROWN, ids);
    var trimmed := Trim(RenderLine(word, ids), GO_SPACE);
    assert trimmed[0] == word[0] && Upper(trimmed)[0] == Upper(word)[0] == 'C' && RANKING[0] == 'R';
  }

  lemma OneLine(line: string, known: set<string>)
    ensures Ranked([line], known) == RankedOn(line, known) && Crowned([line]) == CrownedOn(line)
  {
    AssessedSnoc([], line, known);
    assert [] + [line] == [line];
  }

  /** Known ids are kept as they stand, unknown ones dropped, piece by piece. */
  lemma {:induction false} KnownInPieces(a: seq<string>, b: seq<string>, known: set<string>)
    ensures KnownOf(a + b, known) == KnownOf(a, known) + KnownOf(b, known)
  {
    if b == [] {
      assert a + b == a;
    } else {
      assert (a + b)[..|a + b| - 1] == a + b[..|b| - 1];
      KnownInPieces(a, b[..|b| - 1], known);
    }
  }

  lemma {:induction false} AllKnown(ids: seq<string>, known: set<string>)
    requires forall id :: id in ids ==> id in known
    ensures KnownOf(ids, known) == ids
  {
    if ids != [] {
      assert ids[|ids| - 1] in ids;
      AllKnown(ids[..|ids| - 1], known);
      assert ids == ids[..|ids| - 1] + [ids[|ids| - 1]];
    }
  }

  lemma {:induction false} NoneKnown(ids: seq<string>, known: set<string>)
    requires forall id :: id in ids ==> id !in known
    ensures KnownOf(ids, known) == []
  {
    if ids != [] {
      assert ids[|ids| - 1] in ids;
      NoneKnown(ids[..|ids| - 1], known);
    }
  }

  /**
   A reply of the two requested lines, in either order and any letter case, among unrelated ones: every claimed
   crown, and the ranking. A ranking of known ids is read back as it was written; ids of no finding, wherever they
   stand in the line, change nothing.
   */
  lemma AssessmentRoundTrip(
    around: Around, words: (string, string), known: set<string>, ranked: seq<string>, stray: seq<string>,
    more: seq<string>, crowns: seq<string>)
    requires around.Quiet() && Upper(words.0) == RANKING && Upper(words.1) == CROWN
    requires forall id :: id in ranked || id in stray || id in more || id in crowns ==> Writable(id)
    requires (forall id :: id in ranked || id in more ==> id in known) && forall id :: id in stray ==> id !in known
    ensures var reply := around.Reply(RenderLine(words.0, ranked + stray + more), RenderLine(words.1, crowns));
            && Ranked(Split(reply, '\n'), known) == ranked + more
            && Crowned(Split(reply, '\n')) == set id | id in crowns
  {
    var ids := ranked + stray + more;
    var r, c := RenderLine(words.0, ids), RenderLine(words.1, crowns);
    RenderedLines(words, ids, crowns, known);
    KnownOnly(ranked, stray, more, known);
    ReadReply(around, r, c, known);
  }

  lemma KnownOnly(ranked: seq<string>, stray: seq<string>, more: seq<string>, known: set<string>)
    requires (forall id :: id in ranked || id in more ==> id in known) && forall id :: id in stray ==> id !in known
    ensures KnownOf(ranked + stray + more, known) == ranked + more
  {
    KnownInPieces(ranked + stray, more, known);
    KnownInPieces(ranked, stray, known);
    AllKnown(ranked, known);
    NoneKnown(stray, known);
    AllKnown(more, known);
    assert ranked + [] == ranked;
  }

  lemma ReadReply(around: Around, r: string, c: string, known: set<string>)
    requires around.Quiet() && '\n' !in r && '\n' !in c
    requires Crowned([r]) == {} && Ranked([c], known) == []
    ensures Ranked(Split(around.Reply(r, c), '\n'), known) == Ranked([r], known)
    ensures Crowned(Split(around.Reply(r, c), '\n')) == Crowned([c])
  {
    var ranking := Ranked([r], known);
    assert ranking + [] == [] + ranking == ranking;
    if around.rankingFirst {
      ReadTwo(around.before, r, around.between, c, around.after, known);
    } else {
      ReadTwo(around.before, c, around.between, r, around.after, known);
    }
  }

  /** Two ranking lines are read as one line with the ids of both, and so is the line cut anywhere. */
  lemma RankingInPieces(word: string, a: seq<string>, b: seq<string>, known: set<string>)
    requires Upper(word) == RANKING && forall id :: id in a || id in b ==> Writable(id)
    ensures Ranked([RenderLine(word, a + b)], known) == Ranked([RenderLine(word, a), RenderLine(word, b)], known)
  {
    RankedLine(word, a, known);
    RankedLine(word, b, known);
    RankedLine(word, a + b, known);
    assert [RenderLine(word, a), RenderLine(word, b)] == [RenderLine(word, a)] + [RenderLine(word, b)];
    RankedConcat([RenderLine(word, a)], [RenderLine(word, b)], known);
    KnownInPieces(a, b, known);
  }

  lemma RankedLine(word: string, ids: seq<string>, known: set<string>)
    requires Upper(word) == RANKING && forall id :: id in ids ==> Writable(id)
    ensures Ranked([RenderLine(word, ids)], known) == KnownOf(ids, known)
  {
    TagsAreTags();
    LineReadsBack(word, RANKING, ids);
    OneLine(RenderLine(word, ids), known);
  }

  /** Two lines among unrelated ones are read as if they were the whole reply. */
  lemma {:induction false} ReadTwo(
    before: seq<string>, first: string, between: seq<string>, second: string, after: seq<string>, known: set<string>)
    requires Unrelated(before) && Unrelated(between) && Unrelated(after) && '\n' !in first && '\n' !in second
    ensures var read := Split(JoinLines(before + [first] + between + [second] + after), '\n');
            && Ranked(read, known) == Ranked([first], known) + Ranked([second], known)
            && Crowned(read) == Crowned([first]) + Crowned([second])
  {
    SplitJoin(before + [first] + between + [second] + after);
    FiveParts(before, first, between, second, after, known);
  }

  /** What each of the two rendered lines is read as by itself. */
  lemma RenderedLines(words: (string, string), ids: seq<string>, crowns: seq<string>, known: set<string>)
    requires Upper(words.0) == RANKING && Upper(words.1) == CROWN
    requires forall id :: id in ids || id in crowns ==> Writable(id)
    ensures var r, c := RenderLine(words.0, ids), RenderLine(words.1, crowns);
            && '\n' !in r && '\n' !in c
            && Ranked([r], known) == KnownOf(ids, known) && Crowned([r]) == {}
            && Ranked([c], known) == [] && Crowned([c]) == set id | id in crowns
  {
    TagsAreTags();
    LineReadsBack(words.0, RANKING, ids);
    LineReadsBack(words.1, CROWN, crowns);
    TagsDiffer(words.1, crowns);
    NoNewline(words.0, RANKING, ids);
    NoNewline(words.1, CROWN, crowns);
    OneLine(RenderLine(words.0, ids), known);
    OneLine(RenderLine(words.1, crowns), known);
  }

  lemma {:induction false} QuietAround(a: seq<string>, line: string, b: seq<string>, known: set<string>)
    requires Unrelated(b)
    ensures Ranked(a + [line] + b, known) == Ranked(a, known) + Ranked([line], known)
    ensures Crowned(a + [line] + b) == Crowned(a) + Crowned([line])
  {
    RankedConcat(a + [line], b, known);
    RankedConcat(a, [line], known);
    CrownedConcat(a + [line], b);
    CrownedConcat(a, [line]);
    NothingAssessed(b, known);
  }

  lemma {:induction false} FiveParts(
    before: seq<string>, r: string, between: seq<string>, c: string, after: seq<string>, known: set<string>)
    requires Unrelated(before) && Unrelated(between) && Unrelated(after)
    ensures var lines := before + [r] + between + [c] + after;
            && Ranked(lines, known) == Ranked([r], known) + Ranked([c], known)
            && Crowned(lines) == Crowned([r]) + Crowned([c])
  {
    var first := before + [r] + between;
    assert Ranked(first, known) == Ranked([r], known) && Crowned(first) == Crowned([r]) by {
      NothingAssessed(before, known);
      QuietAround(before, r, between, known);
      assert [] + Ranked([r], known) == Ranked([r], known);
    }
    QuietAround(first, c, after, known);
  }
}
