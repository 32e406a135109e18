/** The few string operations the tools rely on, over ASCII text. */
module Text {

  /** What Go's strings.TrimSpace removes. */
  const GO_SPACE: set<char> := {' ', '\t', '\n', '\r', '\U{000B}', '\U{000C}'}

  /** What Python's str.strip removes: the four separator controls as well. */
  const PY_SPACE: set<char> := GO_SPACE + {'\U{001C}', '\U{001D}', '\U{001E}', '\U{001F}'}

  function TrimLeft(s: string, cut: set<char>): string {
    if s != [] && s[0] in cut then TrimLeft(s[1..], cut) else s
  }

  function TrimRight(s: string, cut: set<char>): string {
    if s != [] && s[|s| - 1] in cut then TrimRight(s[..|s| - 1], cut) else s
  }

  function Trim(s: string, cut: set<char>): string {
    TrimRight(TrimLeft(s, cut), cut)
  }

  /** Go's strings.Split for a one-character separator: never empty. */
  function Split(s: string, sep: char): (parts: seq<string>)
    ensures parts != []
  {
    if s == [] then [""]
    else
      var rest := Split(s[1..], sep);
      if s[0] == sep then [""] + rest else [[s[0]] + rest[0]] + rest[1..]
  }

  function Lower(s: string): (r: string)
    ensures |r| == |s|
  {
    seq(|s|, i requires 0 <= i < |s| => LowerChar(s[i]))
  }

  function LowerChar(c: char): char {
    if 'A' <= c <= 'Z' then c + 32 as char else c
  }

  function Upper(s: string): (r: string)
    ensures |r| == |s|
  {
    seq(|s|, i requires 0 <= i < |s| => UpperChar(s[i]))
  }

  function UpperChar(c: char): char {
    if 'a' <= c <= 'z' then c - 32 as char else c
  }

  // ----- what they mean -----

  predicate Only(s: string, cut: set<char>) {
    forall c :: c in s ==> c in cut
  }

  /** Trimming takes away exactly what surrounds a text that neither starts nor ends with a cut character. */
  lemma {:induction false} TrimSurrounded(pre: string, s: string, post: string, cut: set<char>)
    requires Only(pre, cut) && Only(post, cut)
    requires s != "" ==> s[0] !in cut && s[|s| - 1] !in cut
    ensures Trim(pre + s + post, cut) == s
  {
    assert pre + s + post == pre + (s + post);
    TrimLeftOff(pre, s + post, cut);
    if s == "" {
      assert s + post == post + "";
      TrimLeftOff(post, "", cut);
    } else {
      assert (s + post)[0] == s[0];
      TrimRightOff(s, post, cut);
    }
  }

  lemma {:induction false} TrimLeftOff(pre: string, s: string, cut: set<char>)
    requires Only(pre, cut)
    ensures TrimLeft(pre + s, cut) == TrimLeft(s, cut)
  {
    if pre == "" {
      assert pre + s == s;
    } else {
      assert pre[0] in pre && (pre + s)[1..] == pre[1..] + s;
      TrimLeftOff(pre[1..], s, cut);
    }
  }

  lemma {:induction false} TrimRightOff(s: string, post: string, cut: set<char>)
    requires Only(post, cut)
    ensures TrimRight(s + post, cut) == TrimRight(s, cut)
  {
    if post == "" {
      assert s + post == s;
    } else {
      var init := post[..|post| - 1];
      assert post[|post| - 1] in post && (s + post)[..|s + post| - 1] == s + init;
      TrimRightOff(s, init, cut);
    }
  }

  /** What trimming took away on either side. */
  lemma {:induction false} TrimParts(s: string, cut: set<char>) returns (pre: string, post: string)
    ensures s == pre + Trim(s, cut) + post && Only(pre, cut) && Only(post, cut)
  {
    pre := LeftPart(s, cut);
    post := RightPart(TrimLeft(s, cut), cut);
  }

  lemma {:induction false} LeftPart(s: string, cut: set<char>) returns (pre: string)
    ensures s == pre + TrimLeft(s, cut) && Only(pre, cut)
  {
    pre := "";
    if s != "" && s[0] in cut {
      pre := LeftPart(s[1..], cut);
      pre := [s[0]] + pre;
    }
  }

  lemma {:induction false} RightPart(s: string, cut: set<char>) returns (post: string)
    ensures s == TrimRight(s, cut) + post && Only(post, cut)
  {
    post := "";
    if s != "" && s[|s| - 1] in cut {
      post := RightPart(s[..|s| - 1], cut);
      post := post + [s[|s| - 1]];
    }
  }

  /** Splitting at a separator splits the two sides. */
  lemma {:induction false} SplitAt(a: string, sep: char, b: string)
    requires sep !in a
    ensures Split(a + [sep] + b, sep) == [a] + Split(b, sep)
  {
    var t := a + [sep] + b;
    if a == "" {
      assert t[1..] == b;
    } else {
      assert t[1..] == a[1..] + [sep] + b;
      SplitAt(a[1..], sep, b);
      assert [a[0]] + a[1..] == a;
    }
  }

  lemma {:induction false} SplitWhole(s: string, sep: char)
    requires sep !in s
    ensures Split(s, sep) == [s]
  {
    if s != "" {
      SplitWhole(s[1..], sep);
      assert [s[0]] + s[1..] == s;
    }
  }

  /** Case mapping goes letter by letter. */
  lemma CaseOf(s: string, i: nat)
    requires i < |s|
    ensures 'a' <= s[i] <= 'z' ==> Upper(s)[i] == s[i] - 32 as char && Lower(s)[i] == s[i]
    ensures 'A' <= s[i] <= 'Z' ==> Lower(s)[i] == s[i] + 32 as char && Upper(s)[i] == s[i]
    ensures !('a' <= s[i] <= 'z') && !('A' <= s[i] <= 'Z') ==> Upper(s)[i] == Lower(s)[i] == s[i]
  {
  }
}
