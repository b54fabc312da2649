/**
  String utilities the model needs: Python's `pattern in text` substring
  test, and the splitting of a text into newline-terminated lines.
 */
module Text {
  import opened Options

  /** `pat` occurs in `text` starting at index `i`. */
  ghost predicate OccursAt(text: string, pat: string, i: int) {
    0 <= i && i + |pat| <= |text| && text[i..i + |pat|] == pat
  }

  lemma OccursAtShift(text: string, pat: string, i: int)
    requires |text| >= 1 && 0 <= i
    ensures OccursAt(text[1..], pat, i) <==> OccursAt(text, pat, i + 1)
  {
    if 0 <= i && i + |pat| <= |text| - 1 {
      assert text[1..][i..i + |pat|] == text[i + 1..i + 1 + |pat|];
    }
  }

  /** Python's `pat in text` on strings: some slice of `text` equals `pat`. */
  function Contains(text: string, pat: string): (b: bool)
    ensures b <==> exists i :: OccursAt(text, pat, i)
    decreases |text|
  {
    if |text| < |pat| then
      false
    else if text[..|pat|] == pat then
      assert OccursAt(text, pat, 0);
      true
    else
      var b := Contains(text[1..], pat);
      assert b ==> exists i :: OccursAt(text, pat, i) by {
        if b {
          var j :| OccursAt(text[1..], pat, j);
          OccursAtShift(text, pat, j);
        }
      }
      assert (exists i :: OccursAt(text, pat, i)) ==> b by {
        if exists i :: OccursAt(text, pat, i) {
          var i :| OccursAt(text, pat, i);
          assert i != 0;
          OccursAtShift(text, pat, i - 1);
        }
      }
      b
  }

  /** The rest of `s` after `prefix`, if `s` starts with it. */
  function StripPrefix(s: string, prefix: string): (r: Option<string>)
    ensures r.Some? ==> s == prefix + r.value
  {
    if |prefix| <= |s| && s[..|prefix|] == prefix then Some(s[|prefix|..]) else None
  }

  lemma StripPrefixOf(prefix: string, rest: string)
    ensures StripPrefix(prefix + rest, prefix) == Some(rest)
  {
    assert (prefix + rest)[..|prefix|] == prefix;
    assert (prefix + rest)[|prefix|..] == rest;
  }

  /** The part of `s` before `suffix`, if `s` ends with it. */
  function StripSuffix(s: string, suffix: string): (r: Option<string>)
    ensures r.Some? ==> s == r.value + suffix
  {
    if |suffix| <= |s| && s[|s| - |suffix|..] == suffix then Some(s[..|s| - |suffix|]) else None
  }

  lemma StripSuffixOf(rest: string, suffix: string)
    ensures StripSuffix(rest + suffix, suffix) == Some(rest)
  {
    assert (rest + suffix)[|rest|..] == suffix;
    assert (rest + suffix)[..|rest|] == rest;
  }

  /** The index of the first `c` in `s`, or `|s|` when there is none. */
  function IndexOf(s: string, c: char): (k: nat)
    ensures k <= |s|
    ensures k < |s| ==> s[k] == c
    ensures forall i :: 0 <= i < k ==> s[i] != c
    decreases |s|
  {
    if |s| == 0 then 0
    else if s[0] == c then 0
    else 1 + IndexOf(s[1..], c)
  }

  /** No line of `lines` holds a newline of its own. */
  predicate SingleLines(lines: seq<string>) {
    forall i :: 0 <= i < |lines| ==> '\n' !in lines[i]
  }

  /** Each line followed by a newline, in order. */
  function JoinLines(lines: seq<string>): string
    decreases |lines|
  {
    if |lines| == 0 then "" else lines[0] + "\n" + JoinLines(lines[1..])
  }

  /**
    The newline-terminated lines of `text`, without their newlines; `None`
    when the text does not end in a newline.
   */
  function SplitLines(text: string): Option<seq<string>>
    decreases |text|
  {
    if |text| == 0 then Some([])
    else
      var k := IndexOf(text, '\n');
      if k == |text| then None
      else
        match SplitLines(text[k + 1..])
        case None => None
        case Some(rest) => Some([text[..k]] + rest)
  }

  /** Joining is compatible with concatenation of line lists. */
  lemma {:induction false} JoinLinesAppend(a: seq<string>, b: seq<string>)
    ensures JoinLines(a + b) == JoinLines(a) + JoinLines(b)
    decreases |a|
  {
    if |a| == 0 {
      assert a + b == b;
    } else {
      assert (a + b)[1..] == a[1..] + b;
      JoinLinesAppend(a[1..], b);
    }
  }

  lemma SingleLinesCons(line: string, lines: seq<string>)
    ensures SingleLines([line] + lines) <==> '\n' !in line && SingleLines(lines)
  {
    var all := [line] + lines;
    assert all[0] == line;
    assert forall i :: 0 <= i < |lines| ==> all[i + 1] == lines[i];
  }

  lemma JoinLinesCons(line: string, lines: seq<string>)
    ensures JoinLines([line] + lines) == line + "\n" + JoinLines(lines)
  {
    assert ([line] + lines)[1..] == lines;
  }

  /** In a line, its newline and what follows, the first newline is the line's own. */
  lemma FirstNewlineAfterLine(line: string, rest: string)
    requires '\n' !in line
    ensures IndexOf(line + "\n" + rest, '\n') == |line|
    ensures (line + "\n" + rest)[..|line|] == line
    ensures (line + "\n" + rest)[|line| + 1..] == rest
  {
    var text := line + "\n" + rest;
    forall i | 0 <= i < |line|
      ensures text[i] != '\n'
    {
      assert text[i] == line[i];
    }
    assert text[|line|] == '\n';
  }

  /** Splitting undoes joining, for lines without newlines of their own. */
  lemma {:induction false} SplitJoin(lines: seq<string>)
    requires SingleLines(lines)
    ensures SplitLines(JoinLines(lines)) == Some(lines)
    decreases |lines|
  {
    if |lines| > 0 {
      var line := lines[0];
      var tail := lines[1..];
      assert lines == [line] + tail;
      SingleLinesCons(line, tail);
      JoinLinesCons(line, tail);
      FirstNewlineAfterLine(line, JoinLines(tail));
      SplitJoin(tail);
    }
  }

  /** Nothing before the first `c` is a `c`. */
  lemma BeforeIndexOf(s: string, c: char)
    ensures c !in s[..IndexOf(s, c)]
  {
    var k := IndexOf(s, c);
    forall i | 0 <= i < k
      ensures s[..k][i] != c
    {
      assert s[..k][i] == s[i];
    }
  }

  lemma SplitAt(s: string, k: nat)
    requires k < |s|
    ensures s == s[..k] + [s[k]] + s[k + 1..]
  {
  }

  /** A text that splits is its first line, a newline, and a remainder that splits. */
  lemma SplitLinesStep(text: string)
    requires |text| > 0 && SplitLines(text).Some?
    ensures var k := IndexOf(text, '\n');
            && k < |text|
            && text == text[..k] + "\n" + text[k + 1..]
            && '\n' !in text[..k]
            && SplitLines(text[k + 1..]).Some?
            && SplitLines(text).value == [text[..k]] + SplitLines(text[k + 1..]).value
  {
    var k := IndexOf(text, '\n');
    BeforeIndexOf(text, '\n');
    SplitAt(text, k);
  }

  /** Joining undoes splitting: a text that splits is exactly its lines, each newline-free. */
  lemma {:induction false} JoinSplit(text: string)
    requires SplitLines(text).Some?
    ensures JoinLines(SplitLines(text).value) == text
    ensures SingleLines(SplitLines(text).value)
    decreases |text|
  {
    if |text| > 0 {
      SplitLinesStep(text);
      var k := IndexOf(text, '\n');
      var line := text[..k];
      var tail := text[k + 1..];
      JoinSplit(tail);
      var rest := SplitLines(tail).value;
      SingleLinesCons(line, rest);
      JoinLinesCons(line, rest);
    }
  }
}
