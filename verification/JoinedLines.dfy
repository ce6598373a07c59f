/** Splitting a text at its newlines and joining lines again. */
module JoinedLines {
  import opened Collections
  import opened Text

  function Join(lines: seq<string>): string {
    if lines == [] then ""
    else if |lines| == 1 then lines[0]
    else lines[0] + ['\n'] + Join(lines[1..])
  }

  predicate Lacks(s: string, c: char) {
    forall i | 0 <= i < |s| :: s[i] != c
  }

  /** No line contains `c`. */
  predicate Free(lines: seq<string>, c: char) {
    forall i | 0 <= i < |lines| :: Lacks(lines[i], c)
  }

  lemma FreeAppend(a: seq<string>, b: seq<string>, c: char)
    requires Free(a, c) && Free(b, c)
    ensures Free(a + b, c)
  {
  }

  lemma {:induction false} LinesOfFirst(line: string, rest: string)
    requires Lacks(line, '\n')
    ensures Lines(line + ['\n'] + rest) == [line] + Lines(rest)
    decreases |line|
  {
    var s := line + ['\n'] + rest;
    if line == [] {
      assert s[1..] == rest;
    } else {
      assert s[1..] == line[1..] + ['\n'] + rest;
      LinesOfFirst(line[1..], rest);
      assert [s[0]] + line[1..] == line;
    }
  }

  lemma {:induction false} LinesOfOne(line: string)
    requires Lacks(line, '\n')
    ensures Lines(line) == [line]
    decreases |line|
  {
    if line != [] {
      LinesOfOne(line[1..]);
      assert [line[0]] + line[1..] == line;
    }
  }

  lemma {:induction false} LinesOfJoin(lines: seq<string>)
    requires lines != [] && Free(lines, '\n')
    ensures Lines(Join(lines)) == lines
  {
    if |lines| == 1 {
      LinesOfOne(lines[0]);
    } else {
      LinesOfJoin(lines[1..]);
      LinesOfFirst(lines[0], Join(lines[1..]));
    }
  }

  lemma {:induction false} JoinOfLines(s: string)
    ensures Join(Lines(s)) == s
    decreases |s|
  {
    if s != [] {
      var rest := Lines(s[1..]);
      JoinOfLines(s[1..]);
      assert s == [s[0]] + s[1..];
      if s[0] != '\n' {
        JoinPrefixed(s[0], rest);
      } else {
        assert Join([""] + rest) == "" + ['\n'] + Join(rest);
      }
    }
  }

  lemma {:induction false} LinesAreFree(s: string, c: char)
    requires Lacks(s, c) || c == '\n'
    ensures Free(Lines(s), c)
    decreases |s|
  {
    if s != [] {
      LinesAreFree(s[1..], c);
    }
  }

  lemma JoinPrefixed(c: char, lines: seq<string>)
    requires lines != []
    ensures Join([[c] + lines[0]] + lines[1..]) == [c] + Join(lines)
  {
    assert ([[c] + lines[0]] + lines[1..])[1..] == lines[1..];
  }

  lemma {:induction false} JoinAppend(a: seq<string>, b: seq<string>)
    requires a != [] && b != []
    ensures Join(a + b) == Join(a) + ['\n'] + Join(b)
  {
    if |a| == 1 {
      assert (a + b)[1..] == b;
    } else {
      assert (a + b)[1..] == a[1..] + b;
      JoinAppend(a[1..], b);
    }
  }

  lemma {:induction false} JoinFree(lines: seq<string>, c: char)
    requires Free(lines, c) && c != '\n'
    ensures Lacks(Join(lines), c)
  {
    if |lines| > 1 {
      JoinFree(lines[1..], c);
    }
  }

  /** Trimming takes off white space put around a trimmed text. */
  lemma TrimPadded(lead: string, s: string, trail: string)
    requires Blank(lead) && Blank(trail) && s != [] && Trim(s) == s
    ensures Trim(lead + s + trail) == s && TrimEnd(s + trail) == s
  {
    TrimmedEnds(s);
    TrimStartOf(lead, s + trail);
    Associates(lead, s, trail);
    TrimEndOf(s, trail);
  }

  lemma TrimmedEnds(s: string)
    requires s != [] && Trim(s) == s
    ensures !IsSpace(s[0]) && !IsSpace(s[|s| - 1])
  {
    var _, _ := TrimSplits(s);
  }

  lemma {:induction false} TrimStartOf(lead: string, rest: string)
    requires Blank(lead) && rest != [] && !IsSpace(rest[0])
    ensures TrimStart(lead + rest) == rest
  {
    if lead == [] {
      assert lead + rest == rest;
    } else {
      assert (lead + rest)[1..] == lead[1..] + rest;
      TrimStartOf(lead[1..], rest);
    }
  }

  lemma {:induction false} TrimEndOf(s: string, trail: string)
    requires Blank(trail) && s != [] && !IsSpace(s[|s| - 1])
    ensures TrimEnd(s + trail) == s
  {
    if trail == [] {
      assert s + trail == s;
    } else {
      assert (s + trail)[..|s + trail| - 1] == s + trail[..|trail| - 1];
      TrimEndOf(s, trail[..|trail| - 1]);
    }
  }
}
