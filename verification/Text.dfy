/** Strings as the flush-plan code sees them: trimming, joining, lines and UTF-8 lengths.

    One Dafny character stands for one JavaScript string unit, so text outside the
    Basic Multilingual Plane is not modelled. */
module Text {
  import opened Options

  /** The characters that `String.prototype.trim` removes. */
  predicate IsSpace(c: char) {
    || '\t' <= c <= '\r'
    || c == ' '
    || c == '\U{00A0}' || c == '\U{1680}'
    || '\U{2000}' <= c <= '\U{200A}'
    || c == '\U{2028}' || c == '\U{2029}' || c == '\U{202F}' || c == '\U{205F}'
    || c == '\U{3000}' || c == '\U{FEFF}'
  }

  predicate Blank(s: string) {
    forall i | 0 <= i < |s| :: IsSpace(s[i])
  }

  /** Number of leading white-space characters. */
  function LeadingSpace(s: string): (n: nat)
    ensures n <= |s| && Blank(s[..n]) && (n < |s| ==> !IsSpace(s[n]))
  {
    if s == [] || !IsSpace(s[0]) then 0
    else
      var n := 1 + LeadingSpace(s[1..]);
      assert s[..n] == [s[0]] + s[1..][..n - 1];
      n
  }

  function TrimStart(s: string): string {
    if s == [] || !IsSpace(s[0]) then s else TrimStart(s[1..])
  }

  lemma {:induction false} TrimStartSkips(s: string)
    ensures TrimStart(s) == s[LeadingSpace(s)..]
  {
    if s != [] && IsSpace(s[0]) {
      TrimStartSkips(s[1..]);
    }
  }

  function TrimEnd(s: string): (t: string)
    ensures t <= s && (t != [] ==> !IsSpace(t[|t| - 1]))
    ensures forall i | |t| <= i < |s| :: IsSpace(s[i])
  {
    if s == [] || !IsSpace(s[|s| - 1]) then s else TrimEnd(s[..|s| - 1])
  }

  function Trim(s: string): string {
    TrimEnd(TrimStart(s))
  }

  /** A text is its leading white space, its trimmed core and trailing white space. */
  lemma TrimSplits(s: string) returns (lead: string, trail: string)
    ensures s == lead + Trim(s) + trail && Blank(lead) && Blank(trail)
    ensures lead == s[..LeadingSpace(s)]
    ensures Trim(s) == [] <==> Blank(s)
    ensures Trim(s) != [] ==> !IsSpace(Trim(s)[0])
  {
    var rest := TrimStart(s);
    TrimStartSkips(s);
    lead, trail := s[..LeadingSpace(s)], rest[|Trim(s)|..];
    assert rest == Trim(s) + trail;
    assert LeadingSpace(s) < |s| ==> rest[0] == s[LeadingSpace(s)];
    if Trim(s) == [] {
      assert s == lead + trail;
    }
  }

  /** Trimming is the identity on a text that neither starts nor ends with white space. */
  lemma TrimFixed(s: string)
    requires s != [] ==> !IsSpace(s[0]) && !IsSpace(s[|s| - 1])
    ensures Trim(s) == s
  {
  }

  lemma TrimIdempotent(s: string)
    ensures Trim(Trim(s)) == Trim(s)
  {
    var _, _ := TrimSplits(s);
    TrimFixed(Trim(s));
  }

  function Concat(parts: seq<string>): string {
    if parts == [] then "" else parts[0] + Concat(parts[1..])
  }

  lemma {:induction false} ConcatAppend(a: seq<string>, b: seq<string>)
    ensures Concat(a + b) == Concat(a) + Concat(b)
  {
    if a == [] {
      assert a + b == b;
    } else {
      assert (a + b)[1..] == a[1..] + b;
      ConcatAppend(a[1..], b);
    }
  }

  lemma ConcatTake(parts: seq<string>, k: nat)
    requires k <= |parts|
    ensures Concat(parts) == Concat(parts[..k]) + Concat(parts[k..])
  {
    assert parts == parts[..k] + parts[k..];
    ConcatAppend(parts[..k], parts[k..]);
  }

  /** Lines of a text. Only trimmed lines are ever looked at, so a carriage return that
      ends a line needs no separate treatment. */
  function Lines(s: string): (ls: seq<string>)
    ensures |ls| >= 1
    decreases |s|
  {
    if s == [] then [""]
    else if s[0] == '\n' then [""] + Lines(s[1..])
    else
      var rest := Lines(s[1..]);
      [[s[0]] + rest[0]] + rest[1..]
  }

  lemma {:induction false} BlankTextHasBlankLines(s: string)
    requires Blank(s)
    ensures forall i | 0 <= i < |Lines(s)| :: Blank(Lines(s)[i])
    decreases |s|
  {
    if s != [] {
      var rest := Lines(s[1..]);
      BlankTextHasBlankLines(s[1..]);
      assert Blank(rest[0]) && Blank([s[0]] + rest[0]);
    }
  }

  function JoinedAt(a: seq<string>, b: seq<string>): seq<string>
    requires a != [] && b != []
  {
    a[..|a| - 1] + [a[|a| - 1] + b[0]] + b[1..]
  }

  lemma JoinedAfter(first: string, a: seq<string>, b: seq<string>)
    requires a != [] && b != []
    ensures JoinedAt([first] + a, b) == [first] + JoinedAt(a, b)
  {
    assert ([first] + a)[..|a|] == [first] + a[..|a| - 1];
  }

  lemma JoinedPrefixed(c: char, a: seq<string>, b: seq<string>)
    requires a != [] && b != []
    ensures JoinedAt([[c] + a[0]] + a[1..], b) == [[c] + JoinedAt(a, b)[0]] + JoinedAt(a, b)[1..]
  {
    if |a| == 1 {
      assert [c] + a[0] + b[0] == [c] + (a[0] + b[0]);
    } else {
      JoinedAfter([c] + a[0], a[1..], b);
      JoinedAfter(a[0], a[1..], b);
      assert [a[0]] + a[1..] == a;
    }
  }

  /** The last line of one text and the first of the next become one. */
  lemma {:induction false} LinesOfBoth(a: string, b: string)
    ensures Lines(a + b) == JoinedAt(Lines(a), Lines(b))
    decreases |a|
  {
    if a == [] {
      assert a + b == b;
      assert "" + Lines(b)[0] == Lines(b)[0];
    } else {
      assert (a + b)[1..] == a[1..] + b;
      LinesOfBoth(a[1..], b);
      LinesPrefixed(a[0], Lines(a[1..]), Lines(b));
    }
  }

  lemma LinesPrefixed(c: char, a: seq<string>, b: seq<string>)
    requires a != [] && b != []
    ensures JoinedAt([""] + a, b) == [""] + JoinedAt(a, b)
    ensures JoinedAt([[c] + a[0]] + a[1..], b) == [[c] + JoinedAt(a, b)[0]] + JoinedAt(a, b)[1..]
  {
    JoinedAfter("", a, b);
    JoinedPrefixed(c, a, b);
  }

  /** A line that is neither blank nor the start of an HTML comment. */
  predicate Means(line: string) {
    Trim(line) != "" && !("<!--" <= Trim(line))
  }

  predicate IsMeaningful(content: string) {
    exists line | line in Lines(content) :: Means(line)
  }

  /** What an append does to the meaning of a text: the line it goes on with is judged anew. */
  lemma MeaningAfterAppend(a: string, b: string)
    ensures
      var last, first := Lines(a)[|Lines(a)| - 1], Lines(b)[0];
      IsMeaningful(a + b) <==>
      || (exists line | line in Lines(a)[..|Lines(a)| - 1] :: Means(line))
      || Means(last + first)
      || (exists line | line in Lines(b)[1..] :: Means(line))
  {
    var ls, ms := Lines(a), Lines(b);
    LinesOfBoth(a, b);
    MeaningOfThree(ls[..|ls| - 1], ls[|ls| - 1] + ms[0], ms[1..]);
  }

  lemma MeaningOfThree(a: seq<string>, line: string, b: seq<string>)
    ensures (exists x | x in a + [line] + b :: Means(x)) <==>
      (exists x | x in a :: Means(x)) || Means(line) || (exists x | x in b :: Means(x))
  {
    assert forall x :: x in a + [line] + b <==> x in a || x == line || x in b;
    if Means(line) {
      assert line in a + [line] + b;
    }
  }

  /** A text that ends with its line keeps its meaning, whatever is appended. */
  lemma WholeLinesKeepMeaning(a: string, b: string)
    requires IsMeaningful(a) && Lines(a)[|Lines(a)| - 1] == ""
    ensures IsMeaningful(a + b)
  {
    MeaningAfterAppend(a, b);
    LastLineMeansNothing(Lines(a), |Lines(a)| - 1);
  }

  lemma LastLineMeansNothing(lines: seq<string>, last: nat)
    requires last == |lines| - 1 && lines[last] == "" && exists line | line in lines :: Means(line)
    ensures exists line | line in lines[..last] :: Means(line)
  {
    var i :| 0 <= i < |lines| && Means(lines[i]);
    assert Trim("") == "";
    assert lines[i] in lines[..last] by {
      assert lines[..last][i] == lines[i];
    }
  }

  lemma MeaningfulIsNotBlank(content: string)
    requires IsMeaningful(content)
    ensures !Blank(content) && Trim(content) != []
  {
    if Blank(content) {
      BlankTextHasBlankLines(content);
      var line :| line in Lines(content) && Means(line);
      var _, _ := TrimSplits(line);
      assert false;
    }
    var _, _ := TrimSplits(content);
  }

  /** Bytes of one character in UTF-8 (section 3 of RFC 3629). */
  function CharBytes(c: char): (n: nat)
    ensures 1 <= n <= 4
  {
    if c < '\U{0080}' then 1
    else if c < '\U{0800}' then 2
    else if c < '\U{10000}' then 3
    else 4
  }

  function ByteLength(s: string): nat {
    if s == [] then 0 else CharBytes(s[0]) + ByteLength(s[1..])
  }

  lemma {:induction false} ByteLengthAppend(a: string, b: string)
    ensures ByteLength(a + b) == ByteLength(a) + ByteLength(b)
    ensures ByteLength(a) >= |a|
  {
    if a == [] {
      assert a + b == b;
    } else {
      assert (a + b)[1..] == a[1..] + b;
      ByteLengthAppend(a[1..], b);
    }
  }

  /** The prefix of `s` that is exactly `bytes` long in UTF-8, when the cut falls between characters. */
  function PrefixByByteLength(s: string, bytes: int): (r: Option<string>)
    ensures r.Some? ==> r.value <= s && ByteLength(r.value) == bytes
  {
    if bytes == 0 then Some("")
    else if bytes < 0 || s == [] || CharBytes(s[0]) > bytes then None
    else
      match PrefixByByteLength(s[1..], bytes - CharBytes(s[0]))
      case None => None
      case Some(p) => Some([s[0]] + p)
  }

  lemma {:induction false} PrefixByByteLengthOf(p: string, rest: string)
    ensures PrefixByByteLength(p + rest, ByteLength(p)) == Some(p)
  {
    if p == [] {
      assert ByteLength(p) == 0;
    } else {
      assert (p + rest)[1..] == p[1..] + rest;
      PrefixByByteLengthOf(p[1..], rest);
      assert ByteLength(p) - CharBytes(p[0]) == ByteLength(p[1..]);
      assert p == [p[0]] + p[1..];
    }
  }

  /** The text after its first `n` characters. */
  function Rest(s: string, n: nat): (r: string)
    requires n <= |s|
    ensures |r| == |s| - n && s[..n] + r == s
  {
    if n == 0 then s
    else
      var r := Rest(s[1..], n - 1);
      assert s[..n] + r == [s[0]] + (s[1..][..n - 1] + r);
      r
  }

  lemma RestIs(s: string, n: nat)
    requires n <= |s|
    ensures Rest(s, n) == s[n..]
  {
    assert s == s[..n] + Rest(s, n);
  }

  /** Decimal digits of a number. */
  function DigitCount(n: nat): (d: nat)
    ensures d >= 1
  {
    if n < 10 then 1 else 1 + DigitCount(n / 10)
  }
}
