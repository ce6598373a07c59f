/** Which identity files parse to a normal document. */
module AnchorForm {
  import opened Collections
  import opened Options
  import opened Text
  import opened JoinedLines
  import opened IdentityAnchor

  // ---------------------------------------------------------------------------
  // What the parser collects
  // ---------------------------------------------------------------------------

  /** A line as the parser files it: no heading, and no line break in it. */
  predicate TextLine(line: string) {
    HeadingName(line).None? && Lacks(line, '\n') && Lacks(line, '\r')
  }

  predicate TextLines(lines: seq<string>) {
    forall i | 0 <= i < |lines| :: TextLine(lines[i])
  }

  /** A mark of a line of the file. */
  predicate MarkOk(mark: Mark) {
    mark.heading == HeadingName(mark.line) && Lacks(mark.line, '\n') && Lacks(mark.line, '\r')
  }

  predicate NamesOk(p: Parser) {
    && Distinct(p.order)
    && (forall i | 0 <= i < |p.order| :: p.order[i] in p.content && (p.order[i] != "" ==> GoodName(p.order[i])))
    && (forall name | name in p.content :: name in p.order)
  }

  predicate TextsOk(p: Parser) {
    TextLines(p.header) && forall name | name in p.content :: TextLines(p.content[name])
  }

  predicate Nameless(marks: seq<Mark>) {
    exists i | 0 <= i < |marks| :: marks[i].heading == Some("")
  }

  lemma HeadingsHaveGoodNames(line: string)
    ensures HeadingName(line).Some? && HeadingName(line).value != "" ==> GoodName(HeadingName(line).value)
  {
    if |line| >= 3 {
      TrimIdempotent(line[2..]);
    }
  }

  lemma FedKeepsNames(p: Parser, mark: Mark, q: Parser)
    requires NamesOk(p) && MarkOk(mark) && q == Fed(p, mark)
    ensures NamesOk(q)
    ensures "" in q.order <==> "" in p.order || mark.heading == Some("")
  {
    if mark.heading.Some? && mark.heading.value !in p.content {
      HeadingsHaveGoodNames(mark.line);
      NewNameKeeps(p, mark.heading.value, q);
    } else {
      assert q.order == p.order && q.content.Keys == p.content.Keys;
      SameNamesKeep(p, q);
    }
  }

  lemma SameNamesKeep(p: Parser, q: Parser)
    requires NamesOk(p) && q.order == p.order && q.content.Keys == p.content.Keys
    ensures NamesOk(q)
  {
  }

  lemma NewNameKeeps(p: Parser, name: string, q: Parser)
    requires NamesOk(p) && name !in p.content && (name != "" ==> GoodName(name))
    requires q == Parser(p.header, p.order + [name], p.content[name := []], name)
    ensures NamesOk(q)
  {
    forall i | 0 <= i < |p.order| ensures p.order[i] != name {
      assert p.order[i] in p.content;
    }
  }

  lemma FedKeepsTexts(p: Parser, mark: Mark, q: Parser)
    requires TextsOk(p) && MarkOk(mark) && q == Fed(p, mark)
    ensures TextsOk(q)
  {
    if mark.heading.None? {
      assert TextLine(mark.line);
    }
  }

  lemma NamelessLast(marks: seq<Mark>)
    requires marks != []
    ensures Nameless(marks) <==> Nameless(marks[..|marks| - 1]) || marks[|marks| - 1].heading == Some("")
  {
    var front := marks[..|marks| - 1];
    if Nameless(front) {
      var i :| 0 <= i < |front| && front[i].heading == Some("");
      assert marks[i].heading == Some("");
    }
  }

  lemma {:induction false} ParserCollects(marks: seq<Mark>)
    requires forall i | 0 <= i < |marks| :: MarkOk(marks[i])
    ensures NamesOk(FedAll(BEFORE, marks)) && TextsOk(FedAll(BEFORE, marks))
    ensures "" in FedAll(BEFORE, marks).order <==> Nameless(marks)
  {
    if marks != [] {
      var front := marks[..|marks| - 1];
      ParserCollects(front);
      FedKeepsNames(FedAll(BEFORE, front), marks[|marks| - 1], FedAll(BEFORE, marks));
      FedKeepsTexts(FedAll(BEFORE, front), marks[|marks| - 1], FedAll(BEFORE, marks));
      NamelessLast(marks);
    }
  }

  // ---------------------------------------------------------------------------
  // What trimming does to lines
  // ---------------------------------------------------------------------------

  lemma TrimTrail(s: string, trail: string)
    requires Blank(trail)
    ensures Trim(s + trail) == Trim(s)
  {
    var lead, more := TrimSplits(s);
    if Trim(s) != "" {
      TrimIdempotent(s);
      TrimPadded(lead, Trim(s), more + trail);
      SplitText(lead, Trim(s), more, trail);
    } else {
      BlankTrims(s + trail);
    }
  }

  lemma SplitText(lead: string, text: string, more: string, trail: string)
    ensures lead + text + more + trail == lead + text + (more + trail)
  {
  }

  lemma BlankTrims(s: string)
    requires Blank(s)
    ensures Trim(s) == ""
  {
    var _, _ := TrimSplits(s);
  }

  predicate StartsHeading(line: string) {
    |line| >= 3 && line[0] == '#' && line[1] == '#' && IsSpace(line[2])
  }

  predicate DotAfter(line: string) {
    exists i | 3 <= i < |line| :: !IsLineTerminator(line[i])
  }

  function NameIn(line: string): string {
    if |line| >= 2 then Trim(line[2..]) else ""
  }

  lemma HeadingParts(line: string, name: string)
    requires name == NameIn(line)
    ensures HeadingName(line).Some? <==>
      StartsHeading(line) && if name != "" then !HasTerminator(name) else DotAfter(line)
  {
  }

  lemma PartsWithTrail(line: string, trail: string)
    ensures StartsHeading(line) ==> StartsHeading(line + trail)
    ensures DotAfter(line) ==> DotAfter(line + trail)
  {
    if DotAfter(line) {
      var i :| 3 <= i < |line| && !IsLineTerminator(line[i]);
      assert (line + trail)[i] == line[i];
    }
  }

  /** White space at its end does not keep a line from being a heading. */
  lemma HeadingWithTrail(line: string, trail: string)
    requires Blank(trail) && HeadingName(line).Some?
    ensures HeadingName(line + trail).Some?
  {
    HeadingParts(line, NameIn(line));
    PartsWithTrail(line, trail);
    NameWithTrail(line, trail);
    HeadingParts(line + trail, NameIn(line));
  }

  lemma NameWithTrail(line: string, trail: string)
    requires Blank(trail) && |line| >= 2
    ensures NameIn(line + trail) == NameIn(line)
  {
    TrimTrail(line[2..], trail);
    RestWithTrail(line, trail);
  }

  lemma RestWithTrail(line: string, trail: string)
    requires |line| >= 2
    ensures (line + trail)[2..] == line[2..] + trail
  {
  }

  predicate NoHeadingAfterFirst(s: string) {
    forall i | 1 <= i < |Lines(s)| :: HeadingName(Lines(s)[i]).None?
  }

  lemma WithoutLead(lead: string, rest: string)
    requires NoHeadingAfterFirst(lead + rest)
    ensures NoHeadingAfterFirst(rest)
  {
    LinesOfBoth(lead, rest);
    var a, b := Lines(lead), Lines(rest);
    forall i | 1 <= i < |b| ensures HeadingName(b[i]).None? {
      assert JoinedAt(a, b)[|a| - 1 + i] == b[i];
    }
  }

  lemma WithoutTrail(s: string, trail: string)
    requires Blank(trail) && NoHeadingAfterFirst(s + trail)
    ensures NoHeadingAfterFirst(s)
  {
    LinesOfBoth(s, trail);
    BlankTextHasBlankLines(trail);
    var a, b := Lines(s), Lines(trail);
    forall i | 1 <= i < |a| ensures HeadingName(a[i]).None? {
      assert JoinedAt(a, b)[i] == if i < |a| - 1 then a[i] else a[i] + b[0];
      if i == |a| - 1 && HeadingName(a[i]).Some? {
        HeadingWithTrail(a[i], b[0]);
      }
    }
  }

  lemma JoinedLinesHaveNoHeading(lines: seq<string>)
    requires TextLines(lines)
    ensures NoHeadingAfterFirst(Join(lines))
  {
    if lines != [] {
      LinesOfJoin(lines);
    }
  }

  /** A section's text keeps the form that printing needs exactly when it has no three newlines in a row
      and its first line, which trimming may have moved to the margin, is no heading. */
  predicate Settled(text: string) {
    NoTriple(text) && HeadingName(Lines(text)[0]).None?
  }

  lemma SectionTextForm(lines: seq<string>)
    requires TextLines(lines)
    ensures PlainText(Trim(Join(lines))) <==> Settled(Trim(Join(lines)))
  {
    var s := Join(lines);
    var text := Trim(s);
    var lead, trail := TrimSplits(s);
    TrimIdempotent(s);
    JoinFree(lines, '\r');
    forall i | 0 <= i < |text| ensures text[i] != '\r' {
      assert s[|lead| + i] == text[i];
    }
    JoinedLinesHaveNoHeading(lines);
    Associates(lead, text, trail);
    WithoutLead(lead, text + trail);
    WithoutTrail(text, trail);
    FirstLineDecides(text);
  }

  lemma FirstLineDecides(text: string)
    requires NoHeadingAfterFirst(text)
    ensures NoHeading(text) <==> HeadingName(Lines(text)[0]).None?
  {
    assert Lines(text)[0] in Lines(text);
  }

  // ---------------------------------------------------------------------------
  // Parsed documents
  // ---------------------------------------------------------------------------

  lemma {:induction false} ReturnsAreGone(s: string)
    ensures Lacks(WithoutReturns(s), '\r')
  {
    if s != [] {
      ReturnsAreGone(s[..|s| - 1]);
    }
  }

  predicate NamesNormal(d: Doc) {
    && Distinct(d.order) && (forall name | name in d.order :: name in d.bodies)
    && (forall name | name in d.bodies :: name in d.order) && (forall name | name in d.order :: GoodName(name))
  }

  predicate TextsPlain(d: Doc) {
    PlainText(d.header) && forall name | name in d.bodies :: PlainText(d.bodies[name])
  }

  lemma NamesForm(p: Parser, d: Doc)
    requires NamesOk(p) && d == Finished(p)
    ensures NamesNormal(d) <==> "" !in p.order
  {
    assert forall name | name in d.bodies :: name in p.content;
    forall i | 0 <= i < |p.order| && p.order[i] != "" ensures GoodName(p.order[i]) {
    }
    assert "" in p.order ==> !GoodName("");
  }

  lemma TextsForm(p: Parser, d: Doc)
    requires TextsOk(p) && d == Finished(p)
    ensures TextsPlain(d) <==> Settled(d.header) && forall name | name in d.bodies :: Settled(d.bodies[name])
  {
    SectionTextForm(p.header);
    forall name | name in d.bodies ensures PlainText(d.bodies[name]) <==> Settled(d.bodies[name]) {
      SectionTextForm(p.content[name]);
    }
  }

  // ---------------------------------------------------------------------------
  // What the lines of a file say
  // ---------------------------------------------------------------------------

  /** The name of the last heading, empty if there is none. */
  function LastHeading(lines: seq<string>): string {
    if lines == [] then ""
    else
      match HeadingName(lines[|lines| - 1])
      case Some(name) => name
      case None => LastHeading(lines[..|lines| - 1])
  }

  /** The lines whose nearest heading above has this name; above the first heading the name is empty. */
  function Under(lines: seq<string>, name: string): seq<string> {
    if lines == [] then []
    else
      var front, last := lines[..|lines| - 1], lines[|lines| - 1];
      Under(front, name) + if HeadingName(last).None? && LastHeading(front) == name then [last] else []
  }

  predicate Names(lines: seq<string>, name: string) {
    exists i | 0 <= i < |lines| :: HeadingName(lines[i]) == Some(name)
  }

  function FileLinesOf(raw: string): seq<string> {
    Lines(WithoutReturns(raw))
  }

  /** The text of a file under a heading, wherever the heading is repeated. */
  function TextUnder(raw: string, name: string): string {
    Trim(Join(Under(FileLinesOf(raw), name)))
  }

  /** The parser has filed every line under its nearest heading. */
  ghost predicate Filed(p: Parser, lines: seq<string>) {
    && p.current == LastHeading(lines)
    && p.header == Under(lines, "")
    && (forall name :: name in p.content <==> Names(lines, name))
    && (forall name | name in p.content && name != "" :: p.content[name] == Under(lines, name))
    && ("" in p.content ==> p.content[""] == [])
  }

  lemma NamesMore(lines: seq<string>, last: string, name: string)
    ensures Names(lines + [last], name) <==> Names(lines, name) || HeadingName(last) == Some(name)
  {
    var all := lines + [last];
    if Names(lines, name) {
      var i :| 0 <= i < |lines| && HeadingName(lines[i]) == Some(name);
      assert all[i] == lines[i];
    } else if HeadingName(last) == Some(name) {
      assert all[|lines|] == last;
    }
  }

  lemma {:induction false} NothingUnder(lines: seq<string>, name: string)
    requires !Names(lines, name) && name != ""
    ensures Under(lines, name) == [] && LastHeading(lines) != name
  {
    if lines != [] {
      var front, last := lines[..|lines| - 1], lines[|lines| - 1];
      assert lines == front + [last];
      NamesMore(front, last, name);
      NothingUnder(front, name);
    }
  }

  lemma {:induction false} LastIsNamed(lines: seq<string>)
    ensures LastHeading(lines) != "" ==> Names(lines, LastHeading(lines))
  {
    if LastHeading(lines) != "" && !Names(lines, LastHeading(lines)) {
      NothingUnder(lines, LastHeading(lines));
    }
  }

  /** Under the lines and one more. */
  lemma UnderMore(lines: seq<string>, last: string, name: string)
    ensures Under(lines + [last], name) ==
      Under(lines, name) + if HeadingName(last).None? && LastHeading(lines) == name then [last] else []
    ensures LastHeading(lines + [last]) == match HeadingName(last) case Some(n) => n case None => LastHeading(lines)
  {
    assert (lines + [last])[..|lines|] == lines;
  }

  lemma FiledHeading(p: Parser, lines: seq<string>, last: string, name: string)
    requires Filed(p, lines) && HeadingName(last) == Some(name)
    ensures Filed(Fed(p, Mark(last, Some(name))), lines + [last])
  {
    var q, all := Fed(p, Mark(last, Some(name))), lines + [last];
    UnderMore(lines, last, "");
    forall n ensures n in q.content <==> Names(all, n) {
      NamesMore(lines, last, n);
    }
    forall n | n in q.content && n != "" ensures q.content[n] == Under(all, n) {
      UnderMore(lines, last, n);
      if n !in p.content {
        NothingUnder(lines, n);
      }
    }
  }

  lemma FiledText(p: Parser, lines: seq<string>, last: string)
    requires Filed(p, lines) && HeadingName(last).None?
    ensures Filed(Fed(p, Mark(last, None)), lines + [last])
  {
    var q, all := Fed(p, Mark(last, None)), lines + [last];
    LastIsNamed(lines);
    UnderMore(lines, last, "");
    forall n ensures n in q.content <==> Names(all, n) {
      NamesMore(lines, last, n);
    }
    forall n | n in q.content && n != "" ensures q.content[n] == Under(all, n) {
      UnderMore(lines, last, n);
    }
  }

  lemma {:induction false} ParserFiles(lines: seq<string>)
    ensures Filed(FedAll(BEFORE, Marks(lines)), lines)
  {
    if lines != [] {
      var front, last := lines[..|lines| - 1], lines[|lines| - 1];
      ParserFiles(front);
      assert Marks(lines)[..|lines| - 1] == Marks(front) && lines == front + [last];
      if HeadingName(last).Some? {
        FiledHeading(FedAll(BEFORE, Marks(front)), front, last, HeadingName(last).value);
      } else {
        FiledText(FedAll(BEFORE, Marks(front)), front, last);
      }
    }
  }

  /** What a file is read into, said without the parser: a section for every heading, holding the lines
      whose nearest heading above has that name; what no named heading is above is the header. */
  lemma ParseFilesByHeading(raw: string, name: string)
    ensures Parse(raw).header == TextUnder(raw, "")
    ensures name in Parse(raw).bodies <==> Names(FileLinesOf(raw), name)
    ensures name in Parse(raw).bodies ==> Parse(raw).bodies[name] == if name != "" then TextUnder(raw, name) else ""
  {
    ParserFiles(FileLinesOf(raw));
    assert Join([]) == "" && Trim("") == "";
  }

  /** `k` is the first line that is a heading with this name. */
  predicate FirstNamed(lines: seq<string>, name: string, k: nat) {
    k < |lines| && HeadingName(lines[k]) == Some(name) && forall i | 0 <= i < k :: HeadingName(lines[i]) != Some(name)
  }

  /** `names` are the names of the headings, each once, in the order in which they first occur. */
  ghost predicate FirstNamedOrder(lines: seq<string>, names: seq<string>) {
    && (forall name :: name in names <==> Names(lines, name))
    && forall i, j, a: nat, b: nat
         | 0 <= i < j < |names| && FirstNamed(lines, names[i], a) && FirstNamed(lines, names[j], b) :: a < b
  }

  lemma FirstNamedStays(lines: seq<string>, last: string, name: string, k: nat)
    ensures FirstNamed(lines + [last], name, k) <==>
      FirstNamed(lines, name, k) || (k == |lines| && HeadingName(last) == Some(name) && !Names(lines, name))
  {
    var all := lines + [last];
    if k < |lines| {
      assert forall i | 0 <= i <= k :: all[i] == lines[i];
    } else if k == |lines| {
      assert all[k] == last && forall i | 0 <= i < k :: all[i] == lines[i];
    }
  }

  lemma OrderGrows(lines: seq<string>, last: string, names: seq<string>)
    requires FirstNamedOrder(lines, names)
    ensures
      var more := match HeadingName(last)
                  case None => names
                  case Some(name) => if name in names then names else names + [name];
      FirstNamedOrder(lines + [last], more)
  {
    var more := match HeadingName(last)
                case None => names
                case Some(name) => if name in names then names else names + [name];
    var all := lines + [last];
    forall name ensures name in more <==> Names(all, name) {
      NamesMore(lines, last, name);
    }
    forall i, j, a: nat, b: nat
      | 0 <= i < j < |more| && FirstNamed(all, more[i], a) && FirstNamed(all, more[j], b)
      ensures a < b
    {
      FirstNamedStays(lines, last, more[i], a);
      FirstNamedStays(lines, last, more[j], b);
      assert more[i] == names[i] && names[i] in names;
      if j < |names| {
        assert more[j] == names[j] && names[j] in names;
      }
    }
  }

  lemma {:induction false} ParserOrders(lines: seq<string>)
    ensures FirstNamedOrder(lines, FedAll(BEFORE, Marks(lines)).order)
  {
    if lines != [] {
      var front, last := lines[..|lines| - 1], lines[|lines| - 1];
      ParserOrders(front);
      ParserFiles(front);
      assert Marks(lines)[..|lines| - 1] == Marks(front) && lines == front + [last];
      OrderGrows(front, last, FedAll(BEFORE, Marks(front)).order);
    }
  }

  /** Sections stand in the order in which the file first names them, whatever headings it repeats. */
  lemma ParseKeepsHeadingOrder(raw: string)
    ensures FirstNamedOrder(FileLinesOf(raw), Parse(raw).order) && Distinct(Parse(raw).order)
  {
    var lines := FileLinesOf(raw);
    ParserOrders(lines);
    ReturnsAreGone(raw);
    LinesAreFree(WithoutReturns(raw), '\n');
    LinesAreFree(WithoutReturns(raw), '\r');
    ParserCollects(Marks(lines));
  }

  // ---------------------------------------------------------------------------
  // The exact condition
  // ---------------------------------------------------------------------------

  lemma SettledTexts(raw: string)
    requires !Names(FileLinesOf(raw), "")
    ensures (forall name :: Settled(TextUnder(raw, name))) <==>
      Settled(Parse(raw).header) && forall name | name in Parse(raw).bodies :: Settled(Parse(raw).bodies[name])
  {
    var d := Parse(raw);
    forall name ensures Settled(TextUnder(raw, name)) <==>
      if name == "" then Settled(d.header) else name in d.bodies ==> Settled(d.bodies[name])
    {
      ParseFilesByHeading(raw, name);
      if name != "" && name !in d.bodies {
        NothingUnder(FileLinesOf(raw), name);
        NothingIsSettled();
      }
    }
    ParseFilesByHeading(raw, "");
  }

  lemma NothingIsSettled()
    ensures Settled(Trim(Join([])))
  {
    assert Join([]) == "" && Trim("") == "" && Lines("")[0] == "";
  }

  /** A file parses to a normal document exactly when none of its headings is nameless and its lines
      under each name, trimmed, have no three newlines in a row and start with no heading. */
  lemma ParsesToNormalExactly(raw: string)
    ensures Normal(Parse(raw)) <==>
      !Names(FileLinesOf(raw), "") && forall name :: Settled(TextUnder(raw, name))
  {
    var lines := FileLinesOf(raw);
    var p, d := FedAll(BEFORE, Marks(lines)), Parse(raw);
    ReturnsAreGone(raw);
    LinesAreFree(WithoutReturns(raw), '\n');
    LinesAreFree(WithoutReturns(raw), '\r');
    ParserCollects(Marks(lines));
    NamesForm(p, d);
    TextsForm(p, d);
    NamelessLines(lines);
    if !Names(lines, "") {
      SettledTexts(raw);
    }
  }

  lemma NamelessLines(lines: seq<string>)
    ensures Nameless(Marks(lines)) <==> Names(lines, "")
  {
    if Names(lines, "") {
      var i :| 0 <= i < |lines| && HeadingName(lines[i]) == Some("");
      assert Marks(lines)[i].heading == Some("");
    }
  }
}
