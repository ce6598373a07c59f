/** The identity anchor: parsing a Markdown file into sections, merging an update, printing it again. */
module IdentityAnchor {
  import opened Collections
  import opened Options
  import opened Text
  import opened JoinedLines

  const TITLE := "# Identity Continuity Anchor"
  const PLACEHOLDER := "- (empty)"
  const TRAITS := "Identity Traits"
  const PREFERENCES := "Communication Preferences"
  const PRINCIPLES := "Operating Principles"
  const NOTES := "Continuity Notes"

  /** The sections every anchor has, in the order they are printed. */
  const STANDARD: seq<string> := [TRAITS, PREFERENCES, PRINCIPLES, NOTES]

  /** A parsed anchor: the text before the first section, and the sections in order of appearance. */
  datatype Doc = Doc(header: string, order: seq<string>, bodies: map<string, string>)

  // ---------------------------------------------------------------------------
  // Parsing
  // ---------------------------------------------------------------------------

  /** The characters a dot in a regular expression does not match. */
  predicate IsLineTerminator(c: char) {
    c == '\n' || c == '\r' || c == '\U{2028}' || c == '\U{2029}'
  }

  predicate HasTerminator(s: string) {
    exists i | 0 <= i < |s| :: IsLineTerminator(s[i])
  }

  /** The section a line names: two number signs, white space, and the rest up to trailing white
      space. A heading of at least two white-space characters names the empty section. */
  function HeadingName(line: string): Option<string> {
    if |line| < 3 || line[0] != '#' || line[1] != '#' || !IsSpace(line[2]) then None
    else
      var name := Trim(line[2..]);
      if name != "" then
        if HasTerminator(name) then None else Some(name)
      else if exists i | 3 <= i < |line| :: !IsLineTerminator(line[i]) then Some("") else None
  }

  function WithoutReturns(s: string): string {
    if s == [] then [] else WithoutReturns(s[..|s| - 1]) + if s[|s| - 1] == '\r' then [] else [s[|s| - 1]]
  }

  /** Parser state; `current` is empty before the first section and in a nameless one. */
  datatype Parser = Parser(header: seq<string>, order: seq<string>, content: map<string, seq<string>>, current: string)

  const BEFORE := Parser([], [], map[], "")

  /** A line with the section it names, if it is a heading. */
  datatype Mark = Mark(line: string, heading: Option<string>)

  function Marks(lines: seq<string>): (marks: seq<Mark>)
    ensures |marks| == |lines| && forall i | 0 <= i < |lines| :: marks[i] == Mark(lines[i], HeadingName(lines[i]))
  {
    seq(|lines|, i requires 0 <= i < |lines| => Mark(lines[i], HeadingName(lines[i])))
  }

  function Fed(p: Parser, mark: Mark): Parser {
    match mark.heading
    case Some(name) =>
      if name in p.content then p.(current := name)
      else Parser(p.header, p.order + [name], p.content[name := []], name)
    case None =>
      if p.current == "" then p.(header := p.header + [mark.line])
      else if p.current in p.content then p.(content := p.content[p.current := p.content[p.current] + [mark.line]])
      else p
  }

  function FedAll(p: Parser, marks: seq<Mark>): Parser {
    if marks == [] then p else Fed(FedAll(p, marks[..|marks| - 1]), marks[|marks| - 1])
  }

  function Finished(p: Parser): Doc {
    Doc(Trim(Join(p.header)), p.order, map name | name in p.content :: Trim(Join(p.content[name])))
  }

  function Parse(raw: string): Doc {
    Finished(FedAll(BEFORE, Marks(Lines(WithoutReturns(raw)))))
  }

  method ParseMarkdownSections(raw: string) returns (doc: Doc)
    ensures doc == Parse(raw)
  {
    var lines := Lines(WithoutReturns(raw));
    ghost var marks := Marks(lines);
    var header: seq<string>, order: seq<string>, content: map<string, seq<string>>, current := [], [], map[], "";
    for i := 0 to |lines|
      invariant Parser(header, order, content, current) == FedAll(BEFORE, marks[..i])
    {
      assert marks[..i + 1][..i] == marks[..i];
      var heading := HeadingName(lines[i]);
      if heading.Some? {
        current := heading.value;
        if current !in content {
          content := content[current := []];
          order := order + [current];
        }
      } else if current == "" {
        header := header + [lines[i]];
      } else if current in content {
        var more: seq<string> := content[current] + [lines[i]];
        content := content[current := more];
      }
    }
    assert marks[..|lines|] == marks;
    doc := Doc(Trim(Join(header)), order, map name | name in content :: Trim(Join(content[name])));
  }

  // ---------------------------------------------------------------------------
  // Printing
  // ---------------------------------------------------------------------------

  /** Every run of three or more newlines becomes two: a newline after two others is dropped. */
  function Collapsed(s: string): string {
    CollapsedTo(s, |s|)
  }

  /** The same for the first `k` characters. */
  function CollapsedTo(s: string, k: nat): string
    requires k <= |s|
  {
    if k == 0 then [] else CollapsedTo(s, k - 1) + if TripleAt(s, k - 1) then [] else [s[k - 1]]
  }

  predicate TripleAt(s: string, i: nat)
    requires i < |s|
  {
    i >= 2 && s[i] == '\n' && s[i - 1] == '\n' && s[i - 2] == '\n'
  }

  predicate NoTriple(s: string) {
    forall i | 0 <= i < |s| :: !TripleAt(s, i)
  }

  function BodyOf(d: Doc, name: string): string {
    if name in d.bodies then d.bodies[name] else ""
  }

  function HeadingLine(name: string): string {
    "## " + name
  }

  function PrintedSection(name: string, body: string): (lines: seq<string>)
    ensures lines != []
  {
    [HeadingLine(name), ""] + if Trim(body) != "" then [Trim(body), ""] else [""]
  }

  function PrintedLines(d: Doc, k: nat): (lines: seq<string>)
    requires k <= |d.order|
    ensures lines != []
  {
    if k == 0 then [Trim(d.header), ""]
    else PrintedLines(d, k - 1) + PrintedSection(d.order[k - 1], BodyOf(d, d.order[k - 1]))
  }

  function Print(d: Doc): string {
    TrimEnd(Collapsed(Join(PrintedLines(d, |d.order|)))) + ['\n']
  }

  // ---------------------------------------------------------------------------
  // Normal form
  // ---------------------------------------------------------------------------

  predicate NoHeading(s: string) {
    forall line | line in Lines(s) :: HeadingName(line).None?
  }

  /** Text that survives printing and parsing: trimmed, without heading lines, carriage returns or
      three newlines in a row. */
  predicate PlainText(s: string) {
    Trim(s) == s && NoHeading(s) && Lacks(s, '\r') && NoTriple(s)
  }

  predicate GoodName(name: string) {
    name != "" && Trim(name) == name && !HasTerminator(name)
  }

  predicate Normal(d: Doc) {
    && Distinct(d.order)
    && (forall name | name in d.order :: name in d.bodies) && (forall name | name in d.bodies :: name in d.order)
    && (forall name | name in d.order :: GoodName(name))
    && (forall name | name in d.bodies :: PlainText(d.bodies[name]))
    && PlainText(d.header)
  }

  // The lines of a normal document as they stand in the file.

  function BodyLines(body: string): seq<string> {
    (if body != "" then [""] + Lines(body) else []) + [""]
  }

  function FileLines(d: Doc, k: nat): (lines: seq<string>)
    requires k <= |d.order|
    ensures |lines| >= 2
  {
    if k == 0 then Lines(d.header) + [""]
    else FileLines(d, k - 1) + [HeadingLine(d.order[k - 1])] + BodyLines(BodyOf(d, d.order[k - 1]))
  }

  predicate GoodSection(d: Doc, i: nat)
    requires i < |d.order|
  {
    GoodName(d.order[i]) && PlainText(BodyOf(d, d.order[i])) && d.order[i] !in d.order[..i]
  }

  predicate GoodSections(d: Doc) {
    forall i | 0 <= i < |d.order| :: GoodSection(d, i)
  }

  lemma SectionsOf(d: Doc)
    requires Normal(d)
    ensures GoodSections(d)
  {
    forall i | 0 <= i < |d.order| ensures GoodSection(d, i) {
      assert d.order[i] in d.order;
    }
  }

  /** The file a normal document stands for. */
  function Render(d: Doc): string {
    Join(FileLines(d, |d.order|))
  }

  // ---------------------------------------------------------------------------
  // Reading a rendered document
  // ---------------------------------------------------------------------------

  lemma {:induction false} FedAppend(p: Parser, a: seq<Mark>, b: seq<Mark>)
    ensures FedAll(p, a + b) == FedAll(FedAll(p, a), b)
  {
    if b == [] {
      assert a + b == a;
    } else {
      assert (a + b)[..|a + b| - 1] == a + b[..|b| - 1];
      FedAppend(p, a, b[..|b| - 1]);
    }
  }

  function Plain(lines: seq<string>): (marks: seq<Mark>)
    ensures |marks| == |lines| && forall i | 0 <= i < |lines| :: marks[i] == Mark(lines[i], None)
  {
    seq(|lines|, i requires 0 <= i < |lines| => Mark(lines[i], None))
  }

  /** Lines that are no headings all go to the header or to the current section. */
  lemma {:induction false} FedPlain(p: Parser, lines: seq<string>)
    requires p.current != "" ==> p.current in p.content
    ensures FedAll(p, Plain(lines)) ==
      if p.current == "" then p.(header := p.header + lines)
      else p.(content := p.content[p.current := p.content[p.current] + lines])
  {
    if lines == [] {
      assert p.header + lines == p.header;
      if p.current != "" {
        assert p.content[p.current] + lines == p.content[p.current];
        assert p.content[p.current := p.content[p.current]] == p.content;
      }
    } else {
      var front, last := lines[..|lines| - 1], lines[|lines| - 1];
      FedPlain(p, front);
      assert lines == front + [last];
      assert Plain(lines)[..|lines| - 1] == Plain(front);
      if p.current == "" {
        assert p.header + lines == p.header + front + [last];
      } else {
        assert p.content[p.current] + lines == p.content[p.current] + front + [last];
      }
    }
  }

  function SectionMarks(name: string, lines: seq<string>): seq<Mark> {
    [Mark(HeadingLine(name), Some(name))] + Plain(lines)
  }

  /** Reading `marks` takes the parser from `p` to `q`. */
  predicate Feeds(p: Parser, marks: seq<Mark>, q: Parser) {
    FedAll(p, marks) == q
  }

  lemma FeedsBoth(p: Parser, a: seq<Mark>, q: Parser, b: seq<Mark>, r: Parser)
    requires Feeds(p, a, q) && Feeds(q, b, r)
    ensures Feeds(p, a + b, r)
  {
    FedAppend(p, a, b);
  }

  lemma FeedsHeading(p: Parser, name: string)
    requires name !in p.content
    ensures Feeds(p, [Mark(HeadingLine(name), Some(name))],
        Parser(p.header, p.order + [name], p.content[name := []], name))
  {
    var first := [Mark(HeadingLine(name), Some(name))];
    assert first[..0] == [];
    assert FedAll(p, first) == Fed(FedAll(p, []), first[0]);
  }

  lemma FeedsBody(p: Parser, lines: seq<string>)
    requires p.current != "" && p.current in p.content && p.content[p.current] == []
    ensures Feeds(p, Plain(lines), p.(content := p.content[p.current := lines]))
  {
    FedPlain(p, lines);
    assert [] + lines == lines;
  }

  lemma FeedsSection(p: Parser, name: string, lines: seq<string>)
    requires name != "" && name !in p.content
    ensures Feeds(p, SectionMarks(name, lines), Parser(p.header, p.order + [name], p.content[name := lines], name))
  {
    var q := Parser(p.header, p.order + [name], p.content[name := []], name);
    var r := Parser(p.header, p.order + [name], p.content[name := lines], name);
    FeedsHeading(p, name);
    FeedsBody(q, lines);
    assert p.content[name := []][name := lines] == p.content[name := lines];
    FeedsBoth(p, [Mark(HeadingLine(name), Some(name))], q, Plain(lines), r);
  }

  // The marks of a normal document's lines.

  lemma HeadingOfName(name: string)
    requires GoodName(name)
    ensures HeadingName(HeadingLine(name)) == Some(name)
  {
    var line := HeadingLine(name);
    assert line[2..] == [' '] + name;
    TrimPadded([' '], name, []);
    assert [' '] + name + [] == [' '] + name;
  }

  lemma MarksAppend(a: seq<string>, b: seq<string>)
    ensures Marks(a + b) == Marks(a) + Marks(b)
  {
  }

  function FileMarks(d: Doc, k: nat): seq<Mark>
    requires k <= |d.order|
  {
    if k == 0 then Plain(Lines(d.header) + [""])
    else FileMarks(d, k - 1) + SectionMarks(d.order[k - 1], BodyLines(BodyOf(d, d.order[k - 1])))
  }

  lemma SectionIsMarked(name: string, body: string)
    requires GoodName(name) && NoHeading(body)
    ensures Marks([HeadingLine(name)] + BodyLines(body)) == SectionMarks(name, BodyLines(body))
  {
    HeadingOfName(name);
    MarksAppend([HeadingLine(name)], BodyLines(body));
    assert Marks([HeadingLine(name)]) == [Mark(HeadingLine(name), Some(name))];
  }

  lemma FileIsMarkedNext(d: Doc, k: nat)
    requires k < |d.order| && GoodSection(d, k) && Marks(FileLines(d, k)) == FileMarks(d, k)
    ensures Marks(FileLines(d, k + 1)) == FileMarks(d, k + 1)
  {
    var section := [HeadingLine(d.order[k])] + BodyLines(BodyOf(d, d.order[k]));
    SectionIsMarked(d.order[k], BodyOf(d, d.order[k]));
    MarksAppend(FileLines(d, k), section);
    FileLinesNext(d, k);
  }

  lemma {:induction false} FileIsMarked(d: Doc, k: nat)
    requires GoodSections(d) && NoHeading(d.header) && k <= |d.order|
    ensures Marks(FileLines(d, k)) == FileMarks(d, k)
  {
    if k == 0 {
    } else {
      FileIsMarked(d, k - 1);
      FileIsMarkedNext(d, k - 1);
    }
  }

  lemma FileLinesNext(d: Doc, k: nat)
    requires k < |d.order|
    ensures FileLines(d, k + 1) == FileLines(d, k) + ([HeadingLine(d.order[k])] + BodyLines(BodyOf(d, d.order[k])))
  {
  }

  function Contents(d: Doc, k: nat): map<string, seq<string>>
    requires k <= |d.order|
  {
    map name | name in d.order[..k] :: BodyLines(BodyOf(d, name))
  }

  function ParserAt(d: Doc, k: nat): Parser
    requires k <= |d.order|
  {
    Parser(Lines(d.header) + [""], d.order[..k], Contents(d, k), if k == 0 then "" else d.order[k - 1])
  }

  /** The parser reads the file up to section `k` as it should. */
  ghost predicate ReadsUpTo(d: Doc, k: nat)
    requires k <= |d.order|
  {
    Feeds(BEFORE, FileMarks(d, k), ParserAt(d, k))
  }

  /** Section `k` has a name, and one that has not occurred before. */
  predicate NewSection(d: Doc, k: nat)
    requires k < |d.order|
  {
    d.order[k] != "" && d.order[k] !in d.order[..k]
  }

  lemma SectionsAreNew(d: Doc)
    requires GoodSections(d)
    ensures forall i | 0 <= i < |d.order| :: NewSection(d, i)
  {
    forall i | 0 <= i < |d.order| ensures NewSection(d, i) {
      assert GoodSection(d, i);
    }
  }

  lemma FedNext(d: Doc, k: nat)
    requires k < |d.order| && NewSection(d, k) && ReadsUpTo(d, k)
    ensures ReadsUpTo(d, k + 1)
  {
    var name := d.order[k];
    var body := BodyLines(BodyOf(d, name));
    FeedsSection(ParserAt(d, k), name, body);
    ContentsNext(d, k);
    FeedsBoth(BEFORE, FileMarks(d, k), ParserAt(d, k), SectionMarks(name, body), ParserAt(d, k + 1));
  }

  lemma ContentsNext(d: Doc, k: nat)
    requires k < |d.order|
    ensures d.order[..k + 1] == d.order[..k] + [d.order[k]]
    ensures Contents(d, k + 1) == Contents(d, k)[d.order[k] := BodyLines(BodyOf(d, d.order[k]))]
  {
  }

  lemma FedHeader(d: Doc)
    ensures ReadsUpTo(d, 0)
  {
    FedHeaderLines(Lines(d.header) + [""]);
    assert Contents(d, 0) == map[] && d.order[..0] == [];
  }

  lemma FedHeaderLines(lines: seq<string>)
    ensures FedAll(BEFORE, Plain(lines)) == Parser(lines, [], map[], "")
  {
    FedPlain(BEFORE, lines);
    assert [] + lines == lines;
  }

  lemma FedFile(d: Doc)
    requires forall i | 0 <= i < |d.order| :: NewSection(d, i)
    ensures ReadsUpTo(d, |d.order|)
  {
    var p := (k: nat) => k <= |d.order| && ReadsUpTo(d, k);
    FedHeader(d);
    forall k: nat | k < |d.order| ensures p(k) ==> p(k + 1) {
      if p(k) {
        FedNext(d, k);
      }
    }
    Induct(p, |d.order|);
  }

  lemma BodyIsTrimmedLines(body: string)
    requires Trim(body) == body
    ensures Trim(Join(BodyLines(body))) == body
  {
    if body == "" {
      assert Join(BodyLines(body)) == "";
    } else {
      JoinOfLines(body);
      JoinAppend([""] + Lines(body), [""]);
      JoinAppend([""], Lines(body));
      assert Join(BodyLines(body)) == ['\n'] + body + ['\n'];
      TrimPadded(['\n'], body, ['\n']);
    }
  }

  lemma HeaderIsTrimmedLines(header: string)
    requires Trim(header) == header
    ensures Trim(Join(Lines(header) + [""])) == header
  {
    JoinHeader(header);
    TrimOneNewline(header);
  }

  lemma TrimOneNewline(s: string)
    requires Trim(s) == s
    ensures Trim(s + ['\n']) == s
  {
    if s == "" {
      assert s + ['\n'] == ['\n'];
    } else {
      TrimPadded([], s, ['\n']);
      assert [] + s + ['\n'] == s + ['\n'];
    }
  }

  lemma BodyLinesFree(body: string, c: char)
    requires Lacks(body, c) || c == '\n'
    ensures Free(BodyLines(body), c)
  {
    LinesAreFree(body, c);
  }

  lemma HeadingLineFree(name: string, c: char)
    requires GoodName(name) && (c == '\n' || c == '\r')
    ensures Lacks(HeadingLine(name), c)
  {
    assert IsLineTerminator(c);
  }

  predicate FreeUpTo(d: Doc, k: nat, c: char)
    requires k <= |d.order|
  {
    Free(FileLines(d, k), c)
  }

  lemma HeaderLinesFree(d: Doc, c: char)
    requires Lacks(d.header, c) || c == '\n'
    ensures FreeUpTo(d, 0, c)
  {
    LinesAreFree(d.header, c);
  }

  /** Section `i` brings no `c` into the file. */
  predicate FreeSection(d: Doc, i: nat, c: char)
    requires i < |d.order|
  {
    Lacks(HeadingLine(d.order[i]), c) && Free(BodyLines(BodyOf(d, d.order[i])), c)
  }

  lemma SectionsAreFree(d: Doc, c: char)
    requires GoodSections(d) && (c == '\n' || c == '\r')
    ensures forall i | 0 <= i < |d.order| :: FreeSection(d, i, c)
  {
    forall i | 0 <= i < |d.order| ensures FreeSection(d, i, c) {
      assert GoodSection(d, i);
      BodyLinesFree(BodyOf(d, d.order[i]), c);
      HeadingLineFree(d.order[i], c);
    }
  }

  lemma FileLinesFreeNext(d: Doc, k: nat, c: char)
    requires k < |d.order| && FreeSection(d, k, c) && FreeUpTo(d, k, c)
    ensures FreeUpTo(d, k + 1, c)
  {
    FileLinesNext(d, k);
  }

  lemma {:induction false} FileLinesFree(d: Doc, k: nat, c: char)
    requires forall i | 0 <= i < |d.order| :: FreeSection(d, i, c)
    requires (Lacks(d.header, c) || c == '\n') && k <= |d.order|
    ensures FreeUpTo(d, k, c)
  {
    if k == 0 {
      HeaderLinesFree(d, c);
    } else {
      FileLinesFree(d, k - 1, c);
      FileLinesFreeNext(d, k - 1, c);
    }
  }

  lemma {:induction false} NothingReturned(s: string)
    requires Lacks(s, '\r')
    ensures WithoutReturns(s) == s
  {
    if s != [] {
      NothingReturned(s[..|s| - 1]);
      assert s == s[..|s| - 1] + [s[|s| - 1]];
    }
  }

  /** What the parser ends with stands for the document. */
  lemma FinishedFile(d: Doc)
    requires Normal(d)
    ensures Finished(ParserAt(d, |d.order|)) == d
  {
    HeaderIsTrimmedLines(d.header);
    assert d.order[..|d.order|] == d.order;
    forall name | name in d.bodies ensures Trim(Join(BodyLines(BodyOf(d, name)))) == d.bodies[name] {
      BodyIsTrimmedLines(d.bodies[name]);
    }
  }

  lemma ParseOfRender(d: Doc)
    requires Normal(d)
    ensures Parse(Render(d)) == d
  {
    var lines := FileLines(d, |d.order|);
    SectionsOf(d);
    SectionsAreFree(d, '\n');
    SectionsAreFree(d, '\r');
    FileLinesFree(d, |d.order|, '\n');
    FileLinesFree(d, |d.order|, '\r');
    JoinFree(lines, '\r');
    NothingReturned(Join(lines));
    LinesOfJoin(lines);
    FileIsMarked(d, |d.order|);
    SectionsAreNew(d);
    FedFile(d);
    FinishedFile(d);
  }

  // ---------------------------------------------------------------------------
  // Printing a normal document renders it
  // ---------------------------------------------------------------------------

  const BREAK := "\n\n"

  function SectionText(name: string, body: string): string {
    HeadingLine(name) + if body != "" then BREAK + body else ""
  }

  /** The file without its last newline. */
  function Core(d: Doc, k: nat): string
    requires k <= |d.order|
  {
    if k == 0 then d.header else Core(d, k - 1) + BREAK + SectionText(d.order[k - 1], BodyOf(d, d.order[k - 1]))
  }

  lemma JoinBodyLines(body: string)
    ensures Join(BodyLines(body)) == if body != "" then ['\n'] + body + ['\n'] else ""
  {
    if body != "" {
      JoinOfLines(body);
      JoinAppend([""] + Lines(body), [""]);
      JoinAppend([""], Lines(body));
    }
  }

  lemma JoinSection(name: string, body: string)
    ensures Join([HeadingLine(name)] + BodyLines(body)) == SectionText(name, body) + ['\n']
  {
    JoinAppend([HeadingLine(name)], BodyLines(body));
    JoinBodyLines(body);
  }

  lemma JoinHeader(header: string)
    ensures Join(Lines(header) + [""]) == header + ['\n']
  {
    JoinOfLines(header);
    JoinAppend(Lines(header), [""]);
  }

  lemma RenderIsCoreNext(d: Doc, k: nat)
    requires k < |d.order| && Join(FileLines(d, k)) == Core(d, k) + ['\n']
    ensures Join(FileLines(d, k + 1)) == Core(d, k + 1) + ['\n']
  {
    var name, body := d.order[k], BodyOf(d, d.order[k]);
    var section := [HeadingLine(name)] + BodyLines(body);
    FileLinesNext(d, k);
    JoinAppend(FileLines(d, k), section);
    JoinSection(name, body);
  }

  lemma {:induction false} RenderIsCore(d: Doc, k: nat)
    requires k <= |d.order|
    ensures Join(FileLines(d, k)) == Core(d, k) + ['\n']
  {
    if k == 0 {
      JoinHeader(d.header);
    } else {
      RenderIsCore(d, k - 1);
      RenderIsCoreNext(d, k - 1);
    }
  }

  predicate EndsInk(s: string) {
    s != "" && !IsSpace(s[|s| - 1])
  }

  lemma {:induction false} CollapsedStart(s: string, more: string, k: nat)
    requires k <= |s|
    ensures CollapsedTo(s + more, k) == CollapsedTo(s, k)
  {
    if k > 0 {
      CollapsedStart(s, more, k - 1);
      assert TripleAt(s + more, k - 1) == TripleAt(s, k - 1);
    }
  }

  lemma CollapsedPush(s: string, c: char)
    ensures Collapsed(s + [c]) == Collapsed(s) + if TripleAt(s + [c], |s|) then [] else [c]
  {
    CollapsedStart(s, [c], |s|);
  }

  lemma {:induction false} CollapsedInk(a: string, b: string)
    requires NoTriple(b) && (b != "" ==> b[0] != '\n')
    ensures Collapsed(a + b) == Collapsed(a) + b
  {
    if b == "" {
      assert a + b == a;
    } else {
      var front, last := b[..|b| - 1], b[|b| - 1];
      forall i | 0 <= i < |front| ensures !TripleAt(front, i) {
        assert !TripleAt(b, i);
      }
      CollapsedInk(a, front);
      CollapsedPush(a + front, last);
      assert b == front + [last] && a + b == a + front + [last];
      assert !TripleAt(b, |b| - 1);
    }
  }

  /** Two or three newlines after ink become two. */
  lemma CollapsedBreak(x: string, three: bool)
    requires EndsInk(x)
    ensures Collapsed(x + BREAK + if three then ['\n'] else []) == Collapsed(x) + BREAK
  {
    CollapsedPush(x, '\n');
    assert x + ['\n'] + ['\n'] == x + BREAK;
    CollapsedPush(x + ['\n'], '\n');
    assert Collapsed(x) + ['\n'] + ['\n'] == Collapsed(x) + BREAK;
    if three {
      CollapsedPush(x + BREAK, '\n');
    } else {
      assert x + BREAK + [] == x + BREAK;
    }
  }

  lemma SectionTextIsInk(name: string, body: string)
    requires GoodName(name) && PlainText(body)
    ensures NoTriple(SectionText(name, body)) && EndsInk(SectionText(name, body)) && SectionText(name, body)[0] != '\n'
  {
    var heading, text := HeadingLine(name), SectionText(name, body);
    TrimmedEnds(name);
    HeadingLineFree(name, '\n');
    assert forall i | 0 <= i < |heading| :: heading[i] != '\n';
    if body == "" {
      assert text == heading;
    } else {
      TrimmedEnds(body);
      forall i | 0 <= i < |text| ensures !TripleAt(text, i) {
        if i < |heading| {
          assert text[i] == heading[i];
        } else if i < |heading| + 2 {
          assert text[|heading| - 1] == heading[|heading| - 1];
        } else {
          assert !TripleAt(body, i - |heading| - 2);
        }
      }
    }
  }

  function Tail(body: string): string {
    if body != "" then ['\n'] else BREAK
  }

  lemma JoinPrinted(name: string, body: string)
    requires Trim(body) == body
    ensures Join(PrintedSection(name, body)) == SectionText(name, body) + Tail(body)
  {
    var lines := PrintedSection(name, body);
    if body != "" {
      assert lines == [HeadingLine(name)] + [""] + [body] + [""];
      JoinAppend([HeadingLine(name)] + [""] + [body], [""]);
      JoinAppend([HeadingLine(name)] + [""], [body]);
    } else {
      assert lines == [HeadingLine(name)] + [""] + [""];
      JoinAppend([HeadingLine(name)] + [""], [""]);
    }
    JoinAppend([HeadingLine(name)], [""]);
  }

  /** The text before and after runs of newlines are collapsed, up to the newlines at its end. */
  predicate PrintsAs(text: string, x: string, tail: string, core: string) {
    text == x + tail && (tail == ['\n'] || tail == BREAK) && EndsInk(x) && Collapsed(x) == core
  }

  lemma PrintsNext(text: string, x: string, tail: string, core: string, section: string)
    requires PrintsAs(text, x, tail, core)
    requires NoTriple(section) && EndsInk(section) && section[0] != '\n'
    ensures Collapsed(text + ['\n'] + section) == core + BREAK + section && EndsInk(text + ['\n'] + section)
  {
    CollapsedBreak(x, tail == BREAK);
    assert text + ['\n'] == x + BREAK + if tail == BREAK then ['\n'] else [];
    CollapsedInk(text + ['\n'], section);
  }

  lemma PrintedHeader(header: string)
    requires PlainText(header) && header != ""
    ensures PrintsAs(Join([Trim(header), ""]), header, ['\n'], header)
  {
    TrimmedEnds(header);
    JoinAppend([header], [""]);
    assert [header, ""] == [header] + [""];
    CollapsedInk([], header);
    assert [] + header == header;
  }

  lemma PrintedNext(d: Doc, k: nat, x: string, tail: string) returns (y: string, end: string)
    requires k < |d.order| && GoodSection(d, k) && PrintsAs(Join(PrintedLines(d, k)), x, tail, Core(d, k))
    ensures PrintsAs(Join(PrintedLines(d, k + 1)), y, end, Core(d, k + 1))
  {
    var name, body := d.order[k], BodyOf(d, d.order[k]);
    var text, section := Join(PrintedLines(d, k)), SectionText(name, body);
    SectionTextIsInk(name, body);
    PrintsNext(text, x, tail, Core(d, k), section);
    JoinPrinted(name, body);
    JoinAppend(PrintedLines(d, k), PrintedSection(name, body));
    y, end := text + ['\n'] + section, Tail(body);
    assert Join(PrintedLines(d, k + 1)) == y + end;
  }

  lemma {:induction false} PrintedText(d: Doc, k: nat) returns (x: string, tail: string)
    requires GoodSections(d) && PlainText(d.header) && d.header != "" && k <= |d.order|
    ensures PrintsAs(Join(PrintedLines(d, k)), x, tail, Core(d, k))
  {
    if k == 0 {
      PrintedHeader(d.header);
      x, tail := d.header, ['\n'];
    } else {
      x, tail := PrintedText(d, k - 1);
      x, tail := PrintedNext(d, k - 1, x, tail);
    }
  }

  lemma CoreEndsInk(d: Doc, k: nat)
    requires GoodSections(d) && PlainText(d.header) && d.header != "" && k <= |d.order|
    ensures EndsInk(Core(d, k))
  {
    if k == 0 {
      TrimmedEnds(d.header);
    } else {
      assert GoodSection(d, k - 1);
      SectionTextIsInk(d.order[k - 1], BodyOf(d, d.order[k - 1]));
    }
  }

  lemma CollapsedTail(x: string, tail: string)
    requires EndsInk(x) && (tail == ['\n'] || tail == BREAK)
    ensures Collapsed(x + tail) == Collapsed(x) + tail
  {
    if tail == BREAK {
      CollapsedBreak(x, false);
      assert x + BREAK + [] == x + tail;
    } else {
      CollapsedPush(x, '\n');
    }
  }

  lemma PrintIsRender(d: Doc)
    requires Normal(d) && d.header != ""
    ensures Print(d) == Render(d)
  {
    var n := |d.order|;
    SectionsOf(d);
    var x, tail := PrintedText(d, n);
    CollapsedTail(x, tail);
    CoreEndsInk(d, n);
    assert Blank(tail);
    TrimEndOf(Core(d, n), tail);
    RenderIsCore(d, n);
  }

  /** Printing and parsing are inverse on normal documents. */
  lemma ParseOfPrint(d: Doc)
    requires Normal(d) && d.header != ""
    ensures Parse(Print(d)) == d
    ensures Print(Parse(Print(d))) == Print(d)
  {
    PrintIsRender(d);
    ParseOfRender(d);
  }

  // ---------------------------------------------------------------------------
  // Merging one section
  // ---------------------------------------------------------------------------

  predicate Includes(s: string, part: string) {
    exists i | 0 <= i <= |s| :: part <= s[i..]
  }

  function Kept(existing: Option<string>): string {
    if existing.None? || Trim(existing.value) == PLACEHOLDER then "" else Trim(existing.value)
  }

  function Given(incoming: Option<string>): string {
    if incoming.None? then "" else Trim(incoming.value)
  }

  function Combined(prev: string, next: string): string {
    if next == "" then prev
    else if prev == "" then next
    else if Includes(prev, next) then prev
    else if Includes(next, prev) then next
    else prev + BREAK + next
  }

  function MergedSection(existing: Option<string>, incoming: Option<string>): string {
    Combined(Kept(existing), Given(incoming))
  }

  lemma IncludesItself(s: string)
    ensures Includes(s, s)
  {
    assert s <= s[0..];
  }

  lemma IncludesParts(a: string, b: string)
    ensures Includes(a + BREAK + b, a) && Includes(a + BREAK + b, b)
  {
    var s := a + BREAK + b;
    assert a <= s[0..];
    assert b <= s[|s| - |b|..];
  }

  /** The merged section holds both what was there and what came in. */
  lemma CombinedIncludesBoth(prev: string, next: string)
    ensures Includes(Combined(prev, next), prev) && Includes(Combined(prev, next), next)
  {
    IncludesItself(prev);
    IncludesItself(next);
    IncludesParts(prev, next);
    assert "" <= Combined(prev, next)[0..];
  }

  lemma TrimJoined(a: string, b: string)
    requires a != "" && b != "" && Trim(a) == a && Trim(b) == b
    ensures Trim(a + BREAK + b) == a + BREAK + b
  {
    TrimmedEnds(a);
    TrimmedEnds(b);
    TrimFixed(a + BREAK + b);
  }

  lemma CombinedIsTrimmed(prev: string, next: string)
    requires Trim(prev) == prev && Trim(next) == next
    ensures Trim(Combined(prev, next)) == Combined(prev, next)
  {
    if prev != "" && next != "" {
      TrimJoined(prev, next);
    }
  }

  lemma GivenIsTrimmed(incoming: Option<string>)
    ensures Trim(Given(incoming)) == Given(incoming)
  {
    if incoming.Some? {
      TrimIdempotent(incoming.value);
    } else {
      TrimFixed("");
    }
  }

  lemma KeptIsTrimmed(existing: Option<string>)
    ensures Trim(Kept(existing)) == Kept(existing)
  {
    TrimFixed("");
    if existing.Some? {
      TrimIdempotent(existing.value);
    }
  }

  lemma KeptIsNoPlaceholder(existing: Option<string>)
    ensures Kept(existing) != PLACEHOLDER
  {
    assert |PLACEHOLDER| == 9;
  }

  lemma CombineTwice(prev: string, next: string, m: string, kept: string, placeholder: string)
    requires m == Combined(prev, next) && prev != placeholder && Lacks(placeholder, '\n')
    requires kept == if m == placeholder then "" else m
    ensures Combined(kept, next) == m
  {
    CombinedIncludesBoth(prev, next);
    if m == prev + BREAK + next {
      assert m[|prev|] == '\n';
    }
  }

  /** The same update applied twice to any section is applied once. */
  lemma MergeSectionTwice(existing: Option<string>, incoming: Option<string>)
    ensures MergedSection(Some(MergedSection(existing, incoming)), incoming) == MergedSection(existing, incoming)
  {
    var m := MergedSection(existing, incoming);
    KeptOfMerged(existing, incoming);
    CombineTwice(Kept(existing), Given(incoming), m, Kept(Some(m)), PLACEHOLDER);
  }

  lemma KeptOfMerged(existing: Option<string>, incoming: Option<string>)
    ensures var m := MergedSection(existing, incoming); Kept(Some(m)) == if m == PLACEHOLDER then "" else m
    ensures Kept(existing) != PLACEHOLDER
  {
    KeptIsTrimmed(existing);
    KeptIsNoPlaceholder(existing);
    GivenIsTrimmed(incoming);
    CombinedIsTrimmed(Kept(existing), Given(incoming));
  }

  // ---------------------------------------------------------------------------
  // Merging an anchor
  // ---------------------------------------------------------------------------

  function Lookup(m: map<string, string>, name: string): Option<string> {
    if name in m then Some(m[name]) else None
  }

  /** The names that are not standard, in order. */
  function Others(order: seq<string>): seq<string> {
    if order == [] then []
    else Others(order[..|order| - 1]) + if order[|order| - 1] in STANDARD then [] else [order[|order| - 1]]
  }

  /** The sections named, merged one after another. */
  function MergedBodies(bodies: map<string, string>, updates: map<string, string>, names: seq<string>)
    : map<string, string>
  {
    if names == [] then bodies
    else
      MergedInto(MergedBodies(bodies, updates, names[..|names| - 1]), updates, names[|names| - 1])
  }

  function MergedInto(sections: map<string, string>, updates: map<string, string>, name: string): map<string, string> {
    sections[name := MergedSection(Lookup(sections, name), Lookup(updates, name))]
  }

  function MergedDoc(d: Doc, updates: map<string, string>): Doc {
    var header := if d.header != "" then d.header else TITLE;
    Doc(header, STANDARD + Others(d.order), MergedBodies(d.bodies, updates, STANDARD))
  }

  function MergedText(existing: Option<string>, updates: map<string, string>): string {
    Print(MergedDoc(Parse(Existing(existing)), updates))
  }

  lemma {:induction false} OthersElements(order: seq<string>)
    ensures forall name :: name in Others(order) <==> name in order && name !in STANDARD
    ensures Distinct(order) ==> Distinct(Others(order))
  {
    if order != [] {
      var front, last := order[..|order| - 1], order[|order| - 1];
      OthersElements(front);
      assert order == front + [last];
      assert Distinct(order) ==> Distinct(front) && last !in front;
    }
  }

  lemma {:induction false} OthersAppend(a: seq<string>, b: seq<string>)
    ensures Others(a + b) == Others(a) + Others(b)
  {
    if b == [] {
      assert a + b == a;
    } else {
      assert (a + b)[..|a + b| - 1] == a + b[..|b| - 1];
      OthersAppend(a, b[..|b| - 1]);
    }
  }

  lemma {:induction false} NoOthers(order: seq<string>)
    requires forall name | name in order :: name in STANDARD
    ensures Others(order) == []
  {
    if order != [] {
      NoOthers(order[..|order| - 1]);
    }
  }

  lemma {:induction false} AllOthers(order: seq<string>)
    requires forall name | name in order :: name !in STANDARD
    ensures Others(order) == order
  {
    if order != [] {
      AllOthers(order[..|order| - 1]);
      assert order == order[..|order| - 1] + [order[|order| - 1]];
    }
  }

  lemma OthersOfMerged(order: seq<string>)
    ensures Others(STANDARD + Others(order)) == Others(order)
  {
    OthersAppend(STANDARD, Others(order));
    NoOthers(STANDARD);
    OthersElements(order);
    AllOthers(Others(order));
  }

  method MergeSections(bodies: map<string, string>, updates: map<string, string>, names: seq<string>)
    returns (sections: map<string, string>)
    ensures sections == MergedBodies(bodies, updates, names)
  {
    sections := bodies;
    for i := 0 to |names|
      invariant sections == MergedBodies(bodies, updates, names[..i])
    {
      assert names[..i + 1][..i] == names[..i];
      sections := MergedInto(sections, updates, names[i]);
    }
    assert names[..|names|] == names;
  }

  method MergeIdentityAnchor(existing: Option<string>, updates: map<string, string>) returns (text: string)
    ensures text == MergedText(existing, updates)
  {
    var parsed := ParseMarkdownSections(Existing(existing));
    var sections := MergeSections(parsed.bodies, updates, STANDARD);
    var finalOrder := OrderNames(parsed.order);
    text := Print(Doc(if |parsed.header| > 0 then parsed.header else TITLE, finalOrder, sections));
  }

  method OrderNames(order: seq<string>) returns (finalOrder: seq<string>)
    ensures finalOrder == STANDARD + Others(order)
  {
    finalOrder := STANDARD;
    for i := 0 to |order|
      invariant finalOrder == STANDARD + Others(order[..i])
    {
      assert order[..i + 1][..i] == order[..i];
      if order[i] !in STANDARD {
        finalOrder := finalOrder + [order[i]];
      }
    }
    assert order[..|order|] == order;
  }

  // ---------------------------------------------------------------------------
  // Merging keeps the normal form, loses nothing and is idempotent
  // ---------------------------------------------------------------------------

  lemma {:induction false} MergedBodiesAre(bodies: map<string, string>, updates: map<string, string>,
      names: seq<string>, name: string)
    requires Distinct(names)
    ensures var m := MergedBodies(bodies, updates, names);
      && (name in m <==> name in bodies || name in names)
      && (name in names ==> m[name] == MergedSection(Lookup(bodies, name), Lookup(updates, name)))
      && (name in bodies && name !in names ==> m[name] == bodies[name])
  {
    if names != [] {
      var front, last := names[..|names| - 1], names[|names| - 1];
      assert names == front + [last] && last !in front;
      MergedBodiesAre(bodies, updates, front, name);
      MergedBodiesAre(bodies, updates, front, last);
    }
  }

  lemma StandardIsDistinct()
    ensures Distinct(STANDARD)
  {
    assert |TRAITS| == 15 && |PREFERENCES| == 25 && |PRINCIPLES| == 20 && |NOTES| == 16;
  }

  /** The same update applied twice to any document is applied once. */
  lemma MergeDocTwice(d: Doc, updates: map<string, string>)
    ensures MergedDoc(MergedDoc(d, updates), updates) == MergedDoc(d, updates)
  {
    var once := MergedDoc(d, updates);
    OthersOfMerged(d.order);
    StandardIsDistinct();
    MergeBodiesTwice(d.bodies, updates, STANDARD);
  }

  lemma MergeBodiesTwice(bodies: map<string, string>, updates: map<string, string>, names: seq<string>)
    requires Distinct(names)
    ensures MergedBodies(MergedBodies(bodies, updates, names), updates, names) == MergedBodies(bodies, updates, names)
  {
    var once := MergedBodies(bodies, updates, names);
    var twice := MergedBodies(once, updates, names);
    forall name ensures (name in twice <==> name in once) && (name in once ==> twice[name] == once[name]) {
      MergedBodiesAre(bodies, updates, names, name);
      MergedBodiesAre(once, updates, names, name);
      MergeSectionTwice(Lookup(bodies, name), Lookup(updates, name));
    }
  }

  lemma PlainJoined(a: string, b: string)
    requires PlainText(a) && PlainText(b) && a != "" && b != ""
    ensures PlainText(a + BREAK + b)
  {
    TrimJoined(a, b);
    TrimmedEnds(a);
    TrimmedEnds(b);
    LinesJoined(a, b);
    NoTripleJoined(a, b);
    assert Lacks(a + BREAK + b, '\r');
  }

  lemma NoTripleJoined(a: string, b: string)
    requires NoTriple(a) && NoTriple(b) && EndsInk(a) && b != "" && b[0] != '\n'
    ensures NoTriple(a + BREAK + b)
  {
    var s := a + BREAK + b;
    forall i | 0 <= i < |s| ensures !TripleAt(s, i) {
      if i < |a| {
        assert !TripleAt(a, i);
      } else if i >= |a| + 2 {
        assert !TripleAt(b, i - |a| - 2);
      }
    }
  }

  lemma LinesOfBreak(a: string, b: string)
    ensures Lines(a + BREAK + b) == Lines(a) + [""] + Lines(b)
  {
    JoinOfLines(a);
    JoinOfLines(b);
    LinesAreFree(a, '\n');
    LinesAreFree(b, '\n');
    JoinAppend(Lines(a) + [""], Lines(b));
    JoinAppend(Lines(a), [""]);
    FreeAppend(Lines(a), [""], '\n');
    FreeAppend(Lines(a) + [""], Lines(b), '\n');
    assert Join(Lines(a) + [""] + Lines(b)) == a + BREAK + b;
    LinesOfJoin(Lines(a) + [""] + Lines(b));
  }

  lemma LinesJoined(a: string, b: string)
    requires NoHeading(a) && NoHeading(b)
    ensures NoHeading(a + BREAK + b)
  {
    LinesOfBreak(a, b);
    assert HeadingName("").None?;
  }

  lemma PlainCombined(prev: string, next: string)
    requires PlainText(prev) && PlainText(next)
    ensures PlainText(Combined(prev, next))
  {
    if prev != "" && next != "" {
      PlainJoined(prev, next);
    }
  }

  lemma NothingIsPlain()
    ensures PlainText("")
  {
    assert Trim("") == "" && Lines("") == [""] && HeadingName("").None?;
  }

  lemma PlainMergedSection(existing: Option<string>, incoming: Option<string>)
    requires existing.Some? ==> PlainText(existing.value)
    requires incoming.Some? ==> PlainText(Trim(incoming.value))
    ensures PlainText(MergedSection(existing, incoming))
  {
    NothingIsPlain();
    PlainCombined(Kept(existing), Given(incoming));
  }

  /** Update texts that stay in the section they are meant for. */
  predicate GoodUpdates(updates: map<string, string>) {
    forall name | name in updates :: PlainText(Trim(updates[name]))
  }

  lemma PlainMergedBody(d: Doc, updates: map<string, string>, name: string)
    requires Normal(d) && GoodUpdates(updates) && name in MergedDoc(d, updates).bodies
    ensures PlainText(MergedDoc(d, updates).bodies[name])
    ensures name in d.bodies || name in STANDARD
  {
    StandardIsDistinct();
    MergedBodiesAre(d.bodies, updates, STANDARD, name);
    if name in STANDARD {
      PlainMergedSection(Lookup(d.bodies, name), Lookup(updates, name));
    }
  }

  lemma GoodStandardName(name: string)
    requires name in STANDARD
    ensures GoodName(name)
  {
    TrimFixed(name);
    if name == TRAITS { GoodTraits(); } else if name == PREFERENCES { GoodPreferences(); }
    else if name == PRINCIPLES { GoodPrinciples(); } else { GoodNotes(); }
  }

  lemma GoodTraits()
    ensures GoodName(TRAITS)
  {
    TrimFixed(TRAITS);
  }

  lemma NoTerminatorJoined(a: string, b: string)
    requires !HasTerminator(a) && !HasTerminator(b)
    ensures !HasTerminator(a + b)
  {
  }

  lemma GoodPreferences()
    ensures GoodName(PREFERENCES)
  {
    NoTerminatorJoined("Communication", " Preferences");
    assert PREFERENCES == "Communication" + " Preferences";
    TrimFixed(PREFERENCES);
  }

  lemma GoodPrinciples()
    ensures GoodName(PRINCIPLES)
  {
    NoTerminatorJoined("Operating", " Principles");
    assert PRINCIPLES == "Operating" + " Principles";
    TrimFixed(PRINCIPLES);
  }

  lemma GoodNotes()
    ensures GoodName(NOTES)
  {
    TrimFixed(NOTES);
  }

  /** One line that is no heading. */
  lemma LineIsPlain(line: string)
    requires |line| >= 2 && line[1] != '#' && !IsSpace(line[0]) && !IsSpace(line[|line| - 1])
    requires Lacks(line, '\n') && Lacks(line, '\r')
    ensures PlainText(line)
  {
    TrimFixed(line);
    LinesOfOne(line);
  }

  lemma TitleIsPlain()
    ensures PlainText(TITLE) && TITLE != ""
  {
    assert |TITLE| == 28;
    LineIsPlain(TITLE);
  }

  lemma ConcatDistinct(a: seq<string>, b: seq<string>)
    requires Distinct(a) && Distinct(b) && forall name | name in b :: name !in a
    ensures Distinct(a + b)
  {
    forall i, j | 0 <= i < |a| <= j < |a + b| ensures (a + b)[i] != (a + b)[j] {
      assert a[i] in a && b[j - |a|] in b;
    }
  }

  lemma MergedOrder(d: Doc, updates: map<string, string>)
    requires Distinct(d.order) && forall name :: name in d.order <==> name in d.bodies
    ensures var m := MergedDoc(d, updates);
      && Distinct(m.order) && (forall name :: name in m.order <==> name in STANDARD || name in d.order)
      && (forall name :: name in m.bodies <==> name in m.order)
  {
    StandardIsDistinct();
    OthersElements(d.order);
    ConcatDistinct(STANDARD, Others(d.order));
    MergedNames(d, updates, STANDARD);
  }

  lemma MergedNames(d: Doc, updates: map<string, string>, names: seq<string>)
    requires Distinct(names)
    ensures forall name :: name in MergedBodies(d.bodies, updates, names) <==> name in names || name in d.bodies
  {
    forall name ensures name in MergedBodies(d.bodies, updates, names) <==> name in names || name in d.bodies {
      MergedBodiesAre(d.bodies, updates, names, name);
    }
  }

  lemma MergeIsNormal(d: Doc, updates: map<string, string>)
    requires Normal(d) && GoodUpdates(updates)
    ensures Normal(MergedDoc(d, updates)) && MergedDoc(d, updates).header != ""
  {
    var m := MergedDoc(d, updates);
    MergedOrder(d, updates);
    TitleIsPlain();
    forall name | name in m.order ensures GoodName(name) {
      if name in STANDARD {
        GoodStandardName(name);
      }
    }
    forall name | name in m.bodies ensures PlainText(m.bodies[name]) {
      PlainMergedBody(d, updates, name);
    }
  }

  function Existing(existing: Option<string>): string {
    if existing.Some? then existing.value else ""
  }

  /** Reading back a merged anchor gives the merged document. */
  lemma MergedReadsBack(existing: Option<string>, updates: map<string, string>)
    requires Normal(Parse(Existing(existing))) && GoodUpdates(updates)
    ensures Parse(MergedText(existing, updates)) == MergedDoc(Parse(Existing(existing)), updates)
  {
    MergeIsNormal(Parse(Existing(existing)), updates);
    ParseOfPrint(MergedDoc(Parse(Existing(existing)), updates));
  }

  /** The same update applied twice gives the same file as once. */
  lemma MergeTwiceIsOnce(existing: Option<string>, updates: map<string, string>)
    requires Normal(Parse(Existing(existing))) && GoodUpdates(updates)
    ensures MergedText(Some(MergedText(existing, updates)), updates) == MergedText(existing, updates)
  {
    MergedReadsBack(existing, updates);
    MergeDocTwice(Parse(Existing(existing)), updates);
  }

  /** No section text is lost: every earlier body but the placeholder, and every update to a standard
      section, is contained in the section as it is read back; other sections are as they were. */
  lemma MergeLosesNothing(existing: Option<string>, updates: map<string, string>, name: string)
    requires Normal(Parse(Existing(existing))) && GoodUpdates(updates)
    ensures var before, after := Parse(Existing(existing)), Parse(MergedText(existing, updates));
      && (name in before.bodies ==> name in after.bodies)
      && (name in before.bodies && before.bodies[name] != PLACEHOLDER
          ==> Includes(after.bodies[name], before.bodies[name]))
      && (name in STANDARD && name in updates
          ==> name in after.bodies && Includes(after.bodies[name], Trim(updates[name])))
      && (name in before.bodies && name !in STANDARD ==> after.bodies[name] == before.bodies[name])
      && (name in STANDARD && name !in updates && name in before.bodies && before.bodies[name] != PLACEHOLDER ==>
            after.bodies[name] == before.bodies[name])
  {
    var before := Parse(Existing(existing));
    MergedReadsBack(existing, updates);
    StandardIsDistinct();
    MergedBodiesAre(before.bodies, updates, STANDARD, name);
    CombinedIncludesBoth(Kept(Lookup(before.bodies, name)), Given(Lookup(updates, name)));
    if name in before.bodies {
      IncludesItself(before.bodies[name]);
      assert PlainText(before.bodies[name]);
    }
  }

  lemma {:induction false} OthersInOrder(order: seq<string>)
    ensures InOrder(order, Others(order))
  {
    if order == [] {
      NothingInOrder(order);
    } else {
      var front := Others(order[..|order| - 1]);
      OthersInOrder(order[..|order| - 1]);
      InOrderOfFront(order, front);
      assert Others(order) == if order[|order| - 1] in STANDARD then front else front + [order[|order| - 1]];
    }
  }

  /** A merge keeps the header as read back, the title standing in for a missing one, puts the four
      standard sections first, and then the earlier sections under other names, each once, in the order
      they had. */
  lemma MergeKeepsForm(existing: Option<string>, updates: map<string, string>)
    requires Normal(Parse(Existing(existing))) && GoodUpdates(updates)
    ensures var before, after := Parse(Existing(existing)), Parse(MergedText(existing, updates));
      && (before.header != "" ==> after.header == before.header) && (before.header == "" ==> after.header == TITLE)
      && STANDARD <= after.order && Distinct(after.order)
      && InOrder(before.order, after.order[|STANDARD|..])
      && (forall name :: name in after.order[|STANDARD|..] <==> name in before.order && name !in STANDARD)
  {
    var before := Parse(Existing(existing));
    MergedReadsBack(existing, updates);
    MergedOrder(before, updates);
    OthersInOrder(before.order);
    OthersElements(before.order);
  }

  /** A merged section holds no line that neither text has but blank ones, and what was there stands
      before what was added. */
  lemma CombinedAddsNothing(prev: string, next: string)
    ensures var m := Combined(prev, next);
      || m == prev || m == next
      || (prev <= m && |m| == |prev| + 2 + |next| && m[|prev| + 2..] == next && Lines(m) == Lines(prev) + [""] + Lines(next))
  {
    LinesOfBreak(prev, next);
  }

  /** A standard section that holds only the placeholder, or is not there, becomes the update given for it,
      trimmed, or is left empty. */
  lemma PlaceholderGivesWay(existing: Option<string>, updates: map<string, string>, name: string)
    requires Normal(Parse(Existing(existing))) && GoodUpdates(updates) && name in STANDARD
    requires name in Parse(Existing(existing)).bodies ==> Parse(Existing(existing)).bodies[name] == PLACEHOLDER
    ensures var after := Parse(MergedText(existing, updates));
      name in after.bodies && after.bodies[name] == if name in updates then Trim(updates[name]) else ""
  {
    var before := Parse(Existing(existing));
    MergedReadsBack(existing, updates);
    StandardIsDistinct();
    MergedBodiesAre(before.bodies, updates, STANDARD, name);
    PlaceholderIsTrimmed();
  }

  lemma PlaceholderIsTrimmed()
    ensures Trim(PLACEHOLDER) == PLACEHOLDER
  {
    TrimFixed(PLACEHOLDER);
  }

  /** A new anchor starts from nothing. */
  lemma EmptyAnchorIsNormal()
    ensures Normal(Parse(""))
  {
    assert WithoutReturns("") == "" && Lines("") == [""];
    var marks := Marks([""]);
    assert HeadingName("").None?;
    assert marks == [Mark("", None)] && marks[..0] == [];
    assert FedAll(BEFORE, marks) == Fed(FedAll(BEFORE, []), marks[0]);
    assert FedAll(BEFORE, marks) == Parser([] + [""], [], map[], "");
    assert Parse("") == Doc(Trim(""), [], map[]);
    NothingIsPlain();
  }
}
