/** Whole workflow texts: what is read from a file can be written back and read again. */
module YamlWorkflow {
  import opened Wrappers
  import opened YamlText
  import opened YamlScalars
  import opened YamlQuoting
  import opened YamlParser
  import opened YamlIndent
  import opened YamlGrammar
  import opened YamlPrinter
  import opened YamlRoundTrip
  import opened YamlCanonical
  import opened YamlLines

  /** The tree a workflow text is read as. */
  function Reads(source: string): Result<Node, Reason> {
    match LinesOf(source)
    case Err(reason) => Err(reason)
    case Ok(lines) => Document(lines)
  }

  // -- logical lines are clean --------------------------------------------------------------------

  lemma {:induction false} SkipSpaces(s: string, n: nat)
    requires n <= |s| && forall i | 0 <= i < n :: s[i] == ' '
    ensures LStrip(s) == LStrip(s[n..])
  {
    if n > 0 {
      SkipSpaces(s[1..], n - 1);
      assert s[1..][n - 1..] == s[n..];
    }
  }

  /** A prefix that ends in a mark starts with the same mark, after the same spaces. */
  lemma {:induction false} SameFirstMark(s: string, text: string)
    requires text <= s && text != "" && !IsSpace(text[|text| - 1])
    ensures LStrip(text) != "" && LStrip(s) != "" && LStrip(text)[0] == LStrip(s)[0]
    ensures Strip(text) != ""
  {
    if IsSpace(s[0]) {
      SameFirstMark(s[1..], text[1..]);
    }
  }

  lemma LineIsClean(raw: string, text: string)
    requires '\n' !in raw && !IsSkipped(raw)
    requires WithoutComment(raw[Indent(raw)..]) == Ok(text) && text != "" && !IsDirective(text)
    ensures CleanText(text)
  {
    var body := raw[Indent(raw)..];
    KeptIsTrimmed(body, 0, Unquoted);
    RStripPrefix(text);
    WithoutCommentIdempotent(body);
    SkipSpaces(raw, Indent(raw));
    SameFirstMark(body, text);
    assert forall i | 0 <= i < |text| :: text[i] == raw[Indent(raw) + i];
  }

  lemma {:induction false} LinesAreClean(physical: seq<string>, i: nat)
    requires forall j | 0 <= j < |physical| :: '\n' !in physical[j]
    requires LinesFrom(physical, i).Ok?
    ensures Clean(LinesFrom(physical, i).value)
    decreases |physical| - i
  {
    if i < |physical| {
      var raw := physical[i];
      var indent := Indent(raw);
      if IsSkipped(raw) || WithoutComment(raw[indent..]).value == "" {
        LinesAreClean(physical, i + 1);
      } else {
        var text := WithoutComment(raw[indent..]).value;
        LineIsClean(raw, text);
        LinesAreClean(physical, if OpensBody(text) then AfterBody(physical, i + 1, indent) else i + 1);
      }
    }
  }

  lemma {:induction false} PhysicalLinesHaveNoBreak(source: string)
    ensures forall j | 0 <= j < |PhysicalLines(source)| :: '\n' !in PhysicalLines(source)[j]
  {
    var k := Find(source, '\n');
    if k < |source| { PhysicalLinesHaveNoBreak(source[k + 1..]); }
  }

  /** Every logical line is evenly indented, non-empty, on one line and free of comments, and
      stripping it again changes nothing. */
  lemma LogicalLinesAreClean(source: string)
    requires LinesOf(source).Ok?
    ensures Clean(LinesOf(source).value) && EvenIndents(LinesOf(source).value)
  {
    PhysicalLinesHaveNoBreak(source);
    LinesAreClean(PhysicalLines(source), 0);
  }

  // -- writing lines out ------------------------------------------------------------------------------

  function Spaces(n: nat): (s: string)
    ensures |s| == n && forall i | 0 <= i < n :: s[i] == ' '
  {
    if n == 0 then "" else " " + Spaces(n - 1)
  }

  function RawLine(line: Line): string {
    Spaces(line.indent) + line.text
  }

  function RawLines(lines: seq<Line>): (r: seq<string>)
    ensures |r| == |lines| && forall i | 0 <= i < |r| :: r[i] == RawLine(lines[i])
  {
    if lines == [] then [] else [RawLine(lines[0])] + RawLines(lines[1..])
  }

  function Render(lines: seq<Line>): string {
    if lines == [] then "" else RawLine(lines[0]) + ("\n" + Render(lines[1..]))
  }

  lemma FindIs(text: string, c: char, k: nat)
    requires k < |text| && text[k] == c && forall i | 0 <= i < k :: text[i] != c
    ensures Find(text, c) == k
  {
  }

  lemma FirstBreak(raw: string, rest: string)
    requires '\n' !in raw
    ensures PhysicalLines(raw + ("\n" + rest)) == [raw] + PhysicalLines(rest)
  {
    var text := raw + ("\n" + rest);
    assert text[|raw|] == '\n';
    assert forall i | 0 <= i < |raw| :: text[i] == raw[i];
    FindIs(text, '\n', |raw|);
    assert text[..|raw|] == raw;
    assert text[|raw| + 1..] == rest;
  }

  lemma {:induction false} RenderedLines(lines: seq<Line>)
    requires OneLineEach(lines)
    ensures PhysicalLines(Render(lines)) == RawLines(lines)
  {
    if lines != [] {
      RenderedLines(lines[1..]);
      FirstBreak(RawLine(lines[0]), Render(lines[1..]));
    }
  }

  /** No line deeper than a literal block's line follows it. */
  predicate BodyFree(lines: seq<Line>, index: nat, next: nat) {
    forall i | index <= i < next <= |lines| && OpensBody(lines[i].text) ::
      StopsBelow(lines, i + 1, lines[i].indent + 1)
  }

  lemma RawLineReads(line: Line)
    requires CleanText(line.text)
    ensures var raw := RawLine(line);
      Indent(raw) == line.indent && raw[line.indent..] == line.text && !IsSkipped(raw)
  {
    var raw := RawLine(line);
    assert raw[line.indent..] == line.text;
    assert raw[line.indent] == line.text[0];
    assert forall i | 0 <= i < line.indent :: raw[i] == ' ';
    assert Indent(raw) == line.indent;
    SkipSpaces(raw, line.indent);
  }

  lemma RawLineStep(physical: seq<string>, i: nat, line: Line)
    requires i < |physical| && physical[i] == RawLine(line) && CleanText(line.text) && line.indent % 2 == 0
    ensures LinesFrom(physical, i) == Prefixed([line],
      LinesFrom(physical, if OpensBody(line.text) then AfterBody(physical, i + 1, line.indent) else i + 1))
  {
    RawLineReads(line);
  }

  lemma NoBody(physical: seq<string>, i: nat, line: Line, indent: nat)
    requires i < |physical| && physical[i] == RawLine(line) && CleanText(line.text) && line.indent <= indent
    ensures AfterBody(physical, i, indent) == i
  {
    RawLineReads(line);
  }

  /** Nothing is dropped after a line that opens a body: the next line is not deeper. */
  lemma BodyEndsAtOnce(lines: seq<Line>, physical: seq<string>, i: nat)
    requires i < |lines| && Clean(lines) && BodyFree(lines, 0, |lines|) && physical == RawLines(lines)
    requires OpensBody(lines[i].text)
    ensures AfterBody(physical, i + 1, lines[i].indent) == i + 1
  {
    hide OpensBody, CleanText, IsBlank, RawLine;
    assert StopsBelow(lines, i + 1, lines[i].indent + 1);
    if i + 1 < |lines| {
      assert CleanText(lines[i + 1].text);
      NoBody(physical, i + 1, lines[i + 1], lines[i].indent);
    }
  }

  lemma FirstRawLineReads(lines: seq<Line>, physical: seq<string>, i: nat)
    requires i < |lines| && Clean(lines) && BodyFree(lines, 0, |lines|) && physical == RawLines(lines)
    ensures LinesFrom(physical, i) == Prefixed([lines[i]], LinesFrom(physical, i + 1))
  {
    assert CleanText(lines[i].text) && physical[i] == RawLine(lines[i]);
    RawLineStep(physical, i, lines[i]);
    if OpensBody(lines[i].text) { BodyEndsAtOnce(lines, physical, i); }
  }

  lemma HeadAndTail(lines: seq<Line>, i: nat)
    requires i < |lines|
    ensures [lines[i]] + lines[i + 1..] == lines[i..]
  {
  }

  lemma {:induction false} RawLinesRead(lines: seq<Line>, physical: seq<string>, i: nat)
    requires i <= |lines| && Clean(lines) && BodyFree(lines, 0, |lines|) && physical == RawLines(lines)
    ensures LinesFrom(physical, i) == Ok(lines[i..])
    decreases |lines| - i
  {
    hide Clean, BodyFree, RawLines;
    if i < |lines| {
      FirstRawLineReads(lines, physical, i);
      RawLinesRead(lines, physical, i + 1);
      HeadAndTail(lines, i);
    } else {
      assert lines[i..] == [];
    }
  }

  /** Clean lines without bodies are read back as they were written. */
  lemma RenderThenRead(lines: seq<Line>)
    requires Clean(lines) && BodyFree(lines, 0, |lines|)
    ensures LinesOf(Render(lines)) == Ok(lines)
  {
    RenderedLines(lines);
    RawLinesRead(lines, RawLines(lines), 0);
    assert lines[0..] == lines;
  }

  // -- no accepted document has lines inside a literal block ---------------------------------------------

  lemma BodyEntry(text: string)
    requires OpensBody(text) && MappingParts(text).Ok?
    ensures MappingParts(text).value.1 == "|"
  {
  }

  lemma ItemOpensNoBody(text: string)
    requires IsItem(text)
    ensures !OpensBody(text)
  {
    var k := Find(text, ':');
    assert text[0] == '-';
    if 0 < k < |text| { assert text[..k][0] == '-'; }
  }

  lemma PlainLineIsBodyFree(lines: seq<Line>, index: nat)
    requires index < |lines| && IsItem(lines[index].text)
    ensures BodyFree(lines, index, index + 1)
  {
    ItemOpensNoBody(lines[index].text);
  }

  lemma BodyFreeJoins(lines: seq<Line>, index: nat, mid: nat, next: nat)
    requires index <= mid <= next && BodyFree(lines, index, mid) && BodyFree(lines, mid, next)
    ensures BodyFree(lines, index, next)
  {
  }

  lemma {:induction false} BlockIsBodyFree(lines: seq<Line>, index: nat, next: nat, node: Node, depth: nat)
    requires ShowsBlock(lines, index, next, node, depth) && StopsBelow(lines, next, IndentOf(depth) + 1)
    ensures BodyFree(lines, index, next)
    decreases node, 0
  {
    match node
    case MapNode(entries) => EntriesAreBodyFree(lines, index, next, entries, depth);
    case BlockList(items) => ItemsAreBodyFree(lines, index, next, items, depth);
  }

  lemma {:induction false} EntryIsBodyFree(lines: seq<Line>, text: string, index: nat, next: nat, entry: Entry, depth: nat)
    requires ShowsEntry(lines, text, index, next, entry, depth) && StopsBelow(lines, next, IndentOf(depth) + 1)
    ensures index <= next && BodyFree(lines, index, next)
    ensures OpensBody(text) ==> index == next
    decreases entry, 0
  {
    if OpensBody(text) { BodyEntry(text); }
    if MappingParts(text).value.1 == "" && entry.node != NullNode {
      BlockIsBodyFree(lines, index, next, entry.node, depth + 1);
    }
  }

  lemma LineIsBodyFree(lines: seq<Line>, index: nat)
    requires index < |lines| && (OpensBody(lines[index].text) ==> StopsBelow(lines, index + 1, lines[index].indent + 1))
    ensures BodyFree(lines, index, index + 1)
  {
  }

  lemma NoLineIsBodyFree(lines: seq<Line>, index: nat)
    ensures BodyFree(lines, index, index)
  {
  }

  lemma {:induction false} EntriesAreBodyFree(lines: seq<Line>, index: nat, next: nat, entries: seq<Entry>, depth: nat)
    requires ShowsEntries(lines, index, next, entries, depth) && StopsBelow(lines, next, IndentOf(depth) + 1)
    ensures index <= next && BodyFree(lines, index, next)
    decreases entries, 1
  {
    hide BodyFree, OpensBody, MappingParts;
    if entries == [] {
      NoLineIsBodyFree(lines, index);
    } else {
      var mid := FirstEntry(lines, index, next, entries, depth);
      EntriesStart(lines, mid, next, entries[1..], depth);
      EntryIsBodyFree(lines, lines[index].text, index + 1, mid, entries[0], depth);
      EntriesAreBodyFree(lines, mid, next, entries[1..], depth);
      LineIsBodyFree(lines, index);
      BodyFreeJoins(lines, index, index + 1, mid);
      BodyFreeJoins(lines, index, mid, next);
    }
  }

  lemma {:induction false} ItemIsBodyFree(lines: seq<Line>, index: nat, next: nat, node: Node, depth: nat)
    requires index < |lines| && IsItem(lines[index].text)
    requires ShowsItem(lines, index, next, node, depth) && StopsBelow(lines, next, IndentOf(depth) + 1)
    ensures index < next && BodyFree(lines, index, next)
    decreases node, 1
  {
    hide BodyFree, OpensBody;
    var text := ItemText(lines[index].text);
    PlainLineIsBodyFree(lines, index);
    if text == "" {
      BlockIsBodyFree(lines, index + 1, next, node, depth + 1);
    } else if MappingParts(text).Ok? {
      ItemMappingIsBodyFree(lines, text, index, next, node, depth);
    }
    BodyFreeJoins(lines, index, index + 1, next);
  }

  lemma {:induction false} ItemMappingIsBodyFree(lines: seq<Line>, text: string, index: nat, next: nat, node: Node, depth: nat)
    requires index < |lines| && IsItem(lines[index].text) && text == ItemText(lines[index].text)
    requires text != "" && MappingParts(text).Ok?
    requires ShowsItem(lines, index, next, node, depth) && StopsBelow(lines, next, IndentOf(depth) + 1)
    ensures index + 1 <= next && BodyFree(lines, index + 1, next)
    decreases node, 0
  {
    hide BodyFree, OpensBody, MappingParts, ItemText;
    var mid: nat :| ShowsEntry(lines, text, index + 1, mid, node.entries[0], depth + 1)
                    && ShowsEntries(lines, mid, next, node.entries[1..], depth + 1);
    EntriesStart(lines, mid, next, node.entries[1..], depth + 1);
    EntryIsBodyFree(lines, text, index + 1, mid, node.entries[0], depth + 1);
    EntriesAreBodyFree(lines, mid, next, node.entries[1..], depth + 1);
    BodyFreeJoins(lines, index + 1, mid, next);
  }

  lemma {:induction false} ItemsAreBodyFree(lines: seq<Line>, index: nat, next: nat, items: seq<Node>, depth: nat)
    requires ShowsItems(lines, index, next, items, depth) && StopsBelow(lines, next, IndentOf(depth) + 1)
    ensures index <= next && BodyFree(lines, index, next)
    decreases items, 2
  {
    if items != [] {
      var mid: nat :| && index < mid && index < |lines| && lines[index].indent == IndentOf(depth) && IsItem(lines[index].text)
                      && ShowsItem(lines, index, mid, items[0], depth)
                      && ShowsItems(lines, mid, next, items[1..], depth);
      assert StopsBelow(lines, mid, IndentOf(depth) + 1);
      ItemIsBodyFree(lines, index, mid, items[0], depth);
      ItemsAreBodyFree(lines, mid, next, items[1..], depth);
      BodyFreeJoins(lines, index, mid, next);
    }
  }

  // -- reading, writing and reading again ------------------------------------------------------------------

  /** Clean lines of a document survive being written out and read. */
  lemma LinesThroughText(lines: seq<Line>)
    requires Clean(lines) && Document(lines).Ok?
    ensures LinesOf(Render(lines)) == Ok(lines) && Reads(Render(lines)) == Document(lines)
  {
    var root := Document(lines).value;
    ParserMeetsGrammar(lines, root);
    BlockIsBodyFree(lines, 0, |lines|, root, 0);
    RenderThenRead(lines);
  }

  /** A workflow without its comments, blank lines and block bodies reads the same. */
  lemma BareTextReadsTheSame(source: string)
    requires Reads(source).Ok?
    ensures Reads(Render(LinesOf(source).value)) == Reads(source)
  {
    LogicalLinesAreClean(source);
    LinesThroughText(LinesOf(source).value);
  }
}
