/** From a file's text to its logical lines: comments, blank lines and the bodies of literal
    blocks are dropped. */
module YamlLines {
  import opened Wrappers
  import opened YamlText
  import opened YamlScalars
  import opened YamlParser

  /** The lines that end in a line break. */
  function PhysicalLines(source: string): seq<string> {
    var k := Find(source, '\n');
    if k == |source| then [] else [source[..k]] + PhysicalLines(source[k + 1..])
  }

  function Indent(raw: string): (n: nat)
    ensures n <= |raw| && (n < |raw| ==> raw[n] != ' ')
    ensures forall i | 0 <= i < n :: raw[i] == ' '
  {
    if raw != "" && raw[0] == ' ' then 1 + Indent(raw[1..]) else 0
  }

  predicate IsBlank(raw: string) {
    Strip(raw) == ""
  }

  predicate IsSkipped(raw: string) {
    IsBlank(raw) || StartsWith(LStrip(raw), "#")
  }

  /** A line after which deeper lines are the body of a literal block. */
  predicate OpensBody(text: string) {
    var k := Find(text, ':');
    k < |text| && (text[..k] == "run" || text[..k] == "path") && LStrip(text[k + 1..]) == "|"
  }

  predicate IsDirective(text: string) {
    StartsWith(text, "%") || text == "---" || text == "..."
  }

  /** The first line from `i` on that is not part of a body deeper than `indent`. */
  function AfterBody(physical: seq<string>, i: nat, indent: nat): (next: nat)
    ensures i <= next
    decreases |physical| - i
  {
    if i >= |physical| then i
    else if !IsBlank(physical[i]) && Indent(physical[i]) <= indent then i
    else AfterBody(physical, i + 1, indent)
  }

  function Prefixed(lines: seq<Line>, rest: Result<seq<Line>, Reason>): Result<seq<Line>, Reason> {
    match rest case Ok(more) => Ok(lines + more) case Err(_) => rest
  }

  function LinesFrom(physical: seq<string>, i: nat): Result<seq<Line>, Reason>
    decreases |physical| - i
  {
    if i >= |physical| then Ok([])
    else
      var raw := physical[i];
      var indent := Indent(raw);
      if IsSkipped(raw) then LinesFrom(physical, i + 1)
      else if indent % 2 != 0 then Err(OddIndent)
      else
        match WithoutComment(raw[indent..])
        case Err(reason) => Err(reason)
        case Ok(text) =>
          if text == "" then LinesFrom(physical, i + 1)
          else if IsDirective(text) then Err(DirectiveOrMarker)
          else
            var next := if OpensBody(text) then AfterBody(physical, i + 1, indent) else i + 1;
            Prefixed([Line(indent, text)], LinesFrom(physical, next))
  }

  function LinesOf(source: string): Result<seq<Line>, Reason> {
    LinesFrom(PhysicalLines(source), 0)
  }

  lemma PrefixedLines(lines: seq<Line>, line: Line, rest: Result<seq<Line>, Reason>)
    ensures Prefixed([], rest) == rest
    ensures Prefixed(lines, Prefixed([line], rest)) == Prefixed(lines + [line], rest)
  {
    if rest.Ok? {
      assert [] + rest.value == rest.value;
      assert lines + ([line] + rest.value) == (lines + [line]) + rest.value;
    }
  }

  method LogicalLines(source: string) returns (r: Result<seq<Line>, Reason>)
    ensures r == LinesOf(source)
  {
    hide PhysicalLines, WithoutComment, IsDirective, OpensBody;
    var physical := PhysicalLines(source);
    var logical: seq<Line> := [];
    var i := 0;
    PrefixedLines([], Line(0, ""), LinesFrom(physical, 0));
    while i < |physical|
      invariant LinesOf(source) == Prefixed(logical, LinesFrom(physical, i))
    {
      var raw := physical[i];
      if IsBlank(raw) || StartsWith(LStrip(raw), "#") {
        i := i + 1;
        continue;
      }
      var indent := Indent(raw);
      if indent % 2 != 0 { return Err(OddIndent); }
      var stripped := StripComment(raw[indent..]);
      if stripped.Err? { return Err(stripped.error); }
      var text := stripped.value;
      if text == "" {
        i := i + 1;
        continue;
      }
      if IsDirective(text) { return Err(DirectiveOrMarker); }
      ghost var next := if OpensBody(text) then AfterBody(physical, i + 1, indent) else i + 1;
      PrefixedLines(logical, Line(indent, text), LinesFrom(physical, next));
      logical := logical + [Line(indent, text)];
      i := i + 1;
      if OpensBody(text) {
        while i < |physical|
          invariant AfterBody(physical, i, indent) == next
        {
          if IsBlank(physical[i]) {
            i := i + 1;
            continue;
          }
          if Indent(physical[i]) <= indent { break; }
          i := i + 1;
        }
      }
    }
    assert logical + [] == logical;
    r := Ok(logical);
  }

  // -- what a logical line is ---------------------------------------------------------------------

  predicate CleanText(text: string) {
    && text != "" && text[0] != ' ' && '\n' !in text
    && !IsSkipped(text) && !IsDirective(text)
    && WithoutComment(text) == Ok(text)
  }

  predicate Clean(lines: seq<Line>) {
    forall i | 0 <= i < |lines| :: lines[i].indent % 2 == 0 && CleanText(lines[i].text)
  }
}
