/** Every document that parses has a canonical printing, which parses to the same tree. */
module YamlCanonical {
  import opened Wrappers
  import opened YamlText
  import opened YamlScalars
  import opened YamlQuoting
  import opened YamlParser
  import opened YamlGrammar
  import opened YamlPrinter
  import opened YamlRoundTrip

  /** Logical lines never hold a line break. */
  predicate OneLineEach(lines: seq<Line>) {
    forall i | 0 <= i < |lines| :: '\n' !in lines[i].text
  }

  // -- values that were read can be printed -----------------------------------------------------------

  lemma {:induction false} PiecesStayOnLine(body: string, start: nat, i: nat, quote: Quote)
    requires start <= |body| && start <= i && Pieces(body, start, i, quote).Ok? && '\n' !in body
    ensures forall k | 0 <= k < |Pieces(body, start, i, quote).value| :: '\n' !in Pieces(body, start, i, quote).value[k]
    decreases |body| - i
  {
    if i < |body| {
      if quote != Unquoted {
        var (next, state) := InQuotes(body, i, quote);
        PiecesStayOnLine(body, start, next, state);
      } else if body[i] == ',' {
        PiecesStayOnLine(body, i + 1, i + 1, Unquoted);
      } else {
        PiecesStayOnLine(body, start, i + 1, QuoteOf(body[i]));
      }
    }
  }

  lemma StripStaysOnLine(s: string)
    requires '\n' !in s
    ensures '\n' !in LStrip(s) && '\n' !in Strip(s)
  {
    LStripSuffix(s);
    RStripPrefix(LStrip(s));
  }

  lemma ItemsStayOnLine(value: string)
    requires StartsWith(value, "[") && ItemsOf(value).Ok? && '\n' !in value
    ensures forall k | 0 <= k < |ItemsOf(value).value| :: '\n' !in ItemsOf(value).value[k]
  {
    var body := value[1..|value| - 1];
    PiecesStayOnLine(body, 0, 0, Unquoted);
    var pieces := Pieces(body, 0, 0, Unquoted).value;
    forall k | 0 <= k < |pieces| ensures '\n' !in Strip(pieces[k]) { StripStaysOnLine(pieces[k]); }
  }

  lemma ReadScalarIsWf(raw: string, key: Option<string>)
    requires raw != "" && !IsSpace(raw[0]) && '\n' !in raw && InlineNode(raw, key).Ok?
    ensures var node := InlineNode(raw, key).value; node.Scalar? ==>
      && IsScalar(node)
      && (node.style == Plain ==> node.text == raw)
  {
    if StartsQuoted(raw) {
      QuotedIsClean(raw);
    }
  }

  lemma {:induction false} ReadItemsAreWf(items: seq<string>, bound: nat)
    requires forall k | 0 <= k < |items| :: items[k] != "" && |items[k]| < bound && '\n' !in items[k]
    requires AllFlowItems(items) && FlowNodes(items, bound).Ok? && AllScalars(FlowNodes(items, bound).value)
    ensures AllFlowScalars(FlowNodes(items, bound).value)
  {
    if items != [] {
      ReadItemsAreWf(items[1..], bound);
      ReadScalarIsWf(items[0], None);
      assert FlowNodes(items, bound).value[1..] == FlowNodes(items[1..], bound).value;
    }
  }

  /** Which nodes a value on one line can give. */
  lemma ReadValueIsWf(raw: string, key: Option<string>, node: Node)
    requires raw != "" && !IsSpace(raw[0]) && '\n' !in raw && InlineNode(raw, key) == Ok(node)
    ensures IsInline(node) || (node == BlockNode && (key == Some("run") || key == Some("path")))
  {
    if StartsWith(raw, "[") {
      assert raw[0] == '[';
      BracketReads(raw, key);
      SplitYieldsItems(raw);
      ItemsStayOnLine(raw);
      ReadItemsAreWf(ItemsOf(raw).value, |raw|);
    } else {
      ReadScalarIsWf(raw, key);
      if StartsQuoted(raw) { QuotedIsClean(raw); }
    }
  }

  lemma ReadEntry(text: string)
    requires MappingParts(text).Ok?
    ensures var (key, raw) := MappingParts(text).value;
      IsKey(key) && '\n' !in raw && (raw != "" ==> !IsSpace(raw[0]))
  {
    LStripSuffix(text[Find(text, ':') + 1..]);
  }

  // -- trees that were read can be printed --------------------------------------------------------------

  lemma {:induction false} ShownBlockIsWf(lines: seq<Line>, index: nat, next: nat, node: Node, depth: nat)
    requires OneLineEach(lines) && ShowsBlock(lines, index, next, node, depth)
    ensures WfBlock(node, depth, false)
    decreases node, 0
  {
    match node
    case MapNode(entries) => ShownEntriesAreWf(lines, index, next, entries, depth);
    case BlockList(items) => ShownItemsAreWf(lines, index, next, items, depth);
  }

  lemma {:induction false} ShownEntryIsWf(lines: seq<Line>, text: string, index: nat, next: nat, entry: Entry, depth: nat)
    requires OneLineEach(lines) && ShowsEntry(lines, text, index, next, entry, depth)
    ensures WfEntry(entry, depth, false)
    decreases entry, 0
  {
    ReadEntry(text);
    var (key, raw) := MappingParts(text).value;
    if raw != "" {
      ReadValueIsWf(raw, Some(key), entry.node);
    } else if entry.node != NullNode {
      ShownBlockIsWf(lines, index, next, entry.node, depth + 1);
    }
  }

  lemma {:induction false} ShownEntriesAreWf(lines: seq<Line>, index: nat, next: nat, entries: seq<Entry>, depth: nat)
    requires OneLineEach(lines) && ShowsEntries(lines, index, next, entries, depth)
    ensures WfEntries(entries, depth, false)
    decreases entries, 1
  {
    if entries != [] {
      var mid := FirstEntry(lines, index, next, entries, depth);
      ShownEntryIsWf(lines, lines[index].text, index + 1, mid, entries[0], depth);
      ShownEntriesAreWf(lines, mid, next, entries[1..], depth);
    }
  }

  lemma {:induction false} ShownItemIsWf(lines: seq<Line>, index: nat, next: nat, node: Node, depth: nat)
    requires OneLineEach(lines) && index < |lines| && IsItem(lines[index].text)
    requires ShowsItem(lines, index, next, node, depth)
    ensures WfItem(node, depth, false)
    decreases node, 1
  {
    var text := ItemText(lines[index].text);
    StripStaysOnLine(lines[index].text[1..]);
    LStripSuffix(lines[index].text[1..]);
    if text == "" {
      ShownBlockIsWf(lines, index + 1, next, node, depth + 1);
    } else if MappingParts(text).Err? {
      ReadValueIsWf(text, None, node);
    } else {
      var mid: nat :| ShowsEntry(lines, text, index + 1, mid, node.entries[0], depth + 1)
                      && ShowsEntries(lines, mid, next, node.entries[1..], depth + 1);
      ShownEntryIsWf(lines, text, index + 1, mid, node.entries[0], depth + 1);
      ShownEntriesAreWf(lines, mid, next, node.entries[1..], depth + 1);
    }
  }

  lemma {:induction false} ShownItemsAreWf(lines: seq<Line>, index: nat, next: nat, items: seq<Node>, depth: nat)
    requires OneLineEach(lines) && ShowsItems(lines, index, next, items, depth)
    ensures WfItems(items, depth, false)
    decreases items, 2
  {
    if items != [] {
      var mid: nat :| && index < mid && index < |lines| && lines[index].indent == IndentOf(depth) && IsItem(lines[index].text)
                      && ShowsItem(lines, index, mid, items[0], depth)
                      && ShowsItems(lines, mid, next, items[1..], depth);
      ShownItemIsWf(lines, index, mid, items[0], depth);
      ShownItemsAreWf(lines, mid, next, items[1..], depth);
    }
  }

  // -- the canonical form -----------------------------------------------------------------------------------

  /** Parsing, printing and parsing again gives the same tree. */
  lemma ParsePrintParse(lines: seq<Line>)
    requires OneLineEach(lines) && Document(lines).Ok?
    ensures var root := Document(lines).value;
      WfBlock(root, 0, false) && Document(PrintBlock(root, 0, false)) == Document(lines)
  {
    var root := Document(lines).value;
    ParserMeetsGrammar(lines, root);
    ShownBlockIsWf(lines, 0, |lines|, root, 0);
    PrintThenParse(root, false);
  }
}
