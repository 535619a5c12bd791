/** A printed tree parses back, and every tree that parses can be printed. */
module YamlRoundTrip {
  import opened Wrappers
  import opened YamlText
  import opened YamlScalars
  import opened YamlQuoting
  import opened YamlParser
  import opened YamlGrammar
  import opened YamlPrinter

  // -- printed lines in place ---------------------------------------------------------------------

  predicate At(lines: seq<Line>, index: nat, printed: seq<Line>) {
    index + |printed| <= |lines| && lines[index..index + |printed|] == printed
  }

  lemma AtSplit(lines: seq<Line>, index: nat, a: seq<Line>, b: seq<Line>)
    requires At(lines, index, a + b)
    ensures At(lines, index, a) && At(lines, index + |a|, b)
  {
    assert (a + b)[..|a|] == a && (a + b)[|a|..] == b;
    assert lines[index..index + |a + b|][..|a|] == lines[index..index + |a|];
    assert lines[index..index + |a + b|][|a|..] == lines[index + |a|..index + |a| + |b|];
  }

  lemma AtEnds(lines: seq<Line>, index: nat, printed: seq<Line>)
    requires At(lines, index, printed)
    ensures index + |printed| <= |lines|
  {
  }

  lemma AtFirst(lines: seq<Line>, index: nat, printed: seq<Line>)
    requires At(lines, index, printed) && printed != []
    ensures index < |lines| && lines[index] == printed[0]
  {
    assert lines[index..index + |printed|][0] == lines[index];
  }

  lemma AtOne(lines: seq<Line>, index: nat, head: Line)
    requires At(lines, index, [head])
    ensures index < |lines| && lines[index] == head
  {
    assert lines[index..index + 1][0] == lines[index];
  }

  /** A line, those nested below it, and the rest. */
  lemma AtHead(lines: seq<Line>, index: nat, head: Line, nested: seq<Line>, rest: seq<Line>)
    requires At(lines, index, [head] + (nested + rest))
    ensures index < |lines| && lines[index] == head
    ensures At(lines, index + 1, nested) && At(lines, index + 1 + |nested|, rest)
  {
    AtSplit(lines, index, [head], nested + rest);
    AtOne(lines, index, head);
    AtSplit(lines, index + 1, nested, rest);
  }

  // -- what is printed is shown -----------------------------------------------------------------------

  lemma {:induction false} BlockIsShown(lines: seq<Line>, index: nat, node: Node, depth: nat, bare: bool)
    requires WfBlock(node, depth, bare) && At(lines, index, PrintBlock(node, IndentOf(depth), bare))
    ensures ShowsBlock(lines, index, index + |PrintBlock(node, IndentOf(depth), bare)|, node, depth)
    decreases node, 0
  {
    hide At, WfEntries, WfItems, PrintEntries, PrintItems, ShowsEntries, ShowsItems;
    BlockHasLines(node, depth, bare);
    AtEnds(lines, index, PrintBlock(node, IndentOf(depth), bare));
    match node
    case MapNode(entries) => EntriesAreShown(lines, index, entries, depth, bare);
    case BlockList(items) => ItemsAreShown(lines, index, items, depth, bare);
  }

  lemma BlockHasLines(node: Node, depth: nat, bare: bool)
    requires WfBlock(node, depth, bare)
    ensures |PrintBlock(node, IndentOf(depth), bare)| > 0
  {
  }

  lemma {:induction false} EntryIsShown(lines: seq<Line>, index: nat, entry: Entry, depth: nat, bare: bool)
    requires WfEntry(entry, depth, bare) && At(lines, index, Nested(entry, IndentOf(depth), bare))
    ensures ShowsEntry(lines, EntryText(entry), index, index + |Nested(entry, IndentOf(depth), bare)|, entry, depth)
    decreases entry, 0
  {
    hide At, EntryText, WfBlock, PrintBlock, ShowsBlock, InlineText;
    EntryReadsKey(entry, depth, bare);
    if IsBlock(entry.node) { BlockIsShown(lines, index, entry.node, depth + 1, bare); }
  }

  /** An entry's nested lines show it, and the lines below them the entries after it. */
  lemma {:induction false} PartsAreShown(lines: seq<Line>, index: nat, first: Entry, rest: seq<Entry>, depth: nat, bare: bool)
    requires WfEntry(first, depth, bare) && At(lines, index, Nested(first, IndentOf(depth), bare))
    requires WfEntries(rest, depth, bare)
    requires At(lines, index + |Nested(first, IndentOf(depth), bare)|, PrintEntries(rest, IndentOf(depth), bare))
    ensures var mid := index + |Nested(first, IndentOf(depth), bare)|;
      && ShowsEntry(lines, EntryText(first), index, mid, first, depth)
      && ShowsEntries(lines, mid, mid + |PrintEntries(rest, IndentOf(depth), bare)|, rest, depth)
    decreases [first] + rest, 0
  {
    hide *;
    var all := [first] + rest;
    assert all[0] == first && all[1..] == rest;
    EntryIsShown(lines, index, first, depth, bare);
    EntriesAreShown(lines, index + |Nested(first, IndentOf(depth), bare)|, rest, depth, bare);
  }

  lemma NoneShown(lines: seq<Line>, index: nat, depth: nat, bare: bool)
    ensures ShowsEntries(lines, index, index + |PrintEntries([], IndentOf(depth), bare)|, [], depth)
  {
  }

  lemma {:induction false} EntriesAreShown(lines: seq<Line>, index: nat, entries: seq<Entry>, depth: nat, bare: bool)
    requires WfEntries(entries, depth, bare) && At(lines, index, PrintEntries(entries, IndentOf(depth), bare))
    ensures ShowsEntries(lines, index, index + |PrintEntries(entries, IndentOf(depth), bare)|, entries, depth)
    decreases entries, 1
  {
    hide *;
    if entries == [] {
      NoneShown(lines, index, depth, bare);
    } else {
      var next := index + |PrintEntries(entries, IndentOf(depth), bare)|;
      var mid := AtEntries(lines, index, entries, depth, bare);
      FirstIsWf(entries, depth, bare);
      assert [entries[0]] + entries[1..] == entries;
      PartsAreShown(lines, index + 1, entries[0], entries[1..], depth, bare);
      ConsShows(lines, index, mid, next, entries, depth);
    }
  }

  lemma FirstIsWf(entries: seq<Entry>, depth: nat, bare: bool)
    requires entries != [] && WfEntries(entries, depth, bare)
    ensures WfEntry(entries[0], depth, bare) && WfEntries(entries[1..], depth, bare)
  {
  }

  lemma PrintedEntries(entries: seq<Entry>, indent: nat, bare: bool)
    requires entries != []
    ensures PrintEntries(entries, indent, bare)
         == [Line(indent, EntryText(entries[0]))] + (Nested(entries[0], indent, bare) + PrintEntries(entries[1..], indent, bare))
  {
  }

  /** The lines of entries: the first one's own, those nested in it, and the rest. */
  lemma AtEntries(lines: seq<Line>, index: nat, entries: seq<Entry>, depth: nat, bare: bool) returns (mid: nat)
    requires entries != [] && WfEntries(entries, depth, bare)
    requires At(lines, index, PrintEntries(entries, IndentOf(depth), bare))
    ensures index < |lines| && lines[index] == Line(IndentOf(depth), EntryText(entries[0])) && !IsItem(EntryText(entries[0]))
    ensures At(lines, index + 1, Nested(entries[0], IndentOf(depth), bare))
    ensures mid == index + 1 + |Nested(entries[0], IndentOf(depth), bare)|
    ensures At(lines, mid, PrintEntries(entries[1..], IndentOf(depth), bare))
    ensures mid + |PrintEntries(entries[1..], IndentOf(depth), bare)| == index + |PrintEntries(entries, IndentOf(depth), bare)|
  {
    hide *;
    PrintedEntries(entries, IndentOf(depth), bare);
    var nested, more := Nested(entries[0], IndentOf(depth), bare), PrintEntries(entries[1..], IndentOf(depth), bare);
    AtHead(lines, index, Line(IndentOf(depth), EntryText(entries[0])), nested, more);
    mid := index + 1 + |nested|;
    FirstIsWf(entries, depth, bare);
    EntryReadsKey(entries[0], depth, bare);
  }

  lemma ConsShows(lines: seq<Line>, index: nat, mid: nat, next: nat, entries: seq<Entry>, depth: nat)
    requires entries != [] && index < mid
    requires index < |lines| && lines[index].indent == IndentOf(depth) && !IsItem(lines[index].text)
    requires ShowsEntry(lines, lines[index].text, index + 1, mid, entries[0], depth)
    requires ShowsEntries(lines, mid, next, entries[1..], depth)
    ensures ShowsEntries(lines, index, next, entries, depth)
  {
    ShowsMore(lines, index, mid, next, entries[0], entries[1..], depth);
    assert [entries[0]] + entries[1..] == entries;
  }

  lemma DashText(text: string)
    requires text != "" && !IsSpace(text[0])
    ensures IsItem("- " + text) && ItemText("- " + text) == text
  {
    var line := "- " + text;
    assert line[1..] == " " + text;
    assert (" " + text)[1..] == text;
    assert LStrip(" " + text) == LStrip(text) == text;
  }

  lemma BareDash()
    ensures IsItem("-") && ItemText("-") == ""
  {
    assert "-"[1..] == "";
  }

  lemma InlineItemIsShown(lines: seq<Line>, index: nat, node: Node, depth: nat)
    requires IsInline(node) && index < |lines| && lines[index].text == "- " + InlineText(node)
    ensures IsItem(lines[index].text) && ShowsItem(lines, index, index + 1, node, depth)
  {
    var text := InlineText(node);
    InlineReads(node, None);
    DashText(text);
    if MappingParts(text).Ok? { EntryIsNoInlineValue(text, None); }
  }

  lemma MappingItemShows(lines: seq<Line>, index: nat, mid: nat, next: nat, entries: seq<Entry>, depth: nat, text: string)
    requires index < |lines| && lines[index].text == "- " + text && MappingParts(text).Ok?
    requires entries != [] && DistinctKeys(entries)
    requires ShowsEntry(lines, text, index + 1, mid, entries[0], depth + 1)
    requires ShowsEntries(lines, mid, next, entries[1..], depth + 1)
    ensures IsItem(lines[index].text) && ShowsItem(lines, index, next, MapNode(entries), depth)
  {
    EntryIsNoItem(text);
    DashText(text);
  }

  /** The lines of a mapping item: the dash's, those nested in its entry, and the entries below. */
  lemma AtMappingItem(lines: seq<Line>, index: nat, entries: seq<Entry>, depth: nat)
    returns (mid: nat)
    requires entries != [] && At(lines, index, PrintMappingItem(entries, IndentOf(depth)))
    ensures index < |lines| && lines[index] == Line(IndentOf(depth), "- " + EntryText(entries[0]))
    ensures At(lines, index + 1, Nested(entries[0], IndentOf(depth + 1), false))
    ensures mid == index + 1 + |Nested(entries[0], IndentOf(depth + 1), false)|
    ensures At(lines, mid, PrintEntries(entries[1..], IndentOf(depth + 1), false))
    ensures mid + |PrintEntries(entries[1..], IndentOf(depth + 1), false)| == index + |PrintMappingItem(entries, IndentOf(depth))|
  {
    hide *;
    MappingItemUnfolds(entries, depth);
    var inner := IndentOf(depth + 1);
    var nested, more := Nested(entries[0], inner, false), PrintEntries(entries[1..], inner, false);
    AtHead(lines, index, Line(IndentOf(depth), "- " + EntryText(entries[0])), nested, more);
    mid := index + 1 + |nested|;
  }

  lemma MappingItemUnfolds(entries: seq<Entry>, depth: nat)
    requires entries != []
    ensures PrintMappingItem(entries, IndentOf(depth)) ==
      [Line(IndentOf(depth), "- " + EntryText(entries[0]))]
      + (Nested(entries[0], IndentOf(depth + 1), false) + PrintEntries(entries[1..], IndentOf(depth + 1), false))
  {
    hide Nested, PrintEntries, EntryText;
    assert IndentOf(depth + 1) == IndentOf(depth) + 2;
  }

  lemma {:induction false} MappingItemIsShown(lines: seq<Line>, index: nat, entries: seq<Entry>, depth: nat)
    requires entries != [] && DistinctKeys(entries) && WfEntries(entries, depth + 1, false)
    requires At(lines, index, PrintMappingItem(entries, IndentOf(depth)))
    ensures index < |lines| && IsItem(lines[index].text)
    ensures ShowsItem(lines, index, index + |PrintMappingItem(entries, IndentOf(depth))|, MapNode(entries), depth)
    decreases entries, 1
  {
    hide *;
    var mid := AtMappingItem(lines, index, entries, depth);
    var next := index + |PrintMappingItem(entries, IndentOf(depth))|;
    FirstIsWf(entries, depth + 1, false);
    EntryReadsKey(entries[0], depth + 1, false);
    assert [entries[0]] + entries[1..] == entries;
    PartsAreShown(lines, index + 1, entries[0], entries[1..], depth + 1, false);
    MappingItemShows(lines, index, mid, next, entries, depth, EntryText(entries[0]));
  }

  lemma BareItemShows(lines: seq<Line>, index: nat, next: nat, node: Node, depth: nat)
    requires index < |lines| && lines[index].text == "-" && ShowsBlock(lines, index + 1, next, node, depth + 1)
    ensures IsItem(lines[index].text) && ShowsItem(lines, index, next, node, depth)
  {
    BareDash();
  }

  /** The lines of an item below a bare dash. */
  lemma AtBareItem(lines: seq<Line>, index: nat, indent: nat, printed: seq<Line>)
    requires At(lines, index, [Line(indent, "-")] + printed)
    ensures index < |lines| && lines[index].text == "-" && At(lines, index + 1, printed)
  {
    AtSplit(lines, index, [Line(indent, "-")], printed);
    AtOne(lines, index, Line(indent, "-"));
  }

  lemma {:induction false} BareItemIsShown(lines: seq<Line>, index: nat, node: Node, depth: nat, bare: bool)
    requires WfBlock(node, depth + 1, bare)
    requires At(lines, index, [Line(IndentOf(depth), "-")] + PrintBlock(node, IndentOf(depth + 1), bare))
    ensures index < |lines| && lines[index].text == "-" && IsItem(lines[index].text)
    ensures ShowsItem(lines, index, index + 1 + |PrintBlock(node, IndentOf(depth + 1), bare)|, node, depth)
    decreases node, 1
  {
    hide *;
    var printed := PrintBlock(node, IndentOf(depth + 1), bare);
    AtBareItem(lines, index, IndentOf(depth), printed);
    BlockIsShown(lines, index + 1, node, depth + 1, bare);
    BareItemShows(lines, index, index + 1 + |printed|, node, depth);
  }

  lemma {:induction false} ItemIsShown(lines: seq<Line>, index: nat, node: Node, depth: nat, bare: bool)
    requires WfItem(node, depth, bare) && At(lines, index, PrintItem(node, IndentOf(depth), bare))
    ensures index < |lines| && lines[index].indent == IndentOf(depth) && IsItem(lines[index].text)
    ensures ShowsItem(lines, index, index + |PrintItem(node, IndentOf(depth), bare)|, node, depth)
    decreases node, 2
  {
    hide At, WfBlock, WfEntries, PrintBlock, PrintMappingItem, ShowsItem, InlineText, EntryText, IsItem;
    AtFirst(lines, index, PrintItem(node, IndentOf(depth), bare));
    if node.MapNode? && !bare {
      MappingItemIsShown(lines, index, node.entries, depth);
    } else if IsBlock(node) {
      BareItemIsShown(lines, index, node, depth, bare);
    } else {
      InlineItemIsShown(lines, index, node, depth);
    }
  }

  lemma {:induction false} ItemsAreShown(lines: seq<Line>, index: nat, items: seq<Node>, depth: nat, bare: bool)
    requires WfItems(items, depth, bare) && At(lines, index, PrintItems(items, IndentOf(depth), bare))
    ensures ShowsItems(lines, index, index + |PrintItems(items, IndentOf(depth), bare)|, items, depth)
    decreases items, 3
  {
    hide At, WfItem, PrintItem, ShowsItem;
    if items != [] {
      var printed, more := PrintItem(items[0], IndentOf(depth), bare), PrintItems(items[1..], IndentOf(depth), bare);
      AtSplit(lines, index, printed, more);
      var mid := index + |printed|;
      ItemIsShown(lines, index, items[0], depth, bare);
      ItemsAreShown(lines, mid, items[1..], depth, bare);
    }
  }

  /** Parsing the printing of any well-formed document gives the document, whichever way its
      sequences of mappings are laid out. */
  lemma PrintThenParse(root: Node, bare: bool)
    requires root.MapNode? && WfBlock(root, 0, bare)
    ensures Document(PrintBlock(root, 0, bare)) == Ok(root)
  {
    var lines := PrintBlock(root, 0, bare);
    BlockIsShown(lines, 0, root, 0, bare);
    ParserMeetsGrammar(lines, root);
  }
}
