/** Indentation: which lines a block takes, and where it stops. */
module YamlIndent {
  import opened Wrappers
  import opened YamlText
  import opened YamlScalars
  import opened YamlParser

  predicate EvenIndents(lines: seq<Line>) {
    forall i | 0 <= i < |lines| :: lines[i].indent % 2 == 0
  }

  /** The lines from `index` to `next` are indented at least to `indent`, and never past the
      deepest level. */
  predicate Band(lines: seq<Line>, index: nat, next: nat, indent: nat) {
    && index <= next <= |lines|
    && forall i | index <= i < next :: indent <= lines[i].indent <= IndentOf(MAX_NESTING + 1)
  }

  /** Parsing stopped at the end or at a line indented less than `indent`. */
  predicate StopsBelow(lines: seq<Line>, next: nat, indent: nat) {
    next <= |lines| && (next == |lines| || lines[next].indent < indent)
  }

  /** A block takes only lines indented at least as far as itself, and never past the deepest
      level; on evenly indented lines it stops at the end or at a strictly smaller indent. */
  lemma {:induction false} BlockStops(lines: seq<Line>, index: nat, indent: nat, depth: nat)
    requires index < |lines| && indent == IndentOf(depth) && Block(lines, index, indent, depth).Ok?
    ensures var next := Block(lines, index, indent, depth).value.next;
      Band(lines, index, next, indent) && (EvenIndents(lines) ==> StopsBelow(lines, next, indent))
    decreases |lines| - index, 2
  {
    if IsItem(lines[index].text) {
      SequenceStops(lines, index, indent, depth, []);
    } else {
      MappingStops(lines, index, indent, depth, []);
    }
  }

  lemma {:induction false} EntryStops(lines: seq<Line>, text: string, indent: nat, next: nat, depth: nat)
    requires next <= |lines| && indent == IndentOf(depth) && EntryAt(lines, text, indent, next, depth).Ok?
    ensures var end := EntryAt(lines, text, indent, next, depth).value.next;
      Band(lines, next, end, indent + 2) && (EvenIndents(lines) ==> StopsBelow(lines, end, indent + 1))
    decreases |lines| - next, 3
  {
    if MappingParts(text).value.1 == "" && next < |lines| && lines[next].indent > indent {
      BlockStops(lines, next, indent + 2, depth + 1);
    }
  }

  lemma {:induction false} MappingStops(lines: seq<Line>, index: nat, indent: nat, depth: nat, entries: seq<Entry>)
    requires index <= |lines| && indent == IndentOf(depth) && depth <= MAX_NESTING
    requires Mapping(lines, index, indent, depth, entries).Ok?
    ensures var next := Mapping(lines, index, indent, depth, entries).value.next;
      && Band(lines, index, next, indent)
      && (EvenIndents(lines) && (index < |lines| ==> lines[index].indent <= indent) ==> StopsBelow(lines, next, indent))
    decreases |lines| - index, 1
  {
    if index < |lines| && lines[index].indent == indent {
      EntryStops(lines, lines[index].text, indent, index + 1, depth);
      var entry := EntryAt(lines, lines[index].text, indent, index + 1, depth).value;
      MappingStops(lines, entry.next, indent, depth, entries + [Entry(entry.key, entry.node)]);
    }
  }

  lemma {:induction false} ItemMappingStops(lines: seq<Line>, index: nat, indent: nat, depth: nat, entries: seq<Entry>)
    requires index <= |lines| && indent == IndentOf(depth) && depth <= MAX_NESTING
    requires ItemMapping(lines, index, indent, depth, entries).Ok?
    ensures var next := ItemMapping(lines, index, indent, depth, entries).value.next;
      Band(lines, index, next, indent + 2) && StopsBelow(lines, next, indent + 1)
    decreases |lines| - index, 1
  {
    if index < |lines| && lines[index].indent > indent {
      EntryStops(lines, lines[index].text, indent + 2, index + 1, depth + 1);
      var entry := EntryAt(lines, lines[index].text, indent + 2, index + 1, depth + 1).value;
      ItemMappingStops(lines, entry.next, indent, depth, entries + [Entry(entry.key, entry.node)]);
    }
  }

  lemma {:induction false} ItemStops(lines: seq<Line>, index: nat, indent: nat, depth: nat)
    requires index < |lines| && indent == IndentOf(depth) && depth <= MAX_NESTING
    requires lines[index].indent == indent && IsItem(lines[index].text) && Item(lines, index, indent, depth).Ok?
    ensures var next := Item(lines, index, indent, depth).value.next;
      Band(lines, index, next, indent) && (EvenIndents(lines) ==> StopsBelow(lines, next, indent + 1))
    decreases |lines| - index, 0
  {
    var text, next := ItemText(lines[index].text), index + 1;
    if text == "" {
      BlockStops(lines, next, indent + 2, depth + 1);
    } else if MappingParts(text).Ok? {
      EntryStops(lines, text, indent + 2, next, depth + 1);
      var entry := EntryAt(lines, text, indent + 2, next, depth + 1).value;
      ItemMappingStops(lines, entry.next, indent, depth, [Entry(entry.key, entry.node)]);
    }
  }

  lemma {:induction false} SequenceStops(lines: seq<Line>, index: nat, indent: nat, depth: nat, items: seq<Node>)
    requires index <= |lines| && indent == IndentOf(depth) && depth <= MAX_NESTING
    requires Sequence(lines, index, indent, depth, items).Ok?
    ensures var next := Sequence(lines, index, indent, depth, items).value.next;
      && Band(lines, index, next, indent)
      && (EvenIndents(lines) && (index < |lines| ==> lines[index].indent <= indent) ==> StopsBelow(lines, next, indent))
    decreases |lines| - index, 1
  {
    if index < |lines| && lines[index].indent == indent {
      ItemStops(lines, index, indent, depth);
      var item := Item(lines, index, indent, depth).value;
      SequenceStops(lines, item.next, indent, depth, items + [item.node]);
    }
  }

  /** A document that parses has used every line, and none is indented past the limit; on
      evenly indented lines nothing can trail a root block that parses. */
  lemma DocumentUsesEveryLine(lines: seq<Line>)
    ensures Document(lines).Ok? ==> Band(lines, 0, |lines|, 0)
    ensures EvenIndents(lines) && lines != [] && lines[0].indent == 0 && Block(lines, 0, 0, 0).Ok? ==>
      Block(lines, 0, 0, 0).value.next == |lines|
  {
    if lines != [] && lines[0].indent == 0 && Block(lines, 0, 0, 0).Ok? {
      BlockStops(lines, 0, 0, 0);
    }
  }
}
