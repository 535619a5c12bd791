/** The block structure of a workflow: mappings and sequences by indentation. */
module YamlParser {
  import opened Wrappers
  import opened YamlText
  import opened YamlScalars

  const MAX_NESTING := 64

  /** A block is indented by twice its depth. */
  function IndentOf(depth: nat): nat {
    depth + depth
  }

  datatype Line = Line(indent: nat, text: string)

  datatype Parsed = Parsed(node: Node, next: nat)

  datatype ParsedEntry = ParsedEntry(key: string, node: Node, next: nat)

  /** A line that starts a sequence item. */
  predicate IsItem(text: string) {
    text == "-" || StartsWith(text, "- ")
  }

  function ItemText(text: string): string
    requires IsItem(text)
  {
    LStrip(text[1..])
  }

  predicate HasKey(entries: seq<Entry>, key: string) {
    exists i | 0 <= i < |entries| :: entries[i].key == key
  }

  // -- the parser as functions ---------------------------------------------------------------

  function Block(lines: seq<Line>, index: nat, indent: nat, depth: nat): (r: Result<Parsed, Reason>)
    requires index < |lines| && indent == IndentOf(depth)
    ensures r.Ok? ==> index < r.value.next <= |lines|
    decreases |lines| - index, 2
  {
    if depth > MAX_NESTING then Err(TooDeep)
    else if lines[index].indent != indent then Err(BadIndent)
    else if IsItem(lines[index].text) then Sequence(lines, index, indent, depth, [])
    else Mapping(lines, index, indent, depth, [])
  }

  /** An entry whose nested lines start at `next`. */
  function EntryAt(lines: seq<Line>, text: string, indent: nat, next: nat, depth: nat): (r: Result<ParsedEntry, Reason>)
    requires next <= |lines| && indent == IndentOf(depth)
    ensures r.Ok? ==> next <= r.value.next <= |lines|
    decreases |lines| - next, 3
  {
    match MappingParts(text)
    case Err(reason) => Err(reason)
    case Ok((key, raw)) =>
      var nested := next < |lines| && lines[next].indent > indent;
      if raw != "" then
        match InlineNode(raw, Some(key)) {
          case Err(reason) => Err(reason)
          case Ok(node) => if nested then Err(ScalarOwnsBlock) else Ok(ParsedEntry(key, node, next))
        }
      else if nested then
        if lines[next].indent != indent + 2 then Err(BadIndent)
        else
          match Block(lines, next, indent + 2, depth + 1) {
            case Err(reason) => Err(reason)
            case Ok(block) => Ok(ParsedEntry(key, block.node, block.next))
          }
      else Ok(ParsedEntry(key, NullNode, next))
  }

  /** The rest of a mapping, after `entries`. */
  function Mapping(lines: seq<Line>, index: nat, indent: nat, depth: nat, entries: seq<Entry>)
    : (r: Result<Parsed, Reason>)
    requires index <= |lines| && indent == IndentOf(depth) && depth <= MAX_NESTING
    ensures r.Ok? ==> index <= r.value.next <= |lines|
    ensures r.Ok? && index < |lines| && lines[index].indent == indent ==> index < r.value.next
    decreases |lines| - index, 1
  {
    if index < |lines| && lines[index].indent == indent then
      if IsItem(lines[index].text) then Err(MixedMapping)
      else
        match EntryAt(lines, lines[index].text, indent, index + 1, depth)
        case Err(reason) => Err(reason)
        case Ok(entry) =>
          if HasKey(entries, entry.key) then Err(DuplicateKey)
          else Mapping(lines, entry.next, indent, depth, entries + [Entry(entry.key, entry.node)])
    else Ok(Parsed(MapNode(entries), index))
  }

  /** The entries after the first of a mapping that starts on a sequence item's line: all
      lines deeper than the item, at one level. */
  function ItemMapping(lines: seq<Line>, index: nat, indent: nat, depth: nat, entries: seq<Entry>)
    : (r: Result<Parsed, Reason>)
    requires index <= |lines| && indent == IndentOf(depth) && depth <= MAX_NESTING
    ensures r.Ok? ==> index <= r.value.next <= |lines|
    decreases |lines| - index, 1
  {
    if index < |lines| && lines[index].indent > indent then
      if lines[index].indent != indent + 2 then Err(BadItemIndent)
      else
        match EntryAt(lines, lines[index].text, indent + 2, index + 1, depth + 1)
        case Err(reason) => Err(reason)
        case Ok(entry) =>
          if HasKey(entries, entry.key) then Err(DuplicateKey)
          else ItemMapping(lines, entry.next, indent, depth, entries + [Entry(entry.key, entry.node)])
    else Ok(Parsed(MapNode(entries), index))
  }

  /** One sequence item, on the line at `index`. */
  function Item(lines: seq<Line>, index: nat, indent: nat, depth: nat): (r: Result<Parsed, Reason>)
    requires index < |lines| && indent == IndentOf(depth) && depth <= MAX_NESTING
    requires lines[index].indent == indent && IsItem(lines[index].text)
    ensures r.Ok? ==> index < r.value.next <= |lines|
    decreases |lines| - index, 0
  {
    var text, next := ItemText(lines[index].text), index + 1;
    if text == "" then
      if next >= |lines| || lines[next].indent != indent + 2 then Err(EmptySequenceItem)
      else Block(lines, next, indent + 2, depth + 1)
    else if MappingParts(text).Err? then
      match InlineNode(text, None) {
        case Err(reason) => Err(reason)
        case Ok(node) =>
          if next < |lines| && lines[next].indent > indent then Err(ItemOwnsBlock) else Ok(Parsed(node, next))
      }
    else
      match EntryAt(lines, text, indent + 2, next, depth + 1)
      case Err(reason) => Err(reason)
      case Ok(entry) => ItemMapping(lines, entry.next, indent, depth, [Entry(entry.key, entry.node)])
  }

  /** The rest of a sequence, after `items`. */
  function Sequence(lines: seq<Line>, index: nat, indent: nat, depth: nat, items: seq<Node>)
    : (r: Result<Parsed, Reason>)
    requires index <= |lines| && indent == IndentOf(depth) && depth <= MAX_NESTING
    ensures r.Ok? ==> index <= r.value.next <= |lines|
    ensures r.Ok? && index < |lines| && lines[index].indent == indent ==> index < r.value.next
    decreases |lines| - index, 1
  {
    if index < |lines| && lines[index].indent == indent then
      if !IsItem(lines[index].text) then Err(MixedSequence)
      else
        match Item(lines, index, indent, depth)
        case Err(reason) => Err(reason)
        case Ok(item) => Sequence(lines, item.next, indent, depth, items + [item.node])
    else Ok(Parsed(BlockList(items), index))
  }

  /** A whole document: one mapping at the left margin, and nothing after it. */
  function Document(lines: seq<Line>): Result<Node, Reason>
  {
    if lines == [] then Err(EmptyDocument)
    else if lines[0].indent != 0 then Err(IndentedRoot)
    else
      match Block(lines, 0, 0, 0)
      case Err(reason) => Err(reason)
      case Ok(root) =>
        if root.next != |lines| then Err(TrailingNode)
        else if !root.node.MapNode? then Err(RootNotMapping)
        else Ok(root.node)
  }

  // -- the parser as written: loops over the lines ----------------------------------------------

  class Parser {
    const lines: seq<Line>

    constructor (lines: seq<Line>)
      ensures this.lines == lines
    {
      this.lines := lines;
    }

    method Parse() returns (r: Result<Node, Reason>)
      ensures r == Document(lines)
    {
      if lines == [] { return Err(EmptyDocument); }
      if lines[0].indent != 0 { return Err(IndentedRoot); }
      var root := ParseBlock(0, 0, 0);
      if root.Err? { return Err(root.error); }
      if root.value.next != |lines| { return Err(TrailingNode); }
      if !root.value.node.MapNode? { return Err(RootNotMapping); }
      r := Ok(root.value.node);
    }

    method ParseBlock(index: nat, indent: nat, depth: nat) returns (r: Result<Parsed, Reason>)
      requires index < |lines| && indent == IndentOf(depth)
      ensures r == Block(lines, index, indent, depth)
      decreases |lines| - index, 2
    {
      if depth > MAX_NESTING { return Err(TooDeep); }
      if lines[index].indent != indent { return Err(BadIndent); }
      if IsItem(lines[index].text) {
        r := ParseSequence(index, indent, depth);
      } else {
        r := ParseMapping(index, indent, depth);
      }
    }

    method ParseEntry(text: string, indent: nat, next: nat, depth: nat) returns (r: Result<ParsedEntry, Reason>)
      requires next <= |lines| && indent == IndentOf(depth)
      ensures r == EntryAt(lines, text, indent, next, depth)
      decreases |lines| - next, 3
    {
      var parts := MappingParts(text);
      if parts.Err? { return Err(parts.error); }
      var (key, raw) := parts.value;
      if raw != "" {
        var node := InlineNode(raw, Some(key));
        if node.Err? { return Err(node.error); }
        if next < |lines| && lines[next].indent > indent { return Err(ScalarOwnsBlock); }
        return Ok(ParsedEntry(key, node.value, next));
      }
      if next < |lines| && lines[next].indent > indent {
        if lines[next].indent != indent + 2 { return Err(BadIndent); }
        var block := ParseBlock(next, indent + 2, depth + 1);
        if block.Err? { return Err(block.error); }
        return Ok(ParsedEntry(key, block.value.node, block.value.next));
      }
      r := Ok(ParsedEntry(key, NullNode, next));
    }

    method ParseMapping(index: nat, indent: nat, depth: nat) returns (r: Result<Parsed, Reason>)
      requires index < |lines| && indent == IndentOf(depth) && depth <= MAX_NESTING
      ensures r == Mapping(lines, index, indent, depth, [])
      decreases |lines| - index, 1
    {
      var entries: seq<Entry> := [];
      var i := index;
      while i < |lines| && lines[i].indent == indent
        invariant index <= i <= |lines|
        invariant Mapping(lines, index, indent, depth, []) == Mapping(lines, i, indent, depth, entries)
        decreases |lines| - i
      {
        if IsItem(lines[i].text) { return Err(MixedMapping); }
        var entry := ParseEntry(lines[i].text, indent, i + 1, depth);
        if entry.Err? { return Err(entry.error); }
        if HasKey(entries, entry.value.key) { return Err(DuplicateKey); }
        entries := entries + [Entry(entry.value.key, entry.value.node)];
        i := entry.value.next;
      }
      r := Ok(Parsed(MapNode(entries), i));
    }

    method ParseSequence(index: nat, indent: nat, depth: nat) returns (r: Result<Parsed, Reason>)
      requires index < |lines| && indent == IndentOf(depth) && depth <= MAX_NESTING
      ensures r == Sequence(lines, index, indent, depth, [])
      decreases |lines| - index, 1
    {
      var items: seq<Node> := [];
      var i := index;
      while i < |lines| && lines[i].indent == indent
        invariant index <= i <= |lines|
        invariant Sequence(lines, index, indent, depth, []) == Sequence(lines, i, indent, depth, items)
        decreases |lines| - i
      {
        if !IsItem(lines[i].text) { return Err(MixedSequence); }
        var item := ParseItem(i, indent, depth);
        if item.Err? { return Err(item.error); }
        items := items + [item.value.node];
        i := item.value.next;
      }
      r := Ok(Parsed(BlockList(items), i));
    }

    method ParseItem(index: nat, indent: nat, depth: nat) returns (r: Result<Parsed, Reason>)
      requires index < |lines| && indent == IndentOf(depth) && depth <= MAX_NESTING
      requires lines[index].indent == indent && IsItem(lines[index].text)
      ensures r == Item(lines, index, indent, depth)
      decreases |lines| - index, 0
    {
      var text, next := ItemText(lines[index].text), index + 1;
      if text == "" {
        if next >= |lines| || lines[next].indent != indent + 2 { return Err(EmptySequenceItem); }
        r := ParseBlock(next, indent + 2, depth + 1);
      } else if MappingParts(text).Err? {
        var node := InlineNode(text, None);
        if node.Err? { return Err(node.error); }
        if next < |lines| && lines[next].indent > indent { return Err(ItemOwnsBlock); }
        r := Ok(Parsed(node.value, next));
      } else {
        r := ParseItemMapping(text, next, indent, depth);
      }
    }

    /** A mapping whose first entry stands on a sequence item's line. */
    method ParseItemMapping(text: string, index: nat, indent: nat, depth: nat) returns (r: Result<Parsed, Reason>)
      requires index <= |lines| && indent == IndentOf(depth) && depth <= MAX_NESTING
      ensures r ==
        match EntryAt(lines, text, indent + 2, index, depth + 1)
        case Err(reason) => Err(reason)
        case Ok(entry) => ItemMapping(lines, entry.next, indent, depth, [Entry(entry.key, entry.node)])
      decreases |lines| - index, 4
    {
      hide EntryAt;
      var first := ParseEntry(text, indent + 2, index, depth + 1);
      if first.Err? { return Err(first.error); }
      var entries := [Entry(first.value.key, first.value.node)];
      var i := first.value.next;
      ghost var spec := ItemMapping(lines, i, indent, depth, entries);
      while i < |lines| && lines[i].indent > indent
        invariant index <= i <= |lines|
        invariant spec == ItemMapping(lines, i, indent, depth, entries)
        decreases |lines| - i
      {
        if lines[i].indent != indent + 2 { return Err(BadItemIndent); }
        var entry := ParseEntry(lines[i].text, indent + 2, i + 1, depth + 1);
        if entry.Err? { return Err(entry.error); }
        if HasKey(entries, entry.value.key) { return Err(DuplicateKey); }
        entries := entries + [Entry(entry.value.key, entry.value.node)];
        i := entry.value.next;
      }
      r := Ok(Parsed(MapNode(entries), i));
    }
  }
}
