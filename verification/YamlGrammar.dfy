/** The grammar of blocks, and the parser's agreement with it in both directions. */
module YamlGrammar {
  import opened Wrappers
  import opened YamlText
  import opened YamlScalars
  import opened YamlParser
  import opened YamlIndent

  predicate DistinctKeys(entries: seq<Entry>) {
    forall i, j | 0 <= i < j < |entries| :: entries[i].key != entries[j].key
  }

  // -- the grammar ------------------------------------------------------------------------------

  /** The lines from `index` to `next` are a block at `depth` that shows `node`. */
  ghost predicate ShowsBlock(lines: seq<Line>, index: nat, next: nat, node: Node, depth: nat)
    decreases node, 0
  {
    && index < next <= |lines| && depth <= MAX_NESTING
    && match node
       case MapNode(entries) => DistinctKeys(entries) && ShowsEntries(lines, index, next, entries, depth)
       case BlockList(items) => ShowsItems(lines, index, next, items, depth)
       case _ => false
  }

  /** Entries, each on a line at the block's indent followed by the lines nested in it. */
  ghost predicate ShowsEntries(lines: seq<Line>, index: nat, next: nat, entries: seq<Entry>, depth: nat)
    decreases entries, 0
  {
    if entries == [] then index == next
    else exists mid: nat ::
      && index < mid && index < |lines| && lines[index].indent == IndentOf(depth) && !IsItem(lines[index].text)
      && ShowsEntry(lines, lines[index].text, index + 1, mid, entries[0], depth)
      && ShowsEntries(lines, mid, next, entries[1..], depth)
  }

  /** An entry with its own text, and its nested lines from `index` to `next`. */
  ghost predicate ShowsEntry(lines: seq<Line>, text: string, index: nat, next: nat, entry: Entry, depth: nat)
    decreases entry, 0
  {
    match MappingParts(text)
    case Err(_) => false
    case Ok((key, raw)) =>
      && key == entry.key
      && if raw != "" then index == next && InlineNode(raw, Some(key)) == Ok(entry.node)
         else if entry.node == NullNode then index == next
         else ShowsBlock(lines, index, next, entry.node, depth + 1)
  }

  ghost predicate ShowsItems(lines: seq<Line>, index: nat, next: nat, items: seq<Node>, depth: nat)
    decreases items, 0
  {
    if items == [] then index == next
    else exists mid: nat ::
      && index < mid && index < |lines| && lines[index].indent == IndentOf(depth) && IsItem(lines[index].text)
      && ShowsItem(lines, index, mid, items[0], depth)
      && ShowsItems(lines, mid, next, items[1..], depth)
  }

  /** An item on the line at `index`: a block below a bare dash, a mapping that starts beside
      the dash, or a value. */
  ghost predicate ShowsItem(lines: seq<Line>, index: nat, next: nat, node: Node, depth: nat)
    requires index < |lines| && IsItem(lines[index].text)
    decreases node, 2
  {
    var text := ItemText(lines[index].text);
    if text == "" then ShowsBlock(lines, index + 1, next, node, depth + 1)
    else if MappingParts(text).Err? then next == index + 1 && InlineNode(text, None) == Ok(node)
    else node.MapNode? && ShowsItemMapping(lines, index + 1, next, node.entries, depth + 1, text)
  }

  /** A mapping whose first entry has its own text, with its nested lines from `index`. */
  ghost predicate ShowsItemMapping(lines: seq<Line>, index: nat, next: nat, entries: seq<Entry>, depth: nat, text: string)
    decreases entries, 1
  {
    && entries != [] && DistinctKeys(entries)
    && exists mid: nat ::
      && ShowsEntry(lines, text, index, mid, entries[0], depth)
      && ShowsEntries(lines, mid, next, entries[1..], depth)
  }

  // -- what the parser accepts is in the grammar -----------------------------------------------------

  /** One more entry keeps the keys distinct exactly when its key is new. */
  lemma NewKey(entries: seq<Entry>, entry: Entry)
    requires DistinctKeys(entries)
    ensures DistinctKeys(entries + [entry]) <==> !HasKey(entries, entry.key)
  {
    if !HasKey(entries, entry.key) {
      assert forall i | 0 <= i < |entries| :: entries[i].key != entry.key;
    } else {
      var i :| 0 <= i < |entries| && entries[i].key == entry.key;
      var all := entries + [entry];
      assert all[i].key == all[|entries|].key;
    }
  }

  lemma {:induction false} BlockSound(lines: seq<Line>, index: nat, depth: nat)
    requires index < |lines| && Block(lines, index, IndentOf(depth), depth).Ok?
    ensures var r := Block(lines, index, IndentOf(depth), depth).value;
      ShowsBlock(lines, index, r.next, r.node, depth)
    decreases |lines| - index, 2
  {
    if IsItem(lines[index].text) {
      var items := SequenceSound(lines, index, depth, []);
      assert [] + items == items;
    } else {
      var entries := MappingSound(lines, index, depth, []);
      assert [] + entries == entries;
    }
  }

  lemma {:induction false} EntrySound(lines: seq<Line>, text: string, index: nat, depth: nat)
    requires index <= |lines| && EntryAt(lines, text, IndentOf(depth), index, depth).Ok?
    ensures var r := EntryAt(lines, text, IndentOf(depth), index, depth).value;
      ShowsEntry(lines, text, index, r.next, Entry(r.key, r.node), depth)
    decreases |lines| - index, 3
  {
    var (key, raw) := MappingParts(text).value;
    if raw == "" && index < |lines| && lines[index].indent > IndentOf(depth) {
      BlockSound(lines, index, depth + 1);
    }
  }

  lemma Regroup(entries: seq<Entry>, entry: Entry, more: seq<Entry>)
    ensures entries + ([entry] + more) == (entries + [entry]) + more
  {
  }

  lemma ShowsMore(lines: seq<Line>, index: nat, mid: nat, next: nat, entry: Entry, more: seq<Entry>, depth: nat)
    requires index < mid && index < |lines| && lines[index].indent == IndentOf(depth) && !IsItem(lines[index].text)
    requires ShowsEntry(lines, lines[index].text, index + 1, mid, entry, depth)
    requires ShowsEntries(lines, mid, next, more, depth)
    ensures ShowsEntries(lines, index, next, [entry] + more, depth)
  {
    assert ([entry] + more)[1..] == more;
  }

  lemma MappingStep(lines: seq<Line>, index: nat, depth: nat, entries: seq<Entry>) returns (read: ParsedEntry)
    requires index < |lines| && depth <= MAX_NESTING && lines[index].indent == IndentOf(depth)
    requires Mapping(lines, index, IndentOf(depth), depth, entries).Ok?
    ensures !IsItem(lines[index].text) && !HasKey(entries, read.key)
    ensures EntryAt(lines, lines[index].text, IndentOf(depth), index + 1, depth) == Ok(read)
    ensures index < read.next <= |lines|
    ensures Mapping(lines, index, IndentOf(depth), depth, entries)
         == Mapping(lines, read.next, IndentOf(depth), depth, entries + [Entry(read.key, read.node)])
  {
    read := EntryAt(lines, lines[index].text, IndentOf(depth), index + 1, depth).value;
  }

  /** The entries a mapping gains from its remaining lines. */
  lemma {:induction false} MappingSound(lines: seq<Line>, index: nat, depth: nat, entries: seq<Entry>)
    returns (rest: seq<Entry>)
    requires index <= |lines| && depth <= MAX_NESTING && DistinctKeys(entries)
    requires Mapping(lines, index, IndentOf(depth), depth, entries).Ok?
    ensures var r := Mapping(lines, index, IndentOf(depth), depth, entries).value;
      && r.node == MapNode(entries + rest) && DistinctKeys(entries + rest)
      && ShowsEntries(lines, index, r.next, rest, depth)
    decreases |lines| - index, 1
  {
    if index < |lines| && lines[index].indent == IndentOf(depth) {
      var read := MappingStep(lines, index, depth, entries);
      var entry := Entry(read.key, read.node);
      EntrySound(lines, lines[index].text, index + 1, depth);
      NewKey(entries, entry);
      var more := MappingSound(lines, read.next, depth, entries + [entry]);
      var end := Mapping(lines, read.next, IndentOf(depth), depth, entries + [entry]).value.next;
      ShowsMore(lines, index, read.next, end, entry, more, depth);
      Regroup(entries, entry, more);
      rest := [entry] + more;
    } else {
      rest := [];
      assert entries + rest == entries;
    }
  }

  lemma ItemMappingStep(lines: seq<Line>, index: nat, depth: nat, entries: seq<Entry>) returns (read: ParsedEntry)
    requires index < |lines| && depth <= MAX_NESTING && lines[index].indent > IndentOf(depth)
    requires ItemMapping(lines, index, IndentOf(depth), depth, entries).Ok?
    ensures lines[index].indent == IndentOf(depth + 1) && !HasKey(entries, read.key)
    ensures EntryAt(lines, lines[index].text, IndentOf(depth + 1), index + 1, depth + 1) == Ok(read)
    ensures index < read.next <= |lines|
    ensures ItemMapping(lines, index, IndentOf(depth), depth, entries)
         == ItemMapping(lines, read.next, IndentOf(depth), depth, entries + [Entry(read.key, read.node)])
  {
    read := EntryAt(lines, lines[index].text, IndentOf(depth) + 2, index + 1, depth + 1).value;
  }

  lemma {:induction false} ItemMappingSound(lines: seq<Line>, index: nat, depth: nat, entries: seq<Entry>)
    returns (rest: seq<Entry>)
    requires index <= |lines| && depth <= MAX_NESTING && DistinctKeys(entries)
    requires ItemMapping(lines, index, IndentOf(depth), depth, entries).Ok?
    ensures var r := ItemMapping(lines, index, IndentOf(depth), depth, entries).value;
      && r.node == MapNode(entries + rest) && DistinctKeys(entries + rest)
      && ShowsEntries(lines, index, r.next, rest, depth + 1)
    decreases |lines| - index, 1
  {
    if index < |lines| && lines[index].indent > IndentOf(depth) {
      var read := ItemMappingStep(lines, index, depth, entries);
      var entry := Entry(read.key, read.node);
      EntrySound(lines, lines[index].text, index + 1, depth + 1);
      EntryIsNoItem(lines[index].text);
      NewKey(entries, entry);
      var more := ItemMappingSound(lines, read.next, depth, entries + [entry]);
      var end := ItemMapping(lines, read.next, IndentOf(depth), depth, entries + [entry]).value.next;
      ShowsMore(lines, index, read.next, end, entry, more, depth + 1);
      Regroup(entries, entry, more);
      rest := [entry] + more;
    } else {
      rest := [];
      assert entries + rest == entries;
    }
  }

  /** No text is both an entry and a sequence item. */
  lemma EntryIsNoItem(text: string)
    requires MappingParts(text).Ok?
    ensures text != "" && !IsItem(text) && !IsSpace(text[0])
  {
    var k := Find(text, ':');
    assert text[0] == text[..k][0];
  }

  lemma {:induction false} ItemSound(lines: seq<Line>, index: nat, depth: nat)
    requires index < |lines| && depth <= MAX_NESTING
    requires lines[index].indent == IndentOf(depth) && IsItem(lines[index].text) && Item(lines, index, IndentOf(depth), depth).Ok?
    ensures var r := Item(lines, index, IndentOf(depth), depth).value;
      ShowsItem(lines, index, r.next, r.node, depth)
    decreases |lines| - index, 0
  {
    var text := ItemText(lines[index].text);
    if text == "" {
      BlockSound(lines, index + 1, depth + 1);
    } else if MappingParts(text).Ok? {
      EntrySound(lines, text, index + 1, depth + 1);
      var read := EntryAt(lines, text, IndentOf(depth) + 2, index + 1, depth + 1).value;
      var entry := Entry(read.key, read.node);
      var more := ItemMappingSound(lines, read.next, depth, [entry]);
      assert ([entry] + more)[1..] == more;
    }
  }

  lemma {:induction false} SequenceSound(lines: seq<Line>, index: nat, depth: nat, items: seq<Node>)
    returns (rest: seq<Node>)
    requires index <= |lines| && depth <= MAX_NESTING
    requires Sequence(lines, index, IndentOf(depth), depth, items).Ok?
    ensures var r := Sequence(lines, index, IndentOf(depth), depth, items).value;
      && r.node == BlockList(items + rest)
      && ShowsItems(lines, index, r.next, rest, depth)
    decreases |lines| - index, 1
  {
    rest := [];
    assert items + rest == items;
    if index < |lines| && lines[index].indent == IndentOf(depth) {
      ItemSound(lines, index, depth);
      var item := Item(lines, index, IndentOf(depth), depth).value;
      var more := SequenceSound(lines, item.next, depth, items + [item.node]);
      rest := [item.node] + more;
      assert items + rest == (items + [item.node]) + more;
      assert rest[1..] == more;
    }
  }

  // -- what is in the grammar the parser accepts ---------------------------------------------------------

  /** A block of entries starts at its own indent, unless it is empty. */
  lemma {:induction false} EntriesStart(lines: seq<Line>, index: nat, next: nat, entries: seq<Entry>, depth: nat)
    requires ShowsEntries(lines, index, next, entries, depth)
    ensures entries == [] ==> index == next
    ensures entries != [] ==> index < |lines| && lines[index].indent == IndentOf(depth)
    ensures StopsBelow(lines, next, IndentOf(depth) + 1) ==> StopsBelow(lines, index, IndentOf(depth) + 1)
  {
  }

  /** Where the first entry's nested lines end. */
  lemma FirstEntry(lines: seq<Line>, index: nat, next: nat, rest: seq<Entry>, depth: nat) returns (mid: nat)
    requires rest != [] && ShowsEntries(lines, index, next, rest, depth)
    ensures index < mid && index < |lines| && lines[index].indent == IndentOf(depth) && !IsItem(lines[index].text)
    ensures ShowsEntry(lines, lines[index].text, index + 1, mid, rest[0], depth)
    ensures ShowsEntries(lines, mid, next, rest[1..], depth)
  {
    mid :| && index < mid && index < |lines| && lines[index].indent == IndentOf(depth) && !IsItem(lines[index].text)
           && ShowsEntry(lines, lines[index].text, index + 1, mid, rest[0], depth)
           && ShowsEntries(lines, mid, next, rest[1..], depth);
  }

  lemma {:induction false} BlockComplete(lines: seq<Line>, index: nat, next: nat, node: Node, depth: nat)
    requires ShowsBlock(lines, index, next, node, depth) && StopsBelow(lines, next, IndentOf(depth))
    ensures Block(lines, index, IndentOf(depth), depth) == Ok(Parsed(node, next))
    ensures lines[index].indent == IndentOf(depth)
    decreases node, 0
  {
    match node
    case MapNode(entries) =>
      EntriesStart(lines, index, next, entries, depth);
      MappingComplete(lines, index, next, [], entries, depth);
      assert [] + entries == entries;
    case BlockList(items) =>
      SequenceComplete(lines, index, next, [], items, depth);
      assert [] + items == items;
  }

  lemma {:induction false} EntryComplete(lines: seq<Line>, text: string, index: nat, next: nat, entry: Entry, depth: nat)
    requires index <= |lines| && ShowsEntry(lines, text, index, next, entry, depth)
    requires StopsBelow(lines, next, IndentOf(depth) + 1)
    ensures EntryAt(lines, text, IndentOf(depth), index, depth) == Ok(ParsedEntry(entry.key, entry.node, next))
    decreases entry, 0
  {
    var (key, raw) := MappingParts(text).value;
    if raw == "" && entry.node != NullNode {
      BlockComplete(lines, index, next, entry.node, depth + 1);
    }
  }

  /** The first of several entries, and where its nested lines end. */
  lemma {:induction false} FirstEntryComplete(lines: seq<Line>, index: nat, next: nat, rest: seq<Entry>, depth: nat)
    returns (mid: nat)
    requires rest != [] && ShowsEntries(lines, index, next, rest, depth) && StopsBelow(lines, next, IndentOf(depth) + 1)
    ensures index < |lines| && lines[index].indent == IndentOf(depth) && !IsItem(lines[index].text)
    ensures EntryAt(lines, lines[index].text, IndentOf(depth), index + 1, depth)
         == Ok(ParsedEntry(rest[0].key, rest[0].node, mid))
    ensures index < mid && ShowsEntries(lines, mid, next, rest[1..], depth)
    decreases rest, 0
  {
    mid := FirstEntry(lines, index, next, rest, depth);
    EntriesStart(lines, mid, next, rest[1..], depth);
    EntryComplete(lines, lines[index].text, index + 1, mid, rest[0], depth);
  }

  lemma FreshKey(entries: seq<Entry>, rest: seq<Entry>)
    requires rest != [] && DistinctKeys(entries + rest)
    ensures !HasKey(entries, rest[0].key)
    ensures (entries + [rest[0]]) + rest[1..] == entries + rest
    ensures DistinctKeys((entries + [rest[0]]) + rest[1..])
  {
    assert (entries + [rest[0]]) + rest[1..] == entries + rest;
    forall i | 0 <= i < |entries|
      ensures entries[i].key != rest[0].key
    {
      assert (entries + rest)[i] == entries[i] && (entries + rest)[|entries|] == rest[0];
    }
  }

  lemma MappingTakes(lines: seq<Line>, index: nat, depth: nat, entries: seq<Entry>, entry: Entry, mid: nat)
    requires index < |lines| && depth <= MAX_NESTING
    requires lines[index].indent == IndentOf(depth) && !IsItem(lines[index].text) && !HasKey(entries, entry.key)
    requires EntryAt(lines, lines[index].text, IndentOf(depth), index + 1, depth) == Ok(ParsedEntry(entry.key, entry.node, mid))
    ensures mid <= |lines|
    ensures Mapping(lines, index, IndentOf(depth), depth, entries) == Mapping(lines, mid, IndentOf(depth), depth, entries + [entry])
  {
  }

  lemma MappingEnds(lines: seq<Line>, index: nat, depth: nat, entries: seq<Entry>)
    requires depth <= MAX_NESTING && StopsBelow(lines, index, IndentOf(depth))
    ensures Mapping(lines, index, IndentOf(depth), depth, entries) == Ok(Parsed(MapNode(entries), index))
  {
  }

  lemma {:induction false} MappingComplete(lines: seq<Line>, index: nat, next: nat, entries: seq<Entry>, rest: seq<Entry>,
                                           depth: nat)
    requires index <= |lines| && depth <= MAX_NESTING && DistinctKeys(entries + rest)
    requires ShowsEntries(lines, index, next, rest, depth) && StopsBelow(lines, next, IndentOf(depth))
    ensures Mapping(lines, index, IndentOf(depth), depth, entries) == Ok(Parsed(MapNode(entries + rest), next))
    decreases rest, 1
  {
    if rest == [] {
      assert entries + rest == entries;
      MappingEnds(lines, index, depth, entries);
    } else {
      var mid := FirstEntryComplete(lines, index, next, rest, depth);
      FreshKey(entries, rest);
      MappingTakes(lines, index, depth, entries, rest[0], mid);
      MappingComplete(lines, mid, next, entries + [rest[0]], rest[1..], depth);
    }
  }

  lemma ItemMappingTakes(lines: seq<Line>, index: nat, depth: nat, entries: seq<Entry>, entry: Entry, mid: nat)
    requires index < |lines| && depth <= MAX_NESTING
    requires lines[index].indent == IndentOf(depth + 1) && !HasKey(entries, entry.key)
    requires EntryAt(lines, lines[index].text, IndentOf(depth + 1), index + 1, depth + 1)
          == Ok(ParsedEntry(entry.key, entry.node, mid))
    ensures mid <= |lines|
    ensures ItemMapping(lines, index, IndentOf(depth), depth, entries)
         == ItemMapping(lines, mid, IndentOf(depth), depth, entries + [entry])
  {
  }

  lemma ItemMappingEnds(lines: seq<Line>, index: nat, depth: nat, entries: seq<Entry>)
    requires depth <= MAX_NESTING && StopsBelow(lines, index, IndentOf(depth) + 1)
    ensures ItemMapping(lines, index, IndentOf(depth), depth, entries) == Ok(Parsed(MapNode(entries), index))
  {
  }

  lemma {:induction false} ItemMappingComplete(lines: seq<Line>, index: nat, next: nat, entries: seq<Entry>,
                                               rest: seq<Entry>, depth: nat)
    requires index <= |lines| && depth <= MAX_NESTING && DistinctKeys(entries + rest)
    requires ShowsEntries(lines, index, next, rest, depth + 1) && StopsBelow(lines, next, IndentOf(depth) + 1)
    ensures ItemMapping(lines, index, IndentOf(depth), depth, entries) == Ok(Parsed(MapNode(entries + rest), next))
    decreases rest, 1
  {
    if rest == [] {
      assert entries + rest == entries;
      ItemMappingEnds(lines, index, depth, entries);
    } else {
      var mid := FirstEntryComplete(lines, index, next, rest, depth + 1);
      FreshKey(entries, rest);
      ItemMappingTakes(lines, index, depth, entries, rest[0], mid);
      ItemMappingComplete(lines, mid, next, entries + [rest[0]], rest[1..], depth);
    }
  }

  lemma MappingItem(lines: seq<Line>, index: nat, depth: nat, text: string, entry: Entry, mid: nat)
    requires index < |lines| && depth <= MAX_NESTING
    requires lines[index].indent == IndentOf(depth) && IsItem(lines[index].text) && text == ItemText(lines[index].text)
    requires text != "" && MappingParts(text).Ok?
    requires EntryAt(lines, text, IndentOf(depth + 1), index + 1, depth + 1) == Ok(ParsedEntry(entry.key, entry.node, mid))
    ensures mid <= |lines|
    ensures Item(lines, index, IndentOf(depth), depth) == ItemMapping(lines, mid, IndentOf(depth), depth, [entry])
  {
  }

  lemma {:induction false} MappingItemComplete(lines: seq<Line>, index: nat, next: nat, entries: seq<Entry>, depth: nat)
    requires index < |lines| && depth <= MAX_NESTING
    requires lines[index].indent == IndentOf(depth) && IsItem(lines[index].text)
    requires var text := ItemText(lines[index].text);
      text != "" && MappingParts(text).Ok? && ShowsItemMapping(lines, index + 1, next, entries, depth + 1, text)
    requires StopsBelow(lines, next, IndentOf(depth) + 1)
    ensures Item(lines, index, IndentOf(depth), depth) == Ok(Parsed(MapNode(entries), next))
    decreases entries, 2
  {
    var text := ItemText(lines[index].text);
    var mid: nat :| ShowsEntry(lines, text, index + 1, mid, entries[0], depth + 1)
                    && ShowsEntries(lines, mid, next, entries[1..], depth + 1);
    EntriesStart(lines, mid, next, entries[1..], depth + 1);
    EntryComplete(lines, text, index + 1, mid, entries[0], depth + 1);
    MappingItem(lines, index, depth, text, entries[0], mid);
    assert [entries[0]] + entries[1..] == entries;
    ItemMappingComplete(lines, mid, next, [entries[0]], entries[1..], depth);
  }

  lemma {:induction false} ItemComplete(lines: seq<Line>, index: nat, next: nat, node: Node, depth: nat)
    requires index < |lines| && depth <= MAX_NESTING
    requires lines[index].indent == IndentOf(depth) && IsItem(lines[index].text)
    requires ShowsItem(lines, index, next, node, depth) && StopsBelow(lines, next, IndentOf(depth) + 1)
    ensures Item(lines, index, IndentOf(depth), depth) == Ok(Parsed(node, next))
    decreases node, 2
  {
    var text := ItemText(lines[index].text);
    if text == "" {
      BlockComplete(lines, index + 1, next, node, depth + 1);
    } else if MappingParts(text).Ok? {
      MappingItemComplete(lines, index, next, node.entries, depth);
    }
  }

  lemma SequenceTakes(lines: seq<Line>, index: nat, depth: nat, items: seq<Node>, item: Node, mid: nat)
    requires index < |lines| && depth <= MAX_NESTING && lines[index].indent == IndentOf(depth) && IsItem(lines[index].text)
    requires Item(lines, index, IndentOf(depth), depth) == Ok(Parsed(item, mid))
    ensures mid <= |lines|
    ensures Sequence(lines, index, IndentOf(depth), depth, items) == Sequence(lines, mid, IndentOf(depth), depth, items + [item])
  {
  }

  lemma SequenceEnds(lines: seq<Line>, index: nat, depth: nat, items: seq<Node>)
    requires depth <= MAX_NESTING && StopsBelow(lines, index, IndentOf(depth))
    ensures Sequence(lines, index, IndentOf(depth), depth, items) == Ok(Parsed(BlockList(items), index))
  {
  }

  lemma {:induction false} SequenceComplete(lines: seq<Line>, index: nat, next: nat, items: seq<Node>, rest: seq<Node>,
                                            depth: nat)
    requires index <= |lines| && depth <= MAX_NESTING
    requires ShowsItems(lines, index, next, rest, depth) && StopsBelow(lines, next, IndentOf(depth))
    ensures rest != [] ==> index < |lines| && lines[index].indent == IndentOf(depth) && IsItem(lines[index].text)
    ensures Sequence(lines, index, IndentOf(depth), depth, items) == Ok(Parsed(BlockList(items + rest), next))
    decreases rest, 3
  {
    if rest == [] {
      assert items + rest == items;
      SequenceEnds(lines, index, depth, items);
    } else {
      var mid: nat :| && index < mid && index < |lines| && lines[index].indent == IndentOf(depth) && IsItem(lines[index].text)
                      && ShowsItem(lines, index, mid, rest[0], depth)
                      && ShowsItems(lines, mid, next, rest[1..], depth);
      assert StopsBelow(lines, mid, IndentOf(depth) + 1);
      ItemComplete(lines, index, mid, rest[0], depth);
      SequenceTakes(lines, index, depth, items, rest[0], mid);
      assert (items + [rest[0]]) + rest[1..] == items + rest;
      SequenceComplete(lines, mid, next, items + [rest[0]], rest[1..], depth);
    }
  }

  // -- the agreement ---------------------------------------------------------------------------------------

  /** The parser accepts exactly what the grammar shows, with the tree the grammar shows, so
      no document has two readings. */
  lemma ParserMeetsGrammar(lines: seq<Line>, root: Node)
    ensures Document(lines) == Ok(root)
      <==> root.MapNode? && ShowsBlock(lines, 0, |lines|, root, 0)
  {
    if root.MapNode? && ShowsBlock(lines, 0, |lines|, root, 0) {
      BlockComplete(lines, 0, |lines|, root, 0);
    }
    if Document(lines) == Ok(root) {
      BlockSound(lines, 0, 0);
    }
  }
}
