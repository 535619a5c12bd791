/** The canonical printing of a tree, and which trees can be printed. */
module YamlPrinter {
  import opened Wrappers
  import opened YamlText
  import opened YamlScalars
  import opened YamlQuoting
  import opened YamlParser
  import opened YamlGrammar

  // -- well-formed trees ------------------------------------------------------------------------

  /** A text that can stand unquoted as a whole value. */
  predicate IsPlain(s: string) {
    && s != "" && !IsSpace(s[0]) && '\n' !in s
    && s[0] != '|' && s[0] != '>' && s[0] != '{' && s[0] != '[' && QuoteOf(s[0]) == Unquoted
    && PlainScalar(s).Ok?
  }

  predicate IsScalar(node: Node) {
    node.Scalar? && (if node.style == Plain then IsPlain(node.text) else !HasControl(node.text))
  }

  predicate IsFlowScalar(node: Node) {
    IsScalar(node) && (node.style == Plain ==> FlowItem(node.text))
  }

  predicate AllFlowScalars(nodes: seq<Node>) {
    nodes == [] || (IsFlowScalar(nodes[0]) && AllFlowScalars(nodes[1..]))
  }

  /** A value that fits on its key's or its dash's line. */
  predicate IsInline(node: Node) {
    IsScalar(node) || (node.FlowList? && AllFlowScalars(node.scalars))
  }

  /** A tree that can be a block at `depth`. With `bare`, mappings in sequences start below
      a dash of their own; otherwise their first entry stands beside it. */
  predicate WfBlock(node: Node, depth: nat, bare: bool)
    decreases node, 0
  {
    depth <= MAX_NESTING &&
    match node
    case MapNode(entries) => entries != [] && DistinctKeys(entries) && WfEntries(entries, depth, bare)
    case BlockList(items) => items != [] && WfItems(items, depth, bare)
    case _ => false
  }

  predicate WfEntries(entries: seq<Entry>, depth: nat, bare: bool)
    decreases entries, 0
  {
    entries == [] || (WfEntry(entries[0], depth, bare) && WfEntries(entries[1..], depth, bare))
  }

  predicate WfEntry(entry: Entry, depth: nat, bare: bool)
    decreases entry, 0
  {
    && IsKey(entry.key)
    && match entry.node
       case NullNode => true
       case BlockNode => entry.key == "run" || entry.key == "path"
       case Scalar(_, _) => IsInline(entry.node)
       case FlowList(_) => IsInline(entry.node)
       case _ => WfBlock(entry.node, depth + 1, bare)
  }

  predicate WfItems(items: seq<Node>, depth: nat, bare: bool)
    decreases items, 0
  {
    items == [] || (WfItem(items[0], depth, bare) && WfItems(items[1..], depth, bare))
  }

  predicate WfItem(node: Node, depth: nat, bare: bool)
    decreases node, 1
  {
    match node
    case NullNode => false
    case BlockNode => false
    case Scalar(_, _) => IsInline(node)
    case FlowList(_) => IsInline(node)
    case MapNode(entries) =>
      if bare then WfBlock(node, depth + 1, bare)
      else entries != [] && DistinctKeys(entries) && WfEntries(entries, depth + 1, bare)
    case BlockList(_) => WfBlock(node, depth + 1, bare)
  }

  // -- printing -----------------------------------------------------------------------------------

  function ScalarText(node: Node): string
    requires node.Scalar?
  {
    if node.style == Plain then node.text else SingleQuoted(node.text)
  }

  function ScalarTexts(nodes: seq<Node>): (r: seq<string>)
    ensures |r| == |nodes|
  {
    if nodes == [] then []
    else [if nodes[0].Scalar? then ScalarText(nodes[0]) else ""] + ScalarTexts(nodes[1..])
  }

  /** A value on one line; blocks and nulls print nothing there. */
  function InlineText(node: Node): string {
    match node
    case Scalar(_, _) => ScalarText(node)
    case FlowList(scalars) => FlowText(ScalarTexts(scalars))
    case BlockNode => "|"
    case _ => ""
  }

  function KeyLine(key: string, value: string): string {
    key + ":" + (if value == "" then "" else " " + value)
  }

  function EntryText(entry: Entry): string {
    KeyLine(entry.key, InlineText(entry.node))
  }

  predicate IsBlock(node: Node) {
    node.MapNode? || node.BlockList?
  }

  function PrintBlock(node: Node, indent: nat, bare: bool): seq<Line>
    decreases node, 0
  {
    match node
    case MapNode(entries) => PrintEntries(entries, indent, bare)
    case BlockList(items) => PrintItems(items, indent, bare)
    case _ => []
  }

  /** The lines below an entry's own line. */
  function Nested(entry: Entry, indent: nat, bare: bool): seq<Line>
    decreases entry, 0
  {
    if IsBlock(entry.node) then PrintBlock(entry.node, indent + 2, bare) else []
  }

  function PrintEntries(entries: seq<Entry>, indent: nat, bare: bool): seq<Line>
    decreases entries, 0
  {
    if entries == [] then []
    else [Line(indent, EntryText(entries[0]))]
         + (Nested(entries[0], indent, bare) + PrintEntries(entries[1..], indent, bare))
  }

  function PrintItem(node: Node, indent: nat, bare: bool): (r: seq<Line>)
    ensures r != [] && r[0].indent == indent && IsItem(r[0].text)
    decreases node, 1
  {
    if node.MapNode? && !bare && node.entries != [] then PrintMappingItem(node.entries, indent)
    else if IsBlock(node) then [Line(indent, "-")] + PrintBlock(node, indent + 2, bare)
    else [Line(indent, "- " + InlineText(node))]
  }

  /** A mapping whose first entry stands beside the dash. */
  function PrintMappingItem(entries: seq<Entry>, indent: nat): (r: seq<Line>)
    requires entries != []
    ensures r != [] && r[0].indent == indent && IsItem(r[0].text)
    decreases entries, 1
  {
    [Line(indent, "- " + EntryText(entries[0]))]
    + (Nested(entries[0], indent + 2, false) + PrintEntries(entries[1..], indent + 2, false))
  }

  function PrintItems(items: seq<Node>, indent: nat, bare: bool): seq<Line>
    decreases items, 0
  {
    if items == [] then [] else PrintItem(items[0], indent, bare) + PrintItems(items[1..], indent, bare)
  }

  // -- inline values read back ----------------------------------------------------------------------

  lemma PlainReads(s: string, key: Option<string>)
    requires IsPlain(s)
    ensures InlineNode(s, key) == Ok(Scalar(s, Plain))
  {
  }

  lemma {:induction false} DoubledHasNoNewline(s: string)
    requires !HasControl(s)
    ensures '\n' !in Doubled(s)
  {
    if s != "" {
      assert !IsControl(s[0] as int);
      assert !HasControl(s[1..]) by { assert forall k | 0 <= k < |s[1..]| :: s[1..][k] == s[k + 1]; }
      DoubledHasNoNewline(s[1..]);
    }
  }

  /** A printed scalar reads back, and stays on its line. */
  lemma ScalarReads(node: Node, key: Option<string>)
    requires IsScalar(node)
    ensures var text := ScalarText(node);
      text != "" && !IsSpace(text[0]) && '\n' !in text && InlineNode(text, key) == Ok(node)
  {
    if node.style == Plain {
      PlainReads(node.text, key);
    } else {
      SingleQuotedDecodes(node.text);
      DoubledHasNoNewline(node.text);
    }
  }

  predicate Fit(texts: seq<string>, bound: nat) {
    forall k | 0 <= k < |texts| :: texts[k] != "" && |texts[k]| < bound
  }

  lemma FirstFlowNode(texts: seq<string>, bound: nat, node: Node, nodes: seq<Node>)
    requires texts != [] && Fit(texts, bound) && Fit(texts[1..], bound)
    requires InlineNode(texts[0], None) == Ok(node) && FlowNodes(texts[1..], bound) == Ok(nodes)
    ensures FlowNodes(texts, bound) == Ok([node] + nodes)
  {
  }

  lemma {:induction false} FlowScalarsRead(nodes: seq<Node>, texts: seq<string>, bound: nat)
    requires AllFlowScalars(nodes) && texts == ScalarTexts(nodes) && Fit(texts, bound)
    ensures FlowNodes(texts, bound) == Ok(nodes)
  {
    if nodes != [] {
      ScalarReads(nodes[0], None);
      assert texts[0] == ScalarText(nodes[0]);
      FlowScalarsRead(nodes[1..], texts[1..], bound);
      FirstFlowNode(texts, bound, nodes[0], nodes[1..]);
      assert nodes == [nodes[0]] + nodes[1..];
    }
  }

  lemma {:induction false} FlowScalarsAreScalars(nodes: seq<Node>)
    requires AllFlowScalars(nodes)
    ensures AllScalars(nodes)
  {
    if nodes != [] { FlowScalarsAreScalars(nodes[1..]); }
  }

  lemma {:induction false} FlowScalarsAreItems(nodes: seq<Node>)
    requires AllFlowScalars(nodes)
    ensures AllFlowItems(ScalarTexts(nodes))
    ensures '\n' !in Joined(ScalarTexts(nodes))
  {
    if nodes != [] {
      var texts := ScalarTexts(nodes);
      assert texts[1..] == ScalarTexts(nodes[1..]);
      FlowScalarsAreItems(nodes[1..]);
      ScalarReads(nodes[0], None);
      if nodes[0].style == Quoted { SingleQuotedIsItem(nodes[0].text); }
      assert texts[0] == ScalarText(nodes[0]);
    }
  }

  lemma BracketReads(value: string, key: Option<string>)
    requires StartsWith(value, "[")
    ensures value != "" && InlineNode(value, key) == FlowNode(value)
  {
    assert value[0] == '[';
  }

  lemma FlowNodeOf(value: string, items: seq<string>, nodes: seq<Node>)
    requires StartsWith(value, "[") && ItemsOf(value) == Ok(items)
    requires FlowNodes(items, |value|) == Ok(nodes) && AllScalars(nodes)
    ensures FlowNode(value) == Ok(FlowList(nodes))
  {
  }

  lemma BracketStarts(texts: seq<string>)
    requires '\n' !in Joined(texts)
    ensures var text := FlowText(texts); StartsWith(text, "[") && text[0] == '[' && '\n' !in text
  {
  }

  /** A printed flow sequence reads back. */
  lemma FlowReads(nodes: seq<Node>)
    requires AllFlowScalars(nodes)
    ensures StartsWith(FlowText(ScalarTexts(nodes)), "[")
    ensures FlowNode(FlowText(ScalarTexts(nodes))) == Ok(FlowList(nodes))
  {
    var texts := ScalarTexts(nodes);
    FlowScalarsAreItems(nodes);
    BracketStarts(texts);
    JoinThenSplit(texts);
    FlowScalarsRead(nodes, texts, |FlowText(texts)|);
    FlowScalarsAreScalars(nodes);
    FlowNodeOf(FlowText(texts), texts, nodes);
  }

  /** A printed inline value reads back, and stays on its line. */
  lemma InlineReads(node: Node, key: Option<string>)
    requires IsInline(node)
    ensures var text := InlineText(node);
      text != "" && !IsSpace(text[0]) && '\n' !in text && InlineNode(text, key) == Ok(node)
  {
    hide InlineNode, FlowText, ScalarTexts, Joined, AllFlowScalars;
    if node.FlowList? {
      FlowReads(node.scalars);
      FlowScalarsAreItems(node.scalars);
      BracketStarts(ScalarTexts(node.scalars));
      BracketReads(InlineText(node), key);
    } else {
      ScalarReads(node, key);
    }
  }

  // -- entries read back ------------------------------------------------------------------------------

  lemma FindAfterKey(key: string, rest: string)
    requires IsKey(key)
    ensures Find(key + ":" + rest, ':') == |key|
  {
    var text := key + ":" + rest;
    assert text[|key|] == ':';
    assert forall i | 0 <= i < |key| :: text[i] == key[i] && IsKeyChar(key[i]);
  }

  /** A key with a value text splits into the two. */
  lemma PartsOfEntry(key: string, value: string)
    requires IsKey(key) && '\n' !in value && (value != "" ==> !IsSpace(value[0]))
    ensures MappingParts(KeyLine(key, value)) == Ok((key, value))
  {
    var after := if value == "" then "" else " " + value;
    var text := KeyLine(key, value);
    FindAfterKey(key, after);
    assert text[0] == key[0] && IsKeyStart(key[0]);
    assert text[..|key|] == key && text[|key| + 1..] == after;
    if value != "" {
      assert text[|key| + 1] == after[0];
      assert after[1..] == value;
      assert LStrip(after) == LStrip(value) == value;
    }
  }

  /** An entry's line gives its key and the text of its value. */
  lemma EntryReadsKey(entry: Entry, depth: nat, bare: bool)
    requires WfEntry(entry, depth, bare)
    ensures MappingParts(EntryText(entry)) == Ok((entry.key, InlineText(entry.node)))
    ensures !IsItem(EntryText(entry))
    ensures InlineText(entry.node) == "" <==> IsBlock(entry.node) || entry.node == NullNode
    ensures InlineText(entry.node) != "" ==> InlineNode(InlineText(entry.node), Some(entry.key)) == Ok(entry.node)
  {
    if IsInline(entry.node) { InlineReads(entry.node, Some(entry.key)); }
    PartsOfEntry(entry.key, InlineText(entry.node));
    assert EntryText(entry)[0] == entry.key[0];
  }
}
