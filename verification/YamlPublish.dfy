/** Printed trees as text: which printings survive comment stripping. */
module YamlPublish {
  import opened Wrappers
  import opened YamlText
  import opened YamlScalars
  import opened YamlQuoting
  import opened YamlParser
  import opened YamlGrammar
  import opened YamlPrinter
  import opened YamlRoundTrip
  import opened YamlLines
  import opened YamlWorkflow

  /** A text that comment stripping leaves alone. */
  predicate Stable(text: string) {
    WithoutComment(text) == Ok(text)
  }

  predicate StableEntries(entries: seq<Entry>)
    decreases entries, 0
  {
    entries == [] || (StableTree(entries[0].node) && StableEntries(entries[1..]))
  }

  predicate StableItems(items: seq<Node>)
    decreases items, 0
  {
    items == [] || (StableTree(items[0]) && StableItems(items[1..]))
  }

  /** No plain scalar and no flow sequence of the tree looks like it holds a comment or an
      open quotation. */
  predicate StableTree(node: Node)
    decreases node, 1
  {
    match node
    case MapNode(entries) => StableEntries(entries)
    case BlockList(items) => StableItems(items)
    case FlowList(_) => Stable(InlineText(node))
    case Scalar(text, style) => style == Plain ==> Stable(text)
    case _ => true
  }

  // -- stable texts -------------------------------------------------------------------------------------

  lemma {:induction false} PassPlainText(text: string, i: nat, n: nat)
    requires i <= n <= |text| && forall j | i <= j < n :: QuoteOf(text[j]) == Unquoted && text[j] != '#'
    ensures WithoutCommentFrom(text, i, Unquoted) == WithoutCommentFrom(text, n, Unquoted)
    decreases n - i
  {
    if i < n { PassPlainText(text, i + 1, n); }
  }

  lemma StripsNothing(text: string)
    requires text != ""
    ensures RStrip(text) == text <==> !IsSpace(text[|text| - 1])
  {
    RStripPrefix(text[..|text| - 1]);
  }

  /** After a prefix that ends in a space a text is scanned as it is alone. */
  lemma {:induction false} AfterPrefix(prefix: string, text: string, i: nat, quote: Quote)
    requires prefix != "" && IsSpace(prefix[|prefix| - 1]) && text != ""
    ensures WithoutCommentFrom(prefix + text, |prefix| + i, quote) == Ok(prefix + text)
      <==> WithoutCommentFrom(text, i, quote) == Ok(text)
    decreases |text| - i
  {
    var whole := prefix + text;
    assert forall j | 0 <= j < |text| :: whole[|prefix| + j] == text[j];
    if i >= |text| {
      StripsNothing(text);
      StripsNothing(whole);
    } else if quote != Unquoted {
      var (next, state) := InQuotes(text, i, quote);
      assert InQuotes(whole, |prefix| + i, quote) == (|prefix| + next, state);
      AfterPrefix(prefix, text, next, state);
    } else {
      RStripPrefix(text[..i]);
      RStripPrefix(whole[..|prefix| + i]);
      assert whole[|prefix| + i - 1] == if i == 0 then prefix[|prefix| - 1] else text[i - 1];
      assert OpensQuote(whole, |prefix| + i) == OpensQuote(text, i);
      AfterPrefix(prefix, text, i + 1, if OpensQuote(text, i) then QuoteOf(text[i]) else Unquoted);
    }
  }

  /** A plain prefix that ends in a space changes nothing about stability. */
  lemma StableAfter(prefix: string, text: string)
    requires prefix != "" && IsSpace(prefix[|prefix| - 1]) && text != ""
    requires forall j | 0 <= j < |prefix| :: QuoteOf(prefix[j]) == Unquoted && prefix[j] != '#'
    ensures Stable(prefix + text) <==> Stable(text)
  {
    var whole := prefix + text;
    assert forall j | 0 <= j < |prefix| :: whole[j] == prefix[j];
    PassPlainText(whole, 0, |prefix|);
    AfterPrefix(prefix, text, 0, Unquoted);
  }

  lemma {:induction false} QuotedScans(text: string, i: nat, s: string)
    requires i <= |text| && text[i..] == Doubled(s) + "'"
    ensures WithoutCommentFrom(text, i, Single) == Ok(text)
    decreases |s|
  {
    if s == "" {
      assert text[i] == text[i..][0];
    } else if s[0] == '\'' {
      assert text[i..] == "''" + (Doubled(s[1..]) + "'");
      assert text[i] == text[i..][0] && text[i + 1] == text[i..][1];
      assert text[i + 2..] == text[i..][2..] == Doubled(s[1..]) + "'";
      QuotedScans(text, i + 2, s[1..]);
    } else {
      assert text[i..] == [s[0]] + (Doubled(s[1..]) + "'");
      assert text[i] == text[i..][0];
      assert text[i + 1..] == text[i..][1..] == Doubled(s[1..]) + "'";
      QuotedScans(text, i + 1, s[1..]);
    }
  }

  lemma {:induction false} EscapedScansOn(text: string, i: nat, s: string)
    requires i <= |text| && text[i..] == Escaped(s) + "\""
    ensures WithoutCommentFrom(text, i, Double) == Ok(text)
    decreases |s|
  {
    if s == "" {
      assert text[i] == text[i..][0];
    } else {
      EscapedStep(text, i, s);
      EscapedScansOn(text, i + |EscapedHead(s[0])|, s[1..]);
    }
  }

  lemma DoubleQuotedIsStable(s: string)
    ensures Stable(DoubleQuoted(s))
  {
    var text := DoubleQuoted(s);
    assert text[1..] == Escaped(s) + "\"";
    EscapedScansOn(text, 1, s);
  }

  /** A quoted scalar is stable whatever it quotes. */
  lemma QuotedIsStable(s: string)
    ensures Stable(SingleQuoted(s))
  {
    var text := SingleQuoted(s);
    assert text[1..] == Doubled(s) + "'";
    QuotedScans(text, 1, s);
  }

  /** A text whose first character and line decide nothing about it. */
  predicate IsOrdinary(text: string) {
    text != "" && !IsSpace(text[0]) && text[0] != '#' && '\n' !in text && !IsDirective(text)
  }

  lemma StableText(text: string)
    requires IsOrdinary(text)
    ensures CleanText(text) <==> Stable(text)
  {
    if Stable(text) { KeptIsTrimmed(text, 0, Unquoted); }
  }

  lemma StableInline(node: Node)
    requires IsInline(node)
    ensures StableTree(node) <==> Stable(InlineText(node))
  {
    if node.Scalar? && node.style == Quoted { QuotedIsStable(node.text); }
  }

  lemma KeyLineIsOrdinary(key: string, value: string)
    requires IsKey(key) && '\n' !in value
    ensures IsOrdinary(KeyLine(key, value))
  {
    var text := KeyLine(key, value);
    assert forall i | 0 <= i < |key| :: IsKeyChar(key[i]);
    assert text[0] == key[0] && IsKeyStart(key[0]);
  }

  lemma KeyLineIsStable(key: string, value: string)
    requires IsKey(key)
    ensures Stable(KeyLine(key, value)) <==> value == "" || Stable(value)
  {
    assert forall i | 0 <= i < |key| :: IsKeyChar(key[i]);
    if value == "" {
      var text := key + ":";
      assert KeyLine(key, value) == text;
      PassPlainText(text, 0, |text|);
    } else {
      assert KeyLine(key, value) == (key + ": ") + value;
      StableAfter(key + ": ", value);
    }
  }

  lemma EntryTextIsOrdinary(entry: Entry, depth: nat, bare: bool)
    requires WfEntry(entry, depth, bare)
    ensures IsOrdinary(EntryText(entry))
  {
    if IsInline(entry.node) { InlineReads(entry.node, None); }
    KeyLineIsOrdinary(entry.key, InlineText(entry.node));
  }

  lemma EntryTextIsClean(entry: Entry, depth: nat, bare: bool)
    requires WfEntry(entry, depth, bare)
    ensures CleanText(EntryText(entry)) <==> IsBlock(entry.node) || StableTree(entry.node)
  {
    var value := InlineText(entry.node);
    EntryTextIsOrdinary(entry, depth, bare);
    StableText(EntryText(entry));
    KeyLineIsStable(entry.key, value);
    if IsInline(entry.node) {
      StableInline(entry.node);
      InlineReads(entry.node, None);
    } else if entry.node == BlockNode {
      PassPlainText("|", 0, 1);
    } else {
      assert value == "";
    }
  }

  lemma DashIsClean(text: string)
    requires text != "" && '\n' !in text
    ensures CleanText("- " + text) <==> Stable(text)
  {
    var line := "- " + text;
    StableAfter("- ", text);
    assert line[0] == '-' && line[1] == ' ';
    StableText(line);
  }

  lemma BareDashIsClean()
    ensures CleanText("-")
  {
    PassPlainText("-", 0, 1);
    StableText("-");
  }

  // -- stable trees print clean lines -------------------------------------------------------------------

  lemma CleanJoins(a: seq<Line>, b: seq<Line>)
    ensures Clean(a + b) <==> Clean(a) && Clean(b)
  {
    if Clean(a + b) {
      assert forall i | 0 <= i < |a| :: (a + b)[i] == a[i];
      assert forall i | 0 <= i < |b| :: (a + b)[|a| + i] == b[i];
    }
  }

  lemma CleanLine(line: Line)
    requires line.indent % 2 == 0
    ensures Clean([line]) <==> CleanText(line.text)
  {
    if Clean([line]) { assert [line][0] == line; }
  }

  lemma CleanHead(head: Line, nested: seq<Line>, rest: seq<Line>)
    requires head.indent % 2 == 0
    ensures Clean([head] + (nested + rest)) <==> CleanText(head.text) && Clean(nested) && Clean(rest)
  {
    CleanLine(head);
    CleanJoins(nested, rest);
    CleanJoins([head], nested + rest);
  }

  lemma {:induction false} BlockIsClean(node: Node, indent: nat, depth: nat, bare: bool)
    requires indent % 2 == 0 && WfBlock(node, depth, bare)
    ensures Clean(PrintBlock(node, indent, bare)) <==> StableTree(node)
    decreases node, 0
  {
    match node
    case MapNode(entries) => EntriesAreClean(entries, indent, depth, bare);
    case BlockList(items) => ItemsAreClean(items, indent, depth, bare);
  }

  lemma {:induction false} NestedIsClean(entry: Entry, indent: nat, depth: nat, bare: bool)
    requires indent % 2 == 0 && WfEntry(entry, depth, bare)
    ensures Clean(Nested(entry, indent, bare)) && CleanText(EntryText(entry)) <==> StableTree(entry.node)
    decreases entry, 0
  {
    EntryTextIsClean(entry, depth, bare);
    if IsBlock(entry.node) { BlockIsClean(entry.node, indent + 2, depth + 1, bare); }
  }

  lemma {:induction false} EntriesAreClean(entries: seq<Entry>, indent: nat, depth: nat, bare: bool)
    requires indent % 2 == 0 && WfEntries(entries, depth, bare)
    ensures Clean(PrintEntries(entries, indent, bare)) <==> StableEntries(entries)
    decreases entries, 0
  {
    if entries != [] {
      NestedIsClean(entries[0], indent, depth, bare);
      EntriesAreClean(entries[1..], indent, depth, bare);
      CleanHead(Line(indent, EntryText(entries[0])), Nested(entries[0], indent, bare),
                PrintEntries(entries[1..], indent, bare));
    }
  }

  lemma DashedEntryIsClean(entry: Entry, depth: nat)
    requires WfEntry(entry, depth, false)
    ensures CleanText("- " + EntryText(entry)) <==> CleanText(EntryText(entry))
  {
    EntryTextIsOrdinary(entry, depth, false);
    StableText(EntryText(entry));
    DashIsClean(EntryText(entry));
  }

  lemma {:induction false} MappingItemIsClean(entries: seq<Entry>, indent: nat, depth: nat)
    requires entries != [] && indent % 2 == 0 && WfEntries(entries, depth, false)
    ensures Clean(PrintMappingItem(entries, indent)) <==> StableEntries(entries)
    decreases entries, 1
  {
    var text := EntryText(entries[0]);
    NestedIsClean(entries[0], indent + 2, depth, false);
    DashedEntryIsClean(entries[0], depth);
    EntriesAreClean(entries[1..], indent + 2, depth, false);
    CleanHead(Line(indent, "- " + text), Nested(entries[0], indent + 2, false),
              PrintEntries(entries[1..], indent + 2, false));
  }

  lemma {:induction false} ItemIsClean(node: Node, indent: nat, depth: nat, bare: bool)
    requires indent % 2 == 0 && WfItem(node, depth, bare)
    ensures Clean(PrintItem(node, indent, bare)) <==> StableTree(node)
    decreases node, 2
  {
    if node.MapNode? && !bare {
      MappingItemIsClean(node.entries, indent, depth + 1);
    } else if IsBlock(node) {
      BlockIsClean(node, indent + 2, depth + 1, bare);
      BareDashIsClean();
      CleanLine(Line(indent, "-"));
      CleanJoins([Line(indent, "-")], PrintBlock(node, indent + 2, bare));
    } else {
      StableInline(node);
      InlineReads(node, None);
      DashIsClean(InlineText(node));
      CleanLine(Line(indent, "- " + InlineText(node)));
    }
  }

  lemma {:induction false} ItemsAreClean(items: seq<Node>, indent: nat, depth: nat, bare: bool)
    requires indent % 2 == 0 && WfItems(items, depth, bare)
    ensures Clean(PrintItems(items, indent, bare)) <==> StableItems(items)
    decreases items, 3
  {
    if items != [] {
      ItemIsClean(items[0], indent, depth, bare);
      ItemsAreClean(items[1..], indent, depth, bare);
      CleanJoins(PrintItem(items[0], indent, bare), PrintItems(items[1..], indent, bare));
    }
  }

  /** Exactly the stable trees print lines that comment stripping leaves alone. */
  lemma CleanExactlyWhenStable(root: Node, bare: bool)
    requires WfBlock(root, 0, bare)
    ensures Clean(PrintBlock(root, 0, bare)) <==> StableTree(root)
  {
    BlockIsClean(root, 0, 0, bare);
  }

  /** A well-formed document of stable values written out as text is read back as itself. */
  lemma WriteThenRead(root: Node, bare: bool)
    requires root.MapNode? && WfBlock(root, 0, bare) && StableTree(root)
    ensures Reads(Render(PrintBlock(root, 0, bare))) == Ok(root)
  {
    PrintThenParse(root, bare);
    CleanExactlyWhenStable(root, bare);
    LinesThroughText(PrintBlock(root, 0, bare));
  }
}
