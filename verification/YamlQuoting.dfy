/** The lexer read backwards: quoting and joining are undone by the scanner. */
module YamlQuoting {
  import opened Wrappers
  import opened YamlText
  import opened YamlScalars

  // -- single quotes ------------------------------------------------------------------------------

  function Doubled(s: string): string {
    if s == "" then "" else (if s[0] == '\'' then "''" else [s[0]]) + Doubled(s[1..])
  }

  function SingleQuoted(s: string): string {
    "'" + Doubled(s) + "'"
  }

  lemma {:induction false} DoubledPairs(s: string)
    ensures PairedQuotes(Doubled(s)) && Undouble(Doubled(s)) == s
  {
    if s != "" {
      DoubledPairs(s[1..]);
      var d := Doubled(s);
      if s[0] == '\'' {
        assert d[2..] == Doubled(s[1..]);
      } else {
        assert d[1..] == Doubled(s[1..]);
      }
      assert s == [s[0]] + s[1..];
    }
  }

  lemma {:induction false} ClosesAtEnd(text: string, i: nat, s: string)
    requires i <= |text| && text[i..] == Doubled(s) + "'"
    ensures Closing(text, i, Single) == |text| - 1
    decreases |s|
  {
    if s == "" {
      assert text[i] == text[i..][0];
    } else if s[0] == '\'' {
      assert text[i..] == "''" + (Doubled(s[1..]) + "'");
      assert text[i] == text[i..][0] && text[i + 1] == text[i..][1];
      assert text[i + 2..] == text[i..][2..] == Doubled(s[1..]) + "'";
      ClosesAtEnd(text, i + 2, s[1..]);
    } else {
      assert text[i..] == [s[0]] + (Doubled(s[1..]) + "'");
      assert text[i] == text[i..][0];
      assert text[i + 1..] == text[i..][1..] == Doubled(s[1..]) + "'";
      ClosesAtEnd(text, i + 1, s[1..]);
    }
  }

  /** Doubling the quotes of a text and decoding gives the text back, unless it holds a
      control character. */
  lemma SingleQuotedDecodes(s: string)
    ensures StartsQuoted(SingleQuoted(s))
    ensures QuotedNode(SingleQuoted(s)) == if HasControl(s) then Err(ControlCharacter) else Ok(Scalar(s, Quoted))
  {
    var text := SingleQuoted(s);
    DoubledPairs(s);
    assert text[1..] == Doubled(s) + "'";
    ClosesAtEnd(text, 1, s);
    assert text[1..|text| - 1] == Doubled(s);
    assert text[|text|..] == "";
  }

  lemma {:induction false} UndoubledDoubles(s: string)
    requires PairedQuotes(s)
    ensures Doubled(Undouble(s)) == s
  {
    if s != "" {
      if s[0] == '\'' {
        UndoubledDoubles(s[2..]);
        assert ("'" + Undouble(s[2..]))[1..] == Undouble(s[2..]);
        assert s == "''" + s[2..];
      } else {
        UndoubledDoubles(s[1..]);
        assert ([s[0]] + Undouble(s[1..]))[1..] == Undouble(s[1..]);
        assert s == [s[0]] + s[1..];
      }
    }
  }

  /** Nothing else is read as a single-quoted scalar. */
  lemma OnlySingleQuotedRead(s: string)
    requires s != "" && s[0] == '\'' && QuotedNode(s).Ok?
    ensures QuotedNode(s).value.Scalar? && s == SingleQuoted(QuotedNode(s).value.text)
  {
    UndoubledDoubles(s[1..|s| - 1]);
    assert s == [s[0]] + s[1..|s| - 1] + [s[|s| - 1]];
  }

  // -- double quotes ------------------------------------------------------------------------------

  function EscapedHead(c: char): string {
    if c == '"' || c == '\\' then ['\\', c] else [c]
  }

  function Escaped(s: string): string {
    if s == "" then "" else EscapedHead(s[0]) + Escaped(s[1..])
  }

  /** The first character of a text in its escaped form, and what follows it. */
  lemma EscapedStep(text: string, i: nat, s: string)
    requires i <= |text| && s != "" && text[i..] == Escaped(s) + "\""
    ensures i + |EscapedHead(s[0])| <= |text| && text[i + |EscapedHead(s[0])|..] == Escaped(s[1..]) + "\""
    ensures text[i] == EscapedHead(s[0])[0]
    ensures text[i] != '"' && (text[i] == '\\' <==> |EscapedHead(s[0])| == 2)
    ensures text[i] == '\\' ==> text[i + 1] == s[0]
  {
    var head, rest := EscapedHead(s[0]), Escaped(s[1..]) + "\"";
    assert text[i..] == head + rest;
    assert text[i] == text[i..][0];
    if |head| == 2 { assert text[i + 1] == text[i..][1]; }
    assert text[i + |head|..] == text[i..][|head|..] == rest;
  }

  function DoubleQuoted(s: string): string {
    "\"" + Escaped(s) + "\""
  }

  function Codes(s: string): (r: seq<int>)
    ensures |r| == |s| && forall k | 0 <= k < |r| :: r[k] == s[k] as int
  {
    if s == "" then [] else [s[0] as int] + Codes(s[1..])
  }

  lemma {:induction false} EscapedScans(text: string, i: nat, s: string)
    requires i <= |text| && text[i..] == Escaped(s) + "\"" && !HasControl(s)
    ensures Closing(text, i, Double) == |text| - 1
    ensures JsonCodes(text, i) == Ok(Codes(s))
    decreases |s|
  {
    if s == "" {
      assert text[i] == text[i..][0];
    } else {
      var rest := s[1..];
      assert !IsControl(s[0] as int);
      assert !HasControl(rest) by { assert forall k | 0 <= k < |rest| :: rest[k] == s[k + 1]; }
      EscapedStep(text, i, s);
      EscapedScans(text, i + |EscapedHead(s[0])|, rest);
    }
  }

  /** Escaping quotes and backslashes is undone by decoding the double-quoted text. */
  lemma DoubleQuotedDecodes(s: string)
    requires !HasControl(s)
    ensures StartsQuoted(DoubleQuoted(s)) && QuotedNode(DoubleQuoted(s)) == Ok(Scalar(s, Quoted))
  {
    var text := DoubleQuoted(s);
    assert text[1..] == Escaped(s) + "\"";
    EscapedScans(text, 1, s);
    assert text[|text|..] == "";
    var codes := Codes(s);
    assert forall k | 0 <= k < |codes| :: !IsControl(codes[k]);
    assert Characters(codes) == s;
  }

  /** A quoted scalar never decodes to a control character. */
  lemma QuotedIsClean(text: string)
    requires StartsQuoted(text) && QuotedNode(text).Ok?
    ensures var node := QuotedNode(text).value; node.Scalar? && node.style == Quoted && !HasControl(node.text)
  {
  }

  // -- flow sequences -------------------------------------------------------------------------------

  /** Scanning `item` meets no unquoted comma or bracket and ends outside quotes. */
  predicate FlowClear(item: string, i: nat, quote: Quote)
    decreases |item| - i
  {
    if i >= |item| then quote == Unquoted
    else if quote != Unquoted then
      var (next, state) := InQuotes(item, i, quote);
      FlowClear(item, next, state)
    else if QuoteOf(item[i]) != Unquoted then FlowClear(item, i + 1, QuoteOf(item[i]))
    else item[i] != ',' && !IsBracket(item[i]) && FlowClear(item, i + 1, Unquoted)
  }

  /** An item that a flow sequence can hold as it stands. */
  predicate FlowItem(item: string) {
    item != "" && Trimmed(item) && FlowClear(item, 0, Unquoted)
  }

  predicate AllFlowItems(items: seq<string>) {
    items == [] || (FlowItem(items[0]) && AllFlowItems(items[1..]))
  }

  /** The items, separated by a comma and a space. */
  function Joined(items: seq<string>): string
    decreases |items|, 1
  {
    if items == [] then "" else items[0] + RestOf(items)
  }

  function RestOf(items: seq<string>): string
    requires items != []
    decreases |items|, 0
  {
    if |items| == 1 then "" else "," + (" " + Joined(items[1..]))
  }

  function FlowText(items: seq<string>): string {
    "[" + Joined(items) + "]"
  }

  /** `item` stands in `body` at `off`, before a comma or at the end. */
  predicate ItemAt(body: string, off: nat, item: string) {
    && off + |item| <= |body| && body[off..off + |item|] == item
    && (off + |item| == |body| || body[off + |item|] == ',')
  }

  lemma SameQuoteStep(body: string, off: nat, item: string, i: nat, quote: Quote)
    requires ItemAt(body, off, item) && i < |item| && quote != Unquoted
    ensures body[off + i] == item[i]
    ensures InQuotes(body, off + i, quote) == (off + InQuotes(item, i, quote).0, InQuotes(item, i, quote).1)
  {
    assert body[off + i] == body[off..off + |item|][i];
    if i + 1 < |item| { assert body[off + i + 1] == body[off..off + |item|][i + 1]; }
  }

  lemma {:induction false} PassItem(body: string, start: nat, off: nat, item: string, i: nat, quote: Quote)
    requires start <= off && ItemAt(body, off, item) && i <= |item| && FlowClear(item, i, quote)
    ensures Pieces(body, start, off + i, quote) == Pieces(body, start, off + |item|, Unquoted)
    decreases |item| - i
  {
    if i < |item| {
      if quote != Unquoted {
        var (next, state) := InQuotes(item, i, quote);
        SameQuoteStep(body, off, item, i, quote);
        assert next <= |item|;
        PassItem(body, start, off, item, next, state);
      } else {
        assert body[off + i] == body[off..off + |item|][i] == item[i];
        PassItem(body, start, off, item, i + 1, QuoteOf(item[i]));
      }
    }
  }

  lemma Slices(body: string, start: nat, a: string, b: string, c: string)
    requires start <= |body| && body[start..] == a + b + c
    ensures start + |a| + |b| + |c| == |body|
    ensures body[start..start + |a|] == a
    ensures body[start + |a|..start + |a| + |b|] == b
    ensures body[start..start + |a| + |b|] == a + b
    ensures body[start + |a| + |b|..] == c
  {
    var tail := body[start..];
    assert body[start..start + |a|] == tail[..|a|];
    assert body[start + |a|..start + |a| + |b|] == tail[|a|..|a| + |b|];
    assert body[start..start + |a| + |b|] == tail[..|a| + |b|];
    assert body[start + |a| + |b|..] == tail[|a| + |b|..];
  }

  /** Scanning from a separating space or from the item itself reaches the item's end. */
  lemma PassSpacedItem(body: string, start: nat, lead: string, item: string, rest: string)
    requires lead == "" || lead == " "
    requires FlowItem(item) && (rest == "" || rest[0] == ',')
    requires start <= |body| && body[start..] == lead + item + rest
    ensures var end := start + |lead| + |item|;
      && end <= |body| && body[end..] == rest && body[start..end] == lead + item
      && Pieces(body, start, start, Unquoted) == Pieces(body, start, end, Unquoted)
  {
    Slices(body, start, lead, item, rest);
    var off := start + |lead|;
    assert ItemAt(body, off, item) by {
      if rest != "" { assert body[off + |item|] == body[off + |item|..][0]; }
    }
    PassItem(body, start, off, item, 0, Unquoted);
    if lead == " " {
      assert body[start] == body[start..off][0];
    }
  }

  /** The pieces of a joined list: the items, each but the first after a space. */
  function Spaced(items: seq<string>, lead: string): (r: seq<string>)
    ensures |r| == |items|
  {
    if items == [] then [] else [lead + items[0]] + Spaced(items[1..], " ")
  }

  lemma JoinedUnfolds(items: seq<string>, lead: string)
    requires items != []
    ensures lead + Joined(items) == lead + items[0] + RestOf(items)
  {
  }

  lemma AfterComma(body: string, end: nat, text: string)
    requires end <= |body| && body[end..] == "," + text
    ensures end < |body| && body[end] == ',' && body[end + 1..] == text
  {
    assert body[end] == body[end..][0];
    assert body[end + 1..] == body[end..][1..];
  }

  lemma CutAtEnd(body: string, start: nat)
    requires start <= |body|
    ensures Pieces(body, start, |body|, Unquoted) == Ok([body[start..|body|]])
  {
    assert body[start..] == body[start..|body|];
  }

  /** The last item is the last piece. */
  lemma LastItem(body: string, start: nat, lead: string, item: string)
    requires lead == "" || lead == " "
    requires FlowItem(item) && start <= |body| && body[start..] == lead + item
    ensures Pieces(body, start, start, Unquoted) == Ok([lead + item])
  {
    assert lead + item + "" == lead + item;
    PassSpacedItem(body, start, lead, item, "");
    CutAtEnd(body, start);
  }

  /** An item before a comma is the first piece. */
  lemma FirstItem(body: string, start: nat, lead: string, item: string, text: string) returns (next: nat)
    requires lead == "" || lead == " "
    requires FlowItem(item) && start <= |body| && body[start..] == lead + item + ("," + text)
    ensures start < next <= |body| && body[next..] == text
    ensures Pieces(body, start, start, Unquoted)
         == Appended([lead + item], Pieces(body, next, next, Unquoted))
  {
    PassSpacedItem(body, start, lead, item, "," + text);
    var end := start + |lead| + |item|;
    AfterComma(body, end, text);
    next := end + 1;
  }

  lemma {:induction false} JoinedSplits(body: string, start: nat, items: seq<string>, lead: string)
    requires items != [] && AllFlowItems(items)
    requires lead == "" || lead == " "
    requires start <= |body| && body[start..] == lead + Joined(items)
    ensures Pieces(body, start, start, Unquoted) == Ok(Spaced(items, lead))
    decreases |items|
  {
    JoinedUnfolds(items, lead);
    if |items| == 1 {
      assert lead + items[0] + "" == lead + items[0];
      LastItem(body, start, lead, items[0]);
      assert Spaced(items, lead) == [lead + items[0]];
    } else {
      var next := FirstItem(body, start, lead, items[0], " " + Joined(items[1..]));
      JoinedSplits(body, next, items[1..], " ");
    }
  }

  lemma {:induction false} SpacedStrips(items: seq<string>, lead: string)
    requires AllFlowItems(items)
    requires lead == "" || lead == " "
    ensures StripAll(Spaced(items, lead)) == items
  {
    if items != [] {
      SpacedStrips(items[1..], " ");
      StripTrimmed(items[0]);
      StripSpaced(items[0]);
      assert "" + items[0] == items[0];
      var spaced := Spaced(items, lead);
      assert spaced[1..] == Spaced(items[1..], " ");
      assert items == [items[0]] + items[1..];
    }
  }

  lemma {:induction false} NoneEmpty(items: seq<string>)
    requires AllFlowItems(items)
    ensures forall k | 0 <= k < |items| :: items[k] != ""
  {
    if items != [] { NoneEmpty(items[1..]); }
  }

  lemma SpacedItems(body: string, items: seq<string>)
    requires items != [] && AllFlowItems(items)
    ensures Items(body, Spaced(items, "")) == Ok(items)
  {
    var pieces, last := Spaced(items, ""), |items| - 1;
    SpacedStrips(items, "");
    NoneEmpty(items);
    assert Strip(pieces[last]) == StripAll(pieces)[last] == items[last];
  }

  /** Splitting a joined list of items gives the items back. */
  lemma JoinThenSplit(items: seq<string>)
    requires AllFlowItems(items)
    ensures ItemsOf(FlowText(items)) == Ok(items)
  {
    var value := FlowText(items);
    var body := value[1..|value| - 1];
    assert body == Joined(items);
    if items == [] {
      assert Pieces(body, 0, 0, Unquoted) == Ok([""]);
      assert [""][..0] == [];
    } else {
      assert body[0..] == "" + Joined(items);
      JoinedSplits(body, 0, items, "");
      SpacedItems(body, items);
    }
  }

  lemma {:induction false} SingleQuotedIsClear(text: string, i: nat, s: string)
    requires i <= |text| && text[i..] == Doubled(s) + "'"
    ensures FlowClear(text, i, Single)
    decreases |s|
  {
    if s == "" {
      assert text[i] == text[i..][0];
    } else if s[0] == '\'' {
      assert text[i..] == "''" + (Doubled(s[1..]) + "'");
      assert text[i] == text[i..][0] && text[i + 1] == text[i..][1];
      assert text[i + 2..] == text[i..][2..] == Doubled(s[1..]) + "'";
      SingleQuotedIsClear(text, i + 2, s[1..]);
    } else {
      assert text[i..] == [s[0]] + (Doubled(s[1..]) + "'");
      assert text[i] == text[i..][0];
      assert text[i + 1..] == text[i..][1..] == Doubled(s[1..]) + "'";
      SingleQuotedIsClear(text, i + 1, s[1..]);
    }
  }

  /** Every text can stand in a flow sequence once it is quoted. */
  lemma SingleQuotedIsItem(s: string)
    ensures FlowItem(SingleQuoted(s))
  {
    var text := SingleQuoted(s);
    assert text[1..] == Doubled(s) + "'";
    SingleQuotedIsClear(text, 1, s);
  }

  lemma {:induction false} EscapedIsClear(text: string, i: nat, s: string)
    requires i <= |text| && text[i..] == Escaped(s) + "\""
    ensures FlowClear(text, i, Double)
    decreases |s|
  {
    if s == "" {
      assert text[i] == text[i..][0];
    } else {
      var n := |EscapedHead(s[0])|;
      EscapedStep(text, i, s);
      EscapedIsClear(text, i + n, s[1..]);
    }
  }

  /** Every text can stand in a flow sequence once it is double-quoted, too. */
  lemma DoubleQuotedIsItem(s: string)
    ensures FlowItem(DoubleQuoted(s))
  {
    var text := DoubleQuoted(s);
    assert text[1..] == Escaped(s) + "\"";
    EscapedIsClear(text, 1, s);
  }

  // -- what splitting yields ------------------------------------------------------------------------

  lemma {:induction false} FirstPieceIsClear(body: string, start: nat, i: nat, quote: Quote)
    requires start <= |body| && start <= i && (i <= |body| || quote != Unquoted)
    requires Pieces(body, start, i, quote).Ok?
    ensures var piece := Pieces(body, start, i, quote).value[0];
      i <= start + |piece| && ItemAt(body, start, piece) && FlowClear(piece, i - start, quote)
    decreases |body| - i
  {
    var piece := Pieces(body, start, i, quote).value[0];
    if i >= |body| {
      assert piece == body[start..] == body[start..start + |piece|];
    } else if quote != Unquoted {
      var (next, state) := InQuotes(body, i, quote);
      FirstPieceIsClear(body, start, next, state);
      SameQuoteStep(body, start, piece, i - start, quote);
    } else if body[i] == ',' {
      assert piece == body[start..i] == body[start..start + |piece|];
    } else {
      FirstPieceIsClear(body, start, i + 1, QuoteOf(body[i]));
      assert body[i] == body[start..start + |piece|][i - start];
    }
  }

  lemma {:induction false} PiecesAreClear(body: string, start: nat, i: nat, quote: Quote, k: nat)
    requires start <= |body| && start <= i && Pieces(body, start, i, quote).Ok?
    requires 0 < k < |Pieces(body, start, i, quote).value|
    ensures FlowClear(Pieces(body, start, i, quote).value[k], 0, Unquoted)
    decreases |body| - i
  {
    if quote != Unquoted {
      var (next, state) := InQuotes(body, i, quote);
      PiecesAreClear(body, start, next, state, k);
    } else if body[i] == ',' {
      if k == 1 {
        FirstPieceIsClear(body, i + 1, i + 1, Unquoted);
      } else {
        PiecesAreClear(body, i + 1, i + 1, Unquoted, k - 1);
      }
    } else {
      PiecesAreClear(body, start, i + 1, QuoteOf(body[i]), k);
    }
  }

  lemma {:induction false} ClearAfterFirst(s: string, i: nat, quote: Quote)
    requires s != ""
    ensures FlowClear(s, i + 1, quote) == FlowClear(s[1..], i, quote)
    decreases |s| - i
  {
    if i + 1 < |s| {
      if quote != Unquoted {
        var (next, state) := InQuotes(s[1..], i, quote);
        assert InQuotes(s, i + 1, quote) == (next + 1, state);
        ClearAfterFirst(s, next, state);
      } else {
        ClearAfterFirst(s, i + 1, QuoteOf(s[i + 1]));
      }
    }
  }

  lemma {:induction false} ClearBeforeLast(s: string, i: nat, quote: Quote)
    requires s != "" && IsSpace(s[|s| - 1]) && FlowClear(s, i, quote)
    ensures FlowClear(s[..|s| - 1], i, quote)
    decreases |s| - i
  {
    if i + 1 < |s| {
      if quote != Unquoted {
        var (next, state) := InQuotes(s, i, quote);
        assert InQuotes(s[..|s| - 1], i, quote) == (next, state);
        ClearBeforeLast(s, next, state);
      } else {
        ClearBeforeLast(s, i + 1, QuoteOf(s[i]));
      }
    }
  }

  lemma {:induction false} LStripKeepsClear(s: string)
    requires FlowClear(s, 0, Unquoted)
    ensures FlowClear(LStrip(s), 0, Unquoted)
  {
    if s != "" && IsSpace(s[0]) {
      ClearAfterFirst(s, 0, Unquoted);
      LStripKeepsClear(s[1..]);
    }
  }

  lemma {:induction false} RStripKeepsClear(s: string)
    requires FlowClear(s, 0, Unquoted)
    ensures FlowClear(RStrip(s), 0, Unquoted)
  {
    if s != "" && IsSpace(s[|s| - 1]) {
      ClearBeforeLast(s, 0, Unquoted);
      RStripKeepsClear(s[..|s| - 1]);
    }
  }

  lemma StrippedIsItem(s: string)
    requires FlowClear(s, 0, Unquoted) && Strip(s) != ""
    ensures FlowItem(Strip(s))
  {
    LStripKeepsClear(s);
    RStripKeepsClear(LStrip(s));
    StripShortens(s);
  }

  lemma {:induction false} AllItems(items: seq<string>)
    requires forall k | 0 <= k < |items| :: FlowItem(items[k])
    ensures AllFlowItems(items)
  {
    if items != [] { AllItems(items[1..]); }
  }

  /** Every item of an accepted flow sequence can be joined again. */
  lemma SplitYieldsItems(value: string)
    requires StartsWith(value, "[") && ItemsOf(value).Ok?
    ensures AllFlowItems(ItemsOf(value).value)
  {
    var body := value[1..|value| - 1];
    var pieces, items := Pieces(body, 0, 0, Unquoted).value, ItemsOf(value).value;
    forall k | 0 <= k < |items|
      ensures FlowItem(items[k])
    {
      if k == 0 { FirstPieceIsClear(body, 0, 0, Unquoted); } else { PiecesAreClear(body, 0, 0, Unquoted, k); }
      assert items[k] == Strip(pieces[k]);
      assert items[k] in items;
      StrippedIsItem(pieces[k]);
    }
    AllItems(items);
  }

  /** Splitting, joining and splitting again gives the same items. */
  lemma SplitJoinSplit(value: string)
    requires StartsWith(value, "[") && ItemsOf(value).Ok?
    ensures ItemsOf(FlowText(ItemsOf(value).value)) == ItemsOf(value)
  {
    SplitYieldsItems(value);
    JoinThenSplit(ItemsOf(value).value);
  }
}
