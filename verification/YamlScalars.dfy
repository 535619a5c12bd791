/** Mapping entries, scalars and flow sequences: what one line of a workflow may hold. */
module YamlScalars {
  import opened Wrappers
  import opened YamlText

  // -- mapping entries ------------------------------------------------------------------------

  predicate IsKeyStart(c: char) {
    'A' <= c <= 'Z' || 'a' <= c <= 'z' || '0' <= c <= '9' || c == '_'
  }

  predicate IsKeyChar(c: char) {
    IsKeyStart(c) || c == '.' || c == '-'
  }

  predicate IsKey(s: string) {
    s != "" && IsKeyStart(s[0]) && forall i | 0 <= i < |s| :: IsKeyChar(s[i])
  }

  /** The place of the first `c`, or the length of `s`. */
  function Find(s: string, c: char): (k: nat)
    ensures k <= |s| && (k < |s| ==> s[k] == c)
    ensures forall i | 0 <= i < k :: s[i] != c
  {
    if s == "" || s[0] == c then 0 else 1 + Find(s[1..], c)
  }

  function MappingParts(text: string): Result<(string, string), Reason> {
    if StartsWith(text, "?") || StartsWith(text, "'") || StartsWith(text, "\"") || StartsWith(text, "<<") then
      Err(ForbiddenKey)
    else
      var k := Find(text, ':');
      if k == 0 || k == |text| || (k + 1 < |text| && !IsSpace(text[k + 1])) then Err(NotAnEntry)
      else
        var rest := LStrip(text[k + 1..]);
        if '\n' in rest then Err(NotAnEntry)
        else if !IsKey(text[..k]) then Err(NonCanonicalKey)
        else Ok((text[..k], rest))
  }

  // -- plain scalars ----------------------------------------------------------------------------

  datatype Style = Plain | Quoted

  datatype Entry = Entry(key: string, node: Node)

  datatype Node =
    | Scalar(text: string, style: Style)
    | NullNode
    | BlockNode
    | FlowList(scalars: seq<Node>)
    | BlockList(items: seq<Node>)
    | MapNode(entries: seq<Entry>)

  predicate HasReservedStart(s: string) {
    || StartsWith(s, "- ") || StartsWith(s, "? ") || StartsWith(s, ": ") || StartsWith(s, "#")
    || StartsWith(s, "]") || StartsWith(s, "}") || StartsWith(s, ",") || StartsWith(s, "%")
    || StartsWith(s, "@") || StartsWith(s, "`")
  }

  predicate HasColonSpace(s: string) {
    exists i | 0 <= i < |s| :: s[i] == ':' && (i + 1 == |s| || IsSpace(s[i + 1]))
  }

  predicate AtWordStart(s: string, i: nat)
    requires i < |s|
  {
    i == 0 || IsSpace(s[i - 1])
  }

  /** An anchor or alias at `i`: a word of `&` or `*` and name characters. */
  predicate IsAnchorAt(s: string, i: nat)
    requires i < |s|
  {
    AtWordStart(s, i) && s[i] in "&*" && exists j | i + 1 < j <= |s| :: NameEndsAt(s, i, j)
  }

  /** Between `i` and `j` stand name characters only, and a space or the end follows. */
  predicate NameEndsAt(s: string, i: nat, j: nat)
    requires i < j <= |s|
  {
    (j == |s| || IsSpace(s[j])) && forall n | i < n < j :: IsKeyChar(s[n])
  }

  predicate IsTagAt(s: string, i: nat)
    requires i < |s|
  {
    AtWordStart(s, i) && s[i] == '!' && i + 1 < |s| && !IsSpace(s[i + 1])
  }

  predicate HasProperty(s: string) {
    exists i | 0 <= i < |s| :: IsAnchorAt(s, i) || IsTagAt(s, i)
  }

  function PlainScalar(s: string): Result<Node, Reason>
    requires s != ""
  {
    if HasReservedStart(s) then Err(ReservedIndicator)
    else if HasColonSpace(s) then Err(ColonInPlain)
    else if s[0] in "&*!" then Err(AnchorOrTag)
    else if HasProperty(s) then Err(AnchorOrTag)
    else if StartsWith(s, "|") || StartsWith(s, ">") then Err(FoldedScalar)
    else if StartsWith(s, "{") then Err(FlowMapping)
    else Ok(Scalar(s, Plain))
  }

  // -- quoted scalars ---------------------------------------------------------------------------

  /** Single quotes inside single quotes come in pairs. */
  predicate PairedQuotes(s: string) {
    if s == "" then true
    else if s[0] != '\'' then PairedQuotes(s[1..])
    else |s| > 1 && s[1] == '\'' && PairedQuotes(s[2..])
  }

  /** Every pair of single quotes becomes one. */
  function Undouble(s: string): string {
    if s == "" then ""
    else if |s| > 1 && s[0] == '\'' && s[1] == '\'' then "'" + Undouble(s[2..])
    else [s[0]] + Undouble(s[1..])
  }

  function HexDigit(c: char): (r: Option<int>)
    ensures r.Some? ==> 0 <= r.value < 16
  {
    if '0' <= c <= '9' then Some(c as int - '0' as int)
    else if 'a' <= c <= 'f' then Some(c as int - 'a' as int + 10)
    else if 'A' <= c <= 'F' then Some(c as int - 'A' as int + 10)
    else None
  }

  /** The four hexadecimal digits at `i`. */
  function Hex4(s: string, i: nat): (r: Option<int>)
    ensures r.Some? ==> i + 4 <= |s| && 0 <= r.value < 0x10000
  {
    if i + 4 > |s| then None
    else
      match (HexDigit(s[i]), HexDigit(s[i + 1]), HexDigit(s[i + 2]), HexDigit(s[i + 3]))
      case (Some(a), Some(b), Some(c), Some(d)) => Some(((a * 16 + b) * 16 + c) * 16 + d)
      case _ => None
  }

  predicate IsHigh(n: int) { 0xD800 <= n <= 0xDBFF }

  predicate IsLow(n: int) { 0xDC00 <= n <= 0xDFFF }

  predicate IsJsonSpace(c: char) { c in " \t\n\r" }

  function SimpleEscape(c: char): Option<int> {
    match c
    case '"' => Some(0x22)
    case '\\' => Some(0x5C)
    case '/' => Some(0x2F)
    case 'b' => Some(0x08)
    case 'f' => Some(0x0C)
    case 'n' => Some(0x0A)
    case 'r' => Some(0x0D)
    case 't' => Some(0x09)
    case _ => None
  }

  function Prepend(n: int, rest: Result<seq<int>, Reason>): Result<seq<int>, Reason> {
    match rest case Ok(codes) => Ok([n] + codes) case Err(_) => rest
  }

  /** The code points of a JSON string from `i`, inside its quotes; a surrogate pair is one
      code point and a lone surrogate is kept. */
  function JsonCodes(s: string, i: nat): (r: Result<seq<int>, Reason>)
    ensures r.Ok? ==> forall k | 0 <= k < |r.value| :: 0 <= r.value[k] < 0x110000
    decreases |s| - i
  {
    if i >= |s| then Err(BadJsonString)
    else if s[i] == '"' then
      if forall k | i < k < |s| :: IsJsonSpace(s[k]) then Ok([]) else Err(BadJsonString)
    else if s[i] as int < 0x20 then Err(BadJsonString)
    else if s[i] != '\\' then Prepend(s[i] as int, JsonCodes(s, i + 1))
    else if i + 1 >= |s| then Err(BadJsonString)
    else if s[i + 1] == 'u' then
      match Hex4(s, i + 2) {
        case None => Err(BadJsonString)
        case Some(n) =>
          if IsHigh(n) && i + 7 < |s| && s[i + 6] == '\\' && s[i + 7] == 'u' then
            match Hex4(s, i + 8) {
              case None => Err(BadJsonString)
              case Some(m) =>
                if IsLow(m) then Prepend(0x10000 + (n - 0xD800) * 0x400 + (m - 0xDC00), JsonCodes(s, i + 12))
                else Prepend(n, JsonCodes(s, i + 6))
            }
          else Prepend(n, JsonCodes(s, i + 6))
      }
    else
      match SimpleEscape(s[i + 1])
      case None => Err(BadJsonString)
      case Some(n) => Prepend(n, JsonCodes(s, i + 2))
  }

  function Characters(codes: seq<int>): (r: string)
    requires forall k | 0 <= k < |codes| :: 0 <= codes[k] < 0x110000 && !IsControl(codes[k])
    ensures |r| == |codes| && forall k | 0 <= k < |r| :: r[k] as int == codes[k]
  {
    if codes == [] then ""
    else
      assert !IsControl(codes[0]);
      [codes[0] as char] + Characters(codes[1..])
  }

  predicate StartsQuoted(s: string) {
    s != "" && QuoteOf(s[0]) != Unquoted
  }

  /** The text a quoted scalar stands for. */
  function Decoded(s: string): Result<string, Reason>
    requires StartsQuoted(s)
  {
    if s[0] == '\'' then
      if |s| < 2 || s[|s| - 1] != '\'' then Err(UnterminatedSingle)
      else
        var inner := s[1..|s| - 1];
        if !PairedQuotes(inner) then Err(BadSingleQuote)
        else if HasControl(Undouble(inner)) then Err(ControlCharacter)
        else Ok(Undouble(inner))
    else
      match JsonCodes(s, 1)
      case Err(reason) => Err(reason)
      case Ok(codes) =>
        if exists k | 0 <= k < |codes| :: IsControl(codes[k]) then Err(ControlCharacter)
        else Ok(Characters(codes))
  }

  /** Where the quotation opened before `i` closes, or past the end. */
  function Closing(s: string, i: nat, quote: Quote): (r: nat)
    requires quote != Unquoted
    decreases |s| - i
  {
    if i >= |s| then i
    else
      var (next, state) := InQuotes(s, i, quote);
      if state == Unquoted then i else Closing(s, next, quote)
  }

  function QuotedNode(s: string): Result<Node, Reason>
    requires StartsQuoted(s)
  {
    var close := Closing(s, 1, QuoteOf(s[0]));
    if close >= |s| || Strip(s[close + 1..]) != "" then Err(QuotedNotWhole)
    else
      match Decoded(s)
      case Err(reason) => Err(reason)
      case Ok(text) => Ok(Scalar(text, Quoted))
  }

  method DecodeQuotedScalar(s: string) returns (r: Result<string, Reason>)
    requires StartsQuoted(s)
    ensures r == Decoded(s)
  {
    if s[0] != '\'' {
      return Decoded(s);
    }
    if |s| < 2 || s[|s| - 1] != '\'' { return Err(UnterminatedSingle); }
    var inner := s[1..|s| - 1];
    var i := 0;
    while i < |inner|
      invariant i <= |inner|
      invariant PairedQuotes(inner) == PairedQuotes(inner[i..])
    {
      if inner[i] == '\'' {
        if i + 1 >= |inner| || inner[i + 1] != '\'' { return Err(BadSingleQuote); }
        assert inner[i..][2..] == inner[i + 2..];
        i := i + 2;
      } else {
        assert inner[i..][1..] == inner[i + 1..];
        i := i + 1;
      }
    }
    if HasControl(Undouble(inner)) { return Err(ControlCharacter); }
    r := Ok(Undouble(inner));
  }

  method QuotedScalar(s: string) returns (r: Result<Node, Reason>)
    requires StartsQuoted(s)
    ensures r == QuotedNode(s)
  {
    var quote := s[0];
    var i := 1;
    while i < |s|
      invariant Closing(s, 1, QuoteOf(quote)) == Closing(s, i, QuoteOf(quote))
    {
      if quote == '\'' && s[i] == '\'' {
        if i + 1 < |s| && s[i + 1] == '\'' {
          i := i + 2;
          continue;
        }
        break;
      }
      if quote == '"' && s[i] == '\\' {
        i := i + 2;
        continue;
      }
      if s[i] == quote { break; }
      i := i + 1;
    }
    assert i == Closing(s, 1, QuoteOf(quote));
    if i >= |s| || Strip(s[i + 1..]) != "" { return Err(QuotedNotWhole); }
    var text := DecodeQuotedScalar(s);
    match text {
      case Err(reason) => r := Err(reason);
      case Ok(value) => r := Ok(Scalar(value, Quoted));
    }
  }

  // -- flow sequences ---------------------------------------------------------------------------

  predicate IsBracket(c: char) {
    c == '[' || c == ']' || c == '{' || c == '}'
  }

  function Appended(pieces: seq<string>, rest: Result<seq<string>, Reason>): Result<seq<string>, Reason> {
    match rest case Ok(more) => Ok(pieces + more) case Err(_) => rest
  }

  /** The pieces of `body[start..]` between unquoted commas, scanned from `i`. */
  function Pieces(body: string, start: nat, i: nat, quote: Quote): (r: Result<seq<string>, Reason>)
    requires start <= |body| && start <= i
    ensures r.Ok? ==> r.value != []
    decreases |body| - i
  {
    if i >= |body| then
      if quote != Unquoted then Err(UnterminatedItem) else Ok([body[start..]])
    else if quote != Unquoted then
      var (next, state) := InQuotes(body, i, quote);
      Pieces(body, start, next, state)
    else if QuoteOf(body[i]) != Unquoted then Pieces(body, start, i + 1, QuoteOf(body[i]))
    else if body[i] == ',' then Appended([body[start..i]], Pieces(body, i + 1, i + 1, Unquoted))
    else if IsBracket(body[i]) then Err(NestedFlow)
    else Pieces(body, start, i + 1, Unquoted)
  }

  lemma {:induction false} PiecesAreShort(body: string, start: nat, i: nat, quote: Quote)
    requires start <= |body| && start <= i && Pieces(body, start, i, quote).Ok?
    ensures forall k | 0 <= k < |Pieces(body, start, i, quote).value| ::
      |Pieces(body, start, i, quote).value[k]| <= |body|
    decreases |body| - i
  {
    if i < |body| {
      if quote != Unquoted {
        var (next, state) := InQuotes(body, i, quote);
        PiecesAreShort(body, start, next, state);
      } else if QuoteOf(body[i]) != Unquoted {
        PiecesAreShort(body, start, i + 1, QuoteOf(body[i]));
      } else if body[i] == ',' {
        PiecesAreShort(body, i + 1, i + 1, Unquoted);
      } else {
        PiecesAreShort(body, start, i + 1, Unquoted);
      }
    }
  }

  function StripAll(pieces: seq<string>): (r: seq<string>)
    ensures |r| == |pieces| && forall k | 0 <= k < |r| :: r[k] == Strip(pieces[k])
  {
    if pieces == [] then [] else [Strip(pieces[0])] + StripAll(pieces[1..])
  }

  /** The trimmed items; only a body without any text may end on an empty one. */
  function Items(body: string, pieces: seq<string>): Result<seq<string>, Reason>
    requires pieces != []
  {
    var last := |pieces| - 1;
    if Strip(pieces[last]) == "" && Strip(body) != "" then Err(TrailingComma)
    else
      var items := StripAll(if Strip(pieces[last]) == "" then pieces[..last] else pieces);
      if "" in items then Err(EmptyItem) else Ok(items)
  }

  lemma StripAllAppends(pieces: seq<string>, piece: string)
    ensures StripAll(pieces + [piece]) == StripAll(pieces) + [Strip(piece)]
  {
  }

  /** The end of the splitting loop, with the last piece still to be added. */
  lemma LastPiece(body: string, pieces: seq<string>, piece: string)
    ensures Items(body, pieces + [piece]) ==
      var items := if Strip(piece) == "" then StripAll(pieces) else StripAll(pieces) + [Strip(piece)];
      if Strip(piece) == "" && Strip(body) != "" then Err(TrailingComma)
      else if "" in items then Err(EmptyItem) else Ok(items)
  {
    StripAllAppends(pieces, piece);
    assert (pieces + [piece])[..|pieces|] == pieces;
  }

  lemma ItemsAreShort(body: string, pieces: seq<string>)
    requires pieces != [] && forall k | 0 <= k < |pieces| :: |pieces[k]| <= |body|
    ensures var r := Items(body, pieces);
      r.Ok? ==> forall k | 0 <= k < |r.value| :: r.value[k] != "" && |r.value[k]| <= |body|
  {
    forall k | 0 <= k < |pieces| ensures |Strip(pieces[k])| <= |body| { StripShortens(pieces[k]); }
  }

  /** The items between the brackets of a flow sequence. */
  function ItemsOf(value: string): (r: Result<seq<string>, Reason>)
    requires StartsWith(value, "[")
    ensures r.Ok? ==> forall k | 0 <= k < |r.value| :: r.value[k] != "" && |r.value[k]| < |value|
  {
    if value[|value| - 1] != ']' then Err(UnterminatedFlow)
    else
      var body := value[1..|value| - 1];
      match Pieces(body, 0, 0, Unquoted)
      case Err(reason) => Err(reason)
      case Ok(pieces) =>
        PiecesAreShort(body, 0, 0, Unquoted);
        ItemsAreShort(body, pieces);
        Items(body, pieces)
  }

  lemma AppendedPieces(pieces: seq<string>, piece: string, rest: Result<seq<string>, Reason>)
    ensures Appended([], rest) == rest
    ensures Appended(pieces, Appended([piece], rest)) == Appended(pieces + [piece], rest)
  {
    if rest.Ok? {
      assert [] + rest.value == rest.value;
      assert pieces + ([piece] + rest.value) == (pieces + [piece]) + rest.value;
    }
  }

  method FlowItems(value: string) returns (r: Result<seq<string>, Reason>)
    requires StartsWith(value, "[")
    ensures r == ItemsOf(value)
  {
    if value[|value| - 1] != ']' { return Err(UnterminatedFlow); }
    var body := value[1..|value| - 1];
    var items: seq<string> := [];
    var start, i, quote := 0, 0, Unquoted;
    ghost var whole := Pieces(body, 0, 0, Unquoted);
    ghost var pieces: seq<string> := [];
    AppendedPieces([], "", whole);
    while i < |body|
      invariant start <= |body| && start <= i
      invariant whole == Appended(pieces, Pieces(body, start, i, quote))
      invariant items == StripAll(pieces)
    {
      if quote == Single {
        if body[i] == '\'' {
          if i + 1 < |body| && body[i + 1] == '\'' {
            i := i + 2;
            continue;
          }
          quote := Unquoted;
        }
      } else if quote == Double {
        if body[i] == '\\' {
          i := i + 2;
          continue;
        }
        if body[i] == '"' { quote := Unquoted; }
      } else if QuoteOf(body[i]) != Unquoted {
        quote := QuoteOf(body[i]);
      } else if body[i] == ',' {
        AppendedPieces(pieces, body[start..i], Pieces(body, i + 1, i + 1, Unquoted));
        items := items + [Strip(body[start..i])];
        StripAllAppends(pieces, body[start..i]);
        pieces := pieces + [body[start..i]];
        start := i + 1;
      } else if IsBracket(body[i]) {
        return Err(NestedFlow);
      }
      i := i + 1;
    }
    if quote != Unquoted { return Err(UnterminatedItem); }
    assert whole == Ok(pieces + [body[start..]]);
    var tail := Strip(body[start..]);
    LastPiece(body, pieces, body[start..]);
    if tail != "" {
      items := items + [tail];
    } else if Strip(body) != "" {
      return Err(TrailingComma);
    }
    if "" in items { return Err(EmptyItem); }
    r := Ok(items);
  }

  // -- inline values ----------------------------------------------------------------------------

  function InlineNode(value: string, key: Option<string>): Result<Node, Reason>
    requires value != ""
    decreases |value|, 2
  {
    if value == "|" then
      if key == Some("run") || key == Some("path") then Ok(BlockNode) else Err(BlockNotAllowed)
    else if StartsWith(value, "|") || StartsWith(value, ">") then Err(InexactBlock)
    else if StartsWith(value, "{") then Err(FlowMapping)
    else if StartsWith(value, "[") then FlowNode(value)
    else if StartsQuoted(value) then QuotedNode(value)
    else PlainScalar(value)
  }

  predicate AllScalars(nodes: seq<Node>) {
    forall k | 0 <= k < |nodes| :: nodes[k].Scalar?
  }

  function FlowNode(value: string): Result<Node, Reason>
    requires StartsWith(value, "[")
    decreases |value|, 1
  {
    match ItemsOf(value)
    case Err(reason) => Err(reason)
    case Ok(items) =>
      match FlowNodes(items, |value|)
      case Err(reason) => Err(reason)
      case Ok(nodes) => if AllScalars(nodes) then Ok(FlowList(nodes)) else Err(FlowNotScalar)
  }

  function FlowNodes(items: seq<string>, bound: nat): (r: Result<seq<Node>, Reason>)
    requires forall k | 0 <= k < |items| :: items[k] != "" && |items[k]| < bound
    ensures r.Ok? ==> |r.value| == |items|
    ensures r.Ok? ==> forall k | 0 <= k < |items| :: InlineNode(items[k], None) == Ok(r.value[k])
    decreases bound, 0, |items|
  {
    if items == [] then Ok([])
    else
      match InlineNode(items[0], None)
      case Err(reason) => Err(reason)
      case Ok(node) =>
        match FlowNodes(items[1..], bound)
        case Err(reason) => Err(reason)
        case Ok(nodes) => Ok([node] + nodes)
  }

  // -- no text is both an entry and an inline value ------------------------------------------------

  /** What is accepted as a mapping entry is refused as an inline value, whatever the key. */
  lemma EntryIsNoInlineValue(text: string, key: Option<string>)
    requires MappingParts(text).Ok?
    ensures text != "" && InlineNode(text, key).Err?
  {
    var k := Find(text, ':');
    assert text[0] == text[..k][0];
    assert HasColonSpace(text) by {
      assert text[k] == ':' && (k + 1 == |text| || IsSpace(text[k + 1]));
    }
  }
}
