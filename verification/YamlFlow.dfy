/** Flow sequences: which texts between the brackets split, and into which items. */
module YamlFlow {
  import opened Wrappers
  import opened YamlText
  import opened YamlScalars
  import opened YamlQuoting
  import opened YamlWords

  /** Without an unquoted comma or bracket, and with every quotation closed. */
  predicate IsPiece(s: string) {
    FlowClear(s, 0, Unquoted)
  }

  predicate AllPieces(pieces: seq<string>) {
    forall k | 0 <= k < |pieces| :: IsPiece(pieces[k])
  }

  function WithCommas(pieces: seq<string>): string
    requires pieces != []
  {
    if |pieces| == 1 then pieces[0] else pieces[0] + ("," + WithCommas(pieces[1..]))
  }

  // -- splitting ------------------------------------------------------------------------------

  lemma PassPiece(body: string, start: nat, piece: string, rest: string)
    requires IsPiece(piece) && (rest == "" || rest[0] == ',')
    requires start <= |body| && body[start..] == piece + rest
    ensures var end := start + |piece|;
      && end <= |body| && body[end..] == rest && body[start..end] == piece
      && Pieces(body, start, start, Unquoted) == Pieces(body, start, end, Unquoted)
  {
    assert piece + rest == "" + piece + rest;
    Slices(body, start, "", piece, rest);
    if rest != "" { assert body[start + |piece|] == body[start + |piece|..][0]; }
    PassItem(body, start, start, piece, 0, Unquoted);
  }

  lemma {:induction false} CommasSplit(body: string, start: nat, pieces: seq<string>)
    requires pieces != [] && AllPieces(pieces) && start <= |body| && body[start..] == WithCommas(pieces)
    ensures Pieces(body, start, start, Unquoted) == Ok(pieces)
    decreases |pieces|
  {
    var piece := pieces[0];
    if |pieces| == 1 {
      assert body[start..] == piece + "";
      PassPiece(body, start, piece, "");
      CutAtEnd(body, start);
      assert pieces == [piece];
    } else {
      var more := pieces[1..];
      PassPiece(body, start, piece, "," + WithCommas(more));
      var end := start + |piece|;
      AfterComma(body, end, WithCommas(more));
      CommasSplit(body, end + 1, more);
      assert pieces == [piece] + more;
    }
  }

  lemma {:induction false} PiecesRebuild(body: string, start: nat, i: nat, quote: Quote)
    requires start <= |body| && start <= i && Pieces(body, start, i, quote).Ok?
    ensures WithCommas(Pieces(body, start, i, quote).value) == body[start..]
    decreases |body| - i
  {
    if i < |body| {
      if quote != Unquoted {
        var (next, state) := InQuotes(body, i, quote);
        PiecesRebuild(body, start, next, state);
      } else if QuoteOf(body[i]) != Unquoted {
        PiecesRebuild(body, start, i + 1, QuoteOf(body[i]));
      } else if body[i] == ',' {
        PiecesRebuild(body, i + 1, i + 1, Unquoted);
        var more := Pieces(body, i + 1, i + 1, Unquoted).value;
        assert ([body[start..i]] + more)[1..] == more;
        assert body[start..] == body[start..i] + ([body[i]] + body[i + 1..]);
      } else {
        PiecesRebuild(body, start, i + 1, Unquoted);
      }
    }
  }

  // -- items ----------------------------------------------------------------------------------

  lemma {:induction false} BlankStrips(s: string)
    ensures Strip(s) == "" <==> AllSpaces(s)
  {
    if s != "" && IsSpace(s[0]) {
      BlankStrips(s[1..]);
      assert AllSpaces(s) <==> AllSpaces(s[1..]) by {
        if AllSpaces(s[1..]) {
          forall i | 0 <= i < |s| ensures IsSpace(s[i]) { if i > 0 { assert s[i] == s[1..][i - 1]; } }
        }
      }
    } else if s != "" {
      RStripPrefix(s);
    }
  }

  lemma CommaIsNotBlank(pieces: seq<string>)
    requires |pieces| > 1
    ensures !AllSpaces(WithCommas(pieces))
  {
    assert WithCommas(pieces)[|pieces[0]|] == ',';
  }

  predicate AnyBlank(pieces: seq<string>) {
    exists k | 0 <= k < |pieces| :: AllSpaces(pieces[k])
  }

  lemma StrippedItems(pieces: seq<string>)
    ensures "" in StripAll(pieces) <==> AnyBlank(pieces)
  {
    forall k | 0 <= k < |pieces|
      ensures StripAll(pieces)[k] == "" <==> AllSpaces(pieces[k])
    {
      BlankStrips(pieces[k]);
    }
    if AnyBlank(pieces) {
      var k :| 0 <= k < |pieces| && AllSpaces(pieces[k]);
      assert StripAll(pieces)[k] == "";
    }
  }

  /** The text between the brackets splits at its unquoted commas into trimmed items. An
      all-blank text has none; otherwise a blank last piece is a trailing comma and any other
      blank piece an empty item. */
  lemma FlowExactly(pieces: seq<string>)
    requires pieces != [] && AllPieces(pieces)
    ensures ItemsOf("[" + WithCommas(pieces) + "]") ==
      if |pieces| == 1 && AllSpaces(pieces[0]) then Ok([])
      else if AllSpaces(pieces[|pieces| - 1]) then Err(TrailingComma)
      else if AnyBlank(pieces) then Err(EmptyItem)
      else Ok(StripAll(pieces))
  {
    hide Strip, AllSpaces;
    var value := "[" + WithCommas(pieces) + "]";
    var body := value[1..|value| - 1];
    assert body == WithCommas(pieces) == body[0..];
    CommasSplit(body, 0, pieces);
    BlankStrips(body);
    BlankStrips(pieces[|pieces| - 1]);
    StrippedItems(pieces);
    if |pieces| > 1 {
      CommaIsNotBlank(pieces);
    } else {
      assert body == pieces[0];
      assert pieces[..0] == [];
      assert !AllSpaces(pieces[0]) ==> pieces[|pieces| - 1] == pieces[0];
    }
  }

  lemma SplitsInside(value: string)
    requires StartsWith(value, "[") && ItemsOf(value).Ok?
    ensures |value| > 1 && value == "[" + value[1..|value| - 1] + "]"
    ensures Pieces(value[1..|value| - 1], 0, 0, Unquoted).Ok?
  {
    hide Items, Pieces;
    assert value == [value[0]] + value[1..|value| - 1] + [value[|value| - 1]];
  }

  /** Whatever splits is such a text. */
  lemma OnlyPiecesSplit(value: string) returns (pieces: seq<string>)
    requires StartsWith(value, "[") && ItemsOf(value).Ok?
    ensures pieces != [] && AllPieces(pieces) && value == "[" + WithCommas(pieces) + "]"
  {
    hide Items, ItemsOf, Pieces, FlowClear, WithCommas, StartsWith;
    SplitsInside(value);
    var body := value[1..|value| - 1];
    assert body[0..] == body;
    pieces := Pieces(body, 0, 0, Unquoted).value;
    PiecesRebuild(body, 0, 0, Unquoted);
    forall k | 0 <= k < |pieces|
      ensures IsPiece(pieces[k])
    {
      if k == 0 { FirstPieceIsClear(body, 0, 0, Unquoted); } else { PiecesAreClear(body, 0, 0, Unquoted, k); }
    }
  }
}
