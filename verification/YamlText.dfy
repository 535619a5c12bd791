/** Characters, trimming and the quote scanner shared by the workflow lexer. */
module YamlText {
  import opened Wrappers

  /** Why a workflow file is refused. */
  datatype Reason =
    | UnterminatedQuote | ForbiddenKey | NotAnEntry | NonCanonicalKey
    | UnterminatedSingle | BadSingleQuote | BadJsonString | ControlCharacter
    | ReservedIndicator | ColonInPlain | AnchorOrTag | FoldedScalar | FlowMapping
    | QuotedNotWhole | UnterminatedFlow | NestedFlow | UnterminatedItem | TrailingComma | EmptyItem
    | BlockNotAllowed | InexactBlock | FlowNotScalar
    | OddIndent | DirectiveOrMarker
    | EmptyDocument | IndentedRoot | TrailingNode | RootNotMapping
    | TooDeep | BadIndent | ScalarOwnsBlock | MixedMapping | MixedSequence | DuplicateKey
    | EmptySequenceItem | ItemOwnsBlock | BadItemIndent

  /** Whitespace as Python's `isspace` and the pattern class for spaces see it. */
  predicate IsSpace(c: char) {
    var n := c as int;
    || 0x09 <= n <= 0x0D || 0x1C <= n <= 0x20 || n == 0x85 || n == 0xA0 || n == 0x1680
    || 0x2000 <= n <= 0x200A || n == 0x2028 || n == 0x2029 || n == 0x202F || n == 0x205F || n == 0x3000
  }

  /** Code points of the Unicode categories Cc, Cf and Cs. */
  predicate IsControl(n: int) {
    || 0x00 <= n <= 0x1F || 0x7F <= n <= 0x9F || n == 0xAD
    || 0x600 <= n <= 0x605 || n == 0x61C || n == 0x6DD || n == 0x70F || 0x890 <= n <= 0x891 || n == 0x8E2
    || n == 0x180E || 0x200B <= n <= 0x200F || 0x202A <= n <= 0x202E || 0x2060 <= n <= 0x2064
    || 0x2066 <= n <= 0x206F || 0xD800 <= n <= 0xDFFF || n == 0xFEFF || 0xFFF9 <= n <= 0xFFFB
    || n == 0x110BD || n == 0x110CD || 0x13430 <= n <= 0x1343F || 0x1BCA0 <= n <= 0x1BCA3
    || 0x1D173 <= n <= 0x1D17A || n == 0xE0001 || 0xE0020 <= n <= 0xE007F
  }

  predicate HasControl(s: string) {
    exists i | 0 <= i < |s| :: IsControl(s[i] as int)
  }

  predicate StartsWith(s: string, prefix: string) {
    prefix <= s
  }

  // -- trimming ---------------------------------------------------------------------------

  function LStrip(s: string): string {
    if s != "" && IsSpace(s[0]) then LStrip(s[1..]) else s
  }

  function RStrip(s: string): string {
    if s != "" && IsSpace(s[|s| - 1]) then RStrip(s[..|s| - 1]) else s
  }

  function Strip(s: string): string {
    RStrip(LStrip(s))
  }

  lemma {:induction false} LStripSuffix(s: string)
    ensures |LStrip(s)| <= |s| && LStrip(s) == s[|s| - |LStrip(s)|..]
    ensures LStrip(s) != "" ==> !IsSpace(LStrip(s)[0])
  {
    if s != "" && IsSpace(s[0]) { LStripSuffix(s[1..]); }
  }

  lemma {:induction false} RStripPrefix(s: string)
    ensures RStrip(s) <= s
    ensures RStrip(s) != "" ==> !IsSpace(RStrip(s)[|RStrip(s)| - 1])
    ensures forall i | |RStrip(s)| <= i < |s| :: IsSpace(s[i])
  {
    if s != "" && IsSpace(s[|s| - 1]) { RStripPrefix(s[..|s| - 1]); }
  }

  lemma StripShortens(s: string)
    ensures |Strip(s)| <= |s| && Trimmed(Strip(s))
  {
    LStripSuffix(s);
    RStripPrefix(LStrip(s));
  }

  /** Text without spaces at its ends. */
  predicate Trimmed(s: string) {
    s != "" ==> !IsSpace(s[0]) && !IsSpace(s[|s| - 1])
  }

  lemma StripTrimmed(s: string)
    requires Trimmed(s)
    ensures LStrip(s) == s && RStrip(s) == s && Strip(s) == s
  {
  }

  lemma StripSpaced(s: string)
    requires s != "" && Trimmed(s)
    ensures LStrip(" " + s) == s && Strip(" " + s) == s
  {
    assert (" " + s)[1..] == s;
  }

  // -- the quote scanner --------------------------------------------------------------------

  datatype Quote = Unquoted | Single | Double

  function QuoteOf(c: char): Quote {
    if c == '\'' then Single else if c == '"' then Double else Unquoted
  }

  /** Inside quotes: where scanning goes on after `text[i]`, and in what state. */
  function InQuotes(text: string, i: nat, quote: Quote): (r: (nat, Quote))
    requires i < |text| && quote != Unquoted
    ensures i < r.0 <= i + 2
  {
    if quote == Single then
      if text[i] != '\'' then (i + 1, Single)
      else if i + 1 < |text| && text[i + 1] == '\'' then (i + 2, Single)
      else (i + 1, Unquoted)
    else if text[i] == '\\' then (i + 2, Double)
    else (i + 1, if text[i] == '"' then Unquoted else Double)
  }

  // -- comments -------------------------------------------------------------------------------

  /** A quotation mark opens a quoted scalar only at the start of a value. */
  predicate OpensQuote(text: string, i: nat)
    requires i < |text|
  {
    text[i] in "'\"" && (i == 0 || IsSpace(text[i - 1]) || text[i - 1] in "[:,")
  }

  predicate StartsComment(text: string, i: nat)
    requires i < |text|
  {
    text[i] == '#' && (i == 0 || IsSpace(text[i - 1]))
  }

  function WithoutCommentFrom(text: string, i: nat, quote: Quote): (r: Result<string, Reason>)
    decreases |text| - i
  {
    if i >= |text| then
      if quote != Unquoted then Err(UnterminatedQuote) else Ok(RStrip(text))
    else if quote != Unquoted then
      var (next, state) := InQuotes(text, i, quote);
      WithoutCommentFrom(text, next, state)
    else if OpensQuote(text, i) then WithoutCommentFrom(text, i + 1, QuoteOf(text[i]))
    else if StartsComment(text, i) then Ok(RStrip(text[..i]))
    else WithoutCommentFrom(text, i + 1, Unquoted)
  }

  function WithoutComment(text: string): Result<string, Reason> {
    WithoutCommentFrom(text, 0, Unquoted)
  }

  method StripComment(text: string) returns (r: Result<string, Reason>)
    ensures r == WithoutComment(text)
  {
    var quote := Unquoted;
    var i := 0;
    while i < |text|
      invariant WithoutComment(text) == WithoutCommentFrom(text, i, quote)
    {
      if quote == Single {
        if text[i] == '\'' {
          if i + 1 < |text| && text[i + 1] == '\'' {
            i := i + 2;
            continue;
          }
          quote := Unquoted;
        }
      } else if quote == Double {
        if text[i] == '\\' {
          i := i + 2;
          continue;
        }
        if text[i] == '"' { quote := Unquoted; }
      } else if OpensQuote(text, i) {
        quote := QuoteOf(text[i]);
      } else if StartsComment(text, i) {
        return Ok(RStrip(text[..i]));
      }
      i := i + 1;
    }
    if quote != Unquoted { return Err(UnterminatedQuote); }
    r := Ok(RStrip(text));
  }

  /** An open quotation is closed inside the text that is kept. */
  lemma {:induction false} KeptPastQuote(text: string, i: nat, quote: Quote)
    requires quote != Unquoted && WithoutCommentFrom(text, i, quote).Ok?
    ensures |WithoutCommentFrom(text, i, quote).value| > i
    decreases |text| - i
  {
    var (next, state) := InQuotes(text, i, quote);
    if state != Unquoted {
      KeptPastQuote(text, next, state);
    } else {
      KeptPastMark(text, next, i);
    }
  }

  /** A mark before the scanning position that is no space is kept. */
  lemma {:induction false} KeptPastMark(text: string, i: nat, mark: nat)
    requires mark < i && mark < |text| && !IsSpace(text[mark]) && WithoutCommentFrom(text, i, Unquoted).Ok?
    ensures |WithoutCommentFrom(text, i, Unquoted).value| > mark
    decreases |text| - i
  {
    if i < |text| {
      if OpensQuote(text, i) {
        KeptPastQuote(text, i + 1, QuoteOf(text[i]));
      } else if StartsComment(text, i) {
        RStripPrefix(text[..i]);
        assert text[..i][mark] == text[mark];
      } else {
        KeptPastMark(text, i + 1, mark);
      }
    } else {
      RStripPrefix(text);
    }
  }

  lemma {:induction false} KeptIsTrimmed(text: string, i: nat, quote: Quote)
    requires WithoutCommentFrom(text, i, quote).Ok?
    ensures var kept := WithoutCommentFrom(text, i, quote).value;
      kept <= text && RStrip(kept) == kept
    decreases |text| - i
  {
    if i >= |text| {
      RStripPrefix(text);
    } else if quote != Unquoted {
      var (next, state) := InQuotes(text, i, quote);
      KeptIsTrimmed(text, next, state);
    } else if OpensQuote(text, i) {
      KeptIsTrimmed(text, i + 1, QuoteOf(text[i]));
    } else if StartsComment(text, i) {
      RStripPrefix(text[..i]);
    } else {
      KeptIsTrimmed(text, i + 1, Unquoted);
    }
  }

  lemma {:induction false} Rescan(text: string, kept: string, i: nat, quote: Quote)
    requires WithoutCommentFrom(text, i, quote) == Ok(kept)
    ensures WithoutCommentFrom(kept, i, quote) == Ok(kept)
    decreases |text| - i
  {
    KeptIsTrimmed(text, i, quote);
    if i >= |kept| {
      if quote != Unquoted { KeptPastQuote(text, i, quote); }
    } else if quote != Unquoted {
      var (next, state) := InQuotes(text, i, quote);
      if state != Unquoted && next > |kept| { KeptPastQuote(text, next, state); }
      Rescan(text, kept, next, state);
    } else if OpensQuote(text, i) {
      Rescan(text, kept, i + 1, QuoteOf(text[i]));
    } else {
      RStripPrefix(text[..i]);
      Rescan(text, kept, i + 1, Unquoted);
    }
  }

  /** Stripping comments twice is stripping them once. */
  lemma WithoutCommentIdempotent(text: string)
    ensures var r := WithoutComment(text); r.Ok? ==> WithoutComment(r.value) == r
  {
    var r := WithoutComment(text);
    if r.Ok? { Rescan(text, r.value, 0, Unquoted); }
  }

  // -- where a part of a text stands ------------------------------------------------------------

  /** `part` stands in `text` at `i`, before `rest`. */
  predicate StandsAt(text: string, i: nat, part: string, rest: string) {
    i <= |text| && text[i..] == part + rest
  }

  lemma Peel(text: string, i: nat, c: char, part: string, rest: string)
    requires StandsAt(text, i, [c] + part, rest)
    ensures i < |text| && text[i] == c && StandsAt(text, i + 1, part, rest)
  {
    assert text[i] == text[i..][0];
    assert text[i + 1..] == text[i..][1..];
  }

  lemma Pass(text: string, i: nat, part: string, rest: string)
    requires StandsAt(text, i, part, rest)
    ensures i + |part| <= |text| && text[i + |part|..] == rest && text[..i + |part|] == text[..i] + part
  {
    assert text[i + |part|..] == text[i..][|part|..];
    assert text[..i + |part|] == text[..i] + text[i..][..|part|];
  }
}
