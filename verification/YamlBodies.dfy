/** What is not read: the bodies of literal blocks, blank lines, and comments. */
module YamlBodies {
  import opened Wrappers
  import opened YamlText
  import opened YamlScalars
  import opened YamlWords
  import opened YamlParser
  import opened YamlLines
  import opened YamlWorkflow

  // -- a body put in and taken out ------------------------------------------------------------

  /** Lines that can stand in the body of a line indented by `indent`. */
  predicate IsBody(body: seq<string>, indent: nat) {
    forall i | 0 <= i < |body| :: IsBlank(body[i]) || Indent(body[i]) > indent
  }

  /** The first line that is not blank, if any, is not deeper than `indent`. */
  predicate EndsBody(rest: seq<string>, indent: nat) {
    rest == [] || (if IsBlank(rest[0]) then EndsBody(rest[1..], indent) else Indent(rest[0]) <= indent)
  }

  /** A physical line that opens the body of a literal block. */
  predicate OpensAt(raw: string, indent: nat, text: string) {
    && !IsSkipped(raw) && Indent(raw) == indent && indent % 2 == 0
    && WithoutComment(raw[indent..]) == Ok(text) && text != "" && !IsDirective(text) && OpensBody(text)
  }

  /** `long` is `short` with `n` lines put in after its first `at` ones. */
  predicate Longer(short: seq<string>, long: seq<string>, at: nat, n: nat) {
    && at <= |short| && |long| == |short| + n
    && (forall i | 0 <= i < at :: long[i] == short[i])
    && (forall i | at <= i < |short| :: long[i + n] == short[i])
  }

  lemma {:induction false} BodyIsPassed(lines: seq<string>, i: nat, n: nat, indent: nat)
    requires i + n <= |lines| && IsBody(lines[i..i + n], indent)
    ensures AfterBody(lines, i, indent) == AfterBody(lines, i + n, indent)
    decreases n
  {
    if n > 0 {
      assert lines[i] == lines[i..i + n][0];
      assert lines[i + 1..i + n] == lines[i..i + n][1..];
      BodyIsPassed(lines, i + 1, n - 1, indent);
    }
  }

  lemma {:induction false} RestIsPassed(short: seq<string>, long: seq<string>, at: nat, n: nat, i: nat, indent: nat)
    requires Longer(short, long, at, n) && at <= i
    ensures AfterBody(long, i + n, indent) == AfterBody(short, i, indent) + n
    decreases |short| - i
  {
    if i < |short| { RestIsPassed(short, long, at, n, i + 1, indent); }
  }

  lemma {:induction false} RestReads(short: seq<string>, long: seq<string>, at: nat, n: nat, i: nat)
    requires Longer(short, long, at, n) && at <= i
    ensures LinesFrom(long, i + n) == LinesFrom(short, i)
    decreases |short| - i
  {
    hide AfterBody, IsSkipped, WithoutComment, OpensBody, IsDirective;
    if i < |short| {
      assert long[i + n] == short[i];
      var indent := Indent(short[i]);
      RestReads(short, long, at, n, i + 1);
      RestIsPassed(short, long, at, n, i + 1, indent);
      RestReads(short, long, at, n, AfterBody(short, i + 1, indent));
    }
  }

  /** Skipping a body that began before the lines put in. */
  lemma {:induction false} PassesInserted(short: seq<string>, long: seq<string>, at: nat, n: nat, i: nat, indent: nat)
    requires Longer(short, long, at, n) && 0 < at && i < at
    requires !IsBlank(short[at - 1]) && IsBody(long[at..at + n], Indent(short[at - 1]))
    ensures var next := AfterBody(short, i, indent);
      AfterBody(long, i, indent) == if next < at then next else next + n
    decreases at - i
  {
    assert long[i] == short[i];
    if !(!IsBlank(short[i]) && Indent(short[i]) <= indent) {
      if i + 1 < at {
        PassesInserted(short, long, at, n, i + 1, indent);
      } else {
        assert IsBody(long[at..at + n], indent);
        BodyIsPassed(long, at, n, indent);
        RestIsPassed(short, long, at, n, at, indent);
      }
    }
  }

  /** How one line reads, given what is read after it and after its body. */
  function LineReads(raw: string, after: Result<seq<Line>, Reason>, afterBody: Result<seq<Line>, Reason>): Result<seq<Line>, Reason> {
    if IsSkipped(raw) then after
    else if Indent(raw) % 2 != 0 then Err(OddIndent)
    else
      match WithoutComment(raw[Indent(raw)..])
      case Err(reason) => Err(reason)
      case Ok(text) =>
        if text == "" then after
        else if IsDirective(text) then Err(DirectiveOrMarker)
        else Prefixed([Line(Indent(raw), text)], if OpensBody(text) then afterBody else after)
  }

  lemma OneLineReads(lines: seq<string>, i: nat)
    requires i < |lines|
    ensures LinesFrom(lines, i) ==
      LineReads(lines[i], LinesFrom(lines, i + 1), LinesFrom(lines, AfterBody(lines, i + 1, Indent(lines[i]))))
  {
    hide IsSkipped, WithoutComment, OpensBody, IsDirective, Prefixed, AfterBody;
  }

  /** A line that opens a body goes on only behind it. */
  lemma OpenerSkipsBody(raw: string, text: string, x: Result<seq<Line>, Reason>, y: Result<seq<Line>, Reason>, rest: Result<seq<Line>, Reason>)
    requires OpensAt(raw, Indent(raw), text)
    ensures LineReads(raw, x, rest) == LineReads(raw, y, rest)
  {
    hide IsSkipped, WithoutComment, OpensBody, IsDirective, Prefixed;
  }

  lemma SameFront(short: seq<string>, long: seq<string>, at: nat, n: nat, i: nat)
    requires Longer(short, long, at, n) && i < at
    ensures i < |short| && i < |long| && long[i] == short[i]
    ensures at <= |short| && at + n <= |long|
  {
  }

  /** Reading the line that opens the body put in. */
  lemma OpenerReadsOn(short: seq<string>, long: seq<string>, at: nat, n: nat, text: string)
    requires Longer(short, long, at, n) && 0 < at
    requires OpensAt(short[at - 1], Indent(short[at - 1]), text) && IsBody(long[at..at + n], Indent(short[at - 1]))
    ensures LinesFrom(long, at - 1) == LinesFrom(short, at - 1)
  {
    hide *;
    SameFront(short, long, at, n, at - 1);
    var indent := Indent(short[at - 1]);
    var next := AfterBody(short, at, indent);
    BodyIsPassed(long, at, n, indent);
    RestIsPassed(short, long, at, n, at, indent);
    RestReads(short, long, at, n, next);
    OneLineReads(short, at - 1);
    OneLineReads(long, at - 1);
    OpenerSkipsBody(short[at - 1], text, LinesFrom(long, at), LinesFrom(short, at), LinesFrom(short, next));
  }

  /** Reading a line before it, given how all lines from the next one on read. */
  lemma EarlierReadsOn(short: seq<string>, long: seq<string>, at: nat, n: nat, i: nat)
    requires Longer(short, long, at, n) && i + 1 < at
    requires !IsBlank(short[at - 1]) && IsBody(long[at..at + n], Indent(short[at - 1]))
    requires forall j | i < j < at :: LinesFrom(long, j) == LinesFrom(short, j)
    ensures LinesFrom(long, i) == LinesFrom(short, i)
  {
    hide *;
    SameFront(short, long, at, n, i);
    var indent := Indent(short[i]);
    PassesInserted(short, long, at, n, i + 1, indent);
    var next := AfterBody(short, i + 1, indent);
    if next >= at { RestReads(short, long, at, n, next); }
    OneLineReads(short, i);
    OneLineReads(long, i);
  }

  /** Reading on from a line before those put in. */
  lemma {:induction false} InsertedReads(short: seq<string>, long: seq<string>, at: nat, n: nat, i: nat, text: string)
    requires Longer(short, long, at, n) && 0 < at && i < at
    requires OpensAt(short[at - 1], Indent(short[at - 1]), text) && IsBody(long[at..at + n], Indent(short[at - 1]))
    ensures LinesFrom(long, i) == LinesFrom(short, i)
    decreases at - i
  {
    hide *;
    SameFront(short, long, at, n, i);
    if i + 1 == at {
      OpenerReadsOn(short, long, at, n, text);
    } else {
      OpenerIsNoBlank(short[at - 1], text);
      forall j | i < j < at
        ensures LinesFrom(long, j) == LinesFrom(short, j)
      {
        InsertedReads(short, long, at, n, j, text);
      }
      EarlierReadsOn(short, long, at, n, i);
    }
  }

  lemma OpenerIsNoBlank(raw: string, text: string)
    requires OpensAt(raw, Indent(raw), text)
    ensures !IsBlank(raw)
  {
  }

  /** Putting lines into the body of a literal block, wherever the block stands, changes
      nothing that is read. */
  lemma BodyIsNotRead(before: seq<string>, opener: string, body: seq<string>, rest: seq<string>, text: string)
    requires OpensAt(opener, Indent(opener), text) && IsBody(body, Indent(opener))
    ensures LinesFrom(before + [opener] + body + rest, 0) == LinesFrom(before + [opener] + rest, 0)
  {
    var short, long := before + [opener] + rest, before + [opener] + body + rest;
    var at := |before| + 1;
    assert short[at - 1] == opener && long[at..at + |body|] == body;
    InsertedReads(short, long, at, |body|, 0, text);
  }

  lemma {:induction false} BlanksAreSkipped(lines: seq<string>, i: nat, j: nat)
    requires i <= j <= |lines| && forall k | i <= k < j :: IsBlank(lines[k])
    ensures LinesFrom(lines, i) == LinesFrom(lines, j)
    decreases j - i
  {
    if i < j { BlanksAreSkipped(lines, i + 1, j); }
  }

  /** Where a body ends: at the first line that is neither blank nor deeper. */
  lemma {:induction false} BodyEnds(lines: seq<string>, i: nat, indent: nat) returns (j: nat)
    requires i <= |lines| && EndsBody(lines[i..], indent)
    ensures i <= j <= |lines| && AfterBody(lines, i, indent) == j && forall k | i <= k < j :: IsBlank(lines[k])
    decreases |lines| - i
  {
    if i < |lines| && IsBlank(lines[i]) {
      assert lines[i..][1..] == lines[i + 1..];
      j := BodyEnds(lines, i + 1, indent);
    } else {
      j := i;
    }
  }

  /** The line that opens a body is read, and then what stands after the body. */
  lemma OpenerReads(lines: seq<string>, i: nat, text: string)
    requires i < |lines| && OpensAt(lines[i], Indent(lines[i]), text)
    ensures LinesFrom(lines, i)
         == Prefixed([Line(Indent(lines[i]), text)], LinesFrom(lines, AfterBody(lines, i + 1, Indent(lines[i]))))
  {
  }

  /** Everything after the body is read: reading the block's line, its body and the rest
      gives that line and what the rest alone gives. */
  lemma RestIsRead(before: seq<string>, opener: string, body: seq<string>, rest: seq<string>, text: string)
    requires OpensAt(opener, Indent(opener), text) && IsBody(body, Indent(opener)) && EndsBody(rest, Indent(opener))
    ensures LinesFrom(before + [opener] + body + rest, |before|)
         == Prefixed([Line(Indent(opener), text)], LinesFrom(rest, 0))
  {
    hide *;
    var lines := before + [opener] + body + rest;
    var i := |before| + 1;
    assert lines[|before|] == opener && lines[i..i + |body|] == body && lines[i + |body|..] == rest;
    OpenerReads(lines, |before|, text);
    BodyIsPassed(lines, i, |body|, Indent(opener));
    var j := BodyEnds(lines, i + |body|, Indent(opener));
    BlanksAreSkipped(lines, i + |body|, j);
    TailReads(before + [opener] + body, rest);
    assert before + [opener] + body + rest == (before + [opener] + body) + rest;
  }

  lemma TailReads(before: seq<string>, rest: seq<string>)
    ensures LinesFrom(before + rest, |before|) == LinesFrom(rest, 0)
  {
    RestReads(rest, before + rest, 0, |before|, 0);
  }

  // -- whole texts ---------------------------------------------------------------------------------

  /** The text with these lines, each ended by a line break. */
  function TextOf(lines: seq<string>): string {
    if lines == [] then "" else lines[0] + ("\n" + TextOf(lines[1..]))
  }

  lemma {:induction false} LinesOfText(lines: seq<string>)
    requires forall i | 0 <= i < |lines| :: '\n' !in lines[i]
    ensures PhysicalLines(TextOf(lines)) == lines
  {
    if lines != [] {
      LinesOfText(lines[1..]);
      FirstBreak(lines[0], TextOf(lines[1..]));
      assert [lines[0]] + lines[1..] == lines;
    }
  }

  predicate OneLine(lines: seq<string>) {
    forall i | 0 <= i < |lines| :: '\n' !in lines[i]
  }

  /** `long` is `short` with lines put into the body of one of its literal blocks. */
  ghost predicate Grows(short: seq<string>, long: seq<string>) {
    exists before: seq<string>, opener: string, body: seq<string>, rest: seq<string>, text: string ::
      && OpensAt(opener, Indent(opener), text) && IsBody(body, Indent(opener))
      && short == before + [opener] + rest && long == before + [opener] + body + rest
  }

  lemma GrownReadsTheSame(short: seq<string>, long: seq<string>)
    requires Grows(short, long) && OneLine(short) && OneLine(long)
    ensures Reads(TextOf(long)) == Reads(TextOf(short))
  {
    var before: seq<string>, opener: string, body: seq<string>, rest: seq<string>, text: string :|
      && OpensAt(opener, Indent(opener), text) && IsBody(body, Indent(opener))
      && short == before + [opener] + rest && long == before + [opener] + body + rest;
    BodyIsNotRead(before, opener, body, rest, text);
    LinesOfText(short);
    LinesOfText(long);
  }

  /** However many bodies are put into a workflow, it reads as the same tree, or is refused
      for the same reason, as without them. */
  lemma {:induction false} BodiesAreNotRead(texts: seq<seq<string>>)
    requires texts != [] && forall i | 0 <= i < |texts| :: OneLine(texts[i])
    requires forall i | 0 <= i < |texts| - 1 :: Grows(texts[i], texts[i + 1])
    ensures Reads(TextOf(texts[|texts| - 1])) == Reads(TextOf(texts[0]))
  {
    if |texts| > 1 {
      var last := |texts| - 1;
      BodiesAreNotRead(texts[..last]);
      GrownReadsTheSame(texts[last - 1], texts[last]);
    }
  }

  // -- lines that are not read, lines that are refused -------------------------------------------------

  lemma {:induction false} SpacesStrip(s: string, n: nat)
    requires n <= |s| && forall i | 0 <= i < n :: IsSpace(s[i])
    ensures LStrip(s) == LStrip(s[n..])
  {
    if n > 0 {
      SpacesStrip(s[1..], n - 1);
      assert s[1..][n - 1..] == s[n..];
    }
  }

  /** Lines of spaces alone, and lines whose first other character is a comment mark, are
      passed over; so blank lines may be put anywhere a line is read. */
  lemma NoiseIsNotRead(lines: seq<string>, i: nat, n: nat)
    requires i < |lines| && n <= |lines[i]| && forall k | 0 <= k < n :: IsSpace(lines[i][k])
    requires n == |lines[i]| || lines[i][n] == '#'
    ensures LinesFrom(lines, i) == LinesFrom(lines, i + 1)
  {
    var raw := lines[i];
    SpacesStrip(raw, n);
    if n == |raw| {
      assert raw[n..] == "";
      assert IsBlank(raw);
    } else {
      assert raw[n..][0] == '#' && !IsSpace('#');
      assert StartsWith(LStrip(raw), "#");
    }
  }

  /** An odd indentation, a directive and a document marker are refused. */
  lemma OddAndMarkersAreRefused(lines: seq<string>, i: nat)
    requires i < |lines| && !IsSkipped(lines[i])
    ensures Indent(lines[i]) % 2 == 1 ==> LinesFrom(lines, i) == Err(OddIndent)
    ensures var body := WithoutComment(lines[i][Indent(lines[i])..]);
      Indent(lines[i]) % 2 == 0 && (body == Ok("---") || body == Ok("...") || (body.Ok? && body.value != "" && body.value[0] == '%')) ==>
        LinesFrom(lines, i) == Err(DirectiveOrMarker)
  {
  }

  // -- comments ------------------------------------------------------------------------------------------

  lemma {:induction false} ScansOn(kept: string, tail: string, i: nat, quote: Quote)
    requires i <= |kept| && WithoutCommentFrom(kept, i, quote) == Ok(kept)
    requires tail != "" && IsSpace(tail[0])
    ensures WithoutCommentFrom(kept + tail, i, quote) == WithoutCommentFrom(kept + tail, |kept|, Unquoted)
    decreases |kept| - i
  {
    var whole := kept + tail;
    if i < |kept| {
      assert whole[i] == kept[i] && (i + 1 < |kept| ==> whole[i + 1] == kept[i + 1]);
      assert whole[|kept|] == tail[0] && (i > 0 ==> whole[i - 1] == kept[i - 1]);
      if quote != Unquoted {
        var (next, state) := InQuotes(kept, i, quote);
        ScansOn(kept, tail, next, state);
      } else if OpensQuote(kept, i) {
        ScansOn(kept, tail, i + 1, QuoteOf(kept[i]));
      } else {
        RStripPrefix(kept[..i]);
        ScansOn(kept, tail, i + 1, Unquoted);
      }
    }
  }

  lemma TrailingSpace(kept: string, space: char)
    requires RStrip(kept) == kept && IsSpace(space)
    ensures RStrip(kept + [space]) == kept
  {
    assert (kept + [space])[..|kept|] == kept;
  }

  /** What follows a space and a comment mark after a text without a comment is removed,
      the space too, quoted comment marks in the text being kept. */
  lemma CommentIsRemoved(kept: string, space: char, comment: string)
    requires WithoutComment(kept) == Ok(kept) && IsSpace(space)
    ensures WithoutComment(kept + [space] + "#" + comment) == Ok(kept)
    ensures WithoutComment("#" + comment) == Ok("")
  {
    hide IsSpace, RStrip;
    var tail := [space] + "#" + comment;
    var whole := kept + tail;
    assert kept + [space] + "#" + comment == whole;
    ScansOn(kept, tail, 0, Unquoted);
    KeptIsTrimmed(kept, 0, Unquoted);
    var n := |kept|;
    assert whole[n] == space && whole[n + 1] == '#';
    assert whole[..n + 1] == kept + [space];
    TrailingSpace(kept, space);
    assert ("#" + comment)[..0] == "";
    SpaceIsNoMark(space);
  }

  lemma SpaceIsNoMark(space: char)
    requires IsSpace(space)
    ensures space != '\'' && space != '"' && space != '#'
    ensures RStrip("") == ""
  {
  }

  /** From a text without quotation marks, none of whose comment marks stands at its start
      or after a space, only the spaces at its end are removed. */
  lemma {:induction false} PlainTextIsKept(text: string, i: nat)
    requires i <= |text| && forall j | 0 <= j < |text| :: QuoteOf(text[j]) == Unquoted
    requires forall j | i <= j < |text| && text[j] == '#' :: j > 0 && !IsSpace(text[j - 1])
    ensures WithoutCommentFrom(text, i, Unquoted) == Ok(RStrip(text))
    decreases |text| - i
  {
    if i < |text| { PlainTextIsKept(text, i + 1); }
  }

  // -- which lines open a body -----------------------------------------------------------------------------

  /** The keys whose values may be literal blocks. */
  predicate BodyKey(key: string) {
    key == "run" || key == "path"
  }

  /** `run` or `path`, a colon, any space and a bar open a body. */
  lemma BodyOpeners(key: string, gap: string)
    requires BodyKey(key) && AllSpaces(gap)
    ensures OpensBody(key + ":" + gap + "|")
  {
    var text := key + ":" + (gap + "|");
    assert text == key + ":" + gap + "|";
    FindsColon(key, gap + "|");
    StripsGap(gap, "|");
    assert text[..|key|] == key && text[|key| + 1..] == gap + "|";
  }

  /** And nothing else does. */
  lemma OnlyBodyOpeners(text: string) returns (key: string, gap: string)
    requires OpensBody(text)
    ensures BodyKey(key) && AllSpaces(gap) && text == key + ":" + gap + "|"
  {
    var k := Find(text, ':');
    var rest := text[k + 1..];
    key, gap := text[..k], rest[..|rest| - 1];
    LStripSuffix(rest);
    FrontIsSpaces(rest);
    assert rest == gap + "|";
    assert text == text[..k] + [text[k]] + rest;
  }
}
