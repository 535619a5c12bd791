/** Where a comment starts: every text is bare characters and quoted parts, and the first
    comment mark outside them ends it. */
module YamlComments {
  import opened Wrappers
  import opened YamlText
  import opened YamlScalars

  datatype Part = Bare(c: char) | InSingle(body: string) | InDouble(body: string)

  /** Every backslash takes a character with it, and no other quotation mark stands there. */
  predicate PairedEscapes(s: string) {
    if s == "" then true
    else if s[0] == '\\' then |s| > 1 && PairedEscapes(s[2..])
    else s[0] != '"' && PairedEscapes(s[1..])
  }

  predicate AfterSpace(before: string) {
    before == "" || IsSpace(before[|before| - 1])
  }

  /** A quotation mark opens at the start, after a space, and after `[`, `:` or `,`. */
  predicate StartsValue(before: string) {
    AfterSpace(before) || before[|before| - 1] in "[:,"
  }

  predicate ValidPart(before: string, p: Part) {
    match p
    case Bare(c) => (c == '\'' || c == '"' ==> !StartsValue(before)) && (c == '#' ==> !AfterSpace(before))
    case InSingle(body) => StartsValue(before) && PairedQuotes(body)
    case InDouble(body) => StartsValue(before) && PairedEscapes(body)
  }

  function Written(p: Part): (r: string)
    ensures r != ""
  {
    match p
    case Bare(c) => [c]
    case InSingle(body) => ['\''] + (body + ['\''])
    case InDouble(body) => ['"'] + (body + ['"'])
  }

  /** A closing single quote with another one behind it would have been a doubled one. */
  predicate Valid(before: string, parts: seq<Part>)
    decreases |parts|
  {
    parts == [] ||
    (&& ValidPart(before, parts[0])
     && Valid(before + Written(parts[0]), parts[1..])
     && (parts[0].InSingle? && |parts| > 1 ==> parts[1] != Bare('\'')))
  }

  function Render(parts: seq<Part>): string {
    if parts == [] then "" else Written(parts[0]) + Render(parts[1..])
  }

  /** What may follow the parts: nothing, a comment, or a quotation that never closes. */
  predicate IsComment(before: string, rest: string) {
    rest != "" && rest[0] == '#' && AfterSpace(before)
  }

  predicate IsUnclosed(before: string, rest: string) {
    && rest != "" && StartsValue(before)
    && if rest[0] == '\'' then PairedQuotes(rest[1..])
       else rest[0] == '"'
            && (PairedEscapes(rest[1..])
                || (|rest| > 1 && rest[|rest| - 1] == '\\' && PairedEscapes(rest[1..|rest| - 1])))
  }

  // -- scanning -------------------------------------------------------------------------------

  lemma {:induction false} SingleScans(text: string, i: nat, body: string, rest: string)
    requires PairedQuotes(body) && StandsAt(text, i, body + ['\''], rest) && (rest == "" || rest[0] != '\'')
    ensures WithoutCommentFrom(text, i, Single) == WithoutCommentFrom(text, i + |body| + 1, Unquoted)
    decreases |body|
  {
    if body == "" {
      Peel(text, i, '\'', "", rest);
      if rest != "" { assert text[i + 1] == text[i + 1..][0]; }
    } else if body[0] == '\'' {
      assert body + ['\''] == ['\''] + (['\''] + (body[2..] + ['\'']));
      Peel(text, i, '\'', ['\''] + (body[2..] + ['\'']), rest);
      Peel(text, i + 1, '\'', body[2..] + ['\''], rest);
      SingleScans(text, i + 2, body[2..], rest);
    } else {
      assert body + ['\''] == [body[0]] + (body[1..] + ['\'']);
      Peel(text, i, body[0], body[1..] + ['\''], rest);
      SingleScans(text, i + 1, body[1..], rest);
    }
  }

  lemma {:induction false} DoubleScans(text: string, i: nat, body: string, rest: string)
    requires PairedEscapes(body) && StandsAt(text, i, body + ['"'], rest)
    ensures WithoutCommentFrom(text, i, Double) == WithoutCommentFrom(text, i + |body| + 1, Unquoted)
    decreases |body|
  {
    if body == "" {
      Peel(text, i, '"', "", rest);
    } else if body[0] == '\\' {
      assert body + ['"'] == ['\\'] + ([body[1]] + (body[2..] + ['"']));
      Peel(text, i, '\\', [body[1]] + (body[2..] + ['"']), rest);
      Peel(text, i + 1, body[1], body[2..] + ['"'], rest);
      DoubleScans(text, i + 2, body[2..], rest);
    } else {
      assert body + ['"'] == [body[0]] + (body[1..] + ['"']);
      Peel(text, i, body[0], body[1..] + ['"'], rest);
      DoubleScans(text, i + 1, body[1..], rest);
    }
  }

  lemma {:induction false} SingleStaysOpen(text: string, i: nat)
    requires i <= |text| && PairedQuotes(text[i..])
    ensures WithoutCommentFrom(text, i, Single) == Err(UnterminatedQuote)
    decreases |text| - i
  {
    if i < |text| {
      var tail := text[i..];
      assert text[i] == tail[0];
      if text[i] == '\'' {
        assert text[i + 1] == tail[1] && text[i + 2..] == tail[2..];
        SingleStaysOpen(text, i + 2);
      } else {
        assert text[i + 1..] == tail[1..];
        SingleStaysOpen(text, i + 1);
      }
    }
  }

  lemma {:induction false} DoubleStaysOpen(text: string, i: nat)
    requires i <= |text|
    requires PairedEscapes(text[i..]) || (i < |text| && text[|text| - 1] == '\\' && PairedEscapes(text[i..|text| - 1]))
    ensures WithoutCommentFrom(text, i, Double) == Err(UnterminatedQuote)
    decreases |text| - i
  {
    if i < |text| {
      var tail, front := text[i..], text[i..|text| - 1];
      assert text[i] == tail[0] && (front != "" ==> front[0] == text[i]);
      if text[i] == '\\' {
        if i + 2 <= |text| {
          assert text[i + 2..] == tail[2..];
          if |front| > 1 { assert text[i + 2..|text| - 1] == front[2..]; }
          DoubleStaysOpen(text, i + 2);
        }
      } else {
        assert text[i + 1..] == tail[1..];
        if front != "" { assert text[i + 1..|text| - 1] == front[1..]; }
        DoubleStaysOpen(text, i + 1);
      }
    }
  }

  lemma OpensHere(text: string, i: nat)
    requires i < |text|
    ensures OpensQuote(text, i) <==> (text[i] == '\'' || text[i] == '"') && StartsValue(text[..i])
    ensures StartsComment(text, i) <==> text[i] == '#' && AfterSpace(text[..i])
  {
    if i > 0 { assert text[..i][i - 1] == text[i - 1]; }
  }

  lemma BareScans(text: string, i: nat, p: Part, rest: string)
    requires p.Bare? && StandsAt(text, i, Written(p), rest) && ValidPart(text[..i], p)
    ensures WithoutCommentFrom(text, i, Unquoted) == WithoutCommentFrom(text, i + 1, Unquoted)
  {
    assert Written(p) == [p.c] + "";
    Peel(text, i, p.c, "", rest);
    OpensHere(text, i);
  }

  lemma OpenedScans(text: string, i: nat)
    requires i < |text| && (text[i] == '\'' || text[i] == '"') && StartsValue(text[..i])
    ensures WithoutCommentFrom(text, i, Unquoted) == WithoutCommentFrom(text, i + 1, QuoteOf(text[i]))
  {
    hide StartsValue;
    OpensHere(text, i);
  }

  lemma SingleQuoteScans(text: string, i: nat, p: Part, rest: string)
    requires p.InSingle? && StandsAt(text, i, Written(p), rest) && ValidPart(text[..i], p)
    requires rest == "" || rest[0] != '\''
    ensures WithoutCommentFrom(text, i, Unquoted) == WithoutCommentFrom(text, i + |p.body| + 2, Unquoted)
  {
    hide PairedQuotes, PairedEscapes, StartsValue, WithoutCommentFrom;
    Peel(text, i, '\'', p.body + ['\''], rest);
    OpenedScans(text, i);
    SingleScans(text, i + 1, p.body, rest);
  }

  lemma DoubleQuoteScans(text: string, i: nat, p: Part, rest: string)
    requires p.InDouble? && StandsAt(text, i, Written(p), rest) && ValidPart(text[..i], p)
    ensures WithoutCommentFrom(text, i, Unquoted) == WithoutCommentFrom(text, i + |p.body| + 2, Unquoted)
  {
    hide PairedQuotes, PairedEscapes, StartsValue, WithoutCommentFrom;
    Peel(text, i, '"', p.body + ['"'], rest);
    OpenedScans(text, i);
    DoubleScans(text, i + 1, p.body, rest);
  }

  lemma PartScans(text: string, i: nat, p: Part, rest: string)
    requires StandsAt(text, i, Written(p), rest) && ValidPart(text[..i], p)
    requires p.InSingle? ==> rest == "" || rest[0] != '\''
    ensures WithoutCommentFrom(text, i, Unquoted) == WithoutCommentFrom(text, i + |Written(p)|, Unquoted)
  {
    hide ValidPart, Written, WithoutCommentFrom;
    WrittenLength(p);
    match p
    case Bare(_) => BareScans(text, i, p, rest);
    case InSingle(_) => SingleQuoteScans(text, i, p, rest);
    case InDouble(_) => DoubleQuoteScans(text, i, p, rest);
  }

  /** What may come after the parts. */
  predicate MayFollow(before: string, rest: string) {
    rest == "" || IsComment(before, rest) || IsUnclosed(before, rest)
  }

  /** Scanning passes over every part. */
  lemma {:induction false} PartsScan(text: string, i: nat, parts: seq<Part>, rest: string)
    requires StandsAt(text, i, Render(parts), rest) && Valid(text[..i], parts)
    requires MayFollow(text[..i] + Render(parts), rest)
    ensures WithoutCommentFrom(text, i, Unquoted) == WithoutCommentFrom(text, i + |Render(parts)|, Unquoted)
    decreases |parts|
  {
    hide ValidPart, Written, MayFollow, WithoutCommentFrom;
    if parts != [] {
      var p, more := parts[0], Render(parts[1..]);
      var w := Written(p);
      assert w + more + rest == w + (more + rest);
      assert text[..i] + w + more == text[..i] + (w + more);
      Pass(text, i, w, more + rest);
      NextIsNoQuote(text[..i], parts, rest);
      PartScans(text, i, p, more + rest);
      PartsScan(text, i + |w|, parts[1..], rest);
    }
  }

  lemma WrittenLength(p: Part)
    ensures |Written(p)| == if p.Bare? then 1 else |p.body| + 2
  {
  }

  /** What follows a closing single quote is no single quote. */
  lemma NextIsNoQuote(before: string, parts: seq<Part>, rest: string)
    requires parts != [] && Valid(before, parts)
    requires MayFollow(before + Render(parts), rest)
    ensures parts[0].InSingle? ==>
      Render(parts[1..]) + rest == "" || (Render(parts[1..]) + rest)[0] != '\''
  {
    hide PairedQuotes, PairedEscapes, IsSpace;
    if parts[0].InSingle? {
      var after := before + Written(parts[0]);
      QuoteIsNoSpace();
      assert after[|after| - 1] == '\'';
      if |parts| == 1 {
        assert Render(parts[1..]) == "" && before + Render(parts) == after;
      } else {
        var next := parts[1..][0];
        assert ValidPart(after, next);
        assert (Render(parts[1..]) + rest)[0] == Written(next)[0];
      }
    }
  }

  lemma QuoteIsNoSpace()
    ensures !IsSpace('\'') && !IsSpace('"')
  {
  }

  lemma ScansToRest(parts: seq<Part>, rest: string)
    requires Valid("", parts) && MayFollow(Render(parts), rest)
    ensures var text, n := Render(parts) + rest, |Render(parts)|;
      text[..n] == Render(parts) && text[n..] == rest && WithoutComment(text) == WithoutCommentFrom(text, n, Unquoted)
  {
    hide Valid, Render, MayFollow, WithoutCommentFrom;
    var text := Render(parts) + rest;
    assert text[..0] == "" && text[0..] == text;
    assert "" + Render(parts) == Render(parts);
    PartsScan(text, 0, parts, rest);
  }

  lemma CommentStops(text: string, n: nat)
    requires n <= |text| && (n == |text| || IsComment(text[..n], text[n..]))
    ensures WithoutCommentFrom(text, n, Unquoted) == Ok(RStrip(text[..n]))
  {
    hide RStrip, IsSpace;
    if n == |text| {
      assert text[..n] == text;
    } else {
      assert text[n..][0] == text[n];
      OpensHere(text, n);
    }
  }

  /** Where the parts of a text end in nothing or in a comment, stripping leaves them, but for
      spaces at the end; where they end in a quotation that never closes, it is refused. */
  lemma CommentsExactly(parts: seq<Part>, rest: string)
    requires Valid("", parts)
    ensures rest == "" || IsComment(Render(parts), rest) ==>
      WithoutComment(Render(parts) + rest) == Ok(RStrip(Render(parts)))
    ensures IsUnclosed(Render(parts), rest) ==>
      WithoutComment(Render(parts) + rest) == Err(UnterminatedQuote)
  {
    hide Valid, Render, IsComment, IsUnclosed, WithoutComment, WithoutCommentFrom;
    var text, n := Render(parts) + rest, |Render(parts)|;
    if MayFollow(Render(parts), rest) {
      ScansToRest(parts, rest);
      if rest == "" || IsComment(Render(parts), rest) { CommentStops(text, n); }
      if IsUnclosed(Render(parts), rest) { NonEmpty(Render(parts), rest); UnclosedRefused(text, n); }
    }
  }

  lemma NonEmpty(before: string, rest: string)
    requires IsUnclosed(before, rest)
    ensures rest != ""
  {
  }

  lemma UnclosedRefused(text: string, i: nat)
    requires i < |text| && IsUnclosed(text[..i], text[i..])
    ensures WithoutCommentFrom(text, i, Unquoted) == Err(UnterminatedQuote)
  {
    hide PairedQuotes, PairedEscapes, OpensQuote, StartsComment;
    OpensHere(text, i);
    var rest := text[i..];
    assert rest[0] == text[i] && rest[1..] == text[i + 1..];
    if text[i] == '\'' {
      SingleStaysOpen(text, i + 1);
    } else {
      if |rest| > 1 {
        assert rest[|rest| - 1] == text[|text| - 1];
        assert rest[1..|rest| - 1] == text[i + 1..|text| - 1];
      }
      DoubleStaysOpen(text, i + 1);
    }
  }

  // -- every text is such a text --------------------------------------------------------------

  /** How long the single-quoted body at `i` is, if it closes. */
  lemma {:induction false} SingleBody(text: string, i: nat) returns (n: Option<nat>)
    requires i <= |text|
    ensures n.None? ==> PairedQuotes(text[i..])
    ensures n.Some? ==>
      && i + n.value < |text| && text[i + n.value] == '\'' && PairedQuotes(text[i..i + n.value])
      && (i + n.value + 1 == |text| || text[i + n.value + 1] != '\'')
    decreases |text| - i
  {
    if i == |text| {
      n := None;
    } else if text[i] == '\'' && (i + 1 == |text| || text[i + 1] != '\'') {
      assert text[i..i] == "";
      n := Some(0);
    } else {
      var step := if text[i] == '\'' then 2 else 1;
      var more := SingleBody(text, i + step);
      assert text[i..][step..] == text[i + step..];
      if more.Some? {
        var m := step + more.value;
        assert text[i..i + m][step..] == text[i + step..i + m];
        n := Some(m);
      } else {
        n := None;
      }
    }
  }

  lemma {:induction false} DoubleBody(text: string, i: nat) returns (n: Option<nat>)
    requires i <= |text|
    ensures n.None? ==>
      PairedEscapes(text[i..]) || (i < |text| && text[|text| - 1] == '\\' && PairedEscapes(text[i..|text| - 1]))
    ensures n.Some? ==> i + n.value < |text| && text[i + n.value] == '"' && PairedEscapes(text[i..i + n.value])
    decreases |text| - i
  {
    if i == |text| {
      n := None;
    } else if text[i] == '"' {
      assert text[i..i] == "";
      n := Some(0);
    } else if text[i] == '\\' && i + 1 == |text| {
      assert text[i..|text| - 1] == "";
      n := None;
    } else {
      var step := if text[i] == '\\' then 2 else 1;
      var more := DoubleBody(text, i + step);
      assert text[i..][step..] == text[i + step..];
      if more.Some? {
        var m := step + more.value;
        assert text[i..i + m][step..] == text[i + step..i + m];
        n := Some(m);
      } else {
        if !PairedEscapes(text[i + step..]) { assert text[i..|text| - 1][step..] == text[i + step..|text| - 1]; }
        n := None;
      }
    }
  }

  /** `p` stands at `i` and may be passed over. */
  predicate PassesAt(text: string, i: nat, p: Part) {
    var next := i + |Written(p)|;
    && next <= |text| && text[i..next] == Written(p) && ValidPart(text[..i], p)
    && (p.InSingle? && next < |text| ==> text[next] != '\'')
  }

  lemma Enclosed(text: string, i: nat, n: nat)
    requires i + n + 1 < |text|
    ensures text[i..i + n + 2] == [text[i]] + (text[i + 1..i + 1 + n] + [text[i + 1 + n]])
  {
  }

  /** A closed quotation at `i` is a part. */
  lemma ClosedIsPart(text: string, i: nat, n: nat, p: Part)
    requires i + n + 1 < |text| && StartsValue(text[..i]) && text[i] == text[i + 1 + n]
    requires p == (if text[i] == '\'' then InSingle(text[i + 1..i + 1 + n]) else InDouble(text[i + 1..i + 1 + n]))
    requires if text[i] == '\'' then PairedQuotes(p.body) else text[i] == '"' && PairedEscapes(p.body)
    requires text[i] == '\'' && i + n + 2 < |text| ==> text[i + n + 2] != '\''
    ensures PassesAt(text, i, p)
  {
    hide PairedQuotes, PairedEscapes, StartsValue;
    Enclosed(text, i, n);
  }

  lemma SingleUnclosed(text: string, i: nat)
    requires i < |text| && text[i] == '\'' && StartsValue(text[..i]) && PairedQuotes(text[i + 1..])
    ensures IsUnclosed(text[..i], text[i..])
  {
    hide PairedQuotes, PairedEscapes, StartsValue;
    assert text[i..][0] == text[i] && text[i..][1..] == text[i + 1..];
  }

  lemma DoubleUnclosed(text: string, i: nat)
    requires i < |text| && text[i] == '"' && StartsValue(text[..i])
    requires PairedEscapes(text[i + 1..])
      || (i + 1 < |text| && text[|text| - 1] == '\\' && PairedEscapes(text[i + 1..|text| - 1]))
    ensures IsUnclosed(text[..i], text[i..])
  {
    hide PairedQuotes, PairedEscapes, StartsValue;
    var rest := text[i..];
    assert rest[0] == text[i] && rest[1..] == text[i + 1..];
    if |rest| > 1 {
      assert rest[|rest| - 1] == text[|text| - 1] && rest[1..|rest| - 1] == text[i + 1..|text| - 1];
    }
  }

  lemma SinglePartAt(text: string, i: nat) returns (p: Option<Part>)
    requires i < |text| && text[i] == '\'' && StartsValue(text[..i])
    ensures if p.None? then IsUnclosed(text[..i], text[i..]) else PassesAt(text, i, p.value)
  {
    hide *;
    var n := SingleBody(text, i + 1);
    if n.None? {
      SingleUnclosed(text, i);
      return None;
    }
    p := Some(InSingle(text[i + 1..i + 1 + n.value]));
    ClosedIsPart(text, i, n.value, p.value);
  }

  lemma DoublePartAt(text: string, i: nat) returns (p: Option<Part>)
    requires i < |text| && text[i] == '"' && StartsValue(text[..i])
    ensures if p.None? then IsUnclosed(text[..i], text[i..]) else PassesAt(text, i, p.value)
  {
    hide *;
    var n := DoubleBody(text, i + 1);
    if n.None? {
      DoubleUnclosed(text, i);
      return None;
    }
    p := Some(InDouble(text[i + 1..i + 1 + n.value]));
    ClosedIsPart(text, i, n.value, p.value);
  }

  /** The part that stands at `i`, unless a comment or an unclosed quotation does. */
  lemma PartAt(text: string, i: nat) returns (p: Option<Part>)
    requires i < |text|
    ensures if p.None? then IsComment(text[..i], text[i..]) || IsUnclosed(text[..i], text[i..])
            else PassesAt(text, i, p.value)
  {
    hide StartsValue, AfterSpace, IsUnclosed;
    if text[i] == '\'' && StartsValue(text[..i]) {
      p := SinglePartAt(text, i);
    } else if text[i] == '"' && StartsValue(text[..i]) {
      p := DoublePartAt(text, i);
    } else if text[i] == '#' && AfterSpace(text[..i]) {
      p := None;
    } else {
      p := Some(Bare(text[i]));
    }
  }

  lemma BareQuoteShows(parts: seq<Part>)
    requires parts != [] && parts[0] == Bare('\'')
    ensures Render(parts) != "" && Render(parts)[0] == '\''
  {
  }

  /** One more part in front. */
  lemma OneMorePart(text: string, i: nat, p: Part, more: seq<Part>, rest: string)
    requires PassesAt(text, i, p)
    requires var next := i + |Written(p)|; StandsAt(text, next, Render(more), rest) && Valid(text[..next], more)
    ensures Valid(text[..i], [p] + more) && StandsAt(text, i, Render([p] + more), rest)
    ensures text[..i] + Render([p] + more) == text[..i + |Written(p)|] + Render(more)
  {
    hide ValidPart, Written;
    var w := Written(p);
    var next := i + |w|;
    assert text[..next] == text[..i] + w;
    assert text[i..] == text[i..next] + text[next..];
    assert ([p] + more)[1..] == more;
    assert w + (Render(more) + rest) == w + Render(more) + rest;
    if more != [] && more[0] == Bare('\'') {
      BareQuoteShows(more);
      assert text[next..][0] == '\'' && text[next] == text[next..][0];
    }
  }

  lemma {:induction false} PartsFrom(text: string, i: nat) returns (parts: seq<Part>, rest: string)
    requires i <= |text|
    ensures Valid(text[..i], parts) && StandsAt(text, i, Render(parts), rest)
    ensures rest == "" || IsComment(text[..i] + Render(parts), rest) || IsUnclosed(text[..i] + Render(parts), rest)
    decreases |text| - i
  {
    hide ValidPart, IsComment, IsUnclosed;
    parts, rest := [], text[i..];
    assert text[..i] + "" == text[..i];
    if i < |text| {
      var p := PartAt(text, i);
      if p.Some? {
        var more, end := PartsFrom(text, i + |Written(p.value)|);
        OneMorePart(text, i, p.value, more, end);
        parts, rest := [p.value] + more, end;
      }
    }
  }

  /** Every text is parts, followed by nothing, a comment, or a quotation that never closes. */
  lemma EveryTextHasParts(text: string) returns (parts: seq<Part>, rest: string)
    ensures Valid("", parts) && text == Render(parts) + rest
    ensures rest == "" || IsComment(Render(parts), rest) || IsUnclosed(Render(parts), rest)
  {
    assert text[..0] == "" && text[0..] == text;
    parts, rest := PartsFrom(text, 0);
    assert "" + Render(parts) == Render(parts);
  }
}
