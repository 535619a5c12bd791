/** What a plain scalar and a mapping entry may look like, read word by word. */
module YamlWords {
  import opened Wrappers
  import opened YamlText
  import opened YamlScalars

  // -- words ----------------------------------------------------------------------------------

  /** How many characters stand before the first space. */
  function WordLength(s: string): (n: nat)
    ensures n <= |s| && (n < |s| ==> IsSpace(s[n]))
    ensures forall i | 0 <= i < n :: !IsSpace(s[i])
  {
    if s == "" || IsSpace(s[0]) then 0 else 1 + WordLength(s[1..])
  }

  /** The words of a text, without the spaces around them. */
  function Words(s: string): (r: seq<string>)
    ensures forall k | 0 <= k < |r| :: r[k] != ""
  {
    if s == "" then []
    else if IsSpace(s[0]) then Words(s[1..])
    else [s[..WordLength(s)]] + Words(s[WordLength(s)..])
  }

  /** An anchor or an alias is `&` or `*` and a name, a tag is `!` and anything. */
  predicate IsProperty(word: string) {
    && |word| > 1
    && (word[0] == '!' || (word[0] in "&*" && forall i | 0 < i < |word| :: IsKeyChar(word[i])))
  }

  predicate EndsInColon(word: string) {
    word != "" && word[|word| - 1] == ':'
  }

  predicate PropertyAt(s: string, i: nat)
    requires i < |s|
  {
    IsAnchorAt(s, i) || IsTagAt(s, i)
  }

  predicate ColonAt(s: string, i: nat)
    requires i < |s|
  {
    s[i] == ':' && (i + 1 == |s| || IsSpace(s[i + 1]))
  }

  predicate SameFrom(s: string, i: nat, t: string, k: nat) {
    i <= |s| && k <= |t| && s[i..] == t[k..]
  }

  lemma AnchorMoves(s: string, i: nat, t: string, k: nat)
    requires i < |s| && k < |t| && SameFrom(s, i, t, k) && IsAnchorAt(s, i) && AtWordStart(t, k)
    ensures IsAnchorAt(t, k)
  {
    var j: nat :| i + 1 < j <= |s| && NameEndsAt(s, i, j);
    forall m | k <= m < |t| ensures t[m] == s[m - k + i] { assert t[k..][m - k] == s[i..][m - k]; }
    assert NameEndsAt(t, k, j - i + k);
  }

  /** Leaving out the front does not matter where a word starts or a space stands. */
  lemma FrontDoesNotMatter(s: string, n: nat, i: nat)
    requires n <= i < |s| && (n == 0 || IsSpace(s[n - 1]) || IsSpace(s[n]))
    ensures PropertyAt(s, i) == PropertyAt(s[n..], i - n) && ColonAt(s, i) == ColonAt(s[n..], i - n)
  {
    hide IsAnchorAt;
    var t, k := s[n..], i - n;
    assert s[i..] == t[k..] && s[i] == t[k];
    if i > n { assert s[i - 1] == t[k - 1]; }
    if i + 1 < |s| { assert s[i + 1] == t[k + 1]; }
    if IsSpace(s[i]) {
      SpaceIsNoProperty(s, i);
      SpaceIsNoProperty(t, k);
    } else {
      AnchorStarts(s, i);
      AnchorStarts(t, k);
      if IsAnchorAt(s, i) { AnchorMoves(s, i, t, k); }
      if IsAnchorAt(t, k) && AtWordStart(s, i) { AnchorMoves(t, k, s, i); }
    }
  }

  lemma SpaceIsNoProperty(s: string, i: nat)
    requires i < |s| && IsSpace(s[i])
    ensures !PropertyAt(s, i)
  {
  }

  lemma AnchorStarts(s: string, i: nat)
    requires i < |s|
    ensures IsAnchorAt(s, i) ==> AtWordStart(s, i)
  {
  }

  lemma AnchorAtStart(s: string)
    requires s != "" && WordLength(s) > 0
    ensures IsAnchorAt(s, 0) <==>
      var word := s[..WordLength(s)]; |word| > 1 && word[0] in "&*" && forall i | 0 < i < |word| :: IsKeyChar(word[i])
  {
    var n := WordLength(s);
    var word := s[..n];
    if IsAnchorAt(s, 0) {
      var j: nat :| 1 < j <= |s| && NameEndsAt(s, 0, j);
      assert n <= j;
      assert n < j ==> IsKeyChar(s[n]);
    }
    if n > 1 && word[0] in "&*" && forall i | 0 < i < n :: IsKeyChar(word[i]) {
      assert forall m | 0 < m < n :: s[m] == word[m];
      assert NameEndsAt(s, 0, n);
    }
  }

  /** In the first word a property can only stand at its start and a colon at its end. */
  lemma FirstWord(s: string, i: nat)
    requires s != "" && i < WordLength(s)
    ensures PropertyAt(s, i) == (i == 0 && IsProperty(s[..WordLength(s)]))
    ensures ColonAt(s, i) == (i == WordLength(s) - 1 && EndsInColon(s[..WordLength(s)]))
  {
    hide IsAnchorAt;
    AnchorStarts(s, i);
    if i == 0 {
      AnchorAtStart(s);
    } else {
      assert !IsSpace(s[i - 1]);
    }
  }

  ghost predicate AnyPropertyOrColon(s: string) {
    exists i | 0 <= i < |s| :: PropertyAt(s, i) || ColonAt(s, i)
  }

  ghost predicate AnyBadWord(words: seq<string>) {
    exists k | 0 <= k < |words| :: IsProperty(words[k]) || EndsInColon(words[k])
  }

  lemma {:induction false} WordsShowThem(s: string)
    ensures AnyPropertyOrColon(s) <==> AnyBadWord(Words(s))
  {
    if s != "" {
      var n := if IsSpace(s[0]) then 1 else WordLength(s);
      var t, words := s[n..], Words(s[n..]);
      WordsShowThem(t);
      forall i | n <= i < |s|
        ensures (PropertyAt(s, i) || ColonAt(s, i)) == (PropertyAt(t, i - n) || ColonAt(t, i - n))
      {
        FrontDoesNotMatter(s, n, i);
      }
      FrontOrRest(s, n);
      if !IsSpace(s[0]) {
        forall i | 0 <= i < n
          ensures (PropertyAt(s, i) || ColonAt(s, i)) ==> IsProperty(s[..n]) || EndsInColon(s[..n])
        {
          FirstWord(s, i);
        }
        FirstWord(s, 0);
        FirstWord(s, n - 1);
        HeadOrTail(s[..n], words);
      }
    }
  }

  lemma FrontOrRest(s: string, n: nat)
    requires n <= |s|
    requires forall i | n <= i < |s| ::
      (PropertyAt(s, i) || ColonAt(s, i)) == (PropertyAt(s[n..], i - n) || ColonAt(s[n..], i - n))
    ensures AnyPropertyOrColon(s) <==>
      (AnyPropertyOrColon(s[n..]) || exists i | 0 <= i < n :: PropertyAt(s, i) || ColonAt(s, i))
  {
    var t := s[n..];
    if AnyPropertyOrColon(t) {
      var i :| 0 <= i < |t| && (PropertyAt(t, i) || ColonAt(t, i));
      assert PropertyAt(s, i + n) || ColonAt(s, i + n);
    }
  }

  lemma HeadOrTail(word: string, words: seq<string>)
    ensures AnyBadWord([word] + words) <==> IsProperty(word) || EndsInColon(word) || AnyBadWord(words)
  {
    if AnyBadWord(words) {
      var k :| 0 <= k < |words| && (IsProperty(words[k]) || EndsInColon(words[k]));
      assert ([word] + words)[k + 1] == words[k];
    }
    if IsProperty(word) || EndsInColon(word) {
      assert ([word] + words)[0] == word;
    }
  }

  // -- plain scalars --------------------------------------------------------------------------

  /** A plain scalar is accepted exactly when it starts with no indicator, no word of it ends
      in a colon and no word of it is an anchor, an alias or a tag; it stands for itself. */
  lemma PlainExactly(s: string)
    requires s != ""
    ensures PlainScalar(s).Ok? <==>
      && s[0] !in "#]},%@`&*!|>{" && !StartsWith(s, "- ") && !StartsWith(s, "? ")
      && forall k | 0 <= k < |Words(s)| :: !EndsInColon(Words(s)[k]) && !IsProperty(Words(s)[k])
    ensures PlainScalar(s).Ok? ==> PlainScalar(s).value == Scalar(s, Plain)
  {
    hide IsAnchorAt, IsTagAt, Words, IsProperty, EndsInColon, StartsWith;
    WordsShowThem(s);
    EitherIsRefused(s);
    StartsIn(s);
  }

  lemma EitherIsRefused(s: string)
    ensures AnyPropertyOrColon(s) <==> HasColonSpace(s) || HasProperty(s)
  {
    hide IsAnchorAt, IsTagAt;
    if HasColonSpace(s) {
      var i :| 0 <= i < |s| && s[i] == ':' && (i + 1 == |s| || IsSpace(s[i + 1]));
      assert ColonAt(s, i);
    }
    if HasProperty(s) {
      var i :| 0 <= i < |s| && (IsAnchorAt(s, i) || IsTagAt(s, i));
      assert PropertyAt(s, i);
    }
    if AnyPropertyOrColon(s) {
      var i :| 0 <= i < |s| && (PropertyAt(s, i) || ColonAt(s, i));
      assert ColonAt(s, i) ==> HasColonSpace(s);
    }
  }

  lemma StartsIn(s: string)
    requires s != ""
    ensures s[0] in "#]},%@`|>{" <==>
      || StartsWith(s, "#") || StartsWith(s, "]") || StartsWith(s, "}") || StartsWith(s, ",") || StartsWith(s, "%")
      || StartsWith(s, "@") || StartsWith(s, "`") || StartsWith(s, "|") || StartsWith(s, ">") || StartsWith(s, "{")
    ensures StartsWith(s, ": ") ==> HasColonSpace(s)
  {
    if StartsWith(s, ": ") { assert s[0] == ':' && s[1] == ' '; }
  }

  // -- mapping entries ------------------------------------------------------------------------

  predicate AllSpaces(s: string) {
    forall i | 0 <= i < |s| :: IsSpace(s[i])
  }

  /** A key, a colon, and a value on the same line set off by at least one space. */
  predicate IsEntry(key: string, gap: string, value: string) {
    && IsKey(key) && AllSpaces(gap) && (gap == "" ==> value == "")
    && (value != "" ==> !IsSpace(value[0])) && '\n' !in value
  }

  lemma {:induction false} StripsGap(gap: string, value: string)
    requires AllSpaces(gap) && (value != "" ==> !IsSpace(value[0]))
    ensures LStrip(gap + value) == value
  {
    if gap == "" {
      assert gap + value == value;
    } else {
      assert (gap + value)[1..] == gap[1..] + value;
      StripsGap(gap[1..], value);
    }
  }

  lemma {:induction false} FindsColon(key: string, rest: string)
    requires ':' !in key
    ensures Find(key + ":" + rest, ':') == |key|
  {
    var text := key + ":" + rest;
    assert text[|key|] == ':';
    assert forall i | 0 <= i < |key| :: text[i] == key[i];
  }

  /** Every entry is read as its key and value. */
  lemma EntryReads(key: string, gap: string, value: string)
    requires IsEntry(key, gap, value)
    ensures MappingParts(key + ":" + gap + value) == Ok((key, value))
  {
    var text := key + ":" + (gap + value);
    assert text == key + ":" + gap + value;
    FindsColon(key, gap + value);
    StripsGap(gap, value);
    assert text[|key| + 1..] == gap + value && text[..|key|] == key;
    assert text[0] == key[0];
    if gap != "" { assert text[|key| + 1] == gap[0]; }
  }

  /** Nothing else is read as an entry. */
  lemma OnlyEntriesRead(text: string) returns (gap: string)
    requires MappingParts(text).Ok?
    ensures var (key, value) := MappingParts(text).value;
      IsEntry(key, gap, value) && text == key + ":" + gap + value
  {
    var k := Find(text, ':');
    var rest := text[k + 1..];
    var value := LStrip(rest);
    LStripSuffix(rest);
    gap := rest[..|rest| - |value|];
    FrontIsSpaces(rest);
    assert rest == gap + value;
    assert text == text[..k] + [text[k]] + rest;
    assert rest != "" ==> rest[0] == text[k + 1];
  }

  lemma {:induction false} FrontIsSpaces(s: string)
    ensures |LStrip(s)| <= |s| && AllSpaces(s[..|s| - |LStrip(s)|])
  {
    if s != "" && IsSpace(s[0]) {
      FrontIsSpaces(s[1..]);
      var front := s[..|s| - |LStrip(s)|];
      assert front == [s[0]] + s[1..][..|s[1..]| - |LStrip(s[1..])|];
    } else {
      assert s[..0] == "";
    }
  }
}
