/** Field names on the wire: the words of a snake_case name joined in camelCase. */
module CamelCase {

  predicate IsLower(c: char) { 'a' <= c <= 'z' }

  predicate IsDigit(c: char) { '0' <= c <= '9' }

  predicate IsUpper(c: char) { 'A' <= c <= 'Z' }

  function Upper(c: char): char {
    if IsLower(c) then (c as int - 32) as char else c
  }

  function Lower(c: char): char
    requires IsUpper(c)
  {
    (c as int + 32) as char
  }

  /** The pieces of `name` between underscores. */
  function Words(name: string): (words: seq<string>)
    ensures words != []
  {
    if name == "" then [""]
    else
      var rest := Words(name[1..]);
      if name[0] == '_' then [""] + rest else [[name[0]] + rest[0]] + rest[1..]
  }

  function Capitalised(word: string): string {
    if word == "" then "" else [Upper(word[0])] + word[1..]
  }

  function JoinCapitalised(words: seq<string>): string {
    if words == [] then "" else Capitalised(words[0]) + JoinCapitalised(words[1..])
  }

  function ToCamel(name: string): string {
    var words := Words(name);
    words[0] + JoinCapitalised(words[1..])
  }

  // -- reading it back --------------------------------------------------------------------

  /** Field names of the wire types: lower-case letters, digits and underscores. */
  predicate IsSnake(name: string) {
    forall i | 0 <= i < |name| :: IsLower(name[i]) || IsDigit(name[i]) || name[i] == '_'
  }

  /** Every underscore starts a word with a letter to capitalise. */
  predicate WordsStartWithLetters(name: string) {
    forall i | 0 <= i < |name| && name[i] == '_' :: i + 1 < |name| && IsLower(name[i + 1])
  }

  /** The name without the underscores that capitalise nothing. */
  function Squash(name: string): string {
    if name == "" then ""
    else if name[0] == '_' && !(|name| > 1 && IsLower(name[1])) then Squash(name[1..])
    else [name[0]] + Squash(name[1..])
  }

  function ToSnake(camel: string): string {
    if camel == "" then ""
    else (if IsUpper(camel[0]) then ['_', Lower(camel[0])] else [camel[0]]) + ToSnake(camel[1..])
  }

  lemma CamelOfLetter(c: char, s: string)
    requires c != '_'
    ensures ToCamel([c] + s) == [c] + ToCamel(s)
  {
    assert ([c] + s)[1..] == s;
  }

  lemma CamelAfterUnderscore(s: string)
    ensures ToCamel("_" + s) == JoinCapitalised(Words(s))
  {
    assert ("_" + s)[1..] == s;
    assert ([""] + Words(s))[1..] == Words(s);
  }

  lemma JoinUnfolds(words: seq<string>)
    requires words != []
    ensures JoinCapitalised(words) == Capitalised(words[0]) + JoinCapitalised(words[1..])
  {
  }

  lemma CapitalisedLetter(c: char, word: string)
    ensures Capitalised([c] + word) == [Upper(c)] + word
  {
    assert ([c] + word)[1..] == word;
  }

  lemma JoinOfEmptyWord(s: string)
    requires s == "" || s[0] == '_'
    ensures JoinCapitalised(Words(s)) == ToCamel(s)
  {
    assert Words(s)[0] == "";
    JoinUnfolds(Words(s));
  }

  lemma WordsOfLetter(c: char, s: string)
    requires c != '_'
    ensures Words([c] + s) == [[c] + Words(s)[0]] + Words(s)[1..]
  {
    assert ([c] + s)[1..] == s;
  }

  lemma JoinOfLetter(c: char, s: string)
    requires c != '_'
    ensures JoinCapitalised(Words([c] + s)) == [Upper(c)] + ToCamel(s)
  {
    WordsOfLetter(c, s);
    JoinOfHead(c, Words(s)[0], Words(s)[1..]);
  }

  lemma Concat(a: string, b: string, c: string)
    ensures (a + b) + c == a + (b + c)
  {
  }

  lemma JoinOfHead(c: char, word: string, words: seq<string>)
    ensures JoinCapitalised([[c] + word] + words) == [Upper(c)] + (word + JoinCapitalised(words))
  {
    var all := [[c] + word] + words;
    assert all[0] == [c] + word && all[1..] == words;
    JoinUnfolds(all);
    CapitalisedLetter(c, word);
    Concat([Upper(c)], word, JoinCapitalised(words));
  }

  lemma CamelOfUnderscore(s: string)
    ensures ToCamel("_" + s) == if s == "" || s[0] == '_' then ToCamel(s) else [Upper(s[0])] + ToCamel(s[1..])
  {
    CamelAfterUnderscore(s);
    if s == "" || s[0] == '_' {
      JoinOfEmptyWord(s);
    } else {
      JoinOfLetter(s[0], s[1..]);
      assert [s[0]] + s[1..] == s;
    }
  }

  lemma SnakeUnfolds(c: char, s: string)
    ensures ToSnake([c] + s) == (if IsUpper(c) then ['_', Lower(c)] else [c]) + ToSnake(s)
  {
    assert ([c] + s)[1..] == s;
  }

  lemma SquashUnfolds(c: char, s: string)
    ensures Squash([c] + s) == if c == '_' && !(s != "" && IsLower(s[0])) then Squash(s) else [c] + Squash(s)
  {
    assert ([c] + s)[1..] == s;
  }

  /** Reading a camelCase name back gives the snake_case name, up to underscores that the
      encoding drops. */
  lemma {:induction false} SnakeOfCamel(name: string)
    requires IsSnake(name)
    ensures ToSnake(ToCamel(name)) == Squash(name)
    decreases |name|
  {
    if name != "" {
      var c, rest := name[0], name[1..];
      assert name == [c] + rest;
      SnakeOfCamel(rest);
      SquashUnfolds(c, rest);
      if c != '_' {
        CamelOfLetter(c, rest);
        SnakeUnfolds(c, ToCamel(rest));
      } else {
        CamelOfUnderscore(rest);
        if rest != "" && rest[0] != '_' {
          assert rest == [rest[0]] + rest[1..];
          CamelOfLetter(rest[0], rest[1..]);
          SnakeOfCapital(rest[0], ToCamel(rest[1..]));
        }
      }
    }
  }

  lemma UpperThenLower(c: char)
    requires IsLower(c) || IsDigit(c)
    ensures if IsLower(c) then IsUpper(Upper(c)) && Lower(Upper(c)) == c else !IsUpper(Upper(c)) && Upper(c) == c
    ensures !IsUpper(c)
  {
  }

  /** A capitalised letter reads back with an underscore, a digit without. */
  lemma SnakeOfCapital(c: char, rest: string)
    requires IsLower(c) || IsDigit(c)
    ensures ToSnake([Upper(c)] + rest) == if IsLower(c) then "_" + ToSnake([c] + rest) else ToSnake([c] + rest)
  {
    UpperThenLower(c);
    SnakeUnfolds(c, rest);
    SnakeUnfolds(Upper(c), rest);
    assert ['_', c] == "_" + [c];
    Concat("_", [c], ToSnake(rest));
  }

  /** The underscores dropped by `Squash` do not show on the wire. */
  lemma {:induction false} CamelOfSquash(name: string)
    requires IsSnake(name)
    ensures ToCamel(Squash(name)) == ToCamel(name)
    decreases |name|
  {
    if name == "" {
    } else {
      var rest := name[1..];
      assert name == [name[0]] + rest;
      CamelOfSquash(rest);
      if name[0] != '_' {
        CamelOfLetter(name[0], rest);
        CamelOfLetter(name[0], Squash(rest));
      } else {
        CamelOfUnderscore(rest);
        if rest != "" && rest[0] != '_' {
          assert rest == [rest[0]] + rest[1..];
          CamelOfLetter(rest[0], rest[1..]);
          if IsLower(rest[0]) {
            CamelOfSquash(rest[1..]);
            CamelOfUnderscore(Squash(rest));
            assert Squash(rest) == [rest[0]] + Squash(rest[1..]);
            assert Squash(rest)[1..] == Squash(rest[1..]);
          }
        }
      }
    }
  }

  /** Two field names share a wire key exactly when they differ only in dropped underscores. */
  lemma SameKeyIff(a: string, b: string)
    requires IsSnake(a) && IsSnake(b)
    ensures ToCamel(a) == ToCamel(b) <==> Squash(a) == Squash(b)
  {
    SnakeOfCamel(a);
    SnakeOfCamel(b);
    CamelOfSquash(a);
    CamelOfSquash(b);
  }

  lemma {:induction false} SquashKeepsWords(name: string)
    ensures Squash(name) == name <==> WordsStartWithLetters(name)
    ensures |Squash(name)| <= |name|
  {
    if name != "" {
      var rest := name[1..];
      SquashKeepsWords(rest);
      assert name == [name[0]] + rest;
      assert forall i | 0 <= i < |rest| :: rest[i] == name[i + 1];
      if WordsStartWithLetters(name) {
        assert WordsStartWithLetters(rest);
        assert Squash(name) == [name[0]] + rest;
      } else if Squash(name) == name {
        assert Squash(name)[1..] == rest;
        forall i | 0 <= i < |name| && name[i] == '_'
          ensures i + 1 < |name| && IsLower(name[i + 1])
        {
          if i > 0 { assert rest[i - 1] == '_'; }
        }
      }
    }
  }

  /** camelCase is injective on names whose later words start with a letter, and on those
      names it is undone by `ToSnake`. */
  lemma CamelIsInjective(a: string, b: string)
    requires IsSnake(a) && IsSnake(b) && WordsStartWithLetters(a) && WordsStartWithLetters(b)
    ensures ToCamel(a) == ToCamel(b) ==> a == b
    ensures ToSnake(ToCamel(a)) == a
  {
    SquashKeepsWords(a);
    SquashKeepsWords(b);
    SameKeyIff(a, b);
    SnakeOfCamel(a);
  }

  // -- no underscores -----------------------------------------------------------------------

  lemma {:induction false} WordsHaveNoUnderscore(name: string)
    ensures forall w | w in Words(name) :: '_' !in w
  {
    if name != "" {
      WordsHaveNoUnderscore(name[1..]);
      var rest := Words(name[1..]);
      assert rest[0] in rest && forall w | w in rest[1..] :: w in rest;
    }
  }

  lemma {:induction false} JoinHasNoUnderscore(words: seq<string>)
    requires forall w | w in words :: '_' !in w
    ensures '_' !in JoinCapitalised(words)
  {
    if words != [] {
      var word := words[0];
      assert word in words;
      if word != "" { assert word[0] in word && forall c | c in word[1..] :: c in word; }
      JoinHasNoUnderscore(words[1..]);
    }
  }

  /** No wire key has an underscore. */
  lemma CamelHasNoUnderscore(name: string)
    ensures '_' !in ToCamel(name)
  {
    var words := Words(name);
    WordsHaveNoUnderscore(name);
    assert words[0] in words && forall w | w in words[1..] :: w in words;
    JoinHasNoUnderscore(words[1..]);
  }

  lemma {:induction false} SnakeIsInjective(x: string, y: string)
    requires '_' !in x && '_' !in y && ToSnake(x) == ToSnake(y)
    ensures x == y
  {
    if x == "" || y == "" {
      assert x == y;
    } else {
      SnakeHead(x);
      SnakeHead(y);
      SnakeIsInjective(x[1..], y[1..]);
      assert x == [x[0]] + x[1..] && y == [y[0]] + y[1..];
    }
  }

  lemma SnakeHead(x: string)
    requires x != "" && '_' !in x
    ensures var s := ToSnake(x);
      if IsUpper(x[0]) then |s| >= 2 && s[0] == '_' && s[1] == Lower(x[0]) && s[2..] == ToSnake(x[1..])
      else |s| >= 1 && s[0] == x[0] && s[0] != '_' && s[1..] == ToSnake(x[1..])
    ensures '_' !in x[1..]
  {
    assert x[0] in x;
  }

  /** The wire key of a field is the one key without underscores that reads back as its name. */
  lemma CamelExactly(name: string, key: string)
    requires IsSnake(name)
    ensures key == ToCamel(name) <==> '_' !in key && ToSnake(key) == Squash(name)
  {
    SnakeOfCamel(name);
    CamelHasNoUnderscore(name);
    if '_' !in key && ToSnake(key) == Squash(name) { SnakeIsInjective(key, ToCamel(name)); }
  }
}
