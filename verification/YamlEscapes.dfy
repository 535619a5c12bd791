/** Double-quoted scalars are JSON strings: what each escape stands for, and that nothing
    else is accepted. */
module YamlEscapes {
  import opened Wrappers
  import opened YamlText
  import opened YamlScalars

  /** One written element of a JSON string. `caps` says which hexadecimal digits are upper case. */
  datatype Unit =
    | Raw(code: int)
    | Short(code: int)
    | Hex(code: int, caps: seq<bool>)
    | Pair(code: int, caps: seq<bool>)

  predicate IsSurrogate(n: int) {
    0xD800 <= n <= 0xDFFF
  }

  predicate ValidUnit(u: Unit) {
    match u
    case Raw(n) => 0x20 <= n < 0x110000 && !IsSurrogate(n) && n != '"' as int && n != '\\' as int
    case Short(n) => n in [0x22, 0x5C, 0x2F, 0x08, 0x0C, 0x0A, 0x0D, 0x09]
    case Hex(n, caps) => 0 <= n < 0x10000 && |caps| == 4
    case Pair(n, caps) => 0x10000 <= n < 0x110000 && |caps| == 8
  }

  function Digit(d: int, cap: bool): char
    requires 0 <= d < 16
  {
    if cap then "0123456789ABCDEF"[d] else "0123456789abcdef"[d]
  }

  /** The four hexadecimal digits of `n`. */
  function Digits(n: int, caps: seq<bool>): (r: string)
    requires 0 <= n < 0x10000 && |caps| == 4
    ensures |r| == 4
  {
    [Digit(n / 0x1000, caps[0]), Digit(n / 0x100 % 0x10, caps[1]), Digit(n / 0x10 % 0x10, caps[2]), Digit(n % 0x10, caps[3])]
  }

  function Letter(n: int): char {
    if n == 0x08 then 'b' else if n == 0x0C then 'f' else if n == 0x0A then 'n'
    else if n == 0x0D then 'r' else if n == 0x09 then 't'
    else if n == 0x22 then '"' else if n == 0x2F then '/' else '\\'
  }

  function HighOf(n: int): int { 0xD800 + (n - 0x10000) / 0x400 }

  function LowOf(n: int): int { 0xDC00 + (n - 0x10000) % 0x400 }

  function Written(u: Unit): (r: string)
    requires ValidUnit(u)
  {
    match u
    case Raw(n) => [n as char]
    case Short(n) => ['\\', Letter(n)]
    case Hex(n, caps) => "\\u" + Digits(n, caps)
    case Pair(n, caps) => "\\u" + Digits(HighOf(n), caps[..4]) + ("\\u" + Digits(LowOf(n), caps[4..]))
  }

  /** Every element is written correctly, and no two `\u` escapes fall together into a pair. */
  predicate ValidUnits(units: seq<Unit>) {
    units == [] || (ValidUnit(units[0]) && ValidUnits(units[1..]) && !SplitsPair(units))
  }

  predicate SplitsPair(units: seq<Unit>) {
    |units| > 1 && units[0].Hex? && units[1].Hex? && IsHigh(units[0].code) && IsLow(units[1].code)
  }

  function Text(units: seq<Unit>): string
    requires ValidUnits(units)
  {
    if units == [] then "" else Written(units[0]) + Text(units[1..])
  }

  function CodesOf(units: seq<Unit>): (r: seq<int>)
    ensures |r| == |units| && forall k | 0 <= k < |r| :: r[k] == units[k].code
  {
    if units == [] then [] else [units[0].code] + CodesOf(units[1..])
  }

  // -- hexadecimal digits ---------------------------------------------------------------------

  lemma DigitReads(d: int, cap: bool)
    requires 0 <= d < 16
    ensures HexDigit(Digit(d, cap)) == Some(d)
    ensures Digit(d, cap) != '"' && Digit(d, cap) != '\\'
  {
    match d
    case 0 => case 1 => case 2 => case 3 => case 4 => case 5 => case 6 => case 7 =>
    case 8 => case 9 => case 10 => case 11 => case 12 => case 13 => case 14 => case 15 =>
    case _ => assert false;
  }

  lemma DigitOf(c: char) returns (cap: bool)
    requires HexDigit(c).Some?
    ensures Digit(HexDigit(c).value, cap) == c
  {
    cap := 'A' <= c <= 'F';
    match HexDigit(c).value
    case 0 => case 1 => case 2 => case 3 => case 4 => case 5 => case 6 => case 7 =>
    case 8 => case 9 => case 10 => case 11 => case 12 => case 13 => case 14 => case 15 =>
    case _ => assert false;
  }

  lemma SplitDigits(n: int)
    requires 0 <= n < 0x10000
    ensures ((n / 0x1000 * 16 + n / 0x100 % 0x10) * 16 + n / 0x10 % 0x10) * 16 + n % 0x10 == n
    ensures n / 0x1000 < 16
  {
    assert n / 0x100 == n / 0x1000 * 16 + n / 0x100 % 0x10;
    assert n / 0x10 == n / 0x100 * 16 + n / 0x10 % 0x10;
  }

  lemma JoinDigits(a: int, b: int, c: int, d: int)
    requires 0 <= a < 16 && 0 <= b < 16 && 0 <= c < 16 && 0 <= d < 16
    ensures var n := ((a * 16 + b) * 16 + c) * 16 + d;
      0 <= n < 0x10000 && n / 0x1000 == a && n / 0x100 % 0x10 == b && n / 0x10 % 0x10 == c && n % 0x10 == d
  {
    var n := ((a * 16 + b) * 16 + c) * 16 + d;
    assert n / 0x10 == (a * 16 + b) * 16 + c;
    assert n / 0x100 == a * 16 + b;
  }

  lemma DigitsRead(text: string, i: nat, n: int, caps: seq<bool>, rest: string)
    requires 0 <= n < 0x10000 && |caps| == 4 && StandsAt(text, i, Digits(n, caps), rest)
    ensures Hex4(text, i) == Some(n)
    ensures i + 4 <= |text| && text[i + 4..] == rest
    ensures forall k | i <= k < i + 4 :: text[k] != '"' && text[k] != '\\'
  {
    hide HexDigit, Digit;
    var s := Digits(n, caps);
    SplitDigits(n);
    Pass(text, i, s, rest);
    DigitReads(n / 0x1000, caps[0]);
    DigitReads(n / 0x100 % 0x10, caps[1]);
    DigitReads(n / 0x10 % 0x10, caps[2]);
    DigitReads(n % 0x10, caps[3]);
    assert text[i] == text[i..][0] == s[0];
    assert text[i + 1] == text[i..][1] == s[1];
    assert text[i + 2] == text[i..][2] == s[2];
    assert text[i + 3] == text[i..][3] == s[3];
  }

  lemma DigitsOf(text: string, i: nat) returns (caps: seq<bool>)
    requires Hex4(text, i).Some?
    ensures |caps| == 4 && text[i..i + 4] == Digits(Hex4(text, i).value, caps)
  {
    hide HexDigit, Digit;
    var a := DigitOf(text[i]);
    var b := DigitOf(text[i + 1]);
    var c := DigitOf(text[i + 2]);
    var d := DigitOf(text[i + 3]);
    caps := [a, b, c, d];
    JoinDigits(HexDigit(text[i]).value, HexDigit(text[i + 1]).value,
               HexDigit(text[i + 2]).value, HexDigit(text[i + 3]).value);
  }

  // -- reading one element --------------------------------------------------------------------

  lemma {:induction false} PlainIsInside(text: string, i: nat, n: nat)
    requires i + n <= |text| && forall k | i <= k < i + n :: text[k] != '"' && text[k] != '\\'
    ensures Closing(text, i, Double) == Closing(text, i + n, Double)
    decreases n
  {
    if n > 0 { PlainIsInside(text, i + 1, n - 1); }
  }

  /** The six characters of a `\u` escape. */
  lemma EscapeStands(text: string, i: nat, n: int, caps: seq<bool>, rest: string)
    requires 0 <= n < 0x10000 && |caps| == 4 && StandsAt(text, i, "\\u" + Digits(n, caps), rest)
    ensures i + 6 <= |text| && text[i] == '\\' && text[i + 1] == 'u' && Hex4(text, i + 2) == Some(n)
    ensures text[i + 6..] == rest && Closing(text, i, Double) == Closing(text, i + 6, Double)
  {
    hide Hex4, Digits;
    var digits := Digits(n, caps);
    assert "\\u" + digits == ['\\'] + (['u'] + digits);
    Peel(text, i, '\\', ['u'] + digits, rest);
    Peel(text, i + 1, 'u', digits, rest);
    DigitsRead(text, i + 2, n, caps, rest);
    PlainIsInside(text, i + 2, 4);
  }

  /** What scanning one element means for the rest of the text. */
  predicate Scans(text: string, i: nat, u: Unit)
    requires ValidUnit(u)
  {
    var next := i + |Written(u)|;
    && JsonCodes(text, i) == Prepend(u.code, JsonCodes(text, next))
    && Closing(text, i, Double) == Closing(text, next, Double)
  }

  lemma RawScans(text: string, i: nat, u: Unit, rest: string)
    requires u.Raw? && ValidUnit(u) && StandsAt(text, i, Written(u), rest)
    ensures Scans(text, i, u)
  {
    assert Written(u) == [u.code as char] + "";
    Peel(text, i, u.code as char, "", rest);
  }

  lemma ShortScans(text: string, i: nat, u: Unit, rest: string)
    requires u.Short? && ValidUnit(u) && StandsAt(text, i, Written(u), rest)
    ensures Scans(text, i, u)
  {
    var c := Letter(u.code);
    assert Written(u) == ['\\'] + ([c] + "");
    Peel(text, i, '\\', [c] + "", rest);
    Peel(text, i + 1, c, "", rest);
    assert c != 'u' && SimpleEscape(c) == Some(u.code);
  }

  /** No second half of a pair stands at `i`. */
  predicate NoLowAt(text: string, i: nat) {
    i + 1 < |text| && text[i] == '\\' && text[i + 1] == 'u' ==>
      Hex4(text, i + 2).Some? && !IsLow(Hex4(text, i + 2).value)
  }

  lemma HexScans(text: string, i: nat, u: Unit, rest: string)
    requires u.Hex? && ValidUnit(u) && StandsAt(text, i, Written(u), rest)
    requires IsHigh(u.code) ==> NoLowAt(text, i + 6)
    ensures Scans(text, i, u)
  {
    hide Hex4, Digits;
    EscapeStands(text, i, u.code, u.caps, rest);
  }

  lemma PairHalves(n: int)
    requires 0x10000 <= n < 0x110000
    ensures IsHigh(HighOf(n)) && IsLow(LowOf(n))
    ensures 0x10000 + (HighOf(n) - 0xD800) * 0x400 + (LowOf(n) - 0xDC00) == n
  {
  }

  /** Both halves of a pair. */
  lemma PairStands(text: string, i: nat, u: Unit, rest: string)
    requires u.Pair? && ValidUnit(u) && StandsAt(text, i, Written(u), rest)
    ensures i + 12 <= |text| && |Written(u)| == 12 && Closing(text, i, Double) == Closing(text, i + 12, Double)
    ensures text[i] == '\\' && text[i + 1] == 'u' && Hex4(text, i + 2) == Some(HighOf(u.code))
    ensures text[i + 6] == '\\' && text[i + 7] == 'u' && Hex4(text, i + 8) == Some(LowOf(u.code))
    ensures IsHigh(HighOf(u.code)) && IsLow(LowOf(u.code))
  {
    hide Hex4, Digits, HighOf, LowOf, Closing;
    PairHalves(u.code);
    var high, low := "\\u" + Digits(HighOf(u.code), u.caps[..4]), "\\u" + Digits(LowOf(u.code), u.caps[4..]);
    assert (high + low) + rest == high + (low + rest);
    EscapeStands(text, i, HighOf(u.code), u.caps[..4], low + rest);
    EscapeStands(text, i + 6, LowOf(u.code), u.caps[4..], rest);
  }

  lemma PairScans(text: string, i: nat, u: Unit, rest: string)
    requires u.Pair? && ValidUnit(u) && StandsAt(text, i, Written(u), rest)
    ensures Scans(text, i, u)
  {
    hide Hex4, Digits, HighOf, LowOf, Closing, Written;
    PairStands(text, i, u, rest);
    PairHalves(u.code);
  }

  lemma HexLength(u: Unit)
    requires u.Hex? && ValidUnit(u)
    ensures |Written(u)| == 6 && Written(u) == "\\u" + Digits(u.code, u.caps)
  {
  }

  /** Neither a plain character nor a short escape begins like a `\u` escape. */
  lemma OtherStart(u: Unit)
    requires ValidUnit(u) && (u.Raw? || u.Short?)
    ensures u.Raw? ==> |Written(u)| == 1 && Written(u)[0] != '\\'
    ensures u.Short? ==> |Written(u)| == 2 && Written(u)[1] != 'u'
  {
  }

  // -- reading a whole string -----------------------------------------------------------------

  /** The closing quotation mark and the spaces JSON allows after it. */
  predicate IsTail(tail: string) {
    tail != "" && tail[0] == '"' && forall k | 0 < k < |tail| :: IsJsonSpace(tail[k])
  }

  lemma TextUnfolds(units: seq<Unit>, tail: string)
    requires ValidUnits(units) && units != []
    ensures Text(units) + tail == Written(units[0]) + (Text(units[1..]) + tail)
  {
  }

  /** Only an escape of its own puts the second half of a pair at the start of a text. */
  lemma StartOfText(text: string, i: nat, units: seq<Unit>, tail: string)
    requires ValidUnits(units) && IsTail(tail) && StandsAt(text, i, Text(units), tail)
    ensures (units != [] ==> !(units[0].Hex? && IsLow(units[0].code))) ==> NoLowAt(text, i)
  {
    hide Hex4, Digits, HighOf, LowOf, Written, Text, Closing;
    if units == [] {
      EmptyText();
      assert text[i..] == tail;
      assert text[i] == text[i..][0];
    } else {
      var u, rest := units[0], Text(units[1..]) + tail;
      TextUnfolds(units, tail);
      match u
      case Raw(_) =>
        OtherStart(u);
        assert text[i] == text[i..][0] == Written(u)[0];
      case Short(_) =>
        OtherStart(u);
        assert text[i + 1] == text[i..][1] == Written(u)[1];
      case Hex(n, caps) =>
        HexLength(u);
        EscapeStands(text, i, n, caps, rest);
      case Pair(_, _) =>
        PairStands(text, i, u, rest);
    }
  }

  lemma OneUnitScans(text: string, i: nat, units: seq<Unit>, tail: string)
    requires units != [] && ValidUnits(units) && IsTail(tail) && StandsAt(text, i, Text(units), tail)
    ensures Scans(text, i, units[0])
    ensures StandsAt(text, i + |Written(units[0])|, Text(units[1..]), tail)
  {
    hide Hex4, Digits, HighOf, LowOf, NoLowAt, Scans;
    var u, rest := units[0], Text(units[1..]) + tail;
    TextUnfolds(units, tail);
    Pass(text, i, Written(u), rest);
    match u
    case Raw(_) => RawScans(text, i, u, rest);
    case Short(_) => ShortScans(text, i, u, rest);
    case Pair(_, _) => PairScans(text, i, u, rest);
    case Hex(n, _) =>
      if IsHigh(n) {
        assert |Written(u)| == 6;
        StartOfText(text, i + 6, units[1..], tail);
        assert units[1..] != [] ==> units[1..][0] == units[1];
      }
      HexScans(text, i, u, rest);
  }

  lemma {:induction false} UnitsScan(text: string, i: nat, units: seq<Unit>, tail: string)
    requires ValidUnits(units) && IsTail(tail) && StandsAt(text, i, Text(units), tail)
    ensures JsonCodes(text, i) == Ok(CodesOf(units))
    ensures Closing(text, i, Double) == |text| - |tail|
    decreases |units|
  {
    hide Written, Text;
    if units == [] {
      EmptyText();
      assert text[i..] == tail;
      assert text[i] == text[i..][0];
      forall k | i < k < |text| ensures IsJsonSpace(text[k]) { assert text[k] == text[i..][k - i]; }
    } else {
      OneUnitScans(text, i, units, tail);
      UnitsScan(text, i + |Written(units[0])|, units[1..], tail);
    }
  }

  lemma EmptyText()
    ensures Text([]) == ""
  {
  }

  predicate AnyControl(units: seq<Unit>) {
    exists k | 0 <= k < |units| :: IsControl(units[k].code)
  }

  lemma {:induction false} SpacesStrip(s: string)
    requires forall k | 0 <= k < |s| :: IsJsonSpace(s[k])
    ensures Strip(s) == ""
  {
    if s != "" { SpacesStrip(s[1..]); }
  }

  /** A double-quoted text made of such elements is read as their characters, and refused
      exactly when one of them is a control character or half of a pair. */
  lemma EscapesRead(units: seq<Unit>, tail: string)
    requires ValidUnits(units) && IsTail(tail)
    ensures StartsQuoted("\"" + Text(units) + tail)
    ensures AnyControl(units) ==> QuotedNode("\"" + Text(units) + tail) == Err(ControlCharacter)
    ensures !AnyControl(units) ==>
      && QuotedNode("\"" + Text(units) + tail).Ok?
      && var node := QuotedNode("\"" + Text(units) + tail).value;
      && node.Scalar? && node.style == Quoted && |node.text| == |units|
      && forall k | 0 <= k < |units| :: node.text[k] as int == units[k].code
  {
    hide Written, Text, JsonCodes, Closing, IsControl;
    var text := "\"" + Text(units) + tail;
    assert text[1..] == Text(units) + tail;
    UnitsScan(text, 1, units, tail);
    var close := |text| - |tail|;
    assert text[close + 1..] == tail[1..];
    SpacesStrip(tail[1..]);
    var codes := CodesOf(units);
    assert AnyControl(units) <==> exists k | 0 <= k < |codes| :: IsControl(codes[k]) by {
      if AnyControl(units) {
        var k :| 0 <= k < |units| && IsControl(units[k].code);
        assert IsControl(codes[k]);
      }
    }
  }

  // -- nothing else is read -------------------------------------------------------------------

  lemma SliceStands(text: string, i: nat, part: string)
    requires i + |part| <= |text| && text[i..i + |part|] == part
    ensures StandsAt(text, i, part, text[i + |part|..])
  {
    assert text[i..] == text[i..i + |part|] + text[i + |part|..];
  }

  lemma LetterOf(c: char)
    requires SimpleEscape(c).Some?
    ensures Letter(SimpleEscape(c).value) == c && ValidUnit(Short(SimpleEscape(c).value))
  {
  }

  lemma EscapeAt(text: string, i: nat) returns (caps: seq<bool>)
    requires i + 1 < |text| && text[i] == '\\' && text[i + 1] == 'u' && Hex4(text, i + 2).Some?
    ensures |caps| == 4 && i + 6 <= |text|
    ensures text[i..i + 6] == "\\u" + Digits(Hex4(text, i + 2).value, caps)
  {
    hide Digits, HexDigit;
    caps := DigitsOf(text, i + 2);
    assert text[i..i + 6] == [text[i], text[i + 1]] + text[i + 2..i + 6];
  }

  lemma PairOf(high: int, low: int)
    requires IsHigh(high) && IsLow(low)
    ensures var n := 0x10000 + (high - 0xD800) * 0x400 + (low - 0xDC00);
      0x10000 <= n < 0x110000 && HighOf(n) == high && LowOf(n) == low
  {
  }

  /** The element that scanning takes at `i`. */
  lemma UnitAt(text: string, i: nat) returns (u: Unit)
    requires i < |text| && JsonCodes(text, i).Ok? && text[i] != '"'
    ensures ValidUnit(u) && Written(u) != "" && i + |Written(u)| <= |text|
    ensures StandsAt(text, i, Written(u), text[i + |Written(u)|..]) && JsonCodes(text, i + |Written(u)|).Ok?
    ensures u.Hex? && IsHigh(u.code) ==> NoLowAt(text, i + 6)
  {
    hide Digits, HighOf, LowOf, Hex4;
    if text[i] != '\\' {
      u := Raw(text[i] as int);
    } else if text[i + 1] != 'u' {
      LetterOf(text[i + 1]);
      u := Short(SimpleEscape(text[i + 1]).value);
    } else {
      var n := Hex4(text, i + 2).value;
      var caps := EscapeAt(text, i);
      if IsHigh(n) && i + 7 < |text| && text[i + 6] == '\\' && text[i + 7] == 'u' && IsLow(Hex4(text, i + 8).value) {
        var low := Hex4(text, i + 8).value;
        var more := EscapeAt(text, i + 6);
        PairOf(n, low);
        u := Pair(0x10000 + (n - 0xD800) * 0x400 + (low - 0xDC00), caps + more);
        assert u.caps[..4] == caps && u.caps[4..] == more;
        assert text[i..i + 12] == text[i..i + 6] + text[i + 6..i + 12];
      } else {
        u := Hex(n, caps);
      }
    }
    SliceStands(text, i, Written(u));
  }

  lemma {:induction false} UnitsOf(text: string, i: nat) returns (units: seq<Unit>, tail: string)
    requires i <= |text| && JsonCodes(text, i).Ok?
    ensures ValidUnits(units) && IsTail(tail) && StandsAt(text, i, Text(units), tail)
    decreases |text| - i
  {
    hide Written, JsonCodes;
    ScanEnds(text, i);
    if text[i] == '"' {
      units, tail := [], text[i..];
    } else {
      var u := UnitAt(text, i);
      var more, rest := UnitsOf(text, i + |Written(u)|);
      units, tail := [u] + more, rest;
      if SplitsPair(units) {
        var low := more[0];
        TextUnfolds(more, tail);
        HexLength(u);
        HexLength(low);
        EscapeStands(text, i + 6, low.code, low.caps, Text(more[1..]) + tail);
        assert false;
      }
      assert units[1..] == more;
      assert text[i..] == Written(u) + (Text(more) + tail) == Written(u) + Text(more) + tail;
    }
  }

  lemma ScanEnds(text: string, i: nat)
    requires i <= |text| && JsonCodes(text, i).Ok?
    ensures i < |text| && (text[i] == '"' ==> IsTail(text[i..]))
  {
  }

  /** Every double-quoted scalar that is read is made of such elements. */
  lemma OnlyEscapesRead(s: string) returns (units: seq<Unit>, tail: string)
    requires s != "" && s[0] == '"' && QuotedNode(s).Ok?
    ensures ValidUnits(units) && IsTail(tail) && s == "\"" + Text(units) + tail
  {
    hide Text, JsonCodes, Closing;
    units, tail := UnitsOf(s, 1);
    assert s == [s[0]] + s[1..];
  }
}
