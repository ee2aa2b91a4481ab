/**
 The two token printers canonical JSON rests on, each with the reader that
 inverts it: quoted strings and decimal integers.
 */
module JsonText {
  import opened Options
  import opened Utf16

  const QUOTE: CodeUnit := 0x22
  const BACKSLASH: CodeUnit := 0x5C
  const MINUS: CodeUnit := 0x2D

  // --------------------------------------------------------------------
  // Strings
  // --------------------------------------------------------------------

  function HexDigit(d: int): CodeUnit
    requires 0 <= d < 16
  {
    if d < 10 then 0x30 + d else 0x61 + (d - 10)
  }

  function UnicodeEscape(c: CodeUnit): Text
    requires 0 <= c < 0x1_0000
  {
    [BACKSLASH, 0x75, HexDigit(c / 4096), HexDigit(c / 256 % 16), HexDigit(c / 16 % 16), HexDigit(c % 16)]
  }

  /** The letter after the backslash of a two-character escape. */
  function ShortEscape(c: CodeUnit): Option<CodeUnit> {
    if c == QUOTE then Some(QUOTE)
    else if c == BACKSLASH then Some(BACKSLASH)
    else if c == 0x08 then Some(0x62)
    else if c == 0x0C then Some(0x66)
    else if c == 0x0A then Some(0x6E)
    else if c == 0x0D then Some(0x72)
    else if c == 0x09 then Some(0x74)
    else None
  }

  function EscapeUnit(c: CodeUnit): Text
    requires 0 <= c < 0x1_0000
  {
    match ShortEscape(c)
    case Some(e) => [BACKSLASH, e]
    case None => if c < 0x20 then UnicodeEscape(c) else [c]
  }

  predicate IsSurrogate(c: CodeUnit) {
    IsHigh(c) || IsLow(c)
  }

  function EscapeLone(c: CodeUnit): Text
    requires 0 <= c < 0x1_0000
  {
    if IsSurrogate(c) then UnicodeEscape(c) else EscapeUnit(c)
  }

  predicate StartsWithPair(s: Text) {
    |s| >= 2 && IsHigh(s[0]) && IsLow(s[1])
  }

  /** JSON.stringify on the inside of a string: an unpaired surrogate is escaped, a pair is kept. */
  function Escape(s: Text): Text
    requires IsText(s)
  {
    if s == [] then []
    else if StartsWithPair(s) then [s[0], s[1]] + Escape(s[2..])
    else EscapeLone(s[0]) + Escape(s[1..])
  }

  function Quote(s: Text): Text
    requires IsText(s)
  {
    [QUOTE] + Escape(s) + [QUOTE]
  }

  /** Every surrogate of `s` is half of a pair: `s` encodes a sequence of characters. */
  predicate IsPaired(s: Text) {
    s == [] ||
    (if StartsWithPair(s) then IsPaired(s[2..]) else !IsSurrogate(s[0]) && IsPaired(s[1..]))
  }

  /** The .NET writer looks at one code unit at a time and never escapes a surrogate. */
  function EscapeEach(s: Text): Text
    requires IsText(s)
  {
    if s == [] then [] else EscapeUnit(s[0]) + EscapeEach(s[1..])
  }

  lemma SamePrefix(p: Text, a: Text, b: Text)
    requires p + a == p + b
    ensures a == b
  {
    assert a == (p + a)[|p|..];
  }

  lemma EachPair(s: Text)
    requires IsText(s) && StartsWithPair(s)
    ensures EscapeEach(s) == [s[0], s[1]] + EscapeEach(s[2..])
  {
    assert s[1..][1..] == s[2..];
    EachSurrogate(s);
    EachSurrogate(s[1..]);
    Associative([s[0]], [s[1]], EscapeEach(s[2..]));
  }

  lemma EachSurrogate(s: Text)
    requires IsText(s) && s != [] && IsSurrogate(s[0])
    ensures EscapeEach(s) == [s[0]] + EscapeEach(s[1..])
  {
  }

  /** Both runtimes print a string alike exactly when it has no unpaired surrogate. */
  lemma {:induction false} WritersAgreeOnPairedText(s: Text)
    requires IsText(s)
    ensures EscapeEach(s) == Escape(s) <==> IsPaired(s)
    decreases |s|
  {
    if s == [] {
    } else if StartsWithPair(s) {
      WritersAgreeOnPairedText(s[2..]);
      EachPair(s);
      if EscapeEach(s) == Escape(s) {
        SamePrefix([s[0], s[1]], EscapeEach(s[2..]), Escape(s[2..]));
      }
    } else {
      WritersAgreeOnPairedText(s[1..]);
      if IsSurrogate(s[0]) {
        assert EscapeEach(s)[0] == s[0] && Escape(s)[0] == BACKSLASH;
      } else if EscapeEach(s) == Escape(s) {
        SamePrefix(EscapeUnit(s[0]), EscapeEach(s[1..]), Escape(s[1..]));
      }
    }
  }

  function HexValue(c: CodeUnit): Option<int> {
    if 0x30 <= c <= 0x39 then Some(c - 0x30)
    else if 0x61 <= c <= 0x66 then Some(c - 0x61 + 10)
    else None
  }

  /** The code unit a two-character escape stands for. */
  function ShortUnescape(e: CodeUnit): Option<CodeUnit> {
    if e == QUOTE || e == BACKSLASH then Some(e)
    else if e == 0x62 then Some(0x08)
    else if e == 0x66 then Some(0x0C)
    else if e == 0x6E then Some(0x0A)
    else if e == 0x72 then Some(0x0D)
    else if e == 0x74 then Some(0x09)
    else None
  }

  datatype Reading<+T> = Failed | Read(result: T, rest: Text)

  /** Reads one possibly escaped code unit. */
  function ReadUnit(t: Text): (r: Reading<CodeUnit>)
    ensures r.Read? ==> |r.rest| < |t|
  {
    if |t| == 0 || t[0] == QUOTE || t[0] < 0x20 then Failed
    else if t[0] != BACKSLASH then Read(t[0], t[1..])
    else if |t| == 1 then Failed
    else if t[1] == 0x75 then ReadHex(t)
    else
      match ShortUnescape(t[1])
      case Some(c) => Read(c, t[2..])
      case None => Failed
  }

  function ReadHex(t: Text): (r: Reading<CodeUnit>)
    requires |t| >= 2
    ensures r.Read? ==> |r.rest| < |t|
  {
    if |t| < 6 then Failed
    else
      match (HexValue(t[2]), HexValue(t[3]), HexValue(t[4]), HexValue(t[5]))
      case (Some(h3), Some(h2), Some(h1), Some(h0)) => Read(((h3 * 16 + h2) * 16 + h1) * 16 + h0, t[6..])
      case _ => Failed
  }

  /** Reads up to and past the closing quote. */
  function ReadChars(t: Text): (r: Reading<Text>)
    ensures r.Read? ==> |r.rest| < |t|
    decreases |t|
  {
    if t != [] && t[0] == QUOTE then Read([], t[1..])
    else
      match ReadUnit(t)
      case Failed => Failed
      case Read(c, more) =>
        match ReadChars(more)
        case Failed => Failed
        case Read(s, rest) => Read([c] + s, rest)
  }

  lemma UnicodeEscapeIsRead(c: CodeUnit, rest: Text)
    requires 0 <= c < 0x1_0000
    ensures ReadUnit(UnicodeEscape(c) + rest) == Read(c, rest)
  {
    var t := UnicodeEscape(c) + rest;
    assert t[6..] == rest;
    assert HexValue(t[2]) == Some(c / 4096);
    assert HexValue(t[3]) == Some(c / 256 % 16);
    assert HexValue(t[4]) == Some(c / 16 % 16);
    assert HexValue(t[5]) == Some(c % 16);
    HexDigits(c);
  }

  lemma HexDigits(c: int)
    requires 0 <= c < 0x1_0000
    ensures ((c / 4096 * 16 + c / 256 % 16) * 16 + c / 16 % 16) * 16 + c % 16 == c
  {
    assert c / 256 == c / 4096 * 16 + c / 256 % 16;
    assert c / 16 == c / 256 * 16 + c / 16 % 16;
  }

  lemma UnitIsRead(c: CodeUnit, rest: Text)
    requires 0 <= c < 0x1_0000
    ensures ReadUnit(EscapeUnit(c) + rest) == Read(c, rest)
  {
    match ShortEscape(c)
    case Some(e) =>
      var t := [BACKSLASH, e] + rest;
      assert t[2..] == rest;
    case None =>
      if c < 0x20 {
        UnicodeEscapeIsRead(c, rest);
      } else {
        assert ([c] + rest)[1..] == rest;
      }
  }

  /** A printed unit in front of a text that reads as `s`. */
  lemma ReadOneMore(unit: Text, c: CodeUnit, more: Text, s: Text, rest: Text)
    requires ReadUnit(unit + more) == Read(c, more) && ReadChars(more) == Read(s, rest)
    requires unit != [] && unit[0] != QUOTE
    ensures ReadChars(unit + more) == Read([c] + s, rest)
  {
  }

  lemma RawUnitIsRead(c: CodeUnit, more: Text)
    requires IsSurrogate(c)
    ensures ReadUnit([c] + more) == Read(c, more)
  {
    assert ([c] + more)[1..] == more;
  }

  lemma PairIsRead(s: Text, more: Text, rest: Text)
    requires StartsWithPair(s) && ReadChars(more) == Read(s[2..], rest)
    ensures ReadChars([s[0], s[1]] + more) == Read(s, rest)
  {
    RawUnitIsRead(s[1], more);
    ReadOneMore([s[1]], s[1], more, s[2..], rest);
    RawUnitIsRead(s[0], [s[1]] + more);
    ReadOneMore([s[0]], s[0], [s[1]] + more, [s[1]] + s[2..], rest);
    assert [s[0], s[1]] + more == [s[0]] + ([s[1]] + more);
    assert s == [s[0]] + ([s[1]] + s[2..]);
  }

  lemma SingleIsRead(s: Text, more: Text, rest: Text)
    requires s != [] && 0 <= s[0] < 0x1_0000 && ReadChars(more) == Read(s[1..], rest)
    ensures ReadChars(EscapeLone(s[0]) + more) == Read(s, rest)
  {
    LoneIsRead(s[0], more);
    ReadOneMore(EscapeLone(s[0]), s[0], more, s[1..], rest);
    assert s == [s[0]] + s[1..];
  }

  lemma LoneIsRead(c: CodeUnit, more: Text)
    requires 0 <= c < 0x1_0000
    ensures ReadUnit(EscapeLone(c) + more) == Read(c, more)
    ensures EscapeLone(c) != [] && EscapeLone(c)[0] != QUOTE
  {
    if IsSurrogate(c) {
      UnicodeEscapeIsRead(c, more);
    } else {
      UnitIsRead(c, more);
    }
  }

  /** The closing quote and what follows. */
  function Closed(s: Text, rest: Text): Text
    requires IsText(s)
  {
    Escape(s) + ([QUOTE] + rest)
  }

  lemma ClosedStep(s: Text, rest: Text)
    requires IsText(s) && s != []
    ensures Closed(s, rest) == if StartsWithPair(s) then [s[0], s[1]] + Closed(s[2..], rest)
                               else EscapeLone(s[0]) + Closed(s[1..], rest)
  {
    var tail := [QUOTE] + rest;
    if StartsWithPair(s) {
      Associative([s[0], s[1]], Escape(s[2..]), tail);
    } else {
      Associative(EscapeLone(s[0]), Escape(s[1..]), tail);
    }
  }

  lemma Associative(a: Text, b: Text, c: Text)
    ensures (a + b) + c == a + (b + c)
  {
  }

  lemma {:induction false} EscapeIsRead(s: Text, rest: Text)
    requires IsText(s)
    ensures ReadChars(Closed(s, rest)) == Read(s, rest)
    decreases |s|
  {
    if s == [] {
      assert Closed(s, rest) == [QUOTE] + rest;
      assert ([QUOTE] + rest)[1..] == rest;
    } else {
      ClosedStep(s, rest);
      if StartsWithPair(s) {
        EscapeIsRead(s[2..], rest);
        PairIsRead(s, Closed(s[2..], rest), rest);
      } else {
        EscapeIsRead(s[1..], rest);
        SingleIsRead(s, Closed(s[1..], rest), rest);
      }
    }
  }

  // --------------------------------------------------------------------
  // Integers
  // --------------------------------------------------------------------

  predicate IsDigit(c: CodeUnit) {
    0x30 <= c <= 0x39
  }

  function Digits(n: int): Text
    requires 0 <= n
    decreases n
  {
    if n < 10 then [0x30 + n] else Digits(n / 10) + [0x30 + n % 10]
  }

  /** String(n) of JavaScript and Int64.ToString of .NET, for the integers both represent. */
  function Decimal(n: int): Text {
    if n < 0 then [MINUS] + Digits(-n) else Digits(n)
  }

  function ReadDigits(acc: int, t: Text): (r: (int, Text))
    ensures |r.1| <= |t|
    ensures t != [] && IsDigit(t[0]) ==> |r.1| < |t|
    decreases |t|
  {
    if t != [] && IsDigit(t[0]) then ReadDigits(acc * 10 + (t[0] - 0x30), t[1..]) else (acc, t)
  }

  function ReadNumber(t: Text): (r: Reading<int>)
    ensures r.Read? ==> |r.rest| < |t|
  {
    if t != [] && t[0] == MINUS then
      if |t| > 1 && IsDigit(t[1]) then
        var (n, rest) := ReadDigits(0, t[1..]);
        Read(-n, rest)
      else Failed
    else if t != [] && IsDigit(t[0]) then
      var (n, rest) := ReadDigits(0, t);
      Read(n, rest)
    else Failed
  }

  lemma {:induction false} DigitsAreRead(n: int, rest: Text)
    requires 0 <= n
    ensures IsDigit(Digits(n)[0])
    ensures ReadDigits(0, Digits(n) + rest) == ReadDigits(n, rest)
    decreases n
  {
    var d := 0x30 + n % 10;
    var tail := [d] + rest;
    assert tail[1..] == rest;
    if n < 10 {
      assert Digits(n) + rest == tail;
    } else {
      DigitsAreRead(n / 10, tail);
      assert Digits(n) + rest == Digits(n / 10) + tail;
      assert ReadDigits(n / 10, tail) == ReadDigits(n / 10 * 10 + (d - 0x30), rest);
    }
  }

  lemma DecimalIsRead(n: int, rest: Text)
    requires rest != [] ==> !IsDigit(rest[0])
    ensures ReadNumber(Decimal(n) + rest) == Read(n, rest)
    ensures Decimal(n)[0] == MINUS || IsDigit(Decimal(n)[0])
  {
    var m := if n < 0 then -n else n;
    DigitsAreRead(m, rest);
    if n < 0 {
      assert (Decimal(n) + rest)[1..] == Digits(m) + rest;
      assert (Digits(m) + rest)[0] == Digits(m)[0];
    }
  }
}
