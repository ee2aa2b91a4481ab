/**
 Strings as both runtimes store them: sequences of UTF-16 code units, compared
 code unit by code unit. A code unit is an `int`; `IsText` gives its range.
 */
module Utf16 {

  type CodeUnit = int
  type Text = seq<CodeUnit>

  predicate IsText(s: Text) {
    forall i | 0 <= i < |s| :: 0 <= s[i] < 0x1_0000
  }

  predicate IsHigh(c: CodeUnit) {
    0xD800 <= c < 0xDC00
  }

  predicate IsLow(c: CodeUnit) {
    0xDC00 <= c < 0xE000
  }

  /** Ordinal order: the default sort of JavaScript and string.CompareOrdinal of .NET. */
  predicate Less(s: Text, t: Text) {
    t != [] && (s == [] || s[0] < t[0] || (s[0] == t[0] && Less(s[1..], t[1..])))
  }

  lemma {:induction false} LessIsTotal(s: Text, t: Text)
    ensures !(Less(s, t) && Less(t, s))
    ensures Less(s, t) || Less(t, s) <==> s != t
  {
    if s != [] && t != [] {
      LessIsTotal(s[1..], t[1..]);
      assert s == [s[0]] + s[1..] && t == [t[0]] + t[1..];
    }
  }

  lemma {:induction false} LessIsTransitive(s: Text, t: Text, u: Text)
    requires Less(s, t) && Less(t, u)
    ensures Less(s, u)
  {
    if s != [] && s[0] == t[0] == u[0] {
      LessIsTransitive(s[1..], t[1..], u[1..]);
    }
  }
}
