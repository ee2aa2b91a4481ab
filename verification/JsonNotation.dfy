/**
 The notation of canonical JSON (packages/release-schema/README.md): the characters of RFC 8259, no white space,
 and the escapes of JSON.stringify.
 */
module JsonNotation {
  import opened CanonicalJson
  import opened JsonText
  import opened Sorting
  import opened Utf16

  /** A literal as code units. */
  function Units(s: string): (t: Text)
    ensures |t| == |s| && forall i | 0 <= i < |s| :: t[i] == s[i] as int
  {
    seq(|s|, i requires 0 <= i < |s| => s[i] as int)
  }

  /** Structural characters and names are those of RFC 8259; the two members are named as in the schema. */
  lemma NotationIs()
    ensures COMMA == Units(",") && COLON == Units(":") && [QUOTE] == Units("\"")
    ensures OPEN_ARRAY == Units("[") && CLOSE_ARRAY == Units("]") && OPEN_OBJECT == Units("{") && CLOSE_OBJECT == Units("}")
    ensures TRUE == Units("true") && FALSE == Units("false")
    ensures SIGNATURE == Units("signature") && KEY_ID == Units("keyId")
  {
  }

  /** A quote, a backslash and five control characters have short escapes; other control characters are \u00xx in lower case. */
  lemma EscapesAre()
    ensures EscapeUnit(0x22) == Units("\\\"") && EscapeUnit(0x5C) == Units("\\\\")
    ensures EscapeUnit(0x08) == Units("\\b") && EscapeUnit(0x09) == Units("\\t") && EscapeUnit(0x0A) == Units("\\n")
    ensures EscapeUnit(0x0C) == Units("\\f") && EscapeUnit(0x0D) == Units("\\r")
    ensures EscapeUnit(0x00) == Units("\\u0000") && EscapeUnit(0x1F) == Units("\\u001f")
  {
  }

  predicate IsPlain(s: Text) {
    forall i | 0 <= i < |s| :: 0x20 <= s[i] < 0xD800 && s[i] != QUOTE && s[i] != BACKSLASH
  }

  /** Text without quotes, backslashes, control characters and surrogates is quoted as it is. */
  lemma {:induction false} PlainIsQuoted(s: Text)
    requires IsPlain(s)
    ensures IsText(s) && Escape(s) == s && Quote(s) == [QUOTE] + s + [QUOTE]
  {
    if s != [] {
      PlainIsQuoted(s[1..]);
      assert ShortEscape(s[0]).None?;
      assert s == [s[0]] + s[1..];
    }
  }

  predicate Printable(v: Json) {
    Valid(v) && Accepted(v)
  }

  lemma PairOf(m: Member, n: Member)
    requires IsText(m.key) && Printable(m.value) && IsText(n.key) && Printable(n.value)
    ensures ValidMembers([m, n]) && AcceptedMembers([m, n])
    ensures CanonicalMembers([m, n]) == CanonicalMember(m) + COMMA + CanonicalMember(n)
  {
    assert [m, n][1..] == [n];
    assert CanonicalMembers([n]) == CanonicalMember(n);
  }

  lemma OrderOfTwo(m: Member, n: Member)
    requires Less(n.key, m.key)
    ensures Ordered([m, n]) == [n, m]
  {
    LessIsTotal(m.key, n.key);
    assert [m, n][1..] == [n] && [n][1..] == [];
    assert Sort(KeyLess, [n]) == [n];
    assert Insert(KeyLess, m, [n]) == [n, m];
  }

  /** An object is in braces, its members in the order of their keys, separated by commas and nothing else. */
  lemma TwoMembersAre(m: Member, n: Member)
    requires IsText(m.key) && Printable(m.value) && IsText(n.key) && Printable(n.value) && Less(n.key, m.key)
    ensures Printable(Object([m, n]))
    ensures Canonical(Object([m, n])) == Units("{") + (CanonicalMember(n) + Units(",") + CanonicalMember(m)) + Units("}")
  {
    LessIsTotal(m.key, n.key);
    OrderOfTwo(m, n);
    PairOf(m, n);
    PairOf(n, m);
    NotationIs();
  }

  /** A member is its quoted key, a colon and its value. */
  lemma MemberIs(m: Member)
    requires IsPlain(m.key) && Printable(m.value)
    ensures IsText(m.key) && CanonicalMember(m) == Units("\"") + m.key + Units("\"") + Units(":") + Canonical(m.value)
  {
    PlainIsQuoted(m.key);
    NotationIs();
  }

  lemma TwoItemsAre(a: Json, b: Json)
    requires Printable(a) && Printable(b)
    ensures Printable(Array([a, b])) && CanonicalItems([a, b]) == Canonical(a) + COMMA + Canonical(b)
  {
    assert [a, b][1..] == [b];
    assert CanonicalItems([b]) == Canonical(b);
  }

  /** An array is in brackets, its items in their order, separated by commas and nothing else. */
  lemma ThreeItemsAre(a: Json, b: Json, c: Json)
    requires Printable(a) && Printable(b) && Printable(c)
    ensures Printable(Array([a, b, c]))
    ensures Canonical(Array([a, b, c]))
         == Units("[") + (Canonical(a) + Units(",") + (Canonical(b) + Units(",") + Canonical(c))) + Units("]")
  {
    TwoItemsAre(b, c);
    assert [a, b, c][1..] == [b, c];
    assert CanonicalItems([a, b, c]) == Canonical(a) + COMMA + CanonicalItems([b, c]);
    NotationIs();
  }

  /** A number is its decimal digits, after a minus sign if it is negative, without leading zeros. */
  lemma NumbersAre(n: int)
    ensures Printable(Integer(n)) ==> Canonical(Integer(n)) == Decimal(n)
    ensures n < 0 ==> Decimal(n) == Units("-") + Decimal(-n)
    ensures 0 <= n < 10 ==> Decimal(n) == [Units("0123456789")[n]]
    ensures n >= 10 ==> Decimal(n) == Decimal(n / 10) + Decimal(n % 10)
  {
  }

  /** Nothing at all, and the two truth values. */
  lemma SimplestAre()
    ensures Printable(Object([])) && Canonical(Object([])) == Units("{}")
    ensures Printable(Array([])) && Canonical(Array([])) == Units("[]")
    ensures Canonical(Boolean(true)) == Units("true") && Canonical(Boolean(false)) == Units("false")
  {
  }
}
