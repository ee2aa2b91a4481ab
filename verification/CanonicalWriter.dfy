/**
 The agent's writer of canonical JSON (ExtSync.Agent/Crypto/CanonicalJson.cs),
 proved to produce the text of the TypeScript printer.
 */
module CanonicalWriter {
  import opened Options
  import opened Utf16
  import opened JsonText
  import opened CanonicalJson

  class StringBuilder {
    var text: Text

    constructor ()
      ensures text == []
    {
      text := [];
    }

    method Append(t: Text)
      modifies this
      ensures text == old(text) + t
    {
      text := text + t;
    }
  }

  /** Strings and keys encode characters: no unpaired surrogate anywhere. */
  predicate Paired(v: Json) {
    match v
    case String(s) => IsPaired(s)
    case Array(items) => forall i | 0 <= i < |items| :: Paired(items[i])
    case Object(ms) => PairedMembers(ms)
    case _ => true
  }

  predicate PairedMembers(ms: seq<Member>) {
    forall i | 0 <= i < |ms| :: IsPaired(ms[i].key) && Paired(ms[i].value)
  }

  method WriteString(s: Text, sb: StringBuilder)
    requires IsText(s)
    modifies sb
    ensures sb.text == old(sb.text) + ([QUOTE] + EscapeEach(s) + [QUOTE])
    ensures IsPaired(s) ==> sb.text == old(sb.text) + Quote(s)
  {
    sb.Append([QUOTE]);
    for i := 0 to |s|
      invariant sb.text == old(sb.text) + ([QUOTE] + EscapeEach(s[..i]))
    {
      sb.Append(EscapeUnit(s[i]));
      EachOneMore(s, i);
    }
    assert s[..|s|] == s;
    sb.Append([QUOTE]);
    WritersAgreeOnPairedText(s);
  }

  lemma {:induction false} EachOneMore(s: Text, i: int)
    requires IsText(s) && 0 <= i < |s|
    ensures EscapeEach(s[..i + 1]) == EscapeEach(s[..i]) + EscapeUnit(s[i])
    decreases i
  {
    if i == 0 {
      assert s[..1][1..] == [];
    } else {
      EachOneMore(s[1..], i - 1);
      assert s[..i + 1][1..] == s[1..][..i] && s[..i][1..] == s[1..][..i - 1];
      Associative(EscapeUnit(s[0]), EscapeEach(s[1..][..i - 1]), EscapeUnit(s[i]));
    }
  }

  /** The value with the excluded top-level member left out. */
  function Excluding(v: Json, exclude: Option<Text>): Json {
    if exclude.Some? && v.Object? then Object(Without(v.members, exclude.value)) else v
  }

  lemma {:induction false} MembersOneMore(ms: seq<Member>, m: Member)
    requires ValidMembers(ms) && AcceptedMembers(ms)
    requires IsText(m.key) && Valid(m.value) && Accepted(m.value)
    ensures CanonicalMembers(ms + [m])
         == CanonicalMembers(ms) + (if ms == [] then [] else COMMA) + CanonicalMember(m)
  {
    if ms == [] {
      assert ms + [m] == [m];
    } else {
      MembersOneMore(ms[1..], m);
      assert (ms + [m])[1..] == ms[1..] + [m];
      if |ms| > 1 {
        Regroup(CanonicalMember(ms[0]), COMMA, CanonicalMembers(ms[1..]), COMMA, CanonicalMember(m));
      }
    }
  }

  lemma {:induction false} ItemsOneMore(items: seq<Json>, item: Json)
    requires Valid(Array(items)) && Accepted(Array(items)) && Valid(item) && Accepted(item)
    ensures CanonicalItems(items + [item])
         == CanonicalItems(items) + (if items == [] then [] else COMMA) + Canonical(item)
  {
    if items == [] {
      assert items + [item] == [item];
    } else {
      ItemsOneMore(items[1..], item);
      assert (items + [item])[1..] == items[1..] + [item];
      if |items| > 1 {
        Regroup(Canonical(items[0]), COMMA, CanonicalItems(items[1..]), COMMA, Canonical(item));
      }
    }
  }

  lemma Regroup(a: Text, b: Text, c: Text, d: Text, e: Text)
    ensures a + b + (c + d + e) == (a + b + c) + d + e
  {
  }

  /** What the builder holds after one more piece and its separator. */
  lemma Appended(before: Text, open: Text, body: Text, comma: Text, piece: Text)
    ensures before + (open + body) + comma + piece == before + (open + (body + comma + piece))
  {
  }

  lemma ObjectGrows(before: Text, init: seq<Member>, m: Member)
    requires ValidMembers(init) && AcceptedMembers(init)
    requires IsText(m.key) && Valid(m.value) && Accepted(m.value)
    ensures AcceptedMembers(init + [m])
    ensures before + (OPEN_OBJECT + CanonicalMembers(init)) + (if init == [] then [] else COMMA) + CanonicalMember(m)
         == before + (OPEN_OBJECT + CanonicalMembers(init + [m]))
  {
    MembersOneMore(init, m);
    Appended(before, OPEN_OBJECT, CanonicalMembers(init), if init == [] then [] else COMMA, CanonicalMember(m));
  }

  lemma ArrayGrows(before: Text, init: seq<Json>, item: Json)
    requires Valid(Array(init)) && Accepted(Array(init)) && Valid(item) && Accepted(item)
    ensures Accepted(Array(init + [item]))
    ensures before + (OPEN_ARRAY + CanonicalItems(init)) + (if init == [] then [] else COMMA) + Canonical(item)
         == before + (OPEN_ARRAY + CanonicalItems(init + [item]))
  {
    ItemsOneMore(init, item);
    Appended(before, OPEN_ARRAY, CanonicalItems(init), if init == [] then [] else COMMA, Canonical(item));
  }

  lemma OneMoreTaken<T>(s: seq<T>, i: int)
    requires 0 <= i < |s|
    ensures s[..i + 1] == s[..i] + [s[i]] && (s[..i] == [] <==> i == 0)
  {
  }

  lemma ObjectGrowsAt(before: Text, props: seq<Member>, i: int)
    requires ValidMembers(props) && 0 <= i < |props| && AcceptedMembers(props[..i]) && Accepted(props[i].value)
    ensures AcceptedMembers(props[..i + 1])
    ensures before + (OPEN_OBJECT + CanonicalMembers(props[..i])) + (if i == 0 then [] else COMMA) + CanonicalMember(props[i])
         == before + (OPEN_OBJECT + CanonicalMembers(props[..i + 1]))
  {
    OneMoreTaken(props, i);
    ObjectGrows(before, props[..i], props[i]);
  }

  lemma ArrayGrowsAt(before: Text, items: seq<Json>, i: int)
    requires Valid(Array(items)) && 0 <= i < |items| && Accepted(Array(items[..i])) && Accepted(items[i])
    ensures Accepted(Array(items[..i + 1]))
    ensures before + (OPEN_ARRAY + CanonicalItems(items[..i])) + (if i == 0 then [] else COMMA) + Canonical(items[i])
         == before + (OPEN_ARRAY + CanonicalItems(items[..i + 1]))
  {
    OneMoreTaken(items, i);
    ArrayGrows(before, items[..i], items[i]);
  }

  lemma OrderedKeepsPairing(ms: seq<Member>)
    requires PairedMembers(ms)
    ensures PairedMembers(Ordered(ms))
  {
    var os := Ordered(ms);
    OrderedKeepsMembers(ms);
    forall i | 0 <= i < |os|
      ensures exists j | 0 <= j < |ms| :: ms[j] == os[i]
    {
      assert os[i] in ms;
    }
  }

  /** Not accepted members stay not accepted in any order. */
  lemma OrderedAcceptedIff(ms: seq<Member>)
    ensures AcceptedMembers(ms) <==> AcceptedMembers(Ordered(ms))
  {
    var os := Ordered(ms);
    OrderedKeepsMembers(ms);
    if AcceptedMembers(os) {
      forall i | 0 <= i < |ms|
        ensures Accepted(ms[i].value)
      {
        assert ms[i] in os;
      }
    }
  }

  lemma {:induction false} WithoutKeepsSize(ms: seq<Member>, key: Text)
    ensures SizeMembers(Without(ms, key)) <= SizeMembers(ms)
  {
    if ms != [] {
      WithoutKeepsSize(ms[1..], key);
      assert ([ms[0]] + Without(ms[1..], key))[1..] == Without(ms[1..], key);
    }
  }

  /** `ok` is false where the source throws; the builder is then abandoned. */
  method WriteCanonical(v: Json, sb: StringBuilder, exclude: Option<Text>) returns (ok: bool)
    requires Valid(v) && Paired(v)
    modifies sb
    ensures Valid(Excluding(v, exclude))
    ensures ok == Accepted(Excluding(v, exclude))
    ensures ok ==> sb.text == old(sb.text) + Canonical(Excluding(v, exclude))
    decreases Size(v), 1
  {
    match v {
      case Object(ms) =>
        var props := ms;
        if exclude.Some? {
          props := Without(ms, exclude.value);
          WithoutIsValid(ms, exclude.value);
          WithoutKeepsSize(ms, exclude.value);
        }
        ok := WriteObject(props, sb);
      case Array(items) =>
        ok := WriteArray(items, sb);
      case String(s) =>
        WriteString(s, sb);
        ok := true;
      case Integer(n) =>
        sb.Append(Decimal(n));
        ok := true;
      case Boolean(b) =>
        sb.Append(if b then TRUE else FALSE);
        ok := true;
      case Null => ok := false;
      case Fraction => ok := false;
    }
  }

  method WriteObject(ms: seq<Member>, sb: StringBuilder) returns (ok: bool)
    requires Valid(Object(ms)) && PairedMembers(ms)
    modifies sb
    ensures ok == AcceptedMembers(ms)
    ensures ok ==> sb.text == old(sb.text) + Canonical(Object(ms))
    decreases SizeMembers(ms), 5
  {
    var props := Ordered(ms);
    OrderedKeepsMembers(ms);
    OrderedKeepsSize(ms);
    OrderedKeepsPairing(ms);
    OrderedAcceptedIff(ms);
    ok := WriteMembers(props, sb);
    sb.Append(CLOSE_OBJECT);
  }

  method WriteMembers(props: seq<Member>, sb: StringBuilder) returns (ok: bool)
    requires ValidMembers(props) && PairedMembers(props)
    modifies sb
    ensures ok == AcceptedMembers(props)
    ensures ok ==> sb.text == old(sb.text) + (OPEN_OBJECT + CanonicalMembers(props))
    decreases SizeMembers(props), 4
  {
    ghost var before := sb.text;
    sb.Append(OPEN_OBJECT);
    for i := 0 to |props|
      invariant AcceptedMembers(props[..i])
      invariant sb.text == before + (OPEN_OBJECT + CanonicalMembers(props[..i]))
    {
      if i > 0 {
        sb.Append(COMMA);
      }
      MemberSize(props, i);
      ok := WriteMember(props[i], sb);
      if !ok {
        return;
      }
      ObjectGrowsAt(before, props, i);
    }
    assert props[..|props|] == props;
    ok := true;
  }

  method WriteMember(m: Member, sb: StringBuilder) returns (ok: bool)
    requires IsText(m.key) && Valid(m.value) && IsPaired(m.key) && Paired(m.value)
    modifies sb
    ensures ok == Accepted(m.value)
    ensures ok ==> sb.text == old(sb.text) + CanonicalMember(m)
    decreases Size(m.value), 3
  {
    WriteString(m.key, sb);
    sb.Append(COLON);
    ok := WriteCanonical(m.value, sb, None);
    assert ok ==> sb.text == old(sb.text) + Quote(m.key) + COLON + Canonical(m.value);
  }

  method WriteArray(items: seq<Json>, sb: StringBuilder) returns (ok: bool)
    requires Valid(Array(items)) && Paired(Array(items))
    modifies sb
    ensures ok == Accepted(Array(items))
    ensures ok ==> sb.text == old(sb.text) + Canonical(Array(items))
    decreases SizeItems(items), 4
  {
    ghost var before := sb.text;
    sb.Append(OPEN_ARRAY);
    var first := true;
    for i := 0 to |items|
      invariant first <==> i == 0
      invariant Accepted(Array(items[..i]))
      invariant sb.text == before + (OPEN_ARRAY + CanonicalItems(items[..i]))
    {
      var comma := if first then [] else COMMA;
      sb.Append(comma);
      first := false;
      ItemSize(items, i);
      ok := WriteCanonical(items[i], sb, None);
      if !ok {
        return;
      }
      ArrayGrowsAt(before, items, i);
    }
    assert items[..|items|] == items;
    sb.Append(CLOSE_ARRAY);
    ok := true;
  }

  /** What the agent verifies is exactly what the TypeScript signer signed. */
  method CanonicalBytesExcluding(root: Json, excludeKey: Text) returns (result: Option<Text>)
    requires Valid(root) && Paired(root)
    ensures Valid(Excluding(root, Some(excludeKey)))
    ensures result == Canonicalize(Excluding(root, Some(excludeKey)))
    ensures root.Object? && excludeKey == SIGNATURE ==> result == SignedText(root.members)
  {
    var sb := new StringBuilder();
    var ok := WriteCanonical(root, sb, Some(excludeKey));
    if root.Object? {
      WithoutIsValid(root.members, excludeKey);
    }
    if ok {
      assert sb.text == Canonical(Excluding(root, Some(excludeKey)));
      result := Some(sb.text);
    } else {
      result := None;
    }
  }
}
