/**
 Canonical JSON of release metadata (packages/release-schema/src/index.ts):
 printing, a reader that inverts it, and what equal canonical text means.
 */
module CanonicalJson {
  import opened Options
  import opened Utf16
  import opened JsonText
  import opened Sorting

  /** Parsed JSON. `Fraction` is any number that is not an integer. */
  datatype Json =
    | Null
    | Boolean(b: bool)
    | Integer(n: int)
    | Fraction
    | String(s: Text)
    | Array(items: seq<Json>)
    | Object(members: seq<Member>)

  /** Members are in the order the object holds them. */
  datatype Member = Member(key: Text, value: Json)

  const COMMA: Text := [0x2C]
  const COLON: Text := [0x3A]
  const OPEN_ARRAY: Text := [0x5B]
  const CLOSE_ARRAY: Text := [0x5D]
  const OPEN_OBJECT: Text := [0x7B]
  const CLOSE_OBJECT: Text := [0x7D]
  const TRUE: Text := [0x74, 0x72, 0x75, 0x65]
  const FALSE: Text := [0x66, 0x61, 0x6C, 0x73, 0x65]

  const MAX_SAFE_INTEGER := 9007199254740991

  predicate KeyLess(m: Member, n: Member) {
    Less(m.key, n.key)
  }

  lemma KeyLessRanks()
    ensures IsRanking(KeyLess)
  {
    forall m: Member, n: Member | KeyLess(m, n)
      ensures !KeyLess(n, m)
    {
      LessIsTotal(m.key, n.key);
    }
    forall m: Member, n: Member, o: Member | KeyLess(m, o)
      ensures KeyLess(m, n) || KeyLess(n, o)
    {
      LessIsTotal(m.key, n.key);
      LessIsTotal(n.key, o.key);
      if !KeyLess(m, n) && m.key != n.key {
        LessIsTransitive(n.key, m.key, o.key);
      }
    }
  }

  predicate DistinctKeys(ms: seq<Member>) {
    forall i, j | 0 <= i < j < |ms| :: ms[i].key != ms[j].key
  }

  /** What both runtimes can hold: code units, safe integers, no repeated key. */
  predicate Valid(v: Json) {
    match v
    case Integer(n) => -MAX_SAFE_INTEGER <= n <= MAX_SAFE_INTEGER
    case String(s) => IsText(s)
    case Array(items) => forall i | 0 <= i < |items| :: Valid(items[i])
    case Object(ms) => DistinctKeys(ms) && ValidMembers(ms)
    case _ => true
  }

  predicate ValidMembers(ms: seq<Member>) {
    forall i | 0 <= i < |ms| :: IsText(ms[i].key) && Valid(ms[i].value)
  }

  /** No null and no fraction anywhere: the values `canonicalize` does not throw on. */
  predicate Accepted(v: Json) {
    match v
    case Null => false
    case Fraction => false
    case Array(items) => forall i | 0 <= i < |items| :: Accepted(items[i])
    case Object(ms) => AcceptedMembers(ms)
    case _ => true
  }

  predicate AcceptedMembers(ms: seq<Member>) {
    forall i | 0 <= i < |ms| :: Accepted(ms[i].value)
  }

  /** x is the value itself, or lies in it at some depth. */
  predicate Inside(x: Json, v: Json)
    decreases v
  {
    || x == v
    || (v.Array? && exists i | 0 <= i < |v.items| :: Inside(x, v.items[i]))
    || (v.Object? && exists i | 0 <= i < |v.members| :: Inside(x, v.members[i].value))
  }

  /** A value is refused exactly when it is or holds, at some depth, a null or a fraction. */
  lemma {:induction false} AcceptedIff(v: Json)
    ensures Accepted(v) <==> !Inside(Null, v) && !Inside(Fraction, v)
    decreases v
  {
    match v
    case Array(items) =>
      forall i | 0 <= i < |items| ensures Accepted(items[i]) <==> !Inside(Null, items[i]) && !Inside(Fraction, items[i]) {
        AcceptedIff(items[i]);
      }
    case Object(ms) =>
      forall i | 0 <= i < |ms|
        ensures Accepted(ms[i].value) <==> !Inside(Null, ms[i].value) && !Inside(Fraction, ms[i].value)
      {
        AcceptedIff(ms[i].value);
      }
    case _ =>
  }

  // --------------------------------------------------------------------
  // Sizes, the measure of every recursion that sorts on its way down
  // --------------------------------------------------------------------

  ghost function Size(v: Json): int
    ensures Size(v) > 0
    decreases v, 1
  {
    match v
    case Array(items) => 1 + SizeItems(items)
    case Object(ms) => 1 + SizeMembers(ms)
    case _ => 1
  }

  ghost function SizeItems(items: seq<Json>): int
    ensures SizeItems(items) >= 0
    decreases items, 0
  {
    if items == [] then 0 else Size(items[0]) + SizeItems(items[1..])
  }

  ghost function SizeMembers(ms: seq<Member>): int
    ensures SizeMembers(ms) >= 0
    decreases ms, 0
  {
    if ms == [] then 0 else Size(ms[0].value) + SizeMembers(ms[1..])
  }

  lemma {:induction false} InsertKeepsSize(m: Member, ms: seq<Member>)
    ensures SizeMembers(Insert(KeyLess, m, ms)) == Size(m.value) + SizeMembers(ms)
  {
    if ms != [] && KeyLess(ms[0], m) {
      InsertKeepsSize(m, ms[1..]);
      assert Insert(KeyLess, m, ms)[1..] == Insert(KeyLess, m, ms[1..]);
    } else {
      assert Insert(KeyLess, m, ms)[1..] == ms;
    }
  }

  /** The members in key order, and what that keeps of them. */
  function Ordered(ms: seq<Member>): seq<Member> {
    Sort(KeyLess, ms)
  }

  lemma {:induction false} OrderedKeepsSize(ms: seq<Member>)
    ensures SizeMembers(Ordered(ms)) == SizeMembers(ms)
  {
    if ms != [] {
      OrderedKeepsSize(ms[1..]);
      InsertKeepsSize(ms[0], Ordered(ms[1..]));
    }
  }

  lemma OrderedKeepsMembers(ms: seq<Member>)
    ensures |Ordered(ms)| == |ms|
    ensures forall m :: m in Ordered(ms) <==> m in ms
    ensures ValidMembers(ms) ==> ValidMembers(Ordered(ms))
    ensures AcceptedMembers(ms) ==> AcceptedMembers(Ordered(ms))
  {
    var o := Ordered(ms);
    SameElements(o, ms);
    forall i | 0 <= i < |o|
      ensures exists j | 0 <= j < |ms| :: ms[j] == o[i]
    {
      assert o[i] in ms;
    }
  }

  // --------------------------------------------------------------------
  // The printer
  // --------------------------------------------------------------------

  function Canonical(v: Json): Text
    requires Valid(v) && Accepted(v)
    decreases Size(v), 1
  {
    match v
    case Boolean(b) => if b then TRUE else FALSE
    case Integer(n) => Decimal(n)
    case String(s) => Quote(s)
    case Array(items) => OPEN_ARRAY + CanonicalItems(items) + CLOSE_ARRAY
    case Object(ms) =>
      OrderedKeepsMembers(ms);
      OrderedKeepsSize(ms);
      OPEN_OBJECT + CanonicalMembers(Ordered(ms)) + CLOSE_OBJECT
  }

  function CanonicalItems(items: seq<Json>): Text
    requires Valid(Array(items)) && Accepted(Array(items))
    decreases SizeItems(items), 2
  {
    if items == [] then []
    else if |items| == 1 then Canonical(items[0])
    else Canonical(items[0]) + COMMA + CanonicalItems(items[1..])
  }

  function CanonicalMember(m: Member): Text
    requires IsText(m.key) && Valid(m.value) && Accepted(m.value)
    decreases Size(m.value), 2
  {
    Quote(m.key) + COLON + Canonical(m.value)
  }

  function CanonicalMembers(ms: seq<Member>): Text
    requires ValidMembers(ms) && AcceptedMembers(ms)
    decreases SizeMembers(ms), 3
  {
    if ms == [] then []
    else if |ms| == 1 then CanonicalMember(ms[0])
    else CanonicalMember(ms[0]) + COMMA + CanonicalMembers(ms[1..])
  }

  /** `canonicalize`: the text, or the exception it throws. */
  function Canonicalize(v: Json): Option<Text>
    requires Valid(v)
  {
    if Accepted(v) then Some(Canonical(v)) else None
  }

  // --------------------------------------------------------------------
  // The reader
  // --------------------------------------------------------------------

  function ReadValue(t: Text): (r: Reading<Json>)
    ensures r.Read? ==> |r.rest| < |t|
    decreases |t|, 1
  {
    if t == [] then Failed
    else if t[0] == QUOTE then
      match ReadChars(t[1..])
      case Read(s, rest) => Read(String(s), rest)
      case Failed => Failed
    else if OPEN_ARRAY <= t then ReadArray(t)
    else if OPEN_OBJECT <= t then ReadObject(t)
    else if TRUE <= t then Read(Boolean(true), t[|TRUE|..])
    else if FALSE <= t then Read(Boolean(false), t[|FALSE|..])
    else
      match ReadNumber(t)
      case Read(n, rest) => Read(Integer(n), rest)
      case Failed => Failed
  }

  function ReadArray(t: Text): (r: Reading<Json>)
    requires t != []
    ensures r.Read? ==> |r.rest| < |t|
    decreases |t|, 0
  {
    if CLOSE_ARRAY <= t[1..] then Read(Array([]), t[2..])
    else
      match ReadItems(t[1..])
      case Read(items, rest) => Read(Array(items), rest)
      case Failed => Failed
  }

  function ReadItems(t: Text): (r: Reading<seq<Json>>)
    ensures r.Read? ==> |r.rest| < |t|
    decreases |t|, 2
  {
    match ReadValue(t)
    case Failed => Failed
    case Read(v, more) =>
      if CLOSE_ARRAY <= more then Read([v], more[1..])
      else if COMMA <= more then
        match ReadItems(more[1..])
        case Read(items, rest) => Read([v] + items, rest)
        case Failed => Failed
      else Failed
  }

  function ReadObject(t: Text): (r: Reading<Json>)
    requires t != []
    ensures r.Read? ==> |r.rest| < |t|
    decreases |t|, 0
  {
    if CLOSE_OBJECT <= t[1..] then Read(Object([]), t[2..])
    else
      match ReadMembers(t[1..])
      case Read(ms, rest) => Read(Object(ms), rest)
      case Failed => Failed
  }

  function ReadMember(t: Text): (r: Reading<Member>)
    ensures r.Read? ==> |r.rest| < |t|
    decreases |t|, 2
  {
    if t == [] || t[0] != QUOTE then Failed
    else
      match ReadChars(t[1..])
      case Failed => Failed
      case Read(key, more) =>
        if COLON <= more then
          match ReadValue(more[1..])
          case Read(value, rest) => Read(Member(key, value), rest)
          case Failed => Failed
        else Failed
  }

  function ReadMembers(t: Text): (r: Reading<seq<Member>>)
    ensures r.Read? ==> |r.rest| < |t|
    decreases |t|, 3
  {
    match ReadMember(t)
    case Failed => Failed
    case Read(m, more) =>
      if CLOSE_OBJECT <= more then Read([m], more[1..])
      else if COMMA <= more then
        match ReadMembers(more[1..])
        case Read(ms, rest) => Read([m] + ms, rest)
        case Failed => Failed
      else Failed
  }

  // --------------------------------------------------------------------
  // Reading back what was printed
  // --------------------------------------------------------------------

  /** `v` with the members of every object in key order. */
  function Normal(v: Json): Json
    decreases Size(v), 1
  {
    match v
    case Array(items) => Array(NormalItems(items))
    case Object(ms) =>
      OrderedKeepsSize(ms);
      Object(NormalMembers(Ordered(ms)))
    case _ => v
  }

  function NormalItems(items: seq<Json>): (r: seq<Json>)
    ensures |r| == |items|
    decreases SizeItems(items), 2
  {
    if items == [] then [] else [Normal(items[0])] + NormalItems(items[1..])
  }

  function NormalMembers(ms: seq<Member>): (r: seq<Member>)
    ensures |r| == |ms|
    decreases SizeMembers(ms), 2
  {
    if ms == [] then [] else [Member(ms[0].key, Normal(ms[0].value))] + NormalMembers(ms[1..])
  }

  /** Text that cannot extend an integer. */
  predicate EndsNumber(rest: Text) {
    rest != [] ==> !IsDigit(rest[0])
  }

  lemma StringReadsBack(s: Text, rest: Text)
    requires IsText(s)
    ensures Quote(s) + rest != [] && (Quote(s) + rest)[0] == QUOTE
    ensures ReadChars((Quote(s) + rest)[1..]) == Read(s, rest)
  {
    EscapeIsRead(s, rest);
    QuoteOpens(s, rest);
    AfterFirst(QUOTE, Closed(s, rest));
  }

  lemma QuoteOpens(s: Text, rest: Text)
    requires IsText(s)
    ensures Quote(s) + rest == [QUOTE] + Closed(s, rest)
  {
    Associative([QUOTE], Escape(s), [QUOTE]);
    Associative([QUOTE], Escape(s) + [QUOTE], rest);
    Associative(Escape(s), [QUOTE], rest);
  }

  lemma AfterFirst(x: CodeUnit, t: Text)
    ensures [x] + t != [] && ([x] + t)[0] == x && ([x] + t)[1..] == t
  {
  }

  lemma {:induction false} ReadsBack(v: Json, rest: Text)
    requires Valid(v) && Accepted(v)
    requires v.Integer? ==> EndsNumber(rest)
    ensures ReadValue(Canonical(v) + rest) == Read(Normal(v), rest)
    ensures Canonical(v) != [] && !(CLOSE_ARRAY <= Canonical(v))
    decreases Size(v), 1
  {
    match v
    case Boolean(b) =>
      var word := if b then TRUE else FALSE;
      assert (word + rest)[|word|..] == rest;
    case Integer(n) =>
      DecimalIsRead(n, rest);
    case String(s) =>
      StringReadsBack(s, rest);
    case Array(items) =>
      ArrayReadsBack(items, rest);
    case Object(ms) =>
      ObjectReadsBack(ms, rest);
  }

  /** What the reader sees after the opening bracket of an array. */
  function ItemsText(items: seq<Json>, rest: Text): Text
    requires Valid(Array(items)) && Accepted(Array(items))
  {
    CanonicalItems(items) + (CLOSE_ARRAY + rest)
  }

  /** What the reader sees after the opening brace of an object. */
  function MembersText(ms: seq<Member>, rest: Text): Text
    requires ValidMembers(ms) && AcceptedMembers(ms)
  {
    CanonicalMembers(ms) + (CLOSE_OBJECT + rest)
  }

  lemma Bracketed(open: Text, inside: Text, close: Text, rest: Text)
    ensures (open + inside + close) + rest == open + (inside + (close + rest))
  {
  }

  lemma ItemsTextStep(items: seq<Json>, rest: Text)
    requires |items| > 1 && Valid(Array(items)) && Accepted(Array(items))
    ensures ItemsText(items, rest) == Canonical(items[0]) + (COMMA + ItemsText(items[1..], rest))
  {
    Bracketed(Canonical(items[0]), COMMA, CanonicalItems(items[1..]), CLOSE_ARRAY + rest);
  }

  lemma MembersTextStep(ms: seq<Member>, rest: Text)
    requires |ms| > 1 && ValidMembers(ms) && AcceptedMembers(ms)
    ensures MembersText(ms, rest) == CanonicalMember(ms[0]) + (COMMA + MembersText(ms[1..], rest))
  {
    Bracketed(CanonicalMember(ms[0]), COMMA, CanonicalMembers(ms[1..]), CLOSE_OBJECT + rest);
  }

  lemma {:induction false} ArrayReadsBack(items: seq<Json>, rest: Text)
    requires Valid(Array(items)) && Accepted(Array(items))
    ensures ReadArray(Canonical(Array(items)) + rest) == Read(Normal(Array(items)), rest)
    decreases Size(Array(items)), 0
  {
    var t := Canonical(Array(items)) + rest;
    Bracketed(OPEN_ARRAY, CanonicalItems(items), CLOSE_ARRAY, rest);
    assert t[1..] == ItemsText(items, rest);
    if items == [] {
      assert t[1..] == CLOSE_ARRAY + rest;
      assert t[2..] == rest;
    } else {
      ItemsReadBack(items, rest);
    }
  }

  lemma ReadNextItem(t: Text, v: Json, more: Text, items: seq<Json>, rest: Text)
    requires ReadValue(t) == Read(v, COMMA + more) && ReadItems(more) == Read(items, rest)
    ensures ReadItems(t) == Read([v] + items, rest)
  {
    assert (COMMA + more)[1..] == more && (COMMA + more)[0] == COMMA[0];
    assert COMMA <= COMMA + more;
  }

  lemma {:induction false} ItemsReadBack(items: seq<Json>, rest: Text)
    requires items != [] && Valid(Array(items)) && Accepted(Array(items))
    ensures ReadItems(ItemsText(items, rest)) == Read(NormalItems(items), rest)
    ensures !(CLOSE_ARRAY <= ItemsText(items, rest))
    decreases SizeItems(items), 2
  {
    var v := Normal(items[0]);
    if |items| == 1 {
      ReadsBack(items[0], CLOSE_ARRAY + rest);
      assert NormalItems(items) == [v];
    } else {
      var more := ItemsText(items[1..], rest);
      ReadsBack(items[0], COMMA + more);
      ItemsReadBack(items[1..], rest);
      ItemsTextStep(items, rest);
      ReadNextItem(ItemsText(items, rest), v, more, NormalItems(items[1..]), rest);
    }
  }

  lemma {:induction false} ObjectReadsBack(ms: seq<Member>, rest: Text)
    requires Valid(Object(ms)) && Accepted(Object(ms))
    ensures ReadObject(Canonical(Object(ms)) + rest) == Read(Normal(Object(ms)), rest)
    decreases Size(Object(ms)), 0
  {
    OrderedKeepsMembers(ms);
    OrderedKeepsSize(ms);
    var os := Ordered(ms);
    var t := Canonical(Object(ms)) + rest;
    Bracketed(OPEN_OBJECT, CanonicalMembers(os), CLOSE_OBJECT, rest);
    assert t[1..] == MembersText(os, rest);
    if os == [] {
      assert t[1..] == CLOSE_OBJECT + rest;
      assert t[2..] == rest;
    } else {
      MembersReadBack(os, rest);
    }
  }

  lemma ReadNextMember(t: Text, m: Member, more: Text, ms: seq<Member>, rest: Text)
    requires ReadMember(t) == Read(m, COMMA + more) && ReadMembers(more) == Read(ms, rest)
    ensures ReadMembers(t) == Read([m] + ms, rest)
  {
    assert (COMMA + more)[1..] == more && (COMMA + more)[0] == COMMA[0];
    assert COMMA <= COMMA + more;
  }

  lemma {:induction false} MemberReadsBack(m: Member, rest: Text)
    requires IsText(m.key) && Valid(m.value) && Accepted(m.value) && EndsNumber(rest)
    ensures ReadMember(CanonicalMember(m) + rest) == Read(Member(m.key, Normal(m.value)), rest)
    ensures CanonicalMember(m)[0] == QUOTE
    decreases Size(m.value), 2
  {
    var value := Canonical(m.value) + rest;
    Bracketed(Quote(m.key), COLON, Canonical(m.value), rest);
    StringReadsBack(m.key, COLON + value);
    assert (COLON + value)[1..] == value;
    ReadsBack(m.value, rest);
  }

  lemma {:induction false} MembersReadBack(ms: seq<Member>, rest: Text)
    requires ms != [] && ValidMembers(ms) && AcceptedMembers(ms)
    ensures ReadMembers(MembersText(ms, rest)) == Read(NormalMembers(ms), rest)
    ensures !(CLOSE_OBJECT <= MembersText(ms, rest))
    decreases SizeMembers(ms), 3
  {
    var m := Member(ms[0].key, Normal(ms[0].value));
    if |ms| == 1 {
      MemberReadsBack(ms[0], CLOSE_OBJECT + rest);
      assert NormalMembers(ms) == [m];
    } else {
      var more := MembersText(ms[1..], rest);
      MemberReadsBack(ms[0], COMMA + more);
      MembersReadBack(ms[1..], rest);
      MembersTextStep(ms, rest);
      ReadNextMember(MembersText(ms, rest), m, more, NormalMembers(ms[1..]), rest);
    }
  }

  // --------------------------------------------------------------------
  // Equal text means equal values
  // --------------------------------------------------------------------

  /** Equality of JSON values: arrays element by element, objects key by key. */
  ghost predicate SameValue(v: Json, w: Json)
    decreases v
  {
    match (v, w)
    case (Array(a), Array(b)) =>
      |a| == |b| && forall i | 0 <= i < |a| :: SameValue(a[i], b[i])
    case (Object(ms), Object(ns)) =>
      |ms| == |ns| && forall i | 0 <= i < |ms| :: exists j | 0 <= j < |ns| ::
        ms[i].key == ns[j].key && SameValue(ms[i].value, ns[j].value)
    case _ => v == w
  }

  lemma {:induction false} ItemSize(items: seq<Json>, i: int)
    requires 0 <= i < |items|
    ensures Size(items[i]) <= SizeItems(items)
    decreases |items|
  {
    if i != 0 {
      ItemSize(items[1..], i - 1);
    }
  }

  lemma {:induction false} MemberSize(ms: seq<Member>, i: int)
    requires 0 <= i < |ms|
    ensures Size(ms[i].value) <= SizeMembers(ms)
    decreases |ms|
  {
    if i != 0 {
      MemberSize(ms[1..], i - 1);
    }
  }

  lemma {:induction false} NormalItemsAt(items: seq<Json>, i: int)
    requires 0 <= i < |items|
    ensures NormalItems(items)[i] == Normal(items[i])
    decreases |items|
  {
    if i != 0 {
      NormalItemsAt(items[1..], i - 1);
    }
  }

  lemma {:induction false} NormalMembersAt(ms: seq<Member>, i: int)
    requires 0 <= i < |ms|
    ensures NormalMembers(ms)[i] == Member(ms[i].key, Normal(ms[i].value))
    decreases |ms|
  {
    if i != 0 {
      NormalMembersAt(ms[1..], i - 1);
    }
  }

  lemma {:induction false} SameNormalForm(v: Json, w: Json)
    requires Normal(v) == Normal(w)
    ensures SameValue(v, w)
    decreases Size(v)
  {
    match (v, w)
    case (Array(a), Array(b)) =>
      forall i | 0 <= i < |a|
        ensures SameValue(a[i], b[i])
      {
        NormalItemsAt(a, i);
        NormalItemsAt(b, i);
        ItemSize(a, i);
        SameNormalForm(a[i], b[i]);
      }
    case (Object(ms), Object(ns)) =>
      OrderedKeepsMembers(ms);
      OrderedKeepsMembers(ns);
      forall i | 0 <= i < |ms|
        ensures exists j | 0 <= j < |ns| :: ms[i].key == ns[j].key && SameValue(ms[i].value, ns[j].value)
      {
        var j := SameNormalMember(ms, ns, i);
        MemberSize(ms, i);
        SameNormalForm(ms[i].value, ns[j].value);
      }
    case _ =>
  }

  lemma SameNormalMember(ms: seq<Member>, ns: seq<Member>, i: int) returns (j: int)
    requires 0 <= i < |ms| && Normal(Object(ms)) == Normal(Object(ns))
    ensures 0 <= j < |ns| && ms[i].key == ns[j].key && Normal(ms[i].value) == Normal(ns[j].value)
  {
    OrderedKeepsMembers(ms);
    OrderedKeepsMembers(ns);
    assert ms[i] in Ordered(ms);
    var k :| 0 <= k < |Ordered(ms)| && Ordered(ms)[k] == ms[i];
    assert NormalMembers(Ordered(ms)) == NormalMembers(Ordered(ns));
    NormalMembersAt(Ordered(ms), k);
    NormalMembersAt(Ordered(ns), k);
    assert Ordered(ns)[k] in ns;
    j :| 0 <= j < |ns| && ns[j] == Ordered(ns)[k];
  }

  function Keys(ms: seq<Member>): (r: seq<Text>)
    ensures |r| == |ms|
    ensures forall i | 0 <= i < |ms| :: r[i] == ms[i].key
  {
    seq(|ms|, i requires 0 <= i < |ms| => ms[i].key)
  }

  lemma LessRanks()
    ensures IsRanking(Less)
    ensures forall s: seq<Text> :: RanksApart(Less, s)
  {
    forall s: Text, t: Text
      ensures Less(s, t) ==> !Less(t, s)
      ensures Less(s, t) || Less(t, s) || s == t
    {
      LessIsTotal(s, t);
    }
    forall s: Text, t: Text, u: Text | Less(s, u)
      ensures Less(s, t) || Less(t, u)
    {
      LessIsTotal(s, t);
      if !Less(s, t) && s != t {
        LessIsTransitive(t, s, u);
      }
    }
  }

  /** Members in key order: the keys come out ascending, each exactly once. */
  lemma OrderedKeys(ms: seq<Member>)
    requires DistinctKeys(ms)
    ensures Sorted(Less, Keys(Ordered(ms)))
    ensures Distinct(Keys(Ordered(ms)))
  {
    var os := Ordered(ms);
    KeyLessRanks();
    SortIsSorted(KeyLess, ms);
    forall i, j | 0 <= i < j < |os|
      ensures !Less(os[j].key, os[i].key)
    {
      assert !KeyLess(os[j], os[i]);
    }
    var keyOf := (m: Member) => m.key;
    assert Keys(ms) == Map(keyOf, ms) && Keys(os) == Map(keyOf, os);
    MapCount(keyOf, ms, os);
    PartOfDistinct(Keys(os), Keys(ms));
  }

  lemma {:induction false} SameText(v: Json, w: Json)
    requires Valid(v) && Accepted(v) && Valid(w) && Accepted(w)
    requires SameValue(v, w)
    ensures Canonical(v) == Canonical(w)
    decreases Size(v), 1
  {
    match (v, w)
    case (Array(a), Array(b)) =>
      SameItemsText(a, b);
    case (Object(ms), Object(ns)) =>
      OrderedKeepsMembers(ms);
      OrderedKeepsMembers(ns);
      OrderedKeepsSize(ms);
      SameMembersInOrder(ms, ns);
      SameMembersText(Ordered(ms), Ordered(ns));
    case _ =>
  }

  lemma {:induction false} SameItemsText(a: seq<Json>, b: seq<Json>)
    requires Valid(Array(a)) && Accepted(Array(a)) && Valid(Array(b)) && Accepted(Array(b))
    requires |a| == |b| && forall i | 0 <= i < |a| :: SameValue(a[i], b[i])
    ensures CanonicalItems(a) == CanonicalItems(b)
    decreases SizeItems(a), 2
  {
    if a != [] {
      SameText(a[0], b[0]);
      SameItemsText(a[1..], b[1..]);
    }
  }

  lemma {:induction false} SameMembersText(ms: seq<Member>, ns: seq<Member>)
    requires ValidMembers(ms) && AcceptedMembers(ms) && ValidMembers(ns) && AcceptedMembers(ns)
    requires |ms| == |ns|
    requires forall i | 0 <= i < |ms| :: ms[i].key == ns[i].key && SameValue(ms[i].value, ns[i].value)
    ensures CanonicalMembers(ms) == CanonicalMembers(ns)
    decreases SizeMembers(ms), 3
  {
    if ms != [] {
      SameText(ms[0].value, ns[0].value);
      SameMembersText(ms[1..], ns[1..]);
    }
  }

  /** Objects that are equal as maps line up once both are in key order. */
  lemma SameMembersInOrder(ms: seq<Member>, ns: seq<Member>)
    requires DistinctKeys(ms) && DistinctKeys(ns) && SameValue(Object(ms), Object(ns))
    ensures |Ordered(ms)| == |Ordered(ns)|
    ensures forall k | 0 <= k < |ms| ::
      Ordered(ms)[k].key == Ordered(ns)[k].key && SameValue(Ordered(ms)[k].value, Ordered(ns)[k].value)
  {
    var os, op := Ordered(ms), Ordered(ns);
    SameKeysInOrder(ms, ns);
    OrderedKeys(ns);
    forall k | 0 <= k < |ms|
      ensures os[k].key == op[k].key && SameValue(os[k].value, op[k].value)
    {
      var j := SameMember(ms, ns, k);
      assert Keys(os)[k] == Keys(op)[k] && Keys(op)[j] == Keys(op)[k];
      assert j == k;
    }
  }

  /** The member of `Ordered(ns)` equal to the k-th of `Ordered(ms)`. */
  lemma SameMember(ms: seq<Member>, ns: seq<Member>, k: int) returns (j: int)
    requires SameValue(Object(ms), Object(ns)) && 0 <= k < |ms|
    ensures 0 <= j < |Ordered(ns)|
    ensures Ordered(ms)[k].key == Ordered(ns)[j].key && SameValue(Ordered(ms)[k].value, Ordered(ns)[j].value)
  {
    OrderedKeepsMembers(ms);
    OrderedKeepsMembers(ns);
    assert Ordered(ms)[k] in ms;
    var i :| 0 <= i < |ms| && ms[i] == Ordered(ms)[k];
    var i' :| 0 <= i' < |ns| && ms[i].key == ns[i'].key && SameValue(ms[i].value, ns[i'].value);
    assert ns[i'] in Ordered(ns);
    j :| 0 <= j < |Ordered(ns)| && Ordered(ns)[j] == ns[i'];
  }

  lemma SameKeysInOrder(ms: seq<Member>, ns: seq<Member>)
    requires DistinctKeys(ms) && DistinctKeys(ns) && SameValue(Object(ms), Object(ns))
    ensures Keys(Ordered(ms)) == Keys(Ordered(ns))
  {
    var ks, kt := Keys(Ordered(ms)), Keys(Ordered(ns));
    OrderedKeys(ms);
    OrderedKeys(ns);
    forall x | x in ks
      ensures x in kt
    {
      var k :| 0 <= k < |ks| && ks[k] == x;
      var j := SameMember(ms, ns, k);
      assert kt[j] == x;
    }
    AscendingIsUnique(ks, kt);
  }

  lemma AscendingIsUnique(s: seq<Text>, t: seq<Text>)
    requires Sorted(Less, s) && Sorted(Less, t) && Distinct(s) && Distinct(t)
    requires |s| == |t| && forall x | x in s :: x in t
    ensures s == t
  {
    DistinctSame(s, t);
    LessRanks();
    assert RanksApart(Less, s);
    SortedIsUnique(Less, s, t);
  }

  /** Two values have the same canonical text exactly when they are equal up to key order. */
  lemma CanonicalTextDecidesEquality(v: Json, w: Json)
    requires Valid(v) && Accepted(v) && Valid(w) && Accepted(w)
    ensures Canonical(v) == Canonical(w) <==> SameValue(v, w)
  {
    if Canonical(v) == Canonical(w) {
      ReadsBack(v, []);
      ReadsBack(w, []);
      SameNormalForm(v, w);
    } else if SameValue(v, w) {
      SameText(v, w);
    }
  }

  // --------------------------------------------------------------------
  // Signed metadata
  // --------------------------------------------------------------------

  /** "signature" */
  const SIGNATURE: Text := [0x73, 0x69, 0x67, 0x6E, 0x61, 0x74, 0x75, 0x72, 0x65]

  function Without(ms: seq<Member>, key: Text): (r: seq<Member>)
    ensures forall m :: m in r <==> m in ms && m.key != key
  {
    if ms == [] then []
    else
      assert ms == [ms[0]] + ms[1..];
      if ms[0].key == key then Without(ms[1..], key) else [ms[0]] + Without(ms[1..], key)
  }

  /** `{ ...object, [m.key]: m.value }` */
  function Put(ms: seq<Member>, m: Member): seq<Member> {
    if ms == [] then [m]
    else if ms[0].key == m.key then [m] + ms[1..]
    else [ms[0]] + Put(ms[1..], m)
  }

  lemma {:induction false} WithoutKeepsKeysDistinct(ms: seq<Member>, key: Text)
    requires DistinctKeys(ms)
    ensures DistinctKeys(Without(ms, key))
  {
    if ms != [] {
      var tail := Without(ms[1..], key);
      WithoutKeepsKeysDistinct(ms[1..], key);
      forall i | 0 <= i < |tail|
        ensures tail[i].key != ms[0].key
      {
        assert tail[i] in ms[1..];
      }
    }
  }

  lemma WithoutIsValid(ms: seq<Member>, key: Text)
    requires Valid(Object(ms))
    ensures Valid(Object(Without(ms, key)))
    ensures Accepted(Object(ms)) ==> Accepted(Object(Without(ms, key)))
  {
    var r := Without(ms, key);
    WithoutKeepsKeysDistinct(ms, key);
    forall i | 0 <= i < |r|
      ensures exists j | 0 <= j < |ms| :: ms[j] == r[i]
    {
      assert r[i] in ms;
    }
    assert ValidMembers(r);
    assert AcceptedMembers(ms) ==> AcceptedMembers(r);
  }

  lemma {:induction false} PutThenWithout(ms: seq<Member>, m: Member)
    ensures Without(Put(ms, m), m.key) == Without(ms, m.key)
  {
    if ms != [] {
      PutThenWithout(ms[1..], m);
      assert Put(ms, m)[1..] == if ms[0].key == m.key then ms[1..] else Put(ms[1..], m);
    }
  }

  /** `canonicalBytes` before encoding: what is signed and what is verified. */
  function SignedText(ms: seq<Member>): Option<Text>
    requires Valid(Object(ms))
  {
    WithoutIsValid(ms, SIGNATURE);
    Canonicalize(Object(Without(ms, SIGNATURE)))
  }

  /** Adding or replacing the signature leaves the signed text alone. */
  lemma SignatureIsNotSigned(ms: seq<Member>, signature: Json)
    requires Valid(Object(ms)) && Valid(Object(Put(ms, Member(SIGNATURE, signature))))
    ensures SignedText(Put(ms, Member(SIGNATURE, signature))) == SignedText(ms)
  {
    PutThenWithout(ms, Member(SIGNATURE, signature));
  }

  /** Everything else is signed, also a "signature" key inside a nested object. */
  lemma SignedTextDecidesContent(ms: seq<Member>, ns: seq<Member>)
    requires Valid(Object(ms)) && Valid(Object(ns))
    requires SignedText(ms).Some? && SignedText(ns).Some?
    ensures SignedText(ms) == SignedText(ns)
       <==> SameValue(Object(Without(ms, SIGNATURE)), Object(Without(ns, SIGNATURE)))
  {
    WithoutIsValid(ms, SIGNATURE);
    WithoutIsValid(ns, SIGNATURE);
    CanonicalTextDecidesEquality(Object(Without(ms, SIGNATURE)), Object(Without(ns, SIGNATURE)));
  }

  /** "keyId" */
  const KEY_ID: Text := [0x6B, 0x65, 0x79, 0x49, 0x64]

  function Lookup(ms: seq<Member>, key: Text): Option<Json> {
    if ms == [] then None
    else if ms[0].key == key then Some(ms[0].value)
    else Lookup(ms[1..], key)
  }

  lemma {:induction false} LookupAfterPut(ms: seq<Member>, m: Member, key: Text)
    ensures Lookup(Put(ms, m), key) == if key == m.key then Some(m.value) else Lookup(ms, key)
  {
    if ms != [] && ms[0].key != m.key {
      LookupAfterPut(ms[1..], m, key);
    }
  }

  lemma {:induction false} PutIsValid(ms: seq<Member>, m: Member)
    requires Valid(Object(ms)) && IsText(m.key) && Valid(m.value)
    ensures Valid(Object(Put(ms, m)))
    ensures forall i | 0 <= i < |Put(ms, m)| :: Put(ms, m)[i] == m || Put(ms, m)[i] in ms
  {
    if ms != [] && ms[0].key != m.key {
      var tail := Put(ms[1..], m);
      assert Valid(Object(ms[1..]));
      PutIsValid(ms[1..], m);
      forall i | 0 <= i < |tail|
        ensures tail[i].key != ms[0].key && (tail[i] == m || tail[i] in ms)
      {
        if tail[i] != m {
          assert tail[i] in ms[1..];
        }
      }
    }
  }

  /** `signMetadata`, the signature primitive being `sign`. */
  function SignMetadata(ms: seq<Member>, sign: Text -> Text): Option<seq<Member>>
    requires Valid(Object(ms))
  {
    match SignedText(ms)
    case Some(message) => Some(Put(ms, Member(SIGNATURE, String(sign(message)))))
    case None => None
  }

  /** `verifyMetadata`, `check(publicKey, message, signature)` being the verification primitive. */
  function VerifyMetadata(ms: seq<Member>, publicKeys: map<Text, Text>, check: (Text, Text, Text) -> bool): bool
    requires Valid(Object(ms))
  {
    match (Lookup(ms, KEY_ID), Lookup(ms, SIGNATURE), SignedText(ms))
    case (Some(String(keyId)), Some(String(signature)), Some(message)) =>
      keyId in publicKeys && publicKeys[keyId] != [] && check(publicKeys[keyId], message, signature)
    case _ => false
  }

  /** A signature made over `ms` is accepted on `ns` exactly when the two agree outside the signature. */
  lemma SignatureBindsContent(
      ms: seq<Member>, ns: seq<Member>, keyId: Text, publicKeys: map<Text, Text>,
      sign: Text -> Text, check: (Text, Text, Text) -> bool)
    requires Valid(Object(ms)) && Valid(Object(ns)) && SignedText(ms).Some? && SignedText(ns).Some?
    requires Lookup(ns, KEY_ID) == Some(String(keyId)) && keyId in publicKeys && publicKeys[keyId] != []
    requires forall message :: IsText(sign(message))
    requires forall message, signature ::
      check(publicKeys[keyId], message, signature) <==> signature == sign(message)
    requires forall message, other :: sign(message) == sign(other) ==> message == other
    ensures var signed := Put(ns, Member(SIGNATURE, String(sign(SignedText(ms).value))));
      && Valid(Object(signed))
      && (VerifyMetadata(signed, publicKeys, check)
          <==> SameValue(Object(Without(ms, SIGNATURE)), Object(Without(ns, SIGNATURE))))
  {
    var signature := sign(SignedText(ms).value);
    ResignedIsRead(ns, signature);
    SignedTextDecidesContent(ms, ns);
  }

  lemma ResignedIsRead(ms: seq<Member>, signature: Text)
    requires Valid(Object(ms)) && IsText(signature)
    ensures var signed := Put(ms, Member(SIGNATURE, String(signature)));
      && Valid(Object(signed))
      && Lookup(signed, SIGNATURE) == Some(String(signature))
      && Lookup(signed, KEY_ID) == Lookup(ms, KEY_ID)
      && SignedText(signed) == SignedText(ms)
  {
    var m := Member(SIGNATURE, String(signature));
    PutIsValid(ms, m);
    SignatureIsNotSigned(ms, m.value);
    LookupAfterPut(ms, m, KEY_ID);
    LookupAfterPut(ms, m, SIGNATURE);
  }

  /** What was signed is verified: the two ends agree on every metadata object that has a known key. */
  lemma SignedIsVerified(
      ms: seq<Member>, keyId: Text, publicKeys: map<Text, Text>, sign: Text -> Text, check: (Text, Text, Text) -> bool)
    requires Valid(Object(ms)) && SignedText(ms).Some?
    requires Lookup(ms, KEY_ID) == Some(String(keyId)) && keyId in publicKeys && publicKeys[keyId] != []
    requires forall message :: IsText(sign(message)) && check(publicKeys[keyId], message, sign(message))
    ensures var signed := SignMetadata(ms, sign);
      signed.Some? && Valid(Object(signed.value)) && VerifyMetadata(signed.value, publicKeys, check)
  {
    ResignedIsRead(ms, sign(SignedText(ms).value));
  }

  lemma {:induction false} LookupFinds(ms: seq<Member>, key: Text, value: Json)
    requires DistinctKeys(ms)
    ensures Lookup(ms, key) == Some(value) <==> Member(key, value) in ms
  {
    if ms != [] {
      LookupFinds(ms[1..], key, value);
      if ms[0].key == key && Member(key, value) in ms {
        var i :| 0 <= i < |ms| && ms[i] == Member(key, value);
        assert i == 0;
      }
    }
  }

  /** The key named in the object is a known one, and accepts the signature on the signed text. */
  predicate SignedBy(
      ms: seq<Member>, keyId: Text, signature: Text, publicKeys: map<Text, Text>, check: (Text, Text, Text) -> bool)
    requires Valid(Object(ms))
  {
    && Member(KEY_ID, String(keyId)) in ms && Member(SIGNATURE, String(signature)) in ms
    && keyId in publicKeys && publicKeys[keyId] != []
    && SignedText(ms).Some? && check(publicKeys[keyId], SignedText(ms).value, signature)
  }

  /**
   Whatever the keys and the check: an object is verified exactly when it names a known key and carries a signature
   that the key accepts on its signed text. An unknown key, a missing signature and a refused text each fail.
   */
  lemma VerifiedIff(ms: seq<Member>, publicKeys: map<Text, Text>, check: (Text, Text, Text) -> bool)
    requires Valid(Object(ms))
    ensures VerifyMetadata(ms, publicKeys, check)
       <==> exists keyId, signature :: SignedBy(ms, keyId, signature, publicKeys, check)
  {
    if VerifyMetadata(ms, publicKeys, check) {
      var keyId, signature := Lookup(ms, KEY_ID).value.s, Lookup(ms, SIGNATURE).value.s;
      LookupFinds(ms, KEY_ID, String(keyId));
      LookupFinds(ms, SIGNATURE, String(signature));
      assert SignedBy(ms, keyId, signature, publicKeys, check);
    }
    if keyId, signature :| SignedBy(ms, keyId, signature, publicKeys, check) {
      LookupFinds(ms, KEY_ID, String(keyId));
      LookupFinds(ms, SIGNATURE, String(signature));
    }
  }
}
