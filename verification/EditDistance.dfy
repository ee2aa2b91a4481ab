/**
 Edit distance between two user names, as the distractor ranking computes it.

 The specification is the textbook one: the least number of single-character
 insertions, deletions and substitutions that rewrite one sequence into the
 other. The table-filling method is proved against it.
 */
module EditDistance {
  import opened Options
  import opened Utf16

  // --------------------------------------------------------------------
  // Reference definition: scripts of single-character edits
  // --------------------------------------------------------------------

  datatype Edit =
    | Insert(at: nat, value: CodeUnit)
    | Delete(at: nat)
    | Substitute(at: nat, value: CodeUnit)

  predicate Applicable(e: Edit, s: Text) {
    match e
    case Insert(i, _) => i <= |s|
    case Delete(i) => i < |s|
    case Substitute(i, _) => i < |s|
  }

  function Apply(e: Edit, s: Text): Text
    requires Applicable(e, s)
  {
    match e
    case Insert(i, c) => s[..i] + [c] + s[i..]
    case Delete(i) => s[..i] + s[i + 1..]
    case Substitute(i, c) => s[..i] + [c] + s[i + 1..]
  }

  /** What the edits of `script`, applied one after the other, make of `s`. */
  function Edited(s: Text, script: seq<Edit>): Option<Text>
    decreases |script|
  {
    if script == [] then Some(s)
    else if Applicable(script[0], s) then Edited(Apply(script[0], s), script[1..])
    else None
  }

  predicate Rewrites(s: Text, script: seq<Edit>, t: Text) {
    Edited(s, script) == Some(t)
  }

  // --------------------------------------------------------------------
  // The recurrence behind the table
  // --------------------------------------------------------------------

  function Min3(x: int, y: int, z: int): int {
    if x <= y && x <= z then x else if y <= z then y else z
  }

  function Max(x: int, y: int): int {
    if x <= y then y else x
  }

  /** Distance between the first `i` elements of `a` and the first `j` of `b`. */
  function Entry(a: Text, b: Text, i: int, j: int): int
    requires 0 <= i <= |a| && 0 <= j <= |b|
    decreases i + j
  {
    if i == 0 then j
    else if j == 0 then i
    else Min3(Entry(a, b, i - 1, j) + 1, Entry(a, b, i, j - 1) + 1,
              Entry(a, b, i - 1, j - 1) + (if a[i - 1] == b[j - 1] then 0 else 1))
  }

  function Distance(a: Text, b: Text): int {
    Entry(a, b, |a|, |b|)
  }

  // --------------------------------------------------------------------
  // Distance is a metric between its length bounds
  // --------------------------------------------------------------------

  lemma {:induction false} EntryBounds(a: Text, b: Text, i: nat, j: nat)
    requires i <= |a| && j <= |b|
    ensures 0 <= Entry(a, b, i, j) <= Max(i, j)
    ensures i <= j + Entry(a, b, i, j)
    ensures j <= i + Entry(a, b, i, j)
    decreases i + j
  {
    if i != 0 && j != 0 {
      EntryBounds(a, b, i - 1, j);
      EntryBounds(a, b, i, j - 1);
      EntryBounds(a, b, i - 1, j - 1);
    }
  }

  lemma {:induction false} EntryZero(a: Text, b: Text, i: nat, j: nat)
    requires i <= |a| && j <= |b|
    ensures Entry(a, b, i, j) >= 0
    ensures Entry(a, b, i, j) == 0 <==> i == j && forall k | 0 <= k < i :: a[k] == b[k]
    decreases i + j
  {
    if i != 0 && j != 0 {
      EntryBounds(a, b, i - 1, j);
      EntryBounds(a, b, i, j - 1);
      EntryZero(a, b, i - 1, j - 1);
    }
  }

  lemma {:induction false} EntrySymmetric(a: Text, b: Text, i: nat, j: nat)
    requires i <= |a| && j <= |b|
    ensures Entry(a, b, i, j) == Entry(b, a, j, i)
    decreases i + j
  {
    if i != 0 && j != 0 {
      EntrySymmetric(a, b, i - 1, j);
      EntrySymmetric(a, b, i, j - 1);
      EntrySymmetric(a, b, i - 1, j - 1);
    }
  }

  lemma TriangleAtEdge(a: Text, b: Text, c: Text, i: nat, j: nat, k: nat)
    requires i <= |a| && j <= |b| && k <= |c| && (i == 0 || j == 0 || k == 0)
    ensures Entry(a, c, i, k) <= Entry(a, b, i, j) + Entry(b, c, j, k)
  {
    EntryBounds(a, b, i, j);
    EntryBounds(b, c, j, k);
    EntryBounds(a, c, i, k);
  }

  lemma {:induction false} EntryTriangle(a: Text, b: Text, c: Text, i: nat, j: nat, k: nat)
    requires i <= |a| && j <= |b| && k <= |c|
    ensures Entry(a, c, i, k) <= Entry(a, b, i, j) + Entry(b, c, j, k)
    decreases i + j + k
  {
    if i == 0 || j == 0 || k == 0 {
      TriangleAtEdge(a, b, c, i, j, k);
    } else if Entry(a, b, i, j) == Entry(a, b, i - 1, j) + 1 {
      EntryTriangle(a, b, c, i - 1, j, k);
    } else if Entry(b, c, j, k) == Entry(b, c, j, k - 1) + 1 {
      EntryTriangle(a, b, c, i, j, k - 1);
    } else {
      var i' := if Entry(a, b, i, j) == Entry(a, b, i, j - 1) + 1 then i else i - 1;
      var k' := if Entry(b, c, j, k) == Entry(b, c, j - 1, k) + 1 then k else k - 1;
      EntryTriangle(a, b, c, i', j - 1, k');
    }
  }

  lemma DistanceIsMetric(a: Text, b: Text, c: Text)
    ensures Distance(a, b) == 0 <==> a == b
    ensures Distance(a, b) == Distance(b, a)
    ensures Distance(a, c) <= Distance(a, b) + Distance(b, c)
  {
    EntryZero(a, b, |a|, |b|);
    EntrySymmetric(a, b, |a|, |b|);
    EntryTriangle(a, b, c, |a|, |b|, |c|);
  }

  /** Between the difference of the lengths and the longer length. */
  lemma DistanceBounds(a: Text, b: Text)
    ensures Distance(a, b) <= Max(|a|, |b|)
    ensures |a| - |b| <= Distance(a, b) && |b| - |a| <= Distance(a, b)
  {
    EntryBounds(a, b, |a|, |b|);
  }

  // --------------------------------------------------------------------
  // Distance is the length of a shortest script
  // --------------------------------------------------------------------

  /** Elements past the two prefixes do not matter. */
  lemma {:induction false} EntryPrefix(a: Text, b: Text, a': Text, b': Text, i: nat, j: nat)
    requires i <= |a| && j <= |b| && i <= |a'| && j <= |b'|
    requires forall k | 0 <= k < i :: a[k] == a'[k]
    requires forall k | 0 <= k < j :: b[k] == b'[k]
    ensures Entry(a, b, i, j) == Entry(a', b', i, j)
    decreases i + j
  {
    if i != 0 && j != 0 {
      EntryPrefix(a, b, a', b', i - 1, j);
      EntryPrefix(a, b, a', b', i, j - 1);
      EntryPrefix(a, b, a', b', i - 1, j - 1);
    }
  }

  /** Equal elements at the end of both prefixes do not add to the distance. */
  lemma {:induction false} CommonSuffix(a: Text, b: Text, i: nat, j: nat, n: nat)
    requires i + n <= |a| && j + n <= |b|
    requires forall k | i <= k < i + n :: a[k] == b[k - i + j]
    ensures Entry(a, b, i + n, j + n) <= Entry(a, b, i, j)
    decreases n
  {
    if n != 0 {
      CommonSuffix(a, b, i, j, n - 1);
      assert a[i + n - 1] == b[j + n - 1];
    }
  }

  lemma OneEditOneApart(e: Edit, s: Text)
    requires Applicable(e, s)
    ensures Distance(s, Apply(e, s)) <= 1
  {
    var i, t := e.at, Apply(e, s);
    match e
    case Insert(_, _) => SplicedApart(s, t, i, i, i + 1);
    case Delete(_) => SplicedApart(s, t, i, i + 1, i);
    case Substitute(_, _) => SplicedApart(s, t, i, i + 1, i + 1);
  }

  /** Two sequences that differ in at most one element each, right after position `i`. */
  lemma SplicedApart(s: Text, t: Text, i: nat, j: nat, k: nat)
    requires i <= j <= i + 1 && i <= k <= i + 1
    requires j <= |s| && k <= |t| && s[..i] == t[..i] && s[j..] == t[k..]
    ensures Distance(s, t) <= 1
  {
    assert forall x | 0 <= x < i :: s[x] == s[..i][x] && t[x] == t[..i][x];
    EntryZero(s, t, i, i);
    var n := |s| - j;
    assert n == |s[j..]| == |t[k..]|;
    forall x | j <= x < j + n ensures s[x] == t[x - j + k] {
      assert s[j..][x - j] == t[k..][x - j];
    }
    CommonSuffix(s, t, j, k, n);
  }

  lemma {:induction false} NoScriptIsShorter(a: Text, script: seq<Edit>, b: Text)
    requires Rewrites(a, script, b)
    ensures Distance(a, b) <= |script|
    decreases |script|
  {
    if script == [] {
      DistanceIsMetric(a, b, b);
    } else {
      var m := Apply(script[0], a);
      NoScriptIsShorter(m, script[1..], b);
      OneEditOneApart(script[0], a);
      DistanceIsMetric(a, m, b);
    }
  }

  /** Edits of a prefix are edits of the whole: the appended `x` is untouched. */
  lemma {:induction false} RewritesExtended(s: Text, script: seq<Edit>, t: Text, x: CodeUnit)
    requires Rewrites(s, script, t)
    ensures Rewrites(s + [x], script, t + [x])
    decreases |script|
  {
    if script != [] {
      RewritesExtended(Apply(script[0], s), script[1..], t, x);
      ApplyExtended(script[0], s, x);
    }
  }

  lemma ApplyExtended(e: Edit, s: Text, x: CodeUnit)
    requires Applicable(e, s)
    ensures Applicable(e, s + [x]) && Apply(e, s + [x]) == Apply(e, s) + [x]
  {
    match e
    case Insert(i, c) =>
      assert (s + [x])[..i] == s[..i] && (s + [x])[i..] == s[i..] + [x];
    case Delete(i) =>
      assert (s + [x])[..i] == s[..i] && (s + [x])[i + 1..] == s[i + 1..] + [x];
    case Substitute(i, c) =>
      assert (s + [x])[..i] == s[..i] && (s + [x])[i + 1..] == s[i + 1..] + [x];
  }

  lemma {:induction false} RewritesThenEdit(s: Text, script: seq<Edit>, t: Text, e: Edit, u: Text)
    requires Rewrites(s, script, t) && Applicable(e, t) && u == Apply(e, t)
    ensures Rewrites(s, script + [e], u)
    decreases |script|
  {
    if script == [] {
      assert (script + [e])[1..] == [];
    } else {
      RewritesThenEdit(Apply(script[0], s), script[1..], t, e, u);
      assert (script + [e])[1..] == script[1..] + [e];
    }
  }

  datatype Move = Nowhere | Right | Down | Across

  /** Where an entry of the table comes from. */
  function LastMove(a: Text, b: Text, i: nat, j: nat): (m: Move)
    requires i <= |a| && j <= |b|
    ensures m.Right? ==> j > 0
    ensures m.Down? ==> i > 0
    ensures m.Across? ==> i > 0 && j > 0
    ensures m.Nowhere? ==> i == 0 && j == 0
  {
    if i == 0 && j == 0 then Nowhere
    else if i == 0 || (j != 0 && Entry(a, b, i, j) == Entry(a, b, i, j - 1) + 1) then Right
    else if j == 0 || Entry(a, b, i, j) == Entry(a, b, i - 1, j) + 1 then Down
    else Across
  }

  lemma MoveEntry(a: Text, b: Text, i: nat, j: nat)
    requires i <= |a| && j <= |b|
    ensures match LastMove(a, b, i, j)
      case Nowhere => Entry(a, b, i, j) == 0
      case Right => Entry(a, b, i, j) == Entry(a, b, i, j - 1) + 1
      case Down => Entry(a, b, i, j) == Entry(a, b, i - 1, j) + 1
      case Across => Entry(a, b, i, j) == Entry(a, b, i - 1, j - 1) + if a[i - 1] == b[j - 1] then 0 else 1
  {
  }

  /** A script of minimal length, read off the table. */
  function ShortestScript(a: Text, b: Text, i: nat, j: nat): seq<Edit>
    requires i <= |a| && j <= |b|
    decreases i + j
  {
    match LastMove(a, b, i, j)
    case Nowhere => []
    case Right => ShortestScript(a, b, i, j - 1) + [Insert(j - 1, b[j - 1])]
    case Down => ShortestScript(a, b, i - 1, j) + [Edit.Delete(j)]
    case Across =>
      ShortestScript(a, b, i - 1, j - 1) + if a[i - 1] == b[j - 1] then [] else [Substitute(j - 1, b[j - 1])]
  }

  lemma {:induction false} ShortestScriptLength(a: Text, b: Text, i: nat, j: nat)
    requires i <= |a| && j <= |b|
    ensures |ShortestScript(a, b, i, j)| == Entry(a, b, i, j)
    decreases i + j
  {
    MoveEntry(a, b, i, j);
    match LastMove(a, b, i, j)
    case Nowhere =>
    case Right => ShortestScriptLength(a, b, i, j - 1);
    case Down => ShortestScriptLength(a, b, i - 1, j);
    case Across => ShortestScriptLength(a, b, i - 1, j - 1);
  }

  lemma {:induction false} ShortestScriptRewrites(a: Text, b: Text, i: nat, j: nat)
    requires i <= |a| && j <= |b|
    ensures Rewrites(a[..i], ShortestScript(a, b, i, j), b[..j])
    decreases i + j
  {
    match LastMove(a, b, i, j)
    case Nowhere =>
    case Right =>
      ShortestScriptRewrites(a, b, i, j - 1);
      ThenInsert(a[..i], ShortestScript(a, b, i, j - 1), b, j);
    case Down =>
      ShortestScriptRewrites(a, b, i - 1, j);
      ThenDelete(a, i, ShortestScript(a, b, i - 1, j), b[..j]);
    case Across =>
      ShortestScriptRewrites(a, b, i - 1, j - 1);
      ThenAcross(a, i, ShortestScript(a, b, i - 1, j - 1), b, j);
  }

  lemma Extended(s: Text, n: nat)
    requires 0 < n <= |s|
    ensures s[..n] == s[..n - 1] + [s[n - 1]]
  {
  }

  lemma ThenInsert(s: Text, before: seq<Edit>, b: Text, j: nat)
    requires 0 < j <= |b| && Rewrites(s, before, b[..j - 1])
    ensures Rewrites(s, before + [Insert(j - 1, b[j - 1])], b[..j])
  {
    RewritesThenEdit(s, before, b[..j - 1], Insert(j - 1, b[j - 1]), b[..j]);
  }

  lemma ThenDelete(a: Text, i: nat, before: seq<Edit>, t: Text)
    requires 0 < i <= |a| && Rewrites(a[..i - 1], before, t)
    ensures Rewrites(a[..i], before + [Edit.Delete(|t|)], t)
  {
    Extended(a, i);
    RewritesExtended(a[..i - 1], before, t, a[i - 1]);
    RewritesThenEdit(a[..i], before, t + [a[i - 1]], Edit.Delete(|t|), t);
  }

  lemma ThenAcross(a: Text, i: nat, before: seq<Edit>, b: Text, j: nat)
    requires 0 < i <= |a| && 0 < j <= |b| && Rewrites(a[..i - 1], before, b[..j - 1])
    ensures Rewrites(a[..i], before + (if a[i - 1] == b[j - 1] then [] else [Substitute(j - 1, b[j - 1])]), b[..j])
  {
    Extended(a, i);
    Extended(b, j);
    var t := b[..j - 1];
    RewritesExtended(a[..i - 1], before, t, a[i - 1]);
    if a[i - 1] == b[j - 1] {
      assert before + [] == before;
    } else {
      RewritesThenEdit(a[..i], before, t + [a[i - 1]], Substitute(j - 1, b[j - 1]), t + [b[j - 1]]);
    }
  }

  /** `d` is the length of some script from `a` to `b`, and no script is shorter. */
  ghost predicate IsLeastScriptLength(a: Text, b: Text, d: int) {
    && (exists script :: Rewrites(a, script, b) && |script| == d)
    && (forall script :: Rewrites(a, script, b) ==> d <= |script|)
  }

  lemma DistanceIsLeast(a: Text, b: Text)
    ensures IsLeastScriptLength(a, b, Distance(a, b))
  {
    var script := ShortestScript(a, b, |a|, |b|);
    ShortestScriptLength(a, b, |a|, |b|);
    ShortestScriptRewrites(a, b, |a|, |b|);
    assert a[..|a|] == a && b[..|b|] == b;
    forall script | Rewrites(a, script, b)
      ensures Distance(a, b) <= |script|
    {
      NoScriptIsShorter(a, script, b);
    }
  }

  // --------------------------------------------------------------------
  // The table
  // --------------------------------------------------------------------

  method Levenshtein(a: Text, b: Text) returns (d: int)
    ensures d == Distance(a, b)
  {
    var m, n := |a|, |b|;
    if m == 0 {
      return n;
    }
    if n == 0 {
      return m;
    }
    var dp := new int[m + 1, n + 1]((_, _) => 0);
    for i := 0 to m + 1
      invariant forall k | 0 <= k < i :: dp[k, 0] == k
    {
      dp[i, 0] := i;
    }
    for j := 0 to n + 1
      invariant forall k | 0 <= k <= m :: dp[k, 0] == k
      invariant forall l | 0 <= l < j :: dp[0, l] == l
    {
      dp[0, j] := j;
    }
    for i := 1 to m + 1
      invariant forall k | 0 <= k <= m :: dp[k, 0] == k
      invariant forall k, l {:trigger dp[k, l]} | 0 <= k < i && 0 <= l <= n :: dp[k, l] == Entry(a, b, k, l)
    {
      for j := 1 to n + 1
        invariant forall k | 0 <= k <= m :: dp[k, 0] == k
        invariant forall k, l {:trigger dp[k, l]} | 0 <= k < i && 0 <= l <= n :: dp[k, l] == Entry(a, b, k, l)
        invariant forall l {:trigger dp[i, l]} | 0 <= l < j :: dp[i, l] == Entry(a, b, i, l)
      {
        var cost := if a[i - 1] == b[j - 1] then 0 else 1;
        dp[i, j] := Min3(dp[i - 1, j] + 1, dp[i, j - 1] + 1, dp[i - 1, j - 1] + cost);
      }
    }
    d := dp[m, n];
  }

  // --------------------------------------------------------------------
  // Similarity of two user names
  // --------------------------------------------------------------------

  /** `lower` stands for String.prototype.toLowerCase. */
  function UsernameSimilarity(lower: Text -> Text, a: Text, b: Text): real {
    var maxLen := Max(|a|, |b|);
    if maxLen == 0 then 1.0
    else
      var raw := 1.0 - Distance(lower(a), lower(b)) as real / maxLen as real;
      if raw < 0.0 then 0.0 else raw
  }

  lemma UsernameSimilarityLaws(lower: Text -> Text, a: Text, b: Text)
    ensures 0.0 <= UsernameSimilarity(lower, a, b) <= 1.0
    ensures UsernameSimilarity(lower, a, b) == UsernameSimilarity(lower, b, a)
    ensures UsernameSimilarity(lower, a, b) == 1.0 <==> lower(a) == lower(b)
  {
    DistanceIsMetric(lower(a), lower(b), lower(b));
    DistanceBounds(lower(a), lower(b));
    var maxLen := Max(|a|, |b|);
    if maxLen == 0 {
      assert a == b == [];
    } else {
      QuotientSign(Distance(lower(a), lower(b)), maxLen);
    }
  }

  /** Of two names each edit costs the share of one character of the longer one, until nothing is left. */
  lemma EditsAreCounted(lower: Text -> Text, a: Text, b: Text)
    requires Max(|a|, |b|) > 0
    ensures var n, d := Max(|a|, |b|), Distance(lower(a), lower(b));
      && (d <= n ==> UsernameSimilarity(lower, a, b) * n as real == (n - d) as real)
      && (d >= n ==> UsernameSimilarity(lower, a, b) == 0.0)
  {
    var n, d := Max(|a|, |b|), Distance(lower(a), lower(b));
    DistanceBounds(lower(a), lower(b));
    Shortfall(d, n);
  }

  lemma Shortfall(d: int, n: int)
    requires n > 0
    ensures var raw := 1.0 - d as real / n as real;
      raw * n as real == (n - d) as real && (raw < 0.0 <==> d > n) && (raw == 0.0 <==> d == n)
  {
    var q := d as real / n as real;
    assert q * n as real == d as real;
    SignTimes(1.0 - q, n as real);
  }

  lemma SignTimes(x: real, n: real)
    requires n > 0.0
    ensures (x * n < 0.0 <==> x < 0.0) && (x * n == 0.0 <==> x == 0.0)
  {
  }

  lemma QuotientSign(d: int, n: int)
    requires d >= 0 && n > 0
    ensures d as real / n as real >= 0.0
    ensures d as real / n as real == 0.0 <==> d == 0
    ensures d <= n <==> d as real / n as real <= 1.0
  {
    var q := d as real / n as real;
    assert q * n as real == d as real;
  }

  /** The floor at 0 never applies to a lower-casing that keeps lengths. */
  lemma SimilarityFloorIsIdle(lower: Text -> Text, a: Text, b: Text)
    requires |lower(a)| == |a| && |lower(b)| == |b| && Max(|a|, |b|) > 0
    ensures UsernameSimilarity(lower, a, b)
         == 1.0 - Distance(lower(a), lower(b)) as real / Max(|a|, |b|) as real
  {
    DistanceBounds(lower(a), lower(b));
    QuotientSign(Distance(lower(a), lower(b)), Max(|a|, |b|));
  }
}
