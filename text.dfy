/**
 * The JavaScript string built-ins the templates rely on: `includes`,
 * `indexOf`/`replace` with a string pattern, `Array.prototype.join`,
 * `toLowerCase` and the decimal rendering of a number in a template literal.
 */
module Text {

  /** t occurs in s starting at position k. */
  predicate OccursAt(s: string, t: string, k: nat) {
    k + |t| <= |s| && s[k..k + |t|] == t
  }

  /** `s.includes(t)`: t occurs in s at some position. */
  ghost predicate Contains(s: string, t: string) {
    exists k: nat :: OccursAt(s, t, k)
  }

  predicate StartsWith(s: string, t: string) {
    |t| <= |s| && s[..|t|] == t
  }

  predicate EndsWith(s: string, t: string) {
    |t| <= |s| && s[|s| - |t|..] == t
  }

  lemma ContainsAt(s: string, t: string, k: nat)
    requires k + |t| <= |s| && s[k..k + |t|] == t
    ensures Contains(s, t)
  {
    assert OccursAt(s, t, k);
  }

  lemma ContainsMiddle(a: string, t: string, b: string)
    ensures Contains(a + t + b, t)
  {
    assert (a + t + b)[|a|..|a| + |t|] == t;
    assert OccursAt(a + t + b, t, |a|);
  }

  lemma ContainsTrans(s: string, t: string, u: string)
    requires Contains(s, t) && Contains(t, u)
    ensures Contains(s, u)
  {
    var i: nat :| OccursAt(s, t, i);
    var j: nat :| OccursAt(t, u, j);
    assert forall m :: 0 <= m < |t| ==> s[i + m] == t[m];
    assert forall m :: 0 <= m < |u| ==> t[j + m] == u[m];
    assert s[i + j..i + j + |u|] == u;
    assert OccursAt(s, u, i + j);
  }

  lemma ContainsPrefix(a: string, b: string)
    ensures Contains(a + b, a)
  {
    assert (a + b)[0..|a|] == a;
    assert OccursAt(a + b, a, 0);
  }

  lemma ContainsSuffix(a: string, b: string)
    ensures Contains(a + b, b)
  {
    assert (a + b)[|a|..|a| + |b|] == b;
    assert OccursAt(a + b, b, |a|);
  }

  lemma StartsWithPrefix(a: string, b: string)
    ensures StartsWith(a + b, a)
  {
    assert (a + b)[..|a|] == a;
  }

  lemma EndsWithSuffix(a: string, b: string)
    ensures EndsWith(a + b, b)
  {
    assert (a + b)[|a|..] == b;
  }

  /** A text built as a + l + m + (t + d + e) ends with everything after a. */
  lemma LineEnding(a: string, l: string, m: string, t: string, d: string, e: string)
    ensures EndsWith(a + l + m + (t + d + e), l + m + t + d + e)
  {
    assert a + l + m + (t + d + e) == a + (l + m + t + d + e);
    EndsWithSuffix(a, l + m + t + d + e);
  }

  lemma StartsWithTrans(s: string, t: string, u: string)
    requires StartsWith(s, t) && StartsWith(t, u)
    ensures StartsWith(s, u)
  {
    assert s[..|u|] == t[..|u|];
  }

  lemma EndsWithTrans(s: string, t: string, u: string)
    requires EndsWith(s, t) && EndsWith(t, u)
    ensures EndsWith(s, u)
  {
    assert s[|s| - |u|..] == t[|t| - |u|..];
  }

  /** t occurs in a + t + b right after a. */
  lemma OccursAfter(a: string, t: string, b: string)
    ensures OccursAt(a + t + b, t, |a|) && (a + t + b)[..|a|] == a
  {
    assert (a + t + b)[|a|..|a| + |t|] == t;
  }

  /** Where a + b is followed by c + d, the join b + c occurs. */
  lemma ContainsJoint(a: string, b: string, c: string, d: string)
    ensures Contains((a + b) + (c + d), b + c)
  {
    assert (a + b) + (c + d) == a + (b + c) + d;
    ContainsMiddle(a, b + c, d);
  }

  /** Where a is followed by b, c and d, the run a + b + c occurs. */
  lemma ContainsLead(a: string, b: string, c: string, d: string)
    ensures Contains(a + (b + (c + d)), a + b + c)
  {
    assert a + (b + (c + d)) == (a + b + c) + d;
    ContainsPrefix(a + b + c, d);
  }

  /** The third of four consecutive parts occurs in the whole. */
  lemma ContainsThird(a: string, b: string, c: string, d: string)
    ensures Contains(a + (b + (c + d)), c)
  {
    assert a + (b + (c + d)) == (a + b) + c + d;
    ContainsMiddle(a + b, c, d);
  }

  lemma ContainsTail(a: string, b: string, c: string)
    ensures Contains((a + b) + c, b + c)
  {
    assert (a + b) + c == a + (b + c);
    ContainsSuffix(a, b + c);
  }

  lemma StartsWithContains(s: string, t: string)
    requires StartsWith(s, t)
    ensures Contains(s, t)
  {
    assert s[0..|t|] == t;
    assert OccursAt(s, t, 0);
  }

  lemma EndsWithContains(s: string, t: string)
    requires EndsWith(s, t)
    ensures Contains(s, t)
  {
    assert s[|s| - |t|..|s| - |t| + |t|] == t;
    assert OccursAt(s, t, |s| - |t|);
  }

  /** `s.indexOf(pat, from)`: the first position at or after `from` where pat occurs, or -1. */
  function IndexOfFrom(s: string, pat: string, from: nat): (r: int)
    decreases |s| - from
    ensures r == -1 || (from <= r && OccursAt(s, pat, r))
    ensures r == -1 ==> forall j: nat :: from <= j ==> !OccursAt(s, pat, j)
    ensures r >= 0 ==> forall j: nat :: from <= j < r ==> !OccursAt(s, pat, j)
  {
    if from + |pat| > |s| then -1
    else if s[from..from + |pat|] == pat then from
    else IndexOfFrom(s, pat, from + 1)
  }

  function IndexOf(s: string, pat: string): int {
    IndexOfFrom(s, pat, 0)
  }

  /** `s.includes(t)` as executable code. */
  function Includes(s: string, t: string): (b: bool)
    ensures b <==> Contains(s, t)
  {
    IndexOf(s, t) >= 0
  }

  lemma IndexOfFound(s: string, pat: string)
    requires Contains(s, pat)
    ensures 0 <= IndexOf(s, pat) && OccursAt(s, pat, IndexOf(s, pat))
  {
    var k: nat :| OccursAt(s, pat, k);
  }

  /** `s.replace(pat, rep)` with a string pattern: only the first occurrence is replaced.
      (The replacements used here hold no `$` patterns.) */
  function ReplaceFirst(s: string, pat: string, rep: string): string {
    var i := IndexOf(s, pat);
    if i < 0 then s else s[..i] + rep + s[i + |pat|..]
  }

  /** When the pattern occurs, the replacement appears in the result. */
  lemma ReplaceFirstInserts(s: string, pat: string, rep: string)
    requires Contains(s, pat)
    ensures Contains(ReplaceFirst(s, pat, rep), rep)
  {
    IndexOfFound(s, pat);
    var i := IndexOf(s, pat);
    ContainsMiddle(s[..i], rep, s[i + |pat|..]);
  }

  /** Two occurrences cannot overlap when neither string begins with a character of the other. */
  lemma NoOverlap(s: string, pat: string, i: nat, t: string, k: nat)
    requires OccursAt(s, pat, i) && OccursAt(s, t, k)
    requires |t| > 0 && |pat| > 0
    requires t[0] !in pat && pat[0] !in t
    ensures k + |t| <= i || i + |pat| <= k
  {
    assert forall j :: i <= j < i + |pat| ==> s[j] == pat[j - i];
    assert forall j :: k <= j < k + |t| ==> s[j] == t[j - k];
  }

  /** An occurrence of t survives the replacement when t and pat cannot overlap:
      neither begins with a character of the other. */
  lemma ReplaceFirstKeeps(s: string, pat: string, rep: string, t: string, k: nat)
    requires k + |t| <= |s| && s[k..k + |t|] == t
    requires |t| > 0 && |pat| > 0
    requires t[0] !in pat && pat[0] !in t
    ensures Contains(ReplaceFirst(s, pat, rep), t)
  {
    var i := IndexOf(s, pat);
    if i < 0 {
      ContainsAt(s, t, k);
    } else {
      var r := s[..i] + rep + s[i + |pat|..];
      NoOverlap(s, pat, i, t, k);
      if k + |t| <= i {
        assert r[k..k + |t|] == s[k..k + |t|];
        ContainsAt(r, t, k);
      } else {
        var k' := k - |pat| + |rep|;
        assert r[k'..k' + |t|] == s[k..k + |t|];
        ContainsAt(r, t, k');
      }
    }
  }

  /** An occurrence preceded by no character the pattern begins with is the first one. */
  lemma IndexOfFirst(s: string, pat: string, i: nat)
    requires OccursAt(s, pat, i) && |pat| > 0 && pat[0] !in s[..i]
    ensures IndexOf(s, pat) == i
  {
    var r := IndexOf(s, pat);
    assert r == -1 || OccursAt(s, pat, r);
    assert forall j :: 0 <= j < i ==> s[..i][j] == s[j];
  }

  /** Where an occurrence of t lies after the first replacement: unmoved before the replaced
      occurrence, shifted by the change in length after it. */
  lemma ReplaceFirstShifts(s: string, pat: string, rep: string, t: string, k: nat) returns (k': nat)
    requires OccursAt(s, t, k)
    requires |t| > 0 && |pat| > 0
    requires t[0] !in pat && pat[0] !in t
    ensures OccursAt(ReplaceFirst(s, pat, rep), t, k')
    ensures IndexOf(s, pat) < 0 ==> k' == k
    ensures IndexOf(s, pat) >= 0 ==>
      (k + |t| <= IndexOf(s, pat) && k' == k) ||
      (IndexOf(s, pat) + |pat| <= k && k' == k - |pat| + |rep|)
  {
    var i := IndexOf(s, pat);
    if i < 0 {
      k' := k;
    } else {
      var r := s[..i] + rep + s[i + |pat|..];
      NoOverlap(s, pat, i, t, k);
      if k + |t| <= i {
        assert r[k..k + |t|] == s[k..k + |t|];
        k' := k;
      } else {
        k' := k - |pat| + |rep|;
        assert r[k'..k' + |t|] == s[k..k + |t|];
      }
    }
  }

  /** Two occurrences of t that do not overlap stay apart and in order after the first replacement. */
  lemma ReplaceFirstKeepsPair(s: string, pat: string, rep: string, t: string, k1: nat, k2: nat)
    returns (k1': nat, k2': nat)
    requires OccursAt(s, t, k1) && OccursAt(s, t, k2) && k1 + |t| <= k2
    requires |t| > 0 && |pat| > 0
    requires t[0] !in pat && pat[0] !in t
    ensures OccursAt(ReplaceFirst(s, pat, rep), t, k1') && OccursAt(ReplaceFirst(s, pat, rep), t, k2')
    ensures k1' + |t| <= k2'
  {
    k1' := ReplaceFirstShifts(s, pat, rep, t, k1);
    k2' := ReplaceFirstShifts(s, pat, rep, t, k2);
  }

  /** Of two occurrences that do not overlap, replacing the first occurrence leaves the later. */
  lemma ReplaceFirstLeavesLater(s: string, pat: string, rep: string, i: nat, j: nat)
    requires OccursAt(s, pat, i) && OccursAt(s, pat, j) && i + |pat| <= j
    ensures Contains(ReplaceFirst(s, pat, rep), pat)
  {
    var f := IndexOf(s, pat);
    assert 0 <= f <= i;
    var r := s[..f] + rep + s[f + |pat|..];
    var j' := j - |pat| + |rep|;
    assert r[j'..j' + |pat|] == s[j..j + |pat|];
    ContainsAt(r, pat, j');
  }

  /** The first replacement at a known first occurrence. */
  lemma ReplaceFirstAt(s: string, pat: string, rep: string, i: nat)
    requires OccursAt(s, pat, i) && |pat| > 0 && pat[0] !in s[..i]
    ensures ReplaceFirst(s, pat, rep) == s[..i] + rep + s[i + |pat|..]
  {
    IndexOfFirst(s, pat, i);
  }

  /** Equal strings with equal prefixes have equal remainders. */
  lemma PrefixCancel(a: string, x: string, y: string)
    requires a + x == a + y
    ensures x == y
  {
    assert x == (a + x)[|a|..];
    assert y == (a + y)[|a|..];
  }

  /** Text up to the first occurrence of a delimiter is determined: if neither a nor b holds ch
      and both continuations start with ch, then a + x == b + y forces a == b. */
  lemma FirstFieldUnique(a: string, x: string, b: string, y: string, ch: char)
    requires ch !in a && ch !in b
    requires |x| > 0 && x[0] == ch && |y| > 0 && y[0] == ch
    requires a + x == b + y
    ensures a == b
  {
    var s := a + x;
    assert forall i :: 0 <= i < |a| ==> s[i] == a[i] && s[i] != ch;
    assert forall i :: 0 <= i < |b| ==> s[i] == b[i] && s[i] != ch;
    assert s[|a|] == ch && s[|b|] == ch;
    assert |a| == |b|;
    assert a == s[..|a|] == b;
  }

  /** `parts.join(sep)`. */
  function Join(parts: seq<string>, sep: string): string
    decreases |parts|
  {
    if |parts| == 0 then ""
    else if |parts| == 1 then parts[0]
    else parts[0] + sep + Join(parts[1..], sep)
  }

  lemma {:induction false} JoinContains(parts: seq<string>, sep: string, k: nat)
    requires k < |parts|
    ensures Contains(Join(parts, sep), parts[k])
    decreases |parts|
  {
    if |parts| == 1 {
      ContainsMiddle("", parts[0], "");
      assert "" + parts[0] + "" == parts[0];
    } else if k == 0 {
      ContainsMiddle("", parts[0], sep + Join(parts[1..], sep));
      assert "" + parts[0] + (sep + Join(parts[1..], sep)) == Join(parts, sep);
    } else {
      JoinContains(parts[1..], sep, k - 1);
      ContainsMiddle(parts[0] + sep, Join(parts[1..], sep), "");
      assert parts[0] + sep + Join(parts[1..], sep) + "" == Join(parts, sep);
      ContainsTrans(Join(parts, sep), Join(parts[1..], sep), parts[k]);
    }
  }

  function LowerChar(ch: char): char {
    if 'A' <= ch <= 'Z' then (ch as int + 32) as char else ch
  }

  /** `toLowerCase()`, on the ASCII letters. */
  function Lower(s: string): (r: string)
    ensures |r| == |s|
    ensures forall i :: 0 <= i < |s| ==> r[i] == LowerChar(s[i])
  {
    seq(|s|, i requires 0 <= i < |s| => LowerChar(s[i]))
  }

  function DigitChar(d: nat): char
    requires d < 10
  {
    "0123456789"[d]
  }

  /** The decimal text of a number, as `${n}` renders it. */
  function NatToString(n: nat): (r: string)
    ensures |r| > 0
    decreases n
  {
    if n < 10 then [DigitChar(n)] else NatToString(n / 10) + [DigitChar(n % 10)]
  }

  function DigitValue(ch: char): nat {
    if '0' <= ch <= '9' then ch as int - '0' as int else 0
  }

  /** Reading a decimal text back as a number. */
  function DecimalValue(s: string): nat
    decreases |s|
  {
    if |s| == 0 then 0 else DecimalValue(s[..|s| - 1]) * 10 + DigitValue(s[|s| - 1])
  }

  /** The rendering is one-to-one: reading it back gives the number. */
  lemma {:induction false} NatToStringRoundTrip(n: nat)
    ensures DecimalValue(NatToString(n)) == n
    decreases n
  {
    var s := NatToString(n);
    if n < 10 {
      assert s[..|s| - 1] == [];
    } else {
      NatToStringRoundTrip(n / 10);
      assert s[..|s| - 1] == NatToString(n / 10);
    }
  }
}
