/** Python string operations the bot relies on: `sep.join`, `str.split`,
    `in` on strings, `str.replace`, `str.strip` and `str(int)`. */
module Text {

  // ---------------------------------------------------------------- join / split

  /** `sep.join(parts)`. */
  function Join(parts: seq<string>, sep: string): string
    decreases |parts|
  {
    if |parts| == 0 then ""
    else if |parts| == 1 then parts[0]
    else parts[0] + sep + Join(parts[1..], sep)
  }

  /** `"".join(parts)`: what the receiver reads back from several messages in a row. */
  function Concat(parts: seq<string>): string
    decreases |parts|
  {
    if |parts| == 0 then "" else parts[0] + Concat(parts[1..])
  }

  /** `s.split(c)` for a one-character separator: empty pieces are kept. */
  function Split(s: string, c: char): (r: seq<string>)
    ensures |r| > 0
    decreases |s|
  {
    if |s| == 0 then [""]
    else
      var rest := Split(s[1..], c);
      if s[0] == c then [""] + rest else [[s[0]] + rest[0]] + rest[1..]
  }

  lemma {:induction false} SplitFree(p: string, c: char)
    requires c !in p
    ensures Split(p, c) == [p]
    decreases |p|
  {
    if |p| > 0 {
      SplitFree(p[1..], c);
      assert [p[0]] + p[1..] == p;
    }
  }

  lemma {:induction false} SplitAppend(p: string, t: string, c: char)
    requires c !in p
    ensures Split(p + [c] + t, c) == [p] + Split(t, c)
    decreases |p|
  {
    var s := p + [c] + t;
    if |p| == 0 {
      assert s[1..] == t;
    } else {
      assert s[1..] == p[1..] + [c] + t;
      SplitAppend(p[1..], t, c);
      assert [p[0]] + p[1..] == p;
    }
  }

  /** Splitting a newline-joined text on that newline gives back the parts,
      when no part holds the separator itself. */
  lemma {:induction false} SplitJoin(parts: seq<string>, c: char)
    requires |parts| > 0
    requires forall i :: 0 <= i < |parts| ==> c !in parts[i]
    ensures Split(Join(parts, [c]), c) == parts
    decreases |parts|
  {
    if |parts| == 1 {
      SplitFree(parts[0], c);
    } else {
      SplitJoin(parts[1..], c);
      SplitAppend(parts[0], Join(parts[1..], [c]), c);
      assert [parts[0]] + parts[1..] == parts;
    }
  }

  // ---------------------------------------------------------------- substrings

  predicate OccursAt(s: string, p: string, k: int) {
    0 <= k && k + |p| <= |s| && s[k..k + |p|] == p
  }

  /** Python's `p in s` on two strings. */
  predicate Contains(s: string, p: string) {
    exists k | 0 <= k <= |s| - |p| :: OccursAt(s, p, k)
  }

  lemma ContainsAt(s: string, p: string, k: int)
    requires OccursAt(s, p, k)
    ensures Contains(s, p)
  {
  }

  lemma ContainsInLeft(a: string, b: string, p: string)
    requires Contains(a, p)
    ensures Contains(a + b, p)
  {
    var k :| 0 <= k <= |a| - |p| && OccursAt(a, p, k);
    assert (a + b)[k..k + |p|] == a[k..k + |p|];
    ContainsAt(a + b, p, k);
  }

  lemma ContainsInRight(a: string, b: string, p: string)
    requires Contains(b, p)
    ensures Contains(a + b, p)
  {
    var k :| 0 <= k <= |b| - |p| && OccursAt(b, p, k);
    assert (a + b)[|a| + k..|a| + k + |p|] == b[k..k + |p|];
    ContainsAt(a + b, p, |a| + k);
  }

  lemma ContainsPrefix(s: string, p: string)
    requires |p| <= |s| && s[..|p|] == p
    ensures Contains(s, p)
  {
    ContainsAt(s, p, 0);
  }

  lemma ContainsTransitive(s: string, q: string, p: string)
    requires Contains(s, q) && Contains(q, p)
    ensures Contains(s, p)
  {
    var k :| 0 <= k <= |s| - |q| && OccursAt(s, q, k);
    var j :| 0 <= j <= |q| - |p| && OccursAt(q, p, j);
    forall i | 0 <= i < |p| ensures s[k + j + i] == p[i] {
      assert s[k + j + i] == s[k..k + |q|][j + i] == q[j + i] == q[j..j + |p|][i];
    }
    assert s[k + j..k + j + |p|] == p;
    ContainsAt(s, p, k + j);
  }

  /** Every part of a joined text appears in it. */
  lemma {:induction false} JoinContainsPart(parts: seq<string>, sep: string, i: nat)
    requires i < |parts|
    ensures Contains(Join(parts, sep), parts[i])
    decreases |parts|
  {
    if |parts| == 1 {
      ContainsAt(parts[0], parts[0], 0);
    } else if i == 0 {
      ContainsAt(parts[0], parts[0], 0);
      ContainsInLeft(parts[0], sep + Join(parts[1..], sep), parts[0]);
      assert parts[0] + sep + Join(parts[1..], sep) == parts[0] + (sep + Join(parts[1..], sep));
    } else {
      JoinContainsPart(parts[1..], sep, i - 1);
      ContainsInRight(parts[0] + sep, Join(parts[1..], sep), parts[i]);
    }
  }

  /** A joined text starts with its first part. */
  lemma JoinStartsWithFirst(parts: seq<string>, sep: string)
    requires |parts| > 0
    ensures |parts[0]| <= |Join(parts, sep)| && Join(parts, sep)[..|parts[0]|] == parts[0]
  {
    if |parts| > 1 {
      assert Join(parts, sep) == parts[0] + (sep + Join(parts[1..], sep));
    }
  }

  /** Joining splits at any inner boundary: the parts before `i`, the separator, the rest. */
  lemma {:induction false} JoinSplitAt(parts: seq<string>, sep: string, i: nat)
    requires 0 < i < |parts|
    ensures Join(parts, sep) == Join(parts[..i], sep) + sep + Join(parts[i..], sep)
    decreases i
  {
    if i > 1 {
      var tail := parts[1..];
      JoinSplitAt(tail, sep, i - 1);
      assert tail[..i - 1] == parts[..i][1..];
      assert tail[i - 1..] == parts[i..];
      var a := Join(parts[..i][1..], sep);
      var b := Join(parts[i..], sep);
      calc {
        Join(parts, sep);
        parts[0] + sep + (a + sep + b);
        (parts[0] + sep + a) + sep + b;
        Join(parts[..i], sep) + sep + b;
      }
    }
  }

  /** Where part `i` starts in `sep.join(parts)`. */
  function JoinOffset(parts: seq<string>, sep: string, i: nat): nat
    requires i <= |parts|
  {
    if i == 0 then 0 else |Join(parts[..i], sep)| + |sep|
  }

  /** Part `i` sits at its offset. */
  lemma JoinPartAt(parts: seq<string>, sep: string, i: nat)
    requires i < |parts|
    ensures OccursAt(Join(parts, sep), parts[i], JoinOffset(parts, sep, i))
  {
    var t := Join(parts, sep);
    JoinStartsWithFirst(parts[i..], sep);
    var r := Join(parts[i..], sep);
    assert parts[i..][0] == parts[i];
    if i == 0 {
      assert parts[0..] == parts;
    } else {
      JoinSplitAt(parts, sep, i);
      var o := JoinOffset(parts, sep, i);
      assert t[o..o + |parts[i]|] == r[..|parts[i]|];
    }
  }

  /** Part `i` is followed by the separator, and then part `i + 1` begins. */
  lemma JoinNextAt(parts: seq<string>, sep: string, i: nat)
    requires i + 1 < |parts|
    ensures JoinOffset(parts, sep, i + 1) == JoinOffset(parts, sep, i) + |parts[i]| + |sep|
    ensures OccursAt(Join(parts, sep), sep, JoinOffset(parts, sep, i) + |parts[i]|)
  {
    var t := Join(parts, sep);
    var pre := parts[..i + 1];
    if i == 0 {
      assert pre == [parts[0]];
    } else {
      JoinSplitAt(pre, sep, i);
      assert pre[..i] == parts[..i];
      assert pre[i..] == [parts[i]];
    }
    assert |Join(pre, sep)| == JoinOffset(parts, sep, i) + |parts[i]|;
    JoinSplitAt(parts, sep, i + 1);
    var k := |Join(pre, sep)|;
    assert t[k..k + |sep|] == sep;
  }

  /** The layout of `sep.join(parts)`: each part at its offset, then the
      separator, then the next part. */
  lemma JoinLayout(parts: seq<string>, sep: string)
    ensures forall i :: 0 <= i < |parts| ==> OccursAt(Join(parts, sep), parts[i], JoinOffset(parts, sep, i))
    ensures forall i :: 0 <= i < |parts| - 1 ==>
              JoinOffset(parts, sep, i + 1) == JoinOffset(parts, sep, i) + |parts[i]| + |sep|
              && OccursAt(Join(parts, sep), sep, JoinOffset(parts, sep, i) + |parts[i]|)
  {
    forall i | 0 <= i < |parts| ensures OccursAt(Join(parts, sep), parts[i], JoinOffset(parts, sep, i)) {
      JoinPartAt(parts, sep, i);
    }
    forall i | 0 <= i < |parts| - 1
      ensures JoinOffset(parts, sep, i + 1) == JoinOffset(parts, sep, i) + |parts[i]| + |sep|
      ensures OccursAt(Join(parts, sep), sep, JoinOffset(parts, sep, i) + |parts[i]|)
    {
      JoinNextAt(parts, sep, i);
    }
  }

  // ---------------------------------------------------------------- str.replace

  /** `s.replace(pat, rep)`: left to right, non-overlapping. */
  function ReplaceAll(s: string, pat: string, rep: string): string
    requires |pat| > 0
    decreases |s|
  {
    if |s| < |pat| then s
    else if s[..|pat|] == pat then rep + ReplaceAll(s[|pat|..], pat, rep)
    else [s[0]] + ReplaceAll(s[1..], pat, rep)
  }

  /** Replacing a pattern that does not occur changes nothing. */
  lemma {:induction false} ReplaceAbsent(s: string, pat: string, rep: string)
    requires |pat| > 0 && !Contains(s, pat)
    ensures ReplaceAll(s, pat, rep) == s
    decreases |s|
  {
    if |s| >= |pat| {
      if s[..|pat|] == pat {
        ContainsAt(s, pat, 0);
      } else {
        if Contains(s[1..], pat) {
          var k :| 0 <= k <= |s[1..]| - |pat| && OccursAt(s[1..], pat, k);
          assert s[k + 1..k + 1 + |pat|] == s[1..][k..k + |pat|];
          ContainsAt(s, pat, k + 1);
        }
        ReplaceAbsent(s[1..], pat, rep);
        assert [s[0]] + s[1..] == s;
      }
    }
  }

  /** Where the pattern occurs, the replacement shows up in the result. */
  lemma {:induction false} ReplaceContainsRep(s: string, pat: string, rep: string)
    requires |pat| > 0 && Contains(s, pat)
    ensures Contains(ReplaceAll(s, pat, rep), rep)
    decreases |s|
  {
    var k :| 0 <= k <= |s| - |pat| && OccursAt(s, pat, k);
    if s[..|pat|] == pat {
      ContainsPrefix(rep + ReplaceAll(s[|pat|..], pat, rep), rep);
    } else {
      assert k > 0;
      assert s[1..][k - 1..k - 1 + |pat|] == s[k..k + |pat|];
      ContainsAt(s[1..], pat, k - 1);
      ReplaceContainsRep(s[1..], pat, rep);
      ContainsInRight([s[0]], ReplaceAll(s[1..], pat, rep), rep);
    }
  }

  /** Only the first letter of an occurrence differs between `pat` and `rep`:
      the result then differs from `s` only where `pat[0]` became `rep[0]`. */
  predicate FirstLetterOnly(pat: string, rep: string) {
    |pat| > 0 && |rep| == |pat| && rep[1..] == pat[1..]
  }

  predicate ChangedOnlyAt(s: string, r: string, from: char, to: char) {
    |r| == |s| && forall i :: 0 <= i < |s| ==> r[i] == s[i] || (s[i] == from && r[i] == to)
  }

  lemma {:induction false} ReplaceFirstLetterPointwise(s: string, pat: string, rep: string)
    requires FirstLetterOnly(pat, rep)
    ensures ChangedOnlyAt(s, ReplaceAll(s, pat, rep), pat[0], rep[0])
    decreases |s|
  {
    if |s| >= |pat| {
      var r := ReplaceAll(s, pat, rep);
      if s[..|pat|] == pat {
        ReplaceFirstLetterPointwise(s[|pat|..], pat, rep);
        forall i | 0 <= i < |s|
          ensures r[i] == s[i] || (s[i] == pat[0] && r[i] == rep[0])
        {
          if i < |pat| {
            if i > 0 {
              assert rep[i] == rep[1..][i - 1] == pat[1..][i - 1] == pat[i];
              assert s[i] == s[..|pat|][i];
            }
          } else {
            assert r[i] == ReplaceAll(s[|pat|..], pat, rep)[i - |pat|];
          }
        }
      } else {
        ReplaceFirstLetterPointwise(s[1..], pat, rep);
      }
    }
  }

  /** The conditions under which `s.replace(pat, rep)` leaves no `pat` behind:
      only the first letter changes, and neither version of it occurs later in `pat`. */
  predicate SelfErasing(pat: string, rep: string) {
    FirstLetterOnly(pat, rep) && pat[0] != rep[0] && pat[0] !in pat[1..] && rep[0] !in pat[1..]
  }

  /** An occurrence starting inside a freshly written `rep` is impossible. */
  lemma NoOccurrenceInsideRep(rep: string, tail: string, pat: string, k: nat)
    requires SelfErasing(pat, rep) && k < |rep|
    ensures !OccursAt(rep + tail, pat, k)
  {
    var r := rep + tail;
    if k == 0 {
      assert r[0] == rep[0];
    } else {
      assert r[k] == rep[k] == rep[1..][k - 1] == pat[1..][k - 1];
    }
    assert r[k] != pat[0];
    if k + |pat| <= |r| {
      assert r[k..k + |pat|][0] == r[k];
    }
  }

  /** An occurrence at the front of `[s[0]] + s[1..].replace(...)` was already one in `s`. */
  lemma OccurrenceAtFrontWasThere(s: string, pat: string, rep: string)
    requires SelfErasing(pat, rep) && |s| >= |pat|
    requires OccursAt([s[0]] + ReplaceAll(s[1..], pat, rep), pat, 0)
    ensures s[..|pat|] == pat
  {
    var r' := ReplaceAll(s[1..], pat, rep);
    var r := [s[0]] + r';
    ReplaceFirstLetterPointwise(s[1..], pat, rep);
    forall j | 0 <= j < |pat| ensures s[j] == pat[j] {
      assert r[j] == r[..|pat|][j] == pat[j];
      if j > 0 {
        assert pat[j] == pat[1..][j - 1];
        assert r[j] == r'[j - 1];
      }
    }
  }

  /** Writing `rep` in front of a text free of `pat` keeps it free of `pat`. */
  lemma NoOccurrenceAfterRep(rep: string, r': string, pat: string)
    requires SelfErasing(pat, rep) && !Contains(r', pat)
    ensures !Contains(rep + r', pat)
  {
    var r := rep + r';
    forall k | 0 <= k <= |r| - |pat| ensures !OccursAt(r, pat, k) {
      if k >= |rep| {
        if OccursAt(r, pat, k) {
          assert r'[k - |rep|..k - |rep| + |pat|] == r[k..k + |pat|];
          ContainsAt(r', pat, k - |rep|);
        }
      } else {
        NoOccurrenceInsideRep(rep, r', pat, k);
      }
    }
  }

  /** Keeping a first letter that does not start `pat` keeps the rest free of `pat`. */
  lemma NoOccurrenceAfterLetter(s: string, pat: string, rep: string)
    requires SelfErasing(pat, rep) && |s| >= |pat| && s[..|pat|] != pat
    requires !Contains(ReplaceAll(s[1..], pat, rep), pat)
    ensures !Contains([s[0]] + ReplaceAll(s[1..], pat, rep), pat)
  {
    var r' := ReplaceAll(s[1..], pat, rep);
    var r := [s[0]] + r';
    forall k | 0 <= k <= |r| - |pat| ensures !OccursAt(r, pat, k) {
      if OccursAt(r, pat, k) {
        if k >= 1 {
          assert r'[k - 1..k - 1 + |pat|] == r[k..k + |pat|];
          ContainsAt(r', pat, k - 1);
        } else {
          OccurrenceAtFrontWasThere(s, pat, rep);
        }
      }
    }
  }

  /** After `s.replace(pat, rep)` the pattern is gone. */
  lemma {:induction false} ReplaceLeavesNoOccurrence(s: string, pat: string, rep: string)
    requires SelfErasing(pat, rep)
    ensures !Contains(ReplaceAll(s, pat, rep), pat)
    decreases |s|
  {
    if |s| < |pat| {
    } else if s[..|pat|] == pat {
      ReplaceLeavesNoOccurrence(s[|pat|..], pat, rep);
      NoOccurrenceAfterRep(rep, ReplaceAll(s[|pat|..], pat, rep), pat);
    } else {
      ReplaceLeavesNoOccurrence(s[1..], pat, rep);
      NoOccurrenceAfterLetter(s, pat, rep);
    }
  }

  /** A change that only writes the letter `to` cannot create a pattern free of `to`. */
  lemma ChangedOnlyAtKeepsAbsence(s: string, r: string, from: char, to: char, q: string)
    requires ChangedOnlyAt(s, r, from, to) && to !in q
    requires !Contains(s, q)
    ensures !Contains(r, q)
  {
    if Contains(r, q) {
      var k :| 0 <= k <= |r| - |q| && OccursAt(r, q, k);
      forall j | 0 <= j < |q| ensures s[k + j] == q[j] {
        assert r[k + j] == r[k..k + |q|][j] == q[j];
      }
      assert s[k..k + |q|] == q;
      ContainsAt(s, q, k);
    }
  }

  // ---------------------------------------------------------------- str.strip

  /** How many copies of `c` start `s`. */
  function LeadingRun(s: string, c: char): (n: nat)
    ensures n <= |s|
    ensures forall i :: 0 <= i < n ==> s[i] == c
    ensures n < |s| ==> s[n] != c
    decreases |s|
  {
    if |s| > 0 && s[0] == c then 1 + LeadingRun(s[1..], c) else 0
  }

  /** How many copies of `c` end `s`. */
  function TrailingRun(s: string, c: char): (n: nat)
    ensures n <= |s|
    ensures forall i :: |s| - n <= i < |s| ==> s[i] == c
    ensures n < |s| ==> s[|s| - 1 - n] != c
    decreases |s|
  {
    if |s| > 0 && s[|s| - 1] == c then 1 + TrailingRun(s[..|s| - 1], c) else 0
  }

  /** `s.strip(c)` for one character: drop every leading and trailing `c`. */
  function Strip(s: string, c: char): (r: string)
    ensures |r| == 0 || (r[0] != c && r[|r| - 1] != c)
    ensures exists a | 0 <= a <= |s| - |r| ::
              OccursAt(s, r, a)
              && (forall i :: 0 <= i < a ==> s[i] == c)
              && (forall i :: a + |r| <= i < |s| ==> s[i] == c)
  {
    var a := LeadingRun(s, c);
    var t := s[a..];
    var r := t[..|t| - TrailingRun(t, c)];
    assert s[a..a + |r|] == r;
    assert OccursAt(s, r, a);
    r
  }

  lemma StripIdempotent(s: string, c: char)
    ensures Strip(Strip(s, c), c) == Strip(s, c)
  {
    var r := Strip(s, c);
    assert LeadingRun(r, c) == 0;
    assert TrailingRun(r[0..], c) == 0 by { assert r[0..] == r; }
    assert r[0..][..|r|] == r;
  }

  // ---------------------------------------------------------------- decimal numbers

  predicate IsDigit(ch: char) {
    '0' <= ch <= '9'
  }

  predicate AllDigits(s: string) {
    forall i :: 0 <= i < |s| ==> IsDigit(s[i])
  }

  function DigitChar(d: nat): (ch: char)
    requires d < 10
    ensures IsDigit(ch)
  {
    (48 + d) as char
  }

  function DigitValue(ch: char): (d: nat)
    requires IsDigit(ch)
    ensures d < 10
  {
    (ch as int - 48) as nat
  }

  /** `str(n)` for `n >= 0`: decimal digits, no leading zero. */
  function NatToString(n: nat): (r: string)
    ensures |r| > 0 && AllDigits(r)
    decreases n
  {
    if n < 10 then [DigitChar(n)] else NatToString(n / 10) + [DigitChar(n % 10)]
  }

  /** `str(n)` for any Python int. */
  function IntToString(n: int): (r: string)
    ensures |r| > 0
    ensures r[0] == '-' <==> n < 0
    ensures n < 0 ==> |r| > 1 && AllDigits(r[1..])
    ensures n >= 0 ==> AllDigits(r)
  {
    if n < 0 then "-" + NatToString(-n) else NatToString(n)
  }

  /** A decimal rendering holds only digits and `-`. */
  lemma IntToStringFreeOf(n: int, c: char)
    requires !IsDigit(c) && c != '-'
    ensures c !in IntToString(n)
  {
    var r := IntToString(n);
    if n < 0 {
      forall i | 1 <= i < |r| ensures r[i] != c {
        assert r[i] == r[1..][i - 1];
      }
    }
  }

  /** `int(s)` on a string of decimal digits. */
  function ParseNat(s: string): nat
    requires AllDigits(s)
    decreases |s|
  {
    if |s| == 0 then 0 else 10 * ParseNat(s[..|s| - 1]) + DigitValue(s[|s| - 1])
  }

  /** `int(s)` on an optional minus sign followed by decimal digits. */
  function ParseInt(s: string): int
    requires |s| > 0 && (if s[0] == '-' then AllDigits(s[1..]) else AllDigits(s))
  {
    if s[0] == '-' then -(ParseNat(s[1..]) as int) else ParseNat(s)
  }

  lemma {:induction false} NatRoundTrip(n: nat)
    ensures ParseNat(NatToString(n)) == n
    decreases n
  {
    var s := NatToString(n);
    if n >= 10 {
      NatRoundTrip(n / 10);
      assert s[..|s| - 1] == NatToString(n / 10);
    }
  }

  /** `int(str(n)) == n`: the decimal rendering of a chat id loses nothing. */
  lemma IntRoundTrip(n: int)
    ensures ParseInt(IntToString(n)) == n
  {
    if n < 0 {
      NatRoundTrip(-n);
      assert IntToString(n)[1..] == NatToString(-n);
    } else {
      NatRoundTrip(n);
    }
  }
}
