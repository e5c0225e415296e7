/** String helpers shared by the three models: joining with a separator
    (JavaScript's `Array.join`, Python's `str.join`), single-character
    replacement (Python's `str.replace` with one-character arguments) and
    decimal rendering of integers. */
module Strings {

  /** `xs` joined with `sep` between consecutive elements; `[]` gives "". */
  function Join(xs: seq<string>, sep: string): (r: string)
    decreases |xs|
  {
    if |xs| == 0 then ""
    else if |xs| == 1 then xs[0]
    else xs[0] + sep + Join(xs[1..], sep)
  }

  /** Appending one element extends the joined text by one separator and that element. */
  lemma {:induction false} JoinSnoc(xs: seq<string>, y: string, sep: string)
    requires |xs| > 0
    ensures Join(xs + [y], sep) == Join(xs, sep) + sep + y
    decreases |xs|
  {
    if |xs| == 1 {
      assert xs + [y] == [xs[0], y];
      assert (xs + [y])[1..] == [y];
    } else {
      assert (xs + [y])[1..] == xs[1..] + [y];
      JoinSnoc(xs[1..], y, sep);
    }
  }

  /** A non-empty join starts with its first element and ends with its last one. */
  lemma {:induction false} JoinEnds(xs: seq<string>, sep: string)
    requires |xs| > 0
    ensures |xs[0]| <= |Join(xs, sep)| && Join(xs, sep)[..|xs[0]|] == xs[0]
    ensures |xs[|xs| - 1]| <= |Join(xs, sep)|
    ensures Join(xs, sep)[|Join(xs, sep)| - |xs[|xs| - 1]|..] == xs[|xs| - 1]
    decreases |xs|
  {
    if |xs| > 1 {
      JoinEnds(xs[1..], sep);
      var rest := Join(xs[1..], sep);
      var whole := xs[0] + sep + rest;
      assert whole[..|xs[0]|] == xs[0];
      assert whole[|whole| - |xs[|xs| - 1]|..] == rest[|rest| - |xs[|xs| - 1]|..];
    }
  }

  /** A join of one element is that element. */
  lemma JoinSingle(xs: seq<string>, sep: string)
    requires |xs| == 1
    ensures Join(xs, sep) == xs[0]
  {
  }

  /** A non-empty join whose last element is `t` ends with `t`. */
  lemma JoinEndsWith(xs: seq<string>, sep: string, t: string)
    requires |xs| > 0 && xs[|xs| - 1] == t
    ensures |t| <= |Join(xs, sep)| && Join(xs, sep)[|Join(xs, sep)| - |t|..] == t
  {
    JoinEnds(xs, sep);
  }

  /** A join splits at any inner element boundary into the join before it,
      one separator and the join from it on. */
  lemma {:induction false} JoinSplit(xs: seq<string>, sep: string, i: nat)
    requires 0 < i < |xs|
    ensures Join(xs, sep) == Join(xs[..i], sep) + sep + Join(xs[i..], sep)
    decreases i
  {
    if i > 1 {
      JoinSplit(xs[1..], sep, i - 1);
      assert xs[1..][..i - 1] == xs[..i][1..];
      assert xs[1..][i - 1..] == xs[i..];
    } else {
      assert xs[..1] == [xs[0]];
    }
  }

  /** Where element `i` starts in the join: after the elements before it and one separator each. */
  function JoinOffset(xs: seq<string>, sep: string, i: nat): nat
    requires i <= |xs|
  {
    if i == 0 then 0 else |Join(xs[..i], sep)| + |sep|
  }

  /** Every element occurs in the join at its offset, and the next element
      starts one separator after it ends. */
  lemma JoinOccurs(xs: seq<string>, sep: string, i: nat)
    requires i < |xs|
    ensures OccursAt(Join(xs, sep), xs[i], JoinOffset(xs, sep, i))
    ensures i + 1 < |xs| ==> JoinOffset(xs, sep, i + 1) == JoinOffset(xs, sep, i) + |xs[i]| + |sep|
  {
    JoinElementAt(xs, sep, i);
    if i + 1 < |xs| {
      JoinPrefixEnd(xs, sep, i);
    }
  }

  lemma JoinElementAt(xs: seq<string>, sep: string, i: nat)
    requires i < |xs|
    ensures OccursAt(Join(xs, sep), xs[i], JoinOffset(xs, sep, i))
  {
    JoinEnds(xs[i..], sep);
    assert xs[i..][0] == xs[i];
    if i > 0 {
      JoinSplit(xs, sep, i);
      OccursAtStart(Join(xs[..i], sep) + sep, Join(xs[i..], sep), xs[i]);
    } else {
      assert xs[0..] == xs;
    }
  }

  /** A prefix of the second part occurs where the second part starts. */
  lemma OccursAtStart(a: string, b: string, t: string)
    requires |t| <= |b| && b[..|t|] == t
    ensures OccursAt(a + b, t, |a|)
  {
    assert (a + b)[|a|..|a| + |t|] == b[..|t|];
  }

  /** The join of the first `i + 1` elements ends where element `i` ends. */
  lemma JoinPrefixEnd(xs: seq<string>, sep: string, i: nat)
    requires i < |xs|
    ensures |Join(xs[..i + 1], sep)| == JoinOffset(xs, sep, i) + |xs[i]|
  {
    if i == 0 {
      assert xs[..1] == [xs[0]];
    } else {
      assert xs[..i + 1] == xs[..i] + [xs[i]];
      JoinSnoc(xs[..i], xs[i], sep);
    }
  }

  /** The separator follows every element but the last one. */
  lemma JoinSeparator(xs: seq<string>, sep: string, i: nat)
    requires i + 1 < |xs|
    ensures OccursAt(Join(xs, sep), sep, JoinOffset(xs, sep, i) + |xs[i]|)
  {
    JoinPrefixEnd(xs, sep, i);
    JoinSplit(xs, sep, i + 1);
    OccursBetween(Join(xs[..i + 1], sep), sep, Join(xs[i + 1..], sep));
  }

  /** The join ends where its last element ends. */
  lemma JoinLength(xs: seq<string>, sep: string)
    requires |xs| > 0
    ensures |Join(xs, sep)| == JoinOffset(xs, sep, |xs| - 1) + |xs[|xs| - 1]|
  {
    var n := |xs|;
    assert xs[..n] == xs;
    JoinPrefixEnd(xs, sep, n - 1);
  }

  /** With a one-character separator, that character follows every element but the last. */
  lemma JoinSeparatorChars(xs: seq<string>, sep: string)
    requires |sep| == 1
    ensures forall i :: 0 <= i < |xs| - 1 ==>
              JoinOffset(xs, sep, i) + |xs[i]| < |Join(xs, sep)| &&
              Join(xs, sep)[JoinOffset(xs, sep, i) + |xs[i]|] == sep[0]
  {
    forall i | 0 <= i < |xs| - 1
      ensures JoinOffset(xs, sep, i) + |xs[i]| < |Join(xs, sep)| &&
              Join(xs, sep)[JoinOffset(xs, sep, i) + |xs[i]|] == sep[0]
    {
      JoinSeparator(xs, sep, i);
      OccursAtChar(Join(xs, sep), sep, JoinOffset(xs, sep, i) + |xs[i]|);
    }
  }

  /** A one-character segment at `k` is the character at `k`. */
  lemma OccursAtChar(s: string, t: string, k: int)
    requires |t| == 1 && OccursAt(s, t, k)
    ensures 0 <= k < |s| && s[k] == t[0]
  {
    assert s[k..k + 1][0] == s[k];
  }

  /** A character that occurs neither in the separator nor in any element does not occur in the join. */
  lemma {:induction false} JoinExcludes(xs: seq<string>, sep: string, c: char)
    requires c !in sep
    requires forall k :: 0 <= k < |xs| ==> c !in xs[k]
    ensures c !in Join(xs, sep)
    decreases |xs|
  {
    if |xs| > 1 {
      JoinExcludes(xs[1..], sep, c);
    }
  }

  /** `s` with every occurrence of `from` replaced by `to`, everything else in place. */
  function ReplaceChar(s: string, from: char, to: char): (r: string)
    ensures |r| == |s|
    ensures forall i :: 0 <= i < |s| ==> r[i] == (if s[i] == from then to else s[i])
    decreases |s|
  {
    if |s| == 0 then ""
    else [if s[0] == from then to else s[0]] + ReplaceChar(s[1..], from, to)
  }

  /** After the replacement `from` no longer occurs (unless it is its own replacement). */
  lemma ReplaceCharRemoves(s: string, from: char, to: char)
    requires from != to
    ensures from !in ReplaceChar(s, from, to)
  {
  }

  function DigitChar(d: nat): (c: char)
    requires d < 10
    ensures '0' <= c <= '9'
  {
    "0123456789"[d]
  }

  predicate IsDigits(s: string) {
    forall i :: 0 <= i < |s| ==> '0' <= s[i] <= '9'
  }

  /** Decimal digits of `n`, most significant first, no leading zeros. */
  function NatToString(n: nat): (r: string)
    ensures |r| > 0 && IsDigits(r)
    ensures n < 10 <==> |r| == 1
    decreases n
  {
    if n < 10 then [DigitChar(n)]
    else NatToString(n / 10) + [DigitChar(n % 10)]
  }

  /** Decimal rendering of an integer, with a leading '-' when negative. */
  function IntToString(i: int): (r: string)
    ensures |r| > 0
    ensures i >= 0 <==> r[0] != '-'
    ensures i < 0 ==> r[1..] == NatToString(-i)
    ensures i >= 0 ==> r == NatToString(i)
  {
    if i < 0 then "-" + NatToString(-i) else NatToString(i)
  }

  /** `t` occurs in `s` as the segment that starts at index `k`. */
  predicate OccursAt(s: string, t: string, k: int) {
    0 <= k <= |s| - |t| && s[k..k + |t|] == t
  }

  /** `t` occurs in `s` as a contiguous segment. */
  predicate Contains(s: string, t: string) {
    exists k | 0 <= k <= |s| - |t| :: OccursAt(s, t, k)
  }

  /** A segment placed between two strings occurs there. */
  lemma OccursBetween(a: string, t: string, b: string)
    ensures OccursAt(a + t + b, t, |a|)
    ensures Contains(a + t + b, t)
  {
    assert (a + t + b)[|a|..|a| + |t|] == t;
    assert OccursAt(a + t + b, t, |a|);
  }

  /** A segment at the end of a string occurs in it. */
  lemma ContainsEnd(a: string, t: string)
    ensures Contains(a + t, t)
  {
    assert (a + t)[|a|..|a| + |t|] == t;
    assert OccursAt(a + t, t, |a|);
  }

  /** Appending text keeps every segment and every prefix. */
  lemma ContainsAppend(s: string, t: string, b: string)
    requires Contains(s, t)
    ensures Contains(s + b, t)
  {
    var k :| 0 <= k <= |s| - |t| && OccursAt(s, t, k);
    assert (s + b)[k..k + |t|] == s[k..k + |t|];
    assert OccursAt(s + b, t, k);
  }

  /** A segment at the end of a string occurs at the end's offset. */
  lemma OccursAtEnd(a: string, t: string)
    ensures OccursAt(a + t, t, |a|)
  {
    assert (a + t)[|a|..|a| + |t|] == t;
  }

  /** Appending text keeps every segment where it was. */
  lemma OccursAtAppend(s: string, t: string, k: int, b: string)
    requires OccursAt(s, t, k)
    ensures OccursAt(s + b, t, k)
  {
    assert (s + b)[k..k + |t|] == s[k..k + |t|];
  }

  lemma PrefixAppend(s: string, p: string, b: string)
    requires |p| <= |s| && s[..|p|] == p
    ensures |p| <= |s + b| && (s + b)[..|p|] == p
  {
    assert (s + b)[..|p|] == s[..|p|];
  }

  lemma PrefixOfConcat(x: string, y: string)
    ensures |x + y| >= |x| && (x + y)[..|x|] == x
  {
  }

  /** Every character is below U+0080. */
  predicate IsAscii(s: string) {
    forall k :: 0 <= k < |s| ==> s[k] as int < 0x80
  }

  lemma DigitsAreAscii(s: string)
    requires IsDigits(s)
    ensures IsAscii(s) && '\n' !in s
  {
  }

  /** Joining ASCII texts with an ASCII separator gives ASCII text. */
  lemma {:induction false} JoinAscii(xs: seq<string>, sep: string)
    requires IsAscii(sep)
    requires forall k :: 0 <= k < |xs| ==> IsAscii(xs[k])
    ensures IsAscii(Join(xs, sep))
    decreases |xs|
  {
    if |xs| > 1 {
      JoinAscii(xs[1..], sep);
      assert Join(xs, sep) == xs[0] + sep + Join(xs[1..], sep);
    }
  }

  lemma AppendAscii(a: string, b: string)
    requires IsAscii(a) && IsAscii(b)
    ensures IsAscii(a + b)
  {
    forall k | 0 <= k < |a + b| ensures (a + b)[k] as int < 0x80 {
      if k < |a| {
        assert (a + b)[k] == a[k];
      } else {
        assert (a + b)[k] == b[k - |a|];
      }
    }
  }
}
