/**
 * String helpers with JavaScript's meaning: `toLowerCase` (on ASCII letters),
 * `includes`/`indexOf`, `replace` with a string pattern, `Array.prototype.join`,
 * `String(n)` for a non-negative integer and `parseInt` of a run of digits.
 */
module Text {
  import opened Wrappers

  // ---------------------------------------------------------------------------
  // Case

  function LowerChar(c: char): char {
    if 'A' <= c <= 'Z' then (c as int - 'A' as int + 'a' as int) as char else c
  }

  /** `s.toLowerCase()`, on the ASCII letters. */
  function Lower(s: string): (r: string)
    ensures |r| == |s|
    ensures forall i :: 0 <= i < |s| ==> r[i] == LowerChar(s[i])
  {
    seq(|s|, i requires 0 <= i < |s| => LowerChar(s[i]))
  }

  lemma LowerAppend(a: string, b: string)
    ensures Lower(a + b) == Lower(a) + Lower(b)
  {
  }

  // ---------------------------------------------------------------------------
  // Substrings

  /** `p` occurs in `s` starting at index `i`. */
  predicate OccursAt(s: string, p: string, i: nat) {
    i + |p| <= |s| && s[i..i + |p|] == p
  }

  /** `s.indexOf(p, from)`, `None` for -1. */
  function IndexOfFrom(s: string, p: string, from: nat): (r: Option<nat>)
    decreases |s| - from
    ensures r.Some? ==> from <= r.value && OccursAt(s, p, r.value)
    ensures r.Some? ==> forall j :: from <= j < r.value ==> !OccursAt(s, p, j)
    ensures r.None? ==> forall j :: from <= j ==> !OccursAt(s, p, j)
  {
    if from + |p| > |s| then None
    else if s[from..from + |p|] == p then Some(from)
    else IndexOfFrom(s, p, from + 1)
  }

  /** `s.indexOf(p)`: the first occurrence. */
  function IndexOf(s: string, p: string): (r: Option<nat>)
    ensures r.Some? ==> OccursAt(s, p, r.value) && forall j :: 0 <= j < r.value ==> !OccursAt(s, p, j)
    ensures r.None? ==> forall j :: 0 <= j ==> !OccursAt(s, p, j)
  {
    IndexOfFrom(s, p, 0)
  }

  /** `s.includes(p)`. */
  predicate Contains(s: string, p: string) {
    IndexOf(s, p).Some?
  }

  lemma ContainsAt(s: string, p: string, i: nat)
    requires OccursAt(s, p, i)
    ensures Contains(s, p)
  {
  }

  /** Whatever surrounds it, a string contains every piece it was built from. */
  lemma ContainsMiddle(a: string, p: string, b: string)
    ensures Contains(a + p + b, p)
  {
    var s := a + p + b;
    assert s[|a|..|a| + |p|] == p;
    ContainsAt(s, p, |a|);
  }

  /** A string that contains `p` still contains it with anything put around it. */
  lemma ContainsWithin(a: string, m: string, b: string, p: string)
    requires Contains(m, p)
    ensures Contains(a + m + b, p)
  {
    var i := IndexOf(m, p).value;
    var s := a + m + b;
    assert s[|a| + i..|a| + i + |p|] == m[i..i + |p|];
    ContainsAt(s, p, |a| + i);
  }

  /** The empty string contains no non-empty string. */
  lemma EmptyContainsNothing(p: string)
    requires |p| > 0
    ensures !Contains("", p)
  {
  }

  /** `s.replace(p, rep)` with a string pattern: only the first occurrence is replaced. */
  function ReplaceFirst(s: string, p: string, rep: string): (r: string)
    ensures IndexOf(s, p).None? ==> r == s
    ensures IndexOf(s, p).Some? ==>
      var i := IndexOf(s, p).value;
      r == s[..i] + rep + s[i + |p|..]
  {
    match IndexOf(s, p)
    case None => s
    case Some(i) => s[..i] + rep + s[i + |p|..]
  }

  /** A pattern whose first character does not occur before it is found where it stands. */
  lemma FirstOccurrence(pre: string, p: string, post: string)
    requires |p| > 0
    requires p[0] !in pre
    ensures IndexOf(pre + p + post, p) == Some(|pre|)
  {
    var s := pre + p + post;
    assert s[|pre|..|pre| + |p|] == p;
    forall j | 0 <= j < |pre| ensures !OccursAt(s, p, j) {
      assert s[j] == pre[j];
    }
    assert OccursAt(s, p, |pre|);
    var r := IndexOf(s, p);
    assert r.Some?;
    assert r.value >= |pre|;
  }

  /** A string without the pattern's first character does not contain the pattern. */
  lemma NoOccurrence(s: string, p: string)
    requires |p| > 0
    requires p[0] !in s
    ensures IndexOf(s, p) == None
  {
    forall j: nat | j + |p| <= |s| ensures !OccursAt(s, p, j) {
      assert s[j..j + |p|][0] == s[j];
    }
  }

  // ---------------------------------------------------------------------------
  // Joining

  /** `parts.join(sep)`. */
  function Join(parts: seq<string>, sep: string): string {
    if parts == [] then ""
    else if |parts| == 1 then parts[0]
    else parts[0] + sep + Join(parts[1..], sep)
  }

  /** Every part of a join stands between the text before it and the text after it. */
  lemma {:induction false} JoinAround(parts: seq<string>, sep: string, k: nat) returns (before: string, after: string)
    requires k < |parts|
    ensures Join(parts, sep) == before + parts[k] + after
  {
    if k == 0 {
      before := "";
      after := if |parts| == 1 then "" else sep + Join(parts[1..], sep);
    } else {
      var b, a := JoinAround(parts[1..], sep, k - 1);
      before, after := parts[0] + sep + b, a;
    }
  }

  /** Joining with the empty separator puts two adjacent parts directly together. */
  lemma JoinAroundPairTight(parts: seq<string>, k: nat) returns (before: string, after: string)
    requires k + 1 < |parts|
    ensures Join(parts, "") == before + (parts[k] + parts[k + 1]) + after
  {
    before, after := JoinAroundPair(parts, "", k);
    assert parts[k] + "" + parts[k + 1] == parts[k] + parts[k + 1];
  }

  /** Two adjacent parts of a join stand together, with the separator between them. */
  lemma {:induction false} JoinAroundPair(parts: seq<string>, sep: string, k: nat) returns (before: string, after: string)
    requires k + 1 < |parts|
    ensures Join(parts, sep) == before + (parts[k] + sep + parts[k + 1]) + after
  {
    if k == 0 {
      before := "";
      after := if |parts| == 2 then "" else sep + Join(parts[2..], sep);
      assert parts[1..][0] == parts[1];
      assert parts[1..][1..] == parts[2..];
    } else {
      var b, a := JoinAroundPair(parts[1..], sep, k - 1);
      before, after := parts[0] + sep + b, a;
    }
  }

  // ---------------------------------------------------------------------------
  // Decimal numerals

  predicate IsDigit(c: char) {
    '0' <= c <= '9'
  }

  predicate AllDigits(s: string) {
    forall i :: 0 <= i < |s| ==> IsDigit(s[i])
  }

  function DigitChar(d: nat): char
    requires d < 10
  {
    ('0' as int + d) as char
  }

  function DigitValue(c: char): nat
    requires IsDigit(c)
  {
    c as int - '0' as int
  }

  /** `parseInt(s, 10)` of a string of digits. */
  function DigitsValue(s: string): nat
    requires AllDigits(s)
  {
    if s == [] then 0 else DigitsValue(s[..|s| - 1]) * 10 + DigitValue(s[|s| - 1])
  }

  /** `String(n)` for a non-negative integer: its decimal numeral. */
  function NatToString(n: nat): (r: string)
    ensures |r| > 0 && AllDigits(r)
  {
    if n < 10 then [DigitChar(n)] else NatToString(n / 10) + [DigitChar(n % 10)]
  }

  /** `String(n)` for an integer: a minus sign before a negative number's numeral. */
  function IntToString(n: int): (r: string)
    ensures n >= 0 ==> r == NatToString(n)
    ensures n < 0 ==> r == "-" + NatToString(-n)
  {
    if n >= 0 then NatToString(n) else "-" + NatToString(-n)
  }

  /** Reading back a numeral gives the number it was written from. */
  lemma {:induction false} NatToStringRoundTrip(n: nat)
    ensures DigitsValue(NatToString(n)) == n
  {
    if n >= 10 {
      NatToStringRoundTrip(n / 10);
      var s := NatToString(n);
      assert s[..|s| - 1] == NatToString(n / 10);
    }
  }
}
