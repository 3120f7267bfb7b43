/**
 * The JavaScript string operations the screens rely on: `split('-')`,
 * `includes`, `startsWith`, the relational `<` on strings, `toLowerCase`,
 * `toString` of a whole number and `padStart`.
 */
module Text {
  import opened Types

  /** `s.split('-')`: the fields between dashes; always at least one field. */
  function Split(s: string): (r: seq<string>)
    ensures |r| >= 1
  {
    if s == [] then [""]
    else if s[0] == '-' then [""] + Split(s[1..])
    else
      var rest := Split(s[1..]);
      [[s[0]] + rest[0]] + rest[1..]
  }

  /** `s.split('-')[k]`, which is `undefined` (here `None`) past the last field. */
  function DashField(s: string, k: nat): (r: Option<string>)
    ensures k == 0 ==> r.Some?
  {
    var fields := Split(s);
    if k < |fields| then Some(fields[k]) else None
  }

  predicate NoDash(s: string) {
    forall i :: 0 <= i < |s| ==> s[i] != '-'
  }

  lemma {:induction false} SplitNoDash(a: string, b: string)
    requires NoDash(a)
    ensures Split(a) == [a]
    ensures Split(a + "-" + b) == [a] + Split(b)
  {
    if a != [] {
      assert (a + "-" + b)[1..] == a[1..] + "-" + b;
      SplitNoDash(a[1..], b);
      assert [a[0]] + a[1..] == a;
    } else {
      assert a + "-" + b == ['-'] + b;
    }
  }

  /**
   * For a date written `YYYY-MM-DD` the first two fields are the year and
   * the month digits.
   */
  lemma IsoDateFields(d: string)
    requires |d| == 10 && d[4] == '-' && d[7] == '-'
    requires NoDash(d[..4]) && NoDash(d[5..7]) && NoDash(d[8..])
    ensures DashField(d, 0) == Some(d[..4])
    ensures DashField(d, 1) == Some(d[5..7])
    ensures DashField(d, 2) == Some(d[8..])
    ensures DashField(d, 3) == None
  {
    assert d == d[..4] + "-" + (d[5..7] + "-" + d[8..]);
    SplitNoDash(d[..4], d[5..7] + "-" + d[8..]);
    SplitNoDash(d[5..7], d[8..]);
    SplitNoDash(d[8..], "");
  }

  /** `sub` occurs in `s` starting at index `i`. */
  predicate OccursAt(s: string, sub: string, i: nat) {
    i + |sub| <= |s| && s[i..i + |sub|] == sub
  }

  /** `s.includes(sub)`. */
  function Contains(s: string, sub: string): (r: bool)
    ensures r <==> exists i: nat :: OccursAt(s, sub, i)
  {
    if sub <= s then
      assert OccursAt(s, sub, 0);
      true
    else if s == [] then
      assert sub != [];
      false
    else
      var r := Contains(s[1..], sub);
      assert forall i: nat :: OccursAt(s[1..], sub, i) <==> OccursAt(s, sub, i + 1) by {
        forall i: nat ensures OccursAt(s[1..], sub, i) <==> OccursAt(s, sub, i + 1) {
          if i + |sub| <= |s| - 1 { assert s[1..][i..i + |sub|] == s[i + 1..i + 1 + |sub|]; }
        }
      }
      assert !OccursAt(s, sub, 0);
      assert r <==> exists i: nat :: OccursAt(s, sub, i) by {
        if r {
          var i: nat :| OccursAt(s[1..], sub, i);
          assert OccursAt(s, sub, i + 1);
        }
        if exists i: nat :: OccursAt(s, sub, i) {
          var i: nat :| OccursAt(s, sub, i);
          assert i != 0;
          assert OccursAt(s[1..], sub, i - 1);
        }
      }
      r
  }

  /** Every string includes the empty search term. */
  lemma ContainsEmpty(s: string)
    ensures Contains(s, "")
  {
    assert OccursAt(s, "", 0);
  }

  /** JavaScript's `a < b` on strings: lexicographic order of the characters. */
  function LexLess(a: string, b: string): (r: bool)
    ensures r ==> a != b
  {
    if a == [] then b != []
    else if b == [] then false
    else if a[0] != b[0] then a[0] < b[0]
    else LexLess(a[1..], b[1..])
  }

  /** Of two different strings exactly one is less than the other. */
  lemma {:induction false} LexLessTrichotomy(a: string, b: string)
    ensures !(LexLess(a, b) && LexLess(b, a))
    ensures a != b ==> LexLess(a, b) || LexLess(b, a)
  {
    if a != [] && b != [] && a[0] == b[0] {
      LexLessTrichotomy(a[1..], b[1..]);
      assert a == [a[0]] + a[1..] && b == [b[0]] + b[1..];
    }
  }

  /** `toLowerCase` on one character: the ASCII capitals A to Z become small. */
  function LowerChar(c: char): char {
    if 'A' <= c <= 'Z' then (c as int - 'A' as int + 'a' as int) as char else c
  }

  /** `s.toLowerCase()`, ASCII letters only. */
  function Lower(s: string): (r: string)
    ensures |r| == |s|
    ensures forall i :: 0 <= i < |s| ==> r[i] == LowerChar(s[i])
  {
    seq(|s|, i requires 0 <= i < |s| => LowerChar(s[i]))
  }

  /** Lower-casing twice is lower-casing once. */
  lemma LowerIdempotent(s: string)
    ensures Lower(Lower(s)) == Lower(s)
  {
  }

  function DigitChar(d: nat): char
    requires d < 10
  {
    "0123456789"[d]
  }

  function DigitValue(c: char): nat {
    if '0' <= c <= '9' then c as int - '0' as int else 0
  }

  predicate IsDigits(s: string) {
    forall i :: 0 <= i < |s| ==> '0' <= s[i] <= '9'
  }

  /** `n.toString()` for a whole number: its decimal digits, no leading zeros. */
  function NatToString(n: nat): (r: string)
    ensures r != [] && IsDigits(r)
    ensures n > 0 ==> r[0] != '0'
  {
    if n < 10 then [DigitChar(n)]
    else NatToString(n / 10) + [DigitChar(n % 10)]
  }

  /** The number a string of decimal digits denotes. */
  function DigitsValue(s: string): nat {
    if s == [] then 0 else DigitsValue(s[..|s| - 1]) * 10 + DigitValue(s[|s| - 1])
  }

  /** Reading back the printed digits gives the number. */
  lemma {:induction false} NatToStringRoundTrip(n: nat)
    ensures DigitsValue(NatToString(n)) == n
  {
    if n >= 10 {
      NatToStringRoundTrip(n / 10);
      var s := NatToString(n);
      assert s[..|s| - 1] == NatToString(n / 10);
    }
  }

  /** Different numbers print differently. */
  lemma NatToStringInjective(m: nat, n: nat)
    requires m != n
    ensures NatToString(m) != NatToString(n)
  {
    NatToStringRoundTrip(m);
    NatToStringRoundTrip(n);
  }

  /** `s.padStart(width, c)` with a one-character pad. */
  function PadStart(s: string, width: nat, c: char): (r: string)
    ensures |r| == if |s| >= width then |s| else width
    ensures r[|r| - |s|..] == s
    ensures forall i :: 0 <= i < |r| - |s| ==> r[i] == c
  {
    if |s| >= width then s else seq(width - |s|, _ => c) + s
  }

  /** `n.toString().padStart(2, '0')`: the two-digit month code. */
  function MonthCode(n: nat): (r: string)
    requires 1 <= n <= 12
    ensures |r| == 2 && IsDigits(r)
    ensures DigitsValue(r) == n
  {
    var digits := NatToString(n);
    NatToStringRoundTrip(n);
    if n < 10 then
      assert digits == [DigitChar(n)];
      PadStart(digits, 2, '0')
    else
      assert digits == NatToString(1) + [DigitChar(n % 10)];
      PadStart(digits, 2, '0')
  }

  /** Two two-digit strings denoting the same number are the same string. */
  lemma TwoDigitsInjective(a: string, b: string)
    requires |a| == 2 && |b| == 2 && IsDigits(a) && IsDigits(b)
    requires DigitsValue(a) == DigitsValue(b)
    ensures a == b
  {
    assert a[..1][..0] == [] && b[..1][..0] == [];
    assert DigitsValue(a[..1]) == DigitValue(a[0]) && DigitsValue(b[..1]) == DigitValue(b[0]);
    assert DigitsValue(a) == DigitValue(a[0]) * 10 + DigitValue(a[1]);
    assert DigitsValue(b) == DigitValue(b[0]) * 10 + DigitValue(b[1]);
  }

  /** The twelve month codes are distinct. */
  lemma MonthCodeInjective(m: nat, n: nat)
    requires 1 <= m <= 12 && 1 <= n <= 12 && m != n
    ensures MonthCode(m) != MonthCode(n)
  {
  }
}
