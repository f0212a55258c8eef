/** String operations the core borrows from the JavaScript runtime:
    `indexOf`, decimal rendering of numbers, and the default string order of `Array.prototype.sort`. */
module Text {

  /** `pat` occurs in `s` starting at index `k`. */
  predicate Occurs(s: string, pat: string, k: int) {
    0 <= k && k + |pat| <= |s| && s[k..k + |pat|] == pat
  }

  /** `s.indexOf(pat, from)`: scans forward from `from`. */
  function IndexOfFrom(s: string, pat: string, from: nat): int
    requires from <= |s|
    decreases |s| - from
  {
    if Occurs(s, pat, from) then from
    else if from == |s| then -1
    else IndexOfFrom(s, pat, from + 1)
  }

  /** `s.indexOf(pat)`. */
  function IndexOf(s: string, pat: string): int {
    IndexOfFrom(s, pat, 0)
  }

  lemma {:induction false} IndexOfFromFirst(s: string, pat: string, from: nat)
    requires from <= |s|
    ensures var r := IndexOfFrom(s, pat, from);
      && (r == -1 || (from <= r && Occurs(s, pat, r)))
      && forall k :: from <= k && (r == -1 || k < r) ==> !Occurs(s, pat, k)
    decreases |s| - from
  {
    if !Occurs(s, pat, from) && from < |s| {
      IndexOfFromFirst(s, pat, from + 1);
    }
  }

  /** `indexOf` returns the first occurrence of the pattern, and -1 exactly when there is none. */
  lemma IndexOfFirst(s: string, pat: string)
    ensures var r := IndexOf(s, pat);
      && (r == -1 || Occurs(s, pat, r))
      && forall k :: (r == -1 || k < r) ==> !Occurs(s, pat, k)
  {
    IndexOfFromFirst(s, pat, 0);
  }

  predicate IsDigit(c: char) {
    '0' <= c <= '9'
  }

  predicate AllDigits(s: string) {
    forall i :: 0 <= i < |s| ==> IsDigit(s[i])
  }

  function DigitChar(d: nat): (c: char)
    requires d < 10
  {
    ('0' as int + d) as char
  }

  /** `n.toString()` for a non-negative integer: its shortest decimal numeral. */
  function Decimal(n: nat): (r: string)
    ensures |r| > 0 && AllDigits(r)
    ensures |r| > 1 ==> r[0] != '0'
    decreases n
  {
    if n < 10 then [DigitChar(n)] else Decimal(n / 10) + [DigitChar(n % 10)]
  }

  /** The number a numeral of decimal digits denotes. */
  function DigitsValue(s: string): nat
    requires AllDigits(s)
  {
    if s == [] then 0 else DigitsValue(s[..|s| - 1]) * 10 + (s[|s| - 1] as int - '0' as int)
  }

  /** Reading back the numeral gives the number that was rendered. */
  lemma {:induction false} DecimalRoundTrip(n: nat)
    ensures DigitsValue(Decimal(n)) == n
    decreases n
  {
    var r := Decimal(n);
    if n >= 10 {
      DecimalRoundTrip(n / 10);
      assert r[..|r| - 1] == Decimal(n / 10);
    }
  }

  /** The order of the default `sort()`: lexicographic by character, a proper prefix first. */
  predicate LexLess(a: string, b: string)
    decreases |a|
  {
    if |a| == 0 then |b| > 0
    else if |b| == 0 then false
    else if a[0] != b[0] then a[0] < b[0]
    else LexLess(a[1..], b[1..])
  }

  predicate LexLessEq(a: string, b: string) {
    a == b || LexLess(a, b)
  }

  lemma {:induction false} LexLessIrreflexive(a: string)
    ensures !LexLess(a, a)
    decreases |a|
  {
    if |a| > 0 {
      LexLessIrreflexive(a[1..]);
    }
  }

  lemma {:induction false} LexLessTransitive(a: string, b: string, c: string)
    requires LexLess(a, b) && LexLess(b, c)
    ensures LexLess(a, c)
    decreases |a|
  {
    if |a| > 0 && a[0] == b[0] && b[0] == c[0] {
      LexLessTransitive(a[1..], b[1..], c[1..]);
    }
  }

  lemma {:induction false} LexLessTotal(a: string, b: string)
    ensures a == b || LexLess(a, b) || LexLess(b, a)
    decreases |a|
  {
    if |a| > 0 && |b| > 0 && a[0] == b[0] {
      LexLessTotal(a[1..], b[1..]);
      if a[1..] == b[1..] {
        assert a == [a[0]] + a[1..] && b == [b[0]] + b[1..];
      }
    }
  }

  lemma LexLessAsymmetric(a: string, b: string)
    requires LexLess(a, b)
    ensures !LexLess(b, a)
  {
    if LexLess(b, a) {
      LexLessTransitive(a, b, a);
      LexLessIrreflexive(a);
    }
  }

  lemma LexLessEqTransitive(a: string, b: string, c: string)
    requires LexLessEq(a, b) && LexLessEq(b, c)
    ensures LexLessEq(a, c)
  {
    if a != b && b != c {
      LexLessTransitive(a, b, c);
    }
  }

  lemma LexLessEqTotal(a: string, b: string)
    ensures LexLessEq(a, b) || LexLessEq(b, a)
  {
    LexLessTotal(a, b);
  }

  /** Appending one character to two strings of equal length: the order is decided by the
      strings, or by the characters when the strings are equal. */
  lemma {:induction false} LexLessSnoc(p: string, q: string, c: char, d: char)
    requires |p| == |q|
    ensures LexLess(p + [c], q + [d]) <==> LexLess(p, q) || (p == q && c < d)
    decreases |p|
  {
    if |p| == 0 {
      assert p + [c] == [c] && q + [d] == [d];
      assert [c][1..] == [] && [d][1..] == [];
    } else {
      assert (p + [c])[0] == p[0] && (q + [d])[0] == q[0];
      if p[0] == q[0] {
        assert (p + [c])[1..] == p[1..] + [c] && (q + [d])[1..] == q[1..] + [d];
        LexLessSnoc(p[1..], q[1..], c, d);
        assert p == [p[0]] + p[1..] && q == [q[0]] + q[1..];
      }
    }
  }

  lemma DecimalSingleDigit(n: nat)
    ensures |Decimal(n)| == 1 <==> n < 10
  {
    if n >= 10 {
      assert |Decimal(n / 10)| > 0;
    }
  }

  /** Numerals of the same length sort in numeric order, so equally long timestamps sort
      oldest first. */
  lemma {:induction false} DecimalOrder(a: nat, b: nat)
    requires |Decimal(a)| == |Decimal(b)|
    ensures LexLess(Decimal(a), Decimal(b)) <==> a < b
    decreases a
  {
    DecimalSingleDigit(a);
    DecimalSingleDigit(b);
    if a < 10 {
      assert [DigitChar(a)][1..] == [] && [DigitChar(b)][1..] == [];
    } else {
      DecimalOrder(a / 10, b / 10);
      LexLessSnoc(Decimal(a / 10), Decimal(b / 10), DigitChar(a % 10), DigitChar(b % 10));
      DecimalRoundTrip(a / 10);
      DecimalRoundTrip(b / 10);
    }
  }

  /** Every element is ordered before every later one. */
  predicate Sorted(s: seq<string>) {
    forall i, j :: 0 <= i < j < |s| ==> LexLessEq(s[i], s[j])
  }

  lemma {:induction false} SortedCons(x: string, s: seq<string>)
    requires Sorted(s)
    requires |s| > 0 ==> LexLessEq(x, s[0])
    ensures Sorted([x] + s)
  {
    forall j | 0 < j < |s| + 1
      ensures LexLessEq(([x] + s)[0], ([x] + s)[j])
    {
      LexLessEqTransitive(x, s[0], s[j - 1]);
    }
  }

  /** Insertion of one element into a sorted list. */
  function Insert(x: string, s: seq<string>): (r: seq<string>)
    requires Sorted(s)
    ensures Sorted(r)
    ensures multiset(r) == multiset(s) + multiset{x}
    ensures forall k :: 0 <= k < |r| ==> r[k] == x || r[k] in s
    decreases |s|
  {
    if |s| == 0 || LexLessEq(x, s[0]) then
      SortedCons(x, s);
      [x] + s
    else
      LexLessEqTotal(x, s[0]);
      var rest := Insert(x, s[1..]);
      assert s == [s[0]] + s[1..];
      SortedCons(s[0], rest);
      [s[0]] + rest
  }

  /** The default `sort()` of an array of strings. */
  function Sort(s: seq<string>): (r: seq<string>)
    ensures Sorted(r)
    ensures multiset(r) == multiset(s)
    decreases |s|
  {
    if |s| == 0 then []
    else
      assert s == [s[0]] + s[1..];
      Insert(s[0], Sort(s[1..]))
  }
}
