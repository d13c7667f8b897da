/** String operations the program relies on: Python slicing, prefix tests,
    code-point order (Python `<` on str, SQLite TEXT under BINARY collation),
    fixed-width decimal digits, `int()` on decimal text and `str.split`. */
module Text {
  import opened Wrappers

  /** Python's `s[:n]`: the first `n` characters, or all of `s` when it is shorter. */
  function Take(s: string, n: nat): (r: string)
    ensures |r| == if n <= |s| then n else |s|
    ensures forall i :: 0 <= i < |r| ==> r[i] == s[i]
  {
    if n <= |s| then s[..n] else s
  }

  /** `s.startswith(p)`, and SQL `s LIKE 'p%'` for a pattern without wildcards. */
  predicate StartsWith(s: string, p: string) {
    |p| <= |s| && s[..|p|] == p
  }

  // ---------------------------------------------------------------------
  // Code-point order

  /** `a <= b` on strings: the first differing character decides, and a
      proper prefix comes first. */
  predicate LexLe(a: string, b: string)
    decreases |a|
  {
    |a| == 0 || (|b| > 0 && (a[0] < b[0] || (a[0] == b[0] && LexLe(a[1..], b[1..]))))
  }

  predicate LexLt(a: string, b: string) {
    LexLe(a, b) && a != b
  }

  lemma {:induction false} LexLeReflexive(a: string)
    ensures LexLe(a, a)
    decreases |a|
  {
    if |a| > 0 {
      LexLeReflexive(a[1..]);
    }
  }

  lemma {:induction false} LexLeAntisymmetric(a: string, b: string)
    requires LexLe(a, b) && LexLe(b, a)
    ensures a == b
    decreases |a|
  {
    if |a| > 0 {
      LexLeAntisymmetric(a[1..], b[1..]);
      assert a == [a[0]] + a[1..] && b == [b[0]] + b[1..];
    }
  }

  lemma {:induction false} LexLeTransitive(a: string, b: string, c: string)
    requires LexLe(a, b) && LexLe(b, c)
    ensures LexLe(a, c)
    decreases |a|
  {
    if |a| > 0 && a[0] == b[0] && b[0] == c[0] {
      LexLeTransitive(a[1..], b[1..], c[1..]);
    }
  }

  lemma {:induction false} LexLeTotal(a: string, b: string)
    ensures LexLe(a, b) || LexLe(b, a)
    decreases |a|
  {
    if |a| > 0 && |b| > 0 && a[0] == b[0] {
      LexLeTotal(a[1..], b[1..]);
    }
  }

  /** `a < b` exactly when `b <= a` fails. */
  lemma LexLtIsNotLe(a: string, b: string)
    ensures LexLt(a, b) <==> !LexLe(b, a)
  {
    LexLeTotal(a, b);
    LexLeReflexive(a);
    if LexLe(a, b) && LexLe(b, a) {
      LexLeAntisymmetric(a, b);
    }
  }

  /** Comparing a string of length `n` against a longer one looks only at
      the longer one's first `n` characters. */
  lemma {:induction false} LexLeTake(p: string, s: string)
    requires |p| <= |s|
    ensures LexLe(p, s) <==> LexLe(p, s[..|p|])
    decreases |p|
  {
    if |p| > 0 {
      LexLeTake(p[1..], s[1..]);
      assert s[..|p|][1..] == s[1..][..|p| - 1];
    }
  }

  // ---------------------------------------------------------------------
  // Decimal digits

  predicate IsDigit(c: char) {
    '0' <= c <= '9'
  }

  predicate AllDigits(s: string) {
    forall i :: 0 <= i < |s| ==> IsDigit(s[i])
  }

  function DigitChar(d: int): (c: char)
    requires 0 <= d < 10
    ensures IsDigit(c)
  {
    ('0' as int + d) as char
  }

  function DigitValue(c: char): (d: int)
    requires IsDigit(c)
    ensures 0 <= d < 10
  {
    c as int - '0' as int
  }

  /** The value of a string of decimal digits, most significant first. */
  function DecimalValue(s: string): (n: nat)
    requires AllDigits(s)
  {
    if |s| == 0 then 0 else 10 * DecimalValue(s[..|s| - 1]) + DigitValue(s[|s| - 1])
  }

  /** Two zero-padded digits (`%02d`, strftime's `%m`, `%d`, `%H`, `%M`, `%S`). */
  function Pad2(n: int): (r: string)
    ensures |r| == 2 && AllDigits(r)
  {
    var v := n % 100;
    [DigitChar(v / 10), DigitChar(v % 10)]
  }

  /** Four zero-padded digits (strftime's `%Y` for years 1000 to 9999). */
  function Pad4(n: int): (r: string)
    ensures |r| == 4 && AllDigits(r)
  {
    var v := n % 10000;
    Pad2(v / 100) + Pad2(v % 100)
  }

  lemma Pad2RoundTrip(n: int)
    requires 0 <= n < 100
    ensures DecimalValue(Pad2(n)) == n
  {
    var r := Pad2(n);
    assert r[..1][..0] == [];
    assert DecimalValue(r[..1]) == DigitValue(r[0]);
  }

  lemma Pad2OfDigits(s: string)
    requires |s| == 2 && AllDigits(s)
    ensures Pad2(DecimalValue(s)) == s && DecimalValue(s) < 100
  {
    assert s[..1][..0] == [];
    var a, b := DigitValue(s[0]), DigitValue(s[1]);
    assert DecimalValue(s[..1]) == a;
    assert DecimalValue(s) == 10 * a + b;
    var v := 10 * a + b;
    assert v % 100 == v && v / 10 == a && v % 10 == b;
    assert DigitChar(a) == s[0] && DigitChar(b) == s[1];
  }

  /** Appending two digits multiplies the value so far by a hundred. */
  lemma DecimalValueAppend2(a: string, b: string)
    requires AllDigits(a) && AllDigits(b) && |b| == 2
    ensures AllDigits(a + b) && DecimalValue(a + b) == 100 * DecimalValue(a) + DecimalValue(b)
  {
    var ab := a + b;
    assert ab[..|ab| - 1][..|ab| - 2] == a;
    assert ab[..|ab| - 1] == a + [b[0]];
    assert b[..1][..0] == [] && DecimalValue(b[..1]) == DigitValue(b[0]);
  }

  lemma Pad4RoundTrip(n: int)
    requires 0 <= n < 10000
    ensures DecimalValue(Pad4(n)) == n
  {
    var x, y := n / 100, n % 100;
    assert n % 10000 == n;
    assert Pad4(n) == Pad2(x) + Pad2(y);
    Pad2RoundTrip(x);
    Pad2RoundTrip(y);
    DecimalValueAppend2(Pad2(x), Pad2(y));
    assert 100 * x + y == n;
  }

  lemma Pad4OfDigits(s: string)
    requires |s| == 4 && AllDigits(s)
    ensures Pad4(DecimalValue(s)) == s
  {
    var hi, lo := s[..2], s[2..];
    assert s == hi + lo;
    DecimalValueAppend2(hi, lo);
    var x, y := DecimalValue(hi), DecimalValue(lo);
    Pad2OfDigits(hi);
    Pad2OfDigits(lo);
    HundredsOf(x, y);
  }

  lemma HundredsOf(x: int, y: int)
    requires 0 <= x < 100 && 0 <= y < 100
    ensures var n := 100 * x + y; n % 10000 == n && n / 100 == x && n % 100 == y
  {
    var n := 100 * x + y;
    assert 0 <= n < 10000;
  }

  /** `int(s)` for text made of an optional sign and decimal digits; every
      other string raises `ValueError`, shown as `None`. */
  function ParseInt(s: string): (r: Option<int>)
    ensures AllDigits(s) && |s| > 0 ==> r == Some(DecimalValue(s))
    ensures |s| == 0 ==> r.None?
  {
    if |s| > 0 && AllDigits(s) then Some(DecimalValue(s))
    else if |s| > 1 && (s[0] == '-' || s[0] == '+') && AllDigits(s[1..]) then
      var v: int := DecimalValue(s[1..]);
      Some(if s[0] == '-' then -v else v)
    else None
  }

  // ---------------------------------------------------------------------
  // str.split with a one-character separator

  /** `s.split(sep)`: the pieces between separators, always at least one. */
  function Split(s: string, sep: char): (r: seq<string>)
    ensures |r| >= 1
    ensures forall i :: 0 <= i < |r| ==> sep !in r[i]
  {
    if |s| == 0 then [""]
    else if s[0] == sep then [""] + Split(s[1..], sep)
    else
      var rest := Split(s[1..], sep);
      [[s[0]] + rest[0]] + rest[1..]
  }

  /** A piece without the separator followed by the separator is split off whole. */
  lemma {:induction false} SplitAfterPiece(a: string, sep: char, b: string)
    requires sep !in a
    ensures Split(a + [sep] + b, sep) == [a] + Split(b, sep)
    decreases |a|
  {
    if |a| == 0 {
      assert a + [sep] + b == [sep] + b;
      assert ([sep] + b)[1..] == b;
    } else {
      SplitAfterPiece(a[1..], sep, b);
      assert (a + [sep] + b)[1..] == a[1..] + [sep] + b;
      assert [a[0]] + a[1..] == a;
    }
  }

  /** A string without the separator is a single piece. */
  lemma {:induction false} SplitWhole(a: string, sep: char)
    requires sep !in a
    ensures Split(a, sep) == [a]
    decreases |a|
  {
    if |a| > 0 {
      SplitWhole(a[1..], sep);
      assert [a[0]] + a[1..] == a;
    }
  }
}
