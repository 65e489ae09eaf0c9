/** The string operations of JavaScript that the other modules rely on. */
module Text {
  import opened Wrappers

  predicate StartsWith(s: string, prefix: string) {
    prefix <= s
  }

  /** `toLowerCase` on the letters that occur in the names compared by the system. */
  function Lower(s: string): string {
    if s == "" then "" else [LowerChar(s[0])] + Lower(s[1..])
  }

  function LowerChar(c: char): char {
    if 'A' <= c <= 'Z' then c + ' ' else c
  }

  // ---------------------------------------------------------------- UTF-16 order

  /**
    Position of a character in the order of UTF-16 code units, by which JavaScript compares
    strings: a supplementary character starts with a surrogate and so precedes U+E000.
   */
  function Rank(c: char): int {
    var n := c as int;
    if n < 0xD800 then n else if n < 0x1_0000 then n + 0x10_0000 else n - 0x1_0000 + 0xD800
  }

  predicate LexLess(a: string, b: string) {
    b != "" && (a == "" || Rank(a[0]) < Rank(b[0]) || (a[0] == b[0] && LexLess(a[1..], b[1..])))
  }

  lemma {:induction false} LexTotal(a: string, b: string)
    ensures a == b || LexLess(a, b) || LexLess(b, a)
  {
    if a != "" && b != "" && a[0] == b[0] {
      LexTotal(a[1..], b[1..]);
      assert a == [a[0]] + a[1..] && b == [b[0]] + b[1..];
    }
  }

  lemma {:induction false} LexTransitive(a: string, b: string, c: string)
    requires LexLess(a, b) && LexLess(b, c)
    ensures LexLess(a, c)
  {
    if a != "" && a[0] == b[0] == c[0] {
      LexTransitive(a[1..], b[1..], c[1..]);
    }
  }

  lemma {:induction false} LexIrreflexive(a: string)
    ensures !LexLess(a, a)
  {
    if a != "" { LexIrreflexive(a[1..]); }
  }

  // ---------------------------------------------------------------- decimal numerals

  function Decimal(n: nat): string {
    if n < 10 then [Digit(n)] else Decimal(n / 10) + [Digit(n % 10)]
  }

  function Digit(n: nat): char
    requires n < 10
  {
    "0123456789"[n]
  }

  lemma {:induction false} DecimalInjective(m: nat, n: nat)
    requires Decimal(m) == Decimal(n)
    ensures m == n
  {
    var p, q := Decimal(m), Decimal(n);
    DecimalNonEmpty(m / 10);
    DecimalNonEmpty(n / 10);
    assert p[|p| - 1] == Digit(m % 10) && q[|q| - 1] == Digit(n % 10);
    assert m % 10 == n % 10;
    if m >= 10 && n >= 10 {
      assert Decimal(m / 10) == p[..|p| - 1] && Decimal(n / 10) == q[..|q| - 1];
      DecimalInjective(m / 10, n / 10);
    }
  }

  lemma DecimalNonEmpty(n: nat)
    ensures Decimal(n) != ""
  {
  }

  lemma {:induction false} LexAppend(a: string, b: string, x: string, y: string)
    requires |a| == |b| && LexLess(a, b)
    ensures LexLess(a + x, b + y)
  {
    assert (a + x)[1..] == a[1..] + x && (b + y)[1..] == b[1..] + y;
    if a[0] == b[0] { LexAppend(a[1..], b[1..], x, y); }
  }

  lemma {:induction false} LexPrefixed(p: string, x: string, y: string)
    requires LexLess(x, y)
    ensures LexLess(p + x, p + y)
  {
    if p == "" {
      assert p + x == x && p + y == y;
    } else {
      assert (p + x)[1..] == p[1..] + x && (p + y)[1..] == p[1..] + y;
      LexPrefixed(p[1..], x, y);
    }
  }

  /** Numerals are ordered by length first, and then as texts. */
  lemma {:induction false} DecimalOrder(m: nat, n: nat)
    requires m < n
    ensures var a, b := Decimal(m), Decimal(n); |a| < |b| || (|a| == |b| && LexLess(a, b))
  {
    DecimalNonEmpty(n / 10);
    if n >= 10 && m >= 10 {
      if m / 10 == n / 10 {
        LexPrefixed(Decimal(m / 10), [Digit(m % 10)], [Digit(n % 10)]);
      } else {
        DecimalOrder(m / 10, n / 10);
        if |Decimal(m / 10)| == |Decimal(n / 10)| {
          LexAppend(Decimal(m / 10), Decimal(n / 10), [Digit(m % 10)], [Digit(n % 10)]);
        }
      }
    }
  }

  // ---------------------------------------------------------------- reading numerals

  function NaturalOf(digits: string): (r: Option<int>)
    ensures r.Some? ==> r.value >= 0
  {
    if digits == "" then None
    else
      var last := digits[|digits| - 1];
      if !('0' <= last <= '9') then None
      else if |digits| == 1 then Some(last as int - '0' as int)
      else
        var n := NaturalOf(digits[..|digits| - 1]);
        if n.Some? then Some(10 * n.value + (last as int - '0' as int)) else None
  }

  /** The integer a number token denotes; fractions, and magnitudes that need an exponent, have none. */
  function IntegerOf(token: string): Option<int> {
    if token != "" && token[0] == '-' then
      var n := NaturalOf(token[1..]);
      if n.Some? then Some(-n.value) else None
    else NaturalOf(token)
  }

  /** `String(n)` for an integer. */
  function IntText(n: int): string { if n < 0 then "-" + Decimal(-n) else Decimal(n) }

  lemma {:induction false} NaturalOfDecimal(n: nat)
    ensures NaturalOf(Decimal(n)) == Some(n) && Decimal(n) != "" && Decimal(n)[0] != '-'
  {
    if n >= 10 {
      NaturalOfDecimal(n / 10);
      var d := Decimal(n);
      assert d[..|d| - 1] == Decimal(n / 10) && d[|d| - 1] == Digit(n % 10);
      assert Digit(n % 10) as int - '0' as int == n % 10;
    }
  }

  /** A numeral without leading zeros is that of the number it denotes. */
  lemma {:induction false} DecimalOfNatural(s: string)
    requires s != "" && (forall i :: 0 <= i < |s| ==> '0' <= s[i] <= '9') && (s[0] != '0' || |s| == 1)
    ensures NaturalOf(s).Some? && s == Decimal(NaturalOf(s).value)
    ensures s[0] != '0' ==> NaturalOf(s).value > 0
  {
    var last := s[|s| - 1] as int - '0' as int;
    if |s| == 1 {
      assert s == [Digit(last)];
    } else {
      DecimalOfNatural(s[..|s| - 1]);
      var n := NaturalOf(s[..|s| - 1]).value;
      assert (10 * n + last) / 10 == n && (10 * n + last) % 10 == last;
      assert s == s[..|s| - 1] + [Digit(last)];
    }
  }

  /** No numeral starts with a zero, but that of zero. */
  lemma {:induction false} DecimalStart(n: nat)
    ensures Decimal(n) != "" && (n > 0 ==> Decimal(n)[0] != '0') && (n < 10 ==> |Decimal(n)| == 1)
  {
    if n >= 10 { DecimalStart(n / 10); }
  }

  /** Reading undoes writing. */
  lemma IntegerOfText(n: int)
    ensures IntegerOf(IntText(n)) == Some(n)
  {
    hide Decimal, NaturalOf;
    if n < 0 {
      NaturalOfDecimal(-n);
      assert IntText(n)[1..] == Decimal(-n);
    } else {
      NaturalOfDecimal(n);
    }
  }

  /** `parseInt(s, 10)`: blanks, a sign, then as many digits as there are; `None` is NaN. */
  function ParseInt(s: string): Option<int> {
    if s == "" then None
    else if s[0] == ' ' || s[0] == '\n' || s[0] == '\t' || s[0] == '\r' then ParseInt(s[1..])
    else if s[0] == '-' then
      var n := NaturalOf(LeadingDigits(s[1..]));
      if n.Some? then Some(-n.value) else None
    else NaturalOf(LeadingDigits(if s[0] == '+' then s[1..] else s))
  }

  function LeadingDigits(s: string): string {
    if s != "" && '0' <= s[0] <= '9' then [s[0]] + LeadingDigits(s[1..]) else ""
  }

  lemma {:induction false} AllDigits(s: string)
    requires forall i :: 0 <= i < |s| ==> '0' <= s[i] <= '9'
    ensures LeadingDigits(s) == s
  {
    if s != "" {
      AllDigits(s[1..]);
      assert s == [s[0]] + s[1..];
    }
  }

  lemma {:induction false} DecimalDigits(n: nat)
    ensures forall i :: 0 <= i < |Decimal(n)| ==> '0' <= Decimal(n)[i] <= '9'
  {
    if n >= 10 { DecimalDigits(n / 10); }
  }

  /** Parsing undoes writing. */
  lemma ParseDecimal(n: nat)
    ensures ParseInt(Decimal(n)) == Some(n)
  {
    hide Decimal, NaturalOf, LeadingDigits;
    NaturalOfDecimal(n);
    DecimalDigits(n);
    AllDigits(Decimal(n));
    assert '0' <= Decimal(n)[0] <= '9';
  }
}
