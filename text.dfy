/** String helpers used by the code generator: Python's `str.join`,
    decimal rendering of integers (`str(i)`, an f-string `{i}`), and the
    facts about them that the rendered C initialisers rely on. */
module Text {

  /** `sep.join(parts)` */
  function Join(sep: string, parts: seq<string>): (r: string)
    ensures |parts| == 0 ==> r == ""
    ensures |parts| == 1 ==> r == parts[0]
    ensures |parts| > 0 ==> |r| == TotalLength(parts) + (|parts| - 1) * |sep|
  {
    if |parts| == 0 then ""
    else if |parts| == 1 then parts[0]
    else parts[0] + sep + Join(sep, parts[1..])
  }

  /** Sum of the lengths of all parts. */
  function TotalLength(parts: seq<string>): nat
  {
    if |parts| == 0 then 0 else |parts[0]| + TotalLength(parts[1..])
  }

  /** Number of occurrences of `c` in `s`. */
  function Count(c: char, s: string): (n: nat)
    ensures n <= |s|
    ensures n == 0 <==> c !in s
  {
    if |s| == 0 then 0 else (if s[0] == c then 1 else 0) + Count(c, s[1..])
  }

  lemma {:induction false} CountAppend(c: char, s: string, t: string)
    ensures Count(c, s + t) == Count(c, s) + Count(c, t)
  {
    if |s| == 0 {
      assert s + t == t;
    } else {
      assert (s + t)[1..] == s[1..] + t;
      CountAppend(c, s[1..], t);
    }
  }

  /** Joining with a separator that holds `c` once, parts that do not hold
      `c`, gives exactly one `c` between each two neighbouring parts: a
      reader splitting the text at `c` finds `|parts|` items again. */
  lemma {:induction false} JoinCount(c: char, sep: string, parts: seq<string>)
    requires Count(c, sep) == 1
    requires forall i :: 0 <= i < |parts| ==> c !in parts[i]
    requires |parts| > 0
    ensures Count(c, Join(sep, parts)) == |parts| - 1
  {
    if |parts| > 1 {
      JoinCount(c, sep, parts[1..]);
      CountAppend(c, parts[0], sep);
      CountAppend(c, parts[0] + sep, Join(sep, parts[1..]));
    }
  }

  predicate IsDigit(ch: char)
  {
    '0' <= ch <= '9'
  }

  predicate AllDigits(s: string)
  {
    forall i :: 0 <= i < |s| ==> IsDigit(s[i])
  }

  function DigitChar(d: nat): (ch: char)
    requires d < 10
    ensures IsDigit(ch)
  {
    ['0', '1', '2', '3', '4', '5', '6', '7', '8', '9'][d]
  }

  function DigitValue(ch: char): (d: nat)
    requires IsDigit(ch)
    ensures d < 10
  {
    (ch as int) - ('0' as int)
  }

  /** Decimal text of a natural number, as Python's `str(n)` writes it:
      digits only, no leading zero except for 0 itself. */
  function Decimal(n: nat): (r: string)
    ensures |r| > 0 && AllDigits(r)
    ensures |r| > 1 ==> r[0] != '0'
    decreases n
  {
    if n < 10 then [DigitChar(n)] else Decimal(n / 10) + [DigitChar(n % 10)]
  }

  /** Reads a string of digits back as a number. */
  function ParseDecimal(s: string): nat
    requires AllDigits(s)
  {
    if |s| == 0 then 0
    else 10 * ParseDecimal(s[..|s| - 1]) + DigitValue(s[|s| - 1])
  }

  lemma DigitRoundTrip(d: nat)
    requires d < 10
    ensures DigitValue(DigitChar(d)) == d
  {
  }

  /** The decimal text reads back as the number it was made from, so two
      different numbers never render the same. */
  lemma {:induction false} DecimalRoundTrip(n: nat)
    ensures ParseDecimal(Decimal(n)) == n
    decreases n
  {
    var r := Decimal(n);
    if n < 10 {
      DigitRoundTrip(n);
    } else {
      DecimalRoundTrip(n / 10);
      assert r[..|r| - 1] == Decimal(n / 10);
      DigitRoundTrip(n % 10);
    }
  }

  lemma DecimalInjective(m: nat, n: nat)
    requires Decimal(m) == Decimal(n)
    ensures m == n
  {
    DecimalRoundTrip(m);
    DecimalRoundTrip(n);
  }

  /** `str(i)` for a Python `int`: a minus sign before the digits of a
      negative number. */
  function IntText(i: int): (r: string)
    ensures i >= 0 ==> AllDigits(r) && ParseDecimal(r) == i
    ensures i < 0 ==> |r| > 1 && r[0] == '-' && AllDigits(r[1..]) && ParseDecimal(r[1..]) == -i
    ensures ',' !in r
  {
    DecimalRoundTrip(if i >= 0 then i else -i);
    if i >= 0 then Decimal(i) else "-" + Decimal(-i)
  }
}
