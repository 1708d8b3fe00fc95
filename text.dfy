/** The string operations of the Java runtime that the experiment driver
    relies on: `Integer.parseInt` for the release ordinal in column 0,
    integer-to-string conversion for the CSV, and joining fields with a
    one-character separator (with its inverse, splitting). */
module Text {
  import opened Wrappers

  /** The range of a Java `int`. */
  const MinInt: int := -0x8000_0000
  const MaxInt: int := 0x7FFF_FFFF

  predicate IsDigit(c: char) {
    '0' <= c <= '9'
  }

  /** Every character of `s` is a decimal digit. */
  predicate AllDigits(s: string) {
    s == [] || (AllDigits(s[..|s| - 1]) && IsDigit(s[|s| - 1]))
  }

  lemma {:induction false} AllDigitsFirst(s: string)
    requires |s| > 0 && AllDigits(s)
    ensures IsDigit(s[0])
  {
    if |s| > 1 {
      AllDigitsFirst(s[..|s| - 1]);
    }
  }

  function DigitValue(c: char): (d: nat)
    requires IsDigit(c)
    ensures d < 10
  {
    c as int - '0' as int
  }

  function DigitChar(d: nat): (c: char)
    requires d < 10
    ensures IsDigit(c) && DigitValue(c) == d
  {
    ('0' as int + d) as char
  }

  /** The number a string of decimal digits denotes, read left to right. */
  function DigitsValue(s: string): nat
    requires AllDigits(s)
  {
    if s == [] then 0 else DigitsValue(s[..|s| - 1]) * 10 + DigitValue(s[|s| - 1])
  }

  /** What follows the optional leading sign. */
  function Unsigned(s: string): string {
    if |s| > 0 && (s[0] == '-' || s[0] == '+') then s[1..] else s
  }

  /** `Integer.parseInt(s)`: an optional sign, then one or more decimal
      digits, and the value must fit in a Java `int`; `None` stands for the
      `NumberFormatException` thrown otherwise. */
  function ParseInt(s: string): (r: Option<int>)
    ensures r.Some? ==> MinInt <= r.value <= MaxInt
    ensures r.Some? ==> |s| > 0 && (s[0] == '-' || s[0] == '+' || IsDigit(s[0]))
  {
    if |s| == 0 then None
    else
      var digits := Unsigned(s);
      if |digits| == 0 || !AllDigits(digits) then None
      else
        AllDigitsFirst(digits);
        var v: int := if s[0] == '-' then -(DigitsValue(digits) as int) else DigitsValue(digits);
        if MinInt <= v <= MaxInt then Some(v) else None
  }

  /** What `ParseInt` accepts and what it yields: exactly the strings made of
      an optional sign and one or more digits whose value fits in an `int`,
      read as that signed decimal number. */
  lemma ParseIntMeaning(s: string)
    ensures ParseInt(s).Some? <==>
      |Unsigned(s)| > 0 && AllDigits(Unsigned(s)) &&
      (if s[0] == '-' then DigitsValue(Unsigned(s)) <= -MinInt else DigitsValue(Unsigned(s)) <= MaxInt)
    ensures ParseInt(s).Some? ==>
      ParseInt(s).value == if s[0] == '-' then -(DigitsValue(Unsigned(s)) as int) else DigitsValue(Unsigned(s))
  {
  }

  /** The decimal digits of `n`, without leading zeros. */
  function NatDigits(n: nat): (s: string)
    ensures |s| > 0 && AllDigits(s)
    ensures DigitsValue(s) == n
    ensures |s| > 1 ==> s[0] != '0'
  {
    if n < 10 then [DigitChar(n)]
    else
      var front := NatDigits(n / 10);
      var s := front + [DigitChar(n % 10)];
      assert s[..|s| - 1] == front;
      s
  }

  /** Java's decimal rendering of an `int` (string concatenation with an int). */
  function Show(n: int): (s: string)
    ensures |s| > 0
    ensures (s[0] == '-') <==> n < 0
  {
    if n < 0 then "-" + NatDigits(-n)
    else
      AllDigitsFirst(NatDigits(n));
      NatDigits(n)
  }

  /** Rendering an `int` and parsing it back gives the same number. */
  lemma ParseShow(n: int)
    requires MinInt <= n <= MaxInt
    ensures ParseInt(Show(n)) == Some(n)
  {
    var s := Show(n);
    if n < 0 {
      assert s[1..] == NatDigits(-n);
    } else {
      AllDigitsFirst(s);
    }
  }

  /** The fields joined, left to right, by one separator character, as
      `line = f0; line = line + sep + fi` builds it. */
  function Join(fields: seq<string>, sep: char): string
    requires |fields| > 0
  {
    if |fields| == 1 then fields[0]
    else Join(fields[..|fields| - 1], sep) + [sep] + fields[|fields| - 1]
  }

  /** Cuts a string at every occurrence of `sep`, keeping empty pieces:
      the inverse of `Join`. */
  function Split(s: string, sep: char): (r: seq<string>)
    ensures |r| > 0
    ensures forall k :: 0 <= k < |r| ==> sep !in r[k]
  {
    if |s| == 0 then [""]
    else if s[0] == sep then [""] + Split(s[1..], sep)
    else
      var rest := Split(s[1..], sep);
      [[s[0]] + rest[0]] + rest[1..]
  }

  lemma {:induction false} SplitNoSeparator(s: string, sep: char)
    requires sep !in s
    ensures Split(s, sep) == [s]
  {
    if |s| > 0 {
      assert sep !in s[1..];
      SplitNoSeparator(s[1..], sep);
      assert [s[0]] + s[1..] == s;
    }
  }

  lemma {:induction false} SplitAround(a: string, b: string, sep: char)
    ensures Split(a + [sep] + b, sep) == Split(a, sep) + Split(b, sep)
  {
    var s := a + [sep] + b;
    if |a| == 0 {
      assert s[0] == sep && s[1..] == b;
    } else {
      assert s[0] == a[0] && s[1..] == a[1..] + [sep] + b;
      SplitAround(a[1..], b, sep);
      if a[0] != sep {
        var rest := Split(a[1..], sep);
        assert Split(a, sep) == [[a[0]] + rest[0]] + rest[1..];
      }
    }
  }

  /** Splitting a joined line gives back the fields, provided no field
      contains the separator. */
  lemma {:induction false} SplitJoin(fields: seq<string>, sep: char)
    requires |fields| > 0
    requires forall k :: 0 <= k < |fields| ==> sep !in fields[k]
    ensures Split(Join(fields, sep), sep) == fields
  {
    var n := |fields|;
    SplitNoSeparator(fields[n - 1], sep);
    if n > 1 {
      var front := fields[..n - 1];
      SplitJoin(front, sep);
      SplitAround(Join(front, sep), fields[n - 1], sep);
      assert front + [fields[n - 1]] == fields;
    }
  }
}
