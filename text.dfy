/** String helpers the source takes from its languages' libraries: joining a list with a
    separator, decimal formatting of a count, and substring search. */
module Text {

  /** `parts` with `sep` between neighbours, as Rust's `join` and JavaScript's `Array.join`. */
  function Join(parts: seq<string>, sep: string): string
    decreases |parts|
  {
    if |parts| == 0 then ""
    else if |parts| == 1 then parts[0]
    else parts[0] + sep + Join(parts[1..], sep)
  }

  /** Sum of the lengths of `parts`. */
  function TotalLength(parts: seq<string>): nat
    decreases |parts|
  {
    if |parts| == 0 then 0 else |parts[0]| + TotalLength(parts[1..])
  }

  /** A joined string is the parts plus one separator per gap. */
  lemma {:induction false} JoinLength(parts: seq<string>, sep: string)
    ensures |Join(parts, sep)| == TotalLength(parts) + (if |parts| == 0 then 0 else (|parts| - 1) * |sep|)
    decreases |parts|
  {
    if |parts| > 1 {
      JoinLength(parts[1..], sep);
    }
  }

  /** Joining one more part appends a separator and that part, so the order of the parts is kept. */
  lemma {:induction false} JoinSnoc(parts: seq<string>, p: string, sep: string)
    requires |parts| > 0
    ensures Join(parts + [p], sep) == Join(parts, sep) + sep + p
    decreases |parts|
  {
    if |parts| == 1 {
      assert parts + [p] == [parts[0], p];
      assert (parts + [p])[1..] == [p];
    } else {
      assert (parts + [p])[1..] == parts[1..] + [p];
      JoinSnoc(parts[1..], p, sep);
    }
  }

  /** The decimal digit for `d`. */
  function DigitChar(d: nat): (c: char)
    requires d < 10
    ensures '0' <= c <= '9'
  {
    ('0' as int + d) as char
  }

  /** The value of a decimal digit character (0 for anything else). */
  function DigitValue(c: char): nat
  {
    if '0' <= c <= '9' then (c as int - '0' as int) as nat else 0
  }

  /** `s` is a decimal numeral as JavaScript prints one: digits only, and no leading zero
      unless the number is zero itself. */
  predicate IsDecimal(s: string)
  {
    && |s| > 0
    && (forall j :: 0 <= j < |s| ==> '0' <= s[j] <= '9')
    && (|s| == 1 || s[0] != '0')
  }

  /** Decimal text of `n` without leading zeros, as JavaScript prints a whole number. */
  function NatToString(n: nat): (s: string)
    ensures IsDecimal(s)
    ensures n > 0 ==> s[0] != '0'
    decreases n
  {
    if n < 10 then [DigitChar(n)] else NatToString(n / 10) + [DigitChar(n % 10)]
  }

  /** The number a string of decimal digits stands for. */
  function ParseDecimal(s: string): nat
    decreases |s|
  {
    if |s| == 0 then 0 else ParseDecimal(s[..|s| - 1]) * 10 + DigitValue(s[|s| - 1])
  }

  /** Printing a count in decimal loses nothing: reading it back gives the count. */
  lemma {:induction false} DecimalRoundTrip(n: nat)
    ensures ParseDecimal(NatToString(n)) == n
    decreases n
  {
    var s := NatToString(n);
    if n < 10 {
      assert DigitValue(DigitChar(n)) == n;
    } else {
      DecimalRoundTrip(n / 10);
      assert s[..|s| - 1] == NatToString(n / 10);
      assert DigitValue(s[|s| - 1]) == n % 10 by {
        assert s[|s| - 1] == DigitChar(n % 10);
      }
    }
  }

  /** A numeral without a leading zero stands for a positive number. */
  lemma {:induction false} ParseDecimalPositive(s: string)
    requires |s| > 0 && s[0] != '0'
    requires forall j :: 0 <= j < |s| ==> '0' <= s[j] <= '9'
    ensures ParseDecimal(s) > 0
    decreases |s|
  {
    if |s| > 1 {
      ParseDecimalPositive(s[..|s| - 1]);
    }
  }

  /** Every decimal numeral is the printed form of the number it reads as, so a count's
      decimal text is unique. */
  lemma {:induction false} DecimalIsPrinted(s: string)
    requires IsDecimal(s)
    ensures NatToString(ParseDecimal(s)) == s
    decreases |s|
  {
    var n := ParseDecimal(s);
    var init, c := s[..|s| - 1], s[|s| - 1];
    assert DigitChar(DigitValue(c)) == c;
    if |s| == 1 {
      assert ParseDecimal(init) == 0;
    } else {
      assert IsDecimal(init);
      ParseDecimalPositive(init);
      DecimalIsPrinted(init);
      assert n / 10 == ParseDecimal(init) && n % 10 == DigitValue(c);
      assert s == init + [c];
    }
  }

  /** True iff `sub` occurs in `s` starting at position `i`. */
  predicate OccursAt(s: string, sub: string, i: int)
  {
    0 <= i <= |s| - |sub| && s[i..i + |sub|] == sub
  }

  /** True iff `sub` occurs in `s` at some position (Rust's `str::contains`). */
  predicate Contains(s: string, sub: string)
  {
    exists i :: 0 <= i <= |s| && OccursAt(s, sub, i)
  }
}
