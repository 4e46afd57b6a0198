/**
 Decimal text of integers as the card prints them: `str(n)` for the level line and
 the thousands-separator format `format(n, ",")` for the combat power line.

 The separator format groups the decimal digits in threes from the right and puts a
 comma between groups: 1234567 is written "1,234,567". Each printer has a parser
 that accepts exactly the strings the printer produces.
 */
module Numerals {

  datatype Option<T> = None | Some(value: T)

  predicate IsDigit(c: char) {
    '0' <= c <= '9'
  }

  function DigitValue(c: char): (d: nat)
    requires IsDigit(c)
    ensures d < 10
  {
    c as int - '0' as int
  }

  function DigitChar(d: nat): (c: char)
    requires d < 10
    ensures IsDigit(c) && DigitValue(c) == d
  {
    ('0' as int + d) as char
  }

  predicate AllDigits(s: string) {
    forall i :: 0 <= i < |s| ==> IsDigit(s[i])
  }

  /** A plain decimal numeral with no superfluous leading zero: "0", "7", "120", not "" or "007". */
  predicate Canonical(s: string) {
    |s| > 0 && AllDigits(s) && (s[0] == '0' ==> |s| == 1)
  }

  function Pow10(k: nat): (p: nat)
    ensures p >= 1
  {
    if k == 0 then 1 else 10 * Pow10(k - 1)
  }

  /**
   The decimal digits of `n`, most significant first: Python's `str(n)` for `n >= 0`.
   CPython refuses more than 4300 digits; this has no such limit.
   */
  function Digits(n: nat): (s: string)
    ensures Canonical(s)
    ensures s[0] == '0' <==> n == 0
    decreases n
  {
    if n < 10 then [DigitChar(n)] else Digits(n / 10) + [DigitChar(n % 10)]
  }

  /** The value of a string of decimal digits (the empty string reads as 0). */
  function ParseDigits(s: string): nat
    requires AllDigits(s)
  {
    if s == [] then 0 else 10 * ParseDigits(s[..|s| - 1]) + DigitValue(s[|s| - 1])
  }

  /** Reads a canonical numeral; any other string is refused. */
  function ParseNat(s: string): Option<nat> {
    if Canonical(s) then Some(ParseDigits(s)) else None
  }

  lemma {:induction false} ParseDigitsOfDigits(n: nat)
    ensures ParseDigits(Digits(n)) == n
    decreases n
  {
    if n >= 10 {
      var s := Digits(n);
      assert s[..|s| - 1] == Digits(n / 10);
      ParseDigitsOfDigits(n / 10);
    }
  }

  lemma {:induction false} ParseDigitsPositive(s: string)
    requires |s| > 0 && AllDigits(s) && s[0] != '0'
    ensures ParseDigits(s) > 0
    decreases |s|
  {
    if |s| > 1 {
      ParseDigitsPositive(s[..|s| - 1]);
    }
  }

  lemma {:induction false} DigitsOfParseDigits(s: string)
    requires Canonical(s)
    ensures Digits(ParseDigits(s)) == s
    decreases |s|
  {
    var last := s[|s| - 1];
    if |s| == 1 {
      assert DigitChar(DigitValue(last)) == last;
    } else {
      var p := s[..|s| - 1];
      ParseDigitsPositive(p);
      DigitsOfParseDigits(p);
      var n := ParseDigits(s);
      assert n / 10 == ParseDigits(p) && n % 10 == DigitValue(last);
      assert DigitChar(DigitValue(last)) == last;
      assert s == p + [last];
    }
  }

  /** `str(n)` round-trips: the canonical numerals and the naturals are in one-to-one correspondence. */
  lemma DigitsRoundTrip(n: nat, s: string)
    ensures ParseNat(Digits(n)) == Some(n)
    ensures ParseNat(s) == Some(n) ==> Digits(n) == s
  {
    ParseDigitsOfDigits(n);
    if ParseNat(s) == Some(n) {
      DigitsOfParseDigits(s);
    }
  }

  /** `|Digits(n)|` is the number of decimal places of `n`. */
  lemma {:induction false} DigitsLength(n: nat, k: nat)
    requires k >= 1
    ensures |Digits(n)| <= k <==> n < Pow10(k)
    decreases n
  {
    if n >= 10 {
      if k == 1 {
        assert |Digits(n)| == |Digits(n / 10)| + 1;
      } else {
        DigitsLength(n / 10, k - 1);
        assert n / 10 < Pow10(k - 1) <==> n < 10 * Pow10(k - 1);
      }
    }
  }

  // ---------------------------------------------------------------------------
  // Thousands separators
  // ---------------------------------------------------------------------------

  /** Puts a comma before every group of three digits counted from the right, except at the front. */
  function InsertCommas(d: string): string
    decreases |d|
  {
    if |d| <= 3 then d else InsertCommas(d[..|d| - 3]) + "," + d[|d| - 3..]
  }

  /** Deletes every comma. */
  function StripCommas(s: string): string
    decreases |s|
  {
    if s == [] then []
    else if s[|s| - 1] == ',' then StripCommas(s[..|s| - 1])
    else StripCommas(s[..|s| - 1]) + [s[|s| - 1]]
  }

  /**
   The shape of a comma-grouped numeral: digits and commas only, starting with a digit,
   with a comma exactly at the positions 4, 8, 12, ... counted from the end. So the
   last and every inner group have exactly three digits, and the first group has
   `|s| % 4`, that is one to three, digits.
   */
  predicate Grouped(s: string) {
    && |s| > 0
    && IsDigit(s[0])
    && (forall i :: 0 <= i < |s| ==> (s[i] == ',' <==> (|s| - i) % 4 == 0))
    && (forall i :: 0 <= i < |s| ==> s[i] == ',' || IsDigit(s[i]))
  }

  /**
   Python's `format(n, ",")` for `n >= 0` (the `,` option of the format mini-language):
   the comma-grouped shape, and deleting its commas leaves the plain digits of `n`.
   */
  function Format(n: nat): (s: string)
    ensures Grouped(s) && StripCommas(s) == Digits(n)
  {
    InsertCommasGrouped(Digits(n));
    StripInsertCommas(Digits(n));
    InsertCommas(Digits(n))
  }

  /** Reads a comma-grouped numeral; refuses misplaced commas and superfluous leading zeros. */
  function Parse(s: string): Option<nat> {
    if Grouped(s) then ParseNat(StripCommas(s)) else None
  }

  lemma {:induction false} StripCommasAppend(a: string, b: string)
    ensures StripCommas(a + b) == StripCommas(a) + StripCommas(b)
    decreases |b|
  {
    if b == [] {
      assert a + b == a;
    } else {
      var b' := b[..|b| - 1];
      assert (a + b)[..|a + b| - 1] == a + b';
      StripCommasAppend(a, b');
    }
  }

  lemma {:induction false} StripCommasOfDigits(d: string)
    requires AllDigits(d)
    ensures StripCommas(d) == d
    decreases |d|
  {
    if d != [] {
      StripCommasOfDigits(d[..|d| - 1]);
      assert d == d[..|d| - 1] + [d[|d| - 1]];
    }
  }

  lemma {:induction false} StripInsertCommas(d: string)
    requires AllDigits(d)
    ensures StripCommas(InsertCommas(d)) == d
    decreases |d|
  {
    if |d| <= 3 {
      StripCommasOfDigits(d);
    } else {
      var p, tail := d[..|d| - 3], d[|d| - 3..];
      StripInsertCommas(p);
      StripCommasAppend(InsertCommas(p) + ",", tail);
      StripCommasAppend(InsertCommas(p), ",");
      StripCommasOfDigits(tail);
      assert StripCommas(",") == [];
      assert d == p + tail;
    }
  }

  lemma {:induction false} InsertCommasGrouped(d: string)
    requires |d| > 0 && AllDigits(d)
    ensures Grouped(InsertCommas(d))
    ensures |InsertCommas(d)| > 3 <==> |d| > 3
    decreases |d|
  {
    if |d| > 3 {
      var p, tail := d[..|d| - 3], d[|d| - 3..];
      InsertCommasGrouped(p);
      GroupedJoin(InsertCommas(p), tail);
      assert InsertCommas(d) == InsertCommas(p) + [','] + tail;
    }
  }

  /** A grouped numeral, a comma and three digits make a longer grouped numeral. */
  lemma GroupedJoin(g: string, tail: string)
    requires Grouped(g) && |tail| == 3 && AllDigits(tail)
    ensures Grouped(g + [','] + tail)
  {
    var s := g + [','] + tail;
    forall i | 0 <= i < |s|
      ensures s[i] == ',' <==> (|s| - i) % 4 == 0
      ensures s[i] == ',' || IsDigit(s[i])
    {
      if i < |g| {
        assert s[i] == g[i];
        assert (|s| - i) % 4 == (|g| - i) % 4;
      } else if i > |g| {
        assert s[i] == tail[i - |g| - 1];
      }
    }
  }

  /** A grouped numeral of at most three characters is a plain run of digits. */
  lemma GroupedShort(s: string)
    requires Grouped(s) && |s| <= 3
    ensures AllDigits(s)
  {
    forall i | 0 <= i < |s| ensures IsDigit(s[i]) {
      assert (|s| - i) % 4 != 0;
    }
  }

  /** A longer grouped numeral is a shorter grouped numeral, a comma, and three digits. */
  lemma GroupedSplit(s: string)
    requires Grouped(s) && |s| > 3
    ensures |s| >= 5 && s[|s| - 4] == ','
    ensures Grouped(s[..|s| - 4]) && AllDigits(s[|s| - 3..])
  {
    assert |s| % 4 != 0 by {
      assert s[0] != ',';
    }
    var k := |s| - 4;
    var p, tail := s[..k], s[k + 1..];
    forall i | 0 <= i < |tail| ensures IsDigit(tail[i]) {
      assert tail[i] == s[k + 1 + i];
      assert (|s| - (k + 1 + i)) % 4 != 0;
    }
    forall i | 0 <= i < |p|
      ensures p[i] == ',' <==> (|p| - i) % 4 == 0
      ensures p[i] == ',' || IsDigit(p[i])
    {
      assert p[i] == s[i];
      assert (|s| - i) % 4 == (|p| - i) % 4;
    }
  }

  lemma StripCommasAroundComma(p: string, tail: string)
    requires AllDigits(tail)
    ensures StripCommas(p + [','] + tail) == StripCommas(p) + tail
  {
    StripCommasAppend(p + [','], tail);
    StripCommasAppend(p, [',']);
    assert StripCommas([',']) == [];
    StripCommasOfDigits(tail);
  }

  lemma InsertCommasLastGroup(d: string, tail: string)
    requires |d| > 0 && |tail| == 3
    ensures InsertCommas(d + tail) == InsertCommas(d) + "," + tail
  {
    var e := d + tail;
    assert e[..|e| - 3] == d && e[|e| - 3..] == tail;
  }

  lemma {:induction false} InsertStripCommas(s: string)
    requires Grouped(s)
    ensures InsertCommas(StripCommas(s)) == s
    decreases |s|
  {
    if |s| <= 3 {
      GroupedShort(s);
      StripCommasOfDigits(s);
    } else {
      GroupedSplit(s);
      var p, tail := s[..|s| - 4], s[|s| - 3..];
      InsertStripCommas(p);
      assert s == p + [','] + tail;
      StripCommasAroundComma(p, tail);
      assert StripCommas(p) != [] by {
        assert InsertCommas([]) == [];
      }
      InsertCommasLastGroup(StripCommas(p), tail);
    }
  }

  /** A comma appears exactly from four digits on; in particular `Format(0) == "0"`. */
  lemma FormatHasComma(n: nat)
    ensures ',' in Format(n) <==> n >= 1000
    ensures n < 1000 ==> Format(n) == Digits(n)
  {
    var d := Digits(n);
    DigitsLength(n, 3);
    assert Pow10(3) == 1000;
    if |d| > 3 {
      var g := InsertCommas(d[..|d| - 3]);
      assert Format(n)[|g|] == ',';
    } else {
      assert forall i :: 0 <= i < |d| ==> d[i] != ',';
    }
  }

  /**
   `Parse` is the inverse of `Format`: deleting the commas gives back the plain digits
   of `n`, every printed numeral reads back as its value, and the only string that
   reads as `n` is `Format(n)`.
   */
  lemma FormatRoundTrip(n: nat, s: string)
    ensures Parse(Format(n)) == Some(n)
    ensures Parse(s) == Some(n) ==> Format(n) == s
  {
    DigitsRoundTrip(n, Digits(n));
    if Parse(s) == Some(n) {
      DigitsRoundTrip(n, StripCommas(s));
      InsertStripCommas(s);
    }
  }

  // ---------------------------------------------------------------------------
  // Signed values: Python writes a minus sign before the digits of the magnitude
  // ---------------------------------------------------------------------------

  /**
   Python's `str(i)`: the digits of the magnitude, after a minus sign when `i < 0`.
   CPython refuses magnitudes of more than 4300 digits; this prints every integer.
   */
  function DecimalText(i: int): (s: string)
    ensures ParseDecimal(s) == Some(i)
    ensures |s| > 0 && (s[0] == '-' <==> i < 0)
  {
    if i < 0 then
      DigitsRoundTrip(-i, Digits(-i));
      var s := "-" + Digits(-i);
      assert s[1..] == Digits(-i);
      s
    else
      DigitsRoundTrip(i, Digits(i));
      Digits(i)
  }

  /**
   Python's `format(i, ",")`: the grouped magnitude, after a minus sign when `i < 0`.
   CPython refuses magnitudes of more than 4300 digits; this prints every integer.
   */
  function GroupedText(i: int): (s: string)
    ensures ParseGrouped(s) == Some(i)
    ensures |s| > 0 && (s[0] == '-' <==> i < 0)
  {
    var m: nat := if i < 0 then -i else i;
    FormatRoundTrip(m, Format(m));
    if i < 0 then
      var s := "-" + Format(m);
      assert s[1..] == Format(m);
      s
    else
      Format(m)
  }

  /** Attaches the sign read in front of a magnitude; "-0" is not a form Python prints. */
  function ApplySign(negative: bool, magnitude: Option<nat>): Option<int> {
    match magnitude
    case None => None
    case Some(m) => if !negative then Some(m as int) else if m == 0 then None else Some(-(m as int))
  }

  function ParseDecimal(s: string): Option<int> {
    if |s| > 0 && s[0] == '-' then ApplySign(true, ParseNat(s[1..])) else ApplySign(false, ParseNat(s))
  }

  function ParseGrouped(s: string): Option<int> {
    if |s| > 0 && s[0] == '-' then ApplySign(true, Parse(s[1..])) else ApplySign(false, Parse(s))
  }

  /** `str(i)` round-trips for every integer, and `ParseDecimal` accepts no other spelling of `i`. */
  lemma DecimalTextRoundTrip(i: int, t: string)
    ensures ParseDecimal(DecimalText(i)) == Some(i)
    ensures ParseDecimal(t) == Some(i) ==> t == DecimalText(i)
  {
    if ParseDecimal(t) == Some(i) {
      if |t| > 0 && t[0] == '-' {
        var m :| ParseNat(t[1..]) == Some(m);
        DigitsRoundTrip(m, t[1..]);
        assert t == "-" + t[1..];
      } else {
        var m :| ParseNat(t) == Some(m);
        DigitsRoundTrip(m, t);
      }
    }
  }

  /** `format(i, ",")` round-trips for every integer, and `ParseGrouped` accepts no other spelling of `i`. */
  lemma GroupedTextRoundTrip(i: int, t: string)
    ensures ParseGrouped(GroupedText(i)) == Some(i)
    ensures ParseGrouped(t) == Some(i) ==> t == GroupedText(i)
  {
    if ParseGrouped(t) == Some(i) {
      if |t| > 0 && t[0] == '-' {
        var u := t[1..];
        var m :| Parse(u) == Some(m);
        assert m != 0 && i == -(m as int);
        NegativeGroupedText(m, u);
        assert t == "-" + u;
      } else {
        var m :| Parse(t) == Some(m);
        FormatRoundTrip(m, t);
        assert i == m as int;
      }
    }
  }

  /** The grouped spelling of a negative value: a minus sign, then the only grouped spelling of its magnitude. */
  lemma NegativeGroupedText(m: nat, u: string)
    requires m != 0 && Parse(u) == Some(m)
    ensures GroupedText(-(m as int)) == "-" + u
  {
    FormatRoundTrip(m, u);
  }

  /** For a non-negative value the separator format's shape and comma rule carry over. */
  lemma GroupedTextShape(i: int)
    ensures i >= 0 ==> Grouped(GroupedText(i)) && (',' in GroupedText(i) <==> i >= 1000)
  {
    if i >= 0 {
      FormatHasComma(i);
    }
  }

  /** Worked values of the separator format. */
  lemma FormatExamples()
    ensures Format(0) == "0"
    ensures Format(999) == "999"
    ensures Format(1000) == "1,000"
    ensures Format(1234567) == "1,234,567"
  {
    assert Format(999) == "999" by {
      DigitsSteps();
    }
    assert Format(1000) == "1,000" by {
      DigitsSteps();
      InsertCommasSteps();
    }
    assert Format(1234567) == "1,234,567" by {
      DigitsSteps();
      InsertCommasSteps();
    }
  }

  lemma InsertCommasSteps()
    ensures InsertCommas("1000") == "1,000"
    ensures InsertCommas("1234567") == "1,234,567"
  {
    InsertCommasLastGroup("1", "000");
    InsertCommasLastGroup("1", "234");
    InsertCommasLastGroup("1234", "567");
    assert "1234567" == "1234" + "567";
    assert "1234" == "1" + "234";
    assert "1000" == "1" + "000";
  }

  lemma DigitsSteps()
    ensures Digits(999) == "999"
    ensures Digits(1000) == "1000"
    ensures Digits(1234567) == "1234567"
  {
    assert Digits(99) == "99";
    assert Digits(100) == "100";
    assert Digits(123) == "123";
    assert Digits(1234) == "1234";
    assert Digits(12345) == "12345";
    assert Digits(123456) == "123456";
  }
}
