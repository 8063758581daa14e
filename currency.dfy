/**
 * Currency cells as text. A billing-table cell is read by deleting every ','
 * and handing the rest to Python's int(); amounts are written back with the
 * thousands-grouped '{:,}' rendering.
 */
module Currency {
  import opened Outcomes
  import opened Text
  import opened Seqs

  predicate IsDigit(c: char)
  {
    '0' <= c <= '9'
  }

  predicate AllDigits(s: string)
  {
    forall k :: 0 <= k < |s| ==> IsDigit(s[k])
  }

  function DigitValue(c: char): nat
    requires IsDigit(c)
  {
    c as int - '0' as int
  }

  function DigitChar(d: nat): (c: char)
    requires d < 10
    ensures IsDigit(c) && DigitValue(c) == d
  {
    ('0' as int + d) as char
  }

  /** The value of a decimal digit string, most significant digit first. */
  function DigitsValue(s: string): nat
    requires AllDigits(s)
  {
    if s == [] then 0 else DigitsValue(s[..|s| - 1]) * 10 + DigitValue(s[|s| - 1])
  }

  predicate NotComma(c: char)
  {
    c != ','
  }

  /** `str.replace(',', '')`: the non-comma characters of `s`, in order and with their repeats. */
  function RemoveCommas(s: string): (r: string)
    ensures forall c :: c in r <==> c in s && c != ','
    ensures r == Filter(s, NotComma)
  {
    if s == [] then []
    else if s[0] == ',' then RemoveCommas(s[1..])
    else [s[0]] + RemoveCommas(s[1..])
  }

  /** Python's int() on a string: whitespace around an optional sign and one or more digits. */
  function ParseInt(s: string): Option<int>
  {
    var t := Strip(s);
    if |t| > 0 && (t[0] == '-' || t[0] == '+') then
      var body := t[1..];
      if |body| > 0 && AllDigits(body) then
        var m: int := DigitsValue(body);
        var v := if t[0] == '-' then -m else m;
        Some(v)
      else None
    else if |t| > 0 && AllDigits(t) then Some(DigitsValue(t))
    else None
  }

  /** A currency cell of the billing table: `int(cell.replace(',', ''))`. */
  function ParseCell(cell: string): Option<int>
  {
    ParseInt(RemoveCommas(cell))
  }

  /** The shortest decimal rendering of `n`, `str(n)`. */
  function Decimal(n: nat): string
  {
    if n < 10 then [DigitChar(n)] else Decimal(n / 10) + [DigitChar(n % 10)]
  }

  /** `str(n)` is a non-empty digit string without a leading zero whose value is `n`. */
  lemma {:induction false} DecimalFacts(n: nat)
    ensures var r := Decimal(n); r != [] && AllDigits(r) && DigitsValue(r) == n
    ensures Decimal(n)[0] != '0' || n == 0
  {
    if n >= 10 {
      DecimalFacts(n / 10);
      var r := Decimal(n);
      assert r[..|r| - 1] == Decimal(n / 10);
    }
  }

  function GroupedNat(n: nat): string
  {
    if n < 1000 then Decimal(n)
    else GroupedNat(n / 1000) + [',', DigitChar(n / 100 % 10), DigitChar(n / 10 % 10), DigitChar(n % 10)]
  }

  /** `'{:,}'.format(n)`: decimal digits in groups of three separated by ','. */
  function Grouped(n: int): string
  {
    if n < 0 then "-" + GroupedNat(-n) else GroupedNat(n)
  }

  lemma {:induction false} RemoveCommasAppend(a: string, b: string)
    ensures RemoveCommas(a + b) == RemoveCommas(a) + RemoveCommas(b)
  {
    if a == [] {
      assert a + b == b;
    } else {
      assert (a + b)[1..] == a[1..] + b;
      RemoveCommasAppend(a[1..], b);
    }
  }

  /** Peeling the last three digits off the decimal rendering. */
  lemma DecimalSplit(n: nat)
    requires n >= 1000
    ensures Decimal(n) == Decimal(n / 1000) + [DigitChar(n / 100 % 10), DigitChar(n / 10 % 10), DigitChar(n % 10)]
  {
    var tens, hundreds, thousands := n / 10, n / 100, n / 1000;
    assert tens / 10 == hundreds && hundreds / 10 == thousands;
    var d0, d1, d2 := DigitChar(n % 10), DigitChar(tens % 10), DigitChar(hundreds % 10);
    assert Decimal(n) == Decimal(tens) + [d0];
    assert Decimal(tens) == Decimal(hundreds) + [d1];
    assert Decimal(hundreds) == Decimal(thousands) + [d2];
    assert Decimal(thousands) + [d2] + [d1] + [d0] == Decimal(thousands) + [d2, d1, d0];
  }

  /** Deleting the separators from the grouped rendering leaves the plain decimal rendering. */
  lemma {:induction false} GroupedWithoutCommas(n: nat)
    ensures RemoveCommas(GroupedNat(n)) == Decimal(n)
  {
    var d := Decimal(n);
    if n < 1000 {
      DecimalFacts(n);
      assert forall c :: c in d ==> IsDigit(c);
      NoCommaUnchanged(d);
    } else {
      var tail := [',', DigitChar(n / 100 % 10), DigitChar(n / 10 % 10), DigitChar(n % 10)];
      RemoveCommasAppend(GroupedNat(n / 1000), tail);
      GroupedWithoutCommas(n / 1000);
      DecimalSplit(n);
      assert tail[1..][0] != ',' && tail[1..][1] != ',' && tail[1..][2] != ',';
      NoCommaUnchanged(tail[1..]);
      assert RemoveCommas(tail) == tail[1..];
    }
  }

  lemma {:induction false} NoCommaUnchanged(s: string)
    requires ',' !in s
    ensures RemoveCommas(s) == s
  {
    if s != [] {
      assert s == [s[0]] + s[1..];
      NoCommaUnchanged(s[1..]);
    }
  }

  /** int() reads back what str() writes for a non-negative integer. */
  lemma DecimalParses(n: nat)
    ensures ParseInt(Decimal(n)) == Some(n)
  {
    var d := Decimal(n);
    DecimalFacts(n);
    StripUnpadded(d);
  }

  /** int() reads back a minus sign followed by `str(m)` as `-m`. */
  lemma NegatedDecimalParses(m: nat)
    ensures ParseInt("-" + Decimal(m)) == Some(-(m as int))
  {
    DecimalFacts(m);
    var t := "-" + Decimal(m);
    StripUnpadded(t);
    assert t[1..] == Decimal(m);
  }

  /** Round trip of a currency amount: parsing a cell holding `'{:,}'.format(n)` yields `n`. */
  lemma CellRoundTrip(n: int)
    ensures ParseCell(Grouped(n)) == Some(n)
  {
    if n < 0 {
      GroupedWithoutCommas(-n);
      RemoveCommasAppend("-", GroupedNat(-n));
      assert RemoveCommas(Grouped(n)) == "-" + Decimal(-n);
      NegatedDecimalParses(-n);
    } else {
      GroupedWithoutCommas(n);
      DecimalParses(n);
    }
  }
}
