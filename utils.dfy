/**
 * Helpers of `src/lib/utils.ts`: the business-registration-number checksum,
 * the tax rounding, the class-name joiner and the date-stamped invoice
 * number format. The date and the random value are parameters.
 */
module Utils {
  import opened Wrappers
  import opened Text

  // ------------------------------------------------------------------ business number

  /** `replace(/[^0-9]/g, '')`: the ASCII digits of `s`, in order. */
  function DigitsOf(s: string): (r: string)
    ensures AllDigits(r) && |r| <= |s|
  {
    if s == [] then [] else (if IsDigit(s[0]) then [s[0]] else []) + DigitsOf(s[1..])
  }

  lemma {:induction false} DigitsOfAppend(a: string, b: string)
    ensures DigitsOf(a + b) == DigitsOf(a) + DigitsOf(b)
  {
    if a == [] {
      assert a + b == b;
    } else {
      var ab := a + b;
      assert ab[0] == a[0] && ab[1..] == a[1..] + b;
      var h := if IsDigit(a[0]) then [a[0]] else [];
      calc {
        DigitsOf(ab);
        h + DigitsOf(a[1..] + b);
        { DigitsOfAppend(a[1..], b); }
        h + (DigitsOf(a[1..]) + DigitsOf(b));
        (h + DigitsOf(a[1..])) + DigitsOf(b);
        DigitsOf(a) + DigitsOf(b);
      }
    }
  }

  lemma {:induction false} DigitsOfDigits(s: string)
    requires AllDigits(s)
    ensures DigitsOf(s) == s
  {
    if s != [] {
      DigitsOfDigits(s[1..]);
      assert [s[0]] + s[1..] == s;
    }
  }

  const Weights: seq<nat> := [1, 3, 7, 1, 3, 7, 1, 3, 5]

  /** The weighted sum of the first `n` digits. */
  function WeightedSum(d: string, n: nat): nat
    requires n <= 9 && n <= |d| && AllDigits(d)
  {
    if n == 0 then 0 else WeightedSum(d, n - 1) + DigitValue(d[n - 1]) * Weights[n - 1]
  }

  /** The check digit expected after a weighted sum. */
  function CheckDigit(sum: nat): (c: nat)
    ensures c <= 9
    ensures c == (10 - sum % 10) % 10
  {
    var remainder := sum % 10;
    if remainder == 0 then 0 else 10 - remainder
  }

  /** What `validateBusinessNumber` decides about `s`. */
  predicate IsValidBusinessNumber(s: string) {
    var d := DigitsOf(s);
    |d| == 10 && DigitValue(d[9]) == CheckDigit(WeightedSum(d, 9))
  }

  /** Lines 37-54: strip non-digits, require ten digits, sum with weights, compare the check digit. */
  method ValidateBusinessNumber(businessNumber: string) returns (valid: bool)
    ensures valid == IsValidBusinessNumber(businessNumber)
    ensures |DigitsOf(businessNumber)| != 10 ==> !valid
  {
    var cleaned := DigitsOf(businessNumber);
    if |cleaned| != 10 {
      return false;
    }
    var sum := 0;
    for i := 0 to 9
      invariant sum == WeightedSum(cleaned, i)
    {
      sum := sum + DigitValue(cleaned[i]) * Weights[i];
    }
    var remainder := sum % 10;
    var checkDigit := if remainder == 0 then 0 else 10 - remainder;
    valid := checkDigit == DigitValue(cleaned[9]);
  }

  /** A separator or any other non-digit character inserted anywhere does not change the verdict. */
  lemma IgnoresNonDigits(s: string, i: nat, c: char)
    requires i <= |s| && !IsDigit(c)
    ensures IsValidBusinessNumber(s[..i] + [c] + s[i..]) == IsValidBusinessNumber(s)
  {
    DigitsOfAppend(s[..i] + [c], s[i..]);
    DigitsOfAppend(s[..i], [c]);
    DigitsOfAppend(s[..i], s[i..]);
    assert s[..i] + s[i..] == s;
    assert DigitsOf([c]) == [] by { assert [c][1..] == []; }
    assert DigitsOf(s[..i] + [c] + s[i..]) == DigitsOf(s);
  }

  /** A ten-digit string is accepted exactly when its last digit is the check digit of the first nine. */
  lemma ValidWithLast(prefix: string, c: char)
    requires |prefix| == 9 && AllDigits(prefix) && IsDigit(c)
    ensures IsValidBusinessNumber(prefix + [c]) <==> DigitValue(c) == CheckDigit(WeightedSum(prefix, 9))
  {
    var d := prefix + [c];
    DigitsOfDigits(d);
    assert d[..9] == prefix;
    WeightedSumPrefix(d, prefix, 9);
    assert d[9] == c;
  }

  /** Every nine-digit prefix is completed by exactly one check digit. */
  lemma ExactlyOneCheckDigit(prefix: string)
    requires |prefix| == 9 && AllDigits(prefix)
    ensures IsValidBusinessNumber(prefix + [DigitChar(CheckDigit(WeightedSum(prefix, 9)))])
    ensures forall c :: IsDigit(c) && IsValidBusinessNumber(prefix + [c]) ==>
      c == DigitChar(CheckDigit(WeightedSum(prefix, 9)))
  {
    var k := DigitChar(CheckDigit(WeightedSum(prefix, 9)));
    ValidWithLast(prefix, k);
    forall c | IsDigit(c) && IsValidBusinessNumber(prefix + [c])
      ensures c == k
    {
      OnlyCheckDigitAccepted(prefix, c);
    }
  }

  lemma OnlyCheckDigitAccepted(prefix: string, c: char)
    requires |prefix| == 9 && AllDigits(prefix)
    requires IsDigit(c) && IsValidBusinessNumber(prefix + [c])
    ensures c == DigitChar(CheckDigit(WeightedSum(prefix, 9)))
  {
    ValidWithLast(prefix, c);
  }

  /** The weighted sum reads only the first `n` digits. */
  lemma {:induction false} WeightedSumPrefix(d: string, e: string, n: nat)
    requires n <= 9 && n <= |d| && n <= |e| && AllDigits(d) && AllDigits(e)
    requires d[..n] == e[..n]
    ensures WeightedSum(d, n) == WeightedSum(e, n)
  {
    if n > 0 {
      assert d[n - 1] == d[..n][n - 1] == e[..n][n - 1] == e[n - 1];
      assert d[..n - 1] == d[..n][..n - 1];
      WeightedSumPrefix(d, e, n - 1);
    }
  }

  /** A concrete number that passes: 123-45-67895 (weighted sum 165, check digit 5). */
  lemma AcceptedExample()
    ensures IsValidBusinessNumber("123-45-67895")
  {
    ExampleDigitsAccepted();
    var a := "123456789" + ['5'];
    IgnoresNonDigits(a, 5, '-');
    assert a[..5] == "12345" && a[5..] == "67895";
    var b := "12345" + ['-'] + "67895";
    IgnoresNonDigits(b, 3, '-');
    assert b[..3] == "123" && b[3..] == "45-67895";
    assert "123" + ['-'] + "45-67895" == "123-45-67895";
  }

  lemma ExampleDigitsAccepted()
    ensures IsValidBusinessNumber("123456789" + ['5'])
  {
    ExampleWeightedSum();
    ValidWithLast("123456789", '5');
  }

  lemma ExampleWeightedSum()
    ensures WeightedSum("123456789", 9) == 165
  {
    var prefix := "123456789";
    assert WeightedSum(prefix, 3) == 28;
    assert WeightedSum(prefix, 6) == 89;
  }

  // ------------------------------------------------------------------ tax

  /**
   * `calculateTax(amount)` with the default rate 0.1 on whole Won, i.e.
   * `Math.round(amount * 0.1)`: the nearest integer to a tenth, halves rounded up.
   */
  function CalculateTax(amount: int): (t: int)
    ensures 10 * t <= amount + 5 < 10 * t + 10
  {
    (amount + 5) / 10
  }

  /** Tax never falls when the amount grows. */
  lemma TaxMonotone(a: int, b: int)
    requires a <= b
    ensures CalculateTax(a) <= CalculateTax(b)
  {
  }

  // ------------------------------------------------------------------ cn

  /** An argument of `cn`: a string, or `None` for `undefined`, `null` and `false`. */
  type ClassArg = Option<string>

  /** `classes.filter(Boolean)`: the non-empty strings, in order. */
  function TruthyClasses(classes: seq<ClassArg>): (r: seq<string>)
    ensures |r| <= |classes|
    ensures forall i :: 0 <= i < |r| ==> r[i] != "" && Some(r[i]) in classes
    ensures forall i :: 0 <= i < |classes| && classes[i].Some? && classes[i].value != "" ==> classes[i].value in r
  {
    if classes == [] then []
    else
      (if classes[0].Some? && classes[0].value != "" then [classes[0].value] else []) + TruthyClasses(classes[1..])
  }

  /** One argument keeps itself exactly when it is a non-empty string. */
  lemma TruthyClassesOne(c: ClassArg)
    ensures c.Some? && c.value != "" ==> TruthyClasses([c]) == [c.value]
    ensures !(c.Some? && c.value != "") ==> TruthyClasses([c]) == []
  {
    assert [c][1..] == [];
  }

  /**
   * `filter` keeps order and multiplicity: the classes kept from two runs
   * of arguments are those kept from the first followed by those kept from
   * the second.
   */
  lemma {:induction false} TruthyClassesAppend(a: seq<ClassArg>, b: seq<ClassArg>)
    ensures TruthyClasses(a + b) == TruthyClasses(a) + TruthyClasses(b)
    decreases |a|
  {
    if a != [] {
      var h := if a[0].Some? && a[0].value != "" then [a[0].value] else [];
      assert (a + b)[0] == a[0] && (a + b)[1..] == a[1..] + b;
      assert TruthyClasses(a + b) == h + TruthyClasses(a[1..] + b);
      TruthyClassesAppend(a[1..], b);
      assert TruthyClasses(a) == h + TruthyClasses(a[1..]);
      assert h + (TruthyClasses(a[1..]) + TruthyClasses(b)) == (h + TruthyClasses(a[1..])) + TruthyClasses(b);
    } else {
      assert a + b == b;
    }
  }

  /** `cn(...classes)`: the truthy arguments joined by single spaces. */
  function Cn(classes: seq<ClassArg>): (r: string)
  {
    Join(TruthyClasses(classes), " ")
  }

  /**
   * The result is empty exactly when no argument is truthy; otherwise its
   * length is that of the kept classes plus one space between each two.
   */
  lemma {:induction false} CnLength(classes: seq<ClassArg>)
    ensures var kept := TruthyClasses(classes);
      (Cn(classes) == "" <==> kept == []) &&
      (kept != [] ==> |Cn(classes)| == TotalLength(kept) + |kept| - 1)
  {
    var kept := TruthyClasses(classes);
    JoinLength(kept, " ");
    if kept != [] {
      assert |kept[0]| > 0;
      TotalLengthPositive(kept);
    }
  }

  lemma {:induction false} TotalLengthPositive(xs: seq<string>)
    requires xs != [] && forall i :: 0 <= i < |xs| ==> xs[i] != ""
    ensures TotalLength(xs) >= |xs|
  {
    if |xs| > 1 { TotalLengthPositive(xs[..|xs| - 1]); }
    else { assert xs[..0] == []; }
  }

  /** Falsy arguments contribute nothing: `cn('a', undefined, 'b') == 'a b'`. */
  lemma CnExample()
    ensures Cn([Some("a"), None, Some(""), Some("b")]) == "a b"
  {
    var kept := TruthyClasses([Some("a"), None, Some(""), Some("b")]);
    assert kept == ["a", "b"];
    assert kept[..1] == ["a"];
  }

  // ------------------------------------------------------------------ short invoice number

  /**
   * `generateInvoiceNumber(prefix)` (lines 21-29) with the date and
   * `Math.floor(Math.random() * 1000)` as parameters.
   */
  function ShortInvoiceNumber(prefix: string, year: nat, monthIndex: nat, day: nat, random: nat): string {
    prefix + DateStamp(year, monthIndex, day, random)
  }

  /** Two-digit year, month and day, then the three-digit random value. */
  function DateStamp(year: nat, monthIndex: nat, day: nat, random: nat): string {
    TakeLast(NatToString(year), 2) + PadStart(NatToString(monthIndex + 1), 2, '0')
      + PadStart(NatToString(day), 2, '0') + PadStart(NatToString(random), 3, '0')
  }

  lemma StampParts(y: string, m: string, d: string, r: string)
    requires |y| == 2 && |m| == 2 && |d| == 2 && |r| == 3
    requires AllDigits(y) && AllDigits(m) && AllDigits(d) && AllDigits(r)
    ensures var t := y + m + d + r;
      |t| == 9 && AllDigits(t) && t[..2] == y && t[2..4] == m && t[4..6] == d && t[6..] == r
  {
    var t := y + m + d + r;
    forall i | 0 <= i < 9
      ensures IsDigit(t[i])
    {
      if i < 2 { assert t[i] == y[i]; }
      else if i < 4 { assert t[i] == m[i - 2]; }
      else if i < 6 { assert t[i] == d[i - 4]; }
      else { assert t[i] == r[i - 6]; }
    }
  }

  /** `year.toString().slice(-2)` is two digits reading back as the year modulo 100. */
  lemma YearDigits(year: nat)
    requires 10 <= year
    ensures var y := TakeLast(NatToString(year), 2);
      |y| == 2 && AllDigits(y) && DecimalValue(y) == year % 100
  {
    var q := year / 10;
    var y := TakeLast(NatToString(year), 2);
    LastTwoChars(year);
    assert y[..1] == [DigitChar(q % 10)];
    assert DecimalValue(y) == 10 * (q % 10) + year % 10 by {
      assert DecimalValue(y[..1]) == q % 10 by { assert y[..1][..0] == []; }
    }
    ModHundred(year);
  }

  lemma LastTwoChars(n: nat)
    requires 10 <= n
    ensures TakeLast(NatToString(n), 2) == [DigitChar((n / 10) % 10), DigitChar(n % 10)]
  {
    var q := n / 10;
    var t := NatToString(q);
    var s := NatToString(n);
    assert s == t + [DigitChar(n % 10)];
    var last := t[|t| - 1];
    assert last == DigitChar(q % 10) by {
      if q >= 10 { assert t == NatToString(q / 10) + [DigitChar(q % 10)]; }
    }
    assert s[|s| - 2] == last && s[|s| - 1] == DigitChar(n % 10);
    assert s[|s| - 2..] == [last, DigitChar(n % 10)];
  }

  lemma ModHundred(n: nat)
    ensures n % 100 == 10 * ((n / 10) % 10) + n % 10
  {
    var q := n / 10;
    assert n == 10 * q + n % 10;
    assert q == 10 * (q / 10) + q % 10;
    assert n == 100 * (q / 10) + (10 * (q % 10) + n % 10);
    var r := 10 * (q % 10) + n % 10;
    assert 0 <= r < 100;
    DivModUnique(n, q / 10, r);
  }

  lemma DivModUnique(n: nat, d: int, r: int)
    requires n == 100 * d + r && 0 <= r < 100
    ensures n % 100 == r
  {
  }

  lemma PadTwo(n: nat)
    requires n < 100
    ensures var p := PadStart(NatToString(n), 2, '0'); |p| == 2 && AllDigits(p) && DecimalValue(p) == n
  {
    NatToStringLength(n);
    PadStartDigits(n, 2);
  }

  lemma PadThree(n: nat)
    requires n < 1000
    ensures var p := PadStart(NatToString(n), 3, '0'); |p| == 3 && AllDigits(p) && DecimalValue(p) == n
  {
    NatToStringLength(n);
    PadStartDigits(n, 3);
  }

  lemma DateStampFormat(year: nat, monthIndex: nat, day: nat, random: nat)
    requires 10 <= year && monthIndex < 12 && 1 <= day <= 31 && random < 1000
    ensures var t := DateStamp(year, monthIndex, day, random);
      |t| == 9 && AllDigits(t) &&
      AllDigits(t[..2]) && DecimalValue(t[..2]) == year % 100 &&
      AllDigits(t[2..4]) && DecimalValue(t[2..4]) == monthIndex + 1 &&
      AllDigits(t[4..6]) && DecimalValue(t[4..6]) == day &&
      AllDigits(t[6..]) && DecimalValue(t[6..]) == random
  {
    YearDigits(year);
    PadTwo(monthIndex + 1);
    PadTwo(day);
    PadThree(random);
    StampParts(TakeLast(NatToString(year), 2), PadStart(NatToString(monthIndex + 1), 2, '0'),
      PadStart(NatToString(day), 2, '0'), PadStart(NatToString(random), 3, '0'));
  }

  /**
   * For a year of at least two digits, a real month and day, and a random
   * value below 1000, the number is the prefix followed by exactly nine
   * digits: the year's last two digits, then the month, the day and the
   * random value, each reading back.
   */
  lemma ShortInvoiceNumberFormat(prefix: string, year: nat, monthIndex: nat, day: nat, random: nat)
    requires 10 <= year && monthIndex < 12 && 1 <= day <= 31 && random < 1000
    ensures var n := ShortInvoiceNumber(prefix, year, monthIndex, day, random);
      var k := |prefix|;
      |n| == k + 9 && n[..k] == prefix && AllDigits(n[k..]) &&
      AllDigits(n[k..k + 2]) && DecimalValue(n[k..k + 2]) == year % 100 &&
      AllDigits(n[k + 2..k + 4]) && DecimalValue(n[k + 2..k + 4]) == monthIndex + 1 &&
      AllDigits(n[k + 4..k + 6]) && DecimalValue(n[k + 4..k + 6]) == day &&
      AllDigits(n[k + 6..]) && DecimalValue(n[k + 6..]) == random
  {
    DateStampFormat(year, monthIndex, day, random);
    SlicesAfterPrefix(prefix, DateStamp(year, monthIndex, day, random));
  }

  lemma SlicesAfterPrefix(p: string, t: string)
    requires |t| == 9
    ensures var n := p + t; var k := |p|;
      |n| == k + 9 && n[..k] == p && n[k..] == t && n[k..k + 2] == t[..2] &&
      n[k + 2..k + 4] == t[2..4] && n[k + 4..k + 6] == t[4..6] && n[k + 6..] == t[6..]
  {
    var n := p + t;
    var k := |p|;
    assert n[..k] == p && n[k..] == t;
    assert n[k..k + 2] == t[..2];
    assert n[k + 2..k + 4] == t[2..4];
    assert n[k + 4..k + 6] == t[4..6];
  }
}
