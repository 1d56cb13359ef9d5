/**
 * String primitives of JavaScript that the modelled rules call:
 * `toLowerCase`, `includes`, `padStart`, `slice(-k)`, `String(n)`,
 * `parseInt`, `Array.prototype.join`, the `\s` character class and
 * the code-unit order of `<` on strings.
 */
module Text {
  import opened Wrappers

  // ---------------------------------------------------------------- characters

  predicate IsDigit(c: char) { '0' <= c <= '9' }

  function DigitValue(c: char): (d: nat)
    requires IsDigit(c)
    ensures d < 10
  {
    c as int - '0' as int
  }

  function DigitChar(d: nat): (c: char)
    requires d < 10
    ensures IsDigit(c) && DigitValue(c) == d
  {
    ('0' as int + d) as char
  }

  predicate AllDigits(s: string) { forall i :: 0 <= i < |s| ==> IsDigit(s[i]) }

  /** The characters JavaScript's `\s` and `String.prototype.trim` treat as white space. */
  predicate IsJsWhitespace(c: char) {
    c == '\t' || c == '\n' || c == '\U{B}' || c == '\U{C}' || c == '\r' || c == ' '
    || c == '\U{A0}' || c == '\U{1680}' || ('\U{2000}' <= c <= '\U{200A}')
    || c == '\U{2028}' || c == '\U{2029}' || c == '\U{202F}' || c == '\U{205F}'
    || c == '\U{3000}' || c == '\U{FEFF}'
  }

  // ---------------------------------------------------------------- lower case

  /** `toLowerCase` restricted to the ASCII letters; every other character is kept. */
  function LowerChar(c: char): char {
    if 'A' <= c <= 'Z' then (c as int + 32) as char else c
  }

  function Lower(s: string): (r: string)
    ensures |r| == |s|
  {
    seq(|s|, i requires 0 <= i < |s| => LowerChar(s[i]))
  }

  /** JavaScript truthiness of an optional string: present and non-empty. */
  predicate Truthy(s: Option<string>) { s.Some? && s.value != "" }

  // ---------------------------------------------------------------- includes

  /** `s.includes(t)`: `t` occurs in `s` as a contiguous substring. */
  predicate Contains(s: string, t: string) {
    exists i :: 0 <= i <= |s| && OccursAt(s, t, i)
  }

  predicate OccursAt(s: string, t: string, i: nat) {
    i + |t| <= |s| && s[i..i + |t|] == t
  }

  lemma ContainsEmpty(s: string)
    ensures Contains(s, "")
  {
    assert OccursAt(s, "", 0);
  }

  // ---------------------------------------------------------------- numbers as text

  /** `String(n)` for a natural number. */
  function NatToString(n: nat): (r: string)
    ensures |r| >= 1 && AllDigits(r)
    decreases n
  {
    if n < 10 then [DigitChar(n)] else NatToString(n / 10) + [DigitChar(n % 10)]
  }

  /** `String(n)` for an integer. */
  function IntToString(n: int): string {
    if n < 0 then "-" + NatToString(-n) else NatToString(n)
  }

  /** The value of a string of decimal digits. */
  function DecimalValue(s: string): nat
    requires AllDigits(s)
  {
    if s == [] then 0 else 10 * DecimalValue(s[..|s| - 1]) + DigitValue(s[|s| - 1])
  }

  /** Reading back what `String(n)` wrote gives `n`. */
  lemma {:induction false} DecimalValueOfNatToString(n: nat)
    ensures DecimalValue(NatToString(n)) == n
  {
    if n >= 10 {
      DecimalValueOfNatToString(n / 10);
      var s := NatToString(n);
      assert s[..|s| - 1] == NatToString(n / 10);
    }
  }

  /** `String(n)` has four characters exactly for 1000 <= n <= 9999. */
  lemma {:induction false} NatToStringLength(n: nat)
    ensures n < 10 ==> |NatToString(n)| == 1
    ensures 10 <= n < 100 ==> |NatToString(n)| == 2
    ensures 100 <= n < 1000 ==> |NatToString(n)| == 3
    ensures 1000 <= n < 10000 ==> |NatToString(n)| == 4
    ensures 10000 <= n < 100000 ==> |NatToString(n)| == 5
  {
    if n >= 10 { NatToStringLength(n / 10); }
  }

  // ---------------------------------------------------------------- padStart / slice

  function Repeat(c: char, n: nat): (r: string)
    ensures |r| == n && forall i :: 0 <= i < n ==> r[i] == c
  {
    if n == 0 then "" else Repeat(c, n - 1) + [c]
  }

  /** `s.padStart(width, c)` with a one-character filler. */
  function PadStart(s: string, width: nat, c: char): (r: string)
    ensures |r| == if |s| >= width then |s| else width
    ensures r[|r| - |s|..] == s
    ensures forall i :: 0 <= i < |r| - |s| ==> r[i] == c
  {
    if |s| >= width then s else Repeat(c, width - |s|) + s
  }

  /** Zeros in front of a digit string do not change its value. */
  lemma {:induction false} LeadingZeros(k: nat, s: string)
    requires AllDigits(s)
    ensures AllDigits(Repeat('0', k) + s)
    ensures DecimalValue(Repeat('0', k) + s) == DecimalValue(s)
    decreases |s|
  {
    var z := Repeat('0', k);
    if s == [] {
      assert z + s == z;
      ZerosValue(k);
    } else {
      LeadingZeros(k, s[..|s| - 1]);
      assert (z + s)[..|z + s| - 1] == z + s[..|s| - 1];
    }
  }

  lemma {:induction false} ZerosValue(k: nat)
    ensures AllDigits(Repeat('0', k)) && DecimalValue(Repeat('0', k)) == 0
  {
    if k > 0 {
      var y := Repeat('0', k - 1);
      ZerosValue(k - 1);
      var z := y + ['0'];
      assert z == Repeat('0', k);
      assert z[..k - 1] == y;
      assert AllDigits(z) by {
        forall i | 0 <= i < k ensures IsDigit(z[i]) { if i < k - 1 { assert z[i] == y[i]; } }
      }
      assert DecimalValue(z) == 10 * DecimalValue(y) + DigitValue(z[k - 1]);
    }
  }

  /** `String(n).padStart(w, '0')` is `w` digits reading back as `n` when `n` fits. */
  lemma PadStartDigits(n: nat, w: nat)
    requires |NatToString(n)| <= w
    ensures var p := PadStart(NatToString(n), w, '0');
      |p| == w && AllDigits(p) && DecimalValue(p) == n
  {
    var s := NatToString(n);
    DecimalValueOfNatToString(n);
    assert PadStart(s, w, '0') == Repeat('0', w - |s|) + s;
    LeadingZeros(w - |s|, s);
  }

  /** `s.slice(-k)` for k > 0: the last `k` characters, or all of `s` when shorter. */
  function TakeLast(s: string, k: nat): (r: string)
    ensures |r| == if |s| < k then |s| else k
    ensures r == s[|s| - |r|..]
  {
    if |s| < k then s else s[|s| - k..]
  }

  // ---------------------------------------------------------------- parseInt

  predicate IsHexDigit(c: char) {
    IsDigit(c) || 'a' <= c <= 'f' || 'A' <= c <= 'F'
  }

  function HexDigitValue(c: char): (d: nat)
    requires IsHexDigit(c)
    ensures d < 16
  {
    if IsDigit(c) then DigitValue(c)
    else if 'a' <= c <= 'f' then c as int - 'a' as int + 10
    else c as int - 'A' as int + 10
  }

  predicate IsRadixDigit(c: char, hex: bool) { if hex then IsHexDigit(c) else IsDigit(c) }

  function RadixDigitValue(c: char, hex: bool): nat
    requires IsRadixDigit(c, hex)
  {
    if hex then HexDigitValue(c) else DigitValue(c)
  }

  /** Drops leading white space, as `parseInt` does before reading. */
  function TrimStart(s: string): (r: string)
    ensures |r| <= |s|
    ensures |r| > 0 ==> !IsJsWhitespace(r[0])
  {
    if |s| > 0 && IsJsWhitespace(s[0]) then TrimStart(s[1..]) else s
  }

  /** Length of the longest prefix of `s` made of digits of the radix. */
  function DigitRun(s: string, hex: bool): (n: nat)
    ensures n <= |s|
    ensures forall i :: 0 <= i < n ==> IsRadixDigit(s[i], hex)
    ensures n < |s| ==> !IsRadixDigit(s[n], hex)
  {
    if |s| > 0 && IsRadixDigit(s[0], hex) then 1 + DigitRun(s[1..], hex) else 0
  }

  function RadixValue(s: string, hex: bool): nat
    requires forall i :: 0 <= i < |s| ==> IsRadixDigit(s[i], hex)
  {
    if s == [] then 0
    else (if hex then 16 else 10) * RadixValue(s[..|s| - 1], hex) + RadixDigitValue(s[|s| - 1], hex)
  }

  /** The number read from the digits of `s`, in decimal or after an `0x` prefix in hexadecimal. */
  function UnsignedPrefixValue(s: string): Option<nat> {
    var hex := |s| >= 2 && s[0] == '0' && (s[1] == 'x' || s[1] == 'X');
    var body := if hex then s[2..] else s;
    var n := DigitRun(body, hex);
    if n == 0 then None else Some(RadixValue(body[..n], hex))
  }

  /**
   * `parseInt(s)` with no radix: leading white space is skipped, one sign is
   * read, `0x`/`0X` switches to hexadecimal, and the longest digit prefix is
   * read. `None` stands for `NaN`.
   */
  function ParseInt(s: string): Option<int> {
    var t := TrimStart(s);
    var negative := |t| > 0 && t[0] == '-';
    var unsigned := if |t| > 0 && (t[0] == '-' || t[0] == '+') then t[1..] else t;
    match UnsignedPrefixValue(unsigned)
    case None => None
    case Some(v) => var n: int := v; Some(if negative then -n else n)
  }

  /** A string of decimal digits (no `0x` prefix) parses to its decimal value. */
  lemma ParseIntOfDigits(s: string)
    requires |s| > 0 && AllDigits(s)
    ensures ParseInt(s) == Some(DecimalValue(s))
  {
    assert !IsJsWhitespace(s[0]) by { assert IsDigit(s[0]); }
    assert TrimStart(s) == s;
    assert s[0] != '-' && s[0] != '+';
    assert UnsignedPrefixValue(s) == Some(DecimalValue(s)) by {
      assert !(|s| >= 2 && s[0] == '0' && (s[1] == 'x' || s[1] == 'X')) by {
        if |s| >= 2 { assert IsDigit(s[1]); }
      }
      assert forall i :: 0 <= i < |s| ==> IsRadixDigit(s[i], false);
      var n := DigitRun(s, false);
      assert n == |s|;
      assert s[..n] == s;
      DecimalIsRadixValue(s);
    }
  }

  lemma {:induction false} DecimalIsRadixValue(s: string)
    requires AllDigits(s)
    ensures RadixValue(s, false) == DecimalValue(s)
  {
    if s != [] { DecimalIsRadixValue(s[..|s| - 1]); }
  }

  /** `String(x)` of a number that may be `NaN` (`None`). */
  function NumberToString(x: Option<int>): string {
    match x
    case None => "NaN"
    case Some(n) => IntToString(n)
  }

  // ---------------------------------------------------------------- join

  /** `xs.join(sep)`. */
  function Join(xs: seq<string>, sep: string): string
  {
    if |xs| == 0 then ""
    else if |xs| == 1 then xs[0]
    else Join(xs[..|xs| - 1], sep) + sep + xs[|xs| - 1]
  }

  function TotalLength(xs: seq<string>): nat {
    if xs == [] then 0 else TotalLength(xs[..|xs| - 1]) + |xs[|xs| - 1]|
  }

  /** The joined text holds every piece and one separator between each two neighbours. */
  lemma {:induction false} JoinLength(xs: seq<string>, sep: string)
    ensures |xs| > 0 ==> |Join(xs, sep)| == TotalLength(xs) + (|xs| - 1) * |sep|
    ensures |xs| == 0 ==> Join(xs, sep) == ""
  {
    if |xs| > 1 {
      var ys := xs[..|xs| - 1];
      JoinLength(ys, sep);
      assert Join(xs, sep) == Join(ys, sep) + sep + xs[|xs| - 1];
      assert TotalLength(xs) == TotalLength(ys) + |xs[|xs| - 1]|;
      assert (|xs| - 1) * |sep| == (|ys| - 1) * |sep| + |sep|;
    }
  }

  /** Joining one more piece appends the separator and that piece. */
  lemma JoinSnoc(xs: seq<string>, x: string, sep: string)
    requires xs != []
    ensures Join(xs + [x], sep) == Join(xs, sep) + sep + x
  {
    var ys := xs + [x];
    assert ys[..|ys| - 1] == xs;
  }

  // ---------------------------------------------------------------- order

  /** `a < b` on JavaScript strings: code-unit order, a proper prefix first. */
  predicate StrLess(a: string, b: string)
    decreases |a|
  {
    |b| > 0 && (|a| == 0 || a[0] < b[0] || (a[0] == b[0] && StrLess(a[1..], b[1..])))
  }

  /** A common prefix does not decide the order. */
  lemma {:induction false} StrLessCommonPrefix(p: string, a: string, b: string)
    ensures StrLess(p + a, p + b) == StrLess(a, b)
  {
    if p == [] {
      assert p + a == a && p + b == b;
    } else {
      StrLessCommonPrefix(p[1..], a, b);
      assert (p + a)[0] == (p + b)[0] == p[0];
      assert (p + a)[1..] == p[1..] + a;
      assert (p + b)[1..] == p[1..] + b;
    }
  }

  lemma FourDigitValue(a: string)
    requires |a| == 4 && AllDigits(a)
    ensures DecimalValue(a) ==
      1000 * DigitValue(a[0]) + 100 * DigitValue(a[1]) + 10 * DigitValue(a[2]) + DigitValue(a[3])
  {
    var a3, a2, a1 := a[..3], a[..2], a[..1];
    assert a3[..2] == a2 && a2[..1] == a1 && a1[..0] == [];
    assert DecimalValue(a1) == DigitValue(a[0]);
    assert DecimalValue(a2) == 10 * DigitValue(a[0]) + DigitValue(a[1]);
    assert DecimalValue(a3) == 100 * DigitValue(a[0]) + 10 * DigitValue(a[1]) + DigitValue(a[2]);
  }

  /** On four-digit strings, string order and numeric order agree. */
  lemma FourDigitOrder(a: string, b: string)
    requires |a| == 4 && |b| == 4 && AllDigits(a) && AllDigits(b)
    requires DecimalValue(a) < DecimalValue(b)
    ensures StrLess(a, b)
  {
    FourDigitValue(a);
    FourDigitValue(b);
    if a[0] == b[0] {
      if a[1] == b[1] {
        if a[2] == b[2] {
          assert StrLess(a[3..], b[3..]);
        }
        assert StrLess(a[2..], b[2..]);
      }
      assert StrLess(a[1..], b[1..]);
    }
  }

  lemma {:induction false} StrLessIrreflexive(a: string)
    ensures !StrLess(a, a)
    decreases |a|
  {
    if a != [] { StrLessIrreflexive(a[1..]); }
  }

  lemma {:induction false} StrLessTransitive(a: string, b: string, c: string)
    requires StrLess(a, b) && StrLess(b, c)
    ensures StrLess(a, c)
    decreases |a|
  {
    if |a| > 0 && a[0] == b[0] && b[0] == c[0] {
      StrLessTransitive(a[1..], b[1..], c[1..]);
    }
  }
}
