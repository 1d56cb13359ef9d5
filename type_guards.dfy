/**
 * The format guards of `src/types/index.ts`. Each regular expression is
 * written as the positions it constrains; `\d` is an ASCII digit and `\s`
 * the JavaScript whitespace set. Lemmas state what each accepted string is
 * made of.
 */
module TypeGuards {
  import opened Text
  import Utils

  // ------------------------------------------------------------------ invoice status

  datatype InvoiceStatus = Draft | Pending | Issued | Paid | Overdue

  function StatusName(st: InvoiceStatus): string {
    match st
    case Draft => "draft"
    case Pending => "pending"
    case Issued => "issued"
    case Paid => "paid"
    case Overdue => "overdue"
  }

  /** `['draft', 'pending', 'issued', 'paid', 'overdue'].includes(value)` */
  predicate IsInvoiceStatus(value: string) {
    value in ["draft", "pending", "issued", "paid", "overdue"]
  }

  /** The guard accepts exactly the names of the five statuses, and each name belongs to one status. */
  lemma InvoiceStatusNames(value: string)
    ensures IsInvoiceStatus(value) <==> exists st :: StatusName(st) == value
    ensures forall s, t :: StatusName(s) == StatusName(t) ==> s == t
  {
    if IsInvoiceStatus(value) {
      if value == "draft" { assert StatusName(Draft) == value; }
      else if value == "pending" { assert StatusName(Pending) == value; }
      else if value == "issued" { assert StatusName(Issued) == value; }
      else if value == "paid" { assert StatusName(Paid) == value; }
      else { assert StatusName(Overdue) == value; }
    }
    forall s, t | StatusName(s) == StatusName(t)
      ensures s == t
    {
      assert StatusName(s)[0] == StatusName(t)[0];
    }
  }

  // ------------------------------------------------------------------ business number

  /** `/^\d{3}-\d{2}-\d{5}$/` */
  predicate IsBusinessNumber(value: string) {
    |value| == 12 && AllDigits(value[..3]) && value[3] == '-' && AllDigits(value[4..6]) &&
    value[6] == '-' && AllDigits(value[7..])
  }

  /** Three digit groups separated by two hyphens lose only the hyphens when the digits are extracted. */
  lemma DigitsOfGroups(a: string, b: string, c: string)
    requires AllDigits(a) && AllDigits(b) && AllDigits(c)
    ensures Utils.DigitsOf(a + ['-'] + b + ['-'] + c) == a + b + c
  {
    var x1 := a + ['-'];
    DropHyphen(a);
    Utils.DigitsOfDigits(a);
    var x2 := x1 + b;
    Utils.DigitsOfAppend(x1, b);
    Utils.DigitsOfDigits(b);
    var x3 := x2 + ['-'];
    DropHyphen(x2);
    Utils.DigitsOfAppend(x3, c);
    Utils.DigitsOfDigits(c);
  }

  lemma DropHyphen(s: string)
    ensures Utils.DigitsOf(s + ['-']) == Utils.DigitsOf(s)
  {
    Utils.DigitsOfAppend(s, ['-']);
    assert Utils.DigitsOf(['-']) == [] by { assert ['-'][1..] == []; }
    assert Utils.DigitsOf(s) + [] == Utils.DigitsOf(s);
  }

  /**
   * An accepted business number carries exactly ten digits, its three groups
   * in order, so the length test of `validateBusinessNumber` passes; whether
   * the checksum holds is a separate matter.
   */
  lemma BusinessNumberDigits(value: string)
    requires IsBusinessNumber(value)
    ensures Utils.DigitsOf(value) == value[..3] + value[4..6] + value[7..]
    ensures |Utils.DigitsOf(value)| == 10
  {
    assert value == value[..3] + ['-'] + value[4..6] + ['-'] + value[7..];
    DigitsOfGroups(value[..3], value[4..6], value[7..]);
  }

  /** The format guard does not imply the checksum: 123-45-67890 is well formed but rejected. */
  lemma FormatDoesNotImplyChecksum(v: string)
    requires v == "123-45-67890"
    ensures IsBusinessNumber(v) && !Utils.IsValidBusinessNumber(v)
  {
    assert v == "123" + ['-'] + "45" + ['-'] + "67890";
    ExampleWellFormed(v);
    ExampleDigitsRejected();
    var w := "123456789" + ['0'];
    Utils.DigitsOfDigits(w);
    assert Utils.DigitsOf(v) == Utils.DigitsOf(w);
  }

  lemma ExampleWellFormed(v: string)
    requires v == "123" + ['-'] + "45" + ['-'] + "67890"
    ensures IsBusinessNumber(v)
    ensures Utils.DigitsOf(v) == "123456789" + ['0']
  {
    DigitsOfGroups("123", "45", "67890");
    assert "123" + "45" + "67890" == "123456789" + ['0'];
    assert v[..3] == "123" && v[4..6] == "45" && v[7..] == "67890";
  }

  lemma ExampleDigitsRejected()
    ensures !Utils.IsValidBusinessNumber("123456789" + ['0'])
  {
    Utils.ExampleWeightedSum();
    Utils.ValidWithLast("123456789", '0');
  }

  // ------------------------------------------------------------------ phone number

  /** The third digit of a mobile prefix: `[016789]`. */
  predicate IsCarrierDigit(c: char) { c in "016789" }

  /** `/^01[016789]-\d{3,4}-\d{4}$/`: the middle group has 3 or 4 digits. */
  predicate IsPhoneNumber(value: string) {
    var middle := |value| - 9;
    (middle == 3 || middle == 4) &&
    value[0] == '0' && value[1] == '1' && IsCarrierDigit(value[2]) && value[3] == '-' &&
    AllDigits(value[4..4 + middle]) && value[4 + middle] == '-' && AllDigits(value[5 + middle..])
  }

  /**
   * An accepted phone number has 12 or 13 characters and is an 11- or
   * 10-digit mobile number beginning with `01`, the hyphens removed.
   */
  lemma PhoneNumberShape(value: string)
    requires IsPhoneNumber(value)
    ensures |value| == 12 || |value| == 13
    ensures |Utils.DigitsOf(value)| == |value| - 2
    ensures Utils.DigitsOf(value)[..2] == "01"
  {
    var m := |value| - 9;
    var head, mid, tail := value[..3], value[4..4 + m], value[5 + m..];
    assert AllDigits(head);
    assert value == head + ['-'] + mid + ['-'] + tail;
    DigitsOfGroups(head, mid, tail);
  }

  /** Mobile numbers pass; a Seoul landline does not. */
  lemma PhoneNumberExamples()
    ensures IsPhoneNumber("010-1234-5678") && IsPhoneNumber("011-123-4567")
    ensures !IsPhoneNumber("02-1234-5678")
  {
  }

  // ------------------------------------------------------------------ e-mail address

  /** `[^\s@]` */
  predicate IsAddressChar(c: char) { !IsJsWhitespace(c) && c != '@' }

  predicate AllAddressChars(s: string) { forall k :: 0 <= k < |s| ==> IsAddressChar(s[k]) }

  /**
   * `/^[^\s@]+@[^\s@]+\.[^\s@]+$/`: some `@` at `at` and some `.` at `dot`
   * split the value into three non-empty runs of characters that are
   * neither whitespace nor `@`.
   */
  predicate IsEmailAddress(value: string) {
    exists at, dot :: 0 < at < dot < |value| && SplitsAt(value, at, dot)
  }

  /** The three runs around an `@` at `at` and a `.` at `dot`. */
  predicate SplitsAt(value: string, at: int, dot: int) {
    0 < at && at + 1 < dot < |value| - 1 && value[at] == '@' && value[dot] == '.' &&
    AllAddressChars(value[..at]) && AllAddressChars(value[at + 1..dot]) && AllAddressChars(value[dot + 1..])
  }

  /**
   * The same guard stated as properties of the whole string: no whitespace,
   * exactly one `@`, not at the start, and a `.` in the domain with text on
   * both sides of it.
   */
  predicate EmailShape(value: string) {
    (forall k :: 0 <= k < |value| ==> !IsJsWhitespace(value[k])) &&
    exists at :: 0 < at < |value| && value[at] == '@' &&
      (forall k :: 0 <= k < |value| && value[k] == '@' ==> k == at) &&
      exists dot :: at + 1 < dot < |value| - 1 && value[dot] == '.'
  }

  lemma EmailAddressShape(value: string)
    ensures IsEmailAddress(value) <==> EmailShape(value)
  {
    if IsEmailAddress(value) {
      var at, dot :| SplitsAt(value, at, dot);
      SplitHasShape(value, at, dot);
    }
    if EmailShape(value) {
      ShapeHasSplit(value);
    }
  }

  lemma SplitHasShape(value: string, at: int, dot: int)
    requires SplitsAt(value, at, dot)
    ensures EmailShape(value)
  {
    forall k | 0 <= k < |value|
      ensures !IsJsWhitespace(value[k]) && (value[k] == '@' ==> k == at)
    {
      if k < at { assert value[k] == value[..at][k]; }
      else if at < k < dot { assert value[k] == value[at + 1..dot][k - at - 1]; }
      else if dot < k { assert value[k] == value[dot + 1..][k - dot - 1]; }
    }
  }

  lemma ShapeHasSplit(value: string)
    requires EmailShape(value)
    ensures IsEmailAddress(value)
  {
    var at :| 0 < at < |value| && value[at] == '@' &&
      (forall k :: 0 <= k < |value| && value[k] == '@' ==> k == at) &&
      exists dot :: at + 1 < dot < |value| - 1 && value[dot] == '.';
    var dot :| at + 1 < dot < |value| - 1 && value[dot] == '.';
    var local, domain, top := value[..at], value[at + 1..dot], value[dot + 1..];
    assert AllAddressChars(local) by {
      forall k | 0 <= k < |local| ensures IsAddressChar(local[k]) { assert local[k] == value[k]; }
    }
    assert AllAddressChars(domain) by {
      forall k | 0 <= k < |domain| ensures IsAddressChar(domain[k]) { assert domain[k] == value[at + 1 + k]; }
    }
    assert AllAddressChars(top) by {
      forall k | 0 <= k < |top| ensures IsAddressChar(top[k]) { assert top[k] == value[dot + 1 + k]; }
    }
    assert SplitsAt(value, at, dot);
  }

  lemma EmailExamples()
    ensures IsEmailAddress("kim@corp.kr")
    ensures !IsEmailAddress("kim@corp") && !IsEmailAddress("@corp.kr") && !IsEmailAddress("kim@@corp.kr")
  {
    EmailAccepted("kim@corp.kr");
    NoDotRejected("kim@corp");
    LeadingAtRejected("@corp.kr");
    DoubleAtRejected("kim@@corp.kr");
  }

  lemma EmailAccepted(v: string)
    requires v == "kim@corp.kr"
    ensures IsEmailAddress(v)
  {
    assert v[..3] == "kim" && v[4..8] == "corp" && v[9..] == "kr";
    assert SplitsAt(v, 3, 8);
  }

  lemma NoDotRejected(v: string)
    requires v == "kim@corp"
    ensures !IsEmailAddress(v)
  {
    EmailAddressShape(v);
    assert forall k :: 0 <= k < |v| ==> v[k] != '.';
  }

  lemma LeadingAtRejected(v: string)
    requires v == "@corp.kr"
    ensures !IsEmailAddress(v)
  {
    EmailAddressShape(v);
    assert forall k :: 0 < k < |v| ==> v[k] != '@';
  }

  lemma DoubleAtRejected(v: string)
    requires v == "kim@@corp.kr"
    ensures !IsEmailAddress(v)
  {
    EmailAddressShape(v);
    assert v[3] == '@' && v[4] == '@';
  }

}
