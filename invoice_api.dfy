/**
 * The business rules of the sales and purchase invoice API: amounts of an
 * invoice from its items, the payloads written on create and update, the
 * draft-only delete, the per-month invoice number, the requested row range
 * of a list page, and the statistics fold. The two files are the same code
 * with prefix `S`/`P` and party column `customer_id`/`supplier_id`, so one
 * module serves both, selected by `DocKind`. Query results (the greatest
 * existing number, the stored status, the statistics rows) are parameters.
 */
module InvoiceApi {
  import opened Wrappers
  import opened Text
  import opened Records
  import Lists
  import opened Utils

  datatype DocKind = Sales | Purchase

  function PrefixChar(kind: DocKind): char {
    match kind
    case Sales => 'S'
    case Purchase => 'P'
  }

  function PartyField(kind: DocKind): string {
    match kind
    case Sales => "customer_id"
    case Purchase => "supplier_id"
  }

  // ------------------------------------------------------------------ amounts

  /** One entry of `data.items`: whole-Won unit price, integral quantity. */
  datatype LineItem = LineItem(productName: string, quantity: int, unitPrice: int)

  function LineTotal(item: LineItem): int { item.quantity * item.unitPrice }

  /** `items.reduce((sum, item) => sum + item.quantity * item.unit_price, 0)`, a left fold. */
  function Subtotal(items: seq<LineItem>): (s: int)
    ensures (forall i :: 0 <= i < |items| ==> items[i].quantity >= 0 && items[i].unitPrice >= 0) ==> s >= 0
  {
    if items == [] then 0 else Subtotal(items[..|items| - 1]) + LineTotal(items[|items| - 1])
  }

  /** The sum does not depend on how the items are grouped: a right fold gives the same. */
  function SumFromFront(items: seq<LineItem>): int {
    if items == [] then 0 else LineTotal(items[0]) + SumFromFront(items[1..])
  }

  lemma {:induction false} SubtotalAppend(a: seq<LineItem>, b: seq<LineItem>)
    ensures Subtotal(a + b) == Subtotal(a) + Subtotal(b)
    decreases |b|
  {
    if b == [] {
      assert a + b == a;
    } else {
      SubtotalAppend(a, b[..|b| - 1]);
      assert (a + b)[..|a + b| - 1] == a + b[..|b| - 1];
      assert (a + b)[|a + b| - 1] == b[|b| - 1];
    }
  }

  lemma {:induction false} SubtotalIsSum(items: seq<LineItem>)
    ensures Subtotal(items) == SumFromFront(items)
  {
    if items != [] {
      SubtotalIsSum(items[1..]);
      SubtotalAppend([items[0]], items[1..]);
      assert [items[0]] + items[1..] == items;
      assert [items[0]][..0] == [];
    }
  }

  datatype Amounts = Amounts(subtotal: int, taxAmount: int, totalAmount: int)

  /**
   * Lines 132-137: subtotal, tax and total; the tax is `Math.round(subtotal * 0.1)`,
   * the same rounding as `calculateTax`, and the total is never rounded a second time.
   */
  function ComputeAmounts(items: seq<LineItem>): (a: Amounts)
    ensures a.subtotal == SumFromFront(items)
    ensures 10 * a.taxAmount <= a.subtotal + 5 < 10 * a.taxAmount + 10
    ensures a.totalAmount == a.subtotal + a.taxAmount
  {
    SubtotalIsSum(items);
    var subtotal := Subtotal(items);
    var taxAmount := CalculateTax(subtotal);
    Amounts(subtotal, taxAmount, subtotal + taxAmount)
  }

  lemma NoItemsNoAmounts()
    ensures ComputeAmounts([]) == Amounts(0, 0, 0)
  {
  }

  /** 1,800,000 Won of items carry 180,000 Won of tax and 1,980,000 Won in all. */
  lemma TaxExample()
    ensures ComputeAmounts([LineItem("a", 5, 200000), LineItem("b", 1, 800000)])
         == Amounts(1800000, 180000, 1980000)
  {
    var items := [LineItem("a", 5, 200000), LineItem("b", 1, 800000)];
    assert items[..1] == [LineItem("a", 5, 200000)];
  }

  // ------------------------------------------------------------------ stored items

  /** A row of the `*_invoice_items` table as written by create and update. */
  datatype ItemRow = ItemRow(invoiceId: string, productName: string, quantity: int, unitPrice: int, totalPrice: int)

  /** `data.items.map(item => ({invoice_id, ..., total_price: item.quantity * item.unit_price}))` */
  function StoredItems(invoiceId: string, items: seq<LineItem>): (rows: seq<ItemRow>)
    ensures |rows| == |items|
    ensures forall i :: 0 <= i < |rows| ==>
      rows[i].invoiceId == invoiceId && rows[i].productName == items[i].productName &&
      rows[i].quantity == items[i].quantity && rows[i].unitPrice == items[i].unitPrice &&
      rows[i].totalPrice == rows[i].quantity * rows[i].unitPrice
  {
    seq(|items|, i requires 0 <= i < |items| =>
      ItemRow(invoiceId, items[i].productName, items[i].quantity, items[i].unitPrice,
              items[i].quantity * items[i].unitPrice))
  }

  function SumTotalPrices(rows: seq<ItemRow>): int {
    if rows == [] then 0 else rows[0].totalPrice + SumTotalPrices(rows[1..])
  }

  /** The invoice's subtotal equals the sum of the `total_price` column of its stored items. */
  lemma {:induction false} SubtotalMatchesStoredItems(invoiceId: string, items: seq<LineItem>)
    ensures ComputeAmounts(items).subtotal == SumTotalPrices(StoredItems(invoiceId, items))
  {
    SumTotalPricesIsSum(invoiceId, items);
  }

  lemma {:induction false} SumTotalPricesIsSum(invoiceId: string, items: seq<LineItem>)
    ensures SumTotalPrices(StoredItems(invoiceId, items)) == SumFromFront(items)
  {
    if items != [] {
      SumTotalPricesIsSum(invoiceId, items[1..]);
      assert StoredItems(invoiceId, items)[1..] == StoredItems(invoiceId, items[1..]);
    }
  }

  // ------------------------------------------------------------------ create

  /** `CreateSalesInvoiceData` / `CreatePurchaseInvoiceData`. */
  datatype CreateData = CreateData(partyId: string, issueDate: string, dueDate: string,
                                   notes: Option<string>, items: seq<LineItem>)

  /** The row inserted by create (lines 143-156); `notes` is absent when undefined. */
  function InsertRow(kind: DocKind, invoiceNumber: string, data: CreateData, userId: string): (row: Record)
    ensures Get(row, "status") == Some(Str("draft"))
    ensures Get(row, "invoice_number") == Some(Str(invoiceNumber))
    ensures Get(row, PartyField(kind)) == Some(Str(data.partyId))
    ensures Get(row, "subtotal") == Some(Num(SumFromFront(data.items)))
    ensures "tax_amount" in row && row["tax_amount"].Num?
    ensures 10 * row["tax_amount"].n <= row["subtotal"].n + 5 < 10 * row["tax_amount"].n + 10
    ensures Get(row, "total_amount") == Some(Num(row["subtotal"].n + row["tax_amount"].n))
    ensures Get(row, "issue_date") == Some(Str(data.issueDate)) && Get(row, "due_date") == Some(Str(data.dueDate))
    ensures Get(row, "created_by") == Some(Str(userId))
    ensures data.notes.Some? ==> Get(row, "notes") == Some(Str(data.notes.value))
    ensures row.Keys == {"invoice_number", PartyField(kind), "issue_date", "due_date", "subtotal", "tax_amount",
      "total_amount", "status", "created_by"} + (if data.notes.Some? then {"notes"} else {})
  {
    var a := ComputeAmounts(data.items);
    var row := map[
      "invoice_number" := Str(invoiceNumber), PartyField(kind) := Str(data.partyId),
      "issue_date" := Str(data.issueDate), "due_date" := Str(data.dueDate),
      "subtotal" := Num(a.subtotal), "tax_amount" := Num(a.taxAmount), "total_amount" := Num(a.totalAmount),
      "status" := Str("draft"), "created_by" := Str(userId)];
    if data.notes.Some? then row["notes" := Str(data.notes.value)] else row
  }

  // ------------------------------------------------------------------ update

  /** `Partial<CreateSalesInvoiceData>`: `None` is an absent (undefined) field. */
  datatype UpdateInput = UpdateInput(partyId: Option<string>, issueDate: Option<string>, dueDate: Option<string>,
                                     notes: Option<string>, items: Option<seq<LineItem>>)


  /**
   * Lines 191-209: `updateData` is filled field by field. The party and the
   * dates are copied only when truthy, the notes whenever defined, and the
   * three amounts are recomputed exactly when `items` is supplied.
   */
  method BuildUpdateData(kind: DocKind, data: UpdateInput) returns (u: Record)
    ensures (PartyField(kind) in u) == Truthy(data.partyId)
    ensures Truthy(data.partyId) ==> u[PartyField(kind)] == Str(data.partyId.value)
    ensures ("issue_date" in u) == Truthy(data.issueDate)
    ensures Truthy(data.issueDate) ==> u["issue_date"] == Str(data.issueDate.value)
    ensures ("due_date" in u) == Truthy(data.dueDate)
    ensures Truthy(data.dueDate) ==> u["due_date"] == Str(data.dueDate.value)
    ensures ("notes" in u) == data.notes.Some?
    ensures data.notes.Some? ==> u["notes"] == Str(data.notes.value)
    ensures ("subtotal" in u) == ("tax_amount" in u) == ("total_amount" in u) == data.items.Some?
    ensures data.items.Some? ==>
      var a := ComputeAmounts(data.items.value);
      u["subtotal"] == Num(a.subtotal) && u["tax_amount"] == Num(a.taxAmount) && u["total_amount"] == Num(a.totalAmount)
    ensures u.Keys <= {PartyField(kind), "issue_date", "due_date", "notes", "subtotal", "tax_amount", "total_amount"}
  {
    u := map[];
    if Truthy(data.partyId) { u := u[PartyField(kind) := Str(data.partyId.value)]; }
    if Truthy(data.issueDate) { u := u["issue_date" := Str(data.issueDate.value)]; }
    if Truthy(data.dueDate) { u := u["due_date" := Str(data.dueDate.value)]; }
    if data.notes.Some? { u := u["notes" := Str(data.notes.value)]; }
    if data.items.Some? {
      var a := ComputeAmounts(data.items.value);
      u := u["subtotal" := Num(a.subtotal)];
      u := u["tax_amount" := Num(a.taxAmount)];
      u := u["total_amount" := Num(a.totalAmount)];
    }
  }

  /** The stored row after `update({...updateData, updated_at})`. */
  function UpdatedRow(row: Record, updateData: Record, now: string): Record {
    Merge(row, Merge(updateData, map["updated_at" := Str(now)]))
  }

  /** Without `items` the stored amounts are untouched by an update. */
  lemma AmountsKeptWithoutItems(row: Record, updateData: Record, now: string)
    requires "subtotal" !in updateData && "tax_amount" !in updateData && "total_amount" !in updateData
    ensures forall f :: f in {"subtotal", "tax_amount", "total_amount"} ==>
      Get(UpdatedRow(row, updateData, now), f) == Get(row, f)
  {
  }

  // ------------------------------------------------------------------ delete

  datatype DeleteError = LookupFailed | NotDraft(message: string)

  const NotDraftMessage := "임시저장 상태의 계산서만 삭제할 수 있습니다."

  /** The invoice table and the item table as the delete sees them. */
  datatype Tables = Tables(invoices: seq<Record>, items: seq<ItemRow>)

  function ItemNotOf(id: string): ItemRow -> bool { (it: ItemRow) => it.invoiceId != id }

  /**
   * Lines 253-286: the stored status is read first (`None` when that lookup
   * fails); anything but `'draft'` is refused and nothing is deleted;
   * otherwise the invoice's items and then the invoice are deleted.
   */
  function DeleteInvoice(db: Tables, id: string, storedStatus: Option<string>): (r: Result<Tables, DeleteError>)
    ensures storedStatus.None? ==> r == Err(LookupFailed)
    ensures storedStatus.Some? ==> (r.Ok? <==> storedStatus.value == "draft")
    ensures r.Err? && storedStatus.Some? ==> r.error == NotDraft(NotDraftMessage)
    ensures r.Ok? ==>
      (forall i :: 0 <= i < |r.value.invoices| ==> !HasId(r.value.invoices[i], id)) &&
      (forall i :: 0 <= i < |r.value.items| ==> r.value.items[i].invoiceId != id) &&
      (forall i :: 0 <= i < |db.invoices| && !HasId(db.invoices[i], id) ==> db.invoices[i] in r.value.invoices) &&
      (forall i :: 0 <= i < |db.items| && db.items[i].invoiceId != id ==> db.items[i] in r.value.items)
    ensures r.Ok? ==> r.value == Tables(DeleteById(db.invoices, id), Lists.Filter(db.items, ItemNotOf(id)))
    ensures r.Ok? ==> Lists.IsSubsequence(r.value.invoices, db.invoices) && Lists.IsSubsequence(r.value.items, db.items)
  {
    match storedStatus
    case None => Err(LookupFailed)
    case Some(status) =>
      if status != "draft" then Err(NotDraft(NotDraftMessage))
      else
        DeleteByIdIsSubsequence(db.invoices, id);
        Lists.FilterIsSubsequence(db.items, ItemNotOf(id));
        Ok(Tables(DeleteById(db.invoices, id), Lists.Filter(db.items, ItemNotOf(id))))
  }

  // ------------------------------------------------------------------ numbering

  /** `S`/`P`, the four-digit year and the zero-padded month (`getMonth()` is 0-based). */
  function MonthPrefix(kind: DocKind, year: int, monthIndex: int): string
    requires 0 <= monthIndex < 12
  {
    [PrefixChar(kind)] + IntToString(year) + PadStart(NatToString(monthIndex + 1), 2, '0')
  }

  /** `parseInt(last.slice(-4)) + 1`, or 1 when the month has no invoice yet; `None` is `NaN`. */
  function NextSequence(greatest: Option<string>): Option<int> {
    if greatest.None? then Some(1)
    else
      var parsed := ParseInt(TakeLast(greatest.value, 4));
      if parsed.None? then None else Some(parsed.value + 1)
  }

  /** The number `generateInvoiceNumber` returns, given the greatest existing one. */
  function InvoiceNumberFor(kind: DocKind, year: int, monthIndex: int, greatest: Option<string>): string
    requires 0 <= monthIndex < 12
  {
    MonthPrefix(kind, year, monthIndex) + PadStart(NumberToString(NextSequence(greatest)), 4, '0')
  }

  /**
   * Lines 311-334: `greatest` is the result of the query for the greatest
   * `invoice_number` starting with the month prefix.
   */
  method GenerateInvoiceNumber(kind: DocKind, year: int, monthIndex: int, greatest: Option<string>)
    returns (number: string)
    requires 0 <= monthIndex < 12
    ensures number == InvoiceNumberFor(kind, year, monthIndex, greatest)
    ensures number[..|MonthPrefix(kind, year, monthIndex)|] == MonthPrefix(kind, year, monthIndex)
  {
    var prefix := MonthPrefix(kind, year, monthIndex);
    var nextNumber: Option<int> := Some(1);
    if greatest.Some? {
      var lastNumber := ParseInt(TakeLast(greatest.value, 4));
      match lastNumber {
        case None => nextNumber := None;
        case Some(n) => nextNumber := Some(n + 1);
      }
    }
    var suffix := PadStart(NumberToString(nextNumber), 4, '0');
    number := prefix + suffix;
    assert |number| == |prefix| + |suffix|;
    assert number[..|prefix|] == prefix;
  }

  lemma MonthPrefixLength(kind: DocKind, year: int, monthIndex: int)
    requires 0 <= monthIndex < 12 && 1000 <= year <= 9999
    ensures |MonthPrefix(kind, year, monthIndex)| == 7
    ensures MonthPrefix(kind, year, monthIndex)[0] == PrefixChar(kind)
  {
    NatToStringLength(year);
    NatToStringLength(monthIndex + 1);
  }

  /** A sequence below 10000 is written as exactly four digits that read back as itself. */
  lemma FourDigitSuffix(n: nat)
    requires 1 <= n <= 9999
    ensures var p := PadStart(NumberToString(Some(n)), 4, '0');
      |p| == 4 && AllDigits(p) && DecimalValue(p) == n
  {
    NatToStringLength(n);
    PadStartDigits(n, 4);
  }

  /** With no invoice yet this month the sequence starts at 0001. */
  lemma FirstNumberOfMonth(kind: DocKind, year: int, monthIndex: int)
    requires 0 <= monthIndex < 12
    ensures InvoiceNumberFor(kind, year, monthIndex, None) == MonthPrefix(kind, year, monthIndex) + "0001"
  {
    assert NumberToString(Some(1)) == "1";
  }

  /**
   * For a previous sequence of at most 9998 the next number has 11 characters,
   * keeps the month prefix, and its last four characters are the digits of
   * previous + 1.
   */
  lemma NumberRoundTrip(kind: DocKind, year: int, monthIndex: int, greatest: string, previous: nat)
    requires 0 <= monthIndex < 12 && 1000 <= year <= 9999
    requires |greatest| >= 4 && AllDigits(greatest[|greatest| - 4..])
    requires DecimalValue(greatest[|greatest| - 4..]) == previous <= 9998
    ensures var n := InvoiceNumberFor(kind, year, monthIndex, Some(greatest));
      |n| == 11 && n[..7] == MonthPrefix(kind, year, monthIndex) &&
      AllDigits(n[7..]) && DecimalValue(n[7..]) == previous + 1
  {
    NextSequenceOfDigits(greatest, previous);
    FourDigitSuffix(previous + 1);
    MonthPrefixLength(kind, year, monthIndex);
    var prefix := MonthPrefix(kind, year, monthIndex);
    var suffix := PadStart(NumberToString(Some(previous + 1)), 4, '0');
    var n := InvoiceNumberFor(kind, year, monthIndex, Some(greatest));
    assert n == prefix + suffix;
    assert n[..7] == prefix;
    assert n[7..] == suffix;
  }

  /** The next call reads the new number back: its sequence continues from previous + 1. */
  lemma NumberReadsBack(kind: DocKind, year: int, monthIndex: int, greatest: string, previous: nat)
    requires 0 <= monthIndex < 12 && 1000 <= year <= 9999
    requires |greatest| >= 4 && AllDigits(greatest[|greatest| - 4..])
    requires DecimalValue(greatest[|greatest| - 4..]) == previous <= 9998
    ensures NextSequence(Some(InvoiceNumberFor(kind, year, monthIndex, Some(greatest)))) == Some(previous + 2)
  {
    NumberRoundTrip(kind, year, monthIndex, greatest, previous);
    var n := InvoiceNumberFor(kind, year, monthIndex, Some(greatest));
    assert n[|n| - 4..] == n[7..];
    NextSequenceOfDigits(n, previous + 1);
  }

  /** The sequence after a previous number ending in the four digits of `previous`. */
  lemma NextSequenceOfDigits(greatest: string, previous: nat)
    requires |greatest| >= 4 && AllDigits(greatest[|greatest| - 4..])
    requires DecimalValue(greatest[|greatest| - 4..]) == previous
    ensures NextSequence(Some(greatest)) == Some(previous + 1)
  {
    var last := greatest[|greatest| - 4..];
    assert TakeLast(greatest, 4) == last;
    ParseIntOfDigits(last);
  }

  // ------------------------------------------------------------------ sequence exhaustion

  /**
   * As written, the sequence after 9999 is written `10000`: twelve characters
   * that sort below `...9999`. When `...9999` is the greatest of the month's
   * numbers, it is still the greatest once the new number is stored, so the
   * greatest-number query returns it again, and the next call, given the
   * same `...9999`, issues the number just stored a second time.
   */
  lemma ExhaustedSequenceRepeats(kind: DocKind, year: int, monthIndex: int, existing: seq<string>)
    requires 0 <= monthIndex < 12 && 1000 <= year <= 9999
    requires forall i :: 0 <= i < |existing| ==>
      existing[i] == MonthPrefix(kind, year, monthIndex) + "9999" ||
      StrLess(existing[i], MonthPrefix(kind, year, monthIndex) + "9999")
    requires MonthPrefix(kind, year, monthIndex) + "9999" in existing
    ensures var prefix := MonthPrefix(kind, year, monthIndex);
      var last := prefix + "9999";
      var issued := InvoiceNumberFor(kind, year, monthIndex, Some(last));
      var stored := existing + [issued];
      issued == prefix + "10000" && StrLess(issued, last) &&
      last in stored && (forall x :: x in stored ==> !StrLess(last, x))
  {
    var last := MonthPrefix(kind, year, monthIndex) + "9999";
    TenThousandSortsBelow(kind, year, monthIndex);
    var issued := InvoiceNumberFor(kind, year, monthIndex, Some(last));
    var stored := existing + [issued];
    forall x | x in stored
      ensures !StrLess(last, x)
    {
      StrLessIrreflexive(last);
      if x != last {
        assert StrLess(x, last) by {
          if x != issued {
            var i :| 0 <= i < |existing| && existing[i] == x;
          }
        }
        if StrLess(last, x) { StrLessTransitive(last, x, last); }
      }
    }
  }

  /** The step after `...9999` is `...10000`, which sorts below it. */
  lemma TenThousandSortsBelow(kind: DocKind, year: int, monthIndex: int)
    requires 0 <= monthIndex < 12 && 1000 <= year <= 9999
    ensures var prefix := MonthPrefix(kind, year, monthIndex);
      var issued := InvoiceNumberFor(kind, year, monthIndex, Some(prefix + "9999"));
      issued == prefix + "10000" && StrLess(issued, prefix + "9999")
  {
    var prefix := MonthPrefix(kind, year, monthIndex);
    var last := prefix + "9999";
    assert last[|last| - 4..] == "9999";
    assert DecimalValue("9999") == 9999 by { FourDigitValue("9999"); }
    NextSequenceOfDigits(last, 9999);
    TenThousandWritten();
    StrLessCommonPrefix(prefix, "10000", "9999");
  }

  lemma TenThousandWritten()
    ensures PadStart(NumberToString(Some(10000)), 4, '0') == "10000"
  {
    assert NatToString(1) == "1";
    assert NatToString(10) == "10";
    assert NatToString(100) == "100";
    assert NatToString(1000) == "1000";
    assert NatToString(10000) == "10000";
  }

  datatype NumberingError = SequenceExhausted | UnreadableSequence

  /**
   * The numbering as intended: the same number while the sequence stays
   * within four digits, and an error instead of a fifth digit.
   */
  function NextInvoiceNumber(kind: DocKind, year: int, monthIndex: int, greatest: Option<string>)
    : (r: Result<string, NumberingError>)
    requires 0 <= monthIndex < 12
    ensures r.Ok? ==> r.value == InvoiceNumberFor(kind, year, monthIndex, greatest)
  {
    match NextSequence(greatest)
    case None => Err(UnreadableSequence)
    case Some(n) =>
      if n < 1 then Err(UnreadableSequence)
      else if n > 9999 then Err(SequenceExhausted)
      else Ok(InvoiceNumberFor(kind, year, monthIndex, greatest))
  }

  lemma CheckedFirstNumber(kind: DocKind, year: int, monthIndex: int)
    requires 0 <= monthIndex < 12
    ensures NextInvoiceNumber(kind, year, monthIndex, None) == Ok(MonthPrefix(kind, year, monthIndex) + "0001")
  {
    FirstNumberOfMonth(kind, year, monthIndex);
  }

  /**
   * After a well-formed previous number the checked numbering succeeds
   * exactly up to sequence 9998, fails with `SequenceExhausted` at 9999, and
   * otherwise gives an 11-character number of the same month that sorts
   * strictly above the previous one.
   */
  lemma CheckedNumberIncreases(kind: DocKind, year: int, monthIndex: int, suffix: string)
    requires 0 <= monthIndex < 12 && 1000 <= year <= 9999
    requires |suffix| == 4 && AllDigits(suffix)
    ensures var last := MonthPrefix(kind, year, monthIndex) + suffix;
      var r := NextInvoiceNumber(kind, year, monthIndex, Some(last));
      (r.Ok? <==> DecimalValue(suffix) <= 9998) &&
      (r.Err? ==> r.error == SequenceExhausted) &&
      (r.Ok? ==> |r.value| == 11 && r.value[..7] == MonthPrefix(kind, year, monthIndex) && StrLess(last, r.value))
  {
    var prefix := MonthPrefix(kind, year, monthIndex);
    var last := prefix + suffix;
    var v := DecimalValue(suffix);
    MonthPrefixLength(kind, year, monthIndex);
    assert last[|last| - 4..] == suffix;
    NextSequenceOfDigits(last, v);
    if v <= 9998 {
      NumberRoundTrip(kind, year, monthIndex, last, v);
      var n := InvoiceNumberFor(kind, year, monthIndex, Some(last));
      assert n == prefix + n[7..];
      FourDigitOrder(suffix, n[7..]);
      StrLessCommonPrefix(prefix, suffix, n[7..]);
    }
  }

  /**
   * When `last` is the greatest of the month's existing numbers, the checked
   * number is none of them.
   */
  lemma CheckedNumberIsFresh(kind: DocKind, year: int, monthIndex: int, suffix: string, existing: seq<string>)
    requires 0 <= monthIndex < 12 && 1000 <= year <= 9999
    requires |suffix| == 4 && AllDigits(suffix)
    requires forall i :: 0 <= i < |existing| ==>
      existing[i] == MonthPrefix(kind, year, monthIndex) + suffix ||
      StrLess(existing[i], MonthPrefix(kind, year, monthIndex) + suffix)
    ensures var r := NextInvoiceNumber(kind, year, monthIndex, Some(MonthPrefix(kind, year, monthIndex) + suffix));
      r.Ok? ==> r.value !in existing
  {
    var last := MonthPrefix(kind, year, monthIndex) + suffix;
    var r := NextInvoiceNumber(kind, year, monthIndex, Some(last));
    CheckedNumberIncreases(kind, year, monthIndex, suffix);
    if r.Ok? {
      forall i | 0 <= i < |existing|
        ensures existing[i] != r.value
      {
        StrLessIrreflexive(r.value);
        if existing[i] != last {
          StrLessTransitive(existing[i], last, r.value);
        }
      }
    }
  }

  /** Create with the checked numbering: the rows the source writes, or the numbering error. */
  function CreateInvoiceRows(kind: DocKind, year: int, monthIndex: int, greatest: Option<string>,
                             data: CreateData, userId: string, invoiceId: string)
    : (r: Result<(Record, seq<ItemRow>), NumberingError>)
    requires 0 <= monthIndex < 12
    ensures r.Ok? <==> NextInvoiceNumber(kind, year, monthIndex, greatest).Ok?
    ensures r.Ok? ==>
      Get(r.value.0, "invoice_number") == Some(Str(InvoiceNumberFor(kind, year, monthIndex, greatest))) &&
      Get(r.value.0, "status") == Some(Str("draft")) &&
      |r.value.1| == |data.items| &&
      SumTotalPrices(r.value.1) == SumFromFront(data.items)
  {
    match NextInvoiceNumber(kind, year, monthIndex, greatest)
    case Err(e) => Err(e)
    case Ok(number) =>
      SumTotalPricesIsSum(invoiceId, data.items);
      Ok((InsertRow(kind, number, data, userId), StoredItems(invoiceId, data.items)))
  }

  // ------------------------------------------------------------------ statistics

  /** A row of the statistics query: `total_amount, status`. */
  datatype StatsRow = StatsRow(totalAmount: int, status: string)

  datatype Stats = Stats(totalAmount: int, totalCount: int, paidAmount: int, pendingAmount: int,
                         statusCounts: map<string, int>)

  function SumAmounts(rows: seq<StatsRow>): int {
    if rows == [] then 0 else SumAmounts(rows[..|rows| - 1]) + rows[|rows| - 1].totalAmount
  }

  function PaidAmount(rows: seq<StatsRow>): int {
    if rows == [] then 0
    else PaidAmount(rows[..|rows| - 1]) + (if rows[|rows| - 1].status == "paid" then rows[|rows| - 1].totalAmount else 0)
  }

  function PendingAmount(rows: seq<StatsRow>): int {
    if rows == [] then 0
    else PendingAmount(rows[..|rows| - 1]) + (if rows[|rows| - 1].status == "paid" then 0 else rows[|rows| - 1].totalAmount)
  }

  /** `statusCounts[status] = (statusCounts[status] || 0) + 1`, row by row. */
  function StatusCounts(rows: seq<StatsRow>): map<string, int> {
    if rows == [] then map[]
    else
      var m := StatusCounts(rows[..|rows| - 1]);
      var s := rows[|rows| - 1].status;
      m[s := (if s in m then m[s] else 0) + 1]
  }

  /** How many rows carry `status`. */
  function CountStatus(rows: seq<StatsRow>, status: string): nat {
    if rows == [] then 0
    else CountStatus(rows[..|rows| - 1], status) + (if rows[|rows| - 1].status == status then 1 else 0)
  }

  /**
   * Lines 364-386: one pass over the rows with an accumulator, checked against
   * the folds above.
   */
  method ComputeStats(rows: seq<StatsRow>) returns (stats: Stats)
    ensures stats.totalAmount == SumAmounts(rows) && stats.totalCount == |rows|
    ensures stats.paidAmount == PaidAmount(rows) && stats.pendingAmount == PendingAmount(rows)
    ensures stats.statusCounts == StatusCounts(rows)
    ensures stats.paidAmount + stats.pendingAmount == stats.totalAmount
    ensures forall s :: s in stats.statusCounts <==> CountStatus(rows, s) > 0
    ensures forall s :: s in stats.statusCounts ==> stats.statusCounts[s] == CountStatus(rows, s)
    ensures SumValues(stats.statusCounts) == stats.totalCount
  {
    var totalAmount, totalCount, paidAmount, pendingAmount := 0, 0, 0, 0;
    var statusCounts: map<string, int> := map[];
    var i := 0;
    while i < |rows|
      invariant 0 <= i <= |rows|
      invariant totalAmount == SumAmounts(rows[..i]) && totalCount == i
      invariant paidAmount == PaidAmount(rows[..i]) && pendingAmount == PendingAmount(rows[..i])
      invariant statusCounts == StatusCounts(rows[..i])
    {
      var invoice := rows[i];
      assert rows[..i + 1][..i] == rows[..i];
      totalAmount := totalAmount + invoice.totalAmount;
      totalCount := totalCount + 1;
      if invoice.status == "paid" {
        paidAmount := paidAmount + invoice.totalAmount;
      } else {
        pendingAmount := pendingAmount + invoice.totalAmount;
      }
      statusCounts := statusCounts[invoice.status := (if invoice.status in statusCounts then statusCounts[invoice.status] else 0) + 1];
      i := i + 1;
    }
    assert rows[..i] == rows;
    stats := Stats(totalAmount, totalCount, paidAmount, pendingAmount, statusCounts);
    PaidPlusPending(rows);
    StatusCountsAreCounts(rows);
    StatusCountsSum(rows);
  }

  /** Every row is counted either as paid or as pending, never both. */
  lemma {:induction false} PaidPlusPending(rows: seq<StatsRow>)
    ensures PaidAmount(rows) + PendingAmount(rows) == SumAmounts(rows)
  {
    if rows != [] { PaidPlusPending(rows[..|rows| - 1]); }
  }

  /** The count map holds exactly the statuses that occur, each with its number of rows. */
  lemma {:induction false} StatusCountsAreCounts(rows: seq<StatsRow>)
    ensures forall s :: s in StatusCounts(rows) <==> CountStatus(rows, s) > 0
    ensures forall s :: s in StatusCounts(rows) ==> StatusCounts(rows)[s] == CountStatus(rows, s)
  {
    if rows != [] { StatusCountsAreCounts(rows[..|rows| - 1]); }
  }

  /** The sum of the values of `m` at `keys`. */
  ghost function SumOver(m: map<string, int>, keys: set<string>): int
    requires keys <= m.Keys
  {
    if keys == {} then 0
    else
      var k :| k in keys;
      m[k] + SumOver(m, keys - {k})
  }

  ghost function SumValues(m: map<string, int>): int {
    SumOver(m, m.Keys)
  }

  /** Whichever key the sum takes first, the result is the same. */
  lemma {:induction false} SumOverRemove(m: map<string, int>, keys: set<string>, k: string)
    requires keys <= m.Keys && k in keys
    ensures SumOver(m, keys) == m[k] + SumOver(m, keys - {k})
    decreases keys
  {
    var j :| j in keys && SumOver(m, keys) == m[j] + SumOver(m, keys - {j});
    if j != k {
      SumOverRemove(m, keys - {j}, k);
      SumOverRemove(m, keys - {k}, j);
      assert keys - {j} - {k} == keys - {k} - {j};
    }
  }

  lemma {:induction false} SumOverFrame(m: map<string, int>, m': map<string, int>, keys: set<string>)
    requires keys <= m.Keys && keys <= m'.Keys
    requires forall k :: k in keys ==> m[k] == m'[k]
    ensures SumOver(m, keys) == SumOver(m', keys)
    decreases keys
  {
    if keys != {} {
      var j :| j in keys && SumOver(m, keys) == m[j] + SumOver(m, keys - {j});
      SumOverRemove(m', keys, j);
      SumOverFrame(m, m', keys - {j});
    }
  }

  /** One more row of status `s` adds one to the total of the counts. */
  lemma SumValuesIncrement(m: map<string, int>, s: string)
    ensures SumValues(m[s := (if s in m then m[s] else 0) + 1]) == SumValues(m) + 1
  {
    var m' := m[s := (if s in m then m[s] else 0) + 1];
    SumOverRemove(m', m'.Keys, s);
    var rest := m.Keys - {s};
    assert m'.Keys - {s} == rest;
    SumOverFrame(m, m', rest);
    if s in m {
      SumOverRemove(m, m.Keys, s);
    } else {
      assert rest == m.Keys;
    }
  }

  /** The status counts add up to the number of rows. */
  lemma {:induction false} StatusCountsSum(rows: seq<StatsRow>)
    ensures SumValues(StatusCounts(rows)) == |rows|
  {
    if rows != [] {
      StatusCountsSum(rows[..|rows| - 1]);
      SumValuesIncrement(StatusCounts(rows[..|rows| - 1]), rows[|rows| - 1].status);
    }
  }

  // ------------------------------------------------------------------ page range

  /**
   * Lines 84-85 with the defaults `page = 1`, `pageSize = 10` (applied only to
   * undefined arguments): the inclusive row range handed to `range(from, to)`.
   */
  function PageRange(page: Option<int>, pageSize: Option<int>): (range: (int, int))
    ensures var size := if pageSize.Some? then pageSize.value else 10;
      range.1 - range.0 + 1 == size
    ensures page.None? || page == Some(1) ==> range.0 == 0
  {
    var p := if page.Some? then page.value else 1;
    var size := if pageSize.Some? then pageSize.value else 10;
    var from := (p - 1) * size;
    (from, from + size - 1)
  }

  /** Consecutive pages are adjacent: the next page starts right after this one ends. */
  lemma PagesAdjacent(page: int, pageSize: int)
    ensures PageRange(Some(page + 1), Some(pageSize)).0 == PageRange(Some(page), Some(pageSize)).1 + 1
  {
  }

  /** Distinct pages of a positive page size request disjoint row ranges. */
  lemma PagesDisjoint(p: int, q: int, pageSize: int)
    requires p < q && pageSize > 0
    ensures PageRange(Some(p), Some(pageSize)).1 < PageRange(Some(q), Some(pageSize)).0
  {
    var d := q - p;
    assert (q - 1) * pageSize == (p - 1) * pageSize + d * pageSize;
    assert d * pageSize >= pageSize by {
      assert d >= 1;
      assert d * pageSize == pageSize + (d - 1) * pageSize;
      assert (d - 1) * pageSize >= 0;
    }
  }
}
