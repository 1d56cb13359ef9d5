/**
 * The sales and purchase management screens
 * (`src/components/SalesManagement.tsx`, `src/components/PurchaseManagement.tsx`).
 * Both keep their invoice list and selection in component state and differ
 * only in the party-name field the search looks at, so one class serves
 * both. The clock and the `confirm` answer are parameters.
 */
module InvoiceScreens {
  import opened Wrappers
  import opened Text
  import opened Records
  import Lists

  datatype Screen = SalesScreen | PurchaseScreen

  /** The field the search box compares besides the invoice number. */
  function PartyNameField(screen: Screen): string {
    match screen
    case SalesScreen => "customer_name"
    case PurchaseScreen => "supplier_name"
  }

  function FieldText(r: Record, field: string): string {
    Stringify(Get(r, field))
  }

  // ------------------------------------------------------------------ the visible list

  /** Sales lines 111-116, purchase lines 91-96: search text and status select together. */
  predicate ListMatches(screen: Screen, r: Record, searchTerm: string, filterStatus: string) {
    (Contains(Lower(FieldText(r, PartyNameField(screen))), Lower(searchTerm)) ||
     Contains(Lower(FieldText(r, "invoice_number")), Lower(searchTerm))) &&
    (filterStatus == "all" || Get(r, "status") == Some(Str(filterStatus)))
  }

  function ListMatcher(screen: Screen, searchTerm: string, filterStatus: string): Record -> bool {
    r => ListMatches(screen, r, searchTerm, filterStatus)
  }

  /** `filteredInvoices`: exactly the matching invoices, in list order. */
  function FilteredInvoices(screen: Screen, invoices: seq<Record>, searchTerm: string, filterStatus: string)
    : (r: seq<Record>)
    ensures forall x :: x in r <==> x in invoices && ListMatches(screen, x, searchTerm, filterStatus)
  {
    Lists.Filter(invoices, ListMatcher(screen, searchTerm, filterStatus))
  }

  /** The visible list never adds or reorders invoices. */
  lemma FilteredIsSubsequence(screen: Screen, invoices: seq<Record>, searchTerm: string, filterStatus: string)
    ensures Lists.IsSubsequence(FilteredInvoices(screen, invoices, searchTerm, filterStatus), invoices)
  {
    Lists.FilterIsSubsequence(invoices, ListMatcher(screen, searchTerm, filterStatus));
  }

  /** An empty search with status 'all' shows the whole list. */
  lemma NoCriteriaShowsAll(screen: Screen, invoices: seq<Record>)
    ensures FilteredInvoices(screen, invoices, "", "all") == invoices
  {
    forall x | x in invoices
      ensures ListMatcher(screen, "", "all")(x)
    {
      ContainsEmpty(Lower(FieldText(x, PartyNameField(screen))));
      assert Lower("") == "";
    }
    Lists.FilterKeepsAll(invoices, ListMatcher(screen, "", "all"));
  }

  /** With a status other than 'all', every visible invoice has exactly that status. */
  lemma StatusFilterExact(screen: Screen, invoices: seq<Record>, searchTerm: string, filterStatus: string, x: Record)
    requires filterStatus != "all"
    requires x in FilteredInvoices(screen, invoices, searchTerm, filterStatus)
    ensures Get(x, "status") == Some(Str(filterStatus))
  {
  }

  // ------------------------------------------------------------------ list edits

  /** The fields a new invoice always gets, written after the form data. */
  function Stamp(isoNow: string): (st: Record)
    ensures st.Keys == {"nts_status", "created_by", "created_at", "updated_at"}
  {
    map["nts_status" := Str("pending"), "created_by" := Str("admin"),
        "created_at" := Str(isoNow), "updated_at" := Str(isoNow)]
  }

  /**
   * Sales lines 124-131, purchase lines 104-111: a clock-based id the form
   * data may replace, then the form data, then the fixed fields, which the
   * form data cannot replace.
   */
  function CreatedInvoice(data: Record, nowMillis: nat, isoNow: string): (r: Record)
    ensures r.Keys == data.Keys + {"id", "nts_status", "created_by", "created_at", "updated_at"}
    ensures r["nts_status"] == Str("pending") && r["created_by"] == Str("admin")
    ensures r["created_at"] == Str(isoNow) && r["updated_at"] == Str(isoNow)
    ensures r["id"] == if "id" in data then data["id"] else Str(NatToString(nowMillis))
    ensures forall k :: k in data && k !in Stamp(isoNow) ==> k in r && r[k] == data[k]
  {
    var withId := Merge(map["id" := Str(NatToString(nowMillis))], data);
    assert withId.Keys == data.Keys + {"id"};
    Merge(withId, Stamp(isoNow))
  }

  /** Sales lines 151-155, purchase lines 131-135: the selected invoice, the form data over it, a new `updated_at`. */
  function UpdatedInvoice(selected: Record, data: Record, isoNow: string): (r: Record)
    ensures r.Keys == selected.Keys + data.Keys + {"updated_at"}
    ensures r["updated_at"] == Str(isoNow)
    ensures forall k :: k in data && k != "updated_at" ==> r[k] == data[k]
    ensures forall k :: k in selected && k !in data && k != "updated_at" ==> r[k] == selected[k]
  {
    Merge(Merge(selected, data), map["updated_at" := Str(isoNow)])
  }

  /** `invoice.id === selected.id`: two absent ids are equal too. */
  predicate SameId(a: Record, b: Record) {
    Get(a, "id") == Get(b, "id")
  }

  /** Every invoice with the selected id is replaced by the one updated invoice; the others stay in place. */
  function ReplaceSameId(invoices: seq<Record>, selected: Record, updated: Record): (r: seq<Record>)
    ensures |r| == |invoices|
    ensures forall i :: 0 <= i < |r| ==> r[i] == if SameId(invoices[i], selected) then updated else invoices[i]
  {
    seq(|invoices|, i requires 0 <= i < |invoices| => if SameId(invoices[i], selected) then updated else invoices[i])
  }

  /** Unless the form data sets an id, the updated invoice keeps the selected id, so editing it again finds it. */
  lemma UpdateKeepsSelectedId(invoices: seq<Record>, selected: Record, data: Record, isoNow: string, i: int)
    requires "id" !in data && 0 <= i < |invoices| && SameId(invoices[i], selected)
    ensures SameId(ReplaceSameId(invoices, selected, UpdatedInvoice(selected, data, isoNow))[i], selected)
  {
  }

  /** A selected invoice that is no longer in the list makes the update change nothing. */
  lemma UpdateOfMissingSelection(invoices: seq<Record>, selected: Record, updated: Record)
    requires forall i :: 0 <= i < |invoices| ==> !SameId(invoices[i], selected)
    ensures ReplaceSameId(invoices, selected, updated) == invoices
  {
  }

  // ------------------------------------------------------------------ the screen state

  /** Everything the screen keeps in component state. */
  datatype View = View(
    invoices: seq<Record>,
    searchTerm: string,
    filterStatus: string,
    isFormOpen: bool,
    isDetailOpen: bool,
    selected: Option<Record>,
    isLoading: bool)

  class InvoiceScreen {
    const screen: Screen
    var invoices: seq<Record>
    var searchTerm: string
    var filterStatus: string
    var isFormOpen: bool
    var isDetailOpen: bool
    var selected: Option<Record>
    var isLoading: bool

    function Snapshot(): View
      reads this
    {
      View(invoices, searchTerm, filterStatus, isFormOpen, isDetailOpen, selected, isLoading)
    }

    /** The list the table shows. */
    function Visible(): seq<Record>
      reads this
    {
      FilteredInvoices(screen, invoices, searchTerm, filterStatus)
    }

    /** Sales lines 87-93, purchase lines 67-73: the sample list, no search, status 'all', nothing open. */
    constructor (screen: Screen, initial: seq<Record>)
      ensures this.screen == screen
      ensures Snapshot() == View(initial, "", "all", false, false, None, false)
      ensures Visible() == initial
    {
      this.screen := screen;
      invoices := initial;
      searchTerm := "";
      filterStatus := "all";
      isFormOpen := false;
      isDetailOpen := false;
      selected := None;
      isLoading := false;
      NoCriteriaShowsAll(screen, initial);
    }

    method SetSearchTerm(term: string)
      modifies this
      ensures Snapshot() == old(Snapshot()).(searchTerm := term)
    {
      searchTerm := term;
    }

    method SetFilterStatus(status: string)
      modifies this
      ensures Snapshot() == old(Snapshot()).(filterStatus := status)
    {
      filterStatus := status;
    }

    /** Sales lines 118-141, purchase lines 98-121: append one invoice at the end and close the form. */
    method HandleCreateInvoice(data: Record, nowMillis: nat, isoNow: string)
      modifies this
      ensures invoices == old(invoices) + [CreatedInvoice(data, nowMillis, isoNow)]
      ensures Snapshot() == old(Snapshot()).(invoices := invoices, isFormOpen := false, isLoading := false)
    {
      isLoading := true;
      var invoice := CreatedInvoice(data, nowMillis, isoNow);
      invoices := invoices + [invoice];
      isFormOpen := false;
      isLoading := false;
    }

    /**
     * Sales lines 143-168, purchase lines 123-148: without a selection
     * nothing happens; otherwise every invoice with the selected id becomes
     * the updated invoice, and the form closes and the selection clears.
     */
    method HandleUpdateInvoice(data: Record, isoNow: string)
      modifies this
      ensures old(selected).None? ==> Snapshot() == old(Snapshot())
      ensures old(selected).Some? ==>
        Snapshot() == old(Snapshot()).(
          invoices := ReplaceSameId(old(invoices), old(selected).value, UpdatedInvoice(old(selected).value, data, isoNow)),
          isFormOpen := false, selected := None, isLoading := false)
    {
      if selected.None? {
        return;
      }
      isLoading := true;
      var sel := selected.value;
      var updated := UpdatedInvoice(sel, data, isoNow);
      invoices := ReplaceSameId(invoices, sel, updated);
      isFormOpen := false;
      selected := None;
      isLoading := false;
    }

    /**
     * Sales lines 170-187, purchase lines 150-167: unless the user cancels
     * the confirmation, drop the invoices with that id, whatever their
     * status, and close the detail view.
     */
    method HandleDeleteInvoice(id: string, confirmed: bool)
      modifies this
      ensures !confirmed ==> Snapshot() == old(Snapshot())
      ensures confirmed ==>
        Snapshot() == old(Snapshot()).(
          invoices := DeleteById(old(invoices), id), isDetailOpen := false, selected := None, isLoading := false)
      ensures confirmed ==> forall i :: 0 <= i < |invoices| ==> !HasId(invoices[i], id)
    {
      if !confirmed {
        return;
      }
      isLoading := true;
      invoices := DeleteById(invoices, id);
      isDetailOpen := false;
      selected := None;
      isLoading := false;
    }

    /** Sales lines 189-192, purchase lines 169-172. */
    method HandleViewInvoice(invoice: Record)
      modifies this
      ensures Snapshot() == old(Snapshot()).(selected := Some(invoice), isDetailOpen := true)
    {
      selected := Some(invoice);
      isDetailOpen := true;
    }

    /** Sales lines 194-197, purchase lines 174-177. */
    method HandleEditInvoice(invoice: Record)
      modifies this
      ensures Snapshot() == old(Snapshot()).(selected := Some(invoice), isFormOpen := true)
    {
      selected := Some(invoice);
      isFormOpen := true;
    }

    /** Sales lines 199-203, purchase lines 179-183. */
    method HandleCloseModal()
      modifies this
      ensures Snapshot() == old(Snapshot()).(isFormOpen := false, isDetailOpen := false, selected := None)
    {
      isFormOpen := false;
      isDetailOpen := false;
      selected := None;
    }
  }

  /** After a create with no search and status 'all', the new invoice is the last one shown. */
  method CreatedInvoiceIsShown(s: InvoiceScreen, data: Record, nowMillis: nat, isoNow: string)
    requires s.searchTerm == "" && s.filterStatus == "all"
    modifies s
    ensures |s.Visible()| > 0 && s.Visible()[|s.Visible()| - 1] == CreatedInvoice(data, nowMillis, isoNow)
  {
    s.HandleCreateInvoice(data, nowMillis, isoNow);
    assert s.searchTerm == "" && s.filterStatus == "all";
    NoCriteriaShowsAll(s.screen, s.invoices);
    assert s.Visible() == s.invoices;
  }
}
