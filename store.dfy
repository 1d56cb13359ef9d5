/**
 * The application store: one object holding the signed-in user, the three
 * invoice/item lists with their loading and error flags, and the sidebar
 * flag. Every action replaces one field; the lists are rebuilt with
 * append, `map` (update by id) and `filter` (delete by id).
 */
module AppStore {
  import opened Wrappers
  import opened Records

  datatype Role = Admin | Staff | Accounting

  datatype User = User(id: string, name: string, email: string, role: Role)

  /** The whole store state as one value, so that an action can say what it replaced. */
  datatype State = State(
    user: Option<User>,
    isAuthenticated: bool,
    salesInvoices: seq<Record>,
    salesLoading: bool,
    salesError: Option<string>,
    purchaseInvoices: seq<Record>,
    purchaseLoading: bool,
    purchaseError: Option<string>,
    inventoryItems: seq<Record>,
    inventoryLoading: bool,
    inventoryError: Option<string>,
    sidebarOpen: bool)

  /** Nobody signed in, empty lists, nothing loading, no errors, sidebar open. */
  const Initial := State(None, false, [], false, None, [], false, None, [], false, None, true)

  class Store {
    var user: Option<User>
    var isAuthenticated: bool
    var salesInvoices: seq<Record>
    var salesLoading: bool
    var salesError: Option<string>
    var purchaseInvoices: seq<Record>
    var purchaseLoading: bool
    var purchaseError: Option<string>
    var inventoryItems: seq<Record>
    var inventoryLoading: bool
    var inventoryError: Option<string>
    var sidebarOpen: bool

    function Snapshot(): State
      reads this
    {
      State(user, isAuthenticated,
            salesInvoices, salesLoading, salesError,
            purchaseInvoices, purchaseLoading, purchaseError,
            inventoryItems, inventoryLoading, inventoryError,
            sidebarOpen)
    }

    constructor ()
      ensures Snapshot() == Initial
    {
      user := None;
      isAuthenticated := false;
      salesInvoices := [];
      salesLoading := false;
      salesError := None;
      purchaseInvoices := [];
      purchaseLoading := false;
      purchaseError := None;
      inventoryItems := [];
      inventoryLoading := false;
      inventoryError := None;
      sidebarOpen := true;
    }

    // ---------------------------------------------------------------- auth

    method SetUser(u: Option<User>)
      modifies this
      ensures Snapshot() == old(Snapshot()).(user := u)
    {
      user := u;
    }

    method SetAuthenticated(b: bool)
      modifies this
      ensures Snapshot() == old(Snapshot()).(isAuthenticated := b)
    {
      isAuthenticated := b;
    }

    // ---------------------------------------------------------------- sales

    method SetSalesInvoices(invoices: seq<Record>)
      modifies this
      ensures Snapshot() == old(Snapshot()).(salesInvoices := invoices)
    {
      salesInvoices := invoices;
    }

    /** Appends at the end; the earlier invoices keep their places. */
    method AddSalesInvoice(invoice: Record)
      modifies this
      ensures salesInvoices == old(salesInvoices) + [invoice]
      ensures |salesInvoices| == |old(salesInvoices)| + 1 && salesInvoices[..|old(salesInvoices)|] == old(salesInvoices)
      ensures Snapshot() == old(Snapshot()).(salesInvoices := salesInvoices)
    {
      salesInvoices := salesInvoices + [invoice];
    }

    /** Merges `updates` into every invoice with that id; all others are kept, in order. */
    method UpdateSalesInvoice(id: string, updates: Record)
      modifies this
      ensures salesInvoices == UpdateById(old(salesInvoices), id, updates)
      ensures Snapshot() == old(Snapshot()).(salesInvoices := salesInvoices)
    {
      salesInvoices := UpdateById(salesInvoices, id, updates);
    }

    /** Drops every invoice with that id; the others stay, in order. */
    method DeleteSalesInvoice(id: string)
      modifies this
      ensures salesInvoices == DeleteById(old(salesInvoices), id)
      ensures forall i :: 0 <= i < |salesInvoices| ==> !HasId(salesInvoices[i], id)
      ensures Snapshot() == old(Snapshot()).(salesInvoices := salesInvoices)
    {
      salesInvoices := DeleteById(salesInvoices, id);
    }

    method SetSalesLoading(b: bool)
      modifies this
      ensures Snapshot() == old(Snapshot()).(salesLoading := b)
    {
      salesLoading := b;
    }

    method SetSalesError(e: Option<string>)
      modifies this
      ensures Snapshot() == old(Snapshot()).(salesError := e)
    {
      salesError := e;
    }

    // ---------------------------------------------------------------- purchase

    method SetPurchaseInvoices(invoices: seq<Record>)
      modifies this
      ensures Snapshot() == old(Snapshot()).(purchaseInvoices := invoices)
    {
      purchaseInvoices := invoices;
    }

    method AddPurchaseInvoice(invoice: Record)
      modifies this
      ensures purchaseInvoices == old(purchaseInvoices) + [invoice]
      ensures |purchaseInvoices| == |old(purchaseInvoices)| + 1 && purchaseInvoices[..|old(purchaseInvoices)|] == old(purchaseInvoices)
      ensures Snapshot() == old(Snapshot()).(purchaseInvoices := purchaseInvoices)
    {
      purchaseInvoices := purchaseInvoices + [invoice];
    }

    method UpdatePurchaseInvoice(id: string, updates: Record)
      modifies this
      ensures purchaseInvoices == UpdateById(old(purchaseInvoices), id, updates)
      ensures Snapshot() == old(Snapshot()).(purchaseInvoices := purchaseInvoices)
    {
      purchaseInvoices := UpdateById(purchaseInvoices, id, updates);
    }

    method DeletePurchaseInvoice(id: string)
      modifies this
      ensures purchaseInvoices == DeleteById(old(purchaseInvoices), id)
      ensures forall i :: 0 <= i < |purchaseInvoices| ==> !HasId(purchaseInvoices[i], id)
      ensures Snapshot() == old(Snapshot()).(purchaseInvoices := purchaseInvoices)
    {
      purchaseInvoices := DeleteById(purchaseInvoices, id);
    }

    method SetPurchaseLoading(b: bool)
      modifies this
      ensures Snapshot() == old(Snapshot()).(purchaseLoading := b)
    {
      purchaseLoading := b;
    }

    method SetPurchaseError(e: Option<string>)
      modifies this
      ensures Snapshot() == old(Snapshot()).(purchaseError := e)
    {
      purchaseError := e;
    }

    // ---------------------------------------------------------------- inventory

    method SetInventoryItems(items: seq<Record>)
      modifies this
      ensures Snapshot() == old(Snapshot()).(inventoryItems := items)
    {
      inventoryItems := items;
    }

    method AddInventoryItem(item: Record)
      modifies this
      ensures inventoryItems == old(inventoryItems) + [item]
      ensures |inventoryItems| == |old(inventoryItems)| + 1 && inventoryItems[..|old(inventoryItems)|] == old(inventoryItems)
      ensures Snapshot() == old(Snapshot()).(inventoryItems := inventoryItems)
    {
      inventoryItems := inventoryItems + [item];
    }

    method UpdateInventoryItem(id: string, updates: Record)
      modifies this
      ensures inventoryItems == UpdateById(old(inventoryItems), id, updates)
      ensures Snapshot() == old(Snapshot()).(inventoryItems := inventoryItems)
    {
      inventoryItems := UpdateById(inventoryItems, id, updates);
    }

    method DeleteInventoryItem(id: string)
      modifies this
      ensures inventoryItems == DeleteById(old(inventoryItems), id)
      ensures forall i :: 0 <= i < |inventoryItems| ==> !HasId(inventoryItems[i], id)
      ensures Snapshot() == old(Snapshot()).(inventoryItems := inventoryItems)
    {
      inventoryItems := DeleteById(inventoryItems, id);
    }

    method SetInventoryLoading(b: bool)
      modifies this
      ensures Snapshot() == old(Snapshot()).(inventoryLoading := b)
    {
      inventoryLoading := b;
    }

    method SetInventoryError(e: Option<string>)
      modifies this
      ensures Snapshot() == old(Snapshot()).(inventoryError := e)
    {
      inventoryError := e;
    }

    // ---------------------------------------------------------------- UI

    method SetSidebarOpen(b: bool)
      modifies this
      ensures Snapshot() == old(Snapshot()).(sidebarOpen := b)
    {
      sidebarOpen := b;
    }
  }

  /**
   * Adding an invoice under a fresh id and deleting that id brings the sales
   * list back to what it was, and touches nothing else in the store.
   */
  method AddThenDeleteSales(s: Store, invoice: Record, id: string)
    requires HasId(invoice, id)
    requires forall i :: 0 <= i < |s.salesInvoices| ==> !HasId(s.salesInvoices[i], id)
    modifies s
    ensures s.Snapshot() == old(s.Snapshot())
  {
    s.AddSalesInvoice(invoice);
    DeleteUndoesAdd(old(s.salesInvoices), invoice, id);
    s.DeleteSalesInvoice(id);
  }
}
