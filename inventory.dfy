/**
 * The inventory screen (`src/components/InventoryManagement.tsx`): the stock
 * classification, the low-stock warning icon, and the search/category/status
 * filter over the item list.
 */
module Inventory {
  import opened Text
  import Lists

  /** The fields of an `InventoryItem` that the screen's rules read. */
  datatype InventoryItem = InventoryItem(
    id: string, productCode: string, productName: string, category: string,
    currentStock: int, minimumStock: int, status: string, stockStatus: string)

  // ------------------------------------------------------------------ stock status

  datatype StockStatus = OutOfStock | Low | Normal

  /** The badge text: 품절 (sold out), 부족 (short), 정상 (normal). */
  function Label(st: StockStatus): string {
    match st
    case OutOfStock => "품절"
    case Low => "부족"
    case Normal => "정상"
  }

  function Color(st: StockStatus): string {
    match st
    case OutOfStock => "bg-red-100 text-red-800"
    case Low => "bg-orange-100 text-orange-800"
    case Normal => "bg-green-100 text-green-800"
  }

  /**
   * Lines 91-95: an empty stock is sold out whatever the minimum; a non-empty
   * stock at or below the minimum is short; anything else is normal.
   */
  function GetStockStatus(item: InventoryItem): (st: StockStatus)
    ensures st == OutOfStock <==> item.currentStock == 0
    ensures st == Low <==> item.currentStock != 0 && item.currentStock <= item.minimumStock
    ensures st == Normal <==> item.currentStock != 0 && item.currentStock > item.minimumStock
  {
    if item.currentStock == 0 then OutOfStock
    else if item.currentStock <= item.minimumStock then Low
    else Normal
  }

  /** The three labels are distinct, so the label alone tells the classification. */
  lemma LabelsDistinct(s: StockStatus, t: StockStatus)
    ensures Label(s) == Label(t) ==> s == t
  {
    if Label(s) == Label(t) { assert Label(s)[0] == Label(t)[0]; }
  }

  /** Line 184: the warning triangle next to the product name. */
  predicate ShowsLowStockIcon(item: InventoryItem) {
    item.currentStock <= item.minimumStock
  }

  /**
   * With a non-negative minimum the icon shows exactly for the items not
   * classified normal; with a negative minimum a sold-out item gets no icon.
   */
  lemma IconMatchesStatus(item: InventoryItem)
    ensures item.minimumStock >= 0 ==> (ShowsLowStockIcon(item) <==> GetStockStatus(item) != Normal)
    ensures item.minimumStock < 0 && item.currentStock == 0 ==>
      GetStockStatus(item) == OutOfStock && !ShowsLowStockIcon(item)
  {
  }

  /** The `stock_status` column value that corresponds to a classification. */
  function StoredName(st: StockStatus): string {
    match st
    case OutOfStock => "out_of_stock"
    case Low => "low_stock"
    case Normal => "in_stock"
  }

  const MockInventory: seq<InventoryItem> := [
    InventoryItem("1", "P001", "노트북 A모델", "전자제품", 15, 10, "active", "in_stock"),
    InventoryItem("2", "P002", "마우스 B모델", "전자제품", 5, 20, "active", "low_stock"),
    InventoryItem("3", "P003", "키보드 C모델", "전자제품", 30, 15, "active", "in_stock")
  ]

  /** The stored `stock_status` of each mock item agrees with the computed classification. */
  lemma MockStockStatusAgrees()
    ensures forall i :: 0 <= i < |MockInventory| ==>
      MockInventory[i].stockStatus == StoredName(GetStockStatus(MockInventory[i]))
  {
  }

  // ------------------------------------------------------------------ filter

  /** Lines 84-88: search on name or code, then the category and status selects. */
  predicate MatchesFilter(item: InventoryItem, searchTerm: string, category: string, status: string) {
    (Contains(Lower(item.productName), Lower(searchTerm)) || Contains(Lower(item.productCode), Lower(searchTerm))) &&
    (category == "all" || item.category == category) &&
    (status == "all" || item.status == status)
  }

  function Matcher(searchTerm: string, category: string, status: string): InventoryItem -> bool {
    (item: InventoryItem) => MatchesFilter(item, searchTerm, category, status)
  }

  /** `filteredInventory`: exactly the matching items, in their order. */
  function FilteredInventory(inventory: seq<InventoryItem>, searchTerm: string, category: string, status: string)
    : (r: seq<InventoryItem>)
    ensures |r| <= |inventory|
    ensures forall i :: 0 <= i < |r| ==> r[i] in inventory && MatchesFilter(r[i], searchTerm, category, status)
    ensures forall i :: 0 <= i < |inventory| && MatchesFilter(inventory[i], searchTerm, category, status) ==>
      inventory[i] in r
  {
    Lists.Filter(inventory, Matcher(searchTerm, category, status))
  }

  /** The filter only drops items; it never adds or reorders them. */
  lemma FilteredIsSubsequence(inventory: seq<InventoryItem>, searchTerm: string, category: string, status: string)
    ensures Lists.IsSubsequence(FilteredInventory(inventory, searchTerm, category, status), inventory)
  {
    Lists.FilterIsSubsequence(inventory, Matcher(searchTerm, category, status));
  }

  /** The screen's initial state (empty search, both selects on 'all') shows every item. */
  lemma InitialFilterShowsAll(inventory: seq<InventoryItem>)
    ensures FilteredInventory(inventory, "", "all", "all") == inventory
  {
    forall item | item in inventory
      ensures Matcher("", "all", "all")(item)
    {
      ContainsEmpty(Lower(item.productName));
      assert Lower("") == "";
    }
    Lists.FilterKeepsAll(inventory, Matcher("", "all", "all"));
  }
}
