/**
 * The generic data table of `src/components/ui/Table.tsx`: the sort state a
 * header click toggles, the selection lists the checkboxes hand to the
 * parent, and the header checkbox's checked/indeterminate flags. An absent
 * `onSelectionChange` or `onSortChange` callback is modelled by what the
 * component would pass to it: `None` when it is not called.
 */
module Table {
  import opened Wrappers
  import opened Records
  import Lists
  import SalesHook

  type SortSpec = SalesHook.SortSpec

  datatype Column = Column(key: string, sortable: bool)

  function Flip(order: SalesHook.SortOrder): SalesHook.SortOrder {
    if order == SalesHook.Asc then SalesHook.Desc else SalesHook.Asc
  }

  /** Lines 27-35: the sort a click on `column` asks for. */
  function ClickedSort(current: Option<SortSpec>, column: Column): (s: SortSpec)
    ensures s.field == column.key
    ensures current.Some? && current.value.field == column.key ==> s.order == Flip(current.value.order)
    ensures current.None? || current.value.field != column.key ==> s.order == SalesHook.Asc
  {
    var order :=
      if current.Some? && current.value.field == column.key then Flip(current.value.order)
      else SalesHook.Asc;
    SalesHook.SortSpec(column.key, order)
  }

  /** Clicking the same sortable column twice comes back to the sort it started from. */
  lemma ClickTwiceRestores(s: SortSpec, column: Column)
    requires s.field == column.key
    ensures ClickedSort(Some(ClickedSort(Some(s), column)), column) == s
  {
  }

  /** A click on a new column always starts ascending, and a second click makes it descending. */
  lemma NewColumnAscThenDesc(current: Option<SortSpec>, column: Column)
    requires current.None? || current.value.field != column.key
    ensures ClickedSort(current, column).order == SalesHook.Asc
    ensures ClickedSort(Some(ClickedSort(current, column)), column).order == SalesHook.Desc
  {
  }

  datatype SortIcon = NoIcon | Unsorted | Up | Down

  /** Lines 56-68: which arrow a header shows. */
  function IconFor(current: Option<SortSpec>, column: Column): (icon: SortIcon)
    ensures icon == NoIcon <==> !column.sortable
    ensures icon == Up <==> column.sortable && current.Some? && current.value.field == column.key && current.value.order.Asc?
    ensures icon == Down <==> column.sortable && current.Some? && current.value.field == column.key && current.value.order.Desc?
  {
    if !column.sortable then NoIcon
    else if current.None? || current.value.field != column.key then Unsorted
    else if current.value.order.Asc? then Up
    else Down
  }

  class TableSort {
    var currentSort: Option<SortSpec>

    /** Line 22: nothing sorted yet. */
    constructor ()
      ensures currentSort == None
    {
      currentSort := None;
    }

    /**
     * Lines 24-39: a non-sortable column is ignored; otherwise the clicked
     * sort becomes current and is also what `onSortChange` receives.
     */
    method HandleSort(column: Column) returns (emitted: Option<SortSpec>)
      modifies this
      ensures !column.sortable ==> currentSort == old(currentSort) && emitted == None
      ensures column.sortable ==> currentSort == Some(ClickedSort(old(currentSort), column)) && emitted == currentSort
      ensures column.sortable ==> IconFor(currentSort, column) != Unsorted && IconFor(currentSort, column) != NoIcon
    {
      if !column.sortable {
        return None;
      }
      var s := ClickedSort(currentSort, column);
      currentSort := Some(s);
      emitted := Some(s);
    }
  }

  // ------------------------------------------------------------------ selection

  /** Lines 41-44: the whole data or nothing; no callback, no call. */
  function SelectAll(data: seq<Record>, checked: bool, hasCallback: bool): (r: Option<seq<Record>>)
    ensures r.Some? <==> hasCallback
    ensures hasCallback && checked ==> r.value == data
    ensures hasCallback && !checked ==> r.value == []
  {
    if !hasCallback then None else Some(if checked then data else [])
  }

  /** `selected.id !== item.id` */
  function OtherId(item: Record): Record -> bool {
    (s: Record) => Get(s, "id") != Get(item, "id")
  }

  /** Lines 46-54: append the checked item, or drop every selected entry with the unchecked item's id. */
  function SelectItem(selectedItems: seq<Record>, item: Record, checked: bool, hasCallback: bool)
    : (r: Option<seq<Record>>)
    ensures r.Some? <==> hasCallback
    ensures hasCallback && checked ==> r.value == selectedItems + [item]
    ensures hasCallback && !checked ==>
      (forall x :: x in r.value <==> x in selectedItems && Get(x, "id") != Get(item, "id"))
  {
    if !hasCallback then None
    else if checked then Some(selectedItems + [item])
    else Some(Lists.Filter(selectedItems, OtherId(item)))
  }

  /** Unchecking keeps the remaining selection in its order. */
  lemma UncheckIsSubsequence(selectedItems: seq<Record>, item: Record)
    ensures Lists.IsSubsequence(SelectItem(selectedItems, item, false, true).value, selectedItems)
  {
    Lists.FilterIsSubsequence(selectedItems, OtherId(item));
  }

  /** Checking an item whose id is not yet selected and unchecking it again restores the selection. */
  lemma CheckThenUncheck(selectedItems: seq<Record>, item: Record)
    requires forall i :: 0 <= i < |selectedItems| ==> Get(selectedItems[i], "id") != Get(item, "id")
    ensures SelectItem(SelectItem(selectedItems, item, true, true).value, item, false, true).value == selectedItems
  {
    Lists.FilterAppend(selectedItems, [item], OtherId(item));
    Lists.FilterKeepsAll(selectedItems, OtherId(item));
    assert Lists.Filter([item], OtherId(item)) == [];
  }

  // ------------------------------------------------------------------ header checkbox

  /** Line 70 */
  predicate IsAllSelected(dataCount: nat, selectedCount: nat) {
    dataCount > 0 && selectedCount == dataCount
  }

  /** Line 71 */
  predicate IsIndeterminate(dataCount: nat, selectedCount: nat) {
    selectedCount > 0 && selectedCount < dataCount
  }

  /** The header checkbox is never both checked and indeterminate, and an empty table is never all selected. */
  lemma HeaderFlagsExclusive(dataCount: nat, selectedCount: nat)
    ensures !(IsAllSelected(dataCount, selectedCount) && IsIndeterminate(dataCount, selectedCount))
    ensures dataCount == 0 ==> !IsAllSelected(dataCount, selectedCount)
  {
  }

  /** After "select all" the header is checked (for a non-empty table); after clearing it is neither checked nor indeterminate. */
  lemma SelectAllSetsHeader(data: seq<Record>)
    ensures |data| > 0 ==> IsAllSelected(|data|, |SelectAll(data, true, true).value|)
    ensures var cleared := |SelectAll(data, false, true).value|;
      !IsAllSelected(|data|, cleared) && !IsIndeterminate(|data|, cleared)
  {
  }
}
