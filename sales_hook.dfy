/**
 * The sales-invoice hook of `src/hooks/useSalesInvoices.ts`: a fetch that
 * runs search, field filters, sort and pagination over the rows a request
 * returns and writes the page into the application store, the
 * create/update/delete wrappers around the store actions, and the actions
 * that rewrite the search parameters before fetching again.
 */
module SalesHook {
  import opened Wrappers
  import opened Text
  import opened Records
  import Lists
  import AppStore

  // ------------------------------------------------------------------ search parameters

  datatype Operator = Eq | Ne | Gt | Gte | Lt | Lte | ContainsOp | StartsWith | EndsWith

  /** A filter value: `string | number | boolean`. */
  datatype Scalar = SStr(s: string) | SNum(n: int) | SBool(b: bool)

  datatype FieldFilter = FieldFilter(field: string, value: Scalar, operator: Operator)

  datatype SortOrder = Asc | Desc

  datatype SortSpec = SortSpec(field: string, order: SortOrder)

  /** A pagination object; an absent key is `None`. */
  datatype PageInfo = PageInfo(page: Option<int>, pageSize: Option<int>, total: Option<int>, totalPages: Option<int>)

  datatype SearchParams = SearchParams(
    query: Option<string>,
    filters: Option<seq<FieldFilter>>,
    sort: Option<SortSpec>,
    pagination: Option<PageInfo>)

  /** The hook's initial parameters: empty query, no filters, newest first, page 1 of 10. */
  const InitialParams := SearchParams(
    Some(""), Some([]), Some(SortSpec("created_at", Desc)),
    Some(PageInfo(Some(1), Some(10), Some(0), Some(0))))

  function ScalarValue(v: Scalar): Value {
    match v
    case SStr(s) => Str(s)
    case SNum(n) => Num(n)
    case SBool(b) => Bool(b)
  }

  /** `String(filter.value)` */
  function ScalarText(v: Scalar): string {
    Stringify(Some(ScalarValue(v)))
  }

  /** `String(record[field])`, "undefined" when the field is absent. */
  function FieldText(r: Record, field: string): string {
    Stringify(Get(r, field))
  }

  // ------------------------------------------------------------------ search

  /** Case-insensitive match of the query against the customer name or the invoice number. */
  predicate SearchMatches(r: Record, query: string) {
    Contains(Lower(FieldText(r, "customer_name")), Lower(query)) ||
    Contains(Lower(FieldText(r, "invoice_number")), Lower(query))
  }

  function Searcher(query: string): Record -> bool {
    r => SearchMatches(r, query)
  }

  /** The search step: an empty or absent query keeps every row. */
  function Searched(rows: seq<Record>, query: Option<string>): (r: seq<Record>)
    ensures !Truthy(query) ==> r == rows
    ensures Truthy(query) ==> forall x :: x in r <==> x in rows && SearchMatches(x, query.value)
  {
    if Truthy(query) then Lists.Filter(rows, Searcher(query.value)) else rows
  }

  // ------------------------------------------------------------------ field filters

  /**
   * One filter: `eq` is strict equality with the stored value, `contains` a
   * case-insensitive substring test on the `String()` texts, and every other
   * operator keeps the row.
   */
  predicate Keeps(f: FieldFilter, r: Record) {
    match f.operator
    case Eq => Get(r, f.field) == Some(ScalarValue(f.value))
    case ContainsOp => Contains(Lower(FieldText(r, f.field)), Lower(ScalarText(f.value)))
    case _ => true
  }

  function Keeper(f: FieldFilter): Record -> bool {
    r => Keeps(f, r)
  }

  /** The filters applied one after another, first filter first. */
  function ApplyFilters(rows: seq<Record>, fs: seq<FieldFilter>): seq<Record>
    decreases |fs|
  {
    if fs == [] then rows else Lists.Filter(ApplyFilters(rows, fs[..|fs| - 1]), Keeper(fs[|fs| - 1]))
  }

  /** A row passes every filter of the list. */
  predicate KeepsAll(fs: seq<FieldFilter>, r: Record) {
    forall f :: f in fs ==> Keeps(f, r)
  }

  function AllKeeper(fs: seq<FieldFilter>): Record -> bool {
    r => KeepsAll(fs, r)
  }

  /** Applying the filters in sequence is one filter by their conjunction. */
  lemma {:induction false} ApplyFiltersIsConjunction(rows: seq<Record>, fs: seq<FieldFilter>)
    ensures ApplyFilters(rows, fs) == Lists.Filter(rows, AllKeeper(fs))
    decreases |fs|
  {
    if fs == [] {
      Lists.FilterKeepsAll(rows, AllKeeper(fs));
    } else {
      var init := fs[..|fs| - 1];
      var last := fs[|fs| - 1];
      ApplyFiltersIsConjunction(rows, init);
      forall x | x in rows
        ensures KeepsAll(fs, x) == (KeepsAll(init, x) && Keeps(last, x))
      {
        assert fs == init + [last];
      }
      Lists.FilterFilter(rows, AllKeeper(init), Keeper(last), AllKeeper(fs));
    }
  }

  /** The order of the filters does not matter, nor does repeating one. */
  lemma FiltersOrderIrrelevant(rows: seq<Record>, fs: seq<FieldFilter>, gs: seq<FieldFilter>)
    requires forall f :: f in fs <==> f in gs
    ensures ApplyFilters(rows, fs) == ApplyFilters(rows, gs)
  {
    ApplyFiltersIsConjunction(rows, fs);
    ApplyFiltersIsConjunction(rows, gs);
    Lists.FilterCongruent(rows, AllKeeper(fs), AllKeeper(gs));
  }

  /** The filters of the parameters, `[]` when there are none. */
  function FiltersOf(params: SearchParams): seq<FieldFilter> {
    if params.filters.Some? then params.filters.value else []
  }

  /** The rows that survive search and filters, before sorting. */
  function Selected(rows: seq<Record>, params: Option<SearchParams>): seq<Record> {
    if params.None? then rows else ApplyFilters(Searched(rows, params.value.query), FiltersOf(params.value))
  }

  /** Search and filters only drop rows: the selection is a subsequence of the rows. */
  lemma SelectedIsSubsequence(rows: seq<Record>, params: Option<SearchParams>)
    ensures Lists.IsSubsequence(Selected(rows, params), rows)
  {
    if params.None? {
      Lists.SubsequenceReflexive(rows);
    } else {
      var p := params.value;
      var searched := Searched(rows, p.query);
      if Truthy(p.query) {
        Lists.FilterIsSubsequence(rows, Searcher(p.query.value));
      } else {
        Lists.SubsequenceReflexive(rows);
      }
      ApplyFiltersIsConjunction(searched, FiltersOf(p));
      Lists.FilterIsSubsequence(searched, AllKeeper(FiltersOf(p)));
      Lists.SubsequenceTransitive(Selected(rows, params), searched, rows);
    }
  }

  /** A row is selected iff it is one of the rows, matches the query and passes every filter. */
  lemma SelectedMembership(rows: seq<Record>, p: SearchParams, x: Record)
    ensures x in Selected(rows, Some(p)) <==>
      x in rows && (Truthy(p.query) ==> SearchMatches(x, p.query.value)) && KeepsAll(FiltersOf(p), x)
  {
    ApplyFiltersIsConjunction(Searched(rows, p.query), FiltersOf(p));
  }

  // ------------------------------------------------------------------ sort

  /** `a > b` / `a < b` on two defined values of the same kind; other pairs compare false. */
  predicate JsLess(a: Value, b: Value) {
    match (a, b)
    case (Num(x), Num(y)) => x < y
    case (Str(x), Str(y)) => StrLess(x, y)
    case (Bool(x), Bool(y)) => !x && y
    case _ => false
  }

  /** The comparator of lines 98-111: undefined or null values go last; it never returns 0. */
  function Compare(a: Record, b: Record, spec: SortSpec): (c: int)
    ensures c == 1 || c == -1
    ensures (Get(a, spec.field) == None || Get(a, spec.field) == Some(Null)) ==> c == 1
  {
    var av := Get(a, spec.field);
    var bv := Get(b, spec.field);
    if av == None || av == Some(Null) then 1
    else if bv == None || bv == Some(Null) then -1
    else if spec.order == Asc then (if JsLess(bv.value, av.value) then 1 else -1)
    else (if JsLess(av.value, bv.value) then 1 else -1)
  }

  /**
   * `Array.prototype.sort` with that comparator, as an insertion sort by
   * adjacent swaps. The comparator is not a consistent order, so all that is
   * promised is that the array ends up a permutation of itself.
   */
  method SortInPlace(a: array<Record>, spec: SortSpec)
    modifies a
    ensures multiset(a[..]) == multiset(old(a[..]))
  {
    var i := 1;
    while i < a.Length
      invariant multiset(a[..]) == multiset(old(a[..]))
    {
      var j := i;
      while j > 0 && Compare(a[j - 1], a[j], spec) > 0
        invariant 0 <= j <= i < a.Length
        invariant multiset(a[..]) == multiset(old(a[..]))
      {
        a[j - 1], a[j] := a[j], a[j - 1];
        j := j - 1;
      }
      i := i + 1;
    }
  }

  /** Lines 80-94: each filter in turn narrows the list. */
  method FilterAll(data: seq<Record>, fs: seq<FieldFilter>) returns (r: seq<Record>)
    ensures r == ApplyFilters(data, fs)
  {
    r := data;
    for i := 0 to |fs|
      invariant r == ApplyFilters(data, fs[..i])
    {
      assert fs[..i + 1][..i] == fs[..i];
      r := Lists.Filter(r, Keeper(fs[i]));
    }
    assert fs[..|fs|] == fs;
  }

  /** Lines 97-112: sort a copy of the list in an array. */
  method SortedCopy(data: seq<Record>, spec: SortSpec) returns (r: seq<Record>)
    ensures multiset(r) == multiset(data)
  {
    var a := new Record[|data|](k requires 0 <= k < |data| => data[k]);
    assert a[..] == data;
    SortInPlace(a, spec);
    r := a[..];
  }

  /** Lines 69-112: search, filters, sort; the result is a reordering of the selection. */
  method SelectAndSort(rows: seq<Record>, params: Option<SearchParams>) returns (ordered: seq<Record>)
    ensures multiset(ordered) == multiset(Selected(rows, params))
    ensures |ordered| == |Selected(rows, params)|
    ensures params.None? || params.value.sort.None? ==> ordered == Selected(rows, params)
  {
    ordered := rows;
    if params.Some? {
      var p := params.value;
      ordered := Searched(ordered, p.query);
      if p.filters.Some? && |p.filters.value| > 0 {
        ordered := FilterAll(ordered, p.filters.value);
      }
      if p.sort.Some? {
        ordered := SortedCopy(ordered, p.sort.value);
      }
    }
    assert |multiset(ordered)| == |multiset(Selected(rows, params))|;
  }

  // ------------------------------------------------------------------ pagination

  /** `params?.pagination?.page || 1` */
  function PageOf(params: Option<SearchParams>): (p: int)
    ensures p != 0
    ensures (params.Some? && params.value.pagination.Some? && params.value.pagination.value.page.Some? &&
             params.value.pagination.value.page.value != 0) ==> p == params.value.pagination.value.page.value
  {
    if params.Some? && params.value.pagination.Some? && params.value.pagination.value.page.Some? &&
       params.value.pagination.value.page.value != 0
    then params.value.pagination.value.page.value
    else 1
  }

  /** `params?.pagination?.pageSize || 10` */
  function PageSizeOf(params: Option<SearchParams>): (s: int)
    ensures s != 0
    ensures (params.Some? && params.value.pagination.Some? && params.value.pagination.value.pageSize.Some? &&
             params.value.pagination.value.pageSize.value != 0) ==> s == params.value.pagination.value.pageSize.value
  {
    if params.Some? && params.value.pagination.Some? && params.value.pagination.value.pageSize.Some? &&
       params.value.pagination.value.pageSize.value != 0
    then params.value.pagination.value.pageSize.value
    else 10
  }

  /** `Math.ceil(a / b)` for a row count `a`. */
  function CeilDiv(a: nat, b: int): (q: int)
    requires b != 0
    ensures b > 0 ==> (q - 1) * b < a <= q * b
    ensures b < 0 ==> q * b <= a < (q - 1) * b
  {
    if b > 0 then
      var q := (a + b - 1) / b;
      assert a + b - 1 == q * b + (a + b - 1) % b;
      q
    else
      var q := -(a / -b);
      assert a == (a / -b) * -b + a % -b;
      q
  }

  /** Where `slice` starts or stops: a negative index counts from the end, and both are clipped to the list. */
  function ClampIndex(i: int, len: nat): (k: nat)
    ensures k <= len
  {
    if i < 0 then (if len + i < 0 then 0 else len + i)
    else if i > len then len
    else i
  }

  /** `xs.slice(begin, end)` */
  function JsSlice<T>(xs: seq<T>, begin: int, end: int): seq<T> {
    var b := ClampIndex(begin, |xs|);
    var e := ClampIndex(end, |xs|);
    if b < e then xs[b..e] else []
  }

  /** The page of lines 119-120: `(page - 1) * pageSize` onwards, `pageSize` long. */
  function PageSlice<T>(xs: seq<T>, page: int, pageSize: int): seq<T> {
    JsSlice(xs, (page - 1) * pageSize, (page - 1) * pageSize + pageSize)
  }

  /** A page never holds more than `pageSize` rows, whatever the page number. */
  lemma PageSliceBound<T>(xs: seq<T>, page: int, pageSize: int)
    requires pageSize > 0
    ensures |PageSlice(xs, page, pageSize)| <= pageSize
    ensures |PageSlice(xs, page, pageSize)| <= |xs|
  {
  }

  /** A page holds only rows of the list it is cut from. */
  lemma PageSliceMembers<T>(xs: seq<T>, page: int, pageSize: int)
    ensures forall x :: x in PageSlice(xs, page, pageSize) ==> x in xs
  {
  }

  /** For a page from 1 on, the page is the contiguous run of rows from its start index. */
  lemma PageSliceContents<T>(xs: seq<T>, page: int, pageSize: int)
    requires page >= 1 && pageSize >= 1
    ensures var start := (page - 1) * pageSize;
      PageSlice(xs, page, pageSize) ==
        if start >= |xs| then [] else if start + pageSize >= |xs| then xs[start..] else xs[start..start + pageSize]
  {
    var start := (page - 1) * pageSize;
    assert start >= 0 by { assert page - 1 >= 0; }
  }

  /** Row `k` is the row `k % pageSize` of page `k / pageSize + 1`, and that page exists. */
  lemma RowOnItsPage<T>(xs: seq<T>, pageSize: int, k: int)
    requires pageSize >= 1 && 0 <= k < |xs|
    ensures var page := k / pageSize + 1;
      1 <= page <= CeilDiv(|xs|, pageSize) &&
      k % pageSize < |PageSlice(xs, page, pageSize)| &&
      PageSlice(xs, page, pageSize)[k % pageSize] == xs[k]
  {
    var page := k / pageSize + 1;
    var start := (page - 1) * pageSize;
    assert k == start + k % pageSize;
    PageSliceContents(xs, page, pageSize);
    var q := CeilDiv(|xs|, pageSize);
    assert (page - 1) * pageSize < q * pageSize;
    MulLessCancel(page - 1, q, pageSize);
  }

  lemma MulLessCancel(a: int, b: int, c: int)
    requires c > 0 && a * c < b * c
    ensures a < b
  {
    assert (b - a) * c == b * c - a * c;
  }

  // ------------------------------------------------------------------ parameter rewriting

  function Either<T>(a: Option<T>, b: Option<T>): Option<T> {
    if a.Some? then a else b
  }

  /** `{...prev, ...params, pagination}`: the keys `params` has win over `prev`. */
  function MergeParams(prev: SearchParams, params: Option<SearchParams>, info: PageInfo): (r: SearchParams)
    ensures r.pagination == Some(info)
    ensures params.None? ==> r.query == prev.query && r.filters == prev.filters && r.sort == prev.sort
    ensures params.Some? ==> (r.query == Either(params.value.query, prev.query) &&
      r.filters == Either(params.value.filters, prev.filters) && r.sort == Either(params.value.sort, prev.sort))
  {
    if params.None? then prev.(pagination := Some(info))
    else SearchParams(
      Either(params.value.query, prev.query),
      Either(params.value.filters, prev.filters),
      Either(params.value.sort, prev.sort),
      Some(info))
  }

  /** `{...pagination!, page}`; spreading an absent pagination gives only the page. */
  function WithPage(p: Option<PageInfo>, page: int): (r: PageInfo)
    ensures r.page == Some(page)
    ensures p.Some? ==> r.pageSize == p.value.pageSize && r.total == p.value.total && r.totalPages == p.value.totalPages
    ensures p.None? ==> r.pageSize == None
  {
    if p.Some? then p.value.(page := Some(page)) else PageInfo(Some(page), None, None, None)
  }

  /** The pagination written back after a fetch. */
  function FetchedPage(params: Option<SearchParams>, total: nat): PageInfo {
    PageInfo(Some(PageOf(params)), Some(PageSizeOf(params)), Some(total), Some(CeilDiv(total, PageSizeOf(params))))
  }

  // ------------------------------------------------------------------ created invoices

  /** The generated fields of a new invoice; the clock values are parameters. */
  function Generated(nowMillis: nat, year: int, isoNow: string): (g: Record)
    ensures g.Keys == {"id", "invoice_number", "created_by", "created_at", "updated_at"}
    ensures g["id"] == Str("sales-" + NatToString(nowMillis)) && g["created_by"] == Str("user-001")
  {
    map["id" := Str("sales-" + NatToString(nowMillis)),
        "invoice_number" := Str("INV-" + IntToString(year) + "-" + TakeLast(NatToString(nowMillis), 6)),
        "created_by" := Str("user-001"),
        "created_at" := Str(isoNow),
        "updated_at" := Str(isoNow)]
  }

  /** Lines 150-157: the generated fields first, then every field of `data` on top. */
  function NewInvoice(data: Record, nowMillis: nat, year: int, isoNow: string): (r: Record)
    ensures r.Keys == data.Keys + {"id", "invoice_number", "created_by", "created_at", "updated_at"}
    ensures forall k :: k in data ==> r[k] == data[k]
    ensures "id" !in data ==> r["id"] == Str("sales-" + NatToString(nowMillis))
    ensures "created_by" !in data ==> r["created_by"] == Str("user-001")
  {
    Merge(Generated(nowMillis, year, isoNow), data)
  }

  /** Lines 178-181: the caller's fields with `updated_at` stamped over them. */
  function Stamped(data: Record, isoNow: string): (r: Record)
    ensures r.Keys == data.Keys + {"updated_at"}
    ensures r["updated_at"] == Str(isoNow)
    ensures forall k :: k in data && k != "updated_at" ==> r[k] == data[k]
  {
    Merge(data, map["updated_at" := Str(isoNow)])
  }

  /** The single row of the built-in sample list the fetch reads from. */
  const MockSalesInvoices: seq<Record> := [
    map["id" := Str("sales-001"),
        "invoice_number" := Str("INV-2024-001"),
        "customer_name" := Str("(주)테크솔루션"),
        "customer_business_number" := Str("123-45-67890"),
        "customer_address" := Str("서울시 강남구 테헤란로 123"),
        "customer_phone" := Str("02-1234-5678"),
        "customer_email" := Str("contact@techsolution.com"),
        "items" := Obj("[object Object]"),
        "subtotal" := Num(1000000),
        "tax_amount" := Num(100000),
        "total_amount" := Num(1100000),
        "status" := Str("pending"),
        "issue_date" := Str("2024-01-15"),
        "due_date" := Str("2024-02-15"),
        "nts_status" := Str("pending"),
        "created_by" := Str("user-001"),
        "created_at" := Str("2024-01-15T09:00:00Z"),
        "updated_at" := Str("2024-01-15T09:00:00Z")]
  ]

  // ------------------------------------------------------------------ the hook

  class SalesInvoicesHook {
    /** The shared application store. */
    const store: AppStore.Store
    /** The rows every fetch starts from. */
    const rows: seq<Record>
    var searchParams: SearchParams

    constructor (store: AppStore.Store)
      ensures this.store == store && rows == MockSalesInvoices && searchParams == InitialParams
    {
      this.store := store;
      rows := MockSalesInvoices;
      searchParams := InitialParams;
    }

    /**
     * Lines 60-140: search, filter, sort, then store the requested page and
     * write the page numbers back into the parameters. `ordered` is the
     * sorted selection the page is cut from.
     */
    method Fetch(params: Option<SearchParams>) returns (ordered: seq<Record>)
      modifies this, store
      ensures multiset(ordered) == multiset(Selected(rows, params))
      ensures params.None? || params.value.sort.None? ==> ordered == Selected(rows, params)
      ensures store.salesInvoices == PageSlice(ordered, PageOf(params), PageSizeOf(params))
      ensures forall x :: x in store.salesInvoices ==> x in Selected(rows, params)
      ensures store.Snapshot() == old(store.Snapshot()).(
        salesInvoices := store.salesInvoices, salesLoading := false, salesError := None)
      ensures searchParams == MergeParams(old(searchParams), params, FetchedPage(params, |ordered|))
    {
      store.SetSalesLoading(true);
      store.SetSalesError(None);
      ordered := SelectAndSort(rows, params);
      var page := PageOf(params);
      var pageSize := PageSizeOf(params);
      var total := |ordered|;
      var totalPages := CeilDiv(total, pageSize);
      store.SetSalesInvoices(PageSlice(ordered, page, pageSize));
      PageSliceMembers(ordered, page, pageSize);
      assert forall x :: x in ordered ==> x in multiset(ordered);
      searchParams := MergeParams(searchParams, params, PageInfo(Some(page), Some(pageSize), Some(total), Some(totalPages)));
      store.SetSalesLoading(false);
    }

    /**
     * Lines 250-252: the first fetch, with the current parameters. The store
     * gets the requested page of the selection, and the parameters get the
     * page numbers of that fetch.
     */
    method Mount() returns (ordered: seq<Record>)
      modifies this, store
      ensures multiset(ordered) == multiset(Selected(rows, Some(old(searchParams))))
      ensures store.salesInvoices == PageSlice(ordered, PageOf(Some(old(searchParams))), PageSizeOf(Some(old(searchParams))))
      ensures store.Snapshot() == old(store.Snapshot()).(
        salesInvoices := store.salesInvoices, salesLoading := false, salesError := None)
      ensures searchParams == old(searchParams).(pagination := Some(FetchedPage(Some(old(searchParams)), |ordered|)))
    {
      ordered := Fetch(Some(searchParams));
    }

    /** Lines 142-168: add the new invoice at the end of the store's list and return it. */
    method CreateSalesInvoice(data: Record, nowMillis: nat, year: int, isoNow: string) returns (invoice: Record)
      modifies store
      ensures invoice == NewInvoice(data, nowMillis, year, isoNow)
      ensures store.Snapshot() == old(store.Snapshot()).(
        salesInvoices := old(store.salesInvoices) + [invoice], salesLoading := false, salesError := None)
    {
      store.SetSalesLoading(true);
      store.SetSalesError(None);
      invoice := NewInvoice(data, nowMillis, year, isoNow);
      store.AddSalesInvoice(invoice);
      store.SetSalesLoading(false);
    }

    /** Lines 170-192: merge the stamped fields into the invoices with that id. */
    method UpdateSalesInvoiceById(id: string, data: Record, isoNow: string) returns (updated: Record)
      modifies store
      ensures updated == Stamped(data, isoNow)
      ensures store.Snapshot() == old(store.Snapshot()).(
        salesInvoices := UpdateById(old(store.salesInvoices), id, updated), salesLoading := false, salesError := None)
    {
      store.SetSalesLoading(true);
      store.SetSalesError(None);
      updated := Stamped(data, isoNow);
      store.UpdateSalesInvoice(id, updated);
      store.SetSalesLoading(false);
    }

    /** Lines 194-209: drop the invoices with that id from the store's list. */
    method DeleteSalesInvoiceById(id: string)
      modifies store
      ensures store.Snapshot() == old(store.Snapshot()).(
        salesInvoices := DeleteById(old(store.salesInvoices), id), salesLoading := false, salesError := None)
    {
      store.SetSalesLoading(true);
      store.SetSalesError(None);
      store.DeleteSalesInvoice(id);
      store.SetSalesLoading(false);
    }

    /**
     * Lines 211-219: a new query sends the list back to page 1, keeping
     * filters, sort and page size. The store gets page 1 of the rows the new
     * query selects, and nothing else in the store changes.
     */
    method SearchSalesInvoices(query: string) returns (ordered: seq<Record>)
      modifies this, store
      ensures multiset(ordered) == multiset(Selected(rows, Some(old(searchParams).(query := Some(query)))))
      ensures store.salesInvoices == PageSlice(ordered, 1, PageSizeOf(Some(old(searchParams))))
      ensures store.Snapshot() == old(store.Snapshot()).(
        salesInvoices := store.salesInvoices, salesLoading := false, salesError := None)
      ensures var size := PageSizeOf(Some(old(searchParams)));
        searchParams == old(searchParams).(query := Some(query),
          pagination := Some(PageInfo(Some(1), Some(size), Some(|ordered|), Some(CeilDiv(|ordered|, size)))))
      ensures forall x :: x in store.salesInvoices ==>
        x in rows && (query != "" ==> SearchMatches(x, query)) && KeepsAll(FiltersOf(old(searchParams)), x)
    {
      var newParams := searchParams.(query := Some(query), pagination := Some(WithPage(searchParams.pagination, 1)));
      searchParams := newParams;
      ordered := Fetch(Some(newParams));
      forall x | x in store.salesInvoices
        ensures x in rows && (query != "" ==> SearchMatches(x, query)) && KeepsAll(FiltersOf(old(searchParams)), x)
      {
        SelectedMembership(rows, newParams, x);
      }
    }

    /**
     * Lines 221-229: new filters send the list back to page 1, keeping query,
     * sort and page size; the store gets page 1 of the newly selected rows.
     */
    method FilterSalesInvoices(filters: seq<FieldFilter>) returns (ordered: seq<Record>)
      modifies this, store
      ensures multiset(ordered) == multiset(Selected(rows, Some(old(searchParams).(filters := Some(filters)))))
      ensures store.salesInvoices == PageSlice(ordered, 1, PageSizeOf(Some(old(searchParams))))
      ensures store.Snapshot() == old(store.Snapshot()).(
        salesInvoices := store.salesInvoices, salesLoading := false, salesError := None)
      ensures var size := PageSizeOf(Some(old(searchParams)));
        searchParams == old(searchParams).(filters := Some(filters),
          pagination := Some(PageInfo(Some(1), Some(size), Some(|ordered|), Some(CeilDiv(|ordered|, size)))))
      ensures forall x :: x in store.salesInvoices ==> x in rows && KeepsAll(filters, x)
    {
      var newParams := searchParams.(filters := Some(filters), pagination := Some(WithPage(searchParams.pagination, 1)));
      searchParams := newParams;
      ordered := Fetch(Some(newParams));
      forall x | x in store.salesInvoices
        ensures x in rows && KeepsAll(filters, x)
      {
        SelectedMembership(rows, newParams, x);
      }
    }

    /**
     * Lines 231-238: a new sort keeps the current page (read as `page || 1`)
     * and the selection; the store gets that page of the re-sorted rows.
     */
    method SortSalesInvoices(sort: SortSpec) returns (ordered: seq<Record>)
      modifies this, store
      ensures multiset(ordered) == multiset(Selected(rows, Some(old(searchParams))))
      ensures store.salesInvoices == PageSlice(ordered, PageOf(Some(old(searchParams))), PageSizeOf(Some(old(searchParams))))
      ensures store.Snapshot() == old(store.Snapshot()).(
        salesInvoices := store.salesInvoices, salesLoading := false, salesError := None)
      ensures searchParams == old(searchParams).(sort := Some(sort),
        pagination := Some(FetchedPage(Some(old(searchParams)), |ordered|)))
      ensures forall x :: x in store.salesInvoices ==> x in Selected(rows, Some(old(searchParams)))
    {
      var newParams := searchParams.(sort := Some(sort));
      searchParams := newParams;
      ordered := Fetch(Some(newParams));
      assert Selected(rows, Some(newParams)) == Selected(rows, Some(old(searchParams)));
    }

    /**
     * Lines 240-247: move to the given page (0 reads as 1), keeping query,
     * filters, sort and page size; the store gets that page of the selection.
     */
    method ChangePage(page: int) returns (ordered: seq<Record>)
      modifies this, store
      ensures multiset(ordered) == multiset(Selected(rows, Some(old(searchParams))))
      ensures var shown := if page != 0 then page else 1;
        store.salesInvoices == PageSlice(ordered, shown, PageSizeOf(Some(old(searchParams))))
      ensures store.Snapshot() == old(store.Snapshot()).(
        salesInvoices := store.salesInvoices, salesLoading := false, salesError := None)
      ensures var shown := if page != 0 then page else 1;
        var size := PageSizeOf(Some(old(searchParams)));
        searchParams == old(searchParams).(
          pagination := Some(PageInfo(Some(shown), Some(size), Some(|ordered|), Some(CeilDiv(|ordered|, size)))))
      ensures forall x :: x in store.salesInvoices ==> x in Selected(rows, Some(old(searchParams)))
    {
      var newParams := searchParams.(pagination := Some(WithPage(searchParams.pagination, page)));
      searchParams := newParams;
      ordered := Fetch(Some(newParams));
      assert Selected(rows, Some(newParams)) == Selected(rows, Some(old(searchParams)));
    }
  }
}
