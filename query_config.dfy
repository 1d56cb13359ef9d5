/**
 * The decision rules of the query client configuration in
 * `src/lib/react-query.ts`: when a failed query is retried, how long the
 * back-off waits, which page an infinite list asks for next, and the
 * hierarchical cache keys whose prefixes drive invalidation.
 */
module QueryConfig {
  import opened Wrappers
  import opened Records

  // ------------------------------------------------------------------ retry

  /** Lines 8-13: never after a 401, otherwise while fewer than three failures. */
  predicate DefaultRetry(failureCount: nat, status: Option<int>) {
    if status == Some(401) then false else failureCount < 3
  }

  /** Lines 183-188: the same, but a 403 is not retried either. */
  predicate ConfigRetry(failureCount: nat, status: Option<int>) {
    if status == Some(401) || status == Some(403) then false else failureCount < 3
  }

  /** At most three retries, whatever the error, and none for an authentication failure. */
  lemma RetryBounded(failureCount: nat, status: Option<int>)
    ensures failureCount >= 3 ==> !DefaultRetry(failureCount, status) && !ConfigRetry(failureCount, status)
    ensures status == Some(401) ==> !DefaultRetry(failureCount, status) && !ConfigRetry(failureCount, status)
    ensures failureCount < 3 && status != Some(401) ==> DefaultRetry(failureCount, status)
  {
  }

  /** The exported retry rule is the default one minus the 403 case. */
  lemma ConfigRetryIsDefaultWithout403(failureCount: nat, status: Option<int>)
    ensures ConfigRetry(failureCount, status) <==> DefaultRetry(failureCount, status) && status != Some(403)
  {
  }

  // ------------------------------------------------------------------ back-off

  function Pow2(n: nat): (r: nat)
    ensures r >= 1
  {
    if n == 0 then 1 else 2 * Pow2(n - 1)
  }

  lemma {:induction false} Pow2Monotone(m: nat, n: nat)
    requires m <= n
    ensures Pow2(m) <= Pow2(n)
    decreases n
  {
    if m < n { Pow2Monotone(m, n - 1); }
  }

  /** Lines 14 and 189: `Math.min(1000 * 2 ** attemptIndex, 30000)` milliseconds. */
  function RetryDelay(attemptIndex: nat): (ms: nat)
    ensures 1000 <= ms <= 30000
  {
    if 1000 * Pow2(attemptIndex) < 30000 then 1000 * Pow2(attemptIndex) else 30000
  }

  /** The first retry waits one second; the wait never shrinks; from the sixth attempt on it is the 30 s cap. */
  lemma RetryDelayShape(m: nat, n: nat)
    ensures RetryDelay(0) == 1000
    ensures m <= n ==> RetryDelay(m) <= RetryDelay(n)
    ensures n >= 5 ==> RetryDelay(n) == 30000
  {
    if m <= n { Pow2Monotone(m, n); }
    if n >= 5 {
      Pow2Monotone(5, n);
      assert Pow2(5) == 32;
    }
  }

  /** Below the cap each retry waits exactly twice as long as the one before. */
  lemma RetryDelayDoubles(n: nat)
    requires n < 4
    ensures RetryDelay(n + 1) == 2 * RetryDelay(n)
  {
    Pow2Monotone(n + 1, 4);
    assert Pow2(4) == 16;
  }

  // ------------------------------------------------------------------ infinite lists

  /** Lines 194-198: the next page while rows remain beyond this one. */
  function NextPageParam(page: int, pageSize: int, total: int): (r: Option<int>)
    ensures r.Some? <==> page * pageSize < total
    ensures r.Some? ==> r.value == page + 1
  {
    if page * pageSize < total then Some(page + 1) else None
  }

  /** Lines 199-201: the previous page, down to page 1. */
  function PreviousPageParam(page: int): (r: Option<int>)
    ensures r.Some? <==> page > 1
    ensures r.Some? ==> r.value == page - 1
  {
    if page > 1 then Some(page - 1) else None
  }

  /** Going forward from a page of at least 1 and back again returns to it. */
  lemma NextThenPrevious(page: int, pageSize: int, total: int)
    requires page >= 1 && NextPageParam(page, pageSize, total).Some?
    ensures PreviousPageParam(NextPageParam(page, pageSize, total).value) == Some(page)
  {
  }

  lemma MulMonotone(a: int, b: int, c: int)
    requires a <= b && c >= 0
    ensures a * c <= b * c
  {
    assert b * c - a * c == (b - a) * c;
  }

  /**
   * With a positive page size, a next page exists exactly while `page` is
   * below the page count `ceil(total / pageSize)`: scrolling stops on the
   * last page.
   */
  lemma NextPageUntilLast(page: int, pageSize: int, total: nat, pageCount: int)
    requires pageSize > 0
    requires (pageCount - 1) * pageSize < total <= pageCount * pageSize
    ensures NextPageParam(page, pageSize, total).Some? <==> page < pageCount
  {
    if page < pageCount {
      MulMonotone(page, pageCount - 1, pageSize);
    } else {
      MulMonotone(pageCount, page, pageSize);
    }
  }

  // ------------------------------------------------------------------ cache keys

  /** A key element: a string or any value; `None` is `undefined`. */
  type KeyPart = Option<Value>

  type QueryKey = seq<KeyPart>

  function K(s: string): KeyPart { Some(Str(s)) }

  datatype Entity = Sales | Purchase | Inventory | Customers | Suppliers

  function EntityName(e: Entity): string {
    match e
    case Sales => "sales"
    case Purchase => "purchase"
    case Inventory => "inventory"
    case Customers => "customers"
    case Suppliers => "suppliers"
  }

  /** Lines 38-39 */
  const AuthUserKey: QueryKey := [K("auth"), K("user")]
  const AuthSessionKey: QueryKey := [K("auth"), K("session")]

  /** `all` */
  function AllKey(e: Entity): QueryKey { [K(EntityName(e))] }

  /** `lists()` */
  function ListsKey(e: Entity): QueryKey { AllKey(e) + [K("list")] }

  /** `list(filters)` */
  function ListKey(e: Entity, filters: KeyPart): QueryKey { ListsKey(e) + [filters] }

  /** `details()` */
  function DetailsKey(e: Entity): QueryKey { AllKey(e) + [K("detail")] }

  /** `detail(id)` */
  function DetailKey(e: Entity, id: string): QueryKey { DetailsKey(e) + [K(id)] }

  /** Sales and purchase stats carry the date range; inventory stats carry none; the others have no stats key. */
  predicate HasStats(e: Entity) { e == Sales || e == Purchase || e == Inventory }

  function StatsKey(e: Entity, dateFrom: Option<string>, dateTo: Option<string>): QueryKey
    requires HasStats(e)
  {
    if e == Inventory then AllKey(e) + [K("stats")]
    else AllKey(e) + [K("stats"), if dateFrom.Some? then K(dateFrom.value) else None,
                                  if dateTo.Some? then K(dateTo.value) else None]
  }

  predicate IsPrefix(a: QueryKey, b: QueryKey) {
    |a| <= |b| && b[..|a|] == a
  }

  /** Every key of an entity lies under its `all` key, and each `list`/`detail` key under its `lists()`/`details()` key. */
  lemma KeysNested(e: Entity, filters: KeyPart, id: string, dateFrom: Option<string>, dateTo: Option<string>)
    ensures IsPrefix(AllKey(e), ListsKey(e)) && IsPrefix(AllKey(e), ListKey(e, filters))
    ensures IsPrefix(AllKey(e), DetailsKey(e)) && IsPrefix(AllKey(e), DetailKey(e, id))
    ensures HasStats(e) ==> IsPrefix(AllKey(e), StatsKey(e, dateFrom, dateTo))
    ensures IsPrefix(ListsKey(e), ListKey(e, filters)) && IsPrefix(DetailsKey(e), DetailKey(e, id))
  {
  }

  /** Invalidating one entity never reaches another entity's keys. */
  lemma EntitiesSeparate(e1: Entity, e2: Entity, filters: KeyPart, id: string)
    requires e1 != e2
    ensures !IsPrefix(AllKey(e1), ListKey(e2, filters)) && !IsPrefix(AllKey(e1), DetailKey(e2, id))
  {
    assert ListKey(e2, filters)[0] == K(EntityName(e2));
    assert DetailKey(e2, id)[0] == K(EntityName(e2));
  }

  /** Invalidating the lists of an entity never reaches its detail keys, and the other way round. */
  lemma ListsAndDetailsSeparate(e: Entity, filters: KeyPart, id: string)
    ensures !IsPrefix(ListsKey(e), DetailKey(e, id)) && !IsPrefix(DetailsKey(e), ListKey(e, filters))
  {
    assert DetailKey(e, id)[1] == K("detail");
    assert ListKey(e, filters)[1] == K("list");
  }
}
