# ERP business rules in Dafny

A model of the business rules underneath a React/Supabase ERP front end for Korean sales and purchase tax invoices. It covers:

- **Invoice API** (`InvoiceApi`, `invoice_api.dfy`)
  - invoice amounts: line totals, subtotal, 10 % VAT rounded half up, grand total;
  - the rows written on create and update;
  - the draft-only delete;
  - the per-month invoice number `S`/`P` + `YYYYMM` + four digits;
  - the requested row range of a list page;
  - the statistics fold.
- **Utilities** (`Utils`, `Text`, `TypeGuards`)
  - the business-registration-number checksum, the tax helper, the class-name joiner and the short invoice number format;
  - the format type guards for invoice status, business number, mobile phone number and e-mail address.
- **Inventory** (`Inventory`): stock classification, the low-stock icon and the inventory screen filter.
- **Application store** (`AppStore`): one `Store` class holding the sales, purchase and inventory lists, their loading/error flags, the user and the sidebar flag.
- **Sales invoice hook** (`SalesHook`)
  - the search / filter / sort / paginate pipeline, which writes a page into the store;
  - the actions that rewrite the search parameters.
- **Management screens** (`InvoiceScreens`): the sales and purchase screens, with their visible-list filter and the create / update / delete / view / edit handlers on component state.
- **UI components**
  - the table (`Table`): sort toggling, selection lists and header checkbox flags;
  - the pagination window (`Pagination`): visible pages, shortcuts and ellipses, previous/next buttons.
- **Configuration and guards**
  - the query client configuration (`QueryConfig`): retry rules, back-off delay, infinite-list page cursors and the cache-key hierarchy;
  - the role lattice and the `withAuth` render decision (`Auth`);
  - error classification (`Errors`).

JavaScript objects are `Records.Record = map<string, Value>`, where an absent key is `undefined` and a spread `{...a, ...b}` is `Records.Merge`. Amounts are whole Won, modelled as integers. `Math.round(x * 0.1)` on an integer is `(x + 5) / 10`.

The database, the clock, the random generator and the `confirm` dialog are parameters:

- the greatest existing invoice number of the month;
- the stored status of an invoice;
- the statistics rows;
- `Date.now()` and ISO timestamps;
- `Math.random()`;
- the user's answer to the confirmation.

Code that changes state step by step is imperative Dafny:

- the store;
- the hook;
- the screens;
- the table's sort state;
- the checksum loop;
- the update payload builder;
- the statistics fold;
- the in-place sort.

Each class has a `Snapshot()` function returning all its fields, so every method states its whole new state as `old(Snapshot())` with the changed fields replaced.

## Model

| member | source | states |
|---|---|---|
| InvoiceApi.Subtotal | src/lib/api/sales.ts:132-135 | The left-fold `reduce` of quantity × unit price is non-negative when every quantity and price is |
| InvoiceApi.SubtotalIsSum | src/lib/api/sales.ts:132-135 | The left fold equals the right-fold sum of the line totals, so grouping does not matter |
| InvoiceApi.SubtotalAppend | src/lib/api/purchase.ts:132-135 | The subtotal of two item lists put together is the sum of their subtotals |
| InvoiceApi.ComputeAmounts | src/lib/api/sales.ts:132-137 | The subtotal is the sum of the line totals; the tax is the integer nearest to a tenth of it, halves rounded up; the total is subtotal plus tax with no second rounding |
| InvoiceApi.NoItemsNoAmounts | src/lib/api/purchase.ts:132-137 | An empty item list gives 0 / 0 / 0 |
| InvoiceApi.TaxExample | src/lib/api/sales.ts:132-137 | 1,800,000 Won of items give 180,000 Won tax and 1,980,000 Won in total |
| InvoiceApi.StoredItems | src/lib/api/sales.ts:163-169 | One stored item row per input item, with the invoice id, the same name, quantity and price, and total_price = quantity × unit_price |
| InvoiceApi.SubtotalMatchesStoredItems | src/lib/api/purchase.ts:163-169 | The invoice subtotal equals the sum of the total_price column of its stored items |
| InvoiceApi.SumTotalPricesIsSum | src/lib/api/sales.ts:163-169 | The stored total_price column sums to the sum of the line totals |
| InvoiceApi.InsertRow | src/lib/api/sales.ts:143-156 | The inserted row has exactly the keys invoice_number, the party id, issue_date, due_date, the three amounts, status, created_by, and notes only when given; status is 'draft', the number, party, dates, creator and notes are the given ones, and the amounts follow the rule above |
| InvoiceApi.BuildUpdateData | src/lib/api/sales.ts:191-209 | Party and dates are copied exactly when truthy, notes exactly when defined, and the three amounts are recomputed exactly when `items` is supplied; no other field is written |
| InvoiceApi.AmountsKeptWithoutItems | src/lib/api/purchase.ts:199-209 | An update whose payload has no amounts leaves the stored subtotal, tax and total as they were |
| InvoiceApi.DeleteInvoice | src/lib/api/sales.ts:253-286 | A failed status lookup is an error. The delete succeeds iff the stored status is 'draft'; otherwise it fails with the fixed message and deletes nothing. On success the result is exactly the invoices without that id and the items of other invoices, each in their original order, so no row of that id remains, every other row is kept and nothing is added |
| InvoiceApi.GenerateInvoiceNumber | src/lib/api/sales.ts:311-334 | The number is the month prefix followed by the zero-padded next sequence read from the greatest existing number |
| InvoiceApi.MonthPrefixLength | src/lib/api/sales.ts:312-315 | For a four-digit year the prefix is seven characters and starts with S or P |
| InvoiceApi.FourDigitSuffix | src/lib/api/sales.ts:333 | A sequence from 1 to 9999 is written as exactly four digits that read back as itself |
| InvoiceApi.FirstNumberOfMonth | src/lib/api/purchase.ts:327-333 | With no invoice in the month the number ends in 0001 |
| InvoiceApi.NumberRoundTrip | src/lib/api/sales.ts:327-333 | For a previous sequence up to 9998 the new number has 11 characters, the same prefix, and four digits reading back as previous + 1 |
| InvoiceApi.NumberReadsBack | src/lib/api/purchase.ts:327-333 | The next call parses the new number back and continues with previous + 2 |
| InvoiceApi.NextSequenceOfDigits | src/lib/api/sales.ts:328-331 | `parseInt` of the last four digits, plus one, is the previous sequence + 1 |
| InvoiceApi.ExhaustedSequenceRepeats | src/lib/api/sales.ts:318-333 | As written: when the month's numbers are …9999 and earlier ones, the next number is …10000, which sorts below …9999; once it is stored, …9999 is still stored and no stored number sorts above it, so the greatest-number query returns …9999 again and the next call issues …10000 a second time |
| InvoiceApi.TenThousandSortsBelow | src/lib/api/sales.ts:327-333 | The step after …9999 is the five-digit …10000, which sorts below …9999 |
| InvoiceApi.TenThousandWritten | src/lib/api/sales.ts:333 | `padStart(4, '0')` leaves "10000" at five characters |
| InvoiceApi.NextInvoiceNumber | src/lib/api/sales.ts:311-334 | Corrected numbering: when it succeeds it is the source's number. It fails on an unreadable sequence and, at sequence 9999, with SequenceExhausted |
| InvoiceApi.CheckedFirstNumber | src/lib/api/purchase.ts:327-333 | The corrected numbering starts a month at 0001 |
| InvoiceApi.CheckedNumberIncreases | src/lib/api/sales.ts:327-333 | After a well-formed previous number, the corrected numbering succeeds iff the sequence is at most 9998. It then gives an 11-character number of the same month that sorts strictly above the previous one |
| InvoiceApi.CheckedNumberIsFresh | src/lib/api/sales.ts:318-333 | When the previous number is the greatest of the month, the corrected number differs from every existing one |
| InvoiceApi.CreateInvoiceRows | src/lib/api/sales.ts:132-169 | Create succeeds iff numbering succeeds; the row carries that number and status 'draft', with one item row per item and total prices summing to the subtotal |
| InvoiceApi.ComputeStats | src/lib/api/sales.ts:364-386 | The one-pass accumulator gives the total, the row count, the paid and pending sums, and the status counts. Paid plus pending is the total. A status is counted iff it occurs, and its count is its number of rows |
| InvoiceApi.PaidPlusPending | src/lib/api/purchase.ts:364-386 | Every row is counted in exactly one of paid and pending |
| InvoiceApi.StatusCountsAreCounts | src/lib/api/sales.ts:375 | The count map holds exactly the occurring statuses, each with its number of rows |
| InvoiceApi.SumOverRemove | src/lib/api/sales.ts:375 | The sum of the counts does not depend on which key it takes first |
| InvoiceApi.SumValuesIncrement | src/lib/api/sales.ts:375 | One more row adds one to the sum of the counts |
| InvoiceApi.StatusCountsSum | src/lib/api/purchase.ts:364-386 | The status counts add up to totalCount, the number of rows |
| InvoiceApi.PageRange | src/lib/api/sales.ts:84-85 | The requested inclusive range spans exactly pageSize rows (10 by default) and starts at row 0 for page 1 or no page |
| InvoiceApi.PagesAdjacent | src/lib/api/purchase.ts:84-85 | Page p + 1 starts right after page p ends |
| InvoiceApi.PagesDisjoint | src/lib/api/purchase.ts:84-85 | Distinct pages of a positive size request disjoint ranges |
| InvoiceApi.LineTotal | src/lib/api/sales.ts:132-135 | One item contributes quantity times unit price; Subtotal adds these and SubtotalIsSum proves it equals the left-to-right reduce |
| InvoiceApi.MonthPrefix | src/lib/api/sales.ts:312-315 | S or P, the four-digit year and the two-digit month; MonthPrefixLength proves it is seven characters long |
| InvoiceApi.NextSequence | src/lib/api/sales.ts:327-331 | No earlier number gives 1; otherwise the last four characters read as a number, plus one; NextSequenceOfDigits proves this is previous + 1 |
| InvoiceApi.InvoiceNumberFor | src/lib/api/sales.ts:311-334 | The prefix followed by the sequence padded to four digits; GenerateInvoiceNumber is proved to return it, and NumberRoundTrip proves it reads back as the next sequence |
| InvoiceApi.UpdatedRow | src/lib/api/sales.ts:236-242 | The stored row overwritten by the payload and a fresh updated_at; AmountsKeptWithoutItems proves amounts survive an update without items |
| InvoiceApi.SumAmounts | src/lib/api/sales.ts:364-366 | The total of every row total_amount; ComputeStats is proved to return it as totalAmount |
| InvoiceApi.PaidAmount | src/lib/api/sales.ts:368-370 | The total over rows whose status is paid; PaidPlusPending proves paid and pending together equal the total |
| InvoiceApi.PendingAmount | src/lib/api/sales.ts:371-373 | The total over rows whose status is not paid; PaidPlusPending proves paid and pending together equal the total |
| InvoiceApi.StatusCounts | src/lib/api/sales.ts:375-378 | A status-to-count map built row by row; StatusCountsAreCounts proves each entry is that status count, and StatusCountsSum proves the counts add up to the row count |
| InvoiceApi.CountStatus | src/lib/api/sales.ts:375-378 | The independent count of rows with a given status that StatusCountsAreCounts compares StatusCounts against |
| Utils.DigitsOf | src/lib/utils.ts:39 | Stripping non-digits yields only digits and never lengthens the text |
| Utils.DigitsOfAppend | src/lib/utils.ts:39 | Digit stripping distributes over concatenation |
| Utils.ValidateBusinessNumber | src/lib/utils.ts:37-54 | The loop's weighted sum gives exactly IsValidBusinessNumber, and anything without exactly ten digits is rejected |
| Utils.IgnoresNonDigits | src/lib/utils.ts:39 | Inserting any non-digit character anywhere does not change the verdict |
| Utils.ValidWithLast | src/lib/utils.ts:43-53 | A ten-digit number is accepted iff its last digit is (10 − (Σ dᵢ·wᵢ mod 10)) mod 10 over the first nine digits |
| Utils.ExactlyOneCheckDigit | src/lib/utils.ts:50-53 | Every nine-digit prefix is completed by exactly one accepted digit |
| Utils.OnlyCheckDigitAccepted | src/lib/utils.ts:50-53 | An accepted last digit is the check digit |
| Utils.WeightedSumPrefix | src/lib/utils.ts:46-48 | The weighted sum reads only the first n digits |
| Utils.AcceptedExample | src/lib/utils.ts:37-54 | 123-45-67895 is accepted |
| Utils.CalculateTax | src/lib/utils.ts:56-58 | The tax is the integer nearest to a tenth of the amount, halves rounded up |
| Utils.TaxMonotone | src/lib/utils.ts:56-58 | The tax never falls as the amount grows |
| Utils.TruthyClasses | src/lib/utils.ts:72 | Every kept class is a non-empty argument, and every non-empty argument is kept |
| Utils.TruthyClassesOne | src/lib/utils.ts:72 | A single argument is kept iff it is a non-empty string |
| Utils.TruthyClassesAppend | src/lib/utils.ts:72 | The classes kept from two runs of arguments are those kept from the first followed by those kept from the second, so `filter(Boolean)` keeps order and repeats |
| Utils.CnLength | src/lib/utils.ts:71-73 | `cn` is empty iff no argument is truthy; otherwise its length is the kept classes' total length plus one space between each two neighbours |
| Utils.CnExample | src/lib/utils.ts:71-73 | `cn('a', undefined, '', 'b')` is "a b" |
| Utils.YearDigits | src/lib/utils.ts:23 | `getFullYear().toString().slice(-2)` is two digits reading back as the year modulo 100 |
| Utils.DateStampFormat | src/lib/utils.ts:22-28 | The stamp is nine digits, from which the year modulo 100, the month, the day and the random value read back |
| Utils.ShortInvoiceNumberFormat | src/lib/utils.ts:21-29 | The number is the prefix followed by nine digits: the year modulo 100, the month and the day as two digits each, then the random value in 0..999, each reading back |
| Utils.WeightedSum | src/lib/utils.ts:43-48 | The first n digits times the weights 1,3,7,1,3,7,1,3,5, summed; WeightedSumPrefix proves it reads only those n digits |
| Utils.CheckDigit | src/lib/utils.ts:50-51 | A single decimal digit, equal to (10 - sum mod 10) mod 10 |
| Utils.IsValidBusinessNumber | src/lib/utils.ts:37-54 | Ten digits after dropping the rest, the last one the check digit of the other nine; ValidateBusinessNumber is proved to return it, and ExactlyOneCheckDigit proves every nine-digit prefix has exactly one accepted last digit |
| Utils.Cn | src/lib/utils.ts:71-73 | The truthy class names joined by single spaces; CnLength proves it is empty exactly when no argument is truthy and gives its length, CnExample a concrete call |
| Utils.ShortInvoiceNumber | src/lib/utils.ts:21-29 | The prefix followed by the date stamp; ShortInvoiceNumberFormat proves it is the prefix and nine digits that read back as year mod 100, month, day and random value |
| Utils.DateStamp | src/lib/utils.ts:22-28 | Two-digit year, month and day, then a three-digit random part; DateStampFormat proves it is nine digits whose fields read back |
| TypeGuards.InvoiceStatusNames | src/types/index.ts:388-390 | The guard accepts exactly the five status names, and each name belongs to one status |
| TypeGuards.DigitsOfGroups | src/types/index.ts:392-394 | Stripping three digit groups joined by hyphens leaves the groups' digits |
| TypeGuards.BusinessNumberDigits | src/types/index.ts:392-394 | A well-formed business number has exactly its ten group digits, so the length test of validateBusinessNumber passes |
| TypeGuards.FormatDoesNotImplyChecksum | src/types/index.ts:393 | 123-45-67890 is well formed but fails the checksum |
| TypeGuards.PhoneNumberShape | src/types/index.ts:396-398 | An accepted phone number has 12 or 13 characters, and its digits form a 10- or 11-digit number starting 01 |
| TypeGuards.PhoneNumberExamples | src/types/index.ts:396-398 | Mobile numbers pass and a Seoul landline does not |
| TypeGuards.EmailAddressShape | src/types/index.ts:400-402 | Accepted iff there is no whitespace, exactly one `@` not at the start, and a `.` in the domain with text on both sides |
| TypeGuards.EmailExamples | src/types/index.ts:400-402 | A plain address passes; a missing dot, a missing local part or a doubled `@` fails |
| TypeGuards.IsInvoiceStatus | src/types/index.ts:388-390 | InvoiceStatusNames proves it holds exactly for the five status names |
| TypeGuards.IsBusinessNumber | src/types/index.ts:392-394 | Three, two and five digits joined by hyphens; BusinessNumberDigits proves the digits are the three groups, ten in all, and FormatDoesNotImplyChecksum that the format does not imply the checksum |
| TypeGuards.IsPhoneNumber | src/types/index.ts:396-398 | 01, a carrier digit, then groups of 3 or 4 and 4 digits; PhoneNumberShape proves an accepted value has 12 or 13 characters and its digits start with 01, PhoneNumberExamples separates mobile numbers from a landline |
| TypeGuards.IsEmailAddress | src/types/index.ts:400-402 | EmailAddressShape proves it holds exactly when the value has no white space, exactly one @ not at the start, and a dot in the domain with text on both sides |
| Inventory.GetStockStatus | src/components/InventoryManagement.tsx:91-95 | Out of stock iff the stock is 0; short iff non-zero and at most the minimum, the boundary included; normal otherwise |
| Inventory.LabelsDistinct | src/components/InventoryManagement.tsx:92-94 | The three badge labels are distinct |
| Inventory.IconMatchesStatus | src/components/InventoryManagement.tsx:184 | With a non-negative minimum the warning icon shows iff the item is not normal |
| Inventory.MockStockStatusAgrees | src/components/InventoryManagement.tsx:13-62 | The stored stock_status of each sample item agrees with the computed classification |
| Inventory.FilteredInventory | src/components/InventoryManagement.tsx:83-89 | Exactly the items matching search, category and status are kept |
| Inventory.FilteredIsSubsequence | src/components/InventoryManagement.tsx:83-89 | The filter never adds or reorders items |
| Inventory.InitialFilterShowsAll | src/components/InventoryManagement.tsx:79-89 | The initial empty search with both selects on 'all' shows every item |
| Inventory.Label | src/components/InventoryManagement.tsx:92-94 | One label per stock status; LabelsDistinct proves distinct statuses get distinct labels |
| Inventory.Color | src/components/InventoryManagement.tsx:92-94 | One badge colour per stock status; GetStockStatus pairs it with the label |
| Inventory.ShowsLowStockIcon | src/components/InventoryManagement.tsx:184-186 | The warning icon shows when stock is at or below the minimum; IconMatchesStatus proves, for a non-negative minimum, that it shows exactly when the status is not normal |
| Inventory.MatchesFilter | src/components/InventoryManagement.tsx:83-89 | The lower-cased search text occurs in the product name or code, and the category and status selects are all or equal; FilteredInventory keeps exactly the items it accepts |
| Pagination.Range | src/components/ui/Pagination.tsx:35 | `Array.from` of a length gives consecutive pages from the start, none for a negative length |
| Pagination.VisiblePages | src/components/ui/Pagination.tsx:22-36 | The visible pages are consecutive and ascending, all within 1..totalPages. They are exactly 1..totalPages when those fit, and otherwise exactly maxVisiblePages pages |
| Pagination.DefaultWindowExample | src/components/ui/Pagination.tsx:22-36 | Page 7 of 20 shows 5–9; the first and the last page show 1–5 and 16–20 |
| Pagination.CurrentPageVisible | src/components/ui/Pagination.tsx:27-33 | A current page within range is always visible |
| Pagination.ShortcutsMeaning | src/components/ui/Pagination.tsx:39-40 | The page-1 shortcut shows iff page 1 is not visible, and its ellipsis iff page 2 is hidden too; the same holds at the last page |
| Pagination.NoPagesNoShortcuts | src/components/ui/Pagination.tsx:68 | With no pages no shortcut or ellipsis shows |
| Pagination.EnabledButtonsStayInRange | src/components/ui/Pagination.tsx:52-54 | From a page in range, an enabled Previous or Next leads to a page in range |
| Pagination.NextEnabledWithoutPages | src/components/ui/Pagination.tsx:128 | With zero pages Next is still enabled on page 1 |
| Pagination.Window | src/components/ui/Pagination.tsx:22-36 | The first and last visible page; VisiblePages lists the pages between them (all pages when they fit, else exactly maxVisiblePages), and CurrentPageVisible proves the current page is among them |
| Pagination.ShowFirstPage | src/components/ui/Pagination.tsx:68 | The first-page shortcut shows when the first visible page is above 1; ShortcutsMeaning proves this is exactly when page 1 is not visible |
| Pagination.ShowFirstEllipsis | src/components/ui/Pagination.tsx:39 | The ellipsis shows when the first visible page is above 2; ShortcutsMeaning proves this is exactly when pages 1 and 2 are both hidden |
| Pagination.ShowLastPage | src/components/ui/Pagination.tsx:104 | The last-page shortcut shows when the last visible page is below totalPages; ShortcutsMeaning proves this is exactly when the last page is not visible |
| Pagination.ShowLastEllipsis | src/components/ui/Pagination.tsx:40 | The ellipsis shows when the last visible page is below totalPages - 1; ShortcutsMeaning proves this is exactly when the last two pages are both hidden |
| Pagination.PreviousDisabled | src/components/ui/Pagination.tsx:54 | Previous is disabled on page 1; EnabledButtonsStayInRange proves that from a page in range an enabled button leads to a page in range |
| Pagination.NextDisabled | src/components/ui/Pagination.tsx:128 | Next is disabled on the last page; EnabledButtonsStayInRange proves an enabled button leads to a page in range, and NextEnabledWithoutPages shows that with no pages Next stays enabled |
| AppStore.Store.constructor | src/store/useStore.ts:71-86 | The initial state: no user, empty lists, no loading, no errors, sidebar open |
| AppStore.Store.SetUser | src/store/useStore.ts:89 | Only the user changes |
| AppStore.Store.SetAuthenticated | src/store/useStore.ts:90 | Only the authentication flag changes |
| AppStore.Store.SetSalesInvoices | src/store/useStore.ts:93 | Only the sales list changes |
| AppStore.Store.AddSalesInvoice | src/store/useStore.ts:94-97 | Appends one invoice at the end; the earlier ones and the other state are unchanged |
| AppStore.Store.UpdateSalesInvoice | src/store/useStore.ts:98-103 | The list becomes UpdateById of the old list; nothing else changes |
| AppStore.Store.DeleteSalesInvoice | src/store/useStore.ts:104-107 | The list becomes DeleteById of the old list, so no invoice with the id remains; nothing else changes |
| AppStore.Store.SetSalesLoading | src/store/useStore.ts:108 | Only the sales loading flag changes |
| AppStore.Store.SetSalesError | src/store/useStore.ts:109 | Only the sales error changes |
| AppStore.Store.SetPurchaseInvoices | src/store/useStore.ts:112 | Only the purchase list changes |
| AppStore.Store.AddPurchaseInvoice | src/store/useStore.ts:113-116 | Appends one invoice at the end; nothing else changes |
| AppStore.Store.UpdatePurchaseInvoice | src/store/useStore.ts:117-122 | The list becomes UpdateById of the old list; nothing else changes |
| AppStore.Store.DeletePurchaseInvoice | src/store/useStore.ts:123-126 | No invoice with the id remains, the others stay in order, and nothing else changes |
| AppStore.Store.SetPurchaseLoading | src/store/useStore.ts:127 | Only the purchase loading flag changes |
| AppStore.Store.SetPurchaseError | src/store/useStore.ts:128 | Only the purchase error changes |
| AppStore.Store.SetInventoryItems | src/store/useStore.ts:131 | Only the inventory list changes |
| AppStore.Store.AddInventoryItem | src/store/useStore.ts:132-135 | Appends one item at the end; nothing else changes |
| AppStore.Store.UpdateInventoryItem | src/store/useStore.ts:136-141 | The list becomes UpdateById of the old list; nothing else changes |
| AppStore.Store.DeleteInventoryItem | src/store/useStore.ts:142-145 | No item with the id remains, the others stay in order, and nothing else changes |
| AppStore.Store.SetInventoryLoading | src/store/useStore.ts:146 | Only the inventory loading flag changes |
| AppStore.Store.SetInventoryError | src/store/useStore.ts:147 | Only the inventory error changes |
| AppStore.Store.SetSidebarOpen | src/store/useStore.ts:150 | Only the sidebar flag changes |
| AppStore.AddThenDeleteSales | src/store/useStore.ts:94-107 | Adding an invoice with a fresh id and deleting that id restores the whole store state |
| Records.Merge | src/store/useStore.ts:101 | A spread keeps every key of both objects, and the later object wins |
| Records.UpdateById | src/store/useStore.ts:98-103 | Same length and order. Elements without the id are unchanged; elements with it get the updates merged over their own fields |
| Records.UpdateByIdAbsent | src/store/useStore.ts:98-103 | An update of an absent id leaves the list unchanged |
| Records.UpdateByIdKeepsIds | src/store/useStore.ts:117-122 | An update without an `id` field never changes an element's id |
| Records.UpdateByIdIdempotent | src/store/useStore.ts:136-141 | Applying the same id-preserving update twice is applying it once |
| Records.DeleteById | src/store/useStore.ts:104-107 | No survivor has the id, every other element survives, and the length drops by the number of matches |
| Records.DeleteByIdIsSubsequence | src/store/useStore.ts:123-126 | Survivors keep their order |
| Records.DeleteByIdAbsent | src/store/useStore.ts:142-145 | Deleting an absent id changes nothing |
| Records.DeleteUndoesAdd | src/store/useStore.ts:94-107 | Deleting the id of a freshly appended record undoes the append |
| Records.Stringify | src/hooks/useSalesInvoices.ts:88 | `String(value)`: text verbatim, numbers in decimal, booleans as true or false, null as null, a missing field as undefined; the contains filter of SalesHook.Keeps and the screen searches read fields through it |
| Records.HasId | src/store/useStore.ts:101 | A record whose id field equals the given id; UpdateByIdKeepsIds and DeleteByIdAbsent are stated with it |
| Lists.Filter | src/hooks/useSalesInvoices.ts:73 | `filter` keeps exactly the elements satisfying the predicate |
| Lists.FilterIsSubsequence | src/hooks/useSalesInvoices.ts:82 | A filter result is a subsequence of its input |
| Lists.FilterFilter | src/hooks/useSalesInvoices.ts:81-93 | Filtering twice is filtering once by the conjunction |
| Lists.FilterAppend | src/components/ui/Table.tsx:52 | Filtering distributes over concatenation |
| SalesHook.Searched | src/hooks/useSalesInvoices.ts:72-77 | An empty or absent query keeps all rows; otherwise a row is kept iff its lower-cased customer name or invoice number contains the lower-cased query |
| SalesHook.ApplyFiltersIsConjunction | src/hooks/useSalesInvoices.ts:80-94 | Applying the filters one after another keeps exactly the rows passing all of them |
| SalesHook.FiltersOrderIrrelevant | src/hooks/useSalesInvoices.ts:80-94 | Two filter lists with the same members select the same rows |
| SalesHook.SelectedIsSubsequence | src/hooks/useSalesInvoices.ts:69-94 | Search and filters never add or reorder rows |
| SalesHook.SelectedMembership | src/hooks/useSalesInvoices.ts:69-94 | A row is selected iff it is a row, matches the query and passes every filter |
| SalesHook.Compare | src/hooks/useSalesInvoices.ts:98-111 | The comparator returns ±1, and 1 whenever the left value is undefined or null |
| SalesHook.SortInPlace | src/hooks/useSalesInvoices.ts:98 | Sorting in place keeps the same rows with the same multiplicities |
| SalesHook.FilterAll | src/hooks/useSalesInvoices.ts:80-94 | The `forEach` reassigning the list gives the same result as ApplyFilters |
| SalesHook.SortedCopy | src/hooks/useSalesInvoices.ts:97-112 | The sorted list is a permutation of its input |
| SalesHook.SelectAndSort | src/hooks/useSalesInvoices.ts:69-112 | The result is a permutation of the selection, and exactly the selection when no sort is given |
| SalesHook.PageOf | src/hooks/useSalesInvoices.ts:115 | A missing or 0 page reads as 1, any other page as itself |
| SalesHook.PageSizeOf | src/hooks/useSalesInvoices.ts:116 | A missing or 0 page size reads as 10, any other as itself |
| SalesHook.CeilDiv | src/hooks/useSalesInvoices.ts:118 | For a positive size the page count is the least q with q × size ≥ total |
| SalesHook.ClampIndex | src/hooks/useSalesInvoices.ts:120 | A slice index always lands within the list |
| SalesHook.PageSliceBound | src/hooks/useSalesInvoices.ts:119-120 | A page holds at most pageSize rows and at most the whole list |
| SalesHook.PageSliceContents | src/hooks/useSalesInvoices.ts:119-120 | Page p ≥ 1 is the contiguous run from (p − 1) × pageSize, clipped to the list |
| SalesHook.PageSliceMembers | src/hooks/useSalesInvoices.ts:120 | A page holds only rows of its list |
| SalesHook.RowOnItsPage | src/hooks/useSalesInvoices.ts:118-120 | Row k is row k mod size of page k div size + 1, and that page is within the page count |
| SalesHook.MergeParams | src/hooks/useSalesInvoices.ts:124-133 | The keys the new parameters carry win over the previous ones, and the pagination is replaced |
| SalesHook.NewInvoice | src/hooks/useSalesInvoices.ts:150-157 | Every field of `data` overrides the generated id, number and timestamps; the generated fields fill the rest |
| SalesHook.Stamped | src/hooks/useSalesInvoices.ts:178-181 | The caller's fields with `updated_at` set to now |
| SalesHook.SalesInvoicesHook.constructor | src/hooks/useSalesInvoices.ts:53-58 | The initial parameters: empty query and filters, created_at descending, page 1 of size 10 |
| SalesHook.SalesInvoicesHook.Fetch | src/hooks/useSalesInvoices.ts:60-140 | The ordered list is a permutation of the selection. The store receives its requested page, holding only selected rows, with loading off and no error and nothing else changed. The parameters get the page numbers written back |
| SalesHook.SalesInvoicesHook.Mount | src/hooks/useSalesInvoices.ts:250-252 | The first fetch stores the requested page of a reordering of the current parameters' selection and changes nothing else in the store; the parameters get that page, page size, row count and page count |
| SalesHook.SalesInvoicesHook.CreateSalesInvoice | src/hooks/useSalesInvoices.ts:142-168 | The new invoice is appended to the store's list and returned; only loading and error flags change besides |
| SalesHook.SalesInvoicesHook.UpdateSalesInvoiceById | src/hooks/useSalesInvoices.ts:170-192 | The stamped fields are merged into the invoices with that id and returned |
| SalesHook.SalesInvoicesHook.DeleteSalesInvoiceById | src/hooks/useSalesInvoices.ts:194-209 | The invoices with that id are removed from the store's list |
| SalesHook.SalesInvoicesHook.SearchSalesInvoices | src/hooks/useSalesInvoices.ts:211-219 | The query is set and the page goes back to 1, with filters, sort and page size kept, and the new row and page counts written back. The store holds page 1 of a reordering of the new selection and nothing else in it changes. Every row shown matches the new query and the kept filters |
| SalesHook.SalesInvoicesHook.FilterSalesInvoices | src/hooks/useSalesInvoices.ts:221-229 | The filters are set and the page goes back to 1, with query, sort and page size kept, and the new row and page counts written back. The store holds page 1 of a reordering of the new selection and nothing else in it changes. Every row shown passes the new filters |
| SalesHook.SalesInvoicesHook.SortSalesInvoices | src/hooks/useSalesInvoices.ts:231-238 | The sort is set and the current page and page size kept. The store holds that page of a reordering of the unchanged selection and nothing else in it changes |
| SalesHook.SalesInvoicesHook.ChangePage | src/hooks/useSalesInvoices.ts:240-247 | The page is set (0 reads as 1) with query, filters, sort and page size kept. The store holds that page of a reordering of the unchanged selection and nothing else in it changes |
| SalesHook.SearchMatches | src/hooks/useSalesInvoices.ts:72-77 | The lower-cased query occurs in the lower-cased customer name or invoice number; Searched keeps exactly the rows it accepts |
| SalesHook.Keeps | src/hooks/useSalesInvoices.ts:82-91 | eq compares the field value for equality, contains compares the lower-cased strings, other operators keep the row; ApplyFiltersIsConjunction proves a row survives all filters exactly when every filter keeps it |
| SalesHook.ApplyFilters | src/hooks/useSalesInvoices.ts:80-94 | One filter after the other; ApplyFiltersIsConjunction proves it equals keeping the rows every filter keeps, FiltersOrderIrrelevant that the order does not matter, and FilterAll computes it with a loop |
| SalesHook.Selected | src/hooks/useSalesInvoices.ts:71-94 | Search, then filters; SelectedIsSubsequence and SelectedMembership prove it keeps exactly the matching rows, in order |
| SalesHook.JsLess | src/hooks/useSalesInvoices.ts:106-110 | JavaScript `<` on two values of the same kind, false for other pairs; Compare uses it and its ensures puts missing or null values last and never returns 0 |
| SalesHook.JsSlice | src/hooks/useSalesInvoices.ts:120 | `Array.prototype.slice` with negative and overlong indices clamped; PageSliceContents states which elements it returns |
| SalesHook.PageSlice | src/hooks/useSalesInvoices.ts:115-120 | The rows of one page; PageSliceBound proves at most pageSize rows, PageSliceContents gives them by index, and RowOnItsPage proves each row is on exactly its own page |
| SalesHook.FetchedPage | src/hooks/useSalesInvoices.ts:115-132 | The page, page size, total and ceil(total / pageSize) written back after a fetch; Fetch ensures the stored pagination equals it |
| SalesHook.WithPage | src/hooks/useSalesInvoices.ts:215 | Its ensures: the page is the new one, page size, total and page count are kept, and an absent pagination gives only the page |
| SalesHook.Generated | src/hooks/useSalesInvoices.ts:150-157 | The fields a new invoice gets before the form data; its ensures gives exactly the keys id, invoice_number, created_by, created_at, updated_at, the id sales-<clock> and the creator user-001 |
| InvoiceScreens.FilteredInvoices | src/components/SalesManagement.tsx:111-116 | Exactly the invoices whose party name or number contains the search text (case-insensitively) and whose status matches the select |
| InvoiceScreens.FilteredIsSubsequence | src/components/PurchaseManagement.tsx:91-96 | The visible list never adds or reorders invoices |
| InvoiceScreens.NoCriteriaShowsAll | src/components/SalesManagement.tsx:111-116 | An empty search with status 'all' shows the whole list |
| InvoiceScreens.StatusFilterExact | src/components/PurchaseManagement.tsx:94 | With a status other than 'all' every visible invoice has exactly that status |
| InvoiceScreens.CreatedInvoice | src/components/SalesManagement.tsx:124-131 | A clock-based id that the form data may replace, then the form fields, then nts_status 'pending', created_by and the timestamps, which the form cannot replace |
| InvoiceScreens.UpdatedInvoice | src/components/SalesManagement.tsx:151-155 | The form data over the selected invoice, with a fresh updated_at |
| InvoiceScreens.ReplaceSameId | src/components/PurchaseManagement.tsx:137-139 | Invoices with the selected id become the updated one; the others stay in place |
| InvoiceScreens.UpdateKeepsSelectedId | src/components/SalesManagement.tsx:157-159 | Unless the form sets an id, the replaced invoice keeps the selected id |
| InvoiceScreens.UpdateOfMissingSelection | src/components/PurchaseManagement.tsx:137-139 | If no invoice has the selected id the list is unchanged |
| InvoiceScreens.InvoiceScreen.constructor | src/components/SalesManagement.tsx:87-93 | The sample list, empty search, status 'all', nothing open or selected; the whole list is visible |
| InvoiceScreens.InvoiceScreen.SetSearchTerm | src/components/PurchaseManagement.tsx:68 | Only the search text changes |
| InvoiceScreens.InvoiceScreen.SetFilterStatus | src/components/PurchaseManagement.tsx:69 | Only the status select changes |
| InvoiceScreens.InvoiceScreen.HandleCreateInvoice | src/components/SalesManagement.tsx:118-141 | Exactly one created invoice is appended at the end and the form closes |
| InvoiceScreens.InvoiceScreen.HandleUpdateInvoice | src/components/PurchaseManagement.tsx:123-148 | A no-op without a selection. Otherwise the invoices with the selected id are replaced, the form closes and the selection clears |
| InvoiceScreens.InvoiceScreen.HandleDeleteInvoice | src/components/SalesManagement.tsx:170-187 | A no-op when not confirmed. Otherwise the invoices with the id are dropped whatever their status, the rest stay in order, and the detail view closes |
| InvoiceScreens.InvoiceScreen.HandleViewInvoice | src/components/SalesManagement.tsx:189-192 | Selects the invoice and opens the detail view |
| InvoiceScreens.InvoiceScreen.HandleEditInvoice | src/components/PurchaseManagement.tsx:174-177 | Selects the invoice and opens the form |
| InvoiceScreens.InvoiceScreen.HandleCloseModal | src/components/SalesManagement.tsx:199-203 | Closes both views and clears the selection |
| InvoiceScreens.CreatedInvoiceIsShown | src/components/SalesManagement.tsx:111-133 | Without criteria the created invoice is the last one shown |
| InvoiceScreens.ListMatches | src/components/SalesManagement.tsx:111-116 | The lower-cased search term occurs in the party name or invoice number, and the status select is all or equal; FilteredInvoices keeps exactly the rows it accepts and StatusFilterExact proves the status filter is exact |
| InvoiceScreens.Stamp | src/components/SalesManagement.tsx:127-130 | The four fixed fields a created invoice gets; its keys are exactly nts_status, created_by, created_at and updated_at |
| InvoiceScreens.SameId | src/components/SalesManagement.tsx:158 | Two rows with the same id; ReplaceSameId replaces exactly the rows it matches |
| InvoiceScreens.InvoiceScreen.Visible | src/components/SalesManagement.tsx:111-116 | The rows the screen shows, FilteredInvoices of its state; CreatedInvoiceIsShown proves that with no search and status all a created invoice is the last one shown |
| Table.ClickedSort | src/components/ui/Table.tsx:27-35 | The clicked column becomes the sort field. Its order flips when it was already sorted, and is ascending otherwise |
| Table.ClickTwiceRestores | src/components/ui/Table.tsx:27-35 | Two clicks on the sorted column restore the sort |
| Table.NewColumnAscThenDesc | src/components/ui/Table.tsx:27-35 | A new column sorts ascending, then descending on the second click |
| Table.IconFor | src/components/ui/Table.tsx:56-68 | No icon iff the column is not sortable; up or down iff it is the sorted column, ascending or descending |
| Table.TableSort.constructor | src/components/ui/Table.tsx:22 | Nothing is sorted at first |
| Table.TableSort.HandleSort | src/components/ui/Table.tsx:24-39 | A non-sortable click changes nothing and emits nothing. Otherwise the clicked sort becomes current and is emitted, and the header shows an arrow |
| Table.SelectAll | src/components/ui/Table.tsx:41-44 | All data when checked, nothing when unchecked, and no call without a callback |
| Table.SelectItem | src/components/ui/Table.tsx:46-54 | Checking appends the item. Unchecking keeps exactly the entries with another id. There is no call without a callback |
| Table.UncheckIsSubsequence | src/components/ui/Table.tsx:52 | Unchecking keeps the rest in order |
| Table.CheckThenUncheck | src/components/ui/Table.tsx:46-54 | Checking a new item and unchecking it restores the selection |
| Table.HeaderFlagsExclusive | src/components/ui/Table.tsx:70-71 | Never both all-selected and indeterminate; an empty table is never all-selected |
| Table.SelectAllSetsHeader | src/components/ui/Table.tsx:41-44 | After select-all the header is checked; after clearing it is neither checked nor indeterminate |
| Table.Flip | src/components/ui/Table.tsx:29 | asc becomes desc and desc becomes asc; ClickTwiceRestores proves two clicks restore the order |
| Table.IsAllSelected | src/components/ui/Table.tsx:70 | Some data and every row selected; HeaderFlagsExclusive proves it never holds with IsIndeterminate, and SelectAllSetsHeader that selecting all sets it |
| Table.IsIndeterminate | src/components/ui/Table.tsx:71 | Some but not all rows selected; HeaderFlagsExclusive proves it never holds with IsAllSelected |
| QueryConfig.RetryBounded | src/lib/react-query.ts:8-13 | No retry after three failures or after a 401; otherwise the default rule retries |
| QueryConfig.ConfigRetryIsDefaultWithout403 | src/lib/react-query.ts:183-188 | retryConfig retries iff the default rule does and the status is not 403 |
| QueryConfig.Pow2Monotone | src/lib/react-query.ts:14 | Powers of two never decrease |
| QueryConfig.RetryDelay | src/lib/react-query.ts:189 | The delay is between 1000 and 30000 ms |
| QueryConfig.RetryDelayShape | src/lib/react-query.ts:14 | 1000 ms at attempt 0, non-decreasing, and 30000 ms from attempt 5 on |
| QueryConfig.RetryDelayDoubles | src/lib/react-query.ts:14 | Below the cap each delay doubles the previous one |
| QueryConfig.NextPageParam | src/lib/react-query.ts:194-198 | page + 1 iff page × pageSize < total, otherwise undefined |
| QueryConfig.PreviousPageParam | src/lib/react-query.ts:199-201 | page − 1 iff page > 1, otherwise undefined |
| QueryConfig.NextThenPrevious | src/lib/react-query.ts:194-201 | Going forward and back returns to the page |
| QueryConfig.NextPageUntilLast | src/lib/react-query.ts:194-198 | A next page exists exactly while the page is below ceil(total / pageSize) |
| QueryConfig.KeysNested | src/lib/react-query.ts:41-83 | Every list, detail and stats key lies under its entity's `all` key, and each list/detail key under `lists()`/`details()` |
| QueryConfig.EntitiesSeparate | src/lib/react-query.ts:41-83 | One entity's `all` key is a prefix of no other entity's keys |
| QueryConfig.ListsAndDetailsSeparate | src/lib/react-query.ts:44-47 | `lists()` is not a prefix of a detail key, nor `details()` of a list key |
| QueryConfig.DefaultRetry | src/lib/react-query.ts:8-13 | No retry after a 401, otherwise while fewer than three failures; RetryBounded proves at most three retries, none after a 401, and a retry otherwise |
| QueryConfig.ConfigRetry | src/lib/react-query.ts:183-188 | No retry after a 401 or 403, otherwise while fewer than three failures; ConfigRetryIsDefaultWithout403 proves it is the default rule minus the 403 case |
| QueryConfig.AllKey | src/lib/react-query.ts:43 | The entity name alone; KeysNested proves every other key of the entity extends it |
| QueryConfig.ListsKey | src/lib/react-query.ts:44 | The entity name then list; KeysNested proves it prefixes every list key |
| QueryConfig.ListKey | src/lib/react-query.ts:45 | The lists key then the filters; ListsAndDetailsSeparate proves the details key never prefixes it |
| QueryConfig.DetailsKey | src/lib/react-query.ts:46 | The entity name then detail; KeysNested proves it prefixes every detail key |
| QueryConfig.DetailKey | src/lib/react-query.ts:47 | The details key then the id; EntitiesSeparate proves another entity key never prefixes it |
| QueryConfig.StatsKey | src/lib/react-query.ts:48 | The entity name, stats and the date range, for the entities that have stats; KeysNested proves it extends the entity key |
| Auth.PermissionIsRank | src/hooks/useAuth.ts:162-175 | A user has a permission iff signed in with a role ranked at least as high (admin > accounting > staff) |
| Auth.PermissionMonotone | src/hooks/useAuth.ts:165-174 | Permission for a role implies permission for every lower role |
| Auth.PermissionExtremes | src/hooks/useAuth.ts:163-171 | Every signed-in user has staff permission, only admins have admin permission, and a null user has none |
| Auth.ShortcutsAgree | src/hooks/useAuth.ts:178-190 | isAdmin, hasAccountingPermission and hasStaffPermission equal hasPermission for their roles. The server-side checkUserRole agrees with it too |
| Auth.WithAuth | src/hooks/useAuth.ts:290-302 | The component renders iff not loading, authenticated, and either no role is required or the permission holds |
| Auth.GuardOpensUpward | src/hooks/useAuth.ts:298 | A page guarded by a role also opens for users of higher roles |
| Auth.Rank | src/hooks/useAuth.ts:162-175 | The order staff < accounting < admin that the permission switch encodes; PermissionIsRank proves the switch equals comparing ranks |
| Auth.HasPermission | src/hooks/useAuth.ts:162-175 | No user has no permission; otherwise the switch on the required role; PermissionIsRank proves it equals a rank comparison and PermissionMonotone that it is monotone |
| Auth.IsAdmin | src/hooks/useAuth.ts:178-180 | ShortcutsAgree proves it equals hasPermission(admin) |
| Auth.HasAccountingPermission | src/hooks/useAuth.ts:183-185 | ShortcutsAgree proves it equals hasPermission(accounting) |
| Auth.HasStaffPermission | src/hooks/useAuth.ts:188-190 | ShortcutsAgree proves it equals hasPermission(staff) |
| Auth.CheckUserRole | src/lib/api/auth.ts:217-223 | The stored-role test; ShortcutsAgree proves it equals hasPermission for a user with that role |
| Errors.HandleApiError | src/lib/errorHandler.ts:3-17 | The message of an Error, a string unchanged, String(message) of an object with a message, and the fixed default otherwise |
| Errors.ApiErrorShape | src/lib/errorHandler.ts:32-40 | Only objects qualify. A plain object needs message, code and timestamp keys. An Error needs a timestamp, and a code unless it is an AppError |
| Errors.CreateApiError | src/lib/errorHandler.ts:19-30 | The object carries the message, code and timestamp, and a details key only when given |
| Errors.CreatedApiErrorRoundTrip | src/lib/errorHandler.ts:19-62 | A created API error is recognised, and its message and code read back |
| Errors.GetErrorMessageIsHandleApiError | src/lib/errorHandler.ts:56-62 | Whenever the message is text, getErrorMessage agrees with handleApiError |
| Errors.Segments | src/lib/errorHandler.ts:47-53 | One segment per element, with string elements kept verbatim |
| Errors.FormatValidationErrors | src/lib/errorHandler.ts:42-54 | The default text for a non-array or an empty array; otherwise the segments joined by ", " |
| Errors.FormatSingleString | src/lib/errorHandler.ts:42-54 | A single string error comes back verbatim |
| Errors.FormatAppendsString | src/lib/errorHandler.ts:47-53 | One more string error appends ", " and its text |
| Errors.NewAppError | src/lib/errorHandler.ts:128-146 | Keeps message and code; the status defaults to 500 and the operational flag to true |
| Errors.NewValidationError | src/lib/errorHandler.ts:148-157 | A non-empty field is prefixed to the message as "field: message" |
| Errors.NewNotFoundError | src/lib/errorHandler.ts:159-164 | The message names the resource |
| Errors.GetErrorCode | src/lib/errorHandler.ts:204-218 | The AppError code; else the `code` of an API-error-shaped value; else an Error's name; UNKNOWN_ERROR for anything else |
| Errors.GetErrorStatusCode | src/lib/errorHandler.ts:220-226 | The AppError status, 500 for anything else |
| Errors.SubclassCodes | src/lib/errorHandler.ts:148-185 | The validation, not-found, unauthorized, forbidden and network errors carry 400/404/401/403/0 and their fixed codes, whatever the message |
| Errors.IsNetworkError | src/lib/errorHandler.ts:187-194 | Only an Error can be a network error |
| Errors.IsValidationError | src/lib/errorHandler.ts:196-202 | Only an Error or an object can be a validation error |
| Errors.ClassifiersIgnoreSubclass | src/lib/errorHandler.ts:144-202 | Because the AppError constructor resets the prototype, the subclass `instanceof` tests never hold. Errors agreeing on name, message and code are classified alike, and a NetworkError or ValidationError renamed 'Error' with a plain message is recognised as neither |
| Errors.ClassifiersRecogniseOwnClasses | src/lib/errorHandler.ts:187-202 | A network error is classified as one, and so is a validation error; nothing but an Error is a network error |
| Errors.AppErrorMessages | src/lib/errorHandler.ts:148-171 | handleApiError reports the subclass messages, "field: message" and the default texts |
| Errors.IsApiError | src/lib/errorHandler.ts:32-40 | ApiErrorShape proves: never for a string or other value; for a plain object exactly when message, code and timestamp are present; for an Error when it has a timestamp and a code (an AppError always has one) |
| Errors.GetErrorMessage | src/lib/errorHandler.ts:56-62 | An API-shaped error gives its own message, anything else the handleApiError text; GetErrorMessageIsHandleApiError proves the two agree whenever the message is text, and CreatedApiErrorRoundTrip reads a created error back |
| Errors.Segment | src/lib/errorHandler.ts:47-53 | One element text: a string as is, an Error or object message, else the fixed invalid-input text; Segments keeps strings verbatim, and FormatSingleString and FormatAppendsString state the joined result |
| Errors.NewUnauthorizedError | src/lib/errorHandler.ts:166-171 | SubclassCodes proves code UNAUTHORIZED and status 401; AppErrorMessages proves the default message |
| Errors.NewForbiddenError | src/lib/errorHandler.ts:173-178 | SubclassCodes proves code FORBIDDEN and status 403 whatever the message |
| Errors.NewNetworkError | src/lib/errorHandler.ts:180-185 | SubclassCodes proves code NETWORK_ERROR and status code 0; ClassifiersRecogniseOwnClasses proves IsNetworkError holds for it |
| Text.ParseIntOfDigits | src/lib/api/sales.ts:329 | `parseInt` of a digit string is its decimal value |
| Text.PadStartDigits | src/lib/api/sales.ts:333 | A number zero-padded to a width it fits is that many digits reading back as itself |
| Text.FourDigitOrder | src/lib/api/sales.ts:322 | On four-digit strings string order agrees with numeric order |
| Text.JoinLength | src/lib/utils.ts:72 | The joined text is the pieces plus one separator between each two neighbours |
| Text.ParseInt | src/lib/api/sales.ts:329 | `parseInt` without radix: leading white space, one sign, a 0x prefix, the longest digit prefix, NaN as None; ParseIntOfDigits proves a digit string reads as its decimal value |
| Text.PadStart | src/lib/api/sales.ts:333 | Its ensures gives the length max(|s|, width), s as suffix and only filler before it; PadStartDigits proves zero padding keeps the decimal value |
| Text.TakeLast | src/lib/api/sales.ts:329 | `slice(-k)`: the last k characters, or the whole string when shorter; its ensures states length and suffix |
| Text.NatToString | src/lib/api/sales.ts:333 | `String(n)` for a natural number; its ensures says at least one character and digits only, and DecimalValueOfNatToString proves it reads back as n |
| Text.DecimalValueOfNatToString | src/lib/api/sales.ts:329-333 | Writing a number and reading it back gives the number |
| Text.StrLess | src/lib/api/sales.ts:322 | The string order of the descending query; StrLessIrreflexive and StrLessTransitive prove it a strict order, FourDigitOrder that it agrees with numeric order on four-digit suffixes |
| Text.StrLessCommonPrefix | src/lib/api/sales.ts:322 | A shared prefix does not change how two strings compare |
| Text.Lower | src/hooks/useSalesInvoices.ts:74 | `toLowerCase` on ASCII letters; its ensures keeps the length |
| Text.Contains | src/hooks/useSalesInvoices.ts:74 | `includes`: the needle occurs at some index; ContainsEmpty proves the empty needle always matches, so an empty search keeps every row |
| Text.Join | src/lib/errorHandler.ts:53 | `join(sep)`; JoinLength gives its length and JoinSnoc proves appending an element appends the separator and the element |

## Left out

- All Supabase I/O, including query construction, the realtime subscriptions and the auth calls. Query results are parameters: the greatest existing invoice number, the stored status, the statistics rows and the stored role in `Auth.CheckUserRole`.
- The date filters of the statistics queries and every other server-side filter. They decide which rows come back and are not a rule of the front end.
- The race between reading the greatest number and inserting a new one. That is a database concern; only the next-number rule is modelled.
- Floating point:
  - `calculateTax` with a rate other than the default 0.1;
  - `formatCurrency` and `formatDate`;
  - the unrounded float tax of `src/components/SalesInvoiceForm.tsx`, which is not part of this model.
- `Date`, `Date.now()`, `Math.random()`, `confirm` and the simulated `setTimeout` delays. They are parameters or dropped.
- `Text.Lower`: `toLowerCase` is modelled on ASCII letters only. Other characters are kept as they are. Hangul has no case.
- Numbers are integers. Quantities, prices and amounts are whole Won, so `Math.round` never meets a fraction other than tenths.
- SalesHook.SortInPlace: only the permutation is claimed, not the final order. The comparator never returns 0 and is not a consistent ordering, so the order among equal keys depends on the JavaScript engine's sort algorithm. The model sorts by insertion with the same comparator. Values of different kinds compare false.
- SalesHook.SearchMatches: a record without `customer_name` or `invoice_number` makes the source throw a `TypeError`. The model reads the text "undefined".
- InvoiceScreens.FilteredInvoices: in the source, a missing or non-string party name or invoice number makes `toLowerCase` throw a `TypeError` while the screen renders. The model does not model that throw: it searches the `String()` text instead ("undefined" for a missing field, the digits for a number).
- SalesHook.MergeParams: a key present with the explicit value `undefined` is treated as absent. In a JavaScript spread it would overwrite the previous value.
- SalesHook.SalesInvoicesHook: the `refresh` and `clearError` helpers are not modelled separately.
  - `refresh` is the same call as `Mount`.
  - `clearError` is `AppStore.Store.SetSalesError(None)`.
  - The fetch never throws in the source, because its data is the built-in sample list, so the error path of the hook's actions is not modelled.
- SalesHook.SalesInvoicesHook.CreateSalesInvoice: the generated invoice number `INV-YYYY-xxxxxx` is built from parameters, and its format is not proved.
- Errors.GetErrorMessage: for an API error whose `message` is not a string, the source returns the raw value. The model returns its `String()` text.
- Errors.GetErrorCode: returns a `Value`, because an API error's `code` may be any value.
- Errors: `logError`, `withErrorBoundary`, `handleQueryError` and `handleOfflineState` use the console, the environment and `window`, and are not modelled.
- Auth.HasPermission: the `default` branch of the switch is unreachable with the three typed roles. `withAuth`'s redirects, toasts and effect hooks are not modelled, only what it renders.
- InvoiceApi.StatusCounts: a status named like an `Object.prototype` member (`constructor`, `toString`) would start from that member rather than from 0 in the source. The model starts every status at 0.
- InvoiceApi.CreateInvoiceRows: uses the corrected numbering `NextInvoiceNumber`. `GenerateInvoiceNumber` keeps the code as written.
- Purchase invoices share every member with sales invoices. `InvoiceApi` is parametrised by `DocKind`, and `InvoiceScreens` by `Screen`.
- The screens' sample invoice lists are a constructor parameter. Their amounts are not consistent with their items, so they are not used as examples.
- InvoiceApi.ComputeAmounts: `computeTotals` raises no error: items with a negative quantity or price are accepted.
- Rendering, styling, label and colour tables, and the Dashboard, Layout and ErrorBoundary components.

## Findings

| source | as written | input that shows it | evidently intended | confidence | as-written member | corrected member |
|---|---|---|---|---|---|---|
| src/lib/api/sales.ts:327-333 (same in src/lib/api/purchase.ts:327-333) | After sequence 9999 the next number gets the five-digit suffix "10000". That number sorts below "…9999" in the descending string order of the greatest-number query. Once "…10000" is stored, "…9999" is still the greatest, so every later call reads 9999 again and issues "…10000" again, a duplicate | the month's greatest number is S2024019999 | refuse to number past 9999 in a month (SequenceExhausted). Every number then has four digits and sorts strictly above the previous one (`InvoiceApi.CheckedNumberIncreases`), so it is fresh (`InvoiceApi.CheckedNumberIsFresh`) | not executed; proved on the model | InvoiceApi.ExhaustedSequenceRepeats | InvoiceApi.NextInvoiceNumber |
