# Invoice dashboard core, modelled in Dafny

This project models the logic of a small invoicing web application. It covers:

- the **invoice store**: one state record holding the invoice list, the selected invoice, a loading flag, an error message and two UI flags. It has five remote actions (fetch all, fetch one, create, update, delete), the UI setters and two derived selectors (the status/search filter and the dashboard sums);
- the **mock authentication store**, in which every action takes effect in two steps: an immediate update, then a deferred "settle" update;
- the **pure helpers**:
  - invoice status derivation, `truncate`, `slugify`, the e-mail shape check;
  - the invoice-number format and the relative-time unit choice;
  - the date sort, the status colours and the zero guard of the percentage change;
  - the database error-message mapping and the attachment path;
  - the fixture lookups;
- the **logic inside components**:
  - the invoice drawer's defaults, line-item editing and submit payload;
  - the invoice table's search;
  - the dashboard cards' sums, which duplicate the store selector;
  - the status badge's lookup table.

Outside effects become parameters:

- A remote call is represented by its outcome, `Remote<T> = Ok(data) | Err(message)`, passed to the action that awaits it.
- `Date.now()` is a millisecond `nowMs`.
- The base-36 digits of `Math.random()` are a digit sequence.
- The totals function of the form-validation module is a function parameter.

Money is `int` (cents) and dates are `int` milliseconds.

Modules: `Wrappers` (Option), `Database` (row types and enums), `JsString` and `JsArray` (the JavaScript string and array operations the code relies on, with their own semantics: clamping `substring` (counted in characters, see below), ASCII case mapping, `toString(radix)`, order-preserving `filter`, first-match `find`), then one module per source file: `InvoiceStore`, `AuthStore`, `Utils`, `Supabase`, `MockData`, `InvoiceDrawer`, `InvoiceTable`, `DashboardStats`, `StatusBadge`.

The model follows the code in these respects:

- A failed fetch keeps the current list and records the message. There is no fall-back to fixture data.
- The stores write the raw remote message into `error`; they do not map it through `handleSupabaseError`.
- `selectInvoice(null)` does not close the modal, so the modal can be open with nothing selected (`InvoiceStore.ModalOpenWithoutSelection`).
- The store filter reads `filterStatus` and `searchQuery`, which the state never declares. The selector therefore takes them as parameters. As written, `filterStatus` is `undefined`, which differs from `'all'`, so the selector keeps only invoices whose status is `undefined`: it always yields an empty list. `StatusFilter` does not represent that value.
- The store filter matches the joined `client.name` and `client.email`. The table's search matches the flat `client_name` and `client_email` fields.

## Model

| member | source | states |
|---|---|---|
| InvoiceStore.Store.constructor | src/stores/invoiceStore.ts:48-53 | empty list, nothing selected, not loading, no error, drawer and modal closed |
| InvoiceStore.Store.BeginRequest | src/stores/invoiceStore.ts:57 | every remote action first sets `isLoading` and clears `error`, leaving the other fields alone |
| InvoiceStore.Store.FetchInvoices | src/stores/invoiceStore.ts:56-73 | success replaces the list by the returned rows in order (`[]` for null data) and clears `error`; failure keeps the list and stores the message; `isLoading` ends false; selection and UI flags unchanged |
| InvoiceStore.Store.FetchInvoiceById | src/stores/invoiceStore.ts:76-96 | success selects the returned row; failure keeps the selection and stores the message; the list is unchanged |
| InvoiceStore.Store.CreateInvoice | src/stores/invoiceStore.ts:99-115 | an insert error keeps the list, skips the refetch and stores the message; otherwise the list is whatever the refetch produced; `isLoading` ends false |
| InvoiceStore.Store.UpdateInvoice | src/stores/invoiceStore.ts:118-138 | as for create, with the update's outcome |
| InvoiceStore.Store.DeleteInvoice | src/stores/invoiceStore.ts:141-161 | success leaves exactly the invoices with another id, in order; failure keeps the list and stores the message |
| InvoiceStore.WithoutId | src/stores/invoiceStore.ts:152 | every kept invoice is from the list and has another id; each invoice with another id is kept as many times as it occurs, and none with the id |
| InvoiceStore.WithoutIdRemovesExactly | src/stores/invoiceStore.ts:141-161 | the result is an ordered subsequence; its length is the list's less the matching entries; an absent id changes nothing |
| InvoiceStore.Store.SelectInvoice | src/stores/invoiceStore.ts:164 | changes only the selection |
| InvoiceStore.Store.OpenDrawer | src/stores/invoiceStore.ts:165 | changes only `isDrawerOpen`, to true |
| InvoiceStore.Store.CloseDrawer | src/stores/invoiceStore.ts:166 | changes only `isDrawerOpen`, to false |
| InvoiceStore.Store.OpenModal | src/stores/invoiceStore.ts:167 | selects the invoice and opens the modal together, nothing else |
| InvoiceStore.Store.CloseModal | src/stores/invoiceStore.ts:168 | closes the modal and keeps the selection |
| InvoiceStore.ModalOpenWithoutSelection | src/stores/invoiceStore.ts:164-168 | after opening the modal and selecting null, the modal is open with no selection |
| InvoiceStore.FilteredInvoices | src/stores/invoiceStore.ts:175-197 | an ordered subsequence of the list; keeps exactly the invoices with the chosen status that match the lower-cased query, each as many times as it occurs in the list; the whole list for `'all'` and an empty query |
| InvoiceStore.FilteredInvoicesIdempotent | src/stores/invoiceStore.ts:175-197 | filtering twice equals filtering once |
| InvoiceStore.DashboardStatsOf | src/stores/invoiceStore.ts:199-220 | `totalInvoices` is the list's length |
| InvoiceStore.DashboardStatsByStatus | src/stores/invoiceStore.ts:201-211 | received, pending and drafts equal the per-status sums of totals (paid; sent plus overdue; draft) |
| InvoiceStore.SumFilteredStep | src/stores/invoiceStore.ts:201-211 | the sum over a filtered list advances by the head's total exactly when the head is kept |
| InvoiceStore.CancelledCountsNowhere | src/stores/invoiceStore.ts:199-220 | adding a cancelled invoice changes no sum, only the count |
| AuthStore.MockUser | src/stores/authStore.ts:60 | the mock user has id "1" and the given email |
| AuthStore.AuthStore.constructor | src/stores/authStore.ts:37-40 | user, session and error null, not loading |
| AuthStore.AuthStore.InitializeAuth | src/stores/authStore.ts:43-44 | the immediate step sets only `isLoading` |
| AuthStore.AuthStore.SignIn | src/stores/authStore.ts:56-66 | returns true for any credentials; sets `isLoading`, clears `error`, leaves user and session |
| AuthStore.AuthStore.SignUp | src/stores/authStore.ts:69-79 | as sign-in |
| AuthStore.AuthStore.SignOut | src/stores/authStore.ts:82-83 | the immediate step sets only `isLoading` |
| AuthStore.AuthStore.ResetPassword | src/stores/authStore.ts:94-100 | returns true; sets `isLoading`, clears `error`, never touches user or session |
| AuthStore.AuthStore.UpdatePassword | src/stores/authStore.ts:103-109 | as reset |
| AuthStore.AuthStore.ClearError | src/stores/authStore.ts:111 | clears `error`, nothing else |
| AuthStore.AuthStore.SettleSignedIn | src/stores/authStore.ts:58-64 | user is `{id:'1', email}`, the session's user equals it, loading ends |
| AuthStore.AuthStore.SettleSignedOut | src/stores/authStore.ts:46-52 | user and session null, loading ends; the error is kept |
| AuthStore.AuthStore.SettleLoadingDone | src/stores/authStore.ts:96-98 | only loading ends |
| AuthStore.SignInThenOut | src/stores/authStore.ts:56-91 | a sign-in then a sign-out, each settled, leaves a signed-in user in between and none after, not loading |
| Utils.DiffInSeconds | src/lib/utils.ts:46 | the floor of the millisecond difference over 1000 |
| Utils.UnitFor | src/lib/utils.ts:49-55 | the unit whose threshold interval (60 / 3600 / 86400 / 2592000 / 31536000 s) contains the difference |
| Utils.UnitForUnique | src/lib/utils.ts:49-55 | exactly one unit's interval contains a difference |
| Utils.UnitForMonotone | src/lib/utils.ts:49-55 | a larger difference never picks a smaller unit |
| Utils.GetRelativeTime | src/lib/utils.ts:44-56 | value is minus `floor(diff / unitSeconds)` of the chosen unit, negated whatever the sign of the difference |
| Utils.TimestampPart | src/lib/utils.ts:62 | upper-case base-36 digits that parse back to the timestamp |
| Utils.RandomPart | src/lib/utils.ts:63 | at most four upper-case base-36 characters, the first digits of the random fraction |
| Utils.GenerateInvoiceNumber | src/lib/utils.ts:61-65 | the prefix, `-`, the timestamp part, then the random part |
| Utils.GetStatusColor | src/lib/utils.ts:72-81 | every status has its own colour class |
| Utils.GetStatusDotColor | src/lib/utils.ts:83-92 | every status has its own dot colour class |
| Utils.StatusColorsDistinct | src/lib/utils.ts:72-92 | distinct statuses get distinct colours |
| Utils.CheckInvoiceStatus | src/lib/utils.ts:97-110 | paid when flagged; else cancelled and draft kept; else overdue exactly when the due date has passed, sent otherwise |
| Utils.PaidExactlyWhenFlagged | src/lib/utils.ts:102-109 | the result is paid iff the paid flag is set; a stored `paid` status without the flag is re-derived |
| Utils.CheckInvoiceStatusIdempotent | src/lib/utils.ts:97-110 | re-deriving a derived status changes nothing |
| Utils.OverdueStaysOverdue | src/lib/utils.ts:106-109 | an overdue result stays overdue at any later time |
| Utils.Truncate | src/lib/utils.ts:114-117 | unchanged when short enough; else the first `length` characters and `...`, `length + 3` long |
| Utils.TrimStart | src/lib/utils.ts:123 | a suffix of the input; everything dropped is whitespace and the result does not start with whitespace |
| Utils.TrimEnd | src/lib/utils.ts:123 | a prefix of the input; everything dropped is whitespace and the result does not end with whitespace |
| Utils.Trim | src/lib/utils.ts:123 | the input with only whitespace cut from its two ends, and none left at either end; no upper-case letter introduced |
| Utils.TrimCutsWhitespace | src/lib/utils.ts:123 | trimming the start and then the end leaves a slice of the input with only whitespace before and after it |
| Utils.TrimKeepsNoUpper | src/lib/utils.ts:123 | trimming introduces no upper-case letter |
| Utils.ReplaceWhitespaceRunsNoWhitespace | src/lib/utils.ts:124 | replacing whitespace runs by hyphens leaves no whitespace |
| Utils.ReplaceWhitespaceRunsNoUpper | src/lib/utils.ts:124 | the replacement introduces no upper-case letter |
| Utils.StripNonWord | src/lib/utils.ts:125 | only word characters and hyphens left |
| Utils.CollapseHyphenRunsSound | src/lib/utils.ts:126 | collapsing hyphen runs leaves no `--` and keeps slug characters |
| Utils.Slugify | src/lib/utils.ts:119-127 | only `[a-z0-9_-]`, hence no upper case and no whitespace, and no `--` |
| Utils.ReplaceWhitespaceRunsIdentity | src/lib/utils.ts:124 | a string without whitespace is unchanged |
| Utils.CollapseHyphenRunsIdentity | src/lib/utils.ts:126 | a string without `--` is unchanged |
| Utils.SlugSurvivesTrim | src/lib/utils.ts:122-123 | lower-casing and trimming leave a string of slug characters unchanged |
| Utils.SlugIsFixpoint | src/lib/utils.ts:119-127 | every string of `[a-z0-9_-]` without `--` is returned unchanged, so every such slug is reachable |
| Utils.SlugifyIdempotent | src/lib/utils.ts:119-127 | slugifying a slug changes nothing |
| Utils.CalculatePercentageChange | src/lib/utils.ts:176-189 | a zero previous value gives value 0 and label `0%` |
| Utils.IsValidEmail | src/lib/utils.ts:193-196 | decides the regular expression by locating the `@`; its contract is the equivalence stated by `Utils.IsValidEmailMatchesPattern` |
| Utils.IsValidEmailMatchesPattern | src/lib/utils.ts:193-196 | accepted iff exactly one `@`, no whitespace, a non-empty local part and a `.` in the domain with a character on each side |
| Utils.InsertByDate | src/lib/utils.ts:213-217 | inserting keeps the multiset of items plus the new one |
| Utils.InsertByDateSorted | src/lib/utils.ts:213-217 | inserting into a sorted list keeps it sorted |
| Utils.SortByDate | src/lib/utils.ts:209-218 | a permutation of the input, ordered by `created_at` descending or ascending |
| Supabase.HandleSupabaseError | src/lib/supabase.ts:71-85 | PGRST116, 23505 and 23503 map to their messages; else a message is returned verbatim; else the default text |
| Supabase.KnownCodeTakesPrecedence | src/lib/supabase.ts:71-84 | a known code gives the same text whatever the message |
| Supabase.LastDotSegment | src/lib/supabase.ts:46 | a dot-free suffix of the name, preceded by a dot when the name has one |
| Supabase.NoDotIsOwnExtension | src/lib/supabase.ts:46 | a name without a dot is its own extension |
| Supabase.DotSplitsName | src/lib/supabase.ts:46 | a name with a dot is the text up to its last dot followed by the extension |
| Supabase.AttachmentPath | src/lib/supabase.ts:46-48 | `invoices/` + id + `-` + decimal timestamp + `.` + extension |
| MockData.LoadMockInvoices | src/lib/mockData.ts:29-31 | the fixture unchanged |
| MockData.GetMockInvoiceWithItems | src/lib/mockData.ts:36-41 | null iff no invoice has the id; else the first such invoice with exactly its items, in fixture order, each item as many times as in the fixture |
| MockData.GetMockClient | src/lib/mockData.ts:46-48 | the first client with the id, or none iff there is none |
| MockData.GetMockPayments | src/lib/mockData.ts:53-55 | an ordered subsequence holding exactly the invoice's payments, each as many times as in the fixture |
| InvoiceDrawer.DefaultValues | src/components/invoices/InvoiceDrawer.tsx:29-37 | draft, one blank row (qty 1, price 0), tax 0, not recurring, due 2592000000 ms after the issue date |
| InvoiceDrawer.PricedItems | src/components/invoices/InvoiceDrawer.tsx:49-55 | each row's amount is quantity times unit price, other fields kept |
| InvoiceDrawer.PricedItemsIgnoresStoredAmount | src/components/invoices/InvoiceDrawer.tsx:49-55 | rows that differ only in stored amount price the same |
| InvoiceDrawer.PricedItemsIdempotent | src/components/invoices/InvoiceDrawer.tsx:49-55 | pricing priced rows changes nothing |
| InvoiceDrawer.BuildPayload | src/components/invoices/InvoiceDrawer.tsx:65-75 | no items; the user's id; a generated number when the typed one is empty; the computed totals; the other form fields copied |
| InvoiceDrawer.Drawer.constructor | src/components/invoices/InvoiceDrawer.tsx:29-37 | the form starts at its defaults, not submitting |
| InvoiceDrawer.Drawer.AppendItem | src/components/invoices/InvoiceDrawer.tsx:275 | exactly one blank row at the end, the others unchanged |
| InvoiceDrawer.Drawer.RemoveItem | src/components/invoices/InvoiceDrawer.tsx:258-266 | offered only with more than one row; drops that row, so the list never becomes empty |
| InvoiceDrawer.Drawer.EditItem | src/components/invoices/InvoiceDrawer.tsx:214-250 | replaces one row, the others unchanged |
| InvoiceDrawer.Drawer.SetStatus | src/components/invoices/InvoiceDrawer.tsx:332 | changes only the status field |
| InvoiceDrawer.Drawer.Submit | src/components/invoices/InvoiceDrawer.tsx:57-82 | without a user id nothing changes and no payload is sent; else the payload is created through the store, the store's list and error are those the create and refetch outcomes give, the drawer closes, selection and modal are unchanged, and submitting ends false |
| InvoiceTable.FilteredRows | src/components/invoices/InvoiceTable.tsx:13-17 | an ordered subsequence of the store's list, keeping exactly the rows whose number, client name or client email contains the lower-cased query, each as many times as it occurs in the list |
| InvoiceTable.EmptyQueryKeepsAll | src/components/invoices/InvoiceTable.tsx:13-17 | an empty query keeps every invoice, in order |
| InvoiceTable.MissingClientFieldsNeverMatch | src/components/invoices/InvoiceTable.tsx:15-16 | without client name and email only the number can match |
| InvoiceTable.ClickRow | src/components/invoices/InvoiceTable.tsx:74 | opens the modal on that row's invoice |
| DashboardStats.CardAmountsOf | src/components/dashboard/DashboardStats.tsx:16-26 | the three card sums; their meaning is stated by `DashboardStats.AgreesWithStoreSelector` and `DashboardStats.CardsCoverNonCancelled` |
| DashboardStats.AgreesWithStoreSelector | src/components/dashboard/DashboardStats.tsx:16-26 | the card amounts equal the store selector's fields on the same list |
| DashboardStats.CardsCoverNonCancelled | src/components/dashboard/DashboardStats.tsx:16-26 | received + pending + drafts is the total over non-cancelled invoices |
| StatusBadge.StatusConfig | src/components/invoices/StatusBadge.tsx:11-42 | every status has an entry; only paid has an icon; each dot colour is the shared helper's |
| StatusBadge.BadgeMarker | src/components/invoices/StatusBadge.tsx:44-53 | an icon exactly for paid; otherwise a dot in the shared dot colour |
| StatusBadge.LabelsAreCapitalizedNames | src/components/invoices/StatusBadge.tsx:11-42 | sent reads "Pending"; other labels are the capitalised status names |
| StatusBadge.LabelsDistinct | src/components/invoices/StatusBadge.tsx:11-42 | no two statuses share a label |
| StatusBadge.DotColorsAgreeWithUtils | src/components/invoices/StatusBadge.tsx:11-42 | each dot colour is the shared helper's dot colour |
| JsString.NumberToString | src/lib/utils.ts:62 | non-empty digits below the radix without a leading zero |
| JsString.ParseNumberToString | src/lib/utils.ts:62 | parsing the digits gives the number back |
| JsString.ParseUpperCase | src/lib/utils.ts:62 | upper-casing the digits does not change their value |
| JsArray.Filter | src/stores/invoiceStore.ts:178-196 | keeps exactly the elements satisfying the predicate |
| JsArray.FilterMultiset | src/stores/invoiceStore.ts:178-196 | every copy of a satisfying element is kept and no copy of any other |
| JsArray.FilterIsSubsequence | src/stores/invoiceStore.ts:178-196 | the kept elements are in their original order |
| JsArray.FilterIdempotent | src/stores/invoiceStore.ts:178-196 | filtering twice by the same predicate equals once |
| JsArray.FindIndex | src/lib/mockData.ts:37 | the first index satisfying the predicate, none iff there is none |
| JsArray.Find | src/lib/mockData.ts:37 | the first element satisfying the predicate, none iff there is none |

## Left out

- Rendering (JSX, transitions, Tailwind classes, icons) is not modelled. `StatusBadge` keeps only the table and the icon-or-dot choice.
- The remote database client and network calls are not modelled; their outcome is a parameter.
- Concurrency is not modelled: overlapping async actions and last-write-wins races. Each action is one sequential step.
- The authentication store's timer delays are not modelled. Each deferred `set` is a separate settle method that the caller invokes later.
- `calculateInvoiceTotals`, `invoiceFormSchema` and the schema's `generateInvoiceNumber` are not part of this model. The totals are a function parameter and the generated numbers are string parameters; zod validation is not modelled.
- Float arithmetic, `toFixed` rounding and Intl formatting are not modelled: `formatCurrency`, `formatDate` and the relative-time text.
- `Utils.CalculatePercentageChange` takes the `toFixed(1)` text as a function parameter and uses `real` for the values. It does not model floating point.
- ISO date parsing, invalid (`NaN`) dates and `toISOString` are not modelled. Dates are integer milliseconds.
- `toLowerCase`/`toUpperCase` are modelled on ASCII letters only. Unicode case mapping is not modelled.
- `debounce`, clipboard and download helpers, `localStorage` and `cn`/`twMerge` are browser helpers and are not modelled.
- Utils.SortByDate: states a sorted permutation but not the stability of the engine's sort. It is built by insertion, which is not the engine's algorithm.
- InvoiceStore.DashboardStatsOf: sums from the front, where `reduce` folds from the left. Integer addition makes the two equal.
- InvoiceDrawer.DefaultValues: issue and due dates use one clock reading, where the source reads the clock twice.
- Utils.RandomPart: takes the base-36 digits of `Math.random()` after `0.` as a digit sequence. The float-to-text conversion is not modelled.
- Fixture JSON contents are not modelled; the fixtures are parameters.
- `Database.InvoicePatch` lists some of the update's optional fields, but no contract uses them: the update's outcome and the refetched list are parameters, so what the patch writes is not modelled.
- Utils.Truncate: lengths and the cut point count Unicode scalar values, where JavaScript's `length` and `substring` count UTF-16 code units. The two agree only on text without characters outside the Basic Multilingual Plane; for such characters (an emoji, say) the source may cut inside a surrogate pair where the model keeps the string whole.
- JsString.Substring: counts Unicode scalar values rather than UTF-16 code units, as for `Utils.Truncate`; `JsString.Includes` likewise matches on scalar values.
- Utils.GenerateInvoiceNumber: the prefix is always an argument; the source's default `'INV'` is not modelled.
- Utils.SortByDate: the order is always an argument; the source's default `'desc'` is not modelled.
- InvoiceDrawer.Drawer.Submit: the `catch` path is not modelled. In the source, an invalid date makes `toISOString` throw while the payload is built; then neither `createInvoice` nor `closeDrawer` runs, and only `isSubmitting` is reset.
