# event-tickets in Dafny

A model of the core of a small event-ticketing web application. A buyer fills a
form (name, WhatsApp phone, number of seats) to reserve a ticket, pays by Pix, and
an administrator confirms the payment and marks the ticket as used from a
dashboard. The buyer's digital ticket shows a status badge and a QR code linking
to its page, and can be downloaded as PNG or PDF.

The model covers:

- the **ticket store** (`TicketService`): the hosted `tickets` table as a class
  over a sequence of rows, oldest first, so that listing newest first is the
  reverse. It has the seven operations `create` (check the phone, then insert),
  `getById`, `getAll`, `search`, `confirmPayment`, `markAsUsed` and `revertUsed`.
  Each state-changing method is proved equal to a pure step function (`Created`,
  `Updating`); the three queries state what they return. The lemmas state the dedup rule, the initial state `(pendente, false)`, the
  one-field updates, idempotence, and that the table's invariants are kept;
- the **purchase form** (`TicketForm`): the `(dd) ddddd-dddd` phone mask, the
  quantity controls that never go below 1, the submit guard, and the displayed total;
- the **dashboard** (`AdminDashboard`): the client-side search filter, the four stat
  counters, the WhatsApp number built when a payment is confirmed, and the component
  state its handlers update;
- the **ticket card** (`TicketCard`) and the **digital ticket** (`DigitalTicket`):
  badge precedence (used > paid > pending), the administrator's menu, the quantity
  label, the QR link, the QR dimming, the download file names, the PDF orientation,
  and the export flag;
- the **purchase page** (`IndexPage`): total = quantity × 30, redirecting a confirmed
  ticket, entering the payment step otherwise, and "view my ticket".

Facts about the environment are parameters:
- whether the collaborator answered (`ok`, `lookupOk`, `insertOk`, `fetchOk`);
- the id the server generates for a new row (`newId`);
- what `parseInt` returned;
- whether the ticket element is mounted (`mounted`, i.e. `ticketRef.current` is set);
- whether `html2canvas` produced a canvas, and its size;
- `window.location.origin`.

Navigation is modelled as a returned path. `criado_em` is a number stamped from a
clock in the table state, which grows with every insert.

Three things the code does that a reader might not expect:
- The store's `search` has no rule for a blank query. It puts the raw query into an
  `ilike` pattern on the name and the phone. So a query of one space matches every
  phone the form formatted from three or more digits, because of the space after
  `(dd)` (`SpaceQueryMatchesFormattedPhone`), and returns nearly every ticket. Only
  the dashboard's own filter treats a blank query as "show everything".
- Nothing rejects a quantity of 0, a negative quantity, or more than 6 seats. The
  form clamps the quantity to at least 1 and has no upper bound, and the store
  validates nothing.
- `markAsUsed` does not require a confirmed payment (`MarkAsUsedIgnoresPayment`).

## Model

| member | source | states |
|---|---|---|
| `TicketService.Lookup` | src/services/ticketService.ts:57-69 | the row found has the requested id; nothing is found exactly when no row has it |
| `TicketService.LookupFindsRow` | src/services/ticketService.ts:58-62 | with unique ids, looking up a row's id yields that row |
| `TicketService.LatestWithPhone` | src/services/ticketService.ts:24-29 | the duplicate lookup finds the newest row with that phone (no later row has it), or none exactly when no row has it |
| `TicketService.NewestFirst` | src/services/ticketService.ts:71-79 | `getAll`'s order: the rows read from newest to oldest; `GetAllOrdered` proves it sorted by `criado_em` descending and a permutation |
| `TicketService.IlikeMatch` | src/services/ticketService.ts:85 | the or-filter `ilike '%q%'` on the name or the phone, case-insensitively; `AnaSilvaSearch` and `SpaceQueryMatchesFormattedPhone` are instances |
| `TicketService.SearchResult` | src/services/ticketService.ts:81-90 | `search`'s rows; `SearchIsSelectionOfGetAll` and `SearchEmptyIsGetAll` specify it |
| `TicketService.NewRow` | src/services/ticketService.ts:45-49 | the inserted row, pendente and not used; `CreateInsertsPendingRow` states its fields |
| `TicketService.Created` | src/services/ticketService.ts:22-55 | `create` as a step on the table; specified by `CreateReturnsExisting`, `CreateInsertsPendingRow`, `CreateInsertFailure`, `FailedLookupDuplicatesPhone`, `CreateTwiceSameTicket` and the invariant lemmas |
| `TicketService.CreateReturnsExisting` | src/services/ticketService.ts:23-40 | when the phone already has a ticket, `create` returns the newest such row and leaves the table unchanged |
| `TicketService.CreateInsertsPendingRow` | src/services/ticketService.ts:42-54 | with no ticket for the phone, a successful insert appends exactly one row: the new id, pendente, not used, the caller's name, phone, quantity and total; ids stay unique |
| `TicketService.CreateInsertFailure` | src/services/ticketService.ts:53 | a rejected insert is a persistence error and the table is unchanged |
| `TicketService.FailedLookupDuplicatesPhone` | src/services/ticketService.ts:31-34 | a failed duplicate lookup is swallowed: `create` inserts anyway, and the phone then has two tickets |
| `TicketService.CreatePreservesWellFormed` | src/services/ticketService.ts:22-55 | every outcome of `create` keeps ids unique and creation stamps increasing |
| `TicketService.CreatePreservesOneTicketPerPhone` | src/services/ticketService.ts:23-51 | when its lookup succeeds, `create` keeps at most one ticket per phone |
| `TicketService.CreateTwiceSameTicket` | src/services/ticketService.ts:36-40 | a second `create` with the same phone returns the same ticket (same id) and changes nothing, whatever its name and quantity |
| `TicketService.GetByIdAfterCreate` | src/services/ticketService.ts:22-69 | `getById` with the id a fresh `create` returned finds exactly that row, pendente and not used |
| `TicketService.Apply` | src/services/ticketService.ts:92-126 | the one-column change each update writes; specified by `ApplyWritesOneField` |
| `TicketService.Updated` | src/services/ticketService.ts:92-126 | `.update(change).eq("id", id)` on the rows; specified by `UpdateTouchesOneRow` and `LookupUpdated` |
| `TicketService.Updating` | src/services/ticketService.ts:92-126 | an update as a step on the table; specified by `UpdateTouchesOneRow`, `UpdateAbsentIsNotFound`, `UpdateIdempotent`, `MarkThenRevert` and `UpdatePreservesInvariants` |
| `TicketService.GetAllOrdered` | src/services/ticketService.ts:71-79 | `getAll` lists every row exactly once (same multiset), `criado_em` descending |
| `TicketService.SearchIsSelectionOfGetAll` | src/services/ticketService.ts:81-90 | `search(q)` keeps exactly the rows whose name or phone contains q ignoring case, as an order-preserving selection of `getAll`, so newest first |
| `TicketService.SearchEmptyIsGetAll` | src/services/ticketService.ts:85-86 | searching for the empty string returns `getAll` |
| `TicketService.ApplyWritesOneField` | src/services/ticketService.ts:92-126 | each update writes its one column and leaves every other field of the row as it was |
| `TicketService.UpdateTouchesOneRow` | src/services/ticketService.ts:92-102 | an update changes the target row only, returns the updated row, and leaves every other row unchanged |
| `TicketService.UpdateAbsentIsNotFound` | src/services/ticketService.ts:96-100 | updating an id no row has is a not-found error and changes nothing |
| `TicketService.LookupUpdated` | src/services/ticketService.ts:96-98 | after an update, looking up the id yields the updated row |
| `TicketService.UpdateIdempotent` | src/services/ticketService.ts:92-126 | repeating `confirmPayment`, `markAsUsed` or `revertUsed` returns the same row and leaves the same table |
| `TicketService.MarkThenRevert` | src/services/ticketService.ts:104-126 | `markAsUsed` then `revertUsed` gives an unused ticket with its payment status unchanged, and on a ticket that was not used restores the whole table |
| `TicketService.MarkAsUsedIgnoresPayment` | src/services/ticketService.ts:104-114 | a pending ticket can be marked used: no payment precondition |
| `TicketService.UpdatePreservesInvariants` | src/services/ticketService.ts:92-126 | updates keep ids unique, stamps ordered and phones unique |
| `TicketService.OperationsKeepKnownStatuses` | src/services/ticketService.ts:45-95 | the store only ever writes "pendente" or "confirmado" |
| `TicketService.GetByIdAfterUpdate` | src/services/ticketService.ts:57-102 | `getById` after a successful update sees the row the update returned |
| `TicketService.AnaSilvaLifecycle` | src/services/ticketService.ts:22-126 | create on an empty table gives total 60 and pendente; repeating it returns the same id; confirm, mark and revert show confirmado, used, then not used and still confirmado |
| `TicketService.AnaSilvaSearch` | src/services/ticketService.ts:85 | "ana", "SILVA" and "1234" each find the ticket of Ana Silva, (11) 91234-5678 |
| `TicketService.TicketTable.constructor` | src/services/ticketService.ts:21 | an empty, well-formed table |
| `TicketService.TicketTable.Create` | src/services/ticketService.ts:22-55 | the new table and the result are those of `Created`; the invariant is kept |
| `TicketService.TicketTable.GetById` | src/services/ticketService.ts:57-69 | a failed request is an error; otherwise none exactly when no row has the id, and the row when one does |
| `TicketService.TicketTable.GetAll` | src/services/ticketService.ts:71-79 | every row once, `criado_em` descending; a failed request is an error |
| `TicketService.TicketTable.Search` | src/services/ticketService.ts:81-90 | exactly the case-insensitively matching rows, newest first; a failed request is an error |
| `TicketService.TicketTable.Update` | src/services/ticketService.ts:92-126 | the new table and the result are those of `Updating` |
| `TicketService.TicketTable.ConfirmPayment` | src/services/ticketService.ts:92-102 | the new table and result are `Updating` with the "confirmado" status change, so only `status_pagamento` of the row with that id changes |
| `TicketService.TicketTable.MarkAsUsed` | src/services/ticketService.ts:104-114 | the new table and result are `Updating` with `usado` set to true, whatever the payment status |
| `TicketService.TicketTable.RevertUsed` | src/services/ticketService.ts:116-126 | the new table and result are `Updating` with `usado` set to false |
| `Seqs.Reverse` | src/services/ticketService.ts:75 | reading newest first: position i holds the (n-1-i)-th row |
| `Seqs.Filter` | src/pages/AdminDashboard.tsx:59 | `filter` keeps exactly the elements satisfying the predicate, and no more than there were |
| `Seqs.FilterMultiset` | src/pages/AdminDashboard.tsx:59 | `filter` keeps every occurrence of a selected element and drops every occurrence of the others |
| `Seqs.FilterIsSubsequence` | src/pages/AdminDashboard.tsx:59 | `filter` keeps the original order |
| `Seqs.DisjointFiltersBound` | src/pages/AdminDashboard.tsx:130-131 | two exclusive filters select at most the whole list between them |
| `Text.Digits` | src/components/TicketForm.tsx:19 | `replace(/\D/g, "")` yields only digits, no longer than its input |
| `Text.DigitsAppend` | src/components/TicketForm.tsx:19 | stripping non-digits distributes over concatenation |
| `Text.Lower` | src/pages/AdminDashboard.tsx:61 | `toLowerCase`, on ASCII letters only; `LowerIdempotent` and `LowerOfDigits` state its properties |
| `Text.Contains` | src/pages/AdminDashboard.tsx:61-62 | `includes`: the query occurs at some position; `ContainsEmpty` shows the empty query occurs everywhere |
| `Text.Trim` | src/components/TicketForm.tsx:31-32 | `trim()`; `TrimIdempotent` states it leaves no whitespace at either end and is stable |
| `Text.IsBlank` | src/components/TicketForm.tsx:31 | `!s.trim()`; `BlankIffAllWhitespace` states it holds exactly when every character is whitespace |
| `Text.BlankIffAllWhitespace` | src/components/TicketForm.tsx:31 | `trim()` is empty exactly when every character is whitespace |
| `Text.TrimIdempotent` | src/components/TicketForm.tsx:32 | a trimmed string has no whitespace at either end, and trimming again changes nothing |
| `TicketForm.FormatPhone` | src/components/TicketForm.tsx:18-23 | the phone mask; specified by `FormatPhoneShape`, `FormatPhoneLength`, `FormatPhoneDigits` and `FormatPhoneIdempotent` |
| `TicketForm.Slice` | src/components/TicketForm.tsx:21-22 | `numbers.slice(i, j)`, clipping past the end; `FormatPhoneDigits` states the digits it keeps |
| `TicketModel.TicketPath` | src/pages/Index.tsx:29 | the route starts with `/ingresso/` and the rest is exactly the id, so the id can be read back |
| `TicketModel.TicketPathInjective` | src/pages/Index.tsx:45-49 | distinct ids have distinct ticket pages |
| `TicketForm.FormatPhoneShape` | src/components/TicketForm.tsx:18-23 | up to 2 digits stay bare; beyond that the output is `(dd) ` then digits, whose length is the kept digits plus 3, or plus 4 with the dash at position 10 once there are more than 7 digits |
| `TicketForm.FormatPhoneLength` | src/components/TicketForm.tsx:18-62 | the formatted phone is at most 15 characters long, the field's `maxLength`, and exactly 15 for a full number |
| `TicketForm.FormatPhoneDigits` | src/components/TicketForm.tsx:19-22 | the output's digits are the input's first digits, at most 11: digits past the 11th are dropped |
| `TicketForm.FormatPhoneIdempotent` | src/components/TicketForm.tsx:18-26 | re-formatting a formatted phone changes nothing |
| `TicketForm.Decremented` | src/components/TicketForm.tsx:77 | the − button gives one less, never below 1 |
| `TicketForm.Incremented` | src/components/TicketForm.tsx:93 | the + button always gives more, with no upper bound |
| `TicketForm.TypedQuantity` | src/components/TicketForm.tsx:86 | a typed quantity is kept when it is at least 1; zero, negatives and NaN give 1 |
| `TicketForm.Total` | src/components/TicketForm.tsx:98-100 | the displayed total is at least one unit price for a valid quantity |
| `TicketForm.TotalStep` | src/components/TicketForm.tsx:73-100 | each + or − (above 1) moves the total by exactly 30 |
| `TicketForm.Submission` | src/components/TicketForm.tsx:29-33 | nothing is submitted when the trimmed name or phone is empty; otherwise the trimmed name, the phone as held and the quantity |
| `TicketForm.SubmittedNameIsTrimmed` | src/components/TicketForm.tsx:32 | a submitted name is non-empty with no whitespace at either end |
| `TicketForm.SubmitDisabled` | src/components/TicketForm.tsx:105 | the button's `disabled` expression; `EnabledIffSubmits` ties it to the submit guard |
| `TicketForm.EnabledIffSubmits` | src/components/TicketForm.tsx:29-105 | when not loading, the button is enabled exactly when a submit goes through |
| `TicketForm.ButtonNoun` | src/components/TicketForm.tsx:113 | the button says "ingressos" exactly for more than one seat |
| `TicketForm.TicketFormState.constructor` | src/components/TicketForm.tsx:13-15 | empty name and phone, quantity 1 |
| `TicketForm.TicketFormState.NameChange` | src/components/TicketForm.tsx:46 | sets the name only |
| `TicketForm.TicketFormState.PhoneChange` | src/components/TicketForm.tsx:25-27 | the phone field holds the formatted input, at most 15 characters |
| `TicketForm.TicketFormState.DecrementClick` | src/components/TicketForm.tsx:77 | quantity becomes `Decremented` of the old one and stays at least 1 |
| `TicketForm.TicketFormState.IncrementClick` | src/components/TicketForm.tsx:93 | quantity grows by one |
| `TicketForm.TicketFormState.QuantityInput` | src/components/TicketForm.tsx:86 | quantity becomes `TypedQuantity` of the parsed input, at least 1 |
| `TicketForm.TicketFormState.HandleSubmit` | src/components/TicketForm.tsx:29-33 | returns `Submission` of the held fields, so `EnabledIffSubmits` and `SubmittedNameIsTrimmed` apply: none when the trimmed name or phone is empty, else the trimmed name, the held phone and a quantity of at least 1 |
| `AdminDashboard.Matches` | src/pages/AdminDashboard.tsx:59-63 | the filter's test: the lower-cased name or the raw phone contains the query; `FilteredExactly` and `PhoneMatchIsVerbatim` use it |
| `AdminDashboard.Filtered` | src/pages/AdminDashboard.tsx:57-68 | the shown list; specified by `BlankSearchShowsAll`, `FilteredExactly` and `FilteredIsSubsequence` |
| `AdminDashboard.BlankSearchShowsAll` | src/pages/AdminDashboard.tsx:57-68 | an empty or whitespace-only search shows the loaded list unchanged |
| `AdminDashboard.FilteredExactly` | src/pages/AdminDashboard.tsx:59-63 | a non-blank search keeps exactly the tickets whose lower-cased name contains the lower-cased query or whose phone contains the raw query |
| `AdminDashboard.FilteredIsSubsequence` | src/pages/AdminDashboard.tsx:57-68 | the shown list is an order-preserving selection of the loaded list |
| `AdminDashboard.PhoneMatchIsVerbatim` | src/pages/AdminDashboard.tsx:62 | for a non-blank query, any loaded ticket whose phone contains the query as typed is shown |
| `IndexPage.SpaceQueryMatchesFormattedPhone` | src/services/ticketService.ts:81-90 | the store's `search(" ")` matches any ticket whose phone the form formatted from three or more digits |
| `AdminDashboard.StatsOf` | src/pages/AdminDashboard.tsx:128-133 | the four counters; specified by `StatsBounds` and `StatsPartitionOfStoreRows` |
| `AdminDashboard.StatsBounds` | src/pages/AdminDashboard.tsx:128-133 | paid + pending never exceed the total, and used never exceeds it |
| `AdminDashboard.StatsPartitionOfStoreRows` | src/pages/AdminDashboard.tsx:129-131 | when every status is pendente or confirmado, paid + pending equals the total |
| `AdminDashboard.WhatsAppPhone` | src/pages/AdminDashboard.tsx:88-91 | the number contains only digits: the phone's digits, prefixed with 55 exactly when there are 11 or fewer |
| `AdminDashboard.FormPhonesGetCountryCode` | src/pages/AdminDashboard.tsx:89 | a phone typed through the form has at most 11 digits, so it always gets the 55 prefix |
| `AdminDashboard.ConfirmationText` | src/pages/AdminDashboard.tsx:94 | the greeting with the buyer's name and ticket link; `Dashboard.HandleConfirmPayment` states where it is used |
| `AdminDashboard.Dashboard.constructor` | src/pages/AdminDashboard.tsx:12-16 | empty lists, empty search, loading, not refreshing |
| `AdminDashboard.Dashboard.SearchChange` | src/pages/AdminDashboard.tsx:57-68 | the shown list is re-filtered with the new search |
| `AdminDashboard.Dashboard.HandleRefresh` | src/pages/AdminDashboard.tsx:70-73 | raises the refresh spinner and reloads: on success the list is `getAll`'s, on failure it is kept; both spinners end off, the search is kept and the shown list is its filter |
| `AdminDashboard.Dashboard.FetchTickets` | src/pages/AdminDashboard.tsx:19-31 | on success the list is `getAll`'s, on failure it is kept; both spinners stop; the shown list is its filter |
| `AdminDashboard.Dashboard.HandleConfirmPayment` | src/pages/AdminDashboard.tsx:80-105 | the store is confirmed. A WhatsApp message is prepared exactly when the confirmation succeeded and the ticket is in the loaded list. Its text greets the buyer with the link to the ticket. Its number is the phone's digits, with 55 in front exactly when there are 11 or fewer. After a confirmation the list is reloaded and both spinners stop. After a failure the list and spinners are kept. The search is always kept |
| `AdminDashboard.Dashboard.HandleUsage` | src/pages/AdminDashboard.tsx:107-125 | marks used or reverts in the store. Only after success is the list reloaded and both spinners stopped. After a failure the list and spinners are kept. The search is always kept |
| `TicketCard.IsPaid` | src/components/TicketCard.tsx:25 | `isPaid`: the status is "confirmado"; the `Badge` and `Menu` contracts are stated with it |
| `TicketCard.IsUsed` | src/components/TicketCard.tsx:26 | `isUsed`: the `usado` flag, which the `Badge` and `Menu` contracts test directly |
| `TicketCard.BadgeLabel` | src/components/TicketCard.tsx:62-77 | the badge texts "Utilizado", "Pago" and "Pendente", one per badge chosen by `Badge` |
| `TicketCard.Badge` | src/components/TicketCard.tsx:62-77 | "Utilizado" exactly when used; else "Pago" exactly when paid; else "Pendente" |
| `TicketCard.Style` | src/components/TicketCard.tsx:39-45 | the card's look; `StyleFollowsBadge` ties it one-to-one to the badge |
| `TicketCard.StyleFollowsBadge` | src/components/TicketCard.tsx:39-45 | the card style has the same precedence as the badge, one style per badge |
| `TicketCard.Menu` | src/components/TicketCard.tsx:90-109 | confirm offered exactly when not paid; mark-used exactly when paid and not used; revert exactly when used |
| `TicketCard.MenuForPaidTicket` | src/components/TicketCard.tsx:91-108 | a paid ticket offers exactly one of mark-used and revert; no menu is empty |
| `TicketCard.OfferedActionRetires` | src/components/TicketCard.tsx:91-108 | an offered action, once applied, is no longer offered; mark-used brings up revert, and revert on a paid ticket brings back mark-used |
| `TicketCard.ChangeFor` | src/components/TicketCard.tsx:91-108 | the store update each menu entry's handler triggers; `OfferedActionRetires` states its effect on the menu |
| `TicketCard.ShownQuantity` | src/components/TicketCard.tsx:59 | the quantity shown is the stored one when present and non-zero, else 1 |
| `TicketCard.QuantityNoun` | src/components/TicketCard.tsx:59 | "Ingressos" exactly when the shown quantity exceeds 1 |
| `DigitalTicket.TicketUrl` | src/components/DigitalTicket.tsx:18 | the QR link is the fixed host followed by the ticket's `/ingresso/<id>` route |
| `DigitalTicket.TicketUrlInjective` | src/components/DigitalTicket.tsx:18 | distinct tickets never share a QR link |
| `DigitalTicket.Badge` | src/components/DigitalTicket.tsx:103-117 | "Ingresso Utilizado" exactly when used; else "Pagamento Confirmado" exactly when confirmado; else "Aguardando Pagamento" |
| `DigitalTicket.BadgeLabel` | src/components/DigitalTicket.tsx:103-117 | the badge texts "Ingresso Utilizado", "Pagamento Confirmado" and "Aguardando Pagamento", one per badge chosen by `Badge` |
| `DigitalTicket.QrDimmed` | src/components/DigitalTicket.tsx:122 | the `opacity-50` condition; `DimmedIffUsedBadge` ties it to the used badge |
| `DigitalTicket.BadgeAgreesWithCard` | src/components/DigitalTicket.tsx:103-117 | the buyer's badge and the administrator's badge always show the same state |
| `DigitalTicket.DimmedIffUsedBadge` | src/components/DigitalTicket.tsx:122 | the QR code is dimmed exactly when the badge says the ticket was used |
| `DigitalTicket.Extension` | src/components/DigitalTicket.tsx:47-71 | `.png` or `.pdf`; `DownloadName` ends with it and `DownloadNamesDiffer` shows the two differ |
| `DigitalTicket.DownloadName` | src/components/DigitalTicket.tsx:47-71 | the file name is `ingresso-`, the buyer's name, `-`, the ticket id and the format's extension, in that order |
| `DigitalTicket.DownloadNamesDiffer` | src/components/DigitalTicket.tsx:47-71 | the PNG and PDF names share their stem and differ |
| `DigitalTicket.PageFor` | src/components/DigitalTicket.tsx:62-66 | landscape exactly when wider than tall; the page has the capture's size |
| `DigitalTicket.OrientationFlips` | src/components/DigitalTicket.tsx:63 | swapping the sides of a non-square capture flips the orientation; a square one is portrait |
| `DigitalTicket.TicketExporter.constructor` | src/components/DigitalTicket.tsx:17 | not exporting |
| `DigitalTicket.TicketExporter.HandleDownload` | src/components/DigitalTicket.tsx:32-78 | nothing happens without the ticket element; otherwise the flag is cleared afterwards whether the export succeeded or failed, and the right file (and PDF page) is produced |
| `IndexPage.TicketData` | src/pages/Index.tsx:20-23 | the data sent to `create` is the form data with `valor_total` = quantity × 30 |
| `IndexPage.PixAmount` | src/pages/Index.tsx:89 | the amount the payment step shows; `TotalsAgree` ties it to the stored and displayed totals |
| `IndexPage.TotalsAgree` | src/pages/Index.tsx:20-89 | the stored total, the form's displayed total and the Pix amount agree for the submitted quantity |
| `IndexPage.RepeatPurchaseAmountDiffers` | src/pages/Index.tsx:25-34 | for any table with one ticket per phone, a repeat purchase from a phone that has a ticket gets that ticket back with the table unchanged; when the quantity differs in price, the returned total differs from the amount the payment step asks for |
| `IndexPage.PurchasePage.constructor` | src/pages/Index.tsx:11-14 | not loading, no payment step, no ticket, quantity 1 |
| `IndexPage.PurchasePage.HandleSubmit` | src/pages/Index.tsx:17-43 | a confirmed ticket navigates to its page without entering the payment step; any other ticket enters it with its id and the submitted quantity; a failure changes neither; loading is off afterwards |
| `IndexPage.PurchasePage.HandleViewTicket` | src/pages/Index.tsx:45-49 | navigates to the ticket's page exactly when a non-empty id is held |

## Left out

- The hosted backend's client and query builder. The table is modelled as a sequence of rows. Its `PGRST116` code becomes a `None` result (`getById`) or a `NotFound` error (updates).
- The race in `create`: the check and the insert are separate requests, and concurrent calls can both insert. The model assumes calls happen one at a time.
- Authentication: the session guard, the login page and the login form.
- Rendering: `html2canvas` capture, `jsPDF` drawing and QR rendering. Only the file name, the page size and orientation, and the export flag are modelled. The capture's success and size are parameters.
- Date display through `toLocaleDateString`, because it depends on the locale.
- The WhatsApp deep link: `encodeURIComponent` of the message, the `wa.me` URL and `window.open`. The model stops at the phone number and the message text.
- Toasts, `useEffect` lifecycles (auth check, subscription), the 100 ms export delay, and the rendering of spinners and lists. Navigation is a returned path.
- The ticket view page, the Pix QR image choice and the WhatsApp button: a fetch wrapper over `getById`, one image ternary, and a constant URL.
- `parseInt`: the typed-quantity handler receives its result, with `None` for NaN.
- Number rendering: `toFixed(2)` and the JSX rendering of numbers as text.
- Timestamps: `criado_em` is a counter stamped from the table's clock. Server-clock strings are not modelled.
- Amounts and quantities are JavaScript numbers (floating point). They are modelled as integers.
- A maximum of 6 seats and any quantity validation in the store: the code enforces neither.
- `Text.Lower`: models `toLowerCase` on ASCII letters only. Non-ASCII letters in names (such as "Á") are not lower-cased.
- `TicketService.IlikeMatch`: treats the query as plain text. A `%`, `_` or `*` in the query acts as a wildcard in `ilike` (`*` is the hosted backend's alias of `%`), and a comma or parenthesis breaks the `or` filter's syntax. Neither effect is modelled.
- `AdminDashboard.Dashboard.FetchTickets`: the source runs the request and the filter effect asynchronously. The model applies both in one step, so it does not capture the brief state where the shown list is the unfiltered data.
