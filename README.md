# Racking management: inventory ledger and PO receipt screen, in Dafny

This project models the two pieces of the warehouse racking application that have real
bookkeeping rules, and proves properties of them.

**The inventory ledger** (`src/server.ts`). The inventory table holds one quantity per
(item, location) pair. A pair without a row counts as 0. The movement table is an append-only
audit trail. `Ledger.InventoryServer` is a class with a `map` of rows, a `seq` of movements and
three methods, one per mutating endpoint:
- `Place` is `POST /api/placement`.
- `Retrieve` is `POST /api/retrieval`.
- `Move` is `POST /api/transfer`.

Each method is one atomic step. Its postcondition gives the whole new state and the response,
including every rejection path: a quantity that is not a positive integer, insufficient
quantity, and a transfer whose source equals its destination. The class invariant `Valid()`
says the audit trail is complete: replaying the movement log from the initial inventory gives
exactly the current inventory. Module `Audit` sums each item over all locations. It proves that
placements and retrievals change that total by their quantity, that transfers conserve it, and
that the log accounts for every change (`ReplayNetFlow`). `ItemSearch.Search` models
`GET /api/search` as a pure filter over a snapshot of the item table.

**The PO receipt screen** (`components/ItemPlacement.tsx`). Module `ItemPlacement` defines:
- the trip number (`CalculateTrip`);
- the received / outstanding / status calculation (`Calculate`);
- the form validator (`FieldErrors`, `IsValid`).

All three are pure functions. `PlacementScreen` is a class holding the form record, the list
of recent placements and the error record. Its methods are the screen's handlers: order and
sku selection, the effect that syncs the calculated fields, submission, and field edits.
Lemmas relate successive operations. After a submission, the next trip for the same order and
day is one higher, and the received/outstanding/status calculation is unchanged, because this
delivery's pieces have moved into "previously received".

`Text` holds JavaScript's `trim` (with ECMAScript's whitespace set), ASCII lower-casing and
substring search. `Seqs` holds `filter`, shared by the search and the screen. `Wrappers` holds
`Option` and `Result`. `scenarios.dfy` contains client modules that call the handlers in short
sequences and state what the contracts let a caller conclude.

Two details of the handlers that the model reproduces:
- `/api/transfer` parses the body, quantity included, before it compares the two locations
  (src/server.ts:88-89). A bad quantity is therefore reported as `ValidationError` even when
  the locations are also equal.
- Placement's upsert and its movement insert are two separate writes, not a transaction
  (src/server.ts:64-70). Transfer's three writes are one transaction (src/server.ts:94-98).
  Every handler of the model is one atomic step.

## Model

| member | source | states |
|---|---|---|
| `Ledger.ParseQty` | src/server.ts:61 | a requested quantity is accepted exactly when it is a positive integer, and stands for that whole number |
| `Ledger.Credit` | src/server.ts:64-68 | upsert with increment: the slot's row exists afterwards and holds its old quantity (0 if absent) plus `n`; no other row changes; the key set grows by at most that slot |
| `Ledger.Debit` | src/server.ts:81 | decrement of an existing row holding at least `n`: that row drops by exactly `n` and stays non-negative; no other row changes; no row is created |
| `Ledger.Apply` | src/server.ts:64-98 | a movement can be replayed only if it is well formed: positive quantity, PLACEMENT with only a destination, RETRIEVAL with only a source, TRANSFER with two distinct locations |
| `Ledger.ReplayAppend` | src/server.ts:70 | replaying a log with one more movement applies that movement to the stock the shorter log reached |
| `Ledger.ReplayWellFormed` | src/server.ts:60-101 | every movement of a log that replays is well formed: positive quantity and the location fields its type calls for |
| `Ledger.InventoryServer.constructor` | src/seed.ts:19-21 | the ledger starts from a given inventory (such as the seed rows) with an empty movement log, and its audit invariant holds |
| `Ledger.InventoryServer.Place` | src/server.ts:60-72 | a quantity that is not a positive integer is rejected with nothing changed; otherwise the row becomes its old value (0 if absent) plus `qty`, it is returned, and exactly one PLACEMENT movement with `toLocationId = locationId` and no source is appended |
| `Ledger.InventoryServer.Retrieve` | src/server.ts:74-84 | invalid quantity rejected first; "Insufficient quantity" with nothing changed when the row is absent or holds less than `qty`; otherwise only that row drops by `qty` (result ≥ 0), it is returned, and exactly one RETRIEVAL movement with `fromLocationId = locationId` is appended |
| `Ledger.InventoryServer.Move` | src/server.ts:86-101 | invalid quantity, then same source and destination, then insufficient source quantity, each rejected with nothing changed; otherwise the source is debited by `qty`, the destination is credited or created with `qty`, and exactly one TRANSFER movement carrying both locations is appended |
| `Audit.ItemTotalChange` | src/server.ts:64-68 | changing or creating a single row changes each item's total by exactly that row's change |
| `Audit.CreditTotal` | src/server.ts:64-70 | a placement of `n` raises its item's total over all locations by `n` and leaves other items' totals alone |
| `Audit.DebitTotal` | src/server.ts:78-82 | a retrieval of `n` lowers its item's total over all locations by `n` and leaves other items' totals alone |
| `Audit.TransferConservesTotal` | src/server.ts:94-98 | a transfer leaves every item's total over all locations unchanged |
| `Audit.TransferConservesPair` | src/server.ts:94-96 | a transfer keeps source + destination constant, debits the source by `qty`, credits the destination by `qty`, and leaves every other row unchanged |
| `Audit.ApplyTotal` | src/server.ts:64-98 | replaying one movement changes its item's total by +quantity for PLACEMENT, −quantity for RETRIEVAL and 0 for TRANSFER |
| `Audit.ReplayNetFlow` | src/server.ts:60-101 | for a log that replays from the initial inventory, each item's current total equals its initial total plus the net flow the log records |
| `Audit.ServerAuditTrail` | src/server.ts:60-101 | in every state the server's invariant admits, each item's total is its initial total plus the net flow of the movement table, and every logged movement is well formed |
| `ItemSearch.Matches` | src/server.ts:108 | an item matches exactly when the lower-cased query occurs at some position of its lower-cased sku, name or barcode; a missing barcode matches nothing |
| `ItemSearch.Matching` | src/server.ts:107-108 | keeps exactly the items whose sku, name or barcode contains the query ignoring case, each as often as it occurs in the table |
| `ItemSearch.QueryText` | src/server.ts:105 | the query parameter's text, which is empty exactly when the parameter is missing or empty |
| `ItemSearch.Search` | src/server.ts:104-112 | an empty or whitespace-only query gives `[]`; otherwise at most 20 items, each from the table and containing the trimmed query in its sku, name or barcode, namely the first min(20, #matches) matches |
| `ItemSearch.SearchIsComplete` | src/server.ts:107-109 | when at most 20 items match, every matching item is returned |
| `Text.TrimStart` | src/server.ts:105 | drops exactly the leading whitespace: the result is a suffix, what was dropped is whitespace, and it starts with a non-whitespace character |
| `Text.TrimEnd` | src/server.ts:105 | drops exactly the trailing whitespace: the result is a prefix, what was dropped is whitespace, and it ends with a non-whitespace character |
| `Text.Trim` | src/server.ts:105 | trimming never lengthens a string; `Text.TrimIsSlice` states what it keeps |
| `Text.TrimIsSlice` | components/ItemPlacement.tsx:166 | the trimmed string is the slice left after removing whitespace at both ends; it is empty exactly when the input is all whitespace |
| `Text.LowerChar` | src/server.ts:108 | ASCII upper-case letters map to their lower-case letters, and every other character is unchanged |
| `Text.LowerCase` | src/server.ts:108 | same length, and each character is lower-cased by `Text.LowerChar` |
| `Text.Contains` | src/server.ts:108 | substring search: true exactly when the needle occurs at some position of the haystack |
| `ItemPlacement.FindPO` | components/ItemPlacement.tsx:76-79 | the first order of the list with the given number (every order before it has another number), or None exactly when no order has it |
| `ItemPlacement.FindLine` | components/ItemPlacement.tsx:81-84 | the first line of the list with the given sku code (every line before it has another code), or None exactly when no line has it |
| `ItemPlacement.OrderLine` | components/ItemPlacement.tsx:76-84 | the line found for an order number and sku code has that code |
| `ItemPlacement.OrderLineIsOnOrder` | components/ItemPlacement.tsx:76-84 | the line found belongs to an order with that number, and no line is found exactly when no order with that number has a line with that code |
| `ItemPlacement.InitialForm` | components/ItemPlacement.tsx:29-43 | the opening form is dated today, has no order or sku, does not validate, and its calculated fields agree with the calculations for any list of placements |
| `Seqs.Filter` | components/ItemPlacement.tsx:89-91 | keeps exactly the elements satisfying the predicate, each as often as it occurs |
| `Seqs.FilterPrepend` | components/ItemPlacement.tsx:105-106 | filtering a list with one record put in front either keeps that record in front or drops it |
| `ItemPlacement.CalculateTrip` | components/ItemPlacement.tsx:87-93 | 1 when the PO number or date is empty; otherwise 1 plus the number of recent placements with that PO number and date; always between 1 and one more than the list length |
| `ItemPlacement.Calculate` | components/ItemPlacement.tsx:96-118 | outstanding 0, received 0 and OPEN without a PO, sku or matching line; otherwise received = previous pieces on that PO and sku + current pieces, outstanding = max(0, line qty − received) ≥ 0, CLOSED exactly when received ≥ line qty |
| `ItemPlacement.SumPcs` | components/ItemPlacement.tsx:107 | the pieces of the records added up; never negative when no record has negative pieces |
| `ItemPlacement.SumPcsPrepend` | components/ItemPlacement.tsx:107 | a record put in front of the list adds exactly its pieces to the sum, although the sum runs from the first record |
| `ItemPlacement.PreviouslyReceivedBounds` | components/ItemPlacement.tsx:105-107 | nothing was received before when no recent placement is on the form's order and sku, and never less than nothing when no placement has negative pieces |
| `ItemPlacement.ClosedIffNothingOutstanding` | components/ItemPlacement.tsx:109-114 | on a known order line the status is CLOSED exactly when nothing is outstanding |
| `ItemPlacement.FieldErrors` | components/ItemPlacement.tsx:160-169 | each check that fails gives its own entry with its own message: location, PO and sku empty; delivery note blank after trimming (all whitespace); pieces ≤ 0; pallets ≤ 0 |
| `ItemPlacement.ValidIff` | components/ItemPlacement.tsx:160-172 | the form validates exactly when location, PO and sku are set, the delivery note is not blank, and both quantities are positive |
| `ItemPlacement.VendorOf` | components/ItemPlacement.tsx:122-126 | the vendor of the order with that number, or `''` when no order has it |
| `ItemPlacement.OrderedQty` | components/ItemPlacement.tsx:139-143 | the quantity of the order's line with that sku code, or 0 when the order has no such line |
| `ItemPlacement.NewRecord` | components/ItemPlacement.tsx:187-202 | the record carries the submission id, the form's date, location, order, sku, pallets and pieces, and the trip calculated for the list it joins, between 1 and one more than the list length |
| `ItemPlacement.ClearedForm` | components/ItemPlacement.tsx:208-214 | location, delivery note, pallets and pieces are cleared, so the form no longer validates; date, order and sku stay |
| `ItemPlacement.ClearError` | components/ItemPlacement.tsx:134 | a shown message of that field is blanked; no key is added or removed; other fields keep their messages |
| `ItemPlacement.SameLinePrepend` | components/ItemPlacement.tsx:105-107 | a new record is counted toward "previously received" exactly when it carries the form's PO and sku |
| `ItemPlacement.TripAfterSubmit` | components/ItemPlacement.tsx:187-214 | after submitting a form with a PO number (every valid form has one), the trip calculated for the same PO and date is one higher (it stays 1 while the date is empty) |
| `ItemPlacement.ReceivedAfterSubmit` | components/ItemPlacement.tsx:105-110 | after a submission, what the line received before is the old figure plus the pieces just submitted |
| `ItemPlacement.CalculationDependsOnTotal` | components/ItemPlacement.tsx:96-118 | two forms with the same order and sku and the same received total including their own pieces get the same calculations |
| `ItemPlacement.CalculationAfterSubmit` | components/ItemPlacement.tsx:105-118 | after a submission, received, outstanding and status calculated from the new list and cleared form equal those before it |
| `ItemPlacement.PlacementScreen.constructor` | components/ItemPlacement.tsx:29-65 | the screen opens with the initial form dated today, the one seeded recent placement and no errors |
| `ItemPlacement.PlacementScreen.SelectPO` | components/ItemPlacement.tsx:121-135 | sets the PO and its vendor (`''` if unknown), resets sku, qty PO, outstanding and received to empty/0, trip to 1 and status to OPEN, blanks a shown PO error, and leaves every other field and the list unchanged |
| `ItemPlacement.PlacementScreen.SelectSku` | components/ItemPlacement.tsx:138-147 | sets the sku, the line's ordered quantity (0 if the sku is not on the order) and the current trip number, and blanks a shown sku error; nothing else changes |
| `ItemPlacement.PlacementScreen.Sync` | components/ItemPlacement.tsx:150-158 | the form's trip, outstanding, received and status become the calculated ones, and nothing else changes |
| `ItemPlacement.PlacementScreen.Submit` | components/ItemPlacement.tsx:174-221 | an invalid form only gets its error record, and nothing else changes; a valid one prepends exactly one record and keeps the old ones in order, and it clears location, delivery note, pallets and pieces while date, PO and sku stay |
| `ItemPlacement.PlacementScreen.SetDateReceived` | components/ItemPlacement.tsx:254 | only the received date changes |
| `ItemPlacement.PlacementScreen.SetLocationRack` | components/ItemPlacement.tsx:262-265 | only the location changes, and its error message is blanked |
| `ItemPlacement.PlacementScreen.SetSuratJalan` | components/ItemPlacement.tsx:380-383 | only the delivery note changes, and its error message is blanked |
| `ItemPlacement.PlacementScreen.SetQtyPallet` | components/ItemPlacement.tsx:404-408 | the pallet count becomes the parsed integer, or 0 for input that does not parse, and its error message is blanked |
| `ItemPlacement.PlacementScreen.SetQtyPcs` | components/ItemPlacement.tsx:426-430 | the piece count becomes the parsed integer, or 0 for input that does not parse, and its error message is blanked |

## Left out

- Concurrency and atomicity are not modelled. Each handler is one sequential step. The race between the balance check and the update, and placement running outside a transaction, cannot be expressed.
- Database-enforced foreign keys and uniqueness are not modelled. A missing item or location, a duplicate sku, and a duplicate location code are left to the database.
- The create and list endpoints for warehouses, locations, items and inventory are not modelled, and neither is the health check. They pass data through to storage.
- Request parsing is modelled only for the quantity, which is taken as a JSON number (`real`). A body whose fields have the wrong JSON type, HTTP status codes, routing, CORS and server start-up are left out.
- Generated ids and the `createdAt`/`updatedAt` timestamps of rows and movements are not modelled.
- Quantities are unbounded integers. The database column's 32-bit range, and the error on overflowing it, are not modelled.
- The screen's quantities are JavaScript numbers, which lose precision above 2^53 in `parseInt` and in the sums of received pieces. The model uses unbounded integers.
- How `parseInt` reads the typed text is not modelled. The text "12abc" reads as 12, "1.9" as 1, and "-3" as −3. `SetQtyPallet` and `SetQtyPcs` take the parse result as a parameter, with None for text that does not parse.
- A request body the schema refuses makes `schema.parse` throw inside the async handler (src/server.ts:62, 76, 88). Nothing in the handler catches it, so the program itself sends no validation response. `ValidationError` is the model's name for that uncaught rejection.
- Slow or failed storage calls are not modelled.
- ItemSearch.Search: the database returns matches in an unspecified order. The model takes them in the order of the item list it is given, so "which 20" is pinned to that order.
- ItemSearch.Matching: its contract states which items are kept and how often, not their order. The order follows its definition through `Seqs.Filter`.
- Seqs.Filter: its contract states which elements are kept and how often, not their order. `Seqs.FilterPrepend` pins the order one element at a time.
- Text.Trim: its own contract is only a length bound. What trimming keeps is stated by the lemma `Text.TrimIsSlice`, which callers invoke where they need it.
- ItemSearch.Search: case-insensitive matching uses ASCII lower-casing only, not the database collation's Unicode case folding. A query parameter that arrives as an array is not modelled.
- The progress-bar percentage is floating point and rendering, so it is not modelled. The label printing components, the JSX rendering and the other screens are not modelled either.
- The `setTimeout` delay and `console.error` are not modelled. The submission id from `Date.now()` and today's date from `new Date()` are parameters.
- The `catch` branch of the submission is not modelled, because nothing in the modelled `try` block can fail. The `isSubmitting` and `showPrintLabel` flags are not modelled.
- The React effect that syncs calculated fields is the explicit method `Sync`, which a caller runs after changing its inputs. React's render scheduling is not modelled.
- ItemPlacement.PlacementScreen.SetLocationRack accepts any string, although the select offers only the six mock locations.
- ItemPlacement.PlacementScreen.Submit: with a valid form, the source blanks the error record twice, first from `validateForm` and then by `setErrors({})`. The model blanks it once, and the final state is the same.
