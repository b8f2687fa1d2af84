# pos-panchita: cash register and stock bookkeeping, in Dafny

This project models the bookkeeping core of a small point-of-sale system for
a Chilean shop. It covers two parts.

- **Backend write routes** (`backend/server.js`):
  - opening and closing the cash session, and looking up the active one;
  - admin-approved cash movements (`ADD` / `REMOVE`);
  - processing a sale: cash credit, special-sale authorisation, then a
    per-line conditional stock decrement that switches off products that
    run out;
  - editing a product and toggling its `is_active` flag;
  - receiving purchase-order items and computing the order's status.
- **Frontend state logic**:
  - the sales cart (`SalesView.tsx`);
  - the purchase-order draft editor (`CreatePurchaseOrderModal.tsx`);
  - the inventory screen's optimistic stock change, toggle guard and search
    filter (`InventoryView.tsx`);
  - the reception form (`PurchaseOrderDetailModal.tsx`);
  - the payment dialog's step machine (`PaymentMethodModal.tsx`).

The database is a value `ServerState.Db`. Each table is a `seq` or `map`.
Every write route is written twice:

- a function of `ServerState` that returns the new `Db` or an `Error`;
- a method of the class `Server.Store`, whose fields are the tables. The
  method does the handler's steps in order, and on every error inside
  `BEGIN ... COMMIT` it restores the snapshot taken at `BEGIN` (`ROLLBACK`).
  Its postcondition says the tables end up exactly as the function says, or
  unchanged on an error. This is the all-or-nothing property.

The lemmas of `ServerProofs` state what the routes guarantee. Among them:

- the cash-register invariants (at most one active session, no negative
  balance);
- stock never goes negative through a sale;
- a product that runs out of stock is switched off.

Money is whole Chilean pesos (`int`). `bcrypt.compare` is a function
parameter `verify` (fixed per store). Integer text follows JavaScript's
`n.toString()` and `parseInt` for integers written in plain decimal, which
covers every safe integer (module `Decimal`).

Module layout: `Common` (Option/Result), `Decimal`, `ServerState`, `Server`,
`ServerProofs`, `Catalog` (the frontend's product record), `SalesView`,
`PurchaseOrderDraft`, `InventoryView`, `PurchaseOrderDetail`, `PaymentModal`.

## Model

| member | source | states |
|---|---|---|
| ServerState.FirstActive | backend/server.js:158 | the active-session lookup (one row at most) finds nothing exactly when no session is active; otherwise it finds an active one (the first) |
| Server.Store.ActiveSession | backend/server.js:139 | answers `null` exactly when no session is active, otherwise an active session of the table |
| Server.Store.StartSession | backend/server.js:140-153 | tables end up as `ServerState.StartSession` says and the answer is the new row; on a rejection nothing changes |
| ServerProofs.StartSessionOpensOne | backend/server.js:142-149 | accepted iff the start amount is present and non-negative and no session is active; the error says which; on success the new row is the only active session, holds the start amount as balance and belongs to the caller, the old rows and every other table are untouched, and the log gains one opening entry |
| Server.Store.CloseSession | backend/server.js:154-166 | tables end up as `ServerState.CloseSession` says; answers the closed row, or nothing when no session was active |
| ServerProofs.CloseWithoutActiveIsNoOp | backend/server.js:158-159 | closing with no active session changes nothing |
| ServerProofs.CloseLeavesNoneActive | backend/server.js:160-162 | closing switches off the active session with every balance kept; with at most one active session before, none is active after |
| ServerProofs.CloseIsIdempotent | backend/server.js:154-166 | closing twice equals closing once |
| Server.Store.CashMovement | backend/server.js:167-189 | tables end up as `ServerState.CashMovement` says and the answer is the updated session; every rejection leaves all tables unchanged |
| ServerProofs.CashMovementAccepts | backend/server.js:169-183 | a movement is accepted iff all five fields are present, the amount is positive, the approver is an active admin whose password matches, a session is active, and the type is `ADD` or a `REMOVE` the balance covers |
| ServerProofs.CashMovementBalance | backend/server.js:180-184 | `ADD` raises the active session's balance by exactly the amount; `REMOVE` lowers it by exactly the amount and leaves it non-negative; no other session or table changes |
| Server.Store.ProcessSale | backend/server.js:271-302 | all or nothing: tables end up as `ServerState.ProcessSale` says and the answer is the client's total, or, on any error (admin, session, stock), every table is as before |
| Server.Store.RecordLines | backend/server.js:290-295 | the line loop inserts one `sale_items` row per line and applies the conditional decrements in order, stopping at the first line whose product is missing or short |
| ServerProofs.SaleCreditsOnlyCash | backend/server.js:284-286 | a cash sale with no active session is refused; a cash sale adds exactly the total to every active session and to nothing else; card and special sales leave every session as it was |
| ServerProofs.SaleAttribution | backend/server.js:275-289 | a special sale without both admin fields is refused; a failed admin check refuses the sale with that error; a committed special sale passed the admin check and is booked to that admin, any other sale to the caller; one sale row and one `sale_items` row per line are added |
| ServerProofs.ApplyItemsEffect | backend/server.js:290-295 | after the line loop each product's stock is its old stock minus what all its lines ask for; a listed product ends with stock ≥ 0 and is inactive when its stock is ≤ 0; nothing is switched on; unlisted products are untouched |
| ServerProofs.ApplyItemsActiveFlag | backend/server.js:292 | with no negative quantities, a listed product ends active iff it was active and still has stock |
| ServerProofs.ApplyItemsSucceedsIff | backend/server.js:292-294 | with no negative quantities, the loop gets through iff every listed product exists and its stock covers the total asked of it across lines |
| ServerProofs.SaleDecrementsStock | backend/server.js:290-295 | a committed sale lowers each product's stock by exactly its demand, never below zero, and switches off the listed products it empties |
| ServerProofs.SaleRefusedOnShortStock | backend/server.js:294-301 | when some product's demand exceeds its stock (or it does not exist), the whole sale is refused |
| Server.Store.UpdateProduct | backend/server.js:337-354 | tables end up as `ServerState.UpdateProduct` says and the answer is the stored product; an unknown id changes nothing |
| ServerProofs.NextIsActiveRule | backend/server.js:343-344 | `is_active` becomes true when stock comes back from ≤ 0 to > 0, false when the new stock is ≤ 0, and is kept otherwise; an active result always has stock |
| Server.Store.ToggleStatus | backend/server.js:356-368 | tables end up as `ServerState.ToggleStatus` says; refusals change nothing |
| ServerProofs.ToggleStatusRule | backend/server.js:359-363 | the toggle succeeds iff the product exists and is active or has stock; it then flips the flag and changes nothing else |
| Server.Store.ReceiveOrder | backend/server.js:390 | tables end up as `ServerState.ReceiveOrder` says and the answer is the order's new status; an unknown item id rolls everything back |
| ServerProofs.ReceiveAllSucceedsIff | backend/server.js:390 | receiving succeeds iff every received item id has a purchase-order line |
| ServerProofs.ReceiveAllLines | backend/server.js:390 | each line's `quantity_received` grows by exactly the quantities received for its id, and nothing else about the line changes |
| ServerProofs.ReceiveAllStock | backend/server.js:390 | each product's stock grows by exactly what the received lines of that product bring in; no product is added or removed |
| ServerProofs.EveryLineReceivedCompletes | backend/server.js:390 | an order whose every line is fully received gets `recibido_completo` |
| ServerProofs.CompleteDespiteShortLine | backend/server.js:390 | the status compares totals: an over-received line can mark an order complete while another line is short |
| ServerProofs.StartSessionKeepsConsistent | backend/server.js:140-153 | opening keeps "at most one active session, no negative balance, no active product without stock" |
| ServerProofs.CloseSessionKeepsConsistent | backend/server.js:154-166 | closing keeps the same invariant |
| ServerProofs.CashMovementKeepsConsistent | backend/server.js:167-189 | a movement keeps the same invariant (in particular `REMOVE` never makes a balance negative) |
| ServerProofs.ProcessSaleKeepsConsistent | backend/server.js:271-302 | a sale keeps the same invariant when a cash sale's total is not negative |
| ServerProofs.NegativeCashTotalOverdraws | backend/server.js:272-285 | the client's total is trusted: a cash sale with total -500 is accepted and leaves the register at -500 |
| ServerProofs.UpdateProductKeepsConsistent | backend/server.js:337-354 | a product edit keeps the same invariant |
| ServerProofs.ToggleStatusKeepsConsistent | backend/server.js:356-368 | a toggle keeps the same invariant |
| ServerProofs.ReceiveOrderKeepsConsistent | backend/server.js:390 | a reception keeps the same invariant when no received quantity is negative |
| ServerProofs.NegativeReceptionEmptiesActive | backend/server.js:390 | a reception of -3 units can leave an active product with stock 0, since receiving never touches `is_active` |
| SalesView.HandleCartUpdate | pos-frontend/src/views/SalesView.tsx:25-49 | the updater's copy-splice-overwrite-push steps produce exactly `CartUpdate` of the previous cart |
| SalesView.IndexOf | pos-frontend/src/views/SalesView.tsx:27 | `findIndex` answers the first line of the product, or none exactly when no line has it |
| SalesView.CartUpdateTarget | pos-frontend/src/views/SalesView.tsx:29-46 | a line whose quantity would reach ≤ 0 disappears; one that would pass the stock is capped at the stock; otherwise it gets the new quantity in place; a product not in the cart comes in at the end with quantity 1 only when the change is positive and there is stock, else the cart is unchanged |
| SalesView.CartUpdateKeepsOthers | pos-frontend/src/views/SalesView.tsx:27-38 | the lines of all other products, and their order, are the same before and after |
| SalesView.CartUpdateKeepsUnique | pos-frontend/src/views/SalesView.tsx:27-42 | the cart never gets two lines for the same product |
| SalesView.CartUpdateKeepsPositive | pos-frontend/src/views/SalesView.tsx:32-42 | while the product has stock, no line ends with quantity ≤ 0 |
| SalesView.SoldOutLineKeptAtZero | pos-frontend/src/views/SalesView.tsx:34-36 | the cap uses the product's current stock, so a line of a product that has sold out meanwhile is kept at quantity 0 |
| SalesView.RemoveFromCart | pos-frontend/src/views/SalesView.tsx:96 | no line of the removed product is left |
| SalesView.RemoveFromCartMembers | pos-frontend/src/views/SalesView.tsx:96 | a line stays iff it was in the cart and belongs to another product |
| SalesView.RemoveFromCartKeepsUnique | pos-frontend/src/views/SalesView.tsx:96 | removing a product never gives another product a second line; with `CartUpdateKeepsUnique` every cart edit keeps one line per product |
| SalesView.RemoveFromCartAppend | pos-frontend/src/views/SalesView.tsx:96 | removal keeps the order of the remaining lines |
| SalesView.CartTotalSplit | pos-frontend/src/views/SalesView.tsx:98 | the total is the other products' lines plus the product's own lines |
| SalesView.CartUpdateTotal | pos-frontend/src/views/SalesView.tsx:25-98 | after an update the total is the untouched lines plus the product's line at its new quantity and the price it was added with |
| SalesView.RemoveFromCartTotal | pos-frontend/src/views/SalesView.tsx:96-98 | removing a product takes exactly its line's price × quantity off the total |
| PurchaseOrderDraft.AddItem | pos-frontend/src/components/features/CreatePurchaseOrderModal.tsx:45-62 | the new lines are `AddLine` of the old ones; the array is a shallow copy, so a merge changes the existing line object that the previous array also holds, and an append adds one fresh object |
| PurchaseOrderDraft.FindLine | pos-frontend/src/components/features/CreatePurchaseOrderModal.tsx:48 | `findIndex` answers the first line of the product, or none exactly when no line has it |
| PurchaseOrderDraft.AddLineQuantities | pos-frontend/src/components/features/CreatePurchaseOrderModal.tsx:45-62 | adding raises the product's ordered quantity by exactly the quantity and no other product's; a quantity ≤ 0 changes nothing |
| PurchaseOrderDraft.AddLineMerges | pos-frontend/src/components/features/CreatePurchaseOrderModal.tsx:48-52 | a product already listed gets no new line; the total cost grows by quantity × that line's cost |
| PurchaseOrderDraft.AddLineAppends | pos-frontend/src/components/features/CreatePurchaseOrderModal.tsx:54-59 | a new product is appended as one line with the quantity and the product's cost, or 0 when it has none |
| PurchaseOrderDraft.AddLineKeepsUnique | pos-frontend/src/components/features/CreatePurchaseOrderModal.tsx:48-59 | adding a product never gives it a second line |
| PurchaseOrderDraft.UpdateItemQuantity | pos-frontend/src/components/features/CreatePurchaseOrderModal.tsx:64-70 | the new lines are `UpdateQuantity` of the old ones, built from kept or fresh objects, none changed in place |
| PurchaseOrderDraft.UpdateQuantityQuantities | pos-frontend/src/components/features/CreatePurchaseOrderModal.tsx:65-69 | a value ≤ 0 drops the product; otherwise the value becomes its ordered quantity; every other product's quantity is unchanged |
| PurchaseOrderDraft.UpdateQuantityKeepsUnique | pos-frontend/src/components/features/CreatePurchaseOrderModal.tsx:64-70 | setting a quantity, by dropping lines or by replacing them, never gives a product a second line; with `AddLineKeepsUnique` every edit of the draft keeps one line per product |
| PurchaseOrderDraft.RemoveLineKeepsUnique | pos-frontend/src/components/features/CreatePurchaseOrderModal.tsx:66 | the filter branch keeps one line per product |
| PurchaseOrderDraft.DropLines | pos-frontend/src/components/features/CreatePurchaseOrderModal.tsx:66 | the filter keeps exactly the other products' lines, as the same objects, in order |
| PurchaseOrderDraft.SetLines | pos-frontend/src/components/features/CreatePurchaseOrderModal.tsx:68 | the map gives the product's lines the new quantity as new objects and keeps every other line object |
| PurchaseOrderDraft.Submit | pos-frontend/src/components/features/CreatePurchaseOrderModal.tsx:74-86 | an order with no lines is refused; otherwise every line is sent with its quantity and cost, with the total cost |
| InventoryView.StockChange | pos-frontend/src/views/InventoryView.tsx:48-59 | a change that would make the stock negative does nothing; otherwise only entries with the product's id change, to the new stock and the new flag |
| InventoryView.NewIsActive | pos-frontend/src/views/InventoryView.tsx:55 | a product shown as active always has stock |
| InventoryView.NewIsActiveIsServerRule | pos-frontend/src/views/InventoryView.tsx:55 | the optimistic flag is the backend's product-update rule |
| InventoryView.OptimisticAgreesWithServer | pos-frontend/src/views/InventoryView.tsx:53-65 | for a product shown as stored, the backend accepts the PUT and stores the stock and flag already shown |
| InventoryView.StockChangeKeepsActiveInStock | pos-frontend/src/views/InventoryView.tsx:53-59 | no product shown as active is out of stock after a change, if none was before |
| InventoryView.AfterReply | pos-frontend/src/views/InventoryView.tsx:66-71 | on success the server's product replaces the entry; on failure the list is restored to exactly its prior value |
| InventoryView.FailedChangeRestores | pos-frontend/src/views/InventoryView.tsx:49-71 | a failed request restores the list taken before the optimistic update |
| InventoryView.ToggleGuardMatchesServer | pos-frontend/src/views/InventoryView.tsx:79-82 | the screen refuses exactly the toggles the backend refuses |
| InventoryView.FilterMembers | pos-frontend/src/views/InventoryView.tsx:95 | a product is listed iff it is in the list, its name or code contains the term ignoring case, and its category matches when one is selected |
| InventoryView.FilterAppend | pos-frontend/src/views/InventoryView.tsx:95 | the filter keeps the list's order |
| InventoryView.EmptySearchListsAll | pos-frontend/src/views/InventoryView.tsx:95 | with no term and no category every product is listed |
| InventoryView.SearchIgnoresCase | pos-frontend/src/views/InventoryView.tsx:95 | a term equal to a product's name up to letter case finds that product |
| InventoryView.SearchCaseInsensitive | pos-frontend/src/views/InventoryView.tsx:95 | two search terms that agree up to letter case list exactly the same products |
| InventoryView.Filter | pos-frontend/src/views/InventoryView.tsx:95 | never lists more products than there are, and every product it lists matches the term and the category |
| Decimal.ParseIntOfToDecimal | pos-frontend/src/components/features/PurchaseOrderDetailModal.tsx:55-71 | reading back the plain decimal text of an integer gives the integer, and `\|\| 0` keeps it; this is `parseInt(n.toString())` for every safe integer |
| PurchaseOrderDetail.StartReception | pos-frontend/src/components/features/PurchaseOrderDetailModal.tsx:51-60 | without a loaded order the form is unchanged; otherwise it holds one line per order line, in order, each carrying that line |
| PurchaseOrderDetail.ItemChange | pos-frontend/src/components/features/PurchaseOrderDetailModal.tsx:62-64 | an edit keeps the number of form lines and the order line each one shows |
| PurchaseOrderDetail.ConfirmPayload | pos-frontend/src/components/features/PurchaseOrderDetailModal.tsx:66-74 | sends one line per form line, in order, with that line's item id |
| PurchaseOrderDetail.PrefillRoundTrip | pos-frontend/src/components/features/PurchaseOrderDetailModal.tsx:51-73 | confirming the pre-filled form untouched sends each line's `quantity_ordered - quantity_received`, and the cost field reads back as the line's cost |
| PurchaseOrderDetail.ItemChangeEffect | pos-frontend/src/components/features/PurchaseOrderDetailModal.tsx:62-71 | editing one line's quantity changes only that line's sent quantity, to the number typed or 0 for non-numeric text; editing a cost changes nothing sent |
| PurchaseOrderDetail.ReceivableAfterReception | pos-frontend/src/components/features/PurchaseOrderDetailModal.tsx:91 | after a reception, an order is receivable again iff less has arrived in total than was ordered |
| PurchaseOrderDetail.UntouchedReceptionCompletes | pos-frontend/src/components/features/PurchaseOrderDetailModal.tsx:51-78 | confirming an order's pre-filled form untouched is accepted by the receive route and marks the order `recibido_completo` |
| PaymentModal.CashSubmission | pos-frontend/src/components/features/PaymentMethodModal.tsx:38-44 | a cash sale is submitted iff the amount typed is numeric and at least the total; it then carries that amount |
| PaymentModal.SpecialSubmission | pos-frontend/src/components/features/PaymentMethodModal.tsx:46-51 | a special sale is submitted iff both admin fields are non-empty; it then carries both |
| PaymentModal.ChangeShownIffCashAccepted | pos-frontend/src/components/features/PaymentMethodModal.tsx:53-84 | the change box shows exactly when the cash payment would be accepted, and then shows paid minus total, which is ≥ 0 |
| PaymentModal.TypedAmountAccepted | pos-frontend/src/components/features/PaymentMethodModal.tsx:38-53 | a whole amount at least the total, typed as digits, is accepted and shows the exact change |
| PaymentModal.SpecialSubmissionReachesAdminCheck | pos-frontend/src/components/features/PaymentMethodModal.tsx:46-49 | a special sale from the dialog never fails the backend's presence check; it goes straight to the admin check and is booked to that admin |
| PaymentModal.Change | pos-frontend/src/components/features/PaymentMethodModal.tsx:53 | the change is a number exactly when the amount typed is numeric |
| PaymentModal.PaymentDialog.constructor | pos-frontend/src/components/features/PaymentMethodModal.tsx:15-20 | the dialog starts at the selection step with empty fields and not processing |
| PaymentModal.PaymentDialog.Open | pos-frontend/src/components/features/PaymentMethodModal.tsx:22-30 | opening resets the step to selection, clears amount, RUT and password, and clears the processing flag |
| PaymentModal.PaymentDialog.GoTo | pos-frontend/src/components/features/PaymentMethodModal.tsx:64-109 | the step buttons change the step and nothing else |
| PaymentModal.PaymentDialog.Type | pos-frontend/src/components/features/PaymentMethodModal.tsx:80-107 | typing sets the amount, RUT and password fields and nothing else |
| PaymentModal.PaymentDialog.ProcessCard | pos-frontend/src/components/features/PaymentMethodModal.tsx:32-35 | always submits `tarjeta` with no details and sets the processing flag |
| PaymentModal.PaymentDialog.ProcessCash | pos-frontend/src/components/features/PaymentMethodModal.tsx:38-42 | submits exactly `CashSubmission` of the amount typed, and sets the processing flag only when it submits |
| PaymentModal.PaymentDialog.ProcessSpecialSale | pos-frontend/src/components/features/PaymentMethodModal.tsx:46-49 | submits exactly `SpecialSubmission` of the fields typed, and sets the processing flag only when it submits |
| PaymentModal.PaymentDialog.Settle | pos-frontend/src/components/features/PaymentMethodModal.tsx:35-50 | clears the processing flag once the sale call has settled |

## Left out

- HTTP, Express routing, CORS, JSON parsing, JWT and the pg pool are not modelled. A request is one call. A missing or empty JSON text field is the empty string. A missing number is `None`.
- bcrypt is not modelled: `verify` stands for `bcrypt.compare`, and nothing is said about which passwords it accepts.
- Concurrency and database isolation are left out. Each request is one atomic step.
- `logAction` keeps only who did what: an append to `log` inside the committed state. Its detail text and its swallowed failures are left out.
- Floating point is left out: `calculateSellingPrice` (the recalculated price is an input, `ProductEdit.recalculatedPrice`), `net_amount = total / 1.19`, `parseFloat` on balances and amounts, and the cart's rounding and net amount. Money is whole pesos.
- PaymentModal.AmountPaid: reads only the integer part of the amount typed. `parseFloat` also accepts fractions and exponents.
- PurchaseOrderDetail.ConfirmPayload: does not model `new_cost_price` (a `parseFloat`). The receive route never reads it.
- Decimal.ToDecimal: always writes plain decimal digits. JavaScript numbers are doubles: `toString` switches to exponent form (`1e+21`) from 10^21 on, which `parseInt` reads back as 1, and integers beyond 2^53 are not exact. So `Decimal.ParseIntOfToDecimal` holds for JavaScript only on safe integers.
- PurchaseOrderDraft.UpdateItemQuantity / UpdateQuantity: the quantity is an integer, so the NaN the dialog sends is left out. The quantity input passes `parseInt(e.target.value)` (CreatePurchaseOrderModal.tsx:165), and emptying the input gives NaN. `NaN <= 0` is false, so the map branch stores NaN as the product's `quantity_ordered` (:68). `totalCost` (:72) then becomes NaN, and `Submit` sends that NaN quantity and total.
- UpdateQuantityQuantities: states the rule for integer quantities only. The NaN from an emptied input takes the "otherwise" branch and becomes the product's quantity, which the lemma does not cover (see the line above).
- Decimal.ParseInt: no `0x` prefix, and blanks are only space, tab, newline and carriage return.
- InventoryView.Lower: folds ASCII letters only. JavaScript's `toLowerCase` folds all of Unicode.
- Timestamps and generated ids are not modelled (`end_time`, `sale_date`, `uuidv4`). Sessions and sales are numbered by position.
- Expiry dates, the product record's `fecha_vencimiento`, and `formatProductForFrontend` are not modelled.
- Read-only routes are left out, except the active-session lookup. These include low stock, expiring soon, the reports summary, the activity feed and order listings.
- Employee, supplier and customer-order CRUD, and purchase-order creation on the server, are left out.
- The React rendering, the contexts, `apiService`, barcode scanning with its timers, `executeSale` and receipt printing are left out.
- PaymentModal.PaymentDialog.ProcessCard: the wait for `onProcessSale` is not modelled. The handler is split at the `await`, and `Settle` is the rest. If `onProcessSale` rejects, the flag stays set; that case is not modelled.
- PurchaseOrderDraft.AddItem: requires that no line object occurs twice in the array (`Distinct`). The dialog's own updates keep that true.
- InventoryView.OptimisticAgreesWithServer: requires that the list shows the product as it is stored. Keeping the list fresh is not modelled.

## Notes on the code as written

The model follows the code in each of these cases.

- One would expect the register's balance never to go negative through sales and movements. The code trusts the client's `total_amount`, so a cash sale with a negative total overdraws the register (`ServerProofs.NegativeCashTotalOverdraws`). The invariant is proved for non-negative cash totals (`ServerProofs.ProcessSaleKeepsConsistent`).
- One would expect a sold product's `is_active` to be false exactly when its stock is ≤ 0. The code only ever switches it off: a product that was inactive stays inactive, even with stock left (`ServerProofs.ApplyItemsActiveFlag`).
- A cash sale credits every active session (`WHERE is_active = true`). With at most one active session, which every route keeps, that is one session.
- The receive route does not check the order's status, or that the items belong to the order. A negative received quantity is applied as given (`ServerProofs.NegativeReceptionEmptiesActive`). Completion compares totals (`ServerProofs.CompleteDespiteShortLine`).
- The cart caps a line at the product's current stock even when that stock is 0, which keeps a line at quantity 0 (`SalesView.SoldOutLineKeptAtZero`).
- The reception form never loads against this backend. The purchase-order router (backend/server.js:387-390) serves GET `/`, POST `/` and PUT `/:id/receive`, but no GET `/:id`. The dialog fetches `/purchase-orders/:id` (PurchaseOrderDetailModal.tsx:36), so `fullOrder` stays null and starting a reception does nothing. `PurchaseOrderDetail.UntouchedReceptionCompletes` is about the form as it would be once that route exists.
