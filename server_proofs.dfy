/** What the write routes of backend/server.js guarantee, proved about the
    functions of ServerState (and so, through the postconditions of
    Server.Store, about the handlers). */
module ServerProofs {
  import opened Common
  import opened ServerState

  // ------------------------------------------------------------- sessions

  /** Opening is refused without a non-negative start amount or while a
      session is active; on success the new row is the only active session
      and holds the start amount, and the old rows are untouched. */
  lemma StartSessionOpensOne(db: Db, caller: EmployeeId, startAmount: Option<Money>)
    ensures StartSession(db, caller, startAmount).Success?
            <==> startAmount.Some? && startAmount.value >= 0 && NoneActive(db.sessions)
    ensures StartSession(db, caller, startAmount).Failure? ==>
              StartSession(db, caller, startAmount).error
              == (if startAmount.None? || startAmount.value < 0 then InvalidStartAmount else SessionAlreadyActive)
    ensures StartSession(db, caller, startAmount).Success? ==>
              var d := StartSession(db, caller, startAmount).value;
              var k := |db.sessions|;
              && |d.sessions| == k + 1 && d.sessions[..k] == db.sessions
              && d.sessions[k].isActive && d.sessions[k].employeeId == caller
              && d.sessions[k].startAmount == startAmount.value
              && d.sessions[k].currentBalance == startAmount.value
              && (forall i :: 0 <= i < |d.sessions| && d.sessions[i].isActive ==> i == k)
              && d.employees == db.employees && d.products == db.products && d.sales == db.sales
              && d.saleItems == db.saleItems && d.poItems == db.poItems && d.orders == db.orders
              && d.log == db.log + [LogEntry(caller, CashboxOpen)]
  {
  }

  /** Closing with no active session succeeds and changes nothing. */
  lemma CloseWithoutActiveIsNoOp(db: Db, caller: EmployeeId)
    requires NoneActive(db.sessions)
    ensures CloseSession(db, caller) == db
  {
  }

  /** Closing deactivates the active session and keeps every balance; with at
      most one active session before, none is active after. */
  lemma CloseLeavesNoneActive(db: Db, caller: EmployeeId)
    requires AtMostOneActive(db.sessions)
    ensures var d := CloseSession(db, caller);
            && NoneActive(d.sessions)
            && |d.sessions| == |db.sessions|
            && (forall i :: 0 <= i < |db.sessions| ==>
                  d.sessions[i] == db.sessions[i].(isActive := d.sessions[i].isActive))
            && d.products == db.products && d.sales == db.sales
  {
  }

  /** Closing twice is closing once. */
  lemma CloseIsIdempotent(db: Db, caller: EmployeeId, again: EmployeeId)
    requires AtMostOneActive(db.sessions)
    ensures CloseSession(CloseSession(db, caller), again) == CloseSession(db, caller)
  {
    CloseLeavesNoneActive(db, caller);
  }

  // -------------------------------------------------------- cash movements

  /** Exactly when a movement is accepted. */
  lemma CashMovementAccepts(db: Db, verify: Verifier, caller: EmployeeId, req: MovementRequest)
    ensures CashMovement(db, verify, caller, req).Success? <==>
              && req.movementType != "" && req.reason != "" && req.adminRut != "" && req.adminPassword != ""
              && req.amount.Some? && req.amount.value > 0
              && AuthorizeAdmin(db, verify, req.adminRut, req.adminPassword).Success?
              && !NoneActive(db.sessions)
              && (|| req.movementType == AddType
                  || (req.movementType == RemoveType
                      && db.sessions[FirstActive(db.sessions).value].currentBalance >= req.amount.value))
  {
  }

  /** An accepted movement moves the active session's balance by exactly the
      amount, up for ADD and down for REMOVE, never below zero for REMOVE;
      nothing else in the sessions changes. */
  lemma CashMovementBalance(db: Db, verify: Verifier, caller: EmployeeId, req: MovementRequest)
    requires CashMovement(db, verify, caller, req).Success?
    ensures FirstActive(db.sessions).Some? && req.amount.Some?
    ensures var d := CashMovement(db, verify, caller, req).value;
            var i := FirstActive(db.sessions).value;
            var before := db.sessions[i].currentBalance;
            && |d.sessions| == |db.sessions|
            && d.sessions[i] == db.sessions[i].(currentBalance := d.sessions[i].currentBalance)
            && (req.movementType == AddType ==> d.sessions[i].currentBalance == before + req.amount.value)
            && (req.movementType == RemoveType ==>
                  d.sessions[i].currentBalance == before - req.amount.value && d.sessions[i].currentBalance >= 0)
            && (forall j :: 0 <= j < |db.sessions| && j != i ==> d.sessions[j] == db.sessions[j])
            && d.products == db.products && d.sales == db.sales
  {
  }

  // ---------------------------------------------------------- sale lines

  /** How much of product `id` the lines ask for, all lines together. */
  function Demand(items: seq<SaleLine>, id: ProductId): int
  {
    if items == [] then 0
    else (if items[0].productId == id then items[0].quantity else 0) + Demand(items[1..], id)
  }

  predicate Mentions(items: seq<SaleLine>, id: ProductId)
  {
    exists k :: 0 <= k < |items| && items[k].productId == id
  }

  predicate NonNegativeQuantities(items: seq<SaleLine>)
  {
    forall k :: 0 <= k < |items| ==> items[k].quantity >= 0
  }

  lemma {:induction false} DemandOfUnmentioned(items: seq<SaleLine>, id: ProductId)
    requires !Mentions(items, id)
    ensures Demand(items, id) == 0
  {
    if items != [] {
      assert !Mentions(items[1..], id) by {
        forall k | 0 <= k < |items| - 1 ensures items[1..][k].productId != id {
          assert items[1..][k] == items[k + 1];
        }
      }
      DemandOfUnmentioned(items[1..], id);
    }
  }

  lemma {:induction false} DemandNonNegative(items: seq<SaleLine>, id: ProductId)
    requires NonNegativeQuantities(items)
    ensures Demand(items, id) >= 0
  {
    if items != [] {
      DemandNonNegative(items[1..], id);
    }
  }

  /** What a completed line loop did to the products: each stock went down by
      exactly the product's total demand, every listed product ended with
      non-negative stock and is inactive when that stock is <= 0, no product
      was switched on, and unlisted products are untouched. */
  lemma {:induction false} ApplyItemsEffect(ps: map<ProductId, Product>, items: seq<SaleLine>)
    requires ApplyItems(ps, items).Success?
    ensures var m := ApplyItems(ps, items).value;
            && m.Keys == ps.Keys
            && (forall k :: 0 <= k < |items| ==> items[k].productId in ps)
            && (forall id :: id in ps ==> m[id].stock == ps[id].stock - Demand(items, id) && m[id].info == ps[id].info)
            && (forall id :: id in ps && m[id].isActive ==> ps[id].isActive)
            && (forall id :: id in ps && !Mentions(items, id) ==> m[id] == ps[id])
            && (forall id :: id in ps && Mentions(items, id) ==> m[id].stock >= 0 && (m[id].stock <= 0 ==> !m[id].isActive))
    decreases |items|
  {
    if items != [] {
      var line := items[0];
      var rest := items[1..];
      var ps' := ps[line.productId := Decrement(ps[line.productId], line.quantity)];
      ApplyItemsEffect(ps', rest);
      var m := ApplyItems(ps, items).value;
      assert m == ApplyItems(ps', rest).value;
      forall k | 0 <= k < |items| ensures items[k].productId in ps {
        if k > 0 { assert items[k] == rest[k - 1]; }
      }
      forall id | id in ps
        ensures Mentions(items, id) <==> id == line.productId || Mentions(rest, id)
      {
        if Mentions(rest, id) {
          var k :| 0 <= k < |rest| && rest[k].productId == id;
          assert items[k + 1] == rest[k];
        }
        if Mentions(items, id) && id != line.productId {
          var k :| 0 <= k < |items| && items[k].productId == id;
          assert k > 0 && rest[k - 1] == items[k];
        }
      }
    }
  }

  /** When no line asks for a negative quantity, a listed product stays
      active exactly when it was active and still has stock. */
  lemma {:induction false} ApplyItemsActiveFlag(ps: map<ProductId, Product>, items: seq<SaleLine>)
    requires ApplyItems(ps, items).Success? && NonNegativeQuantities(items)
    ensures var m := ApplyItems(ps, items).value;
            m.Keys == ps.Keys &&
            forall id :: id in ps && Mentions(items, id) ==>
              m[id].isActive == (ps[id].isActive && m[id].stock > 0)
    decreases |items|
  {
    if items != [] {
      var line := items[0];
      var rest := items[1..];
      var ps' := ps[line.productId := Decrement(ps[line.productId], line.quantity)];
      assert NonNegativeQuantities(rest) by {
        forall k | 0 <= k < |rest| ensures rest[k].quantity >= 0 { assert rest[k] == items[k + 1]; }
      }
      ApplyItemsActiveFlag(ps', rest);
      ApplyItemsEffect(ps', rest);
      ApplyItemsEffect(ps, items);
      var m := ApplyItems(ps, items).value;
      assert m == ApplyItems(ps', rest).value;
      forall id | id in ps && Mentions(items, id)
        ensures m[id].isActive == (ps[id].isActive && m[id].stock > 0)
      {
        if Mentions(rest, id) {
          DemandNonNegative(rest, id);
        } else {
          var k :| 0 <= k < |items| && items[k].productId == id;
          if k > 0 { assert rest[k - 1] == items[k]; }
        }
      }
    }
  }

  /** With no negative quantity, the line loop completes exactly when every
      listed product exists and its stock covers its total demand. */
  lemma {:induction false} ApplyItemsSucceedsIff(ps: map<ProductId, Product>, items: seq<SaleLine>)
    requires NonNegativeQuantities(items)
    ensures ApplyItems(ps, items).Success? <==>
              forall k :: 0 <= k < |items| ==>
                items[k].productId in ps && Demand(items, items[k].productId) <= ps[items[k].productId].stock
    decreases |items|
  {
    if items != [] {
      var line := items[0];
      var x := line.productId;
      var rest := items[1..];
      assert NonNegativeQuantities(rest) by {
        forall k | 0 <= k < |rest| ensures rest[k].quantity >= 0 { assert rest[k] == items[k + 1]; }
      }
      DemandNonNegative(rest, x);
      if x in ps && ps[x].stock >= line.quantity {
        var ps' := ps[x := Decrement(ps[x], line.quantity)];
        ApplyItemsSucceedsIff(ps', rest);
        assert ApplyItems(ps, items) == ApplyItems(ps', rest);
        if ApplyItems(ps, items).Success? {
          forall k | 0 <= k < |items|
            ensures items[k].productId in ps && Demand(items, items[k].productId) <= ps[items[k].productId].stock
          {
            var id := items[k].productId;
            if k > 0 { assert rest[k - 1] == items[k]; }
            if id == x && !Mentions(rest, id) {
              DemandOfUnmentioned(rest, id);
            } else if id == x {
              var j :| 0 <= j < |rest| && rest[j].productId == id;
            }
          }
        } else {
          var k :| 0 <= k < |rest| &&
                   !(rest[k].productId in ps' && Demand(rest, rest[k].productId) <= ps'[rest[k].productId].stock);
          assert items[k + 1] == rest[k];
        }
      } else {
        assert !(x in ps && Demand(items, items[0].productId) <= ps[x].stock);
      }
    }
  }

  // ----------------------------------------------------------------- sales

  /** Only a cash sale touches the register: it adds exactly the client's
      total to the active session (to every active row, which is one row
      when at most one is active) and is refused when none is active; card
      and special sales leave the sessions as they were. */
  lemma SaleCreditsOnlyCash(db: Db, verify: Verifier, caller: EmployeeId, req: SaleRequest)
    ensures req.paymentMethod == Cash && NoneActive(db.sessions) ==>
              ProcessSale(db, verify, caller, req) == Failure(NoActiveSession)
    ensures ProcessSale(db, verify, caller, req).Success? ==>
              var d := ProcessSale(db, verify, caller, req).value;
              && |d.sessions| == |db.sessions|
              && (req.paymentMethod != Cash ==> d.sessions == db.sessions)
              && (req.paymentMethod == Cash ==>
                    && !NoneActive(db.sessions)
                    && forall i :: 0 <= i < |db.sessions| ==>
                         d.sessions[i] == (if db.sessions[i].isActive
                                           then db.sessions[i].(currentBalance := db.sessions[i].currentBalance + req.totalAmount)
                                           else db.sessions[i]))
  {
  }

  /** A special sale goes through only with both admin fields filled in and
      accepted by the admin gate, and is then recorded under that admin;
      any other sale is recorded under the caller.  Either way exactly one
      sale row and one sale_items row per line are added. */
  lemma SaleAttribution(db: Db, verify: Verifier, caller: EmployeeId, req: SaleRequest)
    ensures req.paymentMethod == Special && (req.adminRut == "" || req.adminPassword == "") ==>
              ProcessSale(db, verify, caller, req) == Failure(AdminCredentialsRequired)
    ensures req.paymentMethod == Special && req.adminRut != "" && req.adminPassword != ""
            && AuthorizeAdmin(db, verify, req.adminRut, req.adminPassword).Failure? ==>
              ProcessSale(db, verify, caller, req)
              == Failure(AuthorizeAdmin(db, verify, req.adminRut, req.adminPassword).error)
    ensures ProcessSale(db, verify, caller, req).Success? ==>
              var d := ProcessSale(db, verify, caller, req).value;
              var n := |db.sales|;
              && d.sales[..n] == db.sales && |d.sales| == n + 1
              && d.sales[n].totalAmount == req.totalAmount && d.sales[n].paymentMethod == req.paymentMethod
              && d.saleItems[..|db.saleItems|] == db.saleItems
              && |d.saleItems| == |db.saleItems| + |req.items|
              && (req.paymentMethod == Special ==>
                    && req.adminRut != "" && req.adminPassword != ""
                    && AuthorizeAdmin(db, verify, req.adminRut, req.adminPassword).Success?
                    && d.sales[n].employeeId == AuthorizeAdmin(db, verify, req.adminRut, req.adminPassword).value.id)
              && (req.paymentMethod != Special ==> d.sales[n].employeeId == caller)
  {
  }

  /** A committed sale lowers each product's stock by exactly what its lines
      ask for, never below zero for a listed product, and switches off a
      listed product whose stock reaches zero; nothing is switched on. */
  lemma SaleDecrementsStock(db: Db, verify: Verifier, caller: EmployeeId, req: SaleRequest)
    requires ProcessSale(db, verify, caller, req).Success?
    ensures var d := ProcessSale(db, verify, caller, req).value;
            && d.products.Keys == db.products.Keys
            && (forall id :: id in db.products ==>
                  d.products[id].stock == db.products[id].stock - Demand(req.items, id))
            && (forall id :: id in db.products && Mentions(req.items, id) ==>
                  d.products[id].stock >= 0 && (d.products[id].stock <= 0 ==> !d.products[id].isActive))
            && (forall id :: id in db.products && d.products[id].isActive ==> db.products[id].isActive)
            && (forall id :: id in db.products && !Mentions(req.items, id) ==> d.products[id] == db.products[id])
  {
    ApplyItemsEffect(db.products, req.items);
  }

  /** All or nothing: when some product's total demand exceeds its stock (no
      line asking for a negative quantity), the sale is refused as a whole,
      so no stock, balance, sale row or sale_items row changes. */
  lemma SaleRefusedOnShortStock(db: Db, verify: Verifier, caller: EmployeeId, req: SaleRequest, id: ProductId)
    requires NonNegativeQuantities(req.items) && Mentions(req.items, id)
    requires id !in db.products || Demand(req.items, id) > db.products[id].stock
    ensures ProcessSale(db, verify, caller, req).Failure?
  {
    ApplyItemsSucceedsIff(db.products, req.items);
  }

  // -------------------------------------------------------------- products

  /** The `is_active` rule of a product update: switched on when stock comes
      back from <= 0, off when the new stock is <= 0, otherwise kept; an
      active result always has stock. */
  lemma NextIsActiveRule(oldStock: int, oldIsActive: bool, newStock: int)
    ensures oldStock <= 0 && newStock > 0 ==> NextIsActive(oldStock, oldIsActive, newStock)
    ensures newStock <= 0 ==> !NextIsActive(oldStock, oldIsActive, newStock)
    ensures oldStock > 0 && newStock > 0 ==> NextIsActive(oldStock, oldIsActive, newStock) == oldIsActive
    ensures NextIsActive(oldStock, oldIsActive, newStock) ==> newStock > 0
  {
  }

  /** The toggle refuses only an unknown product or switching on one without
      stock; otherwise it flips the flag and nothing else. */
  lemma ToggleStatusRule(db: Db, caller: EmployeeId, id: ProductId)
    ensures ToggleStatus(db, caller, id).Success? <==>
              id in db.products && (db.products[id].isActive || db.products[id].stock > 0)
    ensures ToggleStatus(db, caller, id).Success? ==>
              var d := ToggleStatus(db, caller, id).value;
              && d.products == db.products[id := db.products[id].(isActive := !db.products[id].isActive)]
              && d.sessions == db.sessions && d.sales == db.sales
  {
  }

  // ------------------------------------------------------------- receiving

  /** The quantity received for item `itemId`, all receptions together. */
  function ReceivedFor(received: seq<Reception>, itemId: ItemId): int
  {
    if received == [] then 0
    else (if received[0].itemId == itemId then received[0].quantityReceived else 0) + ReceivedFor(received[1..], itemId)
  }

  /** The quantity of product `pid` that the receptions bring in: a
      reception counts for the product of the first line with its item id. */
  function Supplied(items: seq<PoItem>, received: seq<Reception>, pid: ProductId): int
  {
    if received == [] then 0
    else
      var k := FindItem(items, received[0].itemId);
      (if k.Some? && items[k.value].productId == pid then received[0].quantityReceived else 0)
      + Supplied(items, received[1..], pid)
  }

  lemma {:induction false} FindItemSameIds(a: seq<PoItem>, b: seq<PoItem>, id: ItemId)
    requires |a| == |b| && forall j :: 0 <= j < |a| ==> a[j].id == b[j].id
    ensures FindItem(a, id) == FindItem(b, id)
  {
    if a != [] {
      assert forall j :: 0 <= j < |a| - 1 ==> a[1..][j].id == b[1..][j].id;
      FindItemSameIds(a[1..], b[1..], id);
    }
  }

  /** Adding to received quantities keeps every line's identity, so the
      lookup by item id and the product of each line are unchanged. */
  lemma AddReceivedKeepsLines(items: seq<PoItem>, id: ItemId, quantity: int)
    ensures var r := AddReceived(items, id, quantity);
            && (forall j :: 0 <= j < |items| ==>
                  r[j] == items[j].(quantityReceived := items[j].quantityReceived + (if items[j].id == id then quantity else 0)))
            && (forall x :: FindItem(r, x) == FindItem(items, x))
  {
    var r := AddReceived(items, id, quantity);
    forall x ensures FindItem(r, x) == FindItem(items, x) {
      FindItemSameIds(r, items, x);
    }
  }

  lemma {:induction false} SuppliedSameLines(a: seq<PoItem>, b: seq<PoItem>, received: seq<Reception>, pid: ProductId)
    requires |a| == |b| && forall j :: 0 <= j < |a| ==> a[j].id == b[j].id && a[j].productId == b[j].productId
    ensures Supplied(a, received, pid) == Supplied(b, received, pid)
    decreases |received|
  {
    if received != [] {
      FindItemSameIds(a, b, received[0].itemId);
      SuppliedSameLines(a, b, received[1..], pid);
    }
  }

  /** Receiving is refused exactly when some received item id has no line. */
  lemma {:induction false} ReceiveAllSucceedsIff(items: seq<PoItem>, ps: map<ProductId, Product>, received: seq<Reception>)
    ensures ReceiveAll(items, ps, received).Success? <==>
              forall k :: 0 <= k < |received| ==> FindItem(items, received[k].itemId).Some?
    decreases |received|
  {
    if received != [] {
      var rc := received[0];
      var updated := AddReceived(items, rc.itemId, rc.quantityReceived);
      AddReceivedKeepsLines(items, rc.itemId, rc.quantityReceived);
      if FindItem(items, rc.itemId).Some? {
        var k := FindItem(updated, rc.itemId).value;
        var ps1 := Restock(ps, updated[k].productId, rc.quantityReceived);
        ReceiveAllSucceedsIff(updated, ps1, received[1..]);
        assert forall j :: 0 <= j < |received| - 1 ==> received[1..][j] == received[j + 1];
      }
    }
  }

  /** A successful reception adds to each line's `quantity_received` the
      quantities received for its item id. */
  lemma {:induction false} ReceiveAllLines(items: seq<PoItem>, ps: map<ProductId, Product>, received: seq<Reception>)
    requires ReceiveAll(items, ps, received).Success?
    ensures var items' := ReceiveAll(items, ps, received).value.0;
            && |items'| == |items|
            && forall j :: 0 <= j < |items| ==>
                 items'[j] == items[j].(quantityReceived := items[j].quantityReceived + ReceivedFor(received, items[j].id))
    decreases |received|
  {
    if received != [] {
      var rc := received[0];
      var updated := AddReceived(items, rc.itemId, rc.quantityReceived);
      AddReceivedKeepsLines(items, rc.itemId, rc.quantityReceived);
      var k := FindItem(updated, rc.itemId).value;
      var ps1 := Restock(ps, updated[k].productId, rc.quantityReceived);
      ReceiveAllLines(updated, ps1, received[1..]);
    }
  }

  /** A successful reception adds to each product's stock what the received
      lines of that product bring in, and adds or removes no product. */
  lemma {:induction false} ReceiveAllStock(items: seq<PoItem>, ps: map<ProductId, Product>, received: seq<Reception>)
    requires ReceiveAll(items, ps, received).Success?
    ensures var ps' := ReceiveAll(items, ps, received).value.1;
            && ps'.Keys == ps.Keys
            && forall pid :: pid in ps ==> ps'[pid] == ps[pid].(stock := ps[pid].stock + Supplied(items, received, pid))
    decreases |received|
  {
    if received != [] {
      var rc := received[0];
      var updated := AddReceived(items, rc.itemId, rc.quantityReceived);
      AddReceivedKeepsLines(items, rc.itemId, rc.quantityReceived);
      var k := FindItem(updated, rc.itemId).value;
      var ps1 := Restock(ps, updated[k].productId, rc.quantityReceived);
      ReceiveAllStock(updated, ps1, received[1..]);
      forall pid | pid in ps ensures Supplied(updated, received[1..], pid) == Supplied(items, received[1..], pid) {
        SuppliedSameLines(updated, items, received[1..], pid);
      }
    }
  }

  /** An order whose every line is fully received is marked complete. */
  lemma {:induction false} EveryLineReceivedCompletes(items: seq<PoItem>, orderId: OrderId)
    requires forall j :: 0 <= j < |items| && items[j].orderId == orderId ==>
               items[j].quantityReceived >= items[j].quantityOrdered
    ensures ReceptionStatus(items, orderId) == RecibidoCompleto
  {
    TotalsCompare(items, orderId);
  }

  lemma {:induction false} TotalsCompare(items: seq<PoItem>, orderId: OrderId)
    requires forall j :: 0 <= j < |items| && items[j].orderId == orderId ==>
               items[j].quantityReceived >= items[j].quantityOrdered
    ensures TotalReceived(items, orderId) >= TotalOrdered(items, orderId)
  {
    if items != [] {
      forall j | 0 <= j < |items| - 1 && items[1..][j].orderId == orderId
        ensures items[1..][j].quantityReceived >= items[1..][j].quantityOrdered
      {
        assert items[1..][j] == items[j + 1];
      }
      TotalsCompare(items[1..], orderId);
    }
  }

  /** The status compares totals, not lines: an over-received line can make
      an order complete while another line is still short. */
  lemma CompleteDespiteShortLine()
    ensures var items := [PoItem("a", "po", "bread", 5, 10), PoItem("b", "po", "milk", 5, 0)];
            ReceptionStatus(items, "po") == RecibidoCompleto
            && items[1].quantityReceived < items[1].quantityOrdered
  {
  }

  // ------------------------------------------------------------ invariants

  lemma StartSessionKeepsConsistent(db: Db, caller: EmployeeId, startAmount: Option<Money>)
    requires Consistent(db)
    ensures StartSession(db, caller, startAmount).Success? ==> Consistent(StartSession(db, caller, startAmount).value)
  {
    StartSessionOpensOne(db, caller, startAmount);
  }

  lemma CloseSessionKeepsConsistent(db: Db, caller: EmployeeId)
    requires Consistent(db)
    ensures Consistent(CloseSession(db, caller))
  {
    CloseLeavesNoneActive(db, caller);
  }

  lemma CashMovementKeepsConsistent(db: Db, verify: Verifier, caller: EmployeeId, req: MovementRequest)
    requires Consistent(db)
    ensures CashMovement(db, verify, caller, req).Success? ==> Consistent(CashMovement(db, verify, caller, req).value)
  {
    if CashMovement(db, verify, caller, req).Success? {
      CashMovementBalance(db, verify, caller, req);
    }
  }

  /** A sale keeps the store consistent as long as a cash sale does not
      carry a negative total (the total is the client's, see below). */
  lemma ProcessSaleKeepsConsistent(db: Db, verify: Verifier, caller: EmployeeId, req: SaleRequest)
    requires Consistent(db)
    requires req.paymentMethod == Cash ==> req.totalAmount >= 0
    ensures ProcessSale(db, verify, caller, req).Success? ==> Consistent(ProcessSale(db, verify, caller, req).value)
  {
    if ProcessSale(db, verify, caller, req).Success? {
      var d := ProcessSale(db, verify, caller, req).value;
      SaleCreditsOnlyCash(db, verify, caller, req);
      SaleDecrementsStock(db, verify, caller, req);
      forall id | id in d.products && d.products[id].isActive ensures d.products[id].stock > 0 {
        if !Mentions(req.items, id) {
          assert d.products[id] == db.products[id];
        }
      }
    }
  }

  /** The client-supplied total is trusted: a cash sale with a negative
      total can leave the register below zero. */
  lemma NegativeCashTotalOverdraws(verify: Verifier)
    ensures var db := Db(map[], [CashSession(0, "cashier", 0, 0, true)], map[], [], [], [], map[], []);
            var req := SaleRequest([], -500, Cash, "", "");
            && Consistent(db)
            && ProcessSale(db, verify, "cashier", req).Success?
            && ProcessSale(db, verify, "cashier", req).value.sessions[0].currentBalance == -500
  {
  }

  lemma UpdateProductKeepsConsistent(db: Db, caller: EmployeeId, id: ProductId, edit: ProductEdit)
    requires Consistent(db)
    ensures UpdateProduct(db, caller, id, edit).Success? ==> Consistent(UpdateProduct(db, caller, id, edit).value)
  {
    if id in db.products {
      NextIsActiveRule(db.products[id].stock, db.products[id].isActive, edit.stock);
    }
  }

  lemma ToggleStatusKeepsConsistent(db: Db, caller: EmployeeId, id: ProductId)
    requires Consistent(db)
    ensures ToggleStatus(db, caller, id).Success? ==> Consistent(ToggleStatus(db, caller, id).value)
  {
  }

  lemma {:induction false} SuppliedNonNegative(items: seq<PoItem>, received: seq<Reception>, pid: ProductId)
    requires forall k :: 0 <= k < |received| ==> received[k].quantityReceived >= 0
    ensures Supplied(items, received, pid) >= 0
    decreases |received|
  {
    if received != [] {
      SuppliedNonNegative(items, received[1..], pid);
    }
  }

  /** Receiving never changes `is_active`, so it keeps active products in
      stock only when no received quantity is negative. */
  lemma ReceiveOrderKeepsConsistent(db: Db, caller: EmployeeId, orderId: OrderId, received: seq<Reception>)
    requires Consistent(db)
    requires forall k :: 0 <= k < |received| ==> received[k].quantityReceived >= 0
    ensures ReceiveOrder(db, caller, orderId, received).Success? ==>
              Consistent(ReceiveOrder(db, caller, orderId, received).value)
  {
    if ReceiveOrder(db, caller, orderId, received).Success? {
      ReceiveAllStock(db.poItems, db.products, received);
      forall pid { SuppliedNonNegative(db.poItems, received, pid); }
    }
  }

  /** A negative received quantity (the form sends whatever integer was
      typed) can leave an active product with no stock. */
  lemma NegativeReceptionEmptiesActive()
    ensures var p := Product(ProductInfo("bread", "", "", 0, 0, ""), 3, true);
            var db := Db(map[], [], map["bread" := p], [], [], [PoItem("i", "po", "bread", 3, 0)], map["po" := Ordenado], []);
            var d := ReceiveOrder(db, "clerk", "po", [Reception("i", -3)]);
            && Consistent(db)
            && d.Success? && "bread" in d.value.products
            && d.value.products["bread"].isActive && d.value.products["bread"].stock == 0
  {
  }
}
