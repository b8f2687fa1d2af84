/** The route handlers of backend/server.js that write, as methods of one
    store.  Each method does the handler's steps in the handler's order and
    on every `throw` inside BEGIN ... COMMIT puts all tables back
    (ROLLBACK); its postcondition says the tables end up exactly as the
    matching function of ServerState says, or unchanged on a rejection. */
module Server {
  import opened Common
  import opened ServerState

  class Store {
    /** bcrypt.compare, fixed for the life of the store. */
    const verify: Verifier

    var employees: map<Rut, Employee>
    var sessions: seq<CashSession>
    var products: map<ProductId, Product>
    var sales: seq<Sale>
    var saleItems: seq<SaleItemRow>
    var poItems: seq<PoItem>
    var orders: map<OrderId, OrderStatus>
    var log: seq<LogEntry>

    /** All tables as one value. */
    function Snapshot(): Db
      reads this
    {
      Db(employees, sessions, products, sales, saleItems, poItems, orders, log)
    }

    constructor (verify: Verifier, db: Db)
      ensures this.verify == verify && Snapshot() == db
    {
      this.verify := verify;
      employees, sessions, products, sales := db.employees, db.sessions, db.products, db.sales;
      saleItems, poItems, orders, log := db.saleItems, db.poItems, db.orders, db.log;
    }

    /** ROLLBACK to the tables as they were at BEGIN. */
    method Rollback(snapshot: Db)
      modifies this
      ensures Snapshot() == snapshot
    {
      employees, sessions, products, sales := snapshot.employees, snapshot.sessions, snapshot.products, snapshot.sales;
      saleItems, poItems, orders, log := snapshot.saleItems, snapshot.poItems, snapshot.orders, snapshot.log;
    }

    /** GET /cash-sessions/active. */
    method ActiveSession() returns (r: Option<CashSession>)
      ensures r.None? <==> NoneActive(sessions)
      ensures r.Some? ==> r.value.isActive && r.value in sessions
    {
      var i := FirstActive(sessions);
      r := if i.Some? then Some(sessions[i.value]) else None;
    }

    /** POST /cash-sessions/start; answers the new session. */
    method StartSession(caller: EmployeeId, startAmount: Option<Money>) returns (r: Result<CashSession, Error>)
      modifies this
      ensures match ServerState.StartSession(old(Snapshot()), caller, startAmount)
        case Success(db) => Snapshot() == db && r.Success? && r.value == sessions[|sessions| - 1]
        case Failure(e) => Snapshot() == old(Snapshot()) && r == Failure(e)
    {
      if startAmount.None? || startAmount.value < 0 {
        return Failure(InvalidStartAmount);
      }
      var snapshot := Snapshot();
      if FirstActive(sessions).Some? {
        Rollback(snapshot);
        return Failure(SessionAlreadyActive);
      }
      var session := CashSession(|sessions|, caller, startAmount.value, startAmount.value, true);
      sessions := sessions + [session];
      log := log + [LogEntry(caller, CashboxOpen)];
      return Success(session);
    }

    /** POST /cash-sessions/close; answers the closed session, or `None`
        for "No active session to close". */
    method CloseSession(caller: EmployeeId) returns (closed: Option<CashSession>)
      modifies this
      ensures Snapshot() == ServerState.CloseSession(old(Snapshot()), caller)
      ensures match FirstActive(old(sessions))
        case None => closed.None?
        case Some(i) => closed == Some(sessions[i])
    {
      var i := FirstActive(sessions);
      if i.None? {
        return None;
      }
      sessions := sessions[i.value := sessions[i.value].(isActive := false)];
      closed := Some(sessions[i.value]);
      log := log + [LogEntry(caller, CashboxClose)];
    }

    /** POST /cash-movements; answers the updated session. */
    method CashMovement(caller: EmployeeId, req: MovementRequest) returns (r: Result<CashSession, Error>)
      modifies this
      ensures match ServerState.CashMovement(old(Snapshot()), verify, caller, req)
        case Success(db) =>
          Snapshot() == db && r.Success? && FirstActive(old(sessions)).Some?
          && r.value == sessions[FirstActive(old(sessions)).value]
        case Failure(e) => Snapshot() == old(Snapshot()) && r == Failure(e)
    {
      if req.movementType == "" || req.amount.None? || req.amount.value == 0 || req.reason == ""
         || req.adminRut == "" || req.adminPassword == "" {
        return Failure(MissingFields);
      }
      if req.amount.value <= 0 {
        return Failure(NonPositiveAmount);
      }
      var snapshot := Snapshot();
      var admin := AuthorizeAdmin(snapshot, verify, req.adminRut, req.adminPassword);
      if admin.Failure? {
        Rollback(snapshot);
        return Failure(admin.error);
      }
      var i := FirstActive(sessions);
      if i.None? {
        Rollback(snapshot);
        return Failure(NoActiveSession);
      }
      var session := sessions[i.value];
      var newBalance: Money;
      if req.movementType == AddType {
        newBalance := session.currentBalance + req.amount.value;
      } else if req.movementType == RemoveType {
        newBalance := session.currentBalance - req.amount.value;
        if newBalance < 0 {
          Rollback(snapshot);
          return Failure(NegativeBalance);
        }
      } else {
        Rollback(snapshot);
        return Failure(InvalidMovementType);
      }
      sessions := sessions[i.value := session.(currentBalance := newBalance)];
      log := log + [LogEntry(caller, if req.movementType == AddType then CashAdd else CashRemove)];
      return Success(sessions[i.value]);
    }

    /** POST /sales; answers the total it was given. */
    method ProcessSale(caller: EmployeeId, req: SaleRequest) returns (r: Result<Money, Error>)
      modifies this
      ensures match ServerState.ProcessSale(old(Snapshot()), verify, caller, req)
        case Success(db) => Snapshot() == db && r == Success(req.totalAmount)
        case Failure(e) => Snapshot() == old(Snapshot()) && r == Failure(e)
    {
      var snapshot := Snapshot();
      var saleEmployee := caller;
      if req.paymentMethod == Special {
        if req.adminRut == "" || req.adminPassword == "" {
          Rollback(snapshot);
          return Failure(AdminCredentialsRequired);
        }
        var admin := AuthorizeAdmin(snapshot, verify, req.adminRut, req.adminPassword);
        if admin.Failure? {
          Rollback(snapshot);
          return Failure(admin.error);
        }
        saleEmployee := admin.value.id;
      }
      assert SaleEmployee(snapshot, verify, caller, req) == Success(saleEmployee);
      if req.paymentMethod == Cash {
        if FirstActive(sessions).None? {
          Rollback(snapshot);
          return Failure(NoActiveSession);
        }
        sessions := CreditActive(sessions, req.totalAmount);
      }
      var saleId := |sales|;
      sales := sales + [Sale(saleId, req.totalAmount, saleEmployee, req.paymentMethod)];
      var lines := RecordLines(saleId, req.items);
      if lines.Failure? {
        Rollback(snapshot);
        return Failure(lines.error);
      }
      log := log + [LogEntry(caller, SaleProcessed)];
      return Success(req.totalAmount);
    }

    /** The loop over the lines of POST /sales: insert the
        sale_items row, then the conditional stock decrement; stop at the
        first line whose decrement touches no row. */
    method RecordLines(saleId: nat, items: seq<SaleLine>) returns (r: Result<(), Error>)
      modifies this
      ensures employees == old(employees) && sessions == old(sessions) && sales == old(sales)
      ensures poItems == old(poItems) && orders == old(orders) && log == old(log)
      ensures match ApplyItems(old(products), items)
        case Success(m) => r.Success? && products == m && saleItems == old(saleItems) + ItemRows(saleId, items)
        case Failure(e) => r == Failure(e)
    {
      var i := 0;
      while i < |items|
        invariant 0 <= i <= |items|
        invariant ApplyItems(old(products), items) == ApplyItems(products, items[i..])
        invariant saleItems == old(saleItems) + ItemRows(saleId, items[..i])
        invariant employees == old(employees) && sessions == old(sessions) && sales == old(sales)
        invariant poItems == old(poItems) && orders == old(orders) && log == old(log)
      {
        var line := items[i];
        assert ItemRows(saleId, items[..i + 1]) == ItemRows(saleId, items[..i]) + [SaleItemRow(saleId, line)];
        saleItems := saleItems + [SaleItemRow(saleId, line)];
        if !(line.productId in products && products[line.productId].stock >= line.quantity) {
          return Failure(InsufficientStock(line.productId));
        }
        products := products[line.productId := Decrement(products[line.productId], line.quantity)];
        i := i + 1;
      }
      assert items[..i] == items;
      return Success(());
    }

    /** PUT /products/:id; answers the stored product. */
    method UpdateProduct(caller: EmployeeId, id: ProductId, edit: ProductEdit) returns (r: Result<Product, Error>)
      modifies this
      ensures match ServerState.UpdateProduct(old(Snapshot()), caller, id, edit)
        case Success(db) => Snapshot() == db && id in products && r == Success(products[id])
        case Failure(e) => Snapshot() == old(Snapshot()) && r == Failure(e)
    {
      if id !in products {
        return Failure(ProductNotFound);
      }
      var before := products[id];
      var price := if edit.recalculatedPrice.Some? then edit.recalculatedPrice.value else before.info.sellingPrice;
      var newIsActive := before.isActive;
      if before.stock <= 0 && edit.stock > 0 {
        newIsActive := true;
      } else if edit.stock <= 0 {
        newIsActive := false;
      }
      var info := ProductInfo(edit.name, edit.code, edit.category, edit.costPrice, price, edit.supplierId);
      products := products[id := Product(info, edit.stock, newIsActive)];
      log := log + [LogEntry(caller, ProductUpdate)];
      return Success(products[id]);
    }

    /** PATCH /products/:id/toggle-status; answers the stored product. */
    method ToggleStatus(caller: EmployeeId, id: ProductId) returns (r: Result<Product, Error>)
      modifies this
      ensures match ServerState.ToggleStatus(old(Snapshot()), caller, id)
        case Success(db) => Snapshot() == db && id in products && r == Success(products[id])
        case Failure(e) => Snapshot() == old(Snapshot()) && r == Failure(e)
    {
      if id !in products {
        return Failure(ProductNotFound);
      }
      var newStatus := !products[id].isActive;
      if newStatus && products[id].stock <= 0 {
        return Failure(NoStockToActivate);
      }
      products := products[id := products[id].(isActive := newStatus)];
      log := log + [LogEntry(caller, if newStatus then ProductActivate else ProductDeactivate)];
      return Success(products[id]);
    }

    /** PUT /purchase-orders/:id/receive; answers the order's new status. */
    method ReceiveOrder(caller: EmployeeId, orderId: OrderId, received: seq<Reception>)
      returns (r: Result<OrderStatus, Error>)
      modifies this
      ensures match ServerState.ReceiveOrder(old(Snapshot()), caller, orderId, received)
        case Success(db) => Snapshot() == db && r == Success(ReceptionStatus(poItems, orderId))
        case Failure(e) => Snapshot() == old(Snapshot()) && r == Failure(e)
    {
      var snapshot := Snapshot();
      var i := 0;
      while i < |received|
        invariant 0 <= i <= |received|
        invariant ReceiveAll(snapshot.poItems, snapshot.products, received)
                  == ReceiveAll(poItems, products, received[i..])
        invariant employees == snapshot.employees && sessions == snapshot.sessions
        invariant sales == snapshot.sales && saleItems == snapshot.saleItems
        invariant orders == snapshot.orders && log == snapshot.log
      {
        var rc := received[i];
        poItems := AddReceived(poItems, rc.itemId, rc.quantityReceived);
        var k := FindItem(poItems, rc.itemId);
        if k.None? {
          Rollback(snapshot);
          return Failure(UnknownPoItem(rc.itemId));
        }
        products := Restock(products, poItems[k.value].productId, rc.quantityReceived);
        i := i + 1;
      }
      var status := ReceptionStatus(poItems, orderId);
      if orderId in orders {
        orders := orders[orderId := status];
      }
      log := log + [LogEntry(caller, PurchaseOrderReceive)];
      return Success(status);
    }
  }
}
