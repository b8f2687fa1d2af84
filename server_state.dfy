/** The tables behind backend/server.js as one value, and what each
    state-changing route does to them when it commits.  A route that throws
    inside BEGIN ... ROLLBACK yields `Failure` here and leaves the tables as
    they were; the class in server.dfy runs the same steps one at a time. */
module ServerState {
  import opened Common

  /** Chilean pesos: whole numbers. */
  type Money = int
  type Rut = string
  type EmployeeId = string
  type ProductId = string
  type ItemId = string
  type OrderId = string

  /** The bcrypt password check, given a password and a stored hash.  It is a parameter:
      the model says nothing about which passwords match which hashes. */
  type Verifier = (string, string) -> bool

  const AdminRole := "admin"
  const Cash := "efectivo"
  const Card := "tarjeta"
  const Special := "venta especial"
  const AddType := "ADD"
  const RemoveType := "REMOVE"

  datatype Employee = Employee(id: EmployeeId, role: string, isActive: bool, passwordHash: string)

  /** A row of cash_sessions; its id is its position in the table. */
  datatype CashSession = CashSession(
    id: nat, employeeId: EmployeeId, startAmount: Money, currentBalance: Money, isActive: bool)

  datatype ProductInfo = ProductInfo(
    name: string, code: string, category: string, costPrice: Money, sellingPrice: Money, supplierId: string)

  datatype Product = Product(info: ProductInfo, stock: int, isActive: bool)

  /** A row of sales (net_amount, a floating-point quotient, is not kept). */
  datatype Sale = Sale(id: nat, totalAmount: Money, employeeId: EmployeeId, paymentMethod: string)

  /** One element of the `items` array of POST /sales. */
  datatype SaleLine = SaleLine(productId: ProductId, quantity: int, priceAtSale: Money)

  datatype SaleItemRow = SaleItemRow(saleId: nat, line: SaleLine)

  datatype PoItem = PoItem(
    id: ItemId, orderId: OrderId, productId: ProductId, quantityOrdered: int, quantityReceived: int)

  /** One element of `items_received` of PUT /purchase-orders/:id/receive. */
  datatype Reception = Reception(itemId: ItemId, quantityReceived: int)

  datatype OrderStatus = Pendiente | Ordenado | RecibidoParcial | RecibidoCompleto | Cancelado

  datatype Action =
    | CashboxOpen | CashboxClose | CashAdd | CashRemove | SaleProcessed
    | ProductUpdate | ProductActivate | ProductDeactivate | PurchaseOrderReceive

  /** A row of action_logs (the free-text details are not kept). */
  datatype LogEntry = LogEntry(employeeId: EmployeeId, action: Action)

  /** The tables.  Employees are keyed by their RUT, which is unique. */
  datatype Db = Db(
    employees: map<Rut, Employee>,
    sessions: seq<CashSession>,
    products: map<ProductId, Product>,
    sales: seq<Sale>,
    saleItems: seq<SaleItemRow>,
    poItems: seq<PoItem>,
    orders: map<OrderId, OrderStatus>,
    log: seq<LogEntry>)

  /** Why a route rejects a request; each one rolls the transaction back. */
  datatype Error =
    | InvalidStartAmount
    | SessionAlreadyActive
    | MissingFields
    | NonPositiveAmount
    | AdminCredentialsRequired
    | AdminNotFound
    | WrongAdminPassword
    | NoActiveSession
    | NegativeBalance
    | InvalidMovementType
    | InsufficientStock(productId: ProductId)
    | ProductNotFound
    | NoStockToActivate
    | UnknownPoItem(itemId: ItemId)

  datatype MovementRequest = MovementRequest(
    movementType: string, amount: Option<Money>, reason: string, adminRut: Rut, adminPassword: string)

  datatype SaleRequest = SaleRequest(
    items: seq<SaleLine>, totalAmount: Money, paymentMethod: string, adminRut: Rut, adminPassword: string)

  /** The body of PUT /products/:id; `recalculatedPrice` is the price the
      pricing rule gives when `recalculate_price` is set, `None` otherwise. */
  datatype ProductEdit = ProductEdit(
    name: string, code: string, category: string, costPrice: Money, supplierId: string,
    stock: int, recalculatedPrice: Option<Money>)

  // ---------------------------------------------------------------- queries

  predicate NoneActive(ss: seq<CashSession>)
  {
    forall i :: 0 <= i < |ss| ==> !ss[i].isActive
  }

  predicate AtMostOneActive(ss: seq<CashSession>)
  {
    forall i, j :: 0 <= i < |ss| && 0 <= j < |ss| && ss[i].isActive && ss[j].isActive ==> i == j
  }

  /** The lookup of the active session (one row at most): the position of
      the first active session, if any. */
  function FirstActive(ss: seq<CashSession>): (r: Option<nat>)
    ensures r.None? <==> NoneActive(ss)
    ensures r.Some? ==> r.value < |ss| && ss[r.value].isActive
    ensures r.Some? ==> forall j :: 0 <= j < r.value ==> !ss[j].isActive
  {
    if ss == [] then None
    else if ss[0].isActive then Some(0)
    else match FirstActive(ss[1..])
      case None => None
      case Some(k) => Some(k + 1)
  }

  /** The admin gate: an active employee with role `admin` and this RUT,
      whose stored hash matches the password. */
  function AuthorizeAdmin(db: Db, verify: Verifier, rut: Rut, password: string): Result<Employee, Error>
  {
    if rut in db.employees && db.employees[rut].role == AdminRole && db.employees[rut].isActive then
      if verify(password, db.employees[rut].passwordHash) then Success(db.employees[rut])
      else Failure(WrongAdminPassword)
    else Failure(AdminNotFound)
  }

  // ---------------------------------------------------------- cash sessions

  /** POST /cash-sessions/start. */
  function StartSession(db: Db, caller: EmployeeId, startAmount: Option<Money>): Result<Db, Error>
  {
    if startAmount.None? || startAmount.value < 0 then Failure(InvalidStartAmount)
    else if FirstActive(db.sessions).Some? then Failure(SessionAlreadyActive)
    else
      var amount := startAmount.value;
      Success(db.(
        sessions := db.sessions + [CashSession(|db.sessions|, caller, amount, amount, true)],
        log := db.log + [LogEntry(caller, CashboxOpen)]))
  }

  /** POST /cash-sessions/close: never rejects; with no active session it
      changes nothing. */
  function CloseSession(db: Db, caller: EmployeeId): Db
  {
    match FirstActive(db.sessions)
    case None => db
    case Some(i) =>
      db.(
        sessions := db.sessions[i := db.sessions[i].(isActive := false)],
        log := db.log + [LogEntry(caller, CashboxClose)])
  }

  /** The new balance of a movement, or why it is refused. */
  function MovedBalance(balance: Money, movementType: string, amount: Money): Result<Money, Error>
  {
    if movementType == AddType then Success(balance + amount)
    else if movementType == RemoveType then
      if balance - amount < 0 then Failure(NegativeBalance) else Success(balance - amount)
    else Failure(InvalidMovementType)
  }

  /** POST /cash-movements.  A missing field, or an amount of 0, is the first
      check (JavaScript's `!amount`); a negative amount is the second. */
  function CashMovement(db: Db, verify: Verifier, caller: EmployeeId, req: MovementRequest): Result<Db, Error>
  {
    if req.movementType == "" || req.amount.None? || req.amount.value == 0 || req.reason == ""
       || req.adminRut == "" || req.adminPassword == ""
    then Failure(MissingFields)
    else if req.amount.value <= 0 then Failure(NonPositiveAmount)
    else
      var _ :- AuthorizeAdmin(db, verify, req.adminRut, req.adminPassword);
      match FirstActive(db.sessions)
      case None => Failure(NoActiveSession)
      case Some(i) =>
        var balance :- MovedBalance(db.sessions[i].currentBalance, req.movementType, req.amount.value);
        Success(db.(
          sessions := db.sessions[i := db.sessions[i].(currentBalance := balance)],
          log := db.log + [LogEntry(caller, if req.movementType == AddType then CashAdd else CashRemove)]))
  }

  // ------------------------------------------------------------------ sales

  /** Who a sale is recorded under: the caller, or for a special sale the
      admin whose credentials came with it. */
  function SaleEmployee(db: Db, verify: Verifier, caller: EmployeeId, req: SaleRequest): Result<EmployeeId, Error>
  {
    if req.paymentMethod != Special then Success(caller)
    else if req.adminRut == "" || req.adminPassword == "" then Failure(AdminCredentialsRequired)
    else
      var admin :- AuthorizeAdmin(db, verify, req.adminRut, req.adminPassword);
      Success(admin.id)
  }

  /** A cash sale's credit: every active session's balance grows by the amount. */
  function CreditActive(ss: seq<CashSession>, amount: Money): (r: seq<CashSession>)
    ensures |r| == |ss|
  {
    seq(|ss|, i requires 0 <= i < |ss| =>
      if ss[i].isActive then ss[i].(currentBalance := ss[i].currentBalance + amount) else ss[i])
  }

  /** The conditional decrement of one sale line, applied once the guard
      `stock >= quantity` has held. */
  function Decrement(p: Product, quantity: int): Product
  {
    var stock := p.stock - quantity;
    p.(stock := stock, isActive := if stock <= 0 then false else p.isActive)
  }

  /** The loop over the sale's lines, in order: a later line for the same
      product sees the stock the earlier ones left. */
  function ApplyItems(products: map<ProductId, Product>, items: seq<SaleLine>): Result<map<ProductId, Product>, Error>
    decreases |items|
  {
    if items == [] then Success(products)
    else
      var line := items[0];
      if line.productId in products && products[line.productId].stock >= line.quantity then
        ApplyItems(products[line.productId := Decrement(products[line.productId], line.quantity)], items[1..])
      else Failure(InsufficientStock(line.productId))
  }

  function ItemRows(saleId: nat, items: seq<SaleLine>): (r: seq<SaleItemRow>)
    ensures |r| == |items|
  {
    seq(|items|, i requires 0 <= i < |items| => SaleItemRow(saleId, items[i]))
  }

  /** POST /sales.  The client's `total_amount` is taken as it comes. */
  function ProcessSale(db: Db, verify: Verifier, caller: EmployeeId, req: SaleRequest): Result<Db, Error>
  {
    var employeeId :- SaleEmployee(db, verify, caller, req);
    var sessions :-
      if req.paymentMethod != Cash then Success(db.sessions)
      else if FirstActive(db.sessions).None? then Failure(NoActiveSession)
      else Success(CreditActive(db.sessions, req.totalAmount));
    var saleId := |db.sales|;
    var products :- ApplyItems(db.products, req.items);
    Success(db.(
      sessions := sessions,
      products := products,
      sales := db.sales + [Sale(saleId, req.totalAmount, employeeId, req.paymentMethod)],
      saleItems := db.saleItems + ItemRows(saleId, req.items),
      log := db.log + [LogEntry(caller, SaleProcessed)]))
  }

  // --------------------------------------------------------------- products

  /** The `is_active` that PUT /products/:id stores. */
  function NextIsActive(oldStock: int, oldIsActive: bool, newStock: int): bool
  {
    if oldStock <= 0 && newStock > 0 then true
    else if newStock <= 0 then false
    else oldIsActive
  }

  /** PUT /products/:id. */
  function UpdateProduct(db: Db, caller: EmployeeId, id: ProductId, edit: ProductEdit): Result<Db, Error>
  {
    if id !in db.products then Failure(ProductNotFound)
    else
      var before := db.products[id];
      var price := if edit.recalculatedPrice.Some? then edit.recalculatedPrice.value else before.info.sellingPrice;
      var info := ProductInfo(edit.name, edit.code, edit.category, edit.costPrice, price, edit.supplierId);
      var p := Product(info, edit.stock, NextIsActive(before.stock, before.isActive, edit.stock));
      Success(db.(products := db.products[id := p], log := db.log + [LogEntry(caller, ProductUpdate)]))
  }

  /** PATCH /products/:id/toggle-status. */
  function ToggleStatus(db: Db, caller: EmployeeId, id: ProductId): Result<Db, Error>
  {
    if id !in db.products then Failure(ProductNotFound)
    else
      var p := db.products[id];
      var newStatus := !p.isActive;
      if newStatus && p.stock <= 0 then Failure(NoStockToActivate)
      else Success(db.(
        products := db.products[id := p.(isActive := newStatus)],
        log := db.log + [LogEntry(caller, if newStatus then ProductActivate else ProductDeactivate)]))
  }

  // -------------------------------------------------------- purchase orders

  /** The lookup of a purchase-order line by its id: the first row with this id. */
  function FindItem(items: seq<PoItem>, id: ItemId): (r: Option<nat>)
    ensures r.None? <==> forall j :: 0 <= j < |items| ==> items[j].id != id
    ensures r.Some? ==> r.value < |items| && items[r.value].id == id
  {
    if items == [] then None
    else if items[0].id == id then Some(0)
    else match FindItem(items[1..], id)
      case None => None
      case Some(k) => Some(k + 1)
  }

  /** Every purchase-order line with this id gets the quantity added to its received quantity. */
  function AddReceived(items: seq<PoItem>, id: ItemId, quantity: int): (r: seq<PoItem>)
    ensures |r| == |items|
  {
    seq(|items|, i requires 0 <= i < |items| =>
      if items[i].id == id then items[i].(quantityReceived := items[i].quantityReceived + quantity) else items[i])
  }

  /** The product's stock grows by the quantity; an unknown product changes nothing. */
  function Restock(products: map<ProductId, Product>, id: ProductId, quantity: int): map<ProductId, Product>
  {
    if id in products then products[id := products[id].(stock := products[id].stock + quantity)] else products
  }

  /** The loop over `items_received`, in order.  An item id with no row makes
      the handler read a field of `undefined`, which throws. */
  function ReceiveAll(items: seq<PoItem>, products: map<ProductId, Product>, received: seq<Reception>)
    : Result<(seq<PoItem>, map<ProductId, Product>), Error>
    decreases |received|
  {
    if received == [] then Success((items, products))
    else
      var rc := received[0];
      var updated := AddReceived(items, rc.itemId, rc.quantityReceived);
      match FindItem(updated, rc.itemId)
      case None => Failure(UnknownPoItem(rc.itemId))
      case Some(k) => ReceiveAll(updated, Restock(products, updated[k].productId, rc.quantityReceived), received[1..])
  }

  function TotalOrdered(items: seq<PoItem>, orderId: OrderId): int
  {
    if items == [] then 0
    else (if items[0].orderId == orderId then items[0].quantityOrdered else 0) + TotalOrdered(items[1..], orderId)
  }

  function TotalReceived(items: seq<PoItem>, orderId: OrderId): int
  {
    if items == [] then 0
    else (if items[0].orderId == orderId then items[0].quantityReceived else 0) + TotalReceived(items[1..], orderId)
  }

  /** The status an order gets after a reception. */
  function ReceptionStatus(items: seq<PoItem>, orderId: OrderId): OrderStatus
  {
    if TotalReceived(items, orderId) >= TotalOrdered(items, orderId) then RecibidoCompleto else RecibidoParcial
  }

  /** PUT /purchase-orders/:id/receive. */
  function ReceiveOrder(db: Db, caller: EmployeeId, orderId: OrderId, received: seq<Reception>): Result<Db, Error>
  {
    var (items, products) :- ReceiveAll(db.poItems, db.products, received);
    var status := ReceptionStatus(items, orderId);
    Success(db.(
      poItems := items,
      products := products,
      orders := if orderId in db.orders then db.orders[orderId := status] else db.orders,
      log := db.log + [LogEntry(caller, PurchaseOrderReceive)]))
  }

  // ------------------------------------------------------------- invariants

  predicate BalancesNonNegative(ss: seq<CashSession>)
  {
    forall i :: 0 <= i < |ss| ==> ss[i].currentBalance >= 0
  }

  /** A product that is offered for sale has something in stock. */
  predicate ActiveInStock(products: map<ProductId, Product>)
  {
    forall id :: id in products && products[id].isActive ==> products[id].stock > 0
  }

  predicate Consistent(db: Db)
  {
    AtMostOneActive(db.sessions) && BalancesNonNegative(db.sessions) && ActiveInStock(db.products)
  }
}
