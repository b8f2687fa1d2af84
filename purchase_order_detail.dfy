/** The reception form of the purchase-order dialog: the pre-filled text
    fields, single-field edits, the body sent to the receive endpoint, and
    when the "receive goods" button is offered. */
module PurchaseOrderDetail {
  import opened Common
  import opened Decimal
  import ServerState
  import ServerProofs

  /** A purchase-order line as the dialog loads it. */
  datatype OrderItem = OrderItem(id: string, productId: string, quantityOrdered: int, quantityReceived: int, costPrice: int)

  /** A line of the form: the order line and its two text inputs. */
  datatype ReceptionItem = ReceptionItem(item: OrderItem, receptionQty: string, newCost: string)

  datatype Field = ReceptionQty | NewCost

  /** One entry of `items_received`; `new_cost_price` is not modelled. */
  datatype ReceivedLine = ReceivedLine(itemId: string, quantityReceived: int)

  function Prefill(item: OrderItem): ReceptionItem
  {
    ReceptionItem(item, ToDecimal(item.quantityOrdered - item.quantityReceived), ToDecimal(item.costPrice))
  }

  /** `handleStartReception`: without a loaded order nothing changes;
      otherwise the form gets one pre-filled line per order line. */
  function StartReception(fullOrder: Option<seq<OrderItem>>, current: seq<ReceptionItem>): (r: seq<ReceptionItem>)
    ensures fullOrder.None? ==> r == current
    ensures fullOrder.Some? ==>
              |r| == |fullOrder.value| && forall i :: 0 <= i < |r| ==> r[i].item == fullOrder.value[i]
  {
    match fullOrder
    case None => current
    case Some(items) => seq(|items|, i requires 0 <= i < |items| => Prefill(items[i]))
  }

  /** `handleItemChange`: the named input of the line with `itemId` takes
      `value`. */
  function ItemChange(items: seq<ReceptionItem>, itemId: string, field: Field, value: string): (r: seq<ReceptionItem>)
    ensures |r| == |items|
    ensures forall i :: 0 <= i < |items| ==> r[i].item == items[i].item
  {
    seq(|items|, i requires 0 <= i < |items| =>
      if items[i].item.id != itemId then items[i]
      else match field
        case ReceptionQty => items[i].(receptionQty := value)
        case NewCost => items[i].(newCost := value))
  }

  /** The `items_received` of `handleConfirmReception`: text that does not
      start with a number is sent as 0. */
  function ConfirmPayload(items: seq<ReceptionItem>): (r: seq<ReceivedLine>)
    ensures |r| == |items|
    ensures forall i :: 0 <= i < |items| ==> r[i].itemId == items[i].item.id
  {
    seq(|items|, i requires 0 <= i < |items| => ReceivedLine(items[i].item.id, ParseIntOrZero(items[i].receptionQty)))
  }

  /** Whether the dialog offers to receive the order. */
  predicate IsReceivable(status: Option<ServerState.OrderStatus>)
  {
    status == Some(ServerState.Ordenado) || status == Some(ServerState.RecibidoParcial)
  }

  // ----------------------------------------------------------------- lemmas

  /** Confirming the form untouched sends, for every line, what is still
      outstanding, and the cost field holds the line's cost. */
  lemma PrefillRoundTrip(items: seq<OrderItem>, current: seq<ReceptionItem>)
    ensures var form := StartReception(Some(items), current);
            && |ConfirmPayload(form)| == |items|
            && forall i :: 0 <= i < |items| ==>
                 && ConfirmPayload(form)[i] == ReceivedLine(items[i].id, items[i].quantityOrdered - items[i].quantityReceived)
                 && ParseInt(form[i].newCost) == Some(items[i].costPrice)
  {
    var form := StartReception(Some(items), current);
    forall i | 0 <= i < |items|
      ensures ConfirmPayload(form)[i] == ReceivedLine(items[i].id, items[i].quantityOrdered - items[i].quantityReceived)
      ensures ParseInt(form[i].newCost) == Some(items[i].costPrice)
    {
      assert form[i] == Prefill(items[i]);
      PrefillReadsBack(items[i]);
    }
  }

  lemma PrefillReadsBack(item: OrderItem)
    ensures ParseIntOrZero(Prefill(item).receptionQty) == item.quantityOrdered - item.quantityReceived
    ensures ParseInt(Prefill(item).newCost) == Some(item.costPrice)
  {
    ParseIntOfToDecimal(item.quantityOrdered - item.quantityReceived);
    ParseIntOfToDecimal(item.costPrice);
  }

  /** Editing a line's quantity changes only what is sent for that line: it
      becomes the number typed (0 when nothing numeric was typed); editing a
      cost changes nothing that is sent. */
  lemma ItemChangeEffect(items: seq<ReceptionItem>, itemId: string, value: string)
    ensures var r := ConfirmPayload(ItemChange(items, itemId, ReceptionQty, value));
            forall i :: 0 <= i < |items| ==>
              r[i].quantityReceived == (if items[i].item.id == itemId then ParseIntOrZero(value)
                                        else ConfirmPayload(items)[i].quantityReceived)
    ensures ConfirmPayload(ItemChange(items, itemId, NewCost, value)) == ConfirmPayload(items)
    ensures ParseIntOrZero(value) == match ParseInt(value) case None => 0 case Some(v) => v
  {
  }

  /** After a reception the order is offered for reception again exactly
      when less has arrived in total than was ordered. */
  lemma ReceivableAfterReception(items: seq<ServerState.PoItem>, orderId: string)
    ensures IsReceivable(Some(ServerState.ReceptionStatus(items, orderId)))
            <==> ServerState.TotalReceived(items, orderId) < ServerState.TotalOrdered(items, orderId)
  {
  }

  // ------------------------------------------- the form against the backend

  /** The lines of one order, as the store holds them. */
  function OrderLines(items: seq<ServerState.PoItem>, orderId: string): (r: seq<ServerState.PoItem>)
    ensures forall k :: 0 <= k < |r| ==> r[k] in items && r[k].orderId == orderId
  {
    if items == [] then []
    else (if items[0].orderId == orderId then [items[0]] else []) + OrderLines(items[1..], orderId)
  }

  /** What receiving the outstanding quantity of every line sends. */
  function Outstanding(lines: seq<ServerState.PoItem>): seq<ServerState.Reception>
  {
    seq(|lines|, k requires 0 <= k < |lines| =>
      ServerState.Reception(lines[k].id, lines[k].quantityOrdered - lines[k].quantityReceived))
  }

  predicate UniqueItemIds(items: seq<ServerState.PoItem>)
  {
    forall i, j :: 0 <= i < j < |items| ==> items[i].id != items[j].id
  }

  /** The form shows `line` for the stored line `item`. */
  predicate Shows(line: OrderItem, item: ServerState.PoItem)
  {
    line.id == item.id && line.productId == item.productId
    && line.quantityOrdered == item.quantityOrdered && line.quantityReceived == item.quantityReceived
  }

  lemma OutstandingTail(lines: seq<ServerState.PoItem>)
    requires lines != []
    ensures Outstanding(lines)[1..] == Outstanding(lines[1..])
  {
  }

  /** One line of the order at a time: what the outstanding quantities
      bring in for `id` is the first line's share plus the rest's. */
  lemma ReceivedForOutstandingStep(items: seq<ServerState.PoItem>, orderId: string, id: string)
    requires items != []
    ensures ServerProofs.ReceivedFor(Outstanding(OrderLines(items, orderId)), id)
            == (if items[0].orderId == orderId && items[0].id == id
                then items[0].quantityOrdered - items[0].quantityReceived else 0)
               + ServerProofs.ReceivedFor(Outstanding(OrderLines(items[1..], orderId)), id)
  {
    var lines := OrderLines(items, orderId);
    if items[0].orderId == orderId {
      assert lines == [items[0]] + OrderLines(items[1..], orderId);
      assert lines[1..] == OrderLines(items[1..], orderId);
      OutstandingTail(lines);
    } else {
      assert lines == [] + OrderLines(items[1..], orderId);
      assert lines == OrderLines(items[1..], orderId);
    }
  }

  lemma {:induction false} ReceivedForOutstandingAbsent(items: seq<ServerState.PoItem>, orderId: string, id: string)
    requires forall j :: 0 <= j < |items| ==> items[j].id != id
    ensures ServerProofs.ReceivedFor(Outstanding(OrderLines(items, orderId)), id) == 0
  {
    if items != [] {
      ReceivedForOutstandingStep(items, orderId, id);
      ReceivedForOutstandingAbsent(items[1..], orderId, id);
    }
  }

  /** Receiving the outstanding quantities of an order brings in, for each
      of its lines, exactly that line's outstanding quantity. */
  lemma {:induction false} ReceivedForOutstanding(items: seq<ServerState.PoItem>, orderId: string, j: nat)
    requires UniqueItemIds(items) && j < |items| && items[j].orderId == orderId
    ensures ServerProofs.ReceivedFor(Outstanding(OrderLines(items, orderId)), items[j].id)
            == items[j].quantityOrdered - items[j].quantityReceived
  {
    var rest := items[1..];
    ReceivedForOutstandingStep(items, orderId, items[j].id);
    if j == 0 {
      ReceivedForOutstandingAbsent(rest, orderId, items[0].id);
    } else {
      assert UniqueItemIds(rest) by {
        assert forall a, b :: 0 <= a < b < |rest| ==> rest[a] == items[a + 1] && rest[b] == items[b + 1];
      }
      assert rest[j - 1] == items[j];
      ReceivedForOutstanding(rest, orderId, j - 1);
    }
  }

  /** The request body as the receive endpoint reads it. */
  function AsReceptions(sent: seq<ReceivedLine>): (r: seq<ServerState.Reception>)
    ensures |r| == |sent|
    ensures forall k :: 0 <= k < |sent| ==> r[k] == ServerState.Reception(sent[k].itemId, sent[k].quantityReceived)
  {
    seq(|sent|, k requires 0 <= k < |sent| => ServerState.Reception(sent[k].itemId, sent[k].quantityReceived))
  }

  /** The untouched form of an order sends each of its lines' outstanding
      quantity. */
  lemma UntouchedSendsOutstanding(view: seq<ServerState.PoItem>, lines: seq<OrderItem>, current: seq<ReceptionItem>)
    requires |lines| == |view|
    requires forall k :: 0 <= k < |lines| ==> Shows(lines[k], view[k])
    ensures AsReceptions(ConfirmPayload(StartReception(Some(lines), current))) == Outstanding(view)
  {
    var sent := ConfirmPayload(StartReception(Some(lines), current));
    PrefillRoundTrip(lines, current);
    var a, b := AsReceptions(sent), Outstanding(view);
    forall k | 0 <= k < |a| ensures a[k] == b[k] {
      assert sent[k] == ReceivedLine(lines[k].id, lines[k].quantityOrdered - lines[k].quantityReceived);
      assert Shows(lines[k], view[k]);
    }
  }

  lemma OutstandingKnown(items: seq<ServerState.PoItem>, orderId: string)
    ensures forall k :: 0 <= k < |Outstanding(OrderLines(items, orderId))| ==>
              ServerState.FindItem(items, Outstanding(OrderLines(items, orderId))[k].itemId).Some?
  {
    var view := OrderLines(items, orderId);
    forall k | 0 <= k < |view| ensures ServerState.FindItem(items, Outstanding(view)[k].itemId).Some? {
      assert view[k] in items;
    }
  }

  /** Confirming the pre-filled form of an order, untouched, is accepted by
      the receive endpoint and marks the order `recibido_completo`. */
  lemma UntouchedReceptionCompletes(db: ServerState.Db, caller: string, orderId: string,
                                    lines: seq<OrderItem>, current: seq<ReceptionItem>)
    requires UniqueItemIds(db.poItems)
    requires |lines| == |OrderLines(db.poItems, orderId)|
    requires forall k :: 0 <= k < |lines| ==> Shows(lines[k], OrderLines(db.poItems, orderId)[k])
    ensures var received := AsReceptions(ConfirmPayload(StartReception(Some(lines), current)));
            var r := ServerState.ReceiveOrder(db, caller, orderId, received);
            && r.Success?
            && ServerState.ReceptionStatus(r.value.poItems, orderId) == ServerState.RecibidoCompleto
            && (orderId in db.orders ==> r.value.orders[orderId] == ServerState.RecibidoCompleto)
  {
    var view := OrderLines(db.poItems, orderId);
    UntouchedSendsOutstanding(view, lines, current);
    var received := Outstanding(view);
    OutstandingKnown(db.poItems, orderId);
    ServerProofs.ReceiveAllSucceedsIff(db.poItems, db.products, received);
    ServerProofs.ReceiveAllLines(db.poItems, db.products, received);
    var items' := ServerState.ReceiveAll(db.poItems, db.products, received).value.0;
    forall j | 0 <= j < |items'| && items'[j].orderId == orderId
      ensures items'[j].quantityReceived >= items'[j].quantityOrdered
    {
      ReceivedForOutstanding(db.poItems, orderId, j);
    }
    ServerProofs.EveryLineReceivedCompletes(items', orderId);
  }
}
