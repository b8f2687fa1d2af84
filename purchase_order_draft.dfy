/** The line editor of the "new purchase order" dialog.  Lines are objects:
    `handleAddItem` copies the array shallowly and bumps `quantity_ordered`
    on the existing line object itself, so the previous state's array sees
    the change too, while `handleUpdateItemQuantity` builds new line objects
    (`map` with a spread) or drops lines (`filter`). */
module PurchaseOrderDraft {
  import opened Common
  import opened Catalog

  class DraftLine {
    const productId: string
    const productName: string
    var quantityOrdered: int
    const costPrice: int

    constructor (productId: string, productName: string, quantityOrdered: int, costPrice: int)
      ensures this.productId == productId && this.productName == productName
      ensures this.quantityOrdered == quantityOrdered && this.costPrice == costPrice
    {
      this.productId := productId;
      this.productName := productName;
      this.quantityOrdered := quantityOrdered;
      this.costPrice := costPrice;
    }
  }

  /** What a line holds at one moment. */
  datatype LineValue = LineValue(productId: string, productName: string, quantityOrdered: int, costPrice: int)

  function ValueOf(l: DraftLine): LineValue
    reads l
  {
    LineValue(l.productId, l.productName, l.quantityOrdered, l.costPrice)
  }

  /** The lines as values, in the current heap. */
  function Values(lines: seq<DraftLine>): (r: seq<LineValue>)
    reads set l | l in lines
    ensures |r| == |lines| && forall i :: 0 <= i < |lines| ==> r[i] == ValueOf(lines[i])
  {
    seq(|lines|, i reads set l | l in lines requires 0 <= i < |lines| => ValueOf(lines[i]))
  }

  /** No line object occurs twice in the array. */
  predicate Distinct(lines: seq<DraftLine>)
  {
    forall i, j :: 0 <= i < j < |lines| ==> lines[i] != lines[j]
  }

  predicate UniqueProducts(items: seq<LineValue>)
  {
    forall i, j :: 0 <= i < j < |items| ==> items[i].productId != items[j].productId
  }

  /** `product.cost_price || 0`. */
  function CostOrZero(cost: Option<int>): int
  {
    if cost.Some? then cost.value else 0
  }

  /** The first line of the product, as `findIndex` finds it; `None` stands for -1. */
  function FindLine(items: seq<LineValue>, productId: string): (r: Option<nat>)
    ensures r.None? <==> forall i :: 0 <= i < |items| ==> items[i].productId != productId
    ensures r.Some? ==> r.value < |items| && items[r.value].productId == productId
                        && forall j :: 0 <= j < r.value ==> items[j].productId != productId
  {
    if items == [] then None
    else if items[0].productId == productId then Some(0)
    else match FindLine(items[1..], productId)
      case None => None
      case Some(k) => Some(k + 1)
  }

  /** The lines after `handleAddItem`, as values. */
  function AddLine(items: seq<LineValue>, product: Product, quantity: int): seq<LineValue>
  {
    if quantity <= 0 then items
    else match FindLine(items, product.id)
      case Some(i) => items[i := items[i].(quantityOrdered := items[i].quantityOrdered + quantity)]
      case None => items + [LineValue(product.id, product.name, quantity, CostOrZero(product.costPrice))]
  }

  /** The lines without those of the product, in order (the `filter` branch). */
  function RemoveLine(items: seq<LineValue>, productId: string): seq<LineValue>
  {
    if items == [] then []
    else
      var last := items[|items| - 1];
      RemoveLine(items[..|items| - 1], productId) + (if last.productId == productId then [] else [last])
  }

  /** The lines after `handleUpdateItemQuantity`, as values. */
  function UpdateQuantity(items: seq<LineValue>, productId: string, newQuantity: int): seq<LineValue>
  {
    if newQuantity <= 0 then RemoveLine(items, productId)
    else seq(|items|, i requires 0 <= i < |items| =>
           if items[i].productId == productId then items[i].(quantityOrdered := newQuantity) else items[i])
  }

  /** `totalCost`: cost times ordered quantity, summed over the lines. */
  function TotalCost(items: seq<LineValue>): int
  {
    if items == [] then 0
    else TotalCost(items[..|items| - 1]) + items[|items| - 1].costPrice * items[|items| - 1].quantityOrdered
  }

  /** The total ordered quantity of one product over the lines. */
  function QuantityOf(items: seq<LineValue>, productId: string): int
  {
    if items == [] then 0
    else QuantityOf(items[..|items| - 1], productId)
         + (if items[|items| - 1].productId == productId then items[|items| - 1].quantityOrdered else 0)
  }

  /** `handleAddItem`: a non-positive quantity does nothing; otherwise the
      existing line object of the product gets the quantity added in place,
      or a new line object is appended. */
  method AddItem(prev: seq<DraftLine>, product: Product, quantity: int) returns (next: seq<DraftLine>)
    requires Distinct(prev)
    modifies set l | l in prev
    ensures Distinct(next)
    ensures Values(next) == AddLine(old(Values(prev)), product, quantity)
    ensures |prev| <= |next| && next[..|prev|] == prev
    ensures forall i :: |prev| <= i < |next| ==> fresh(next[i])
    ensures Values(prev) == Values(next)[..|prev|]
  {
    if quantity <= 0 {
      return prev;
    }
    ghost var before := Values(prev);
    assert before == old(Values(prev));
    var found := FindLine(Values(prev), product.id);
    var existingIndex := if found.Some? then found.value as int else -1;
    if existingIndex > -1 {
      next := prev;
      var target := before[existingIndex := before[existingIndex].(quantityOrdered := before[existingIndex].quantityOrdered + quantity)];
      next[existingIndex].quantityOrdered := next[existingIndex].quantityOrdered + quantity;
      forall j | 0 <= j < |prev| ensures Values(next)[j] == target[j] {
        assert old(Values(prev))[j] == old(ValueOf(prev[j]));
        if j != existingIndex {
          assert prev[j] != prev[existingIndex];
          assert ValueOf(prev[j]) == old(ValueOf(prev[j]));
        }
      }
    } else {
      var line := new DraftLine(product.id, product.name, quantity, CostOrZero(product.costPrice));
      next := prev + [line];
      forall j | 0 <= j < |prev| ensures Values(next)[j] == before[j] {
        assert next[j] == prev[j];
        assert old(Values(prev))[j] == old(ValueOf(prev[j]));
        assert ValueOf(prev[j]) == old(ValueOf(prev[j]));
      }
      assert Values(next) == before + [ValueOf(line)];
    }
  }

  /** `handleUpdateItemQuantity`: drop the product's lines when the new
      quantity is not positive, otherwise replace each of them by a new line
      object with that quantity; no existing object is changed. */
  method UpdateItemQuantity(prev: seq<DraftLine>, productId: string, newQuantity: int) returns (next: seq<DraftLine>)
    requires Distinct(prev)
    ensures Distinct(next)
    ensures Values(next) == UpdateQuantity(Values(prev), productId, newQuantity)
    ensures forall i :: 0 <= i < |next| ==> next[i] in prev || fresh(next[i])
  {
    if newQuantity <= 0 {
      next := DropLines(prev, productId);
    } else {
      next := SetLines(prev, productId, newQuantity);
    }
  }

  /** The `filter` branch on the line objects: keeps every other product's line object. */
  method DropLines(prev: seq<DraftLine>, productId: string) returns (next: seq<DraftLine>)
    requires Distinct(prev)
    ensures Distinct(next) && forall x :: x in next ==> x in prev
    ensures Values(next) == RemoveLine(Values(prev), productId)
  {
    next := [];
    var i := 0;
    while i < |prev|
      invariant 0 <= i <= |prev|
      invariant Distinct(next) && forall x :: x in next ==> x in prev[..i]
      invariant Values(next) == RemoveLine(Values(prev)[..i], productId)
    {
      assert Values(prev)[..i + 1][..i] == Values(prev)[..i];
      assert prev[..i + 1] == prev[..i] + [prev[i]];
      assert prev[i] !in prev[..i];
      if prev[i].productId != productId {
        next := next + [prev[i]];
      }
      i := i + 1;
    }
    assert Values(prev)[..i] == Values(prev);
    assert prev[..i] == prev;
  }

  /** The `map` branch on the line objects: a new object with the new quantity
      for each line of the product, the same object for every other line. */
  method SetLines(prev: seq<DraftLine>, productId: string, newQuantity: int) returns (next: seq<DraftLine>)
    requires Distinct(prev) && newQuantity > 0
    ensures Distinct(next)
    ensures Values(next) == UpdateQuantity(Values(prev), productId, newQuantity)
    ensures forall i :: 0 <= i < |next| ==> next[i] == prev[i] || fresh(next[i])
  {
    next := [];
    var i := 0;
    while i < |prev|
      invariant 0 <= i <= |prev| && |next| == i
      invariant Distinct(next)
      invariant forall j :: 0 <= j < i ==> next[j] == prev[j] || fresh(next[j])
      invariant Values(next) == UpdateQuantity(Values(prev), productId, newQuantity)[..i]
    {
      ghost var target := UpdateQuantity(Values(prev), productId, newQuantity);
      assert target[..i + 1] == target[..i] + [target[i]];
      var line := prev[i];
      if prev[i].productId == productId {
        line := new DraftLine(prev[i].productId, prev[i].productName, newQuantity, prev[i].costPrice);
      }
      assert ValueOf(line) == target[i];
      assert Values(next + [line]) == Values(next) + [ValueOf(line)];
      next := next + [line];
      i := i + 1;
    }
  }

  lemma {:induction false} FindLineFirst(items: seq<LineValue>, productId: string, i: nat)
    requires i < |items| && items[i].productId == productId
    requires forall j :: 0 <= j < i ==> items[j].productId != productId
    ensures FindLine(items, productId) == Some(i)
  {
    if i > 0 {
      FindLineFirst(items[1..], productId, i - 1);
    }
  }

  /** One line of the POST /purchase-orders body. */
  datatype PayloadItem = PayloadItem(productId: string, quantity: int, costPrice: int)

  datatype Payload = Payload(supplierId: string, items: seq<PayloadItem>, totalCost: int, notes: string)

  datatype DraftError = EmptyOrder

  /** `handleSubmit` up to the request: an order without lines is refused
      and nothing is sent; otherwise every line goes out with its quantity
      and cost, together with the total cost. */
  function Submit(supplierId: string, items: seq<LineValue>, notes: string): (r: Result<Payload, DraftError>)
    ensures r.Failure? <==> items == []
    ensures r.Success? ==>
              && r.value.supplierId == supplierId && r.value.notes == notes
              && r.value.totalCost == TotalCost(items)
              && |r.value.items| == |items|
              && forall i :: 0 <= i < |items| ==>
                   r.value.items[i] == PayloadItem(items[i].productId, items[i].quantityOrdered, items[i].costPrice)
  {
    if items == [] then Failure(EmptyOrder)
    else Success(Payload(supplierId,
                         seq(|items|, i requires 0 <= i < |items| =>
                           PayloadItem(items[i].productId, items[i].quantityOrdered, items[i].costPrice)),
                         TotalCost(items), notes))
  }

  // ---------------------------------------------------------------- lemmas

  lemma {:induction false} QuantityOfAppend(items: seq<LineValue>, x: LineValue, productId: string)
    ensures QuantityOf(items + [x], productId)
            == QuantityOf(items, productId) + (if x.productId == productId then x.quantityOrdered else 0)
  {
    assert (items + [x])[..|items|] == items;
  }

  lemma {:induction false} QuantityOfUpdate(items: seq<LineValue>, i: nat, x: LineValue, productId: string)
    requires i < |items| && x.productId == items[i].productId
    ensures QuantityOf(items[i := x], productId)
            == QuantityOf(items, productId)
               + (if x.productId == productId then x.quantityOrdered - items[i].quantityOrdered else 0)
  {
    var n := |items|;
    if i == n - 1 {
      assert items[i := x][..n - 1] == items[..n - 1];
    } else {
      assert items[i := x][..n - 1] == items[..n - 1][i := x];
      QuantityOfUpdate(items[..n - 1], i, x, productId);
    }
  }

  lemma {:induction false} TotalCostUpdate(items: seq<LineValue>, i: nat, x: LineValue)
    requires i < |items|
    ensures TotalCost(items[i := x])
            == TotalCost(items) + x.costPrice * x.quantityOrdered - items[i].costPrice * items[i].quantityOrdered
  {
    var n := |items|;
    if i == n - 1 {
      assert items[i := x][..n - 1] == items[..n - 1];
    } else {
      assert items[i := x][..n - 1] == items[..n - 1][i := x];
      TotalCostUpdate(items[..n - 1], i, x);
    }
  }

  lemma {:induction false} QuantityOfAbsent(items: seq<LineValue>, productId: string)
    requires forall i :: 0 <= i < |items| ==> items[i].productId != productId
    ensures QuantityOf(items, productId) == 0
  {
    if items != [] {
      QuantityOfAbsent(items[..|items| - 1], productId);
    }
  }

  /** Adding `quantity` units of a product raises that product's ordered
      quantity by exactly `quantity` and no other product's; nothing happens
      for a non-positive quantity. */
  lemma AddLineQuantities(items: seq<LineValue>, product: Product, quantity: int, productId: string)
    ensures QuantityOf(AddLine(items, product, quantity), productId)
            == QuantityOf(items, productId) + (if quantity > 0 && productId == product.id then quantity else 0)
  {
    if quantity > 0 {
      match FindLine(items, product.id)
      case Some(i) =>
        QuantityOfUpdate(items, i, items[i].(quantityOrdered := items[i].quantityOrdered + quantity), productId);
      case None =>
        QuantityOfAppend(items, LineValue(product.id, product.name, quantity, CostOrZero(product.costPrice)), productId);
    }
  }

  lemma MergeIsUpdate(items: seq<LineValue>, product: Product, quantity: int, i: nat)
    requires quantity > 0 && FindLine(items, product.id) == Some(i)
    ensures AddLine(items, product, quantity)
            == items[i := items[i].(quantityOrdered := items[i].quantityOrdered + quantity)]
  {
  }

  lemma MergedCost(c: int, q0: int, q: int)
    ensures c * (q0 + q) - c * q0 == q * c
  {
  }

  lemma {:induction false} MergeCost(items: seq<LineValue>, i: nat, quantity: int)
    requires i < |items|
    ensures TotalCost(items[i := items[i].(quantityOrdered := items[i].quantityOrdered + quantity)])
            == TotalCost(items) + quantity * items[i].costPrice
  {
    var x := items[i].(quantityOrdered := items[i].quantityOrdered + quantity);
    TotalCostUpdate(items, i, x);
    MergedCost(items[i].costPrice, items[i].quantityOrdered, quantity);
  }

  /** Adding to a product already listed adds no line and changes only the
      cost of that line: the total grows by the quantity times the cost the
      line was priced at when it was first added. */
  lemma AddLineMerges(items: seq<LineValue>, product: Product, quantity: int, i: nat)
    requires quantity > 0 && FindLine(items, product.id) == Some(i)
    ensures var r := AddLine(items, product, quantity);
            && |r| == |items| && FindLine(r, product.id) == Some(i)
            && TotalCost(r) == TotalCost(items) + quantity * items[i].costPrice
  {
    var r := items[i := items[i].(quantityOrdered := items[i].quantityOrdered + quantity)];
    MergeIsUpdate(items, product, quantity, i);
    MergeCost(items, i, quantity);
    assert forall j :: 0 <= j < i ==> r[j] == items[j];
    FindLineFirst(r, product.id, i);
  }

  /** Adding a product not yet listed appends exactly one line, priced at
      the product's cost (0 when it has none). */
  lemma AddLineAppends(items: seq<LineValue>, product: Product, quantity: int)
    requires quantity > 0 && FindLine(items, product.id).None?
    ensures var line := LineValue(product.id, product.name, quantity, CostOrZero(product.costPrice));
            var r := AddLine(items, product, quantity);
            && r == items + [line] && FindLine(r, product.id) == Some(|items|)
            && TotalCost(r) == TotalCost(items) + quantity * line.costPrice
  {
    var line := LineValue(product.id, product.name, quantity, CostOrZero(product.costPrice));
    var r := items + [line];
    assert AddLine(items, product, quantity) == r;
    assert r[..|items|] == items;
    assert TotalCost(r) == TotalCost(items) + line.costPrice * line.quantityOrdered;
    FindLineFirst(r, product.id, |items|);
  }

  /** No product ever gets two lines. */
  lemma AddLineKeepsUnique(items: seq<LineValue>, product: Product, quantity: int)
    requires UniqueProducts(items)
    ensures UniqueProducts(AddLine(items, product, quantity))
  {
  }

  /** Dropping a product's lines keeps only lines that were there. */
  lemma {:induction false} RemoveLineMembers(items: seq<LineValue>, productId: string)
    ensures forall x :: x in RemoveLine(items, productId) ==> x in items
  {
    if items != [] {
      var init := items[..|items| - 1];
      RemoveLineMembers(init, productId);
      assert forall x :: x in init ==> x in items;
    }
  }

  lemma {:induction false} RemoveLineKeepsUnique(items: seq<LineValue>, productId: string)
    requires UniqueProducts(items)
    ensures UniqueProducts(RemoveLine(items, productId))
  {
    if items != [] {
      var n := |items|;
      var init := items[..n - 1];
      var last := items[n - 1];
      assert UniqueProducts(init);
      RemoveLineKeepsUnique(init, productId);
      if last.productId != productId {
        var front := RemoveLine(init, productId);
        RemoveLineMembers(init, productId);
        forall x | x in front ensures x.productId != last.productId {
          var k :| 0 <= k < |init| && init[k] == x;
          assert items[k] == x;
        }
        var r := front + [last];
        forall i, j | 0 <= i < j < |r| ensures r[i].productId != r[j].productId {
          assert r[i] in front;
          if j < |front| {
            assert r[j] == front[j];
          }
        }
      }
    }
  }

  /** Setting a quantity, in either branch, never gives a product two lines. */
  lemma UpdateQuantityKeepsUnique(items: seq<LineValue>, productId: string, newQuantity: int)
    requires UniqueProducts(items)
    ensures UniqueProducts(UpdateQuantity(items, productId, newQuantity))
  {
    if newQuantity <= 0 {
      RemoveLineKeepsUnique(items, productId);
    }
  }

  lemma {:induction false} RemoveLineQuantities(items: seq<LineValue>, productId: string, other: string)
    ensures QuantityOf(RemoveLine(items, productId), other)
            == if other == productId then 0 else QuantityOf(items, other)
  {
    if items != [] {
      var n := |items|;
      RemoveLineQuantities(items[..n - 1], productId, other);
      var last := items[n - 1];
      if last.productId != productId {
        assert RemoveLine(items, productId) == RemoveLine(items[..n - 1], productId) + [last];
        QuantityOfAppend(RemoveLine(items[..n - 1], productId), last, other);
      } else {
        assert RemoveLine(items, productId) == RemoveLine(items[..n - 1], productId);
      }
    }
  }

  lemma SetQuantityPrefix(items: seq<LineValue>, productId: string, q: int)
    requires q > 0 && items != []
    ensures var r := UpdateQuantity(items, productId, q);
            && |r| == |items|
            && r[..|items| - 1] == UpdateQuantity(items[..|items| - 1], productId, q)
            && r[|items| - 1] == (if items[|items| - 1].productId == productId
                                  then items[|items| - 1].(quantityOrdered := q) else items[|items| - 1])
  {
  }

  lemma FindLinePrefix(items: seq<LineValue>, productId: string)
    requires items != []
    ensures FindLine(items, productId).Some?
            <==> FindLine(items[..|items| - 1], productId).Some? || items[|items| - 1].productId == productId
  {
    var n := |items|;
    var init := items[..n - 1];
    var whole := FindLine(items, productId);
    var front := FindLine(init, productId);
    if front.Some? {
      assert init[front.value] == items[front.value];
      assert whole.Some?;
    } else if items[n - 1].productId == productId {
      assert whole.Some?;
    } else {
      assert forall i :: 0 <= i < n - 1 ==> items[i] == init[i];
      assert whole.None?;
    }
  }

  lemma {:induction false} SetQuantityQuantities(items: seq<LineValue>, productId: string, q: int, other: string)
    requires q > 0 && UniqueProducts(items)
    ensures QuantityOf(UpdateQuantity(items, productId, q), other)
            == if other != productId then QuantityOf(items, other)
               else if FindLine(items, productId).Some? then q else 0
  {
    if items != [] {
      var n := |items|;
      var init := items[..n - 1];
      var last := items[n - 1];
      assert UniqueProducts(init);
      SetQuantityPrefix(items, productId, q);
      SetQuantityQuantities(init, productId, q, other);
      FindLinePrefix(items, productId);
      if last.productId == productId {
        assert forall j :: 0 <= j < n - 1 ==> init[j].productId != productId;
      }
    }
  }

  /** Setting a quantity makes it the product's ordered quantity (or drops
      the product when the value is not positive) and leaves every other
      product's quantity as it was. */
  lemma UpdateQuantityQuantities(items: seq<LineValue>, productId: string, newQuantity: int, other: string)
    requires UniqueProducts(items)
    ensures QuantityOf(UpdateQuantity(items, productId, newQuantity), other)
            == if other != productId then QuantityOf(items, other)
               else if newQuantity > 0 && FindLine(items, productId).Some? then newQuantity else 0
  {
    if newQuantity <= 0 {
      RemoveLineQuantities(items, productId, other);
    } else {
      SetQuantityQuantities(items, productId, newQuantity, other);
    }
  }
}
