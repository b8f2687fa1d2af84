/** The cart of the sales screen: one line per product id, edited by
    `handleCartUpdate` (+/- buttons, barcode scans, product clicks), emptied
    line by line by `removeFromCart`, and summed by `totalAmount`. */
module SalesView {
  import opened Common
  import opened Catalog

  /** A cart line: the product as it was when first added, and a quantity. */
  datatype CartItem = CartItem(product: Product, quantity: int)

  predicate UniqueIds(cart: seq<CartItem>)
  {
    forall i, j :: 0 <= i < j < |cart| ==> cart[i].product.id != cart[j].product.id
  }

  predicate QuantitiesPositive(cart: seq<CartItem>)
  {
    forall i :: 0 <= i < |cart| ==> cart[i].quantity > 0
  }

  /** The first line of the product, as `findIndex` finds it; `None` stands for -1. */
  function IndexOf(cart: seq<CartItem>, id: string): (r: Option<nat>)
    ensures r.None? <==> forall i :: 0 <= i < |cart| ==> cart[i].product.id != id
    ensures r.Some? ==> r.value < |cart| && cart[r.value].product.id == id
                        && forall j :: 0 <= j < r.value ==> cart[j].product.id != id
  {
    if cart == [] then None
    else if cart[0].product.id == id then Some(0)
    else match IndexOf(cart[1..], id)
      case None => None
      case Some(k) => Some(k + 1)
  }

  /** The cart `handleCartUpdate` hands to `setCart`, as a value: the line of
      `product` moves by `change`, is dropped at zero or below and is capped
      at the product's stock; a product not in the cart comes in with one
      unit when `change` is positive and there is stock. */
  function CartUpdate(cart: seq<CartItem>, product: Product, change: int): seq<CartItem>
  {
    match IndexOf(cart, product.id)
    case Some(i) =>
      var q := cart[i].quantity + change;
      if q <= 0 then cart[..i] + cart[i + 1..]
      else if q > product.stock then cart[i := cart[i].(quantity := product.stock)]
      else cart[i := cart[i].(quantity := q)]
    case None =>
      if change > 0 && product.stock > 0 then cart + [CartItem(product, 1)] else cart
  }

  /** The updater of `handleCartUpdate`: copy the cart, find the product's
      line, then splice it out, overwrite it, or push a new line. */
  method HandleCartUpdate(prevCart: seq<CartItem>, product: Product, change: int) returns (newCart: seq<CartItem>)
    ensures newCart == CartUpdate(prevCart, product, change)
  {
    var found := IndexOf(prevCart, product.id);
    var existingIndex := if found.Some? then found.value as int else -1;
    newCart := prevCart;
    if existingIndex > -1 {
      var existingItem := newCart[existingIndex];
      var newQuantity := existingItem.quantity + change;
      if newQuantity <= 0 {
        newCart := newCart[..existingIndex] + newCart[existingIndex + 1..];
      } else if newQuantity > product.stock {
        newCart := newCart[existingIndex := existingItem.(quantity := product.stock)];
      } else {
        newCart := newCart[existingIndex := existingItem.(quantity := newQuantity)];
      }
    } else if change > 0 {
      if product.stock > 0 {
        newCart := newCart + [CartItem(product, 1)];
      }
    }
  }

  /** `removeFromCart`: the lines of other products, in their order. */
  function RemoveFromCart(cart: seq<CartItem>, productId: string): (r: seq<CartItem>)
    ensures |r| <= |cart|
    ensures forall i :: 0 <= i < |r| ==> r[i].product.id != productId
  {
    if cart == [] then []
    else if cart[0].product.id == productId then RemoveFromCart(cart[1..], productId)
    else [cart[0]] + RemoveFromCart(cart[1..], productId)
  }

  function LineTotal(item: CartItem): int
  {
    item.product.price * item.quantity
  }

  /** `totalAmount`: price times quantity, summed over the lines. */
  function CartTotal(cart: seq<CartItem>): int
  {
    if cart == [] then 0 else LineTotal(cart[0]) + CartTotal(cart[1..])
  }

  /** The part of the total that comes from lines of product `id`. */
  function Subtotal(cart: seq<CartItem>, id: string): int
  {
    if cart == [] then 0
    else (if cart[0].product.id == id then LineTotal(cart[0]) else 0) + Subtotal(cart[1..], id)
  }

  // ---------------------------------------------------------------- lemmas

  /** `removeFromCart` keeps exactly the lines of other products. */
  lemma {:induction false} RemoveFromCartMembers(cart: seq<CartItem>, productId: string)
    ensures forall x :: x in RemoveFromCart(cart, productId) <==> x in cart && x.product.id != productId
  {
    if cart != [] {
      RemoveFromCartMembers(cart[1..], productId);
      assert forall x :: x in cart <==> x == cart[0] || x in cart[1..];
    }
  }

  /** Removing a product never gives another product a second line. */
  lemma {:induction false} RemoveFromCartKeepsUnique(cart: seq<CartItem>, productId: string)
    requires UniqueIds(cart)
    ensures UniqueIds(RemoveFromCart(cart, productId))
  {
    if cart != [] {
      var rest := cart[1..];
      assert UniqueIds(rest) by {
        assert forall i :: 0 <= i < |rest| ==> rest[i] == cart[i + 1];
      }
      RemoveFromCartKeepsUnique(rest, productId);
      if cart[0].product.id != productId {
        var tail := RemoveFromCart(rest, productId);
        RemoveFromCartMembers(rest, productId);
        forall x | x in tail ensures x.product.id != cart[0].product.id {
          var k :| 0 <= k < |rest| && rest[k] == x;
          assert cart[k + 1] == x;
        }
        var r := [cart[0]] + tail;
        forall i, j | 0 <= i < j < |r| ensures r[i].product.id != r[j].product.id {
          assert r[j] == tail[j - 1];
          if i > 0 {
            assert r[i] == tail[i - 1];
          }
        }
      }
    }
  }

  lemma {:induction false} RemoveFromCartAppend(a: seq<CartItem>, b: seq<CartItem>, id: string)
    ensures RemoveFromCart(a + b, id) == RemoveFromCart(a, id) + RemoveFromCart(b, id)
  {
    if a != [] {
      assert (a + b)[0] == a[0];
      assert (a + b)[1..] == a[1..] + b;
      RemoveFromCartAppend(a[1..], b, id);
    } else {
      assert a + b == b;
    }
  }

  /** Removing a product the cart does not hold leaves the cart as it is. */
  lemma {:induction false} RemoveFromCartAbsent(cart: seq<CartItem>, id: string)
    requires forall i :: 0 <= i < |cart| ==> cart[i].product.id != id
    ensures RemoveFromCart(cart, id) == cart
  {
    if cart != [] {
      RemoveFromCartAbsent(cart[1..], id);
    }
  }

  /** Removing a product ignores what its line at index `i` holds. */
  lemma RemoveAround(cart: seq<CartItem>, i: nat, line: CartItem)
    requires i < |cart| && line.product.id == cart[i].product.id
    ensures RemoveFromCart(cart[i := line], line.product.id)
            == RemoveFromCart(cart[..i] + cart[i + 1..], line.product.id)
  {
    var id := line.product.id;
    var c := cart[i := line];
    assert c == c[..i] + [line] + cart[i + 1..];
    assert c[..i] == cart[..i];
    RemoveFromCartAppend(cart[..i] + [line], cart[i + 1..], id);
    RemoveFromCartAppend(cart[..i], [line], id);
    RemoveFromCartAppend(cart[..i], cart[i + 1..], id);
  }

  /** Every cart update touches only the line of its product: the lines of
      all other products, and their order, are the same before and after. */
  lemma CartUpdateKeepsOthers(cart: seq<CartItem>, product: Product, change: int)
    ensures RemoveFromCart(CartUpdate(cart, product, change), product.id) == RemoveFromCart(cart, product.id)
  {
    var id := product.id;
    match IndexOf(cart, id)
    case None =>
      RemoveFromCartAppend(cart, [CartItem(product, 1)], id);
    case Some(i) =>
      var line := cart[i];
      assert cart[i := line] == cart;
      RemoveAround(cart, i, line);
      var q := line.quantity + change;
      if q > 0 {
        RemoveAround(cart, i, line.(quantity := if q > product.stock then product.stock else q));
      }
  }

  /** What happens to the product's own line: the quantity it ends with, or
      no line at all. */
  lemma CartUpdateTarget(cart: seq<CartItem>, product: Product, change: int)
    requires UniqueIds(cart)
    ensures var r := CartUpdate(cart, product, change);
            match IndexOf(cart, product.id)
            case Some(i) =>
              var q := cart[i].quantity + change;
              && (q <= 0 ==> IndexOf(r, product.id).None?)
              && (q > 0 ==> IndexOf(r, product.id) == Some(i)
                            && r[i] == cart[i].(quantity := if q > product.stock then product.stock else q))
            case None =>
              if change > 0 && product.stock > 0
              then IndexOf(r, product.id) == Some(|cart|) && r[|cart|] == CartItem(product, 1)
              else r == cart
  {
    var r := CartUpdate(cart, product, change);
    match IndexOf(cart, product.id)
    case Some(i) =>
      var q := cart[i].quantity + change;
      if q <= 0 {
        forall j | 0 <= j < |r| ensures r[j].product.id != product.id {
          assert r[j] == (if j < i then cart[j] else cart[j + 1]);
        }
      } else {
        IndexOfFirst(r, product.id, i);
      }
    case None =>
      if change > 0 && product.stock > 0 {
        IndexOfFirst(r, product.id, |cart|);
      }
  }

  /** The first line with the id is the one `findIndex` finds. */
  lemma {:induction false} IndexOfFirst(cart: seq<CartItem>, id: string, i: nat)
    requires i < |cart| && cart[i].product.id == id
    requires forall j :: 0 <= j < i ==> cart[j].product.id != id
    ensures IndexOf(cart, id) == Some(i)
  {
    if i > 0 {
      IndexOfFirst(cart[1..], id, i - 1);
    }
  }

  /** The cart never holds two lines for the same product. */
  lemma CartUpdateKeepsUnique(cart: seq<CartItem>, product: Product, change: int)
    requires UniqueIds(cart)
    ensures UniqueIds(CartUpdate(cart, product, change))
  {
    var r := CartUpdate(cart, product, change);
    match IndexOf(cart, product.id)
    case Some(i) =>
      if cart[i].quantity + change <= 0 {
        forall a, b | 0 <= a < b < |r| ensures r[a].product.id != r[b].product.id {
          var a' := if a < i then a else a + 1;
          var b' := if b < i then b else b + 1;
          assert r[a] == cart[a'] && r[b] == cart[b'];
        }
      }
    case None =>
  }

  /** With stock on hand, no line ends at zero or below. */
  lemma CartUpdateKeepsPositive(cart: seq<CartItem>, product: Product, change: int)
    requires QuantitiesPositive(cart) && product.stock > 0
    ensures QuantitiesPositive(CartUpdate(cart, product, change))
  {
    var r := CartUpdate(cart, product, change);
    match IndexOf(cart, product.id)
    case Some(i) =>
      if cart[i].quantity + change <= 0 {
        forall j | 0 <= j < |r| ensures r[j].quantity > 0 {
          assert r[j] == (if j < i then cart[j] else cart[j + 1]);
        }
      }
    case None =>
  }

  /** The cap uses the product's current stock, so a line of a product that
      has meanwhile sold out is kept with quantity zero. */
  lemma SoldOutLineKeptAtZero()
    ensures var p := Product("p1", "pan", "", "", 1000, None, 0, false);
            var cart := [CartItem(p.(stock := 5), 2)];
            CartUpdate(cart, p, 1) == [CartItem(p.(stock := 5), 0)]
  {
  }

  lemma {:induction false} CartTotalAppend(a: seq<CartItem>, b: seq<CartItem>)
    ensures CartTotal(a + b) == CartTotal(a) + CartTotal(b)
  {
    if a != [] {
      assert (a + b)[0] == a[0];
      assert (a + b)[1..] == a[1..] + b;
      CartTotalAppend(a[1..], b);
    } else {
      assert a + b == b;
    }
  }

  /** The total splits into the product's own lines and all the others. */
  lemma {:induction false} CartTotalSplit(cart: seq<CartItem>, id: string)
    ensures CartTotal(cart) == CartTotal(RemoveFromCart(cart, id)) + Subtotal(cart, id)
  {
    if cart != [] {
      CartTotalSplit(cart[1..], id);
      if cart[0].product.id != id {
        CartTotalAppend([cart[0]], RemoveFromCart(cart[1..], id));
      }
    }
  }

  lemma {:induction false} SubtotalOfUnique(cart: seq<CartItem>, id: string)
    requires UniqueIds(cart)
    ensures Subtotal(cart, id) == match IndexOf(cart, id) case None => 0 case Some(i) => LineTotal(cart[i])
  {
    if cart != [] {
      assert UniqueIds(cart[1..]) by {
        forall a, b | 0 <= a < b < |cart| - 1 ensures cart[1..][a].product.id != cart[1..][b].product.id {
          assert cart[1..][a] == cart[a + 1] && cart[1..][b] == cart[b + 1];
        }
      }
      SubtotalOfUnique(cart[1..], id);
      if cart[0].product.id == id {
        assert IndexOf(cart[1..], id).None? by {
          forall j | 0 <= j < |cart| - 1 ensures cart[1..][j].product.id != id {
            assert cart[1..][j] == cart[j + 1];
          }
        }
      }
    }
  }

  /** After an update the total is the other products' lines plus the
      product's own line at its new quantity (the line keeps the price it
      was added with). */
  lemma CartUpdateTotal(cart: seq<CartItem>, product: Product, change: int)
    requires UniqueIds(cart)
    ensures var r := CartUpdate(cart, product, change);
            CartTotal(r) == CartTotal(RemoveFromCart(cart, product.id))
                            + match IndexOf(r, product.id) case None => 0 case Some(i) => LineTotal(r[i])
  {
    var r := CartUpdate(cart, product, change);
    CartTotalSplit(r, product.id);
    CartUpdateKeepsOthers(cart, product, change);
    CartUpdateKeepsUnique(cart, product, change);
    SubtotalOfUnique(r, product.id);
  }

  /** Removing a product's line takes exactly that line's amount off the total. */
  lemma RemoveFromCartTotal(cart: seq<CartItem>, id: string)
    requires UniqueIds(cart)
    ensures CartTotal(RemoveFromCart(cart, id))
            == CartTotal(cart) - match IndexOf(cart, id) case None => 0 case Some(i) => LineTotal(cart[i])
  {
    CartTotalSplit(cart, id);
    SubtotalOfUnique(cart, id);
  }
}
