/** The inventory screen: the optimistic stock change behind the +/-
    buttons, its rollback, the guard in front of the activate/deactivate
    button, and the search-and-category filter of the product list. */
module InventoryView {
  import opened Common
  import opened Catalog
  import ServerState

  /** The `is_active` the screen shows right after a stock change. */
  function NewIsActive(oldStock: int, oldIsActive: bool, newStock: int): (r: bool)
    ensures r ==> newStock > 0
  {
    if oldStock <= 0 && newStock > 0 then true else if newStock > 0 then oldIsActive else false
  }

  /** The list `handleStockChange` shows before the server answers: `None`
      when the change would make the clicked product's stock negative (the
      handler returns without touching anything); otherwise every entry with
      the product's id gets the new stock and the new flag. */
  function StockChange(products: seq<Product>, product: Product, amount: int): (r: Option<seq<Product>>)
    ensures r.None? <==> product.stock + amount < 0
    ensures r.Some? ==>
              && |r.value| == |products|
              && forall i :: 0 <= i < |products| ==>
                   if products[i].id == product.id
                   then r.value[i] == products[i].(stock := product.stock + amount,
                                                   isActive := NewIsActive(products[i].stock, products[i].isActive, product.stock + amount))
                   else r.value[i] == products[i]
  {
    var newStock := product.stock + amount;
    if newStock < 0 then None
    else Some(seq(|products|, i requires 0 <= i < |products| =>
           var p := products[i];
           if p.id == product.id then p.(stock := newStock, isActive := NewIsActive(p.stock, p.isActive, newStock)) else p))
  }

  /** What the screen shows once the PUT has answered: the server's product
      in place of the entry, or, when the request failed, the list exactly
      as it was before the change. */
  function AfterReply(current: seq<Product>, original: seq<Product>, productId: string, reply: Option<Product>): (r: seq<Product>)
    ensures reply.None? ==> r == original
    ensures reply.Some? ==> |r| == |current| && forall i :: 0 <= i < |current| ==>
              r[i] == (if current[i].id == productId then reply.value else current[i])
  {
    match reply
    case None => original
    case Some(p) => seq(|current|, i requires 0 <= i < |current| => if current[i].id == productId then p else current[i])
  }

  /** `handleToggleActive` goes on to ask for confirmation unless it would
      switch on a product without stock. */
  function ToggleAllowed(product: Product): (r: bool)
  {
    !(!product.isActive && product.stock <= 0)
  }

  // ----------------------------------------------------------------- filter

  /** `toLowerCase` on the ASCII letters. */
  function Lower(s: string): (r: string)
    ensures |r| == |s|
    ensures forall i :: 0 <= i < |s| ==> r[i] == (if 'A' <= s[i] <= 'Z' then (s[i] as int + 32) as char else s[i])
  {
    seq(|s|, i requires 0 <= i < |s| => if 'A' <= s[i] <= 'Z' then (s[i] as int + 32) as char else s[i])
  }

  predicate OccursAt(s: string, t: string, i: int)
  {
    0 <= i <= |s| - |t| && s[i..i + |t|] == t
  }

  /** `s.includes(t)`. */
  predicate Contains(s: string, t: string)
  {
    exists i | 0 <= i <= |s| - |t| :: OccursAt(s, t, i)
  }

  /** Whether `filteredProducts` keeps a product. */
  predicate Listed(p: Product, searchTerm: string, category: string)
  {
    var term := Lower(searchTerm);
    (Contains(Lower(p.name), term) || Contains(Lower(p.code), term))
    && (category == "" || p.category == category)
  }

  /** `filteredProducts`. */
  function Filter(products: seq<Product>, searchTerm: string, category: string): (r: seq<Product>)
    ensures |r| <= |products|
    ensures forall i :: 0 <= i < |r| ==> Listed(r[i], searchTerm, category)
  {
    if products == [] then []
    else (if Listed(products[0], searchTerm, category) then [products[0]] else [])
         + Filter(products[1..], searchTerm, category)
  }

  // ----------------------------------------------------------------- lemmas

  /** The optimistic flag is the backend's rule for a product update, so
      once the server answers the flag does not change under the user. */
  lemma NewIsActiveIsServerRule(oldStock: int, oldIsActive: bool, newStock: int)
    ensures NewIsActive(oldStock, oldIsActive, newStock) == ServerState.NextIsActive(oldStock, oldIsActive, newStock)
  {
  }

  /** No product shown as active is out of stock after a stock change, as
      long as none was before. */
  lemma StockChangeKeepsActiveInStock(products: seq<Product>, product: Product, amount: int)
    requires forall i :: 0 <= i < |products| && products[i].isActive ==> products[i].stock > 0
    requires StockChange(products, product, amount).Some?
    ensures var r := StockChange(products, product, amount).value;
            forall i :: 0 <= i < |r| && r[i].isActive ==> r[i].stock > 0
  {
  }

  /** A refused or failed change leaves the list exactly as it was. */
  lemma FailedChangeRestores(products: seq<Product>, product: Product, amount: int)
    ensures match StockChange(products, product, amount)
            case None => true
            case Some(shown) => AfterReply(shown, products, product.id, None) == products
    ensures StockChange(products, product, amount).None? <==> product.stock + amount < 0
  {
  }

  /** When the listed product matches the stored one, the server stores the
      stock and flag the screen already shows. */
  lemma OptimisticAgreesWithServer(db: ServerState.Db, caller: string, products: seq<Product>, i: nat,
                                   amount: int, edit: ServerState.ProductEdit)
    requires i < |products| && products[i].id in db.products
    requires db.products[products[i].id].stock == products[i].stock
    requires db.products[products[i].id].isActive == products[i].isActive
    requires products[i].stock + amount >= 0 && edit.stock == products[i].stock + amount
    ensures var shown := StockChange(products, products[i], amount).value[i];
            var stored := ServerState.UpdateProduct(db, caller, products[i].id, edit);
            && stored.Success?
            && stored.value.products[products[i].id].stock == shown.stock
            && stored.value.products[products[i].id].isActive == shown.isActive
  {
    NewIsActiveIsServerRule(products[i].stock, products[i].isActive, edit.stock);
  }

  /** The screen's guard and the backend's refusal agree on a product the
      screen shows as it is stored. */
  lemma ToggleGuardMatchesServer(db: ServerState.Db, caller: string, p: Product)
    requires p.id in db.products
    requires db.products[p.id].stock == p.stock && db.products[p.id].isActive == p.isActive
    ensures ToggleAllowed(p) <==> ServerState.ToggleStatus(db, caller, p.id).Success?
  {
  }

  lemma ContainsEmpty(s: string)
    ensures Contains(s, "")
  {
    assert OccursAt(s, "", 0);
  }

  /** With no search term and no category every product is listed, in order. */
  lemma {:induction false} EmptySearchListsAll(products: seq<Product>)
    ensures Filter(products, "", "") == products
  {
    if products != [] {
      ContainsEmpty(Lower(products[0].name));
      assert Lower("") == "";
      EmptySearchListsAll(products[1..]);
    }
  }

  /** A product is listed exactly when it is in the list and matches. */
  lemma {:induction false} FilterMembers(products: seq<Product>, searchTerm: string, category: string)
    ensures forall p :: p in Filter(products, searchTerm, category) <==> p in products && Listed(p, searchTerm, category)
  {
    if products != [] {
      FilterMembers(products[1..], searchTerm, category);
      assert forall p :: p in products <==> p == products[0] || p in products[1..];
    }
  }

  /** The filter keeps the order of the list. */
  lemma {:induction false} FilterAppend(a: seq<Product>, b: seq<Product>, searchTerm: string, category: string)
    ensures Filter(a + b, searchTerm, category) == Filter(a, searchTerm, category) + Filter(b, searchTerm, category)
  {
    if a == [] {
      assert a + b == b;
    } else {
      assert (a + b)[0] == a[0];
      assert (a + b)[1..] == a[1..] + b;
      FilterAppend(a[1..], b, searchTerm, category);
    }
  }

  /** Case is ignored: typing a product's name in any mix of upper and
      lower case finds it. */
  lemma SearchIgnoresCase(p: Product, searchTerm: string, category: string)
    requires Lower(searchTerm) == Lower(p.name)
    requires category == "" || p.category == category
    ensures Listed(p, searchTerm, category)
  {
    var n := Lower(p.name);
    assert OccursAt(n, n, 0);
  }

  /** The search as a whole ignores case: two terms that agree up to
      letter case list exactly the same products. */
  lemma SearchCaseInsensitive(p: Product, term: string, other: string, category: string)
    requires Lower(term) == Lower(other)
    ensures Listed(p, term, category) <==> Listed(p, other, category)
  {
  }
}
