/** The cart document (models/Cart.js): one cart per user holding a list of
    items, each standard (a product reference) or custom (an inline object),
    updated in place by the cart handlers. */
module CartModel {
  import opened Wrappers
  import opened Common

  /** The `customData` object of a custom item. The schema leaves it
      unconstrained; the handlers read its `name` and `price`, and the rest
      is carried along as it came. */
  datatype CustomPayload = CustomPayload(name: string, price: int, details: map<string, string>)

  /** A cart item. `product` is optional at schema level. */
  datatype CartItem = CartItem(
    itemType: ItemType,
    product: Option<ProductId>,
    quantity: int,
    customData: Option<CustomPayload>)

  /** The schema default of `quantity`, applied when the pushed item has none. */
  function QuantityOrDefault(quantity: Option<int>): (q: int)
    ensures quantity.None? ==> q == 1
    ensures quantity.Some? ==> q == quantity.value
  {
    match quantity
    case None => 1
    case Some(n) => n
  }

  /** The predicate `findIndex` applies: a standard item whose product
      prints as `id`. */
  predicate IsStandardOf(it: CartItem, id: ProductId) {
    it.itemType == Standard && it.product == Some(id)
  }

  /** `products.findIndex(...)`: the first standard item for `id`. */
  function FindStandard(products: seq<CartItem>, id: ProductId): (r: Option<nat>)
    ensures r.Some? ==> r.value < |products| && IsStandardOf(products[r.value], id)
    ensures r.Some? ==> forall j :: 0 <= j < r.value ==> !IsStandardOf(products[j], id)
    ensures r.None? ==> forall j :: 0 <= j < |products| ==> !IsStandardOf(products[j], id)
  {
    if products == [] then None
    else if IsStandardOf(products[0], id) then Some(0)
    else
      match FindStandard(products[1..], id)
      case None => None
      case Some(i) => Some(i + 1)
  }

  /** `products.filter(item => item.product?.toString() !== id)`. */
  function WithoutProduct(products: seq<CartItem>, id: ProductId): seq<CartItem> {
    if products == [] then []
    else if products[0].product == Some(id) then WithoutProduct(products[1..], id)
    else [products[0]] + WithoutProduct(products[1..], id)
  }

  /** The filter works element by element: filtering a concatenation is
      concatenating the filtered parts, so the kept items stay in order. */
  lemma {:induction false} WithoutProductAppend(a: seq<CartItem>, b: seq<CartItem>, id: ProductId)
    ensures WithoutProduct(a + b, id) == WithoutProduct(a, id) + WithoutProduct(b, id)
  {
    if a == [] {
      assert a + b == b;
    } else {
      assert (a + b)[1..] == a[1..] + b;
      WithoutProductAppend(a[1..], b, id);
    }
  }

  /** Every item for `id` goes, every other item (custom items included)
      stays with its multiplicity, and nothing changes when no item is for
      `id`. */
  lemma WithoutProductKeeps(products: seq<CartItem>, id: ProductId)
    ensures forall x :: x in WithoutProduct(products, id) ==> x.product != Some(id)
    ensures forall x: CartItem :: x.product != Some(id) ==>
              multiset(WithoutProduct(products, id))[x] == multiset(products)[x]
    ensures (forall k :: 0 <= k < |products| ==> products[k].product != Some(id)) ==>
              WithoutProduct(products, id) == products
  {
    WithoutProductDrops(products, id);
    WithoutProductCounts(products, id);
    if forall k :: 0 <= k < |products| ==> products[k].product != Some(id) {
      WithoutProductUnchanged(products, id);
    }
  }

  lemma {:induction false} WithoutProductDrops(products: seq<CartItem>, id: ProductId)
    ensures forall x :: x in WithoutProduct(products, id) ==> x.product != Some(id)
  {
    if products != [] {
      WithoutProductDrops(products[1..], id);
    }
  }

  lemma {:induction false} WithoutProductCounts(products: seq<CartItem>, id: ProductId)
    ensures forall x: CartItem :: x.product != Some(id) ==>
              multiset(WithoutProduct(products, id))[x] == multiset(products)[x]
  {
    if products != [] {
      WithoutProductCounts(products[1..], id);
      assert products == [products[0]] + products[1..];
    }
  }

  lemma {:induction false} WithoutProductUnchanged(products: seq<CartItem>, id: ProductId)
    requires forall k :: 0 <= k < |products| ==> products[k].product != Some(id)
    ensures WithoutProduct(products, id) == products
  {
    if products != [] {
      assert forall k :: 0 <= k < |products[1..]| ==> products[1..][k].product != Some(id) by {
        forall k | 0 <= k < |products[1..]| ensures products[1..][k].product != Some(id) {
          assert products[1..][k] == products[k + 1];
        }
      }
      WithoutProductUnchanged(products[1..], id);
      assert products == [products[0]] + products[1..];
    }
  }

  /** A user's cart. */
  class Cart {
    const user: UserId
    var products: seq<CartItem>

    /** `new Cart({ user, products: [] })`. */
    constructor (user: UserId)
      ensures this.user == user && products == []
    {
      this.user := user;
      products := [];
    }

    /** `products[i].quantity += q`. */
    method AddQuantity(i: nat, q: int)
      requires i < |products|
      modifies this`products
      ensures |products| == |old(products)|
      ensures products[i] == old(products)[i].(quantity := old(products)[i].quantity + q)
      ensures forall j :: 0 <= j < |products| && j != i ==> products[j] == old(products)[j]
    {
      products := products[i := products[i].(quantity := products[i].quantity + q)];
    }

    /** `products.push(item)`. */
    method Append(item: CartItem)
      modifies this`products
      ensures products == old(products) + [item]
    {
      products := products + [item];
    }

    /** `products.splice(i, 1)`. */
    method RemoveAt(i: nat)
      requires i < |products|
      modifies this`products
      ensures products == old(products)[..i] + old(products)[i + 1..]
    {
      products := products[..i] + products[i + 1..];
    }

    /** `products = products.filter(...)` for a product id. */
    method RemoveProduct(id: ProductId)
      modifies this`products
      ensures products == WithoutProduct(old(products), id)
    {
      products := WithoutProduct(products, id);
    }

    /** `products = []`. */
    method Clear()
      modifies this`products
      ensures products == []
    {
      products := [];
    }
  }
}
