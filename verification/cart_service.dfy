/** The cart handlers (controllers/cartController.js): add an item, remove
    an item, clear the cart. The cart store lookup `Cart.findOne({ user })`
    is a parameter (null when the user has no cart); an error response
    leaves the stored cart as it was. */
module CartService {
  import opened Wrappers
  import opened Common
  import opened CartModel
  import Text

  /** The body of an add-to-cart request. `quantity` is absent or a number. */
  datatype AddRequest = AddRequest(
    itemType: string,
    productId: string,
    quantity: Option<int>,
    customData: Option<CustomPayload>)

  /** The products list a successful add leaves behind, or the status of the
      error response: a standard item needs a valid product id and merges
      into the first standard item for that id (adding an absent quantity to
      it is NaN, which fails the save with 500), otherwise it is appended; a
      custom item needs a non-empty name and a non-zero price and is always
      appended; any other item type is refused. */
  function AddOutcome(products: seq<CartItem>, req: AddRequest): (r: Result<seq<CartItem>>)
    ensures r.Err? ==> r.code == BAD_REQUEST || r.code == SERVER_ERROR
    ensures r.Err? && r.code == SERVER_ERROR <==>
              req.itemType == "standard" && IsValidObjectId(req.productId) &&
              FindStandard(products, req.productId).Some? && req.quantity.None?
    ensures r.Ok? ==> |r.value| == |products| ||
                      (|r.value| == |products| + 1 && r.value[..|products|] == products)
    ensures r.Ok? ==> req.itemType == "standard" || req.itemType == "custom"
    ensures req.itemType != "standard" && req.itemType != "custom" ==> r == Err(BAD_REQUEST)
    ensures req.itemType == "standard" && !IsValidObjectId(req.productId) ==> r == Err(BAD_REQUEST)
    ensures req.itemType == "custom" ==>
              (r == Err(BAD_REQUEST) <==>
                 req.customData.None? || req.customData.value.name == "" || req.customData.value.price == 0)
    ensures req.itemType == "custom" && r.Ok? ==>
              r.value == products + [CartItem(Custom, None, QuantityOrDefault(req.quantity), req.customData)]
  {
    if req.itemType == "standard" then
      if !IsValidObjectId(req.productId) then Err(BAD_REQUEST)
      else
        match FindStandard(products, req.productId)
        case Some(i) =>
          if req.quantity.None? then Err(SERVER_ERROR)
          else Ok(products[i := products[i].(quantity := products[i].quantity + req.quantity.value)])
        case None =>
          var item := CartItem(Standard, Some(CanonicalId(req.productId)), QuantityOrDefault(req.quantity), None);
          assert (products + [item])[..|products|] == products;
          Ok(products + [item])
    else if req.itemType == "custom" then
      if req.customData.None? || req.customData.value.name == "" || req.customData.value.price == 0 then
        Err(BAD_REQUEST)
      else
        var item := CartItem(Custom, None, QuantityOrDefault(req.quantity), req.customData);
        assert (products + [item])[..|products|] == products;
        Ok(products + [item])
    else Err(BAD_REQUEST)
  }

  /** The products list of the cart a lookup returned (none: empty). */
  function ProductsOf(cart: Cart?): seq<CartItem>
    reads cart
  {
    if cart == null then [] else cart.products
  }

  /** `addToCart`: the cart found for the user, or a new empty one, takes the
      item; it is saved only when the response is 200. */
  method AddToCart(user: UserId, existing: Cart?, req: AddRequest) returns (r: Result<Cart>)
    requires existing != null ==> existing.user == user
    modifies existing
    ensures var outcome := AddOutcome(old(ProductsOf(existing)), req);
            (r.Ok? <==> outcome.Ok?) &&
            (r.Ok? ==> r.value.user == user && r.value.products == outcome.value) &&
            (r.Err? ==> r.code == outcome.code)
    ensures r.Ok? && existing != null ==> r.value == existing
    ensures r.Ok? && existing == null ==> fresh(r.value)
    ensures r.Err? && existing != null ==> existing.products == old(existing.products)
  {
    var cart := existing;
    if cart == null {
      cart := new Cart(user);
    }
    if req.itemType == "standard" {
      if !IsValidObjectId(req.productId) {
        return Err(BAD_REQUEST);
      }
      var idx := FindStandard(cart.products, req.productId);
      if idx.Some? {
        if req.quantity.None? {
          return Err(SERVER_ERROR);
        }
        cart.AddQuantity(idx.value, req.quantity.value);
      } else {
        cart.Append(CartItem(Standard, Some(CanonicalId(req.productId)), QuantityOrDefault(req.quantity), None));
      }
    } else if req.itemType == "custom" {
      if req.customData.None? || req.customData.value.name == "" || req.customData.value.price == 0 {
        return Err(BAD_REQUEST);
      }
      cart.Append(CartItem(Custom, None, QuantityOrDefault(req.quantity), req.customData));
    } else {
      return Err(BAD_REQUEST);
    }
    return Ok(cart);
  }

  /** Adding a standard product that is not yet in the cart appends one item
      holding the canonical id and the given quantity (1 when absent). */
  lemma AddNewStandard(products: seq<CartItem>, req: AddRequest)
    requires req.itemType == "standard" && IsValidObjectId(req.productId)
    requires forall k :: 0 <= k < |products| ==> !IsStandardOf(products[k], req.productId)
    ensures AddOutcome(products, req) ==
            Ok(products + [CartItem(Standard, Some(CanonicalId(req.productId)), QuantityOrDefault(req.quantity), None)])
  {
  }

  /** Adding a standard product already in the cart with a quantity raises
      that item's quantity and changes nothing else. */
  lemma AddExistingStandard(products: seq<CartItem>, req: AddRequest, i: nat)
    requires req.itemType == "standard" && IsValidObjectId(req.productId) && req.quantity.Some?
    requires i < |products| && IsStandardOf(products[i], req.productId)
    requires forall k :: 0 <= k < i ==> !IsStandardOf(products[k], req.productId)
    ensures AddOutcome(products, req).Ok?
    ensures var after := AddOutcome(products, req).value;
            |after| == |products| &&
            after[i].quantity == products[i].quantity + req.quantity.value &&
            after[i].product == products[i].product &&
            forall k :: 0 <= k < |products| && k != i ==> after[k] == products[k]
  {
  }

  /** Two adds of the same lower-case product id to a cart without it leave
      one item whose quantity is the sum. */
  lemma AddStandardTwiceMerges(products: seq<CartItem>, id: ProductId, a: int, b: int)
    requires IsValidObjectId(id) && CanonicalId(id) == id
    requires forall k :: 0 <= k < |products| ==> !IsStandardOf(products[k], id)
    ensures AddOutcome(products, AddRequest("standard", id, Some(a), None)).Ok?
    ensures var once := AddOutcome(products, AddRequest("standard", id, Some(a), None)).value;
            AddOutcome(once, AddRequest("standard", id, Some(b), None)) ==
            Ok(products + [CartItem(Standard, Some(id), a + b, None)])
  {
    var once := products + [CartItem(Standard, Some(id), a, None)];
    assert AddOutcome(products, AddRequest("standard", id, Some(a), None)) == Ok(once);
    assert FindStandard(once, id) == Some(|products|) by {
      assert forall k :: 0 <= k < |products| ==> once[k] == products[k];
    }
    assert once[|products| := once[|products|].(quantity := a + b)] ==
           products + [CartItem(Standard, Some(id), a + b, None)];
  }

  /** The lookup compares the stored id, printed in lower case, with the id
      as sent: the same product sent twice with an upper-case letter in its
      id is appended twice instead of merged. */
  lemma AddUpperCaseIdTwiceAppends(products: seq<CartItem>, id: ProductId, a: int, b: int)
    requires IsValidObjectId(id) && CanonicalId(id) != id
    requires forall k :: 0 <= k < |products| ==> !IsStandardOf(products[k], id)
    ensures AddOutcome(products, AddRequest("standard", id, Some(a), None)).Ok?
    ensures var once := AddOutcome(products, AddRequest("standard", id, Some(a), None)).value;
            AddOutcome(once, AddRequest("standard", id, Some(b), None)) ==
            Ok(products + [CartItem(Standard, Some(CanonicalId(id)), a, None),
                           CartItem(Standard, Some(CanonicalId(id)), b, None)])
  {
    var item := CartItem(Standard, Some(CanonicalId(id)), a, None);
    var once := products + [item];
    assert AddOutcome(products, AddRequest("standard", id, Some(a), None)) == Ok(once);
    assert FindStandard(once, id).None? by {
      assert forall k :: 0 <= k < |products| ==> once[k] == products[k];
      assert !IsStandardOf(once[|products|], id);
    }
    assert once + [CartItem(Standard, Some(CanonicalId(id)), b, None)] ==
           products + [item, CartItem(Standard, Some(CanonicalId(id)), b, None)];
  }

  // -------------------------------------------------------------------------
  // Removing an item

  const CUSTOM_PREFIX := "custom-"

  /** The position a `custom-<n>` item id names: `parseInt` of the text
      between its first and second dash (None for NaN). */
  function CustomIndex(itemId: string): Option<int> {
    match Text.SecondField(itemId, '-')
    case None => None
    case Some(field) => Text.ParseInt(field)
  }

  /** The products list `removeFromCart` leaves: an id `custom-<n>` drops the
      item at position n of the whole list when n is in range (and nothing
      otherwise); any other id drops every item whose product is that id. */
  function RemoveOutcome(products: seq<CartItem>, itemId: string): (r: seq<CartItem>)
    ensures |r| <= |products|
    ensures Text.StartsWith(itemId, CUSTOM_PREFIX) ==>
              match CustomIndex(itemId)
              case Some(n) => (0 <= n < |products| ==> r == products[..n] + products[n + 1..]) &&
                              (!(0 <= n < |products|) ==> r == products)
              case None => r == products
    ensures !Text.StartsWith(itemId, CUSTOM_PREFIX) ==> r == WithoutProduct(products, itemId)
    ensures !Text.StartsWith(itemId, CUSTOM_PREFIX) ==> forall x :: x in r ==> x.product != Some(itemId)
  {
    if Text.StartsWith(itemId, CUSTOM_PREFIX) then
      match CustomIndex(itemId)
      case Some(n) => if 0 <= n < |products| then products[..n] + products[n + 1..] else products
      case None => products
    else
      WithoutProductShrinks(products, itemId);
      WithoutProductKeeps(products, itemId);
      WithoutProduct(products, itemId)
  }

  lemma {:induction false} WithoutProductShrinks(products: seq<CartItem>, id: ProductId)
    ensures |WithoutProduct(products, id)| <= |products|
  {
    if products != [] {
      WithoutProductShrinks(products[1..], id);
    }
  }

  /** The id the client builds for the custom item at position n
      (`custom-` followed by n in decimal) removes exactly that item. */
  lemma RemoveCustomAt(products: seq<CartItem>, n: nat)
    requires n < |products|
    ensures RemoveOutcome(products, CUSTOM_PREFIX + Text.ToDecimal(n)) == products[..n] + products[n + 1..]
  {
    var id := CUSTOM_PREFIX + Text.ToDecimal(n);
    assert Text.StartsWith(id, CUSTOM_PREFIX) by {
      assert id[..|CUSTOM_PREFIX|] == CUSTOM_PREFIX;
    }
    assert CustomIndex(id) == Some(n) by {
      SecondFieldOfCustomId(n);
      Text.ParseDecimal(n, []);
      assert Text.ToDecimal(n) + [] == Text.ToDecimal(n);
    }
  }

  /** `parseInt` reads a `0x` index in hexadecimal: `custom-0x1` removes
      the item at position 1, and `custom-0x`, which is NaN, removes
      nothing. */
  lemma RemoveCustomHex(products: seq<CartItem>)
    requires |products| >= 2
    ensures RemoveOutcome(products, CUSTOM_PREFIX + "0x1") == products[..1] + products[2..]
    ensures RemoveOutcome(products, CUSTOM_PREFIX + "0x") == products
  {
    var one, bare := CUSTOM_PREFIX + "0x1", CUSTOM_PREFIX + "0x";
    assert Text.StartsWith(one, CUSTOM_PREFIX) by {
      assert one[..|CUSTOM_PREFIX|] == CUSTOM_PREFIX;
    }
    assert Text.StartsWith(bare, CUSTOM_PREFIX) by {
      assert bare[..|CUSTOM_PREFIX|] == CUSTOM_PREFIX;
    }
    assert CustomIndex(one) == Some(1) by {
      assert one == "custom" + "-0x1";
      SecondFieldSkip("custom", "-0x1", '-');
      TakeUntilAbsent("0x1", '-');
      assert "-0x1"[1..] == "0x1";
      HexIndex();
    }
    assert CustomIndex(bare) == None by {
      assert bare == "custom" + "-0x";
      SecondFieldSkip("custom", "-0x", '-');
      TakeUntilAbsent("0x", '-');
      assert "-0x"[1..] == "0x";
      Text.ParseIntBareHex();
    }
  }

  lemma HexIndex()
    ensures Text.ParseInt("0x1") == Some(1)
  {
    var s := "0x1";
    assert Text.TrimStart(s) == s by { assert !Text.IsSpace(s[0]); }
    assert Text.HasHexMarker(s);
    assert s[2..] == "1";
    assert Text.HexPrefix("1") == "1" by { assert "1"[1..] == []; }
    assert Text.HexValue("1") == 1 by { assert "1"[..0] == []; }
  }

  lemma SecondFieldOfCustomId(n: nat)
    ensures Text.SecondField(CUSTOM_PREFIX + Text.ToDecimal(n), '-') == Some(Text.ToDecimal(n))
  {
    var d := Text.ToDecimal(n);
    assert '-' !in d by {
      assert forall i :: 0 <= i < |d| ==> d[i] != '-';
    }
    TakeUntilAbsent(d, '-');
    assert CUSTOM_PREFIX + d == "custom" + ("-" + d);
    SecondFieldSkip("custom", "-" + d, '-');
    assert ("-" + d)[1..] == d;
  }

  lemma {:induction false} SecondFieldSkip(p: string, s: string, sep: char)
    requires sep !in p
    ensures Text.SecondField(p + s, sep) == Text.SecondField(s, sep)
  {
    if p != [] {
      assert (p + s)[0] == p[0];
      assert (p + s)[1..] == p[1..] + s;
      assert sep !in p[1..];
      SecondFieldSkip(p[1..], s, sep);
    } else {
      assert p + s == s;
    }
  }

  lemma {:induction false} TakeUntilAbsent(s: string, sep: char)
    requires sep !in s
    ensures Text.TakeUntil(s, sep) == s
  {
    if s != [] {
      assert sep !in s[1..];
      TakeUntilAbsent(s[1..], sep);
    }
  }

  /** Adding a standard product the cart does not hold and then removing it
      by its (lower-case) id gives the cart back as it was. */
  lemma AddThenRemoveStandard(products: seq<CartItem>, id: ProductId, quantity: Option<int>)
    requires IsValidObjectId(id) && CanonicalId(id) == id
    requires forall k :: 0 <= k < |products| ==> products[k].product != Some(id)
    ensures AddOutcome(products, AddRequest("standard", id, quantity, None)).Ok?
    ensures RemoveOutcome(AddOutcome(products, AddRequest("standard", id, quantity, None)).value, id) == products
  {
    var item := CartItem(Standard, Some(id), QuantityOrDefault(quantity), None);
    assert AddOutcome(products, AddRequest("standard", id, quantity, None)) == Ok(products + [item]);
    assert !Text.StartsWith(id, CUSTOM_PREFIX) by {
      assert Text.IsHexDigit(id[1]);
      assert id[..|CUSTOM_PREFIX|][1] == id[1];
    }
    WithoutProductAppend(products, [item], id);
    WithoutProductKeeps(products, id);
    assert WithoutProduct([item], id) == [];
  }

  /** Adding a custom item and then removing `custom-<n>`, n being the
      position it was appended at, gives the cart back as it was. */
  lemma AddThenRemoveCustom(products: seq<CartItem>, req: AddRequest)
    requires req.itemType == "custom" && req.customData.Some?
    requires req.customData.value.name != "" && req.customData.value.price != 0
    ensures AddOutcome(products, req).Ok?
    ensures RemoveOutcome(AddOutcome(products, req).value, CUSTOM_PREFIX + Text.ToDecimal(|products|)) == products
  {
    var after := AddOutcome(products, req).value;
    RemoveCustomAt(after, |products|);
    assert after[..|products|] == products;
  }

  /** `removeFromCart`: 404 without a cart, otherwise the cart keeps what
      `RemoveOutcome` leaves and the response is that list. */
  method RemoveFromCart(existing: Cart?, itemId: string) returns (r: Result<seq<CartItem>>)
    modifies existing
    ensures existing == null <==> r == Err(NOT_FOUND)
    ensures existing != null ==> existing.products == RemoveOutcome(old(existing.products), itemId)
    ensures existing != null ==> r == Ok(existing.products)
  {
    if existing == null {
      return Err(NOT_FOUND);
    }
    if Text.StartsWith(itemId, CUSTOM_PREFIX) {
      var index := CustomIndex(itemId);
      if index.Some? && 0 <= index.value < |existing.products| {
        existing.RemoveAt(index.value);
      }
    } else {
      existing.RemoveProduct(itemId);
    }
    return Ok(existing.products);
  }

  /** `clearCart`: 404 without a cart, otherwise the cart is emptied. */
  method ClearCart(existing: Cart?) returns (code: int)
    modifies existing
    ensures existing == null <==> code == NOT_FOUND
    ensures existing != null ==> code == OK && existing.products == []
  {
    if existing == null {
      return NOT_FOUND;
    }
    existing.Clear();
    return OK;
  }
}
