/** The pricing of a customised product (controllers/customizationController.js,
    `submitCustomization`): the base price plus the price of every selected
    add-on, times the quantity. The add-on list a product offers is not a
    field of the product schema; it is a parameter here, `None` when the
    document has none. */
module Customization {
  import opened Wrappers
  import opened Common
  import opened ProductModel

  datatype Addon = Addon(name: string, price: int)

  /** Whether `k` is the position of the first add-on named `name`. */
  predicate FirstNamed(addons: seq<Addon>, name: string, k: int) {
    && 0 <= k < |addons| && addons[k].name == name
    && forall j :: 0 <= j < k ==> addons[j].name != name
  }

  /** The price a selected name adds: that of the first add-on with that
      name, or nothing when no add-on has it. */
  function AddonCharge(addons: seq<Addon>, name: string): (c: int)
    ensures (forall k :: 0 <= k < |addons| ==> addons[k].name != name) ==> c == 0
    ensures forall k :: FirstNamed(addons, name, k) ==> c == addons[k].price
  {
    if addons == [] then 0
    else if addons[0].name == name then addons[0].price
    else
      var c := AddonCharge(addons[1..], name);
      FirstNamedTail(addons, name);
      c
  }

  /** Past a first add-on with another name, the first one named `name` is
      the first one in the rest. */
  lemma FirstNamedTail(addons: seq<Addon>, name: string)
    requires addons != [] && addons[0].name != name
    ensures forall k :: FirstNamed(addons, name, k) ==> FirstNamed(addons[1..], name, k - 1)
    ensures (forall k :: 0 <= k < |addons[1..]| ==> addons[1..][k].name != name) ==>
              forall k :: 0 <= k < |addons| ==> addons[k].name != name
  {
    forall k | FirstNamed(addons, name, k)
      ensures FirstNamed(addons[1..], name, k - 1)
    {
      assert k != 0;
      forall j | 0 <= j < k - 1 ensures addons[1..][j].name != name {
        assert addons[1..][j] == addons[j + 1];
      }
    }
    if forall k :: 0 <= k < |addons[1..]| ==> addons[1..][k].name != name {
      forall k | 0 <= k < |addons| ensures addons[k].name != name {
        if k > 0 {
          assert addons[k] == addons[1..][k - 1];
        }
      }
    }
  }

  /** What a list of selected names adds, name by name. */
  function Charges(addons: seq<Addon>, selected: seq<string>): int {
    if selected == [] then 0
    else Charges(addons, selected[..|selected| - 1]) + AddonCharge(addons, selected[|selected| - 1])
  }

  lemma {:induction false} ChargesAppend(addons: seq<Addon>, a: seq<string>, b: seq<string>)
    ensures Charges(addons, a + b) == Charges(addons, a) + Charges(addons, b)
    decreases |b|
  {
    if b == [] {
      assert a + b == a;
    } else {
      assert (a + b)[..|a + b| - 1] == a + b[..|b| - 1];
      ChargesAppend(addons, a, b[..|b| - 1]);
    }
  }

  /** One more selected name adds its own charge. */
  lemma ChargesStep(addons: seq<Addon>, names: seq<string>, i: nat)
    requires i < |names|
    ensures Charges(addons, names[..i + 1]) == Charges(addons, names[..i]) + AddonCharge(addons, names[i])
  {
    assert names[..i + 1][..i] == names[..i];
  }

  /** A name selected twice is charged twice. */
  lemma SelectedTwiceChargedTwice(addons: seq<Addon>, selected: seq<string>, name: string)
    ensures Charges(addons, selected + [name, name]) == Charges(addons, selected) + 2 * AddonCharge(addons, name)
  {
    ChargesAppend(addons, selected, [name, name]);
    assert [name, name][..1] == [name];
    assert [name][..0] == [];
    assert Charges(addons, [name]) == AddonCharge(addons, name);
    assert Charges(addons, [name, name]) == Charges(addons, [name]) + AddonCharge(addons, name);
  }

  /** Names no add-on has change nothing. */
  lemma {:induction false} UnknownNamesAddNothing(addons: seq<Addon>, selected: seq<string>)
    requires forall i, k :: 0 <= i < |selected| && 0 <= k < |addons| ==> addons[k].name != selected[i]
    ensures Charges(addons, selected) == 0
  {
    if selected != [] {
      UnknownNamesAddNothing(addons, selected[..|selected| - 1]);
    }
  }

  /** The unit price: the base price when nothing is selected; with a
      selection on a product without add-ons, `find` on the missing list
      throws (400); otherwise the base price plus the charges. */
  method UnitPrice(base: int, addons: Option<seq<Addon>>, selected: Option<seq<string>>) returns (r: Result<int>)
    ensures selected.None? ==> r == Ok(base)
    ensures selected.Some? && addons.None? ==> r == (if selected.value == [] then Ok(base) else Err(BAD_REQUEST))
    ensures selected.Some? && addons.Some? ==> r == Ok(base + Charges(addons.value, selected.value))
  {
    if selected.None? {
      return Ok(base);
    }
    var names := selected.value;
    if addons.None? {
      return if names == [] then Ok(base) else Err(BAD_REQUEST);
    }
    var offered := addons.value;
    var total := base;
    var i := 0;
    while i < |names|
      invariant 0 <= i <= |names|
      invariant total == base + Charges(offered, names[..i])
    {
      ChargesStep(offered, names, i);
      total := total + AddonCharge(offered, names[i]);
      i := i + 1;
    }
    assert names[..|names|] == names;
    return Ok(total);
  }

  /** What `submitCustomization` hands to the order it builds. */
  datatype CustomizationOrder = CustomizationOrder(product: ProductId, quantity: int, totalAmount: int, status: string)

  /** `submitCustomization` up to the save: without a product id the
      lookup of `undefined` finds nothing (404); a malformed id fails the
      cast (400); an unknown product is 404; a failing price is 400;
      otherwise the order carries the unit price times the quantity and is
      pending. That order lacks fields the order schema requires, so its
      save fails and the answer is 400 as well. */
  method SubmitCustomization(productId: Option<string>, found: Product?, addons: Option<seq<Addon>>,
                             selected: Option<seq<string>>, quantity: int)
    returns (status: int, order: Option<CustomizationOrder>)
    ensures productId.None? ==> status == NOT_FOUND && order.None?
    ensures productId.Some? && !IsValidObjectId(productId.value) ==> status == BAD_REQUEST && order.None?
    ensures productId.Some? && IsValidObjectId(productId.value) && found == null ==> status == NOT_FOUND && order.None?
    ensures found != null && productId.Some? && IsValidObjectId(productId.value) ==> status == BAD_REQUEST
    ensures order.Some? ==> found != null && productId.Some? && order.value.status == "pending" &&
                            order.value.product == productId.value && order.value.quantity == quantity
    ensures found != null && productId.Some? && IsValidObjectId(productId.value) && (selected.None? || addons.Some?) ==>
              order.Some? && order.value.totalAmount ==
                (found.price + (if selected.Some? then Charges(addons.value, selected.value) else 0)) * quantity
  {
    if productId.None? {
      return NOT_FOUND, None;
    }
    if !IsValidObjectId(productId.value) {
      return BAD_REQUEST, None;
    }
    if found == null {
      return NOT_FOUND, None;
    }
    var unit := UnitPrice(found.price, addons, selected);
    if unit.Err? {
      return BAD_REQUEST, None;
    }
    order := Some(CustomizationOrder(productId.value, quantity, unit.value * quantity, "pending"));
    // the order schema's required email, phone number, shipping address and
    // payment method are all missing: the save is rejected
    status := BAD_REQUEST;
  }
}
